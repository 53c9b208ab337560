/** What a struct can hold, field by field, and that decoding never leaves anything else in it. */
module Structs {
  import opened Varint
  import opened Descriptor
  import opened Decoding
  import opened Conforming
  import opened Reading

  predicate ValueFits(f: Field, v: Value)
    decreases f, 0
  {
    match f.ltype
    case TBool => v == Num(0) || v == Num(1)
    case TVarint => v.Num? && Half(f.dataSize) > 0 && InRange(f, v.n)
    case TUvarint => v.Num? && Half(f.dataSize) > 0 && InRange(f, v.n)
    case TSvarint => v.Num? && Half(f.dataSize) > 0 && InRange(f, v.n)
    case TFixed32 => v.Num? && 0 <= v.n < 0x1_0000_0000
    case TFixed64 => v.Num? && 0 <= v.n < 0x1_0000_0000_0000_0000
    case TBytes => v.Blob? && |v.bytes| + 4 <= f.dataSize
    case TString => v.Blob? && |v.bytes| + 1 <= f.dataSize
    case TFixedBytes => v.Blob? && |v.bytes| == f.dataSize
    case TSubmessage => v.Sub? && StructFits(f.sub, v.slots)
    case TExtension => false
  }

  /** An array holds at most as many items as it has entries; a union one of its members. */
  predicate SlotFits(f: Field, slot: Slot)
    decreases f, 1
  {
    match f.htype
    case Required => slot.One? && ValueFits(f, slot.value)
    case Optional => (if Tracked(f) then slot.Opt? else slot.One?) && ValueFits(f, slot.value)
    case Repeated =>
      slot.Rep? && |slot.items| <= f.arraySize && forall j :: 0 <= j < |slot.items| ==> ValueFits(f, slot.items[j])
    case Oneof => slot.Choice? && (slot.which == f.tag ==> ValueFits(f, slot.value))
  }

  predicate FieldFits(fields: seq<Field>, slots: seq<Slot>, i: nat)
    requires i < |fields|
    decreases fields, 2
  {
    SlotOf(fields, i) < |slots| && SlotFits(fields[i], slots[SlotOf(fields, i)])
  }

  predicate StructFits(fields: seq<Field>, slots: seq<Slot>)
    decreases fields, 3
  {
    |slots| == SlotCount(fields) && forall i :: 0 <= i < |fields| ==> FieldFits(fields, slots, i)
  }

  /** Every default fits where it is put, at any depth. */
  predicate DefaultsFit(fields: seq<Field>)
    decreases fields
  {
    forall i :: 0 <= i < |fields| ==> DefaultFits(fields[i])
  }

  predicate DefaultFits(f: Field)
    decreases f
  {
    if f.ltype.TSubmessage? then DefaultsFit(f.sub)
    else f.htype.Repeated? || f.htype.Oneof? || ValueFits(f, DefaultValue(f))
  }

  // Defaults.

  lemma {:induction false} DefaultValueFits(f: Field)
    requires FieldOk(f) && DefaultFits(f)
    requires f.ltype.TSubmessage? || f.htype.Required? || f.htype.Optional?
    ensures ValueFits(f, DefaultValue(f))
    decreases f, 0
  {
    if f.ltype.TSubmessage? {
      DefaultStructFits(f.sub);
    }
  }

  lemma {:induction false} DefaultStructFits(fields: seq<Field>)
    requires WellFormed(fields) && DefaultsFit(fields)
    ensures StructFits(fields, Defaults(fields, |fields|))
    decreases fields, 1
  {
    forall i | 0 <= i < |fields|
      ensures FieldFits(fields, Defaults(fields, |fields|), i)
    {
      FieldIsOk(fields, i);
      DefaultsAt(fields, i, |fields|);
      DefaultSlotFits(fields[i]);
    }
  }

  lemma {:induction false} DefaultSlotFits(f: Field)
    requires FieldOk(f) && DefaultFits(f)
    ensures SlotFits(f, DefaultSlot(f))
    decreases f, 1
  {
    if f.htype.Required? || f.htype.Optional? {
      DefaultValueFits(f);
    }
  }

  // Decoding.

  /** What a value is decoded into; only a submessage looks at it. */
  predicate DestFits(f: Field, dest: Value) {
    f.ltype.TSubmessage? && dest.Sub? ==> StructFits(f.sub, dest.slots)
  }

  lemma {:induction false} NumberFits(f: Field, s: seq<byte>)
    requires ReadNumber(f, s).Done?
    ensures ValueFits(f, ReadNumber(f, s).value)
  {
    match f.ltype
    case TFixed32 => FourBytesMean(s[..4]);
    case TFixed64 =>
      HighWordMeans(s[..8]);
      FourBytesMean(s[..8][..4]);
      FourBytesMean(s[..8][4..]);
    case _ =>
  }

  lemma {:induction false} BlobFits(f: Field, s: seq<byte>)
    requires ReadBlob(f, s).Done?
    ensures ValueFits(f, ReadBlob(f, s).value)
  {
  }

  lemma {:induction false} ReadFits(f: Field, s: seq<byte>, dest: Value)
    requires FieldOk(f) && DefaultFits(f) && DestFits(f, dest)
    requires ReadValue(f, s, dest).Done?
    ensures ValueFits(f, ReadValue(f, s, dest).value)
    decreases |s|, 2
  {
    if f.ltype.TSubmessage? {
      DecodeFits(f.sub, ReadDelimited(s).value, dest.slots);
    } else if f.ltype.TBytes? || f.ltype.TString? || f.ltype.TFixedBytes? {
      BlobFits(f, s);
    } else {
      NumberFits(f, s);
    }
  }

  lemma {:induction false} PackedFits(f: Field, s: seq<byte>, items: seq<Value>)
    requires FieldOk(f) && DefaultFits(f) && Packable(f.ltype) && SlotFits(f.(htype := Repeated), Rep(items))
    requires ReadPacked(f, s, items).Done?
    ensures SlotFits(f.(htype := Repeated), Rep(ReadPacked(f, s, items).value))
    decreases |s|, 3
  {
    if s == [] {
    } else {
      var p := ReadValue(f, s, Unset);
      ReadFits(f, s, Unset);
      PackedFits(f, p.rest, items + [p.value]);
    }
  }

  lemma {:induction false} FieldDecodeFits(f: Field, s: seq<byte>, wireType: nat, slot: Slot)
    requires FieldOk(f) && DefaultFits(f) && SlotFits(f, slot)
    requires DecodeField(f, s, wireType, slot).Done?
    ensures SlotFits(f, DecodeField(f, s, wireType, slot).value)
    decreases |s|, 4
  {
    match slot
    case One(dest) => ReadFits(f, s, dest);
    case Opt(_, dest) => ReadFits(f, s, dest);
    case Rep(items) =>
      if wireType == 2 && Packable(f.ltype) {
        PackedFits(f, ReadDelimited(s).value, items);
      } else {
        FreshFits(f);
        ReadFits(f, s, DefaultValue(f));
      }
    case Choice(_, _) =>
      FreshFits(f);
      ReadFits(f, s, DefaultValue(f));
  }

  lemma {:induction false} FreshFits(f: Field)
    requires FieldOk(f) && DefaultFits(f)
    ensures DestFits(f, DefaultValue(f))
  {
    if f.ltype.TSubmessage? {
      DefaultValueFits(f);
    }
  }

  /** A slot decoded anew fits its field, and every other member of its union. */
  lemma {:induction false} UpdateFits(fields: seq<Field>, slots: seq<Slot>, i: nat, slot: Slot)
    requires WellFormed(fields) && StructFits(fields, slots) && i < |fields| && SlotOf(fields, i) < |slots|
    requires SlotFits(fields[i], slot) && (slot.Choice? ==> slot.which == fields[i].tag)
    ensures StructFits(fields, slots[SlotOf(fields, i) := slot])
  {
    var after := slots[SlotOf(fields, i) := slot];
    forall j | 0 <= j < |fields|
      ensures FieldFits(fields, after, j)
    {
      assert FieldFits(fields, slots, j);
      if SlotOf(fields, j) == SlotOf(fields, i) {
        MemberFits(fields, i, j, slot);
      }
    }
    assert StructFits(fields, after);
  }

  lemma {:induction false} MemberFits(fields: seq<Field>, i: nat, j: nat, slot: Slot)
    requires WellFormed(fields) && i < |fields| && j < |fields| && SlotOf(fields, i) == SlotOf(fields, j)
    requires SlotFits(fields[i], slot) && (slot.Choice? ==> slot.which == fields[i].tag)
    ensures SlotFits(fields[j], slot)
  {
    if j < i {
      SlotsAscend(fields, j, i);
    } else if i < j {
      SlotsAscend(fields, i, j);
    }
  }

  lemma {:induction false} RecordFits(fields: seq<Field>, tag: nat, wireType: nat, s: seq<byte>, at: Progress)
    requires WellFormed(fields) && DefaultsFit(fields) && StructFits(fields, at.slots)
    requires DecodeOne(fields, tag, wireType, s, at).Done?
    ensures StructFits(fields, DecodeOne(fields, tag, wireType, s, at).value.slots)
    decreases |s|, 5
  {
    var i := Find(fields, tag);
    if i < |fields| {
      var k := SlotOf(fields, i);
      FieldIsOk(fields, i);
      assert FieldFits(fields, at.slots, i) && DefaultFits(fields[i]);
      FieldDecodeFits(fields[i], s, wireType, at.slots[k]);
      UpdateFits(fields, at.slots, i, DecodeField(fields[i], s, wireType, at.slots[k]).value);
    }
  }

  lemma {:induction false} LoopFits(fields: seq<Field>, s: seq<byte>, at: Progress)
    requires WellFormed(fields) && DefaultsFit(fields) && StructFits(fields, at.slots)
    requires DecodeLoop(fields, s, at).Done?
    ensures StructFits(fields, DecodeLoop(fields, s, at).value.slots)
    decreases |s|, 0
  {
    if s == [] {
    } else {
      var t := ReadTag(s);
      if t.value.Tag? {
        var p := DecodeOne(fields, t.value.tag, t.value.wireType, t.rest, at);
        RecordFits(fields, t.value.tag, t.value.wireType, t.rest, at);
        LoopFits(fields, p.rest, p.value);
      }
    }
  }

  /** Decoding into a struct that fits leaves one that fits: no number outside its type, no bytes
    beyond their array, no array with more items than it has entries. */
  lemma {:induction false} DecodeFits(fields: seq<Field>, s: seq<byte>, slots: seq<Slot>)
    requires WellFormed(fields) && DefaultsFit(fields) && StructFits(fields, slots)
    requires DecodeNoinit(fields, s, slots).Done?
    ensures StructFits(fields, DecodeNoinit(fields, s, slots).value)
    decreases |s|, 1
  {
    LoopFits(fields, s, Progress(slots, {}));
  }

  lemma {:induction false} DecodedFits(fields: seq<Field>, s: seq<byte>)
    requires WellFormed(fields) && DefaultsFit(fields) && Decode(fields, s).Done?
    ensures StructFits(fields, Decode(fields, s).value)
  {
    DefaultStructFits(fields);
    DecodeFits(fields, s, Defaults(fields, |fields|));
  }

  // The empty input.

  /** What a field holds that was never decoded: the default it declares, or else zero. */
  predicate HoldsDefault(f: Field, v: Value)
    decreases f, 0
  {
    if f.ltype.TSubmessage? then v.Sub? && HoldsDefaults(f.sub, v.slots)
    else if f.default != Unset then v == f.default
    else
      match f.ltype
      case TBytes => v == Blob([])
      case TString => v == Blob([])
      case TFixedBytes => v.Blob? && |v.bytes| == f.dataSize && forall i :: 0 <= i < |v.bytes| ==> v.bytes[i] == 0
      case _ => v == Num(0)
  }

  predicate SlotHoldsDefault(f: Field, slot: Slot)
    decreases f, 1
  {
    match f.htype
    case Required => slot.One? && HoldsDefault(f, slot.value)
    case Optional =>
      if f.sizeOffset != 0 then slot.Opt? && !slot.has && HoldsDefault(f, slot.value)
      else slot.One? && HoldsDefault(f, slot.value)
    case Repeated => slot == Rep([])
    case Oneof => slot.Choice? && slot.which == 0
  }

  predicate FieldHoldsDefault(fields: seq<Field>, slots: seq<Slot>, i: nat)
    requires i < |fields|
    decreases fields, 2
  {
    SlotOf(fields, i) < |slots| && SlotHoldsDefault(fields[i], slots[SlotOf(fields, i)])
  }

  predicate HoldsDefaults(fields: seq<Field>, slots: seq<Slot>)
    decreases fields, 3
  {
    forall i :: 0 <= i < |fields| ==> FieldHoldsDefault(fields, slots, i)
  }

  lemma {:induction false} DefaultIsHeld(f: Field)
    ensures SlotHoldsDefault(f, DefaultSlot(f))
    decreases f, 1
  {
    if f.ltype.TSubmessage? {
      DefaultsAreHeld(f.sub);
    }
  }

  lemma {:induction false} DefaultsAreHeld(fields: seq<Field>)
    ensures HoldsDefaults(fields, Defaults(fields, |fields|))
    decreases fields, 3
  {
    forall i | 0 <= i < |fields|
      ensures FieldHoldsDefault(fields, Defaults(fields, |fields|), i)
    {
      DefaultsAt(fields, i, |fields|);
      DefaultIsHeld(fields[i]);
    }
  }

  /** Decoding nothing succeeds if and only if none of the first 64 required fields exists, and
    leaves every field at its declared default. */
  lemma {:induction false} EmptyGivesDefaults(fields: seq<Field>)
    ensures Decode(fields, []).Done? <==>
            forall i :: 0 <= i < |fields| && fields[i].htype.Required? ==> RequiredBefore(fields, i) >= 64
    ensures Decode(fields, []).Done? ==> HoldsDefaults(fields, Decode(fields, []).value)
  {
    DefaultsAreHeld(fields);
  }
}
