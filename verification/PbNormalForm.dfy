/** What the round trip keeps: every slot that is present, and of an absent one that it is
  absent. A message whose absent slots hold their defaults comes back unchanged. */
module NormalForm {
  import opened Varint
  import opened Descriptor
  import opened Encoding
  import opened Decoding
  import opened Merging
  import opened Conforming
  import opened RoundTrip

  lemma {:induction false} AllAbsentIsDefault(fields: seq<Field>, slots: seq<Slot>, n: nat)
    requires n <= |fields| && AllAbsent(fields, slots, n)
    requires forall i :: 0 <= i < |fields| ==> fields[i].tag != 0
    ensures Norm(fields, slots, n) == Defaults(fields, |fields|)
  {
    if n == 0 {
    } else {
      AllAbsentIsDefault(fields, slots, n - 1);
      assert Absent(fields[n - 1], slots[SlotOf(fields, n - 1)]);
    }
  }

  lemma {:induction false} NoZeroByte(s: seq<byte>)
    requires 0 !in s
    ensures s == [] || s[0] != 0
  {
  }

  /** A proto3 field is left out only when decoding would put the same value there. */
  lemma {:induction false} ZeroIsDefault(f: Field, v: Value)
    requires FieldOk(f) && ValueOk(f, v) && IsZero(f, v) && f.default == Unset
    ensures NormValue(f, v) == DefaultValue(f)
  {
    match f.ltype
    case TSubmessage =>
      assert forall i :: 0 <= i < |f.sub| ==> FieldOk(f.sub[i]);
      AllAbsentIsDefault(f.sub, v.slots, |f.sub|);
    case TString => NoZeroByte(v.bytes);
    case TFixedBytes => assert v.bytes == Zeros(f.dataSize);
    case _ =>
  }

  /** A slot changes no more once all later fields that share it are absent. */
  lemma {:induction false} LaterAbsent(fields: seq<Field>, slots: seq<Slot>, i: nat, n: nat, k: nat)
    requires i <= n <= |fields| && k < SlotCount(fields) == |slots|
    requires forall j :: i <= j < n && SlotOf(fields, j) == k ==> Absent(fields[j], slots[k])
    ensures Norm(fields, slots, n)[k] == Norm(fields, slots, i)[k]
  {
    if i == n {
    } else {
      LaterAbsent(fields, slots, i, n - 1, k);
    }
  }

  /** A present slot comes back whatever follows it: other members of its oneof are absent. */
  lemma {:induction false} PresentStays(fields: seq<Field>, slots: seq<Slot>, i: nat)
    requires WellFormed(fields) && MessageOk(fields, slots) && i < |fields| && SlotOf(fields, i) < |slots|
    requires !Absent(fields[i], slots[SlotOf(fields, i)])
    ensures SlotOf(fields, i) < SlotCount(fields)
    ensures Normal(fields, slots)[SlotOf(fields, i)] == NormSlot(fields[i], slots[SlotOf(fields, i)])
  {
    DefaultsAt(fields, i, |fields|);
    OthersAbsent(fields, slots, i);
    LastPresent(fields, slots, i);
  }

  lemma {:induction false} LastPresent(fields: seq<Field>, slots: seq<Slot>, i: nat)
    requires i < |fields| && SlotOf(fields, i) < SlotCount(fields) == |slots|
    requires !Absent(fields[i], slots[SlotOf(fields, i)])
    requires forall j :: i < j < |fields| && SlotOf(fields, j) == SlotOf(fields, i) ==>
              Absent(fields[j], slots[SlotOf(fields, i)])
    ensures Normal(fields, slots)[SlotOf(fields, i)] == NormSlot(fields[i], slots[SlotOf(fields, i)])
  {
    LaterAbsent(fields, slots, i + 1, |fields|, SlotOf(fields, i));
  }

  lemma {:induction false} OthersAbsent(fields: seq<Field>, slots: seq<Slot>, i: nat)
    requires WellFormed(fields) && MessageOk(fields, slots) && i < |fields| && SlotOf(fields, i) < |slots|
    requires !Absent(fields[i], slots[SlotOf(fields, i)])
    ensures forall j :: i < j < |fields| && SlotOf(fields, j) == SlotOf(fields, i) ==>
              Absent(fields[j], slots[SlotOf(fields, i)])
  {
    forall j | i < j < |fields| && SlotOf(fields, j) == SlotOf(fields, i)
      ensures Absent(fields[j], slots[SlotOf(fields, i)])
    {
      OtherMember(fields, slots, i, j);
    }
  }

  lemma {:induction false} OtherMember(fields: seq<Field>, slots: seq<Slot>, i: nat, j: nat)
    requires WellFormed(fields) && MessageOk(fields, slots) && i < j < |fields|
    requires SlotOf(fields, i) == SlotOf(fields, j) < |slots| && !Absent(fields[i], slots[SlotOf(fields, i)])
    ensures Absent(fields[j], slots[SlotOf(fields, j)])
  {
    SlotsAscend(fields, i, j);
    SlotIsOk(fields, slots, i);
    SlotIsOk(fields, slots, j);
    assert fields[i].tag != fields[j].tag;
  }

  /** An absent slot of its own keeps its default. */
  lemma {:induction false} AbsentStays(fields: seq<Field>, slots: seq<Slot>, i: nat)
    requires MessageOk(fields, slots) && i < |fields| && SlotOf(fields, i) < |slots| && !fields[i].htype.Oneof?
    requires Absent(fields[i], slots[SlotOf(fields, i)])
    ensures SlotOf(fields, i) < SlotCount(fields)
    ensures Normal(fields, slots)[SlotOf(fields, i)] == DefaultSlot(fields[i])
  {
    var k := SlotOf(fields, i);
    NormBefore(fields, slots, i, i);
    forall j | i <= j < |fields| && SlotOf(fields, j) == k
      ensures Absent(fields[j], slots[k])
    {
      if i < j {
        SlotsAscend(fields, i, j);
      }
    }
    LaterAbsent(fields, slots, i, |fields|, k);
  }

  /** What comes back, slot by slot. Only a has_ flag that is off hides a value. */
  lemma {:induction false} NormalIs(fields: seq<Field>, slots: seq<Slot>, i: nat)
    requires WellFormed(fields) && MessageOk(fields, slots) && i < |fields|
    ensures SlotOf(fields, i) < SlotCount(fields) == |slots|
    ensures var f, slot, r := fields[i], slots[SlotOf(fields, i)], Normal(fields, slots)[SlotOf(fields, i)];
            && (f.htype.Required? || f.htype.Repeated? ==> r == NormSlot(f, slot))
            && (f.htype.Optional? && !Tracked(f) ==> r == NormSlot(f, slot))
            && (Tracked(f) ==> slot.Opt? && r == if slot.has then NormSlot(f, slot) else Opt(false, DefaultValue(f)))
            && (f.htype.Oneof? ==> slot.Choice? && (slot.which == f.tag ==> r == NormSlot(f, slot)))
  {
    FieldIsOk(fields, i);
    SlotIsOk(fields, slots, i);
    var f, slot := fields[i], slots[SlotOf(fields, i)];
    if !Absent(f, slot) {
      PresentStays(fields, slots, i);
    } else {
      DefaultsAt(fields, i, |fields|);
      if !f.htype.Oneof? {
        AbsentStays(fields, slots, i);
        if slot.One? {
          ZeroIsDefault(f, slot.value);
        }
      }
    }
  }

  // Messages that come back unchanged.

  predicate CanonicalValue(f: Field, v: Value)
    decreases f, 0
  {
    v.Sub? ==> Canonical(f.sub, v.slots)
  }

  predicate CanonicalSlot(f: Field, slot: Slot)
    decreases f, 1
  {
    match slot
    case One(v) => CanonicalValue(f, v)
    case Opt(has, v) => if has then CanonicalValue(f, v) else v == DefaultValue(f)
    case Rep(items) => forall j :: 0 <= j < |items| ==> CanonicalValue(f, items[j])
    case Choice(which, v) => which == f.tag ==> CanonicalValue(f, v)
  }

  predicate CanonicalField(fields: seq<Field>, slots: seq<Slot>, i: nat)
    requires i < |fields|
    decreases fields, 2
  {
    SlotOf(fields, i) < |slots| ==> CanonicalSlot(fields[i], slots[SlotOf(fields, i)])
  }

  /** Absent values are defaults, and an empty oneof holds nothing. */
  predicate Canonical(fields: seq<Field>, slots: seq<Slot>)
    decreases fields, 3
  {
    && (forall i :: 0 <= i < |fields| ==> CanonicalField(fields, slots, i))
    && forall k :: 0 <= k < |slots| ==> Owned(fields, slots[k], k)
  }

  /** The slot belongs to a field, and to the chosen one if it is a oneof with a choice. */
  predicate Owned(fields: seq<Field>, slot: Slot, k: nat) {
    slot == Choice(0, Unset)
    || exists i :: 0 <= i < |fields| && SlotOf(fields, i) == k && (slot.Choice? ==> slot.which == fields[i].tag)
  }

  lemma {:induction false} CanonicalItems(f: Field, items: seq<Value>, n: nat)
    requires n <= |items| && FieldOk(f)
    requires forall j :: 0 <= j < |items| ==> ValueOk(f, items[j]) && CanonicalValue(f, items[j])
    ensures NormItems(f, items, n) == items[..n]
    decreases f, 1, n
  {
    if n == 0 {
    } else {
      CanonicalItems(f, items, n - 1);
      CanonicalStays(f, items[n - 1]);
      assert items[..n] == items[..n - 1] + [items[n - 1]];
    }
  }

  lemma {:induction false} CanonicalStays(f: Field, v: Value)
    requires FieldOk(f) && ValueOk(f, v) && CanonicalValue(f, v)
    ensures NormValue(f, v) == v
    decreases f, 0
  {
    if v.Sub? {
      CanonicalIsNormal(f.sub, v.slots);
    }
  }

  lemma {:induction false} CanonicalPresent(f: Field, slot: Slot)
    requires FieldOk(f) && SlotOk(f, slot) && CanonicalSlot(f, slot)
    requires slot.Opt? ==> slot.has
    requires slot.Choice? ==> slot.which == f.tag
    ensures NormSlot(f, slot) == slot
    decreases f, 2
  {
    match slot
    case Rep(items) =>
      CanonicalItems(f, items, |items|);
      assert items[..|items|] == items;
    case _ => CanonicalStays(f, slot.value);
  }

  lemma {:induction false} SlotHasField(fields: seq<Field>, n: nat, k: nat) returns (i: nat)
    requires n < |fields| && k <= SlotOf(fields, n)
    ensures i <= n && SlotOf(fields, i) == k
  {
    if SlotOf(fields, n) == k {
      i := n;
    } else {
      i := SlotHasField(fields, n - 1, k);
    }
  }

  /** An empty oneof stays empty: all its members are absent. */
  lemma {:induction false} EmptySlotStays(fields: seq<Field>, slots: seq<Slot>, i: nat)
    requires WellFormed(fields) && MessageOk(fields, slots) && i < |fields| && SlotOf(fields, i) < |slots|
    requires slots[SlotOf(fields, i)] == Choice(0, Unset)
    ensures SlotOf(fields, i) < SlotCount(fields)
    ensures Normal(fields, slots)[SlotOf(fields, i)] == Choice(0, Unset)
  {
    var k := SlotOf(fields, i);
    DefaultsAt(fields, i, |fields|);
    SlotIsOk(fields, slots, i);
    forall j | 0 <= j < |fields| && SlotOf(fields, j) == k
      ensures Absent(fields[j], slots[k])
    {
      FieldIsOk(fields, j);
    }
    LaterAbsent(fields, slots, 0, |fields|, k);
  }

  lemma {:induction false} OwnedSlotStays(fields: seq<Field>, slots: seq<Slot>, i: nat)
    requires WellFormed(fields) && MessageOk(fields, slots) && i < |fields| && SlotOf(fields, i) < |slots|
    requires CanonicalSlot(fields[i], slots[SlotOf(fields, i)])
    requires slots[SlotOf(fields, i)].Choice? ==> slots[SlotOf(fields, i)].which == fields[i].tag
    ensures SlotOf(fields, i) < SlotCount(fields)
    ensures Normal(fields, slots)[SlotOf(fields, i)] == slots[SlotOf(fields, i)]
    decreases fields, 3
  {
    var slot := slots[SlotOf(fields, i)];
    FieldIsOk(fields, i);
    SlotIsOk(fields, slots, i);
    NormalIs(fields, slots, i);
    if !slot.Opt? || slot.has {
      CanonicalPresent(fields[i], slot);
    }
  }

  /** The field a slot belongs to: the chosen one, if it is a oneof with a choice. */
  lemma {:induction false} OwnerOf(fields: seq<Field>, slots: seq<Slot>, k: nat) returns (i: nat)
    requires |slots| == SlotCount(fields) && Canonical(fields, slots) && k < |slots|
    ensures i < |fields| && SlotOf(fields, i) == k && CanonicalSlot(fields[i], slots[k])
    ensures slots[k].Choice? && slots[k] != Choice(0, Unset) ==> slots[k].which == fields[i].tag
  {
    if slots[k] == Choice(0, Unset) {
      i := SlotHasField(fields, |fields| - 1, k);
    } else {
      assert Owned(fields, slots[k], k);
      i := ChosenOwner(fields, slots[k], k);
    }
    assert CanonicalField(fields, slots, i);
  }

  lemma {:induction false} ChosenOwner(fields: seq<Field>, slot: Slot, k: nat) returns (i: nat)
    requires Owned(fields, slot, k) && slot != Choice(0, Unset)
    ensures i < |fields| && SlotOf(fields, i) == k && (slot.Choice? ==> slot.which == fields[i].tag)
  {
    i :| i < |fields| && SlotOf(fields, i) == k && (slot.Choice? ==> slot.which == fields[i].tag);
  }

  lemma {:induction false} CanonicalSlotStays(fields: seq<Field>, slots: seq<Slot>, k: nat)
    requires WellFormed(fields) && MessageOk(fields, slots) && Canonical(fields, slots) && k < |slots|
    ensures Normal(fields, slots)[k] == slots[k]
    decreases fields, 4
  {
    var i := OwnerOf(fields, slots, k);
    if slots[k] == Choice(0, Unset) {
      EmptySlotStays(fields, slots, i);
    } else {
      OwnedSlotStays(fields, slots, i);
    }
  }

  lemma {:induction false} CanonicalIsNormal(fields: seq<Field>, slots: seq<Slot>)
    requires WellFormed(fields) && MessageOk(fields, slots) && Canonical(fields, slots)
    ensures Normal(fields, slots) == slots
    decreases fields, 5
  {
    forall k | 0 <= k < |slots|
      ensures Normal(fields, slots)[k] == slots[k]
    {
      CanonicalSlotStays(fields, slots, k);
    }
  }

  /** For canonical messages decoding is the exact inverse of encoding. */
  lemma {:induction false} CanonicalRoundTrip(fields: seq<Field>, slots: seq<Slot>)
    requires WellFormed(fields) && MessageOk(fields, slots) && Canonical(fields, slots)
    ensures EncodeMessage(fields, slots).Bytes?
    ensures |EncodeMessage(fields, slots).bytes| < 0x1_0000_0000 ==>
              Decode(fields, EncodeMessage(fields, slots).bytes) == Done(slots, [])
  {
    MessageRoundTrip(fields, slots);
    CanonicalIsNormal(fields, slots);
  }

  /** The same behind a length prefix, whatever follows: pb_decode_delimited inverts
    pb_encode_delimited and stops right after the message. */
  lemma {:induction false} DelimitedMessageRoundTrip(fields: seq<Field>, slots: seq<Slot>, rest: seq<byte>)
    requires WellFormed(fields) && MessageOk(fields, slots)
    ensures EncodeMessage(fields, slots).Bytes?
    ensures |EncodeMessage(fields, slots).bytes| < 0x1_0000_0000 ==>
              DecodeDelimited(fields, LengthPrefixed(EncodeMessage(fields, slots).bytes) + rest,
                              Defaults(fields, |fields|)) == Done(Normal(fields, slots), rest)
  {
    MessageRoundTrip(fields, slots);
    var body := EncodeMessage(fields, slots).bytes;
    if |body| < 0x1_0000_0000 {
      DelimitedRoundTrip(body);
      ReadDelimitedLocal(LengthPrefixed(body), rest);
      assert [] + rest == rest;
    }
  }

  // What well-formed descriptors and conforming messages mean for the encoder and decoder
  // as they run: their preconditions hold.

  lemma {:induction false} WellFormedIsDecodable(fields: seq<Field>)
    requires WellFormed(fields)
    ensures DistinctTags(fields) && Supported(fields)
    decreases fields
  {
    forall i | 0 <= i < |fields|
      ensures Covered(fields[i]) && DistinctTags(fields[i].sub) && Supported(fields[i].sub)
    {
      assert FieldOk(fields[i]);
      WellFormedIsDecodable(fields[i].sub);
    }
  }

  lemma {:induction false} ValueIsSized(f: Field, v: Value)
    requires FieldOk(f) && ValueOk(f, v) && IsSize(EncodeValue(f, v))
    ensures SizedValue(f, v)
    decreases f, 0
  {
    if v.Sub? {
      MessageRoundTrip(f.sub, v.slots);
      ConformingIsSized(f.sub, v.slots);
    }
  }

  lemma {:induction false} ItemsAreSized(f: Field, items: seq<Value>, i: nat)
    requires FieldOk(f) && i < |items| && (forall j :: 0 <= j < |items| ==> ValueOk(f, items[j]))
    requires EncodeItems(f, items, |items|, true).Bytes? && IsSize(EncodeItems(f, items, |items|, true))
    ensures SizedValue(f, items[i])
    decreases f, 1
  {
    ItemsGrow(f, items, i + 1, |items|, true);
    ValueIsSized(f, items[i]);
  }

  lemma {:induction false} ArrayIsSized(f: Field, items: seq<Value>)
    requires FieldOk(f) && items != [] && (forall j :: 0 <= j < |items| ==> ValueOk(f, items[j]))
    requires EncodeArray(f, items).Bytes? && IsSize(EncodeArray(f, items))
    ensures SizedSlot(f, Rep(items))
    decreases f, 2
  {
    if Packable(f.ltype) {
      forall i | 0 <= i < |items|
        ensures EncodeValue(f, items[i]).Bytes? && SizedValue(f, items[i])
      {
        NumberRoundTrip(f, items[i]);
      }
    } else {
      forall i | 0 <= i < |items|
        ensures SizedValue(f, items[i])
      {
        ItemsAreSized(f, items, i);
      }
    }
  }

  lemma {:induction false} SlotIsSized(f: Field, slot: Slot)
    requires FieldOk(f) && SlotOk(f, slot)
    requires EncodeField(f, slot).Bytes? && IsSize(EncodeField(f, slot))
    ensures SizedSlot(f, slot)
    decreases f, 3
  {
    if !Absent(f, slot) {
      match slot
      case Rep(items) => ArrayIsSized(f, items);
      case _ => ValueIsSized(f, slot.value);
    }
  }

  lemma {:induction false} OutputIsSized(fields: seq<Field>, slots: seq<Slot>, i: nat)
    requires i < |fields| && SlotOf(fields, i) < |slots|
    requires EncodeMessage(fields, slots).Bytes? && IsSize(EncodeMessage(fields, slots))
    ensures EncodeField(fields[i], slots[SlotOf(fields, i)]).Bytes?
    ensures IsSize(EncodeField(fields[i], slots[SlotOf(fields, i)]))
  {
    FieldsGrow(fields, slots, i + 1, |fields|);
  }

  lemma {:induction false} FieldIsSized(fields: seq<Field>, slots: seq<Slot>, i: nat)
    requires WellFormed(fields) && MessageOk(fields, slots) && i < |fields|
    requires EncodeMessage(fields, slots).Bytes? && IsSize(EncodeMessage(fields, slots))
    ensures SlotOf(fields, i) < |slots| && SizedSlot(fields[i], slots[SlotOf(fields, i)])
    decreases fields, 4
  {
    FieldIsOk(fields, i);
    SlotIsOk(fields, slots, i);
    OutputIsSized(fields, slots, i);
    SlotIsSized(fields[i], slots[SlotOf(fields, i)]);
  }

  /** A conforming message whose encoding is no longer than a size_t can say may be encoded. */
  lemma {:induction false} ConformingIsSized(fields: seq<Field>, slots: seq<Slot>)
    requires WellFormed(fields) && MessageOk(fields, slots)
    requires EncodeMessage(fields, slots).Bytes? && IsSize(EncodeMessage(fields, slots))
    ensures SizedFields(fields, slots)
    decreases fields, 5
  {
    forall i | 0 <= i < |fields|
      ensures SizedField(fields, slots, i)
    {
      FieldIsSized(fields, slots, i);
    }
  }

  // Edges of the round trip.

  lemma {:induction false} CStringBound(s: seq<byte>, max: nat)
    ensures |CString(s, max)| <= max && 0 !in CString(s, max)
  {
    if s == [] || max == 0 || s[0] == 0 {
    } else {
      CStringBound(s[1..], max - 1);
    }
  }

  /** A string whose array has no room for the terminator is written all the same, but cannot
    be read back: the round trip works if and only if the terminator is inside the array. */
  lemma {:induction false} StringRoundTrip(f: Field, s: seq<byte>)
    requires f.ltype.TString? && f.dataSize < 0x1_0000_0000
    ensures EncodeValue(f, Blob(s)) == Bytes(LengthPrefixed(CString(s, f.dataSize)))
    ensures ReadValue(f, LengthPrefixed(CString(s, f.dataSize)), Unset) == Done(Blob(CString(s, f.dataSize)), [])
            <==> |CString(s, f.dataSize)| < f.dataSize
    ensures |CString(s, f.dataSize)| == f.dataSize ==>
              ReadValue(f, LengthPrefixed(CString(s, f.dataSize)), Unset) == Fail
  {
    CStringBound(s, f.dataSize);
    DelimitedRoundTrip(CString(s, f.dataSize));
  }

  /** The smallest such string: one byte in an array of one. */
  lemma {:induction false} UnterminatedString(f: Field)
    requires f.ltype.TString? && f.dataSize == 1
    ensures EncodeValue(f, Blob([65])) == Bytes([1, 65])
    ensures ReadValue(f, [1, 65], Unset) == Fail
  {
    assert CString([65], 1) == [65] + CString([65][1..], 0);
    assert LengthPrefixed([65]) == [1, 65];
    StringRoundTrip(f, [65]);
  }

  // What is left out.

  lemma {:induction false} ItemsWriteSomething(f: Field, items: seq<Value>, n: nat)
    requires 0 < n <= |items|
    ensures EncodeItems(f, items, n, true) != Bytes([])
  {
  }

  /** A field writes no bytes exactly when it is absent. */
  lemma {:induction false} AbsentWritesNothing(f: Field, slot: Slot)
    ensures EncodeField(f, slot) == Bytes([]) <==> Absent(f, slot)
  {
    if slot.Rep? && slot.items != [] {
      ItemsWriteSomething(f, slot.items, |slot.items|);
    }
  }

  /** No field of the message writes anything, and no oneof has a choice. */
  predicate WritesNothing(fields: seq<Field>, slots: seq<Slot>, i: nat)
    requires i < |fields|
  {
    SlotOf(fields, i) < |slots| &&
    var slot := slots[SlotOf(fields, i)];
    if slot.Choice? then slot.which == 0 else EncodeField(fields[i], slot) == Bytes([])
  }

  lemma {:induction false} AllAbsentWriteNothing(fields: seq<Field>, slots: seq<Slot>, n: nat)
    requires n <= |fields|
    ensures AllAbsent(fields, slots, n) <==> forall i :: 0 <= i < n ==> WritesNothing(fields, slots, i)
  {
    if n == 0 {
    } else {
      AllAbsentWriteNothing(fields, slots, n - 1);
      if SlotOf(fields, n - 1) < |slots| {
        AbsentWritesNothing(fields[n - 1], slots[SlotOf(fields, n - 1)]);
      }
      assert (forall i :: 0 <= i < n ==> WritesNothing(fields, slots, i)) <==>
             (forall i :: 0 <= i < n - 1 ==> WritesNothing(fields, slots, i)) && WritesNothing(fields, slots, n - 1);
    }
  }

  /** A proto3 field is left out exactly when it is zero: the number 0, no bytes, a string that
    ends at once, a submessage in which nothing is written. */
  lemma {:induction false} ZeroIsLeftOut(f: Field, v: Value)
    requires f.htype.Optional?
    ensures v.Num? ==> (EncodeField(f, One(v)) == Bytes([]) <==> v.n == 0)
    ensures v.Blob? && f.ltype.TString? ==> (EncodeField(f, One(v)) == Bytes([]) <==> v.bytes == [] || v.bytes[0] == 0)
    ensures v.Blob? && !f.ltype.TString? ==> (EncodeField(f, One(v)) == Bytes([]) <==> v.bytes == [])
    ensures v.Sub? ==> (EncodeField(f, One(v)) == Bytes([])
                        <==> forall i :: 0 <= i < |f.sub| ==> WritesNothing(f.sub, v.slots, i))
  {
    AbsentWritesNothing(f, One(v));
    if v.Sub? {
      AllAbsentWriteNothing(f.sub, v.slots, |f.sub|);
    }
  }
}
