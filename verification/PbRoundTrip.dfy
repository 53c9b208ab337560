/** Well-formed descriptors, the messages that conform to them, and what decoding gives back
  for a message: the same, except that absent slots hold their defaults. */
module Conforming {
  import opened Descriptor
  import opened Encoding

  predicate FieldOk(f: Field)
    decreases f, 0
  {
    && 1 <= f.tag <= MAX_TAG
    && f.dataSize < 0x1_0000_0000
    && Covered(f)
    && (f.htype.Oneof? ==> f.sizeOffset != 0)
    && (f.htype.Optional? && !Tracked(f) ==> f.default == Unset)
    && WellFormed(f.sub)
  }

  /** Distinct tags in range, a count for each array, and no default but zero for a field
    without a has_ flag. */
  predicate WellFormed(fields: seq<Field>)
    decreases fields, 1
  {
    && (forall i, j :: 0 <= i < j < |fields| ==> fields[i].tag != fields[j].tag)
    && forall i :: 0 <= i < |fields| ==> FieldOk(fields[i])
  }

  /** Values the struct can hold, with strings terminated inside their array. */
  predicate ValueOk(f: Field, v: Value)
    decreases f, 0
  {
    match f.ltype
    case TBool => v == Num(0) || v == Num(1)
    case TVarint => v.Num? && IntSize(f.dataSize) && FitsSigned(v.n, f.dataSize)
    case TUvarint => v.Num? && IntSize(f.dataSize) && FitsUnsigned(v.n, f.dataSize)
    case TSvarint => v.Num? && IntSize(f.dataSize) && FitsSigned(v.n, f.dataSize)
    case TFixed32 => v.Num? && FitsUnsigned(v.n, 4)
    case TFixed64 => v.Num? && FitsUnsigned(v.n, 8)
    case TBytes => v.Blob? && |v.bytes| + BYTES_OFFSET <= f.dataSize
    case TString => v.Blob? && |v.bytes| < f.dataSize && 0 !in v.bytes
    case TFixedBytes => v.Blob? && |v.bytes| == f.dataSize
    case TSubmessage => v.Sub? && MessageOk(f.sub, v.slots)
    case TExtension => false
  }

  predicate SlotOk(f: Field, slot: Slot)
    decreases f, 1
  {
    match f.htype
    case Required => slot.One? && ValueOk(f, slot.value)
    case Optional =>
      if Tracked(f) then slot.Opt? && (slot.has ==> ValueOk(f, slot.value)) else slot.One? && ValueOk(f, slot.value)
    case Repeated =>
      slot.Rep? && |slot.items| <= f.arraySize && forall i :: 0 <= i < |slot.items| ==> ValueOk(f, slot.items[i])
    case Oneof => slot.Choice? && (slot.which == f.tag ==> ValueOk(f, slot.value))
  }

  predicate FieldSlotOk(fields: seq<Field>, slots: seq<Slot>, i: nat)
    requires i < |fields|
    decreases fields, 2
  {
    SlotOf(fields, i) < |slots| && SlotOk(fields[i], slots[SlotOf(fields, i)])
  }

  predicate MessageOk(fields: seq<Field>, slots: seq<Slot>)
    decreases fields, 3
  {
    |slots| == SlotCount(fields) && forall i :: 0 <= i < |fields| ==> FieldSlotOk(fields, slots, i)
  }

  // What decoding gives back.

  function NormValue(f: Field, v: Value): Value
    decreases f, 0
  {
    if v.Sub? then Sub(Norm(f.sub, v.slots, |f.sub|)) else v
  }

  function NormItems(f: Field, items: seq<Value>, n: nat): (r: seq<Value>)
    requires n <= |items|
    ensures |r| == n
    decreases f, 1, n
  {
    if n == 0 then [] else NormItems(f, items, n - 1) + [NormValue(f, items[n - 1])]
  }

  function NormSlot(f: Field, slot: Slot): Slot
    decreases f, 2
  {
    match slot
    case One(v) => One(NormValue(f, v))
    case Opt(has, v) => Opt(has, NormValue(f, v))
    case Rep(items) => Rep(NormItems(f, items, |items|))
    case Choice(which, v) => Choice(which, NormValue(f, v))
  }

  /** The defaults, overwritten by those of the first n fields that are present. */
  function Norm(fields: seq<Field>, slots: seq<Slot>, n: nat): (r: seq<Slot>)
    requires n <= |fields|
    ensures |r| == SlotCount(fields)
    decreases fields, n
  {
    if n == 0 then
      Defaults(fields, |fields|)
    else
      var before, k := Norm(fields, slots, n - 1), SlotOf(fields, n - 1);
      if k < |slots| && k < |before| && !Absent(fields[n - 1], slots[k])
      then before[k := NormSlot(fields[n - 1], slots[k])] else before
  }

  function Normal(fields: seq<Field>, slots: seq<Slot>): seq<Slot> {
    Norm(fields, slots, |fields|)
  }

  /** What a well-formed descriptor and a conforming message say of one field. */
  lemma {:induction false} FieldIsOk(fields: seq<Field>, i: nat)
    requires WellFormed(fields) && i < |fields|
    ensures FieldOk(fields[i])
  {
  }

  lemma {:induction false} SlotIsOk(fields: seq<Field>, slots: seq<Slot>, i: nat)
    requires MessageOk(fields, slots) && i < |fields|
    ensures SlotOf(fields, i) < |slots| == SlotCount(fields) && SlotOk(fields[i], slots[SlotOf(fields, i)])
  {
    assert FieldSlotOk(fields, slots, i);
  }

  // Slots.

  lemma {:induction false} SlotsAscend(fields: seq<Field>, i: nat, j: nat)
    requires i < j < |fields|
    ensures SlotOf(fields, i) <= SlotOf(fields, j)
    ensures SlotOf(fields, i) == SlotOf(fields, j) ==> fields[i].htype.Oneof? && fields[j].htype.Oneof?
  {
    if i == j - 1 {
    } else {
      SlotsAscend(fields, i, j - 1);
    }
  }

  lemma {:induction false} DefaultsAt(fields: seq<Field>, i: nat, n: nat)
    requires i < n <= |fields|
    ensures SlotOf(fields, i) < |Defaults(fields, n)|
    ensures Defaults(fields, n)[SlotOf(fields, i)] == DefaultSlot(fields[i])
  {
    if i < n - 1 {
      DefaultsAt(fields, i, n - 1);
    } else if Joined(fields, i) {
      DefaultsAt(fields, i - 1, i);
    }
  }

  /** What a slot may hold before its field is decoded: its default, or some member of its oneof. */
  predicate Untouched(f: Field, slot: Slot) {
    if f.htype.Oneof? then slot.Choice? else slot == DefaultSlot(f)
  }

  /** A slot no field before n has is as it was. */
  lemma {:induction false} NormElsewhere(fields: seq<Field>, slots: seq<Slot>, n: nat, k: nat)
    requires n <= |fields| && k < SlotCount(fields)
    requires forall j :: 0 <= j < n ==> SlotOf(fields, j) != k
    ensures Norm(fields, slots, n)[k] == Defaults(fields, |fields|)[k]
  {
    if n == 0 {
    } else {
      NormElsewhere(fields, slots, n - 1, k);
      assert SlotOf(fields, n - 1) != k;
    }
  }

  lemma {:induction false} NormChoice(fields: seq<Field>, slots: seq<Slot>, n: nat, k: nat)
    requires n <= |fields| && k < SlotCount(fields) == |slots|
    requires Defaults(fields, |fields|)[k].Choice? && slots[k].Choice?
    ensures Norm(fields, slots, n)[k].Choice?
  {
    if n == 0 {
    } else {
      NormChoice(fields, slots, n - 1, k);
    }
  }

  lemma {:induction false} NormBefore(fields: seq<Field>, slots: seq<Slot>, n: nat, i: nat)
    requires n <= i < |fields| && MessageOk(fields, slots)
    ensures SlotOf(fields, i) < SlotCount(fields)
    ensures Untouched(fields[i], Norm(fields, slots, n)[SlotOf(fields, i)])
  {
    var k := SlotOf(fields, i);
    DefaultsAt(fields, i, |fields|);
    if fields[i].htype.Oneof? {
      SlotIsOk(fields, slots, i);
      NormChoice(fields, slots, n, k);
    } else {
      forall j | 0 <= j < n
        ensures SlotOf(fields, j) != k
      {
        SlotsAscend(fields, j, i);
      }
      NormElsewhere(fields, slots, n, k);
    }
  }
}

/** pb_decode of pb_encode's bytes succeeds and gives the message back. */
module RoundTrip {
  import Bits
  import opened Varint
  import opened Descriptor
  import opened Encoding
  import opened Decoding
  import opened Merging
  import opened Conforming

  // Numbers.

  lemma {:induction false} LittleEndianInverse(v: nat, n: nat)
    requires v < Bits.Shl(1, 8 * n)
    ensures FromLittleEndian(LittleEndian(v, n)) == v
  {
    if n == 0 {
    } else {
      ShlByte(8 * (n - 1));
      LittleEndianInverse(v / 256, n - 1);
    }
  }

  lemma {:induction false} ShlByte(n: nat)
    ensures Bits.Shl(1, n + 8) == 256 * Bits.Shl(1, n)
  {
    Bits.ShlSeven(1, n);
  }

  lemma {:induction false} FixedRoundTrip(v: nat, n: nat)
    requires (n == 4 && v < 0x1_0000_0000) || (n == 8 && v < 0x1_0000_0000_0000_0000)
    ensures ReadFixed(LittleEndian(v, n), n) == Done(Num(v), [])
  {
    Bits.ShlLimits(1);
    assert Bits.Shl(1, 64) == 2 * Bits.Shl(1, 63);
    LittleEndianInverse(v, n);
    assert LittleEndian(v, n)[..n] == LittleEndian(v, n);
  }

  lemma {:induction false} IntRoundTrip(n: int, size: nat)
    requires IntSize(size) && FitsSigned(n, size)
    ensures IntFrom(Unsigned64(n), size) == Done(Num(n), [])
  {
    if size != 8 && n < 0 {
      Bits.Low32Wraps(0xFFFF_FFFF, n + 0x1_0000_0000);
    }
  }

  lemma {:induction false} ReadWhole(v: nat)
    requires v < 0x1_0000_0000_0000_0000
    ensures Read(Encode(v)) == Done(v, [])
  {
    ReadEncode(v, []);
    assert Encode(v) + [] == Encode(v);
  }

  lemma {:induction false} NumberRoundTrip(f: Field, v: Value)
    requires ValueOk(f, v) && v.Num? && Packable(f.ltype)
    ensures EncodeNumber(f, v.n).Bytes?
    ensures ReadNumber(f, EncodeNumber(f, v.n).bytes) == Done(v, [])
  {
    match f.ltype
    case TBool =>
      Read32Encode(v.n, []);
      assert Encode(v.n) + [] == Encode(v.n);
    case TVarint =>
      ReadWhole(Unsigned64(v.n));
      IntRoundTrip(v.n, f.dataSize);
    case TUvarint => ReadWhole(v.n);
    case TSvarint =>
      ZigZagIs(v.n);
      ZigZagInverse(v.n, 0);
      ReadWhole(ZigZag(v.n));
    case TFixed32 => FixedRoundTrip(v.n, 4);
    case TFixed64 => FixedRoundTrip(v.n, 8);
  }

  // Length-delimited data.

  lemma {:induction false} DelimitedRoundTrip(s: seq<byte>)
    requires |s| < 0x1_0000_0000
    ensures Read32(LengthPrefixed(s)) == Done(|s|, s)
    ensures ReadDelimited(LengthPrefixed(s)) == Done(s, [])
  {
    Read32Encode(|s|, s);
    assert s[..|s|] == s && s[|s|..] == [];
  }

  lemma {:induction false} CStringWhole(s: seq<byte>, max: nat)
    requires 0 !in s && |s| <= max
    ensures CString(s, max) == s
  {
    if s == [] {
    } else {
      assert s[0] in s;
      CStringWhole(s[1..], max - 1);
    }
  }

  lemma {:induction false} BlobRoundTrip(f: Field, v: Value)
    requires FieldOk(f) && ValueOk(f, v) && v.Blob?
    ensures EncodeBlob(f, v.bytes).Bytes?
    ensures ReadBlob(f, EncodeBlob(f, v.bytes).bytes) == Done(v, [])
  {
    DelimitedRoundTrip(v.bytes);
    match f.ltype
    case TBytes =>
    case TString => CStringWhole(v.bytes, f.dataSize);
    case TFixedBytes =>
      if v.bytes == [] {
        assert Zeros(f.dataSize) == [];
      }
  }

  // Tags and records.

  lemma {:induction false} TagRoundTrip(wt: WireType, tag: nat, rest: seq<byte>)
    requires 1 <= tag <= MAX_TAG
    ensures ReadTag(EncodeTag(wt, tag) + rest) == Done(Tag(tag, WireNumber(wt)), rest)
  {
    Read32Encode(8 * tag + WireNumber(wt), rest);
  }

  lemma {:induction false} FindIs(fields: seq<Field>, i: nat)
    requires i < |fields| && WellFormed(fields)
    ensures Find(fields, fields[i].tag) == i
  {
    var j := Find(fields, fields[i].tag);
    assert j <= i;
  }

  function SeenWith(fields: seq<Field>, i: nat, seen: set<nat>): set<nat>
    requires i < |fields|
  {
    if fields[i].htype.Required? then seen + {i} else seen
  }

  /** One record of field i, decoded at a field boundary. */
  lemma {:induction false} RecordDecodes(fields: seq<Field>, i: nat, wt: WireType, payload: seq<byte>, at: Progress,
                                         slot: Slot)
    requires WellFormed(fields) && i < |fields| && SlotOf(fields, i) < |at.slots|
    requires DecodeField(fields[i], payload, WireNumber(wt), at.slots[SlotOf(fields, i)]) == Done(slot, [])
    ensures var s := EncodeTag(wt, fields[i].tag) + payload;
            var next := Progress(at.slots[SlotOf(fields, i) := slot], SeenWith(fields, i, at.seen));
            Complete(fields, s, at) && DecodeLoop(fields, s, at) == Done(next, [])
  {
    var s := EncodeTag(wt, fields[i].tag) + payload;
    var next := Progress(at.slots[SlotOf(fields, i) := slot], SeenWith(fields, i, at.seen));
    FindIs(fields, i);
    TagRoundTrip(wt, fields[i].tag, payload);
    assert DecodeOne(fields, fields[i].tag, WireNumber(wt), payload, at) == Done(next, []);
    assert Complete(fields, [], next) && DecodeLoop(fields, [], next) == Done(next, []);
    assert s != [];
  }

  // Values, items, fields, messages: the recursion follows the descriptor tree.

  /** Encoding succeeds, and decoding over the default gives the normal form back. */
  ghost predicate ValueComesBack(f: Field, v: Value) {
    EncodeValue(f, v).Bytes? &&
    var s := EncodeValue(f, v).bytes;
    |s| < 0x1_0000_0000 ==> ReadValue(f, s, DefaultValue(f)) == Done(NormValue(f, v), [])
  }

  lemma {:induction false} ValueRoundTrip(f: Field, v: Value)
    requires FieldOk(f) && ValueOk(f, v)
    ensures ValueComesBack(f, v)
    decreases f, 0
  {
    match f.ltype
    case TSubmessage => SubmessageRoundTrip(f, v.slots);
    case TBytes => BlobRoundTrip(f, v);
    case TString => BlobRoundTrip(f, v);
    case TFixedBytes => BlobRoundTrip(f, v);
    case _ => NumberRoundTrip(f, v);
  }

  lemma {:induction false} SubmessageRoundTrip(f: Field, slots: seq<Slot>)
    requires f.ltype.TSubmessage? && FieldOk(f) && MessageOk(f.sub, slots)
    ensures ValueComesBack(f, Sub(slots))
    decreases f, 0, 0
  {
    MessageRoundTrip(f.sub, slots);
    var body := EncodeMessage(f.sub, slots).bytes;
    if |LengthPrefixed(body)| < 0x1_0000_0000 {
      DelimitedRoundTrip(body);
    }
  }

  /** Decoding s at a field boundary consumes it as whole records and leads from at to next. */
  ghost predicate Leads(fields: seq<Field>, s: seq<byte>, at: Progress, next: Progress) {
    Complete(fields, s, at) && DecodeLoop(fields, s, at) == Done(next, [])
  }

  lemma {:induction false} LeadsOn(fields: seq<Field>, a: seq<byte>, b: seq<byte>, at: Progress, mid: Progress,
                                   next: Progress)
    requires Leads(fields, a, at, mid) && Leads(fields, b, mid, next)
    ensures Leads(fields, a + b, at, next)
  {
    LoopGoesOn(fields, a, b, at);
    CompleteJoins(fields, a, b, at);
  }

  // Packed arrays.

  lemma {:induction false} PackedGoesOn(f: Field, a: seq<byte>, b: seq<byte>, items: seq<Value>)
    requires ReadPacked(f, a, items).Done?
    ensures ReadPacked(f, a + b, items) == ReadPacked(f, b, ReadPacked(f, a, items).value)
    decreases |a|
  {
    if a == [] {
      assert a + b == b;
    } else {
      var p := ReadValue(f, a, Unset);
      ReadValueLocal(f, a, b, Unset);
      PackedGoesOn(f, p.rest, b, items + [p.value]);
    }
  }

  /** Packed items are read back one by one, behind those that are there already. */
  lemma {:induction false} PackedRoundTrip(f: Field, before: seq<Value>, items: seq<Value>, n: nat)
    requires n <= |items| && |before| + n <= f.arraySize && Packable(f.ltype)
    requires forall i :: 0 <= i < |items| ==> ValueOk(f, items[i])
    ensures EncodeItems(f, items, n, false).Bytes?
    ensures ReadPacked(f, EncodeItems(f, items, n, false).bytes, before) == Done(before + items[..n], [])
  {
    if n == 0 {
      assert before + items[..0] == before;
    } else {
      PackedRoundTrip(f, before, items, n - 1);
      var front, v := EncodeItems(f, items, n - 1, false).bytes, items[n - 1];
      NumberRoundTrip(f, v);
      var last := EncodeNumber(f, v.n).bytes;
      PackedGoesOn(f, front, last, before);
      PackedLast(f, last, before + items[..n - 1], v);
      assert before + items[..n] == before + items[..n - 1] + [v];
    }
  }

  lemma {:induction false} PackedLast(f: Field, s: seq<byte>, items: seq<Value>, v: Value)
    requires Packable(f.ltype) && |items| < f.arraySize && ReadNumber(f, s) == Done(v, [])
    ensures ReadPacked(f, s, items) == Done(items + [v], [])
  {
    assert s != [];
    assert ReadPacked(f, [], items + [v]) == Done(items + [v], []);
  }

  lemma {:induction false} NumbersAreNormal(f: Field, items: seq<Value>, n: nat)
    requires n <= |items| && forall i :: 0 <= i < |items| ==> !items[i].Sub?
    ensures NormItems(f, items, n) == items[..n]
  {
    if n == 0 {
    } else {
      NumbersAreNormal(f, items, n - 1);
      assert items[..n] == items[..n - 1] + [items[n - 1]];
    }
  }

  // Unpacked arrays.

  lemma {:induction false} ItemsRoundTrip(fields: seq<Field>, i: nat, items: seq<Value>, n: nat, at: Progress)
    requires WellFormed(fields) && i < |fields| && SlotOf(fields, i) < |at.slots|
    requires fields[i].htype.Repeated? && !Packable(fields[i].ltype) && n <= |items| <= fields[i].arraySize
    requires forall j :: 0 <= j < |items| ==> ValueOk(fields[i], items[j])
    requires at.slots[SlotOf(fields, i)] == Rep([])
    ensures EncodeItems(fields[i], items, n, true).Bytes?
    ensures var f, s := fields[i], EncodeItems(fields[i], items, n, true).bytes;
            |s| < 0x1_0000_0000 ==>
              Leads(fields, s, at, Progress(at.slots[SlotOf(fields, i) := Rep(NormItems(f, items, n))], at.seen))
    decreases fields, 1, n
  {
    var f, k := fields[i], SlotOf(fields, i);
    if n == 0 {
      assert at.slots[k := Rep([])] == at.slots;
      assert Complete(fields, [], at);
    } else {
      var front := EncodeItems(f, items, n - 1, true);
      ItemsRoundTrip(fields, i, items, n - 1, at);
      ValueRoundTrip(f, items[n - 1]);
      var last := EncodeTagged(f, items[n - 1]);
      if |front.bytes + last.bytes| < 0x1_0000_0000 {
        var mid := Progress(at.slots[k := Rep(NormItems(f, items, n - 1))], at.seen);
        ItemDecodes(fields, i, items, n, mid);
        LeadsOn(fields, front.bytes, last.bytes, at, mid,
                Progress(mid.slots[k := Rep(NormItems(f, items, n))], at.seen));
        assert mid.slots[k := Rep(NormItems(f, items, n))] == at.slots[k := Rep(NormItems(f, items, n))];
      }
    }
  }

  lemma {:induction false} ItemDecodes(fields: seq<Field>, i: nat, items: seq<Value>, n: nat, at: Progress)
    requires WellFormed(fields) && i < |fields| && SlotOf(fields, i) < |at.slots|
    requires fields[i].htype.Repeated? && !Packable(fields[i].ltype) && 0 < n <= |items| <= fields[i].arraySize
    requires at.slots[SlotOf(fields, i)] == Rep(NormItems(fields[i], items, n - 1))
    requires ValueComesBack(fields[i], items[n - 1])
    requires EncodeTagged(fields[i], items[n - 1]).Bytes?
             && |EncodeTagged(fields[i], items[n - 1]).bytes| < 0x1_0000_0000
    ensures Leads(fields, EncodeTagged(fields[i], items[n - 1]).bytes, at,
                  Progress(at.slots[SlotOf(fields, i) := Rep(NormItems(fields[i], items, n))], at.seen))
  {
    var f := fields[i];
    var payload := EncodeValue(f, items[n - 1]).bytes;
    var slot := Rep(NormItems(f, items, n));
    assert DecodeField(f, payload, WireNumber(WireTypeOf(f.ltype)), at.slots[SlotOf(fields, i)]) == Done(slot, []);
    RecordDecodes(fields, i, WireTypeOf(f.ltype), payload, at, slot);
  }

  // Fields.

  /** One record, when the encoder writes a single value. */
  lemma {:induction false} SingleRoundTrip(fields: seq<Field>, i: nat, slot: Slot, at: Progress)
    requires WellFormed(fields) && i < |fields| && SlotOf(fields, i) < |at.slots|
    requires SlotOk(fields[i], slot) && !Absent(fields[i], slot) && !fields[i].htype.Repeated?
    requires Untouched(fields[i], at.slots[SlotOf(fields, i)])
    requires ValueComesBack(fields[i], slot.value)
    ensures FieldComesBack(fields, i, slot, at)
  {
    var f, k := fields[i], SlotOf(fields, i);
    var payload := EncodeValue(f, slot.value).bytes;
    assert EncodeField(f, slot) == EncodeTagged(f, slot.value);
    if |EncodeField(f, slot).bytes| < 0x1_0000_0000 {
      assert DecodeField(f, payload, WireNumber(WireTypeOf(f.ltype)), at.slots[k]) == Done(NormSlot(f, slot), []);
      RecordDecodes(fields, i, WireTypeOf(f.ltype), payload, at, NormSlot(f, slot));
    }
  }

  lemma {:induction false} ArrayRoundTrip(fields: seq<Field>, i: nat, slot: Slot, at: Progress)
    requires WellFormed(fields) && i < |fields| && SlotOf(fields, i) < |at.slots|
    requires SlotOk(fields[i], slot) && !Absent(fields[i], slot) && fields[i].htype.Repeated?
    requires Untouched(fields[i], at.slots[SlotOf(fields, i)])
    ensures FieldComesBack(fields, i, slot, at)
    decreases fields, 2
  {
    var f, items := fields[i], slot.items;
    if Packable(f.ltype) {
      PackedRoundTrip(f, [], items, |items|);
      assert [] + items[..|items|] == items;
      PackedComesBack(fields, i, slot, at);
    } else {
      ItemsRoundTrip(fields, i, items, |items|, at);
    }
  }

  lemma {:induction false} PackedComesBack(fields: seq<Field>, i: nat, slot: Slot, at: Progress)
    requires WellFormed(fields) && i < |fields| && SlotOf(fields, i) < |at.slots|
    requires SlotOk(fields[i], slot) && slot.Rep? && slot.items != [] && Packable(fields[i].ltype)
    requires at.slots[SlotOf(fields, i)] == Rep([])
    requires EncodeItems(fields[i], slot.items, |slot.items|, false).Bytes?
    requires ReadPacked(fields[i], EncodeItems(fields[i], slot.items, |slot.items|, false).bytes, [])
             == Done(slot.items, [])
    ensures FieldComesBack(fields, i, slot, at)
  {
    var f, items := fields[i], slot.items;
    var data := EncodeItems(f, items, |items|, false).bytes;
    assert EncodeField(f, slot) == Bytes(EncodeTag(WtString, f.tag) + LengthPrefixed(data));
    if |EncodeField(f, slot).bytes| < 0x1_0000_0000 {
      DelimitedRoundTrip(data);
      NumbersAreNormal(f, items, |items|);
      assert items[..|items|] == items;
      assert DecodeField(f, LengthPrefixed(data), 2, Rep([])) == Done(NormSlot(f, slot), []);
      RecordDecodes(fields, i, WtString, LengthPrefixed(data), at, NormSlot(f, slot));
    }
  }

  /** Where decoding the field's bytes leads to. */
  function AfterField(fields: seq<Field>, i: nat, slot: Slot, at: Progress): Progress
    requires i < |fields| && SlotOf(fields, i) < |at.slots|
  {
    if Absent(fields[i], slot) then at
    else Progress(at.slots[SlotOf(fields, i) := NormSlot(fields[i], slot)], SeenWith(fields, i, at.seen))
  }

  ghost predicate FieldComesBack(fields: seq<Field>, i: nat, slot: Slot, at: Progress)
    requires i < |fields| && SlotOf(fields, i) < |at.slots|
  {
    && EncodeField(fields[i], slot).Bytes?
    && (|EncodeField(fields[i], slot).bytes| < 0x1_0000_0000 ==>
          Leads(fields, EncodeField(fields[i], slot).bytes, at, AfterField(fields, i, slot, at)))
  }

  lemma {:induction false} FieldRoundTrip(fields: seq<Field>, i: nat, slot: Slot, at: Progress)
    requires WellFormed(fields) && i < |fields| && SlotOf(fields, i) < |at.slots|
    requires SlotOk(fields[i], slot) && Untouched(fields[i], at.slots[SlotOf(fields, i)])
    ensures FieldComesBack(fields, i, slot, at)
    decreases fields, 3
  {
    var f := fields[i];
    if Absent(f, slot) {
      assert Complete(fields, [], at);
    } else if f.htype.Repeated? {
      ArrayRoundTrip(fields, i, slot, at);
    } else {
      ValueRoundTrip(f, slot.value);
      SingleRoundTrip(fields, i, slot, at);
    }
  }

  // Messages.

  function SeenUpTo(fields: seq<Field>, n: nat): set<nat>
    requires n <= |fields|
  {
    if n == 0 then {} else SeenWith(fields, n - 1, SeenUpTo(fields, n - 1))
  }

  lemma {:induction false} AllRequiredSeen(fields: seq<Field>, n: nat, i: nat)
    requires i < n <= |fields| && fields[i].htype.Required?
    ensures i in SeenUpTo(fields, n)
  {
    if i == n - 1 {
    } else {
      AllRequiredSeen(fields, n - 1, i);
    }
  }

  function StartOf(fields: seq<Field>): Progress {
    Progress(Defaults(fields, |fields|), {})
  }

  /** The first n fields: from the defaults to the normal form of their slots. */
  ghost predicate FieldsComeBack(fields: seq<Field>, slots: seq<Slot>, n: nat)
    requires n <= |fields|
  {
    && EncodeFields(fields, slots, n).Bytes?
    && (|EncodeFields(fields, slots, n).bytes| < 0x1_0000_0000 ==>
          Leads(fields, EncodeFields(fields, slots, n).bytes, StartOf(fields),
                Progress(Norm(fields, slots, n), SeenUpTo(fields, n))))
  }

  lemma {:induction false} FieldsRoundTrip(fields: seq<Field>, slots: seq<Slot>, n: nat)
    requires WellFormed(fields) && MessageOk(fields, slots) && n <= |fields|
    ensures FieldsComeBack(fields, slots, n)
    decreases fields, 5, n
  {
    if n == 0 {
      assert Complete(fields, [], StartOf(fields));
    } else {
      FieldsRoundTrip(fields, slots, n - 1);
      NextRoundTrip(fields, slots, n);
    }
  }

  /** The state before field n - 1, when decoding the fields before it succeeded. */
  function Before(fields: seq<Field>, slots: seq<Slot>, n: nat): Progress
    requires 0 < n <= |fields|
  {
    Progress(Norm(fields, slots, n - 1), SeenUpTo(fields, n - 1))
  }

  lemma {:induction false} NextUntouched(fields: seq<Field>, slots: seq<Slot>, i: nat, before: seq<Slot>)
    requires MessageOk(fields, slots) && i < |fields| && before == Norm(fields, slots, i)
    ensures SlotOf(fields, i) < |before| && Untouched(fields[i], before[SlotOf(fields, i)])
  {
    NormBefore(fields, slots, i, i);
  }

  lemma {:induction false} NextOk(fields: seq<Field>, slots: seq<Slot>, n: nat)
    requires MessageOk(fields, slots) && 0 < n <= |fields|
    ensures SlotOf(fields, n - 1) < |slots| && SlotOf(fields, n - 1) < |Before(fields, slots, n).slots|
    ensures SlotOk(fields[n - 1], slots[SlotOf(fields, n - 1)])
    ensures Untouched(fields[n - 1], Before(fields, slots, n).slots[SlotOf(fields, n - 1)])
  {
    NextUntouched(fields, slots, n - 1, Before(fields, slots, n).slots);
    SlotIsOk(fields, slots, n - 1);
  }

  /** One more field. */
  lemma {:induction false} NextRoundTrip(fields: seq<Field>, slots: seq<Slot>, n: nat)
    requires WellFormed(fields) && MessageOk(fields, slots) && 0 < n <= |fields|
    requires FieldsComeBack(fields, slots, n - 1)
    ensures FieldsComeBack(fields, slots, n)
    decreases fields, 4
  {
    NextOk(fields, slots, n);
    FieldRoundTrip(fields, n - 1, slots[SlotOf(fields, n - 1)], Before(fields, slots, n));
    FieldsGoOn(fields, slots, n);
  }

  lemma {:induction false} FieldsGoOn(fields: seq<Field>, slots: seq<Slot>, n: nat)
    requires 0 < n <= |fields| && |slots| == SlotCount(fields)
    requires FieldsComeBack(fields, slots, n - 1)
    requires SlotOf(fields, n - 1) < |slots| && SlotOf(fields, n - 1) < |Before(fields, slots, n).slots|
    requires FieldComesBack(fields, n - 1, slots[SlotOf(fields, n - 1)], Before(fields, slots, n))
    requires SlotShape(fields[n - 1], slots[SlotOf(fields, n - 1)])
    ensures FieldsComeBack(fields, slots, n)
  {
    var at, slot := Before(fields, slots, n), slots[SlotOf(fields, n - 1)];
    var a, b := EncodeFields(fields, slots, n - 1).bytes, EncodeField(fields[n - 1], slot).bytes;
    if |a + b| < 0x1_0000_0000 {
      FieldStep(fields, slots, n);
      LeadsOn(fields, a, b, StartOf(fields), at, AfterField(fields, n - 1, slot, at));
    }
  }

  /** A required field is never absent. */
  predicate SlotShape(f: Field, slot: Slot) {
    f.htype.Required? ==> slot.One?
  }

  lemma {:induction false} FieldStep(fields: seq<Field>, slots: seq<Slot>, n: nat)
    requires 0 < n <= |fields| && SlotOf(fields, n - 1) < |slots|
             && SlotOf(fields, n - 1) < |Norm(fields, slots, n - 1)|
    requires SlotShape(fields[n - 1], slots[SlotOf(fields, n - 1)])
    ensures AfterField(fields, n - 1, slots[SlotOf(fields, n - 1)], Before(fields, slots, n)) ==
            Progress(Norm(fields, slots, n), SeenUpTo(fields, n))
  {
  }

  /** The round trip: for every well-formed descriptor and conforming message, encoding
    succeeds, and decoding the bytes gives the message's normal form and leaves nothing. */
  lemma {:induction false} MessageRoundTrip(fields: seq<Field>, slots: seq<Slot>)
    requires WellFormed(fields) && MessageOk(fields, slots)
    ensures EncodeMessage(fields, slots).Bytes?
    ensures |EncodeMessage(fields, slots).bytes| < 0x1_0000_0000 ==>
              Decode(fields, EncodeMessage(fields, slots).bytes) == Done(Normal(fields, slots), [])
    decreases fields, 6
  {
    FieldsRoundTrip(fields, slots, |fields|);
    forall i | 0 <= i < |fields| && fields[i].htype.Required?
      ensures i in SeenUpTo(fields, |fields|)
    {
      AllRequiredSeen(fields, |fields|, i);
    }
  }
}
