/** The bytes pb_encode writes for a message, or an error. */
module Encoding {
  import Varint
  import opened Descriptor
  type byte = Varint.byte

  datatype Output = Bytes(bytes: seq<byte>) | Error

  function Then(a: Output, b: Output): Output {
    if a.Bytes? && b.Bytes? then Bytes(a.bytes + b.bytes) else Error
  }

  datatype WireType = WtVarint | Wt64Bit | WtString | Wt32Bit

  function WireNumber(wt: WireType): nat {
    match wt
    case WtVarint => 0
    case Wt64Bit => 1
    case WtString => 2
    case Wt32Bit => 5
  }

  function WireTypeOf(t: LType): WireType {
    match t
    case TFixed32 => Wt32Bit
    case TFixed64 => Wt64Bit
    case TBytes => WtString
    case TString => WtString
    case TSubmessage => WtString
    case TFixedBytes => WtString
    case _ => WtVarint
  }

  function EncodeTag(wt: WireType, tag: nat): seq<byte> {
    Varint.Encode(8 * tag + WireNumber(wt))
  }

  /** The low n bytes of v, least significant first. */
  function LittleEndian(v: nat, n: nat): (s: seq<byte>)
    ensures |s| == n
  {
    if n == 0 then [] else [v % 256] + LittleEndian(v / 256, n - 1)
  }

  /** Conversion of a signed value to uint64_t. */
  function Unsigned64(n: int): nat
    requires FitsSigned(n, 8)
  {
    if n < 0 then n + 0x1_0000_0000_0000_0000 else n
  }

  /** What C reads from a char array: the bytes before the first zero, at most max of them. */
  function CString(s: seq<byte>, max: nat): seq<byte> {
    if s == [] || max == 0 || s[0] == 0 then [] else [s[0]] + CString(s[1..], max - 1)
  }

  function LengthPrefixed(s: seq<byte>): seq<byte> {
    Varint.Encode(|s|) + s
  }

  function Prefixed(body: Output): Output {
    if body.Bytes? then Bytes(LengthPrefixed(body.bytes)) else Error
  }

  /** pb_enc_bool to pb_enc_fixed64. A number outside its field's range is no state of the
    struct; it is an error here. */
  function EncodeNumber(f: Field, n: int): Output {
    match f.ltype
    case TBool => Bytes(Varint.Encode(if n != 0 then 1 else 0))
    case TVarint =>
      if IntSize(f.dataSize) && FitsSigned(n, f.dataSize) then Bytes(Varint.Encode(Unsigned64(n))) else Error
    case TUvarint =>
      if IntSize(f.dataSize) && FitsUnsigned(n, f.dataSize) then Bytes(Varint.Encode(n)) else Error
    case TSvarint =>
      if IntSize(f.dataSize) && FitsSigned(n, f.dataSize) then Bytes(Varint.Encode(Varint.ZigZag(n))) else Error
    case TFixed32 => if FitsUnsigned(n, 4) then Bytes(LittleEndian(n, 4)) else Error
    case TFixed64 => if FitsUnsigned(n, 8) then Bytes(LittleEndian(n, 8)) else Error
    case _ => Error
  }

  /** pb_enc_bytes, pb_enc_string and pb_enc_fixed_length_bytes. */
  function EncodeBlob(f: Field, s: seq<byte>): Output {
    match f.ltype
    case TBytes => if |s| + BYTES_OFFSET > f.dataSize then Error else Bytes(LengthPrefixed(s))
    case TString => Bytes(LengthPrefixed(CString(s, f.dataSize)))
    case TFixedBytes => if |s| == f.dataSize then Bytes(LengthPrefixed(s)) else Error
    case _ => Error
  }

  /** The encoder function of the field's type, PB_ENCODERS. */
  function EncodeValue(f: Field, v: Value): Output
    decreases f, 0
  {
    match v
    case Num(n) => EncodeNumber(f, n)
    case Blob(s) => EncodeBlob(f, s)
    case Sub(slots) =>
      if f.ltype.TSubmessage? then Prefixed(EncodeFields(f.sub, slots, |f.sub|)) else Error
    case Unset => Error
  }

  function EncodeTagged(f: Field, v: Value): Output
    decreases f, 1
  {
    Then(Bytes(EncodeTag(WireTypeOf(f.ltype), f.tag)), EncodeValue(f, v))
  }

  /** The first n items, one after another, each with its tag if tagged. */
  function EncodeItems(f: Field, items: seq<Value>, n: nat, tagged: bool): Output
    requires n <= |items|
    decreases f, 2, n
  {
    if n == 0 then Bytes([])
    else Then(EncodeItems(f, items, n - 1, tagged),
              if tagged then EncodeTagged(f, items[n - 1]) else EncodeValue(f, items[n - 1]))
  }

  /** encode_array: packed if the type allows it. */
  function EncodeArray(f: Field, items: seq<Value>): Output
    decreases f, 3
  {
    if items == [] then
      Bytes([])
    else if |items| > f.arraySize then
      Error
    else if Packable(f.ltype) then
      Then(Bytes(EncodeTag(WtString, f.tag)), Prefixed(EncodeItems(f, items, |items|, false)))
    else
      EncodeItems(f, items, |items|, true)
  }

  /** pb_check_proto3_default_value, for a field without a has_ flag. */
  predicate IsZero(f: Field, v: Value)
    decreases f, 0
  {
    match v
    case Num(n) => n == 0
    case Blob(s) => if f.ltype.TString? then s == [] || s[0] == 0 else s == []
    case Sub(slots) => AllAbsent(f.sub, slots, |f.sub|)
    case Unset => true
  }

  /** Whether the field is left out: the has_ flag, the count, the which_ tag, or zero. */
  predicate Absent(f: Field, slot: Slot)
    decreases f, 1
  {
    match slot
    case One(v) => f.htype.Optional? && IsZero(f, v)
    case Opt(has, _) => !has
    case Rep(items) => items == []
    case Choice(which, _) => which != f.tag
  }

  /** The same test on a submessage. A oneof counts as zero only when nothing is chosen. */
  predicate AllAbsent(fields: seq<Field>, slots: seq<Slot>, n: nat)
    requires n <= |fields|
    decreases fields, n
  {
    n == 0 ||
    (AllAbsent(fields, slots, n - 1) &&
     var k := SlotOf(fields, n - 1);
     k < |slots| && (if slots[k].Choice? then slots[k].which == 0 else Absent(fields[n - 1], slots[k])))
  }

  /** encode_basic_field. */
  function EncodeField(f: Field, slot: Slot): Output
    decreases f, 4
  {
    if Absent(f, slot) then
      Bytes([])
    else
      match slot
      case One(v) => EncodeTagged(f, v)
      case Opt(_, v) => EncodeTagged(f, v)
      case Rep(items) => EncodeArray(f, items)
      case Choice(_, v) => EncodeTagged(f, v)
  }

  /** pb_encode: the first n fields, in order. */
  function EncodeFields(fields: seq<Field>, slots: seq<Slot>, n: nat): Output
    requires n <= |fields|
    decreases fields, n
  {
    if n == 0 then Bytes([])
    else Then(EncodeFields(fields, slots, n - 1), FieldOutput(fields, slots, n - 1))
  }

  /** What field i contributes. */
  function FieldOutput(fields: seq<Field>, slots: seq<Slot>, i: nat): Output
    requires i < |fields|
    decreases fields, i
  {
    if SlotOf(fields, i) < |slots| then EncodeField(fields[i], slots[SlotOf(fields, i)]) else Error
  }

  function EncodeMessage(fields: seq<Field>, slots: seq<Slot>): Output {
    EncodeFields(fields, slots, |fields|)
  }

  lemma {:induction false} FieldsGrow(fields: seq<Field>, slots: seq<Slot>, n: nat, m: nat)
    requires n <= m <= |fields|
    ensures EncodeFields(fields, slots, m).Bytes? ==>
              EncodeFields(fields, slots, n).Bytes?
              && |EncodeFields(fields, slots, n).bytes| <= |EncodeFields(fields, slots, m).bytes|
  {
    if n == m {
    } else {
      FieldsGrow(fields, slots, n, m - 1);
    }
  }

  lemma {:induction false} ItemsGrow(f: Field, items: seq<Value>, n: nat, m: nat, tagged: bool)
    requires n <= m <= |items|
    ensures EncodeItems(f, items, m, tagged).Bytes? ==>
              EncodeItems(f, items, n, tagged).Bytes?
              && |EncodeItems(f, items, n, tagged).bytes| <= |EncodeItems(f, items, m, tagged).bytes|
  {
    if n == m {
    } else {
      ItemsGrow(f, items, n, m - 1, tagged);
    }
  }

  /** Bytes of a value of fixed width, 0 for the other types. */
  function FixedWidth(t: LType): nat {
    if t.TFixed32? then 4 else if t.TFixed64? then 8 else 0
  }

  lemma {:induction false} FixedItemsSize(f: Field, items: seq<Value>, n: nat)
    requires n <= |items| && FixedWidth(f.ltype) > 0
    requires forall i :: 0 <= i < |items| ==> EncodeValue(f, items[i]).Bytes?
    ensures EncodeItems(f, items, n, false).Bytes?
    ensures |EncodeItems(f, items, n, false).bytes| == FixedWidth(f.ltype) * n
  {
    if n == 0 {
    } else {
      FixedItemsSize(f, items, n - 1);
      assert EncodeValue(f, items[n - 1]).Bytes?;
    }
  }

  // Sizes of C: every length is a size_t, every tag a field number, and an array entry of
  // fixed width has that width.

  predicate IsSize(e: Output) {
    e.Bytes? ==> |e.bytes| < 0x1_0000_0000_0000_0000
  }

  predicate SizedValue(f: Field, v: Value)
    decreases f, 0
  {
    match v
    case Blob(s) => |s| < 0x1_0000_0000_0000_0000
    case Sub(slots) => SizedFields(f.sub, slots) && IsSize(EncodeFields(f.sub, slots, |f.sub|))
    case _ => true
  }

  predicate SizedSlot(f: Field, slot: Slot)
    decreases f, 1
  {
    && f.tag <= MAX_TAG && Covered(f)
    && (Absent(f, slot) ||
        match slot
        case Rep(items) =>
          && (forall i :: 0 <= i < |items| ==> SizedValue(f, items[i]))
          && (FixedWidth(f.ltype) > 0 ==> forall i :: 0 <= i < |items| ==> EncodeValue(f, items[i]).Bytes?)
          && (Packable(f.ltype) ==> IsSize(EncodeItems(f, items, |items|, false)))
        case _ => SizedValue(f, slot.value))
  }

  predicate SizedField(fields: seq<Field>, slots: seq<Slot>, i: nat)
    requires i < |fields|
    decreases fields, 2
  {
    SlotOf(fields, i) < |slots| ==> SizedSlot(fields[i], slots[SlotOf(fields, i)])
  }

  predicate SizedFields(fields: seq<Field>, slots: seq<Slot>)
    decreases fields, 3
  {
    forall i :: 0 <= i < |fields| ==> SizedField(fields, slots, i)
  }
}
