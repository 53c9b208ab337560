/** The wire format in the encoding guide's own terms, from its wire types to the bytes of every
  type of field. The encoder writes exactly this, and whoever does not know a field can skip it. */
module WireFormat {
  import Bits
  import opened Varint
  import opened Descriptor
  import opened Encoding
  import opened Decoding
  import opened Merging

  /** The bytes are one varint, worth v. */
  predicate IsVarint(s: seq<byte>, v: nat) {
    Reference(s) == Group(v, |s|)
  }

  /** A length as a varint, and that many bytes. */
  predicate IsPrefixed(s: seq<byte>, body: seq<byte>) {
    |body| <= |s| && s[|s| - |body|..] == body && IsVarint(s[..|s| - |body|], |body|)
  }

  /** A key, eight times the tag plus the wire type, and the payload. */
  predicate IsRecord(s: seq<byte>, tag: nat, wireType: nat, payload: seq<byte>) {
    |payload| <= |s| && s[|s| - |payload|..] == payload && IsVarint(s[..|s| - |payload|], 8 * tag + wireType)
  }

  /** Wire type 0 is a varint, 1 are eight bytes, 2 is length-prefixed, 5 are four bytes. */
  ghost predicate IsPayload(wireType: nat, s: seq<byte>) {
    || (wireType == 0 && exists v :: IsVarint(s, v))
    || (wireType == 1 && |s| == 8)
    || (wireType == 2 && exists body :: IsPrefixed(s, body))
    || (wireType == 5 && |s| == 4)
  }

  function GuideType(t: LType): nat {
    match t
    case TFixed64 => 1
    case TBytes => 2
    case TString => 2
    case TFixedBytes => 2
    case TSubmessage => 2
    case TFixed32 => 5
    case _ => 0
  }

  /** The bytes before the first zero, or all there are; max at most. */
  predicate IsTerminated(s: seq<byte>, max: nat, body: seq<byte>) {
    body <= s && |body| <= max && 0 !in body && (|body| == |s| || |body| == max || s[|body|] == 0)
  }

  /** The payload of a value: integers in 64-bit two's complement, as they are, or zigzag; fixed
    ones least significant byte first. */
  ghost predicate IsForm(f: Field, v: Value, s: seq<byte>) {
    match f.ltype
    case TBool => v.Num? && IsVarint(s, if v.n != 0 then 1 else 0)
    case TVarint => v.Num? && IsVarint(s, if v.n >= 0 then v.n else Complement(v.n))
    case TUvarint => v.Num? && v.n >= 0 && IsVarint(s, v.n)
    case TSvarint => v.Num? && IsVarint(s, if v.n >= 0 then 2 * v.n else -2 * v.n - 1)
    case TFixed32 => v.Num? && |s| == 4 && v.n == Word(s[0], s[1], s[2], s[3])
    case TFixed64 => v.Num? && |s| == 8 && v.n == EightBytes(s)
    case TBytes => v.Blob? && IsPrefixed(s, v.bytes)
    case TFixedBytes => v.Blob? && IsPrefixed(s, v.bytes) && |v.bytes| == f.dataSize
    case TString => v.Blob? && exists body :: IsTerminated(v.bytes, f.dataSize, body) && IsPrefixed(s, body)
    case TSubmessage =>
      v.Sub? && EncodeMessage(f.sub, v.slots).Bytes? && IsPrefixed(s, EncodeMessage(f.sub, v.slots).bytes)
    case TExtension => false
  }

  function Complement(n: int): nat {
    if n < -0x1_0000_0000_0000_0000 then 0 else n + 0x1_0000_0000_0000_0000
  }

  function EightBytes(s: seq<byte>): nat
    requires |s| == 8
  {
    Word(s[0], s[1], s[2], s[3]) + 0x1_0000_0000 * Word(s[4], s[5], s[6], s[7])
  }

  function Word(a: nat, b: nat, c: nat, d: nat): nat {
    a + 0x100 * b + 0x1_0000 * c + 0x100_0000 * d
  }

  // Writing.

  lemma {:induction false} EncodeIsVarint(v: nat)
    ensures IsVarint(Encode(v), v)
  {
    EncodeIsReference(v, []);
    assert Encode(v) + [] == Encode(v);
  }

  lemma {:induction false} LengthPrefixedIs(body: seq<byte>)
    ensures IsPrefixed(LengthPrefixed(body), body)
  {
    EncodeIsVarint(|body|);
    var s := LengthPrefixed(body);
    assert s[..|s| - |body|] == Encode(|body|) && s[|s| - |body|..] == body;
  }

  lemma {:induction false} LowByte(v: nat, n: nat)
    requires n > 0
    ensures LittleEndian(v, n)[0] == v % 256 && LittleEndian(v, n)[1..] == LittleEndian(v / 256, n - 1)
  {
  }

  lemma {:induction false} FourLowBytes(v: nat, n: nat)
    requires n >= 4
    ensures var s := LittleEndian(v, n); v == Word(s[0], s[1], s[2], s[3]) + 0x1_0000_0000 * HighWord(v)
    ensures LittleEndian(v, n)[4..] == LittleEndian(HighWord(v), n - 4)
  {
    LowByte(v, n);
    LowByte(v / 0x100, n - 1);
    LowByte(v / 0x100 / 0x100, n - 2);
    LowByte(v / 0x100 / 0x100 / 0x100, n - 3);
    assert LittleEndian(v, n)[4..] == LittleEndian(v, n)[1..][1..][1..][1..];
  }

  function HighWord(v: nat): nat {
    v / 0x100 / 0x100 / 0x100 / 0x100
  }

  lemma {:induction false} FourBytesAre(v: nat)
    requires v < 0x1_0000_0000
    ensures var s := LittleEndian(v, 4); v == Word(s[0], s[1], s[2], s[3])
  {
    FourLowBytes(v, 4);
  }

  lemma {:induction false} EightBytesAre(v: nat)
    requires v < 0x1_0000_0000_0000_0000
    ensures EightBytes(LittleEndian(v, 8)) == v
  {
    var s, high := LittleEndian(v, 8), HighWord(v);
    FourLowBytes(v, 8);
    FourBytesAre(high);
    assert s[4] == s[4..][0] && s[5] == s[4..][1] && s[6] == s[4..][2] && s[7] == s[4..][3];
  }

  lemma {:induction false} CStringIs(s: seq<byte>, max: nat)
    ensures IsTerminated(s, max, CString(s, max))
  {
    if s == [] || max == 0 || s[0] == 0 {
    } else {
      CStringIs(s[1..], max - 1);
    }
  }

  lemma {:induction false} OneEnd(s: seq<byte>, max: nat, a: seq<byte>, b: seq<byte>)
    requires IsTerminated(s, max, a) && IsTerminated(s, max, b) && |a| <= |b|
    ensures a == b
  {
  }

  /** A string in its array ends at the first zero, whatever stands behind it. */
  lemma {:induction false} StringEnds(s: seq<byte>, junk: seq<byte>, max: nat)
    requires 0 !in s && |s| < max
    ensures CString(s + [0] + junk, max) == s
  {
    var all := s + [0] + junk;
    CStringIs(all, max);
    assert all[|s|] == 0;
    if |CString(all, max)| <= |s| {
      OneEnd(all, max, CString(all, max), s);
    } else {
      OneEnd(all, max, s, CString(all, max));
    }
  }

  lemma {:induction false} NumberForm(f: Field, n: int)
    requires EncodeNumber(f, n).Bytes?
    ensures IsForm(f, Num(n), EncodeNumber(f, n).bytes)
  {
    match f.ltype
    case TBool => EncodeIsVarint(if n != 0 then 1 else 0);
    case TVarint => EncodeIsVarint(Unsigned64(n));
    case TUvarint => EncodeIsVarint(n);
    case TSvarint =>
      ZigZagIs(n);
      EncodeIsVarint(ZigZag(n));
    case TFixed32 => FourBytesAre(n);
    case TFixed64 => EightBytesAre(n);
  }

  lemma {:induction false} BlobForm(f: Field, s: seq<byte>)
    requires EncodeBlob(f, s).Bytes?
    ensures IsForm(f, Blob(s), EncodeBlob(f, s).bytes)
  {
    LengthPrefixedIs(s);
    if f.ltype.TString? {
      CStringIs(s, f.dataSize);
      LengthPrefixedIs(CString(s, f.dataSize));
    }
  }

  lemma {:induction false} FormIs(f: Field, v: Value)
    requires EncodeValue(f, v).Bytes?
    ensures IsForm(f, v, EncodeValue(f, v).bytes)
  {
    match v
    case Num(n) => NumberForm(f, n);
    case Blob(s) => BlobForm(f, s);
    case Sub(slots) => LengthPrefixedIs(EncodeMessage(f.sub, slots).bytes);
  }

  lemma {:induction false} KeyIs(tag: nat, wt: WireType, number: nat, payload: seq<byte>)
    requires number == match wt { case WtVarint => 0 case Wt64Bit => 1 case WtString => 2 case Wt32Bit => 5 }
    ensures IsRecord(EncodeTag(wt, tag) + payload, tag, number, payload)
  {
    var key := EncodeTag(wt, tag);
    EncodeIsVarint(8 * tag + number);
    assert (key + payload)[..|key|] == key && (key + payload)[|key|..] == payload;
  }

  lemma {:induction false} FormIsPayload(f: Field, v: Value, s: seq<byte>)
    requires IsForm(f, v, s)
    ensures IsPayload(GuideType(f.ltype), s)
  {
  }

  /** Every record the encoder writes has the wire type of its field, and the payload that the
    guide gives the value. */
  lemma {:induction false} RecordsAreWireFormat(f: Field, v: Value)
    requires EncodeTagged(f, v).Bytes?
    ensures EncodeValue(f, v).Bytes? && IsForm(f, v, EncodeValue(f, v).bytes)
    ensures IsRecord(EncodeTagged(f, v).bytes, f.tag, GuideType(f.ltype), EncodeValue(f, v).bytes)
    ensures IsPayload(GuideType(f.ltype), EncodeValue(f, v).bytes)
  {
    FormIs(f, v);
    KeyIs(f.tag, WireTypeOf(f.ltype), GuideType(f.ltype), EncodeValue(f, v).bytes);
    FormIsPayload(f, v, EncodeValue(f, v).bytes);
  }

  /** A packed array is one length-prefixed record, its items one after another. */
  lemma {:induction false} PackedIsWireFormat(f: Field, items: seq<Value>)
    requires items != [] && Packable(f.ltype) && EncodeArray(f, items).Bytes?
    ensures EncodeItems(f, items, |items|, false).Bytes?
    ensures var data := EncodeItems(f, items, |items|, false).bytes;
            && IsPrefixed(LengthPrefixed(data), data)
            && IsRecord(EncodeArray(f, items).bytes, f.tag, 2, LengthPrefixed(data))
  {
    var data := EncodeItems(f, items, |items|, false).bytes;
    LengthPrefixedIs(data);
    KeyIs(f.tag, WtString, 2, LengthPrefixed(data));
  }

  // Skipping.

  lemma {:induction false} ReferenceLocal(s: seq<byte>, more: seq<byte>)
    requires Reference(s).Group?
    ensures Reference(s + more) == Reference(s)
  {
    assert (s + more)[1..] == s[1..] + more;
    if s[0] < 128 {
    } else {
      ReferenceLocal(s[1..], more);
    }
  }

  lemma {:induction false} VarintIsSkipped(s: seq<byte>, v: nat)
    requires IsVarint(s, v)
    ensures SkipVarint(s) == Done(EndOfMessage, [])
  {
    if s[0] < 128 {
      assert s[1..] == [];
    } else {
      VarintIsSkipped(s[1..], Reference(s[1..]).value);
    }
  }

  lemma {:induction false} VarintIsRead(s: seq<byte>, v: nat, rest: seq<byte>)
    requires IsVarint(s, v) && |s| <= 5 && v < 0x1_0000_0000
    ensures Read32(s + rest) == Done(v, rest)
  {
    ReferenceLocal(s, rest);
    Read32IsReference(s + rest);
    assert (s + rest)[|s|..] == rest;
  }

  /** Length-prefixed bytes that the 32-bit decoder can measure. */
  predicate IsMeasured(s: seq<byte>, body: seq<byte>) {
    IsPrefixed(s, body) && |body| < 0x1_0000_0000 && |s| <= |body| + 5
  }

  lemma {:induction false} PrefixedIsRead(s: seq<byte>, body: seq<byte>)
    requires IsMeasured(s, body)
    ensures ReadDelimited(s) == Done(body, [])
  {
    VarintIsRead(s[..|s| - |body|], |body|, body);
    assert s[..|s| - |body|] + body == s;
    assert body[..|body|] == body && body[|body|..] == [];
  }

  /** pb_skip_field skips a payload of each wire type, and no other wire type. */
  lemma {:induction false} PayloadIsSkipped(wireType: nat, s: seq<byte>)
    requires IsPayload(wireType, s) && (wireType == 2 ==> exists body :: IsMeasured(s, body))
    ensures SkipField(s, wireType) == Done(EndOfMessage, [])
  {
    if wireType == 0 {
      var v :| IsVarint(s, v);
      VarintIsSkipped(s, v);
    } else if wireType == 2 {
      var body :| IsMeasured(s, body);
      PrefixedIsRead(s, body);
    }
  }

  lemma {:induction false} NoOtherWireType(wireType: nat, s: seq<byte>)
    requires wireType == 3 || wireType == 4 || wireType > 5
    ensures SkipField(s, wireType) == Fail
  {
  }

  /** A record in the guide's sense with an undeclared tag is skipped as a whole, whichever way
    its numbers are written. */
  lemma {:induction false} UndeclaredIsUnknown(fields: seq<Field>, s: seq<byte>, tag: nat, wireType: nat,
                                               payload: seq<byte>)
    requires IsRecord(s, tag, wireType, payload) && |s| <= |payload| + 5
    requires 1 <= tag <= 0x1FFF_FFFF && forall i :: 0 <= i < |fields| ==> fields[i].tag != tag
    requires IsPayload(wireType, payload) && (wireType == 2 ==> exists body :: IsMeasured(payload, body))
    ensures UnknownRecord(fields, s)
  {
    var key := s[..|s| - |payload|];
    VarintIsRead(key, 8 * tag + wireType, payload);
    assert key + payload == s;
    PayloadIsSkipped(wireType, payload);
  }

  lemma {:induction false} ShortVarint(v: nat)
    requires v < 0x1_0000_0000
    ensures |Encode(v)| <= 5
  {
    Bits.ShlLimits(1);
    EncodeLength(v, 5);
  }

  lemma {:induction false} PrefixedIsMeasured(s: seq<byte>, body: seq<byte>)
    requires s == LengthPrefixed(body) && |body| < 0x1_0000_0000
    ensures IsMeasured(s, body)
  {
    LengthPrefixedIs(body);
    ShortVarint(|body|);
  }

  lemma {:induction false} WrittenIsMeasured(f: Field, v: Value)
    requires EncodeValue(f, v).Bytes? && |EncodeValue(f, v).bytes| < 0x1_0000_0000 && GuideType(f.ltype) == 2
    ensures exists body :: IsMeasured(EncodeValue(f, v).bytes, body)
  {
    var s := EncodeValue(f, v).bytes;
    match v
    case Blob(b) => PrefixedIsMeasured(s, if f.ltype.TString? then CString(b, f.dataSize) else b);
    case Sub(slots) => PrefixedIsMeasured(s, EncodeMessage(f.sub, slots).bytes);
    case _ =>
  }

  lemma {:induction false} KeyIsShort(f: Field, v: Value)
    requires EncodeTagged(f, v).Bytes? && 1 <= f.tag <= 0x1FFF_FFFF
    ensures |EncodeValue(f, v).bytes| < |EncodeTagged(f, v).bytes| <= |EncodeValue(f, v).bytes| + 5
  {
    ShortVarint(8 * f.tag + WireNumber(WireTypeOf(f.ltype)));
  }

  /** Whoever does not know the field skips what the encoder wrote for it. */
  lemma {:induction false} WrittenCanBeSkipped(fields: seq<Field>, f: Field, v: Value)
    requires EncodeTagged(f, v).Bytes? && |EncodeTagged(f, v).bytes| < 0x1_0000_0000
    requires 1 <= f.tag <= 0x1FFF_FFFF && forall i :: 0 <= i < |fields| ==> fields[i].tag != f.tag
    ensures UnknownRecord(fields, EncodeTagged(f, v).bytes)
  {
    var s, payload := EncodeTagged(f, v).bytes, EncodeValue(f, v).bytes;
    RecordsAreWireFormat(f, v);
    KeyIsShort(f, v);
    if GuideType(f.ltype) == 2 {
      WrittenIsMeasured(f, v);
    }
    UndeclaredIsUnknown(fields, s, f.tag, GuideType(f.ltype), payload);
  }

  lemma {:induction false} PackedCanBeSkipped(fields: seq<Field>, f: Field, items: seq<Value>)
    requires items != [] && Packable(f.ltype)
    requires EncodeArray(f, items).Bytes? && |EncodeArray(f, items).bytes| < 0x1_0000_0000
    requires 1 <= f.tag <= 0x1FFF_FFFF && forall i :: 0 <= i < |fields| ==> fields[i].tag != f.tag
    ensures UnknownRecord(fields, EncodeArray(f, items).bytes)
  {
    var data := EncodeItems(f, items, |items|, false).bytes;
    PackedIsWireFormat(f, items);
    ShortVarint(8 * f.tag + 2);
    PrefixedIsMeasured(LengthPrefixed(data), data);
    UndeclaredIsUnknown(fields, EncodeArray(f, items).bytes, f.tag, 2, LengthPrefixed(data));
  }
}
