/** What the decoder makes of a payload on the wire: which values it accepts, and what an array
  or a struct holds afterwards. */
module Reading {
  import Bits
  import opened Varint
  import opened Descriptor
  import opened Encoding
  import opened Decoding
  import opened Merging
  import opened Conforming
  import opened RoundTrip
  import opened WireFormat

  // Numbers: the guide's meaning of a varint, and the range of the field.

  /** Half the values of an integer of that many bytes. */
  function Half(size: nat): int {
    if size == 1 then 0x80
    else if size == 2 then 0x8000
    else if size == 4 then 0x8000_0000
    else if size == 8 then 0x8000_0000_0000_0000
    else 0
  }

  /** The number whose complement the bits are, in 64 bits or in the low 32. */
  function SignedOf(w: nat, wide: bool): int {
    if wide then
      if w < 0x8000_0000_0000_0000 then w else w - 0x1_0000_0000_0000_0000
    else
      var low := w % 0x1_0000_0000;
      if low < 0x8000_0000 then low else low - 0x1_0000_0000
  }

  /** Narrow fields take the low 32 bits. */
  function VarintNumber(f: Field, w: nat): int {
    match f.ltype
    case TVarint => SignedOf(w, f.dataSize == 8)
    case TSvarint => if w % 2 == 0 then w / 2 else -((w + 1) / 2)
    case _ => w
  }

  predicate InRange(f: Field, n: int) {
    if f.ltype.TUvarint? then 0 <= n < 2 * Half(f.dataSize) else -Half(f.dataSize) <= n < Half(f.dataSize)
  }

  lemma {:induction false} Low32Is(w: nat)
    ensures Bits.Low32(w) == w % 0x1_0000_0000
  {
    Bits.Low32Wraps(w / 0x1_0000_0000, w % 0x1_0000_0000);
  }

  lemma {:induction false} SignedIsTaken(f: Field, w: nat)
    requires f.ltype.TVarint? && w < 0x1_0000_0000_0000_0000
    ensures IntFrom(w, f.dataSize) == if InRange(f, VarintNumber(f, w)) then Done(Num(VarintNumber(f, w)), []) else Fail
  {
    Low32Is(w);
  }

  lemma {:induction false} ZigZagIsTaken(f: Field, w: nat)
    requires f.ltype.TSvarint? && w < 0x1_0000_0000_0000_0000
    ensures UnZigZag(w) == VarintNumber(f, w)
    ensures FitsSigned(UnZigZag(w), f.dataSize) <==> InRange(f, VarintNumber(f, w))
  {
  }

  /** An integer field takes a varint of up to ten bytes if and only if its number is in range. */
  lemma {:induction false} VarintIsTaken(f: Field, s: seq<byte>, w: nat, rest: seq<byte>)
    requires f.ltype.TVarint? || f.ltype.TUvarint? || f.ltype.TSvarint?
    requires IsVarint(s, w) && |s| <= 10 && w < 0x1_0000_0000_0000_0000
    ensures ReadNumber(f, s + rest) ==
            if InRange(f, VarintNumber(f, w)) then Done(Num(VarintNumber(f, w)), rest) else Fail
  {
    ReferenceLocal(s, rest);
    ReadIsReference(s + rest);
    assert (s + rest)[|s|..] == rest;
    match f.ltype
    case TVarint => SignedIsTaken(f, w);
    case TUvarint =>
    case TSvarint => ZigZagIsTaken(f, w);
  }

  /** A bool takes any 32-bit varint; all but zero are true. */
  lemma {:induction false} BoolIsTaken(f: Field, s: seq<byte>, w: nat, rest: seq<byte>)
    requires f.ltype.TBool? && IsVarint(s, w) && |s| <= 5 && w < 0x1_0000_0000
    ensures ReadNumber(f, s + rest) == Done(Num(if w == 0 then 0 else 1), rest)
  {
    VarintIsRead(s, w, rest);
  }

  lemma {:induction false} LowFirst(s: seq<byte>)
    requires s != []
    ensures FromLittleEndian(s) == s[0] as int + 0x100 * FromLittleEndian(s[1..])
  {
  }

  lemma {:induction false} FourBytesMean(s: seq<byte>)
    requires |s| == 4
    ensures FromLittleEndian(s) == Word(s[0], s[1], s[2], s[3])
  {
    LowFirst(s);
    LowFirst(s[1..]);
    LowFirst(s[2..]);
    LowFirst(s[3..]);
    assert s[1..][1..] == s[2..] && s[2..][1..] == s[3..] && s[3..][1..] == [];
  }

  lemma {:induction false} HighWordMeans(s: seq<byte>)
    requires |s| >= 4
    ensures FromLittleEndian(s) == FromLittleEndian(s[..4]) + 0x1_0000_0000 * FromLittleEndian(s[4..])
  {
    LowFirst(s);
    LowFirst(s[1..]);
    LowFirst(s[2..]);
    LowFirst(s[3..]);
    FourBytesMean(s[..4]);
    assert s[1..][1..] == s[2..] && s[2..][1..] == s[3..] && s[3..][1..] == s[4..];
  }

  /** Fixed numbers come least significant byte first. */
  lemma {:induction false} FixedIsTaken(f: Field, s: seq<byte>, rest: seq<byte>)
    requires (f.ltype.TFixed32? && |s| == 4) || (f.ltype.TFixed64? && |s| == 8)
    ensures ReadNumber(f, s + rest) ==
            Done(Num(if |s| == 4 then Word(s[0], s[1], s[2], s[3]) else EightBytes(s)), rest)
  {
    assert (s + rest)[..|s|] == s && (s + rest)[|s|..] == rest;
    if |s| == 4 {
      FourBytesMean(s);
    } else {
      HighWordMeans(s);
      FourBytesMean(s[..4]);
      FourBytesMean(s[4..]);
    }
  }

  // Bytes and strings: whether they fit.

  /** A string needs room for its terminator, bytes for the size in front of them; fixed bytes
    have their length, or none and are cleared. */
  lemma {:induction false} BlobIsTaken(f: Field, s: seq<byte>, body: seq<byte>)
    requires IsMeasured(s, body) && f.dataSize < 0x1_0000_0000
    ensures f.ltype.TBytes? ==> ReadBlob(f, s) == if |body| + 4 <= f.dataSize then Done(Blob(body), []) else Fail
    ensures f.ltype.TString? ==> ReadBlob(f, s) == if |body| + 1 <= f.dataSize then Done(Blob(body), []) else Fail
    ensures f.ltype.TFixedBytes? && body != [] ==>
              ReadBlob(f, s) == if |body| == f.dataSize then Done(Blob(body), []) else Fail
    ensures f.ltype.TFixedBytes? && body == [] ==> ReadBlob(f, s) == Done(Blob(seq(f.dataSize, _ => 0)), [])
  {
    PrefixedIsRead(s, body);
    VarintIsRead(s[..|s| - |body|], |body|, body);
    assert s[..|s| - |body|] + body == s;
  }

  // Arrays: what they hold already stays, in front.

  /** The bytes of the items from m on. */
  lemma {:induction false} ItemsSplit(f: Field, items: seq<Value>, m: nat, n: nat) returns (tail: seq<byte>)
    requires m <= n <= |items| && Packable(f.ltype)
    requires forall i :: 0 <= i < |items| ==> ValueOk(f, items[i])
    ensures EncodeItems(f, items, m, false).Bytes? && EncodeItems(f, items, n, false).Bytes?
    ensures EncodeItems(f, items, n, false).bytes == EncodeItems(f, items, m, false).bytes + tail
    ensures m < n ==> tail != []
    decreases n
  {
    if m == n {
      AllBytes(f, items, n);
      tail := [];
    } else {
      var front := ItemsSplit(f, items, m, n - 1);
      NumberRoundTrip(f, items[n - 1]);
      tail := front + EncodeNumber(f, items[n - 1].n).bytes;
    }
  }

  lemma {:induction false} AllBytes(f: Field, items: seq<Value>, n: nat)
    requires n <= |items| && Packable(f.ltype)
    requires forall i :: 0 <= i < |items| ==> ValueOk(f, items[i])
    ensures EncodeItems(f, items, n, false).Bytes?
  {
    if n == 0 {
    } else {
      AllBytes(f, items, n - 1);
      NumberRoundTrip(f, items[n - 1]);
    }
  }

  lemma {:induction false} PackedOverflows(f: Field, before: seq<Value>, items: seq<Value>)
    requires |before| <= f.arraySize < |before| + |items| && Packable(f.ltype)
    requires forall i :: 0 <= i < |items| ==> ValueOk(f, items[i])
    ensures EncodeItems(f, items, |items|, false).Bytes?
    ensures ReadPacked(f, EncodeItems(f, items, |items|, false).bytes, before) == Fail
  {
    var room := f.arraySize - |before|;
    var tail := ItemsSplit(f, items, room, |items|);
    PackedRoundTrip(f, before, items, room);
    PackedGoesOn(f, EncodeItems(f, items, room, false).bytes, tail, before);
  }

  /** A packed record appends its items, if there is room for all of them; else it is refused. */
  lemma {:induction false} PackedAppends(f: Field, before: seq<Value>, items: seq<Value>, rest: seq<byte>)
    requires |before| <= f.arraySize && Packable(f.ltype)
    requires forall i :: 0 <= i < |items| ==> ValueOk(f, items[i])
    ensures EncodeItems(f, items, |items|, false).Bytes?
    ensures var data := EncodeItems(f, items, |items|, false).bytes;
            |data| < 0x1_0000_0000 ==>
              DecodeField(f, LengthPrefixed(data) + rest, 2, Rep(before)) ==
              if |before| + |items| <= f.arraySize then Done(Rep(before + items), rest) else Fail
  {
    AllBytes(f, items, |items|);
    var data := EncodeItems(f, items, |items|, false).bytes;
    if |data| < 0x1_0000_0000 {
      DelimitedRoundTrip(data);
      ReadDelimitedLocal(LengthPrefixed(data), rest);
      assert [] + rest == rest;
      if |before| + |items| <= f.arraySize {
        PackedRoundTrip(f, before, items, |items|);
        assert items[..|items|] == items;
      } else {
        PackedOverflows(f, before, items);
      }
    }
  }

  /** So does a record with a single item, also one of a type that could have been packed. */
  lemma {:induction false} OneAppends(f: Field, before: seq<Value>, v: Value, wireType: nat, rest: seq<byte>)
    requires FieldOk(f) && ValueOk(f, v) && (Packable(f.ltype) ==> wireType != 2)
    ensures EncodeValue(f, v).Bytes?
    ensures var s := EncodeValue(f, v).bytes;
            |s| < 0x1_0000_0000 ==>
              DecodeField(f, s + rest, wireType, Rep(before)) ==
              if |before| < f.arraySize then Done(Rep(before + [NormValue(f, v)]), rest) else Fail
  {
    ValueRoundTrip(f, v);
    var s := EncodeValue(f, v).bytes;
    if |s| < 0x1_0000_0000 {
      ReadValueLocal(f, s, rest, DefaultValue(f));
      assert [] + rest == rest;
    }
  }
}
