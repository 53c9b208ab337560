/** Unsigned machine words as natural numbers: shifts and bitwise or. */
module Bits {
  /** v << n without a width. */
  function Shl(v: nat, n: nat): nat {
    if n == 0 then v else 2 * Shl(v, n - 1)
  }

  lemma {:induction false} ShlAdd(a: nat, b: nat, n: nat)
    ensures Shl(a + b, n) == Shl(a, n) + Shl(b, n)
  {
    if n == 0 {
    } else {
      ShlAdd(a, b, n - 1);
    }
  }

  lemma {:induction false} ShlShl(v: nat, m: nat, n: nat)
    ensures Shl(Shl(v, m), n) == Shl(v, m + n)
  {
    if n == 0 {
    } else {
      ShlShl(v, m, n - 1);
    }
  }

  lemma {:induction false} ShlLess(a: nat, b: nat, n: nat)
    requires a < b
    ensures Shl(a, n) < Shl(b, n)
  {
    if n == 0 {
    } else {
      ShlLess(a, b, n - 1);
    }
  }

  lemma {:induction false} ShlFurther(v: nat, m: nat, n: nat)
    requires m <= n
    ensures Shl(v, m) <= Shl(v, n)
  {
    if m == n {
    } else {
      ShlFurther(v, m, n - 1);
    }
  }

  lemma {:induction false} ShlSeven(v: nat, n: nat)
    ensures Shl(v, n + 7) == 128 * Shl(v, n) == Shl(128 * v, n)
  {
    assert Shl(v, n + 2) == 4 * Shl(v, n);
    assert Shl(v, n + 4) == 4 * Shl(v, n + 2);
    assert Shl(v, n + 6) == 4 * Shl(v, n + 4);
    assert Shl(v, 1) == 2 * v;
    assert Shl(v, 2) == 4 * v;
    assert Shl(v, 4) == 4 * Shl(v, 2);
    assert Shl(v, 6) == 4 * Shl(v, 4);
    ShlShl(v, 7, n);
  }

  /** The shifts the varint decoders meet at their limits. */
  lemma {:induction false} ShlLimits(v: nat)
    ensures Shl(v, 7) == 128 * v && Shl(v, 28) == 0x1000_0000 * v && Shl(v, 32) == 0x1_0000_0000 * v
    ensures Shl(v, 35) == 0x8_0000_0000 * v && Shl(v, 63) == 0x8000_0000_0000_0000 * v
  {
    ShlSeven(v, 0); ShlSeven(v, 7); ShlSeven(v, 14); ShlSeven(v, 21); ShlSeven(v, 28);
    ShlSeven(v, 35); ShlSeven(v, 42); ShlSeven(v, 49); ShlSeven(v, 56);
    assert Shl(v, 30) == 4 * Shl(v, 28);
    assert Shl(v, 32) == 4 * Shl(v, 30);
  }

  /** Conversion to uint64_t: what is left when 2^64 is taken away as often as possible. */
  function Low64(v: nat): (r: nat)
    ensures r < 0x1_0000_0000_0000_0000
    ensures v < 0x1_0000_0000_0000_0000 ==> r == v
  {
    if v < 0x1_0000_0000_0000_0000 then v else Low64(v - 0x1_0000_0000_0000_0000)
  }

  /** Conversion to uint32_t. */
  function Low32(v: nat): (r: nat)
    ensures r < 0x1_0000_0000
    ensures v < 0x1_0000_0000 ==> r == v
  {
    if v < 0x1_0000_0000 then v else Low32(v - 0x1_0000_0000)
  }

  lemma {:induction false} Low64Wraps(q: nat, r: nat)
    ensures Low64(q * 0x1_0000_0000_0000_0000 + r) == Low64(r)
  {
    if q == 0 {
    } else {
      Low64Wraps(q - 1, r);
    }
  }

  lemma {:induction false} Low32Wraps(q: nat, r: nat)
    ensures Low32(q * 0x1_0000_0000 + r) == Low32(r)
  {
    if q == 0 {
    } else {
      Low32Wraps(q - 1, r);
    }
  }

  function BitOr(a: nat, b: nat): (r: nat)
    ensures a == 0 ==> r == b
    ensures b == 0 ==> r == a
  {
    if a == 0 && b == 0 then 0
    else 2 * BitOr(a / 2, b / 2) + if a % 2 == 1 || b % 2 == 1 then 1 else 0
  }

  /** a | (v << n): the low n bits of a stay as they are. */
  function OrShl(a: nat, v: nat, n: nat): nat {
    if n == 0 then BitOr(a, v) else 2 * OrShl(a / 2, v, n - 1) + a % 2
  }

  /** Or adds when the bits do not overlap. */
  lemma {:induction false} OrDisjoint(a: nat, v: nat, n: nat)
    requires a < Shl(1, n)
    ensures OrShl(a, v, n) == a + Shl(v, n)
  {
    if n == 0 {
    } else {
      OrDisjoint(a / 2, v, n - 1);
    }
  }
}

/** Base 128 varints: what the encoding guide calls them, and how the code reads and
  writes them. */
module Varint {
  import opened Bits

  type byte = x: int | 0 <= x < 256

  /** The seven bits a byte of a varint carries. */
  function Low7(b: byte): byte {
    if b < 128 then b else b - 128
  }

  /** The result of reading from the front of some bytes. */
  datatype Parsed<+T> = Done(value: T, rest: seq<byte>) | Fail

  // The reference: least significant group first, high bit set on all but the last byte.

  datatype Group = Group(value: nat, length: nat) | Unended

  function Reference(s: seq<byte>): (g: Group)
    ensures g.Group? ==> 0 < g.length <= |s|
  {
    if s == [] then
      Unended
    else if s[0] < 128 then
      Group(s[0], 1)
    else
      match Reference(s[1..])
      case Unended => Unended
      case Group(v, n) => Group(s[0] - 128 + 128 * v, n + 1)
  }

  // Encoding.

  function Encode(v: nat): (s: seq<byte>)
    ensures s != []
    decreases v
  {
    if v < 128 then [v] else [v % 128 + 128] + Encode(v / 128)
  }

  /** The first byte of an encoding, and what follows it. */
  lemma {:induction false} EncodeHead(s: seq<byte>, v: nat, rest: seq<byte>)
    requires s == Encode(v) + rest
    ensures s != []
    ensures v < 128 ==> s[0] == v && s[1..] == rest
    ensures v >= 128 ==> s[0] == v % 128 + 128 && s[1..] == Encode(v / 128) + rest
  {
  }

  lemma {:induction false} EncodingIsReference(s: seq<byte>, v: nat, rest: seq<byte>)
    requires s == Encode(v) + rest
    ensures Reference(s) == Group(v, |Encode(v)|)
    decreases v
  {
    EncodeHead(s, v, rest);
    if v < 128 {
    } else {
      EncodingIsReference(s[1..], v / 128, rest);
    }
  }

  /** The bytes written are a varint for the value. */
  lemma {:induction false} EncodeIsReference(v: nat, rest: seq<byte>)
    ensures Reference(Encode(v) + rest) == Group(v, |Encode(v)|)
  {
    EncodingIsReference(Encode(v) + rest, v, rest);
  }

  /** No varint for the value is shorter. */
  lemma {:induction false} EncodeIsMinimal(s: seq<byte>)
    ensures Reference(s).Group? ==> |Encode(Reference(s).value)| <= Reference(s).length
  {
    if s == [] || s[0] < 128 {
    } else {
      EncodeIsMinimal(s[1..]);
    }
  }

  lemma {:induction false} EncodeLength(v: nat, n: nat)
    requires v < Shl(1, 7 * n) && n > 0
    ensures |Encode(v)| <= n
  {
    if v < 128 {
    } else {
      ShlSeven(1, 7 * (n - 1));
      EncodeLength(v / 128, n - 1);
    }
  }

  /** Every 64-bit value fits the ten-byte buffer. */
  lemma {:induction false} EncodeFits(v: nat)
    requires v < 0x1_0000_0000_0000_0000
    ensures |Encode(v)| <= 10
  {
    ShlLimits(1);
    ShlSeven(1, 63);
    EncodeLength(v, 10);
  }

  // Decoding 64 bits.

  /** pb_decode_varint from bit position bitpos on. */
  function ReadFrom(s: seq<byte>, bitpos: nat, result: nat): (r: Parsed<nat>)
    ensures r.Done? ==> |r.rest| < |s| && r.value < 0x1_0000_0000_0000_0000
  {
    if bitpos >= 64 || s == [] then
      Fail
    else
      var next := Low64(OrShl(result, Low7(s[0]), bitpos));
      if s[0] < 128 then Done(next, s[1..]) else ReadFrom(s[1..], bitpos + 7, next)
  }

  function Read(s: seq<byte>): (r: Parsed<nat>)
    ensures r.Done? ==> |r.rest| < |s| && r.value < 0x1_0000_0000_0000_0000
  {
    ReadFrom(s, 0, 0)
  }

  lemma {:induction false} GroupBound(result: nat, d: nat, n: nat)
    requires d < 128 && result < Shl(1, n)
    ensures result + Shl(d, n) < Shl(1, n + 7)
  {
    ShlSeven(1, n);
    ShlAdd(d, 1, n);
    ShlNotMore(d + 1, 128, n);
  }

  /** One group at bit position 7 * k joins the groups below it; the tenth keeps one bit. */
  lemma {:induction false} JoinGroup(result: nat, d: nat, k: nat)
    requires k <= 9 && d < 128 && result < Shl(1, 7 * k)
    ensures var next := Low64(OrShl(result, d, 7 * k));
            && next == Low64(result + Shl(d, 7 * k)) && next < Shl(1, 7 * k + 7)
            && (k < 9 ==> next == result + Shl(d, 7 * k))
  {
    ShlLimits(1);
    OrDisjoint(result, d, 7 * k);
    GroupBound(result, d, 7 * k);
    if k < 9 {
      ShlFurther(1, 7 * k + 7, 63);
    } else {
      ShlSeven(1, 63);
    }
  }

  lemma {:induction false} ShlNotMore(a: nat, b: nat, n: nat)
    requires a <= b
    ensures Shl(a, n) <= Shl(b, n)
  {
    if a < b {
      ShlLess(a, b, n);
    }
  }

  /** What the reference makes of the bytes when k groups worth result came before. */
  function UpToTen(s: seq<byte>, g: Group, k: nat, result: nat): Parsed<nat>
    requires g.Group? ==> g.length <= |s|
  {
    if g.Group? && k + g.length <= 10 then Done(Low64(result + Shl(g.value, 7 * k)), s[g.length..]) else Fail
  }

  lemma {:induction false} ExpectMore(s: seq<byte>, k: nat, result: nat, next: nat)
    requires s != [] && s[0] >= 128 && Reference(s[1..]).Group? && k <= 9
    requires k < 9 ==> next == result + Shl(Low7(s[0]), 7 * k)
    ensures UpToTen(s, Reference(s), k, result) == UpToTen(s[1..], Reference(s[1..]), k + 1, next)
  {
    var Group(v, n) := Reference(s[1..]);
    ShlAdd(Low7(s[0]), 128 * v, 7 * k);
    ShlSeven(v, 7 * k);
    assert s[1..][n..] == s[n + 1..];
  }

  lemma {:induction false} ReadFromIs(s: seq<byte>, k: nat, result: nat)
    requires k <= 10 && result < Shl(1, 7 * k)
    ensures ReadFrom(s, 7 * k, result) == UpToTen(s, Reference(s), k, result)
  {
    if k == 10 || s == [] {
    } else {
      var next := Low64(OrShl(result, Low7(s[0]), 7 * k));
      JoinGroup(result, Low7(s[0]), k);
      if s[0] >= 128 {
        ReadFromIs(s[1..], k + 1, next);
        if Reference(s[1..]).Group? {
          ExpectMore(s, k, result, next);
        }
      }
    }
  }

  /** The decoder accepts exactly the varints of up to ten bytes, and returns their value
    modulo 2^64. */
  lemma {:induction false} ReadIsReference(s: seq<byte>)
    ensures Reference(s).Unended? || Reference(s).length > 10 ==> Read(s) == Fail
    ensures Reference(s).Group? && Reference(s).length <= 10 ==>
              Read(s) == Done(Low64(Reference(s).value), s[Reference(s).length..])
  {
    ReadFromIs(s, 0, 0);
  }

  /** The round trip, for every 64-bit value and whatever follows. */
  lemma {:induction false} ReadEncode(v: nat, rest: seq<byte>)
    requires v < 0x1_0000_0000_0000_0000
    ensures Read(Encode(v) + rest) == Done(v, rest)
  {
    EncodeIsReference(v, rest);
    EncodeFits(v);
    ReadIsReference(Encode(v) + rest);
    assert (Encode(v) + rest)[|Encode(v)|..] == rest;
  }

  /** Reading sees no further than the varint. */
  lemma {:induction false} ReadFromLocal(s: seq<byte>, more: seq<byte>, bitpos: nat, result: nat)
    requires ReadFrom(s, bitpos, result).Done?
    ensures ReadFrom(s + more, bitpos, result) ==
            Done(ReadFrom(s, bitpos, result).value, ReadFrom(s, bitpos, result).rest + more)
  {
    assert (s + more)[1..] == s[1..] + more;
    if s[0] < 128 {
    } else {
      ReadFromLocal(s[1..], more, bitpos + 7, Low64(OrShl(result, Low7(s[0]), bitpos)));
    }
  }

  // Decoding 32 bits.

  /** What the byte at bitpos adds, or None if it has bits that do not fit. Beyond 32 bits
    only padding and the sign extension of a negative number are let through. */
  function Add32(b: byte, bitpos: nat, result: nat): (r: Option32)
  {
    if bitpos >= 32 then
      if Low7(b) != 0 && (result < 0x8000_0000 || b != (if bitpos < 63 then 0xFF else 0x01)) then Overflow
      else Fits(result)
    else
      Fits(Low32(OrShl(result, Low7(b), bitpos)))
  }

  datatype Option32 = Fits(value: nat) | Overflow

  /** The loop of pb_decode_varint32_eof; bitpos is an 8-bit counter. */
  function Read32From(s: seq<byte>, bitpos: nat, result: nat): (r: Parsed<nat>)
    ensures r.Done? ==> |r.rest| < |s|
  {
    if s == [] then
      Fail
    else
      match Add32(s[0], bitpos, result)
      case Overflow => Fail
      case Fits(next) =>
        var after := (bitpos + 7) % 256;
        if s[0] >= 128 then Read32From(s[1..], after, next)
        else if after == 35 && s[0] >= 16 then Fail
        else Done(next, s[1..])
  }

  function Read32(s: seq<byte>): (r: Parsed<nat>)
    ensures r.Done? ==> |r.rest| < |s|
  {
    if s == [] then Fail
    else if s[0] < 128 then Done(s[0], s[1..])
    else Read32From(s[1..], 7, Low7(s[0]))
  }

  lemma {:induction false} Read32FromLocal(s: seq<byte>, more: seq<byte>, bitpos: nat, result: nat)
    requires Read32From(s, bitpos, result).Done?
    ensures Read32From(s + more, bitpos, result) ==
            Done(Read32From(s, bitpos, result).value, Read32From(s, bitpos, result).rest + more)
  {
    assert (s + more)[1..] == s[1..] + more;
    if s[0] < 128 {
    } else {
      Read32FromLocal(s[1..], more, (bitpos + 7) % 256, Add32(s[0], bitpos, result).value);
    }
  }

  lemma {:induction false} Read32Local(s: seq<byte>, more: seq<byte>)
    requires Read32(s).Done?
    ensures Read32(s + more) == Done(Read32(s).value, Read32(s).rest + more)
  {
    assert (s + more)[1..] == s[1..] + more;
    if s[0] >= 128 {
      Read32FromLocal(s[1..], more, 7, Low7(s[0]));
    }
  }

  lemma {:induction false} Read32Bound(s: seq<byte>, bitpos: nat, result: nat)
    requires result < 0x1_0000_0000
    ensures Read32From(s, bitpos, result).Done? ==> Read32From(s, bitpos, result).value < 0x1_0000_0000
  {
    if s == [] {
    } else {
      if Add32(s[0], bitpos, result).Fits? {
        Read32Bound(s[1..], (bitpos + 7) % 256, Add32(s[0], bitpos, result).value);
      }
    }
  }

  // What the 32-bit decoder makes of the encoder's output.

  /** What can be left of a 32-bit value after k groups. */
  predicate Rest32(v: nat, k: nat) {
    && 1 <= k <= 4
    && (k == 1 ==> v < 0x200_0000) && (k == 2 ==> v < 0x4_0000) && (k == 3 ==> v < 0x800) && (k == 4 ==> v < 0x10)
  }

  /** 2^(64 - 7 * k). */
  function Room64(k: nat): nat
    requires k <= 9
    decreases 9 - k
  {
    if k == 9 then 2 else 128 * Room64(k + 1)
  }

  lemma {:induction false} Join32(result: nat, d: nat, k: nat)
    requires 1 <= k <= 4 && d < 128 && (k == 4 ==> d < 16) && result < Shl(1, 7 * k)
    ensures Low32(OrShl(result, d, 7 * k)) == result + Shl(d, 7 * k) < Shl(1, 7 * k + 7)
  {
    ShlLimits(1);
    GroupBound(result, d, 7 * k);
    OrDisjoint(result, d, 7 * k);
    if k < 4 {
      ShlFurther(1, 7 * k + 7, 28);
    } else {
      ShlLimits(d);
    }
  }

  /** Splitting off the lowest group. */
  lemma {:induction false} SplitShl(v: nat, n: nat)
    ensures Shl(v, n) == Shl(v % 128, n) + Shl(v / 128, n + 7)
  {
    ShlSeven(v / 128, n);
    ShlAdd(v % 128, 128 * (v / 128), n);
  }

  /** One byte of the loop, when its bits fit. */
  lemma {:induction false} Step32(s: seq<byte>, k: nat, result: nat)
    requires 1 <= k <= 4 && s != [] && (k == 4 ==> s[0] < 16) && result < Shl(1, 7 * k)
    ensures var next := result + Shl(Low7(s[0]), 7 * k);
            && next < Shl(1, 7 * k + 7)
            && Read32From(s, 7 * k, result) ==
               if s[0] >= 128 then Read32From(s[1..], 7 * k + 7, next) else Done(next, s[1..])
  {
    Join32(result, Low7(s[0]), k);
  }

  lemma {:induction false} Read32FromEncode(s: seq<byte>, v: nat, rest: seq<byte>, k: nat, result: nat)
    requires s == Encode(v) + rest
    requires Rest32(v, k) && result < Shl(1, 7 * k)
    ensures Read32From(s, 7 * k, result) == Done(result + Shl(v, 7 * k), rest)
    decreases 4 - k
  {
    EncodeHead(s, v, rest);
    Step32(s, k, result);
    if v < 128 {
    } else {
      Read32FromEncode(s[1..], v / 128, rest, k + 1, result + Shl(v % 128, 7 * k));
      SplitShl(v, 7 * k);
    }
  }

  /** The 32-bit decoder reads back every 32-bit value. */
  lemma {:induction false} Read32Encode(v: nat, rest: seq<byte>)
    requires v < 0x1_0000_0000
    ensures Read32(Encode(v) + rest) == Done(v, rest)
  {
    var s := Encode(v) + rest;
    EncodeHead(s, v, rest);
    if v >= 128 {
      ShlLimits(1);
      ShlLimits(v / 128);
      Read32FromEncode(s[1..], v / 128, rest, 1, v % 128);
    }
  }

  /** Splitting the groups of a varint: what came before, one more group, and the others. */
  lemma {:induction false} JoinShl(d: nat, v: nat, n: nat)
    ensures Shl(d + 128 * v, n) == Shl(d, n) + Shl(v, n + 7)
  {
    ShlAdd(d, 128 * v, n);
    ShlSeven(v, n);
  }

  /** The fifth byte ends the varint; it has room for four bits. */
  lemma {:induction false} FifthByte(s: seq<byte>, result: nat)
    requires result < Shl(1, 28) && s != [] && s[0] < 128
    ensures var v := result + Shl(s[0], 28);
            Read32From(s, 28, result) == if v < 0x1_0000_0000 then Done(v, s[1..]) else Fail
  {
    ShlLimits(1);
    ShlLimits(s[0]);
    if s[0] < 16 {
      Step32(s, 4, result);
    }
  }

  /** What the loop makes of a varint that ends with the fifth byte at the latest, when k groups
    worth result came before. */
  lemma {:induction false} Read32FromIs(s: seq<byte>, k: nat, result: nat)
    requires 1 <= k <= 4 && result < Shl(1, 7 * k)
    requires Reference(s).Group? && k + Reference(s).length <= 5
    ensures var v := result + Shl(Reference(s).value, 7 * k);
            Read32From(s, 7 * k, result) == if v < 0x1_0000_0000 then Done(v, s[Reference(s).length..]) else Fail
    decreases 5 - k
  {
    if k == 4 {
      FifthByte(s, result);
    } else if s[0] < 128 {
      EarlyByte(s, k, result);
    } else {
      MoreBytes(s, k, result);
      Read32FromIs(s[1..], k + 1, result + Shl(s[0] - 128, 7 * k));
    }
  }

  lemma {:induction false} MoreBytes(s: seq<byte>, k: nat, result: nat)
    requires 1 <= k < 4 && result < Shl(1, 7 * k)
    requires s != [] && s[0] >= 128 && Reference(s).Group?
    ensures Reference(s[1..]).Group? && Reference(s).length == Reference(s[1..]).length + 1
    ensures s[1..][Reference(s[1..]).length..] == s[Reference(s).length..]
    ensures var next := result + Shl(s[0] - 128, 7 * k);
            && next < Shl(1, 7 * (k + 1))
            && Read32From(s, 7 * k, result) == Read32From(s[1..], 7 * (k + 1), next)
            && next + Shl(Reference(s[1..]).value, 7 * (k + 1)) == result + Shl(Reference(s).value, 7 * k)
  {
    Step32(s, k, result);
    JoinShl(s[0] - 128, Reference(s[1..]).value, 7 * k);
  }

  lemma {:induction false} EarlyByte(s: seq<byte>, k: nat, result: nat)
    requires 1 <= k < 4 && result < Shl(1, 7 * k) && s != [] && s[0] < 128
    ensures Read32From(s, 7 * k, result) == Done(result + Shl(s[0], 7 * k), s[1..])
    ensures result + Shl(s[0], 7 * k) < 0x1_0000_0000
  {
    Step32(s, k, result);
    ShlFurther(1, 7 * k + 7, 28);
    ShlLimits(1);
  }

  /** Of the varints of up to five bytes the 32-bit decoder accepts exactly those of 32-bit
    values, and returns the value. */
  lemma {:induction false} Read32IsReference(s: seq<byte>)
    requires Reference(s).Group? && Reference(s).length <= 5
    ensures Read32(s) == if Reference(s).value < 0x1_0000_0000 then Done(Reference(s).value, s[Reference(s).length..])
                         else Fail
  {
    if s[0] >= 128 {
      var Group(v, n) := Reference(s[1..]);
      ShlLimits(1);
      ShlLimits(v);
      Read32FromIs(s[1..], 1, s[0] - 128);
      assert s[1..][n..] == s[n + 1..];
    }
  }

  lemma {:induction false} Rooms()
    ensures Room64(5) == 0x2000_0000
  {
    assert Room64(8) == 128 * Room64(9);
    assert Room64(7) == 128 * Room64(8);
    assert Room64(6) == 128 * Room64(7);
    assert Room64(5) == 128 * Room64(6);
  }

  lemma {:induction false} SignExtension(s: seq<byte>, rest: seq<byte>, k: nat, result: nat)
    requires 5 <= k <= 9 && 0x8000_0000 <= result && 0 < Room64(k)
    requires s == Encode(Room64(k) - 1) + rest
    ensures Read32From(s, 7 * k, result) == Done(result, rest)
    decreases 9 - k
  {
    SignHead(s, rest, k);
    if k == 9 {
    } else {
      SignMore(s, k, result);
      SignExtension(s[1..], rest, k + 1, result);
    }
  }

  lemma {:induction false} SignMore(s: seq<byte>, k: nat, result: nat)
    requires 5 <= k < 9 && 0x8000_0000 <= result && s != [] && s[0] == 255
    ensures Read32From(s, 7 * k, result) == Read32From(s[1..], 7 * (k + 1), result)
  {
  }

  lemma {:induction false} SignHead(s: seq<byte>, rest: seq<byte>, k: nat)
    requires 5 <= k <= 9 && 0 < Room64(k)
    requires s == Encode(Room64(k) - 1) + rest
    ensures s != []
    ensures k == 9 ==> s[0] == 1 && s[1..] == rest
    ensures k < 9 ==> s[0] == 255 && 0 < Room64(k + 1) && s[1..] == Encode(Room64(k + 1) - 1) + rest
  {
    EncodeHead(s, Room64(k) - 1, rest);
    if k < 9 {
      assert Room64(k) - 1 == 128 * (Room64(k + 1) - 1) + 127;
    }
  }

  /** up is m / 128, rounded up. */
  predicate RoundsUp(m: nat, up: nat) {
    m <= 128 * up < m + 128
  }

  lemma {:induction false} RoundUp(m: nat) returns (up: nat)
    ensures RoundsUp(m, up)
  {
    up := (m + 127) / 128;
  }

  /** Dividing a number just below a power of 128: the groups of -m, low to high. */
  lemma {:induction false} NegativeHead(s: seq<byte>, m: nat, up: nat, rest: seq<byte>, room: nat)
    requires RoundsUp(m, up) && 128 <= 128 * room - m && s == Encode(128 * room - m) + rest
    ensures s != [] && s[0] == 128 * up - m + 128
    ensures up <= room && s[1..] == Encode(room - up) + rest
  {
    var w := 128 * room - m;
    assert w == 128 * (room - up) + (128 * up - m);
    EncodeHead(s, w, rest);
  }

  /** One byte of a sign-extended number: of -m below 128 * room64 a group goes, and up is
    left to go. room and room64 are what is left of 32 and of 64 bits. */
  lemma {:induction false} NegativeGroup(s: seq<byte>, m: nat, up: nat, rest: seq<byte>, k: nat, room: nat,
                                         room64: nat, result: nat)
    requires 1 <= k < 4 && RoundsUp(m, up) && 1 <= m <= 64 * room && 1 < room <= room64 && result < Shl(1, 7 * k)
    requires s == Encode(128 * room64 - m) + rest
    ensures var next := result + Shl(128 * up - m, 7 * k);
            && next < Shl(1, 7 * k + 7)
            && s != [] && s[1..] == Encode(room64 - up) + rest
            && Read32From(s, 7 * k, result) == Read32From(s[1..], 7 * k + 7, next)
            && next + Shl(room - up, 7 * k + 7) == result + Shl(128 * room - m, 7 * k)
  {
    NegativeHead(s, m, up, rest, room64);
    Step32(s, k, result);
    NegativeSplit(m, up, room, 7 * k);
  }

  lemma {:induction false} NegativeSplit(m: nat, up: nat, room: nat, n: nat)
    requires RoundsUp(m, up) && up <= room
    ensures Shl(128 * room - m, n) == Shl(128 * up - m, n) + Shl(room - up, n + 7)
  {
    ShlAdd(128 * up - m, 128 * (room - up), n);
    ShlSeven(room - up, n);
  }

  /** What is left of 32 and of 64 bits after k groups. */
  predicate Left(k: nat, room: nat, room64: nat) {
    || (k == 4 && room == 0x10 && room64 == 0x10_0000_0000)
    || (k == 3 && room == 0x800 && room64 == 0x800_0000_0000)
    || (k == 2 && room == 0x4_0000 && room64 == 0x4_0000_0000_0000)
  }

  lemma {:induction false} Read32FromNegative(s: seq<byte>, m: nat, rest: seq<byte>, k: nat, room: nat, room64: nat,
                                              result: nat)
    requires 1 <= k < 4 && Left(k + 1, room, room64) && 1 <= m <= 64 * room && result < Shl(1, 7 * k)
    requires s == Encode(128 * room64 - m) + rest
    ensures Read32From(s, 7 * k, result) == Done(result + Shl(128 * room - m, 7 * k), rest)
    decreases 4 - k
  {
    var up := RoundUp(m);
    var next := result + Shl(128 * up - m, 7 * k);
    NegativeGroup(s, m, up, rest, k, room, room64, result);
    if k == 3 {
      FifthGroup(s[1..], up, rest, 4, next);
    } else {
      Read32FromNegative(s[1..], up, rest, k + 1, room / 128, room64 / 128, next);
    }
  }

  lemma {:induction false} FifthGroup(s: seq<byte>, m: nat, rest: seq<byte>, k: nat, result: nat)
    requires k == 4 && 1 <= m <= 8 && result < Shl(1, 7 * k)
    requires s == Encode(0x10_0000_0000 - m) + rest
    ensures Read32From(s, 7 * k, result) == Done(result + Shl(16 - m, 7 * k), rest)
  {
    NegativeHead(s, m, 1, rest, 0x2000_0000);
    LastGroup32(result, m, 7 * k);
    Rooms();
    SignExtension(s[1..], rest, 5, result + Shl(16 - m, 7 * k));
  }

  lemma {:induction false} LastGroup32(result: nat, m: nat, n: nat)
    requires n == 28 && 1 <= m <= 8 && result < Shl(1, n)
    ensures Low32(OrShl(result, 128 - m, n)) == result + Shl(16 - m, n)
    ensures 0x8000_0000 <= result + Shl(16 - m, n)
  {
    ShlLimits(128 - m);
    ShlLimits(16 - m);
    ShlLimits(1);
    OrDisjoint(result, 128 - m, n);
    Low32Wraps(7, result + Shl(16 - m, n));
  }

  /** And of a negative 32-bit value, sign-extended to ten bytes, the low 32 bits. */
  lemma {:induction false} Read32Negative(n: int, rest: seq<byte>)
    requires -0x8000_0000 <= n < 0
    ensures Read32(Encode(n + 0x1_0000_0000_0000_0000) + rest) == Done(n + 0x1_0000_0000, rest)
  {
    var m, s := -n, Encode(n + 0x1_0000_0000_0000_0000) + rest;
    var up := RoundUp(m);
    NegativeHead(s, m, up, rest, 0x200_0000_0000_0000);
    ShlLimits(1);
    ShlLimits(0x200_0000 - up);
    Read32FromNegative(s[1..], up, rest, 1, 0x4_0000, 0x4_0000_0000_0000, 128 * up - m);
  }

  // Zigzag.

  /** pb_encode_svarint: a shift in 64 bits, complemented for negative values. */
  function ZigZag(n: int): nat
    requires -0x8000_0000_0000_0000 <= n < 0x8000_0000_0000_0000
  {
    if n < 0 then 0xFFFF_FFFF_FFFF_FFFF - Low64(2 * (n + 0x1_0000_0000_0000_0000)) else Low64(2 * n)
  }

  /** Conversion to int64_t. */
  function Signed64(v: nat): int {
    if v < 0x8000_0000_0000_0000 then v else v - 0x1_0000_0000_0000_0000
  }

  /** pb_decode_svarint. */
  function UnZigZag(v: nat): int
    requires v < 0x1_0000_0000_0000_0000
  {
    if v % 2 == 1 then Signed64(0xFFFF_FFFF_FFFF_FFFF - v / 2) else Signed64(v / 2)
  }

  /** The guide's mapping: 0, -1, 1, -2, 2 and so on become 0, 1, 2, 3, 4. */
  lemma {:induction false} ZigZagIs(n: int)
    requires -0x8000_0000_0000_0000 <= n < 0x8000_0000_0000_0000
    ensures ZigZag(n) == if n < 0 then -2 * n - 1 else 2 * n
  {
    if n < 0 {
      Low64Wraps(1, 2 * n + 0x1_0000_0000_0000_0000);
    }
  }

  /** Decoding inverts encoding, and encoding decoding: the mapping is a bijection. */
  lemma {:induction false} ZigZagInverse(n: int, v: nat)
    requires -0x8000_0000_0000_0000 <= n < 0x8000_0000_0000_0000 && v < 0x1_0000_0000_0000_0000
    ensures UnZigZag(ZigZag(n)) == n
    ensures -0x8000_0000_0000_0000 <= UnZigZag(v) < 0x8000_0000_0000_0000 && ZigZag(UnZigZag(v)) == v
  {
    ZigZagIs(n);
    ZigZagIs(UnZigZag(v));
  }
}
