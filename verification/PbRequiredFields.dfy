/** fields_seen: the bitmap of required fields in pb_decode_noinit. */
module RequiredFields {
  import opened Bits
  import opened Descriptor
  import opened Decoding

  function Bit(w: nat, b: nat): bool {
    if b == 0 then w % 2 == 1 else Bit(w / 2, b - 1)
  }

  lemma {:induction false} BitOrBits(v: nat, w: nat, b: nat)
    ensures Bit(BitOr(v, w), b) <==> Bit(v, b) || Bit(w, b)
  {
    if b == 0 {
    } else {
      BitOrBits(v / 2, w / 2, b - 1);
      assert BitOr(v, w) / 2 == BitOr(v / 2, w / 2);
    }
  }

  lemma {:induction false} NoBits(b: nat)
    ensures !Bit(0, b)
  {
    if b == 0 {
    } else {
      NoBits(b - 1);
    }
  }

  /** w | (1 << n) sets bit n and no other. */
  lemma {:induction false} SetBit(w: nat, n: nat, b: nat)
    ensures Bit(OrShl(w, 1, n), b) <==> Bit(w, b) || b == n
  {
    if n == 0 {
      BitOrBits(w, 1, b);
      BitsOfOne(b);
    } else {
      OrShlHalves(w, n);
      if b > 0 {
        SetBit(w / 2, n - 1, b - 1);
      }
    }
  }

  lemma {:induction false} BitsOfOne(b: nat)
    ensures Bit(1, b) <==> b == 0
  {
    if b > 0 {
      NoBits(b - 1);
    }
  }

  lemma {:induction false} OrShlHalves(w: nat, n: nat)
    requires n > 0
    ensures OrShl(w, 1, n) / 2 == OrShl(w / 2, 1, n - 1) && OrShl(w, 1, n) % 2 == w % 2
  {
  }

  function Shr(v: nat, n: nat): nat {
    if n == 0 then v else Shr(v, n - 1) / 2
  }

  /** allbits >> (32 - r): the mask of the low r bits. */
  lemma {:induction false} MaskIs(n: nat)
    requires n <= 32
    ensures Shr(0xFFFF_FFFF, n) == Shl(1, 32 - n) - 1
  {
    if n == 0 {
      ShlLimits(1);
    } else {
      MaskIs(n - 1);
    }
  }

  /** A word equals the mask exactly when its low r bits, and no others, are set. */
  lemma {:induction false} EqualsMask(w: nat, r: nat)
    requires forall b :: r <= b ==> !Bit(w, b)
    ensures w == Shl(1, r) - 1 <==> LowSet(w, r)
  {
    if r == 0 {
      AllClear(w);
    } else {
      forall b | r - 1 <= b
        ensures !Bit(w / 2, b)
      {
        assert !Bit(w, b + 1);
      }
      EqualsMask(w / 2, r - 1);
      LowBits(w, r);
    }
  }

  /** The low r bits of w are all set. */
  ghost predicate LowSet(w: nat, r: nat) {
    forall b :: 0 <= b < r ==> Bit(w, b)
  }

  lemma {:induction false} LowBits(w: nat, r: nat)
    requires r > 0
    ensures LowSet(w, r) <==> w % 2 == 1 && LowSet(w / 2, r - 1)
  {
    if LowSet(w, r) {
      assert Bit(w, 0);
      forall b | 0 <= b < r - 1
        ensures Bit(w / 2, b)
      {
        assert Bit(w, b + 1);
      }
    }
    if w % 2 == 1 && LowSet(w / 2, r - 1) {
      forall b | 0 <= b < r
        ensures Bit(w, b)
      {
        assert b > 0 ==> Bit(w / 2, b - 1);
      }
    }
  }

  lemma {:induction false} AllClear(w: nat)
    requires forall b :: 0 <= b ==> !Bit(w, b)
    ensures w == 0
    decreases w
  {
    assert !Bit(w, 0);
    if w == 0 {
    } else {
      forall b | 0 <= b
        ensures !Bit(w / 2, b)
      {
        assert !Bit(w, b + 1);
      }
      AllClear(w / 2);
    }
  }

  // The bitmap: two words, field index i at bit i % 32 of word i / 32.

  predicate IsBitmap(words: seq<nat>) {
    |words| == MAX_REQUIRED_FIELDS / 32
  }

  predicate Test(words: seq<nat>, i: nat)
    requires IsBitmap(words) && i < MAX_REQUIRED_FIELDS
  {
    Bit(words[i / 32], i % 32)
  }

  ghost predicate WordsOnly(words: seq<nat>) {
    forall k, b :: 0 <= k < |words| && 32 <= b ==> !Bit(words[k], b)
  }

  const NONE_SEEN: seq<nat> := [0, 0]

  lemma {:induction false} NoneSeen()
    ensures IsBitmap(NONE_SEEN) && WordsOnly(NONE_SEEN)
    ensures forall i :: 0 <= i < MAX_REQUIRED_FIELDS ==> !Test(NONE_SEEN, i)
  {
    forall b: nat
      ensures !Bit(0, b)
    {
      NoBits(b);
    }
  }

  method Mark(words: seq<nat>, index: nat) returns (marked: seq<nat>)
    requires IsBitmap(words) && WordsOnly(words) && index < MAX_REQUIRED_FIELDS
    ensures IsBitmap(marked) && WordsOnly(marked)
    ensures forall i :: 0 <= i < MAX_REQUIRED_FIELDS ==> (Test(marked, i) <==> Test(words, i) || i == index)
  {
    var k := index / 32;
    marked := words[k := OrShl(words[k], 1, index % 32)];
    forall b: nat
      ensures Bit(marked[k], b) <==> Bit(words[k], b) || b == index % 32
    {
      SetBit(words[k], index % 32, b);
    }
  }

  /** The final test: word by word, then the remaining bits. It passes exactly when each of
    the first min(count, 64) required fields has been seen. */
  method CheckRequired(words: seq<nat>, count: nat) returns (ok: bool)
    requires IsBitmap(words) && WordsOnly(words)
    requires forall i :: count <= i < MAX_REQUIRED_FIELDS ==> !Test(words, i)
    ensures ok <==> forall i :: 0 <= i < count && i < MAX_REQUIRED_FIELDS ==> Test(words, i)
  {
    var n := if count > MAX_REQUIRED_FIELDS then MAX_REQUIRED_FIELDS else count;
    var k := 0;
    MaskIs(0);
    while k < n / 32
      invariant k <= n / 32
      invariant forall i :: 0 <= i < 32 * k ==> Test(words, i)
    {
      EqualsMask(words[k], 32);
      WordTest(words, k, 32);
      if words[k] != 0xFFFF_FFFF {
        return false;
      }
      k := k + 1;
    }
    if n % 32 != 0 {
      MaskIs(32 - n % 32);
      RestClear(words, n);
      EqualsMask(words[k], n % 32);
      WordTest(words, k, n % 32);
      if words[k] != Shr(0xFFFF_FFFF, 32 - n % 32) {
        return false;
      }
    }
    ok := true;
  }

  /** The low r bits of word k are the tests from 32 * k on. */
  lemma {:induction false} WordTest(words: seq<nat>, k: nat, r: nat)
    requires IsBitmap(words) && k < |words| && r <= 32
    ensures LowSet(words[k], r) <==> forall i :: 32 * k <= i < 32 * k + r ==> Test(words, i)
  {
    if forall i :: 32 * k <= i < 32 * k + r ==> Test(words, i) {
      forall b | 0 <= b < r
        ensures Bit(words[k], b)
      {
        assert Test(words, 32 * k + b);
      }
    }
    if LowSet(words[k], r) {
      forall i | 32 * k <= i < 32 * k + r
        ensures Test(words, i)
      {
        assert i / 32 == k && Bit(words[k], i - 32 * k);
      }
    }
  }

  lemma {:induction false} RestClear(words: seq<nat>, n: nat)
    requires IsBitmap(words) && WordsOnly(words) && n < MAX_REQUIRED_FIELDS
    requires forall i :: n <= i < MAX_REQUIRED_FIELDS ==> !Test(words, i)
    ensures forall b :: n % 32 <= b ==> !Bit(words[n / 32], b)
  {
    forall b | n % 32 <= b
      ensures !Bit(words[n / 32], b)
    {
      if b < 32 {
        assert !Test(words, n / 32 * 32 + b);
      }
    }
  }

  // What the bits stand for.

  lemma {:induction false} IndexAscends(fields: seq<Field>, i: nat, j: nat)
    requires i < j <= |fields|
    ensures RequiredBefore(fields, i) <= RequiredBefore(fields, j)
    ensures fields[i].htype.Required? ==> RequiredBefore(fields, i) < RequiredBefore(fields, j)
  {
    if i == j - 1 {
    } else {
      IndexAscends(fields, i, j - 1);
    }
  }

  lemma {:induction false} IndexHasField(fields: seq<Field>, n: nat, index: nat) returns (i: nat)
    requires n <= |fields| && index < RequiredBefore(fields, n)
    ensures i < n && fields[i].htype.Required? && RequiredBefore(fields, i) == index
  {
    if index < RequiredBefore(fields, n - 1) {
      i := IndexHasField(fields, n - 1, index);
    } else {
      i := n - 1;
    }
  }

  /** The bitmap says of each required field it covers whether it has been seen. */
  ghost predicate Records(words: seq<nat>, fields: seq<Field>, seen: set<nat>) {
    && IsBitmap(words) && WordsOnly(words)
    && (forall i :: RequiredBefore(fields, |fields|) <= i < MAX_REQUIRED_FIELDS ==> !Test(words, i))
    && forall i :: 0 <= i < |fields| && fields[i].htype.Required? && RequiredBefore(fields, i) < MAX_REQUIRED_FIELDS
         ==> (Test(words, RequiredBefore(fields, i)) <==> i in seen)
  }

  lemma {:induction false} RecordsNone(fields: seq<Field>)
    ensures Records(NONE_SEEN, fields, {})
  {
    NoneSeen();
  }

  lemma {:induction false} RecordsMark(words: seq<nat>, marked: seq<nat>, fields: seq<Field>, seen: set<nat>, at: nat)
    requires Records(words, fields, seen) && at < |fields| && fields[at].htype.Required?
    requires IsBitmap(marked) && WordsOnly(marked)
    requires forall i :: 0 <= i < MAX_REQUIRED_FIELDS ==>
               (Test(marked, i) <==> Test(words, i) || i == RequiredBefore(fields, at))
    ensures Records(marked, fields, seen + {at})
  {
    IndexAscends(fields, at, |fields|);
    forall i | 0 <= i < |fields| && fields[i].htype.Required?
      ensures RequiredBefore(fields, i) == RequiredBefore(fields, at) <==> i == at
    {
      if i < at {
        IndexAscends(fields, i, at);
      } else if at < i {
        IndexAscends(fields, at, i);
      }
    }
  }

  /** So the final test decides whether all required fields it covers have been seen. */
  lemma {:induction false} RecordsDecide(words: seq<nat>, fields: seq<Field>, seen: set<nat>)
    requires Records(words, fields, seen)
    ensures RequiredSeen(fields, seen) <==>
            forall i :: 0 <= i < RequiredBefore(fields, |fields|) && i < MAX_REQUIRED_FIELDS ==> Test(words, i)
  {
    forall i | 0 <= i < |fields| && fields[i].htype.Required?
      ensures RequiredBefore(fields, i) < RequiredBefore(fields, |fields|)
    {
      IndexAscends(fields, i, |fields|);
    }
    if RequiredSeen(fields, seen) {
      forall index | 0 <= index < RequiredBefore(fields, |fields|) && index < MAX_REQUIRED_FIELDS
        ensures Test(words, index)
      {
        var i := IndexHasField(fields, |fields|, index);
      }
    }
  }
}
