/** Sequence-numbered entries and the answer a set of them gives to a read.
  User keys enter the database only through the user comparator, so a key is
  modelled as its place in comparator order. */
module Entries {
  type Key = int

  datatype Option<+T> = None | Some(value: T) {
    function GetOr(default: T): T {
      if Some? then value else default
    }
  }

  datatype Op = Put(key: Key, value: string) | Delete(key: Key)

  /** One internal key with its value: the operation and its sequence number. */
  datatype Entry = Entry(sequence: nat, op: Op) {
    function Key(): Key { op.key }
  }

  /** No two entries share a sequence number. */
  ghost predicate Consistent(es: set<Entry>) {
    forall a, b :: a in es && b in es && a.sequence == b.sequence ==> a == b
  }

  ghost predicate Covers(e: Entry, k: Key, s: nat) {
    e.Key() == k && e.sequence <= s
  }

  /** e is the newest entry for k that a reader at sequence s may see. */
  ghost predicate IsNewest(es: set<Entry>, k: Key, s: nat, e: Entry) {
    && e in es
    && Covers(e, k, s)
    && forall f :: f in es && Covers(f, k, s) ==> f.sequence <= e.sequence
  }

  ghost predicate HasEntry(es: set<Entry>, k: Key, s: nat) {
    exists e :: e in es && Covers(e, k, s)
  }

  ghost function Find(es: set<Entry>, k: Key, s: nat): (r: Option<Entry>)
    ensures r.Some? ==> IsNewest(es, k, s, r.value)
    ensures r.None? <==> !HasEntry(es, k, s)
  {
    if HasEntry(es, k, s) then
      NewestExists(es, k, s);
      var e :| IsNewest(es, k, s, e);
      Some(e)
    else
      None
  }

  /** A deletion marker and a missing key read the same. */
  function Visible(r: Option<Entry>): Option<string> {
    match r
    case Some(Entry(_, Put(_, v))) => Some(v)
    case _ => None
  }

  ghost function Lookup(es: set<Entry>, k: Key, s: nat): Option<string> {
    Visible(Find(es, k, s))
  }

  lemma {:induction false} NewestExists(es: set<Entry>, k: Key, s: nat)
    requires HasEntry(es, k, s)
    ensures exists e :: IsNewest(es, k, s, e)
    decreases |es|
  {
    var e :| e in es && Covers(e, k, s);
    var rest := es - {e};
    if HasEntry(rest, k, s) {
      NewestExists(rest, k, s);
      var f :| IsNewest(rest, k, s, f);
      var best := if f.sequence <= e.sequence then e else f;
      assert IsNewest(es, k, s, best);
    } else {
      assert IsNewest(es, k, s, e);
    }
  }

  lemma {:induction false} FindIs(es: set<Entry>, k: Key, s: nat, e: Entry)
    requires Consistent(es)
    requires IsNewest(es, k, s, e)
    ensures Find(es, k, s) == Some(e)
  {
    assert HasEntry(es, k, s);
  }

  /** Two sets that agree on what a reader at s may see of k answer alike. */
  lemma {:induction false} SameFind(a: set<Entry>, b: set<Entry>, k: Key, s: nat)
    requires Consistent(a) && Consistent(b)
    requires forall e :: Covers(e, k, s) ==> (e in a <==> e in b)
    ensures Find(a, k, s) == Find(b, k, s)
  {
    match Find(a, k, s)
    case Some(e) => FindIs(b, k, s, e);
    case None => assert !HasEntry(b, k, s);
  }

  /** Entries above the snapshot are invisible. */
  lemma {:induction false} NewerIsInvisible(es: set<Entry>, added: set<Entry>, k: Key, s: nat)
    requires Consistent(es + added)
    requires forall e :: e in added ==> s < e.sequence
    ensures Lookup(es + added, k, s) == Lookup(es, k, s)
  {
    SameFind(es, es + added, k, s);
  }

  /** top holds only entries newer than those of below, except for entries below repeats. */
  ghost predicate Tops(top: set<Entry>, below: set<Entry>) {
    forall t, b :: t in top && b in below ==> b.sequence < t.sequence || b in top
  }

  /** Looking through a newer layer first gives the same answer as looking at the union. */
  lemma {:induction false} LayeredLookup(below: set<Entry>, top: set<Entry>, k: Key, s: nat)
    requires Consistent(below + top)
    requires Tops(top, below)
    ensures Lookup(below + top, k, s) ==
            if Find(top, k, s).Some? then Visible(Find(top, k, s)) else Lookup(below, k, s)
  {
    match Find(top, k, s)
    case Some(e) =>
      assert IsNewest(below + top, k, s, e);
      FindIs(below + top, k, s, e);
    case None =>
      SameFind(below, below + top, k, s);
  }

  /** From sequence floor on, the two sets answer every read alike. */
  ghost predicate SameFrom(floor: nat, a: set<Entry>, b: set<Entry>) {
    forall k, s {:trigger Lookup(a, k, s)} {:trigger Lookup(b, k, s)} ::
      floor <= s ==> Lookup(a, k, s) == Lookup(b, k, s)
  }

  lemma {:induction false} SameFromTop(floor: nat, a: set<Entry>, full: set<Entry>, top: set<Entry>)
    requires Consistent(full + top)
    requires a <= full
    requires SameFrom(floor, a, full)
    requires Tops(top, full)
    ensures SameFrom(floor, a + top, full + top)
  {
    forall k, s | floor <= s
      ensures Lookup(a + top, k, s) == Lookup(full + top, k, s)
    {
      LayeredLookup(a, top, k, s);
      LayeredLookup(full, top, k, s);
      assert Lookup(a, k, s) == Lookup(full, k, s);
    }
  }

  lemma {:induction false} SameFromWeaken(floor: nat, higher: nat, a: set<Entry>, b: set<Entry>)
    requires floor <= higher
    requires SameFrom(floor, a, b)
    ensures SameFrom(higher, a, b)
  {
    forall k, s | higher <= s
      ensures Lookup(a, k, s) == Lookup(b, k, s)
    {
      assert floor <= s;
    }
  }

  lemma {:induction false} SameFromTransitive(floor: nat, a: set<Entry>, b: set<Entry>, c: set<Entry>)
    requires SameFrom(floor, a, b) && SameFrom(floor, b, c)
    ensures SameFrom(floor, a, c)
  {
    forall k, s | floor <= s
      ensures Lookup(a, k, s) == Lookup(c, k, s)
    {
      assert Lookup(a, k, s) == Lookup(b, k, s);
    }
  }
}
