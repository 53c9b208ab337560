/** The drop rule of a compaction, stated on the set of input entries, and why
  applying it keeps every read at or above the smallest snapshot. */
module Compaction {
  import opened Entries

  /** A newer entry for the same key is already old enough for every live reader. */
  ghost predicate Hidden(input: set<Entry>, smallest: nat, e: Entry) {
    exists f :: f in input && f.Key() == e.Key() && e.sequence < f.sequence <= smallest
  }

  /** A deletion every live reader sees, for a key no deeper level holds. */
  predicate Obsolete(smallest: nat, base: set<Key>, e: Entry) {
    e.op.Delete? && e.sequence <= smallest && e.Key() in base
  }

  ghost predicate Dropped(input: set<Entry>, smallest: nat, base: set<Key>, e: Entry) {
    Hidden(input, smallest, e) || Obsolete(smallest, base, e)
  }

  ghost function KeepSet(input: set<Entry>, smallest: nat, base: set<Key>): set<Entry> {
    set e | e in input && !Dropped(input, smallest, base, e)
  }

  /** What IsBaseLevelForKey answers for: outside the input a base key has no older
    entry, unless the input entry is itself repeated there. */
  ghost predicate BaseSafe(rest: set<Entry>, input: set<Entry>, base: set<Key>) {
    forall r, e :: r in rest && e in input && r.Key() == e.Key() && e.Key() in base
      ==> e.sequence <= r.sequence || e in rest
  }

  /** The levels as VersionSet keeps them: shallower levels hold newer entries of a key, and
    a base key is one no deeper level holds. Such a base is safe. */
  lemma {:induction false} LevelsAreSafe(shallower: set<Entry>, input: set<Entry>, deeper: set<Entry>, base: set<Key>)
    requires forall a, b :: a in shallower && b in input && a.Key() == b.Key() ==> b.sequence < a.sequence
    requires forall k, e :: k in base && e in deeper ==> e.Key() != k
    ensures BaseSafe(shallower + deeper, input, base)
  {
  }

  lemma {:induction false} ReadSurvives(input: set<Entry>, rest: set<Entry>, smallest: nat, base: set<Key>, k: Key,
                                        s: nat)
    requires Consistent(rest + input)
    requires BaseSafe(rest, input, base)
    requires smallest <= s
    ensures Lookup(rest + KeepSet(input, smallest, base), k, s) == Lookup(rest + input, k, s)
  {
    var kept := KeepSet(input, smallest, base);
    var before, after := rest + input, rest + kept;
    match Find(before, k, s)
    case None =>
      assert !HasEntry(after, k, s);
    case Some(e) =>
      if e in after {
        assert IsNewest(after, k, s, e);
        FindIs(after, k, s, e);
      } else {
        assert Obsolete(smallest, base, e);
        forall f | f in input && f.Key() == k && f.sequence < e.sequence
          ensures Hidden(input, smallest, f)
        {
          assert f.Key() == e.Key() && f.sequence < e.sequence <= smallest;
        }
        assert !HasEntry(after, k, s);
      }
  }

  /** Replacing the input of a compaction by what it keeps changes no read at or
    above the smallest snapshot. */
  lemma {:induction false} CompactionPreservesReads(input: set<Entry>, rest: set<Entry>, smallest: nat, base: set<Key>)
    requires Consistent(rest + input)
    requires BaseSafe(rest, input, base)
    ensures SameFrom(smallest, rest + KeepSet(input, smallest, base), rest + input)
  {
    forall k, s | smallest <= s
      ensures Lookup(rest + KeepSet(input, smallest, base), k, s) == Lookup(rest + input, k, s)
    {
      ReadSurvives(input, rest, smallest, base, k, s);
    }
  }

  /** The same over the levels: whatever the shallower levels hold, replacing the input by
    what is kept changes no read at or above the smallest snapshot. */
  lemma {:induction false} CompactionPreservesLevels(shallower: set<Entry>, input: set<Entry>, deeper: set<Entry>,
                                                     smallest: nat, base: set<Key>, k: Key, s: nat)
    requires Consistent(shallower + input + deeper) && smallest <= s
    requires forall a, b :: a in shallower && b in input && a.Key() == b.Key() ==> b.sequence < a.sequence
    requires forall k, e :: k in base && e in deeper ==> e.Key() != k
    ensures Lookup(shallower + KeepSet(input, smallest, base) + deeper, k, s)
            == Lookup(shallower + input + deeper, k, s)
  {
    LevelsAreSafe(shallower, input, deeper, base);
    var rest := shallower + deeper;
    assert rest + input == shallower + input + deeper;
    assert rest + KeepSet(input, smallest, base) == shallower + KeepSet(input, smallest, base) + deeper;
    ReadSurvives(input, rest, smallest, base, k, s);
  }
}

/** The loop of DoCompactionWork over the merged input, and the files it writes. */
module CompactionLoop {
  import opened Entries
  import opened Compaction

  const MAX_SEQUENCE_NUMBER: nat := 0xFF_FFFF_FFFF_FFFF

  /** What the merging iterator yields: an internal key that parses, or one that does not. */
  datatype Item = Parsed(entry: Entry) | Garbage(raw: string)

  /** current_user_key and last_sequence_for_key. */
  datatype KeyRun = KeyRun(current: Option<Key>, last: nat)

  const NO_RUN := KeyRun(None, MAX_SEQUENCE_NUMBER)

  function AtKey(run: KeyRun, k: Key): KeyRun {
    if run.current == Some(k) then run else KeyRun(Some(k), MAX_SEQUENCE_NUMBER)
  }

  predicate Drops(run: KeyRun, item: Item, smallest: nat, base: set<Key>) {
    match item
    case Garbage(_) => false
    case Parsed(e) => AtKey(run, e.Key()).last <= smallest || Obsolete(smallest, base, e)
  }

  function Advance(run: KeyRun, item: Item): KeyRun {
    match item
    case Garbage(_) => NO_RUN
    case Parsed(e) => KeyRun(Some(e.Key()), e.sequence)
  }

  /** The state after the first n entries. */
  function RunAfter(items: seq<Item>, n: nat): KeyRun
    requires n <= |items|
  {
    if n == 0 then NO_RUN else Advance(RunAfter(items, n - 1), items[n - 1])
  }

  /** Those of the first n entries that the loop does not drop, in order. */
  function Kept(items: seq<Item>, n: nat, smallest: nat, base: set<Key>): seq<Item>
    requires n <= |items|
  {
    if n == 0 then
      []
    else
      Kept(items, n - 1, smallest, base) +
      if Drops(RunAfter(items, n - 1), items[n - 1], smallest, base) then [] else [items[n - 1]]
  }

  /** Internal key order: by user key, then by descending sequence. */
  predicate NotAfter(a: Entry, b: Entry) {
    a.Key() < b.Key() || (a.Key() == b.Key() && b.sequence <= a.sequence)
  }

  predicate Before(a: Entry, b: Entry) {
    a.Key() < b.Key() || (a.Key() == b.Key() && b.sequence < a.sequence)
  }

  predicate AllParse(items: seq<Item>) {
    forall i :: 0 <= i < |items| ==> items[i].Parsed?
  }

  ghost predicate Sorted(items: seq<Item>) {
    && AllParse(items)
    && forall i, j :: 0 <= i < j < |items| ==> NotAfter(items[i].entry, items[j].entry)
  }

  ghost predicate StrictlySorted(items: seq<Item>) {
    && AllParse(items)
    && forall i, j :: 0 <= i < j < |items| ==> Before(items[i].entry, items[j].entry)
  }

  ghost function EntriesOf(items: seq<Item>): set<Entry> {
    set item | item in items && item.Parsed? :: item.entry
  }

  /** On a sorted stream the one-pass test against the previous entry decides exactly
    the set-level drop rule, except that a repeated entry may be dropped once kept. */
  lemma {:induction false} DropsIsDropped(items: seq<Item>, n: nat, smallest: nat, base: set<Key>)
    requires n < |items|
    requires Sorted(items)
    requires Consistent(EntriesOf(items))
    requires smallest < MAX_SEQUENCE_NUMBER
    ensures !Drops(RunAfter(items, n), items[n], smallest, base) ==>
            !Dropped(EntriesOf(items), smallest, base, items[n].entry)
    ensures Drops(RunAfter(items, n), items[n], smallest, base) ==>
            Dropped(EntriesOf(items), smallest, base, items[n].entry) || (n > 0 && items[n - 1] == items[n])
  {
    var all, e := EntriesOf(items), items[n].entry;
    if n > 0 {
      assert NotAfter(items[n - 1].entry, e);
      assert items[n - 1].entry in all && e in all;
    }
    if Hidden(all, smallest, e) {
      var f :| f in all && f.Key() == e.Key() && e.sequence < f.sequence <= smallest;
      var i :| 0 <= i < |items| && items[i] == Parsed(f);
      assert i < n;
      assert i < n - 1 ==> NotAfter(f, items[n - 1].entry);
      assert items[n - 1].entry.Key() == e.Key() && items[n - 1].entry.sequence <= smallest;
    }
  }

  lemma {:induction false} DropDecides(items: seq<Item>, n: nat, smallest: nat, base: set<Key>)
    requires n < |items|
    requires Sorted(items)
    requires Consistent(EntriesOf(items))
    requires smallest < MAX_SEQUENCE_NUMBER
    ensures !Drops(RunAfter(items, n), items[n], smallest, base) ==>
            items[n].entry in KeepSet(EntriesOf(items), smallest, base)
    ensures Drops(RunAfter(items, n), items[n], smallest, base) ==>
            items[n].entry !in KeepSet(EntriesOf(items), smallest, base) || items[n].entry in EntriesOf(items[..n])
  {
    DropsIsDropped(items, n, smallest, base);
    InputHolds(items, n);
    if n > 0 && items[n - 1] == items[n] {
      assert items[..n][n - 1] == items[n];
      InputHolds(items[..n], n - 1);
    }
  }

  lemma {:induction false} InputHolds(items: seq<Item>, i: nat)
    requires i < |items| && items[i].Parsed?
    ensures items[i].entry in EntriesOf(items)
  {
    assert items[i] in items;
  }

  lemma {:induction false} EntriesOfSnoc(items: seq<Item>, item: Item)
    requires item.Parsed?
    ensures EntriesOf(items + [item]) == EntriesOf(items) + {item.entry}
  {
    forall e | e in EntriesOf(items) + {item.entry}
      ensures e in EntriesOf(items + [item])
    {
      assert Parsed(e) in items + [item];
    }
  }

  /** One more input entry: it joins the written entries unless the loop drops it. */
  lemma {:induction false} KeptEntriesStep(items: seq<Item>, n: nat, smallest: nat, base: set<Key>)
    requires n < |items|
    requires Sorted(items)
    ensures EntriesOf(items[..n + 1]) == EntriesOf(items[..n]) + {items[n].entry}
    ensures EntriesOf(Kept(items, n + 1, smallest, base)) ==
            EntriesOf(Kept(items, n, smallest, base)) +
            if Drops(RunAfter(items, n), items[n], smallest, base) then {} else {items[n].entry}
  {
    EntriesOfSnoc(items[..n], items[n]);
    EntriesOfSnoc(Kept(items, n, smallest, base), items[n]);
    assert items[..n + 1] == items[..n] + [items[n]];
  }

  lemma {:induction false} JoinKept(seen: set<Entry>, kept: set<Entry>, keep: set<Entry>, e: Entry, drop: bool)
    requires kept == seen * keep
    requires !drop ==> e in keep
    requires drop ==> e !in keep || e in seen
    ensures kept + (if drop then {} else {e}) == (seen + {e}) * keep
  {
  }

  /** The stream the loop writes holds exactly the entries the set-level rule keeps. */
  lemma {:induction false} KeptIsKeepSet(items: seq<Item>, n: nat, smallest: nat, base: set<Key>)
    requires n <= |items|
    requires Sorted(items)
    requires Consistent(EntriesOf(items))
    requires smallest < MAX_SEQUENCE_NUMBER
    ensures EntriesOf(Kept(items, n, smallest, base)) ==
            EntriesOf(items[..n]) * KeepSet(EntriesOf(items), smallest, base)
  {
    if n == 0 {
    } else {
      var m := n - 1;
      var keep, drop := KeepSet(EntriesOf(items), smallest, base), Drops(RunAfter(items, m), items[m], smallest, base);
      var seen, kept := EntriesOf(items[..m]), EntriesOf(Kept(items, m, smallest, base));
      KeptIsKeepSet(items, m, smallest, base);
      DropDecides(items, m, smallest, base);
      JoinKept(seen, kept, keep, items[m].entry, drop);
      KeptEntriesStep(items, m, smallest, base);
    }
  }

  // What is left, told from the entries alone.

  /** e is the newest of its key that a reader at the smallest snapshot may see. */
  ghost predicate NewestOld(input: set<Entry>, smallest: nat, e: Entry) {
    e.sequence <= smallest
    && forall f :: f in input && f.Key() == e.Key() && f.sequence <= smallest ==> f.sequence <= e.sequence
  }

  /** The output is compact: all that is newer than the smallest snapshot, and of what is older
    at most one entry of each key, the newest, unless it deletes a key no deeper level holds. */
  ghost predicate Compacted(output: set<Entry>, input: set<Entry>, smallest: nat, base: set<Key>) {
    forall e :: e in output <==>
      && e in input
      && (smallest < e.sequence || (NewestOld(input, smallest, e) && !(e.op.Delete? && e.Key() in base)))
  }

  lemma {:induction false} KeepSetIsCompact(input: set<Entry>, smallest: nat, base: set<Key>)
    ensures Compacted(KeepSet(input, smallest, base), input, smallest, base)
  {
    forall e | e in input
      ensures Hidden(input, smallest, e) <==> e.sequence <= smallest && !NewestOld(input, smallest, e)
    {
    }
  }

  lemma {:induction false} KeptAtIsNewest(items: seq<Item>, n: nat, smallest: nat, base: set<Key>, f: Entry)
    requires n < |items| && StrictlySorted(items) && f in EntriesOf(items)
    requires !Drops(RunAfter(items, n), items[n], smallest, base)
    requires f.Key() == items[n].entry.Key() && f.sequence <= smallest
    ensures items[n].entry.sequence <= smallest ==> f.sequence <= items[n].entry.sequence
  {
    var e := items[n].entry;
    var i :| 0 <= i < |items| && items[i] == Parsed(f);
    if n > 0 {
      assert Before(items[n - 1].entry, e);
      assert i < n - 1 ==> Before(f, items[n - 1].entry);
    }
    assert i < n ==> Before(f, e);
    assert n < i ==> Before(e, f);
  }

  /** Every entry the loop writes comes from the input, where the loop did not drop it. */
  lemma {:induction false} KeptFrom(items: seq<Item>, n: nat, smallest: nat, base: set<Key>, item: Item)
    returns (i: nat)
    requires n <= |items| && item in Kept(items, n, smallest, base)
    ensures i < n && items[i] == item && !Drops(RunAfter(items, i), items[i], smallest, base)
  {
    if item in Kept(items, n - 1, smallest, base) {
      i := KeptFrom(items, n - 1, smallest, base, item);
    } else {
      i := n - 1;
    }
  }

  /** Of sorted input the loop writes no deletion that all readers see of a key no deeper level
    holds, and of the entries of a key that all readers see none but the newest. */
  lemma {:induction false} WrittenIsNeeded(items: seq<Item>, smallest: nat, base: set<Key>, e: Entry, f: Entry)
    requires StrictlySorted(items) && e in EntriesOf(Kept(items, |items|, smallest, base)) && e.sequence <= smallest
    ensures e in EntriesOf(items) && !(e.op.Delete? && e.Key() in base)
    ensures f in EntriesOf(items) && f.Key() == e.Key() && f.sequence <= smallest ==> f.sequence <= e.sequence
  {
    var i := KeptFrom(items, |items|, smallest, base, Parsed(e));
    InputHolds(items, i);
    if f in EntriesOf(items) && f.Key() == e.Key() && f.sequence <= smallest {
      KeptAtIsNewest(items, i, smallest, base, f);
    }
  }

  /** End to end: the stream written by the loop can stand in for the merged input. */
  lemma {:induction false} LoopPreservesReads(items: seq<Item>, rest: set<Entry>, smallest: nat, base: set<Key>)
    requires Sorted(items)
    requires smallest < MAX_SEQUENCE_NUMBER
    requires Consistent(rest + EntriesOf(items))
    requires BaseSafe(rest, EntriesOf(items), base)
    ensures SameFrom(smallest, rest + EntriesOf(Kept(items, |items|, smallest, base)), rest + EntriesOf(items))
  {
    var input := EntriesOf(items);
    assert items[..|items|] == items;
    KeptIsKeepSet(items, |items|, smallest, base);
    assert EntriesOf(Kept(items, |items|, smallest, base)) == KeepSet(input, smallest, base);
    CompactionPreservesReads(input, rest, smallest, base);
  }
}
