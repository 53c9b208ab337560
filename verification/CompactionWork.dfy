/** The files DoCompactionWork writes: opening, filling and finishing them. */
module CompactionWork {
  import opened Entries
  import opened Compaction
  import opened CompactionLoop

  datatype Output = Output(number: nat, smallest: Option<Item>, largest: Option<Item>, content: seq<Item>)

  /** Everything the loop asks of its surroundings: ShouldStopBefore, the file-size test
    and the file numbers others have taken meanwhile, by input position; I/O results by
    file number; and the shutdown flag. */
  datatype Surroundings = Surroundings(
    stopBefore: nat -> bool,
    full: nat -> bool,
    numbersTaken: nat -> nat,
    openOk: nat -> bool,
    finishOk: nat -> bool,
    shutdown: nat -> bool,
    shutdownAtEnd: bool,
    inputOk: bool)

  function Flatten(outputs: seq<Output>): seq<Item> {
    if outputs == [] then [] else Flatten(outputs[..|outputs| - 1]) + outputs[|outputs| - 1].content
  }

  /** The bounds recorded for a file are those of what has been added to it. */
  predicate BoundsMatch(out: Output, content: seq<Item>) {
    content != [] ==> out.smallest == Some(content[0]) && out.largest == Some(content[|content| - 1])
  }

  predicate Finished(out: Output) {
    out.content != [] && BoundsMatch(out, out.content)
  }

  predicate AllFinished(outputs: seq<Output>) {
    forall j :: 0 <= j < |outputs| ==> Finished(outputs[j])
  }

  /** Fresh numbers, each larger than the one before. */
  predicate NumberedBetween(outputs: seq<Output>, first: nat, next: nat) {
    outputs != [] ==>
      && first <= outputs[|outputs| - 1].number < next
      && NumberedBetween(outputs[..|outputs| - 1], first, outputs[|outputs| - 1].number)
  }

  function NumbersOf(outputs: seq<Output>): set<nat> {
    if outputs == [] then {} else NumbersOf(outputs[..|outputs| - 1]) + {outputs[|outputs| - 1].number}
  }

  lemma {:induction false} FlattenSnoc(outputs: seq<Output>, out: Output)
    ensures Flatten(outputs + [out]) == Flatten(outputs) + out.content
  {
    assert (outputs + [out])[..|outputs|] == outputs;
  }

  /** compact->outputs is closed + [current]: the open file, if any, is kept apart. */
  class CompactionState {
    const smallestSnapshot: nat
    const base: set<Key>
    const firstFile: nat
    const initialPending: set<nat>
    var closed: seq<Output>
    var current: Option<Output>
    var builder: Option<seq<Item>>
    var nextFile: nat
    var pendingOutputs: set<nat>

    constructor (smallestSnapshot: nat, base: set<Key>, nextFile: nat, pendingOutputs: set<nat>)
      ensures this.smallestSnapshot == smallestSnapshot && this.base == base
      ensures this.firstFile == nextFile && this.initialPending == pendingOutputs
      ensures closed == [] && current == None && builder == None && Valid() && Numbered()
    {
      this.smallestSnapshot, this.base := smallestSnapshot, base;
      this.firstFile, this.initialPending := nextFile, pendingOutputs;
      this.nextFile, this.pendingOutputs := nextFile, pendingOutputs;
      closed, current, builder := [], None, None;
    }

    function Outputs(): seq<Output>
      reads this
    {
      if current.Some? then closed + [current.value] else closed
    }

    /** The closed files are complete; a file is open exactly while there is a builder. */
    predicate Valid()
      reads this
    {
      && AllFinished(closed)
      && current.Some? == builder.Some?
      && (builder.Some? ==> BoundsMatch(current.value, builder.value))
    }

    /** Every file has its own fresh number, and that number is pending. */
    predicate Numbered()
      reads this
    {
      && firstFile <= nextFile
      && NumberedBetween(Outputs(), firstFile, nextFile)
      && pendingOutputs == initialPending + NumbersOf(Outputs())
    }

    /** All entries added so far, in the order they were added. */
    function Written(): seq<Item>
      reads this
    {
      Flatten(closed) + builder.GetOr([])
    }

    method OpenCompactionOutputFile(taken: nat, openOk: bool) returns (ok: bool)
      requires Valid() && Numbered() && builder == None
      modifies `current, `builder, `nextFile, `pendingOutputs
      ensures ok == openOk && Numbered()
      ensures current.Some? && nextFile == old(nextFile) + taken + 1
      ensures ok ==> Valid() && builder == Some([])
    {
      var out := Output(nextFile + taken, None, None, []);
      OneMoreFile(closed, out, firstFile, nextFile);
      nextFile := nextFile + taken + 1;
      pendingOutputs := pendingOutputs + {out.number};
      current := Some(out);
      ok := openOk;
      if ok {
        builder := Some([]);
      }
    }

    method FinishCompactionOutputFile(finishOk: bool) returns (ok: bool)
      requires Valid() && Numbered() && builder.Some? && builder.value != []
      modifies `closed, `current, `builder
      ensures ok == finishOk && builder == None && Numbered()
      ensures ok ==> Valid() && Written() == old(Written())
    {
      ok := finishOk;
      var out := current.value.(content := if ok then builder.value else []);
      SameFile(closed, current.value, out, firstFile, nextFile);
      FlattenSnoc(closed, out);
      closed, current, builder := closed + [out], None, None;
    }

    /** Adds one entry to the open file, recording it as the file's bound. */
    method Add(item: Item)
      requires Valid() && Numbered() && builder.Some?
      modifies `current, `builder
      ensures Valid() && Numbered() && builder == Some(old(builder).value + [item])
      ensures Written() == old(Written()) + [item]
    {
      var out := current.value;
      if builder.value == [] {
        out := out.(smallest := Some(item));
      }
      out := out.(largest := Some(item));
      SameFile(closed, current.value, out, firstFile, nextFile);
      current := Some(out);
      builder := Some(builder.value + [item]);
    }

    /** An entry that is kept: open a file if none is open, add the entry, close the
      file if it has become big enough. */
    method Emit(item: Item, i: nat, env: Surroundings) returns (ok: bool)
      requires Valid() && Numbered()
      modifies this
      ensures Numbered()
      ensures ok ==> Valid() && Written() == old(Written()) + [item]
      ensures ok && builder.Some? ==> builder.value != []
    {
      ok := true;
      if builder == None {
        ok := OpenCompactionOutputFile(env.numbersTaken(i), env.openOk(nextFile));
        if !ok { return; }
      }
      Add(item);
      if env.full(i) {
        ok := FinishCompactionOutputFile(env.finishOk(nextFile));
      }
    }

    /** One pass of the loop: cut the file if asked to, then keep or drop the entry. */
    method CompactOne(input: seq<Item>, i: nat, run: KeyRun, env: Surroundings) returns (ok: bool, after: KeyRun)
      requires i < |input| && run == RunAfter(input, i)
      requires Valid() && Numbered() && (builder.Some? ==> builder.value != [])
      requires Written() == Kept(input, i, smallestSnapshot, base)
      modifies this
      ensures Numbered()
      ensures ok ==> Valid() && after == RunAfter(input, i + 1)
      ensures ok && builder.Some? ==> builder.value != []
      ensures ok ==> Written() == Kept(input, i + 1, smallestSnapshot, base)
    {
      ok, after := true, run;
      if env.stopBefore(i) && builder != None {
        ok := FinishCompactionOutputFile(env.finishOk(nextFile));
        if !ok { return; }
      }
      var drop;
      drop, after := ClassifyItem(input[i], run, smallestSnapshot, base);
      if !drop {
        ok := Emit(input[i], i, env);
      }
    }

    /** On success the files hold exactly the entries that were not dropped, in order,
      no file is empty, and each file's bounds are its first and last key; this for any
      placement of the file boundaries. */
    method DoCompactionWork(input: seq<Item>, env: Surroundings) returns (ok: bool)
      requires Valid() && Numbered() && closed == [] && builder == None
      modifies this
      ensures ok ==> current == None && AllFinished(closed)
      ensures ok ==> Flatten(closed) == Kept(input, |input|, smallestSnapshot, base)
      ensures ok && StrictlySorted(input) ==> RangesIncrease(closed)
      ensures ok && StrictlySorted(input) ==> NothingStale(EntriesOf(Flatten(closed)), EntriesOf(input))
      ensures ok && StrictlySorted(input) && Consistent(EntriesOf(input)) && smallestSnapshot < MAX_SEQUENCE_NUMBER ==>
                Compacted(EntriesOf(Flatten(closed)), EntriesOf(input), smallestSnapshot, base)
      ensures ok ==> env.inputOk && !env.shutdownAtEnd
      ensures Numbered()
    {
      var i := 0;
      var run := NO_RUN;
      ok := true;
      while ok && i < |input| && !env.shutdown(i)
        invariant i <= |input|
        invariant Numbered()
        invariant ok ==> Valid() && run == RunAfter(input, i)
        invariant ok && builder.Some? ==> builder.value != []
        invariant ok ==> Written() == Kept(input, i, smallestSnapshot, base)
      {
        ok, run := CompactOne(input, i, run, env);
        i := i + 1;
      }
      if ok && (i < |input| || env.shutdownAtEnd) {
        ok := false;
      }
      if ok && builder != None {
        ok := FinishCompactionOutputFile(env.finishOk(nextFile));
      }
      ok := ok && env.inputOk;
      if ok && StrictlySorted(input) {
        OutputsPartition(closed, input, smallestSnapshot, base);
        FilesAreCompact(input);
      }
    }

    /** No file holds a deletion at or below the smallest snapshot of a key no deeper level has,
      nor any but the newest of a key's entries at or below it. */
    ghost predicate NothingStale(written: set<Entry>, input: set<Entry>) {
      forall e :: e in written && e.sequence <= smallestSnapshot ==>
        && !(e.op.Delete? && e.Key() in base)
        && forall f :: f in input && f.Key() == e.Key() && f.sequence <= smallestSnapshot ==> f.sequence <= e.sequence
    }

    lemma {:induction false} FilesAreCompact(input: seq<Item>)
      requires StrictlySorted(input) && Flatten(closed) == Kept(input, |input|, smallestSnapshot, base)
      ensures NothingStale(EntriesOf(Flatten(closed)), EntriesOf(input))
      ensures Consistent(EntriesOf(input)) && smallestSnapshot < MAX_SEQUENCE_NUMBER ==>
                Compacted(EntriesOf(Flatten(closed)), EntriesOf(input), smallestSnapshot, base)
    {
      forall e, f | e in EntriesOf(Flatten(closed)) && e.sequence <= smallestSnapshot
        ensures !(e.op.Delete? && e.Key() in base)
        ensures f in EntriesOf(input) && f.Key() == e.Key() && f.sequence <= smallestSnapshot ==>
                  f.sequence <= e.sequence
      {
        WrittenIsNeeded(input, smallestSnapshot, base, e, f);
      }
      if Consistent(EntriesOf(input)) && smallestSnapshot < MAX_SEQUENCE_NUMBER {
        KeepSetIsCompact(EntriesOf(input), smallestSnapshot, base);
        assert input[..|input|] == input;
        KeptIsKeepSet(input, |input|, smallestSnapshot, base);
      }
    }
  }

  /** The per-entry part of the loop: current_user_key, last_sequence_for_key and drop. */
  method ClassifyItem(item: Item, run: KeyRun, smallest: nat, base: set<Key>) returns (drop: bool, after: KeyRun)
    ensures drop == Drops(run, item, smallest, base)
    ensures after == Advance(run, item)
  {
    var current, last := run.current, run.last;
    drop := false;
    match item {
      case Garbage(_) =>
        current, last := None, MAX_SEQUENCE_NUMBER;
      case Parsed(e) =>
        if current != Some(e.Key()) {
          current, last := Some(e.Key()), MAX_SEQUENCE_NUMBER;
        }
        if last <= smallest {
          drop := true;
        } else if e.op.Delete? && e.sequence <= smallest && e.Key() in base {
          drop := true;
        }
        last := e.sequence;
    }
    after := KeyRun(current, last);
  }

  lemma {:induction false} OneMoreFile(outputs: seq<Output>, out: Output, first: nat, next: nat)
    requires first <= next <= out.number
    requires NumberedBetween(outputs, first, next)
    ensures NumberedBetween(outputs + [out], first, out.number + 1)
    ensures NumbersOf(outputs + [out]) == NumbersOf(outputs) + {out.number}
  {
    assert (outputs + [out])[..|outputs|] == outputs;
    if outputs != [] {
      assert NumberedBetween(outputs, first, out.number);
    }
  }

  lemma {:induction false} SameFile(outputs: seq<Output>, a: Output, b: Output, first: nat, next: nat)
    requires a.number == b.number
    requires NumberedBetween(outputs + [a], first, next)
    ensures NumberedBetween(outputs + [b], first, next)
    ensures NumbersOf(outputs + [a]) == NumbersOf(outputs + [b])
  {
    assert (outputs + [a])[..|outputs|] == outputs;
    assert (outputs + [b])[..|outputs|] == outputs;
  }

  /** Dropping entries keeps the stream strictly sorted. */
  lemma {:induction false} KeptSorted(items: seq<Item>, n: nat, smallest: nat, base: set<Key>)
    requires n <= |items|
    requires StrictlySorted(items)
    ensures StrictlySorted(Kept(items, n, smallest, base))
    ensures n < |items| ==>
              forall i :: 0 <= i < |Kept(items, n, smallest, base)| ==>
                Before(Kept(items, n, smallest, base)[i].entry, items[n].entry)
  {
    if n == 0 {
    } else {
      KeptSorted(items, n - 1, smallest, base);
      var kept := Kept(items, n - 1, smallest, base);
      if n < |items| {
        assert Before(items[n - 1].entry, items[n].entry);
      }
    }
  }

  ghost predicate RangesIncrease(outputs: seq<Output>) {
    forall i, j :: 0 <= i < j < |outputs| ==>
      && outputs[i].largest.Some? && outputs[i].largest.value.Parsed?
      && outputs[j].smallest.Some? && outputs[j].smallest.value.Parsed?
      && Before(outputs[i].largest.value.entry, outputs[j].smallest.value.entry)
  }

  /** Files cut from one strictly sorted stream have strictly increasing key ranges. */
  lemma {:induction false} OutputRangesIncrease(outputs: seq<Output>)
    requires AllFinished(outputs)
    requires StrictlySorted(Flatten(outputs))
    ensures RangesIncrease(outputs)
  {
    if outputs == [] {
    } else {
      var front, last := outputs[..|outputs| - 1], outputs[|outputs| - 1];
      var head := Flatten(front);
      assert Flatten(outputs) == head + last.content;
      assert StrictlySorted(head) by {
        assert forall i :: 0 <= i < |head| ==> Flatten(outputs)[i] == head[i];
      }
      OutputRangesIncrease(front);
      forall i | 0 <= i < |front|
        ensures front[i].largest.value.Parsed? && last.smallest.value.Parsed?
        ensures Before(front[i].largest.value.entry, last.smallest.value.entry)
      {
        var p := LargestWithin(front, i);
        assert Flatten(outputs)[p] == front[i].largest.value;
        assert Flatten(outputs)[|head|] == last.content[0];
      }
    }
  }

  lemma {:induction false} LargestWithin(outputs: seq<Output>, i: nat) returns (p: nat)
    requires i < |outputs|
    requires AllFinished(outputs)
    ensures p < |Flatten(outputs)| && Flatten(outputs)[p] == outputs[i].largest.value
  {
    var front := outputs[..|outputs| - 1];
    if i == |outputs| - 1 {
      p := |Flatten(outputs)| - 1;
    } else {
      p := LargestWithin(front, i);
      assert front[i] == outputs[i];
    }
  }

  /** The files partition what the compaction keeps: their key ranges strictly increase, and
    together they hold exactly the entries the set-level drop rule keeps. */
  lemma {:induction false} OutputsPartition(outputs: seq<Output>, input: seq<Item>, smallest: nat, base: set<Key>)
    requires AllFinished(outputs) && StrictlySorted(input)
    requires Flatten(outputs) == Kept(input, |input|, smallest, base)
    ensures RangesIncrease(outputs)
    ensures Consistent(EntriesOf(input)) && smallest < MAX_SEQUENCE_NUMBER ==>
              EntriesOf(Flatten(outputs)) == KeepSet(EntriesOf(input), smallest, base)
  {
    KeptSorted(input, |input|, smallest, base);
    OutputRangesIncrease(outputs);
    if Consistent(EntriesOf(input)) && smallest < MAX_SEQUENCE_NUMBER {
      assert input[..|input|] == input;
      KeptIsKeepSet(input, |input|, smallest, base);
    }
  }

  /** What the compaction still has to write when the first n files are finished. */
  ghost function StillToWrite(outputs: seq<Output>, n: nat, keep: set<Entry>): set<Entry>
    requires n <= |outputs|
  {
    keep - EntriesOf(Flatten(outputs[..n]))
  }

  lemma {:induction false} FlattenNext(outputs: seq<Output>, n: nat)
    requires n < |outputs|
    ensures Flatten(outputs[..n + 1]) == Flatten(outputs[..n]) + outputs[n].content
  {
    assert outputs[..n + 1][..n] == outputs[..n];
  }

  lemma {:induction false} FlattenPrefix(outputs: seq<Output>, n: nat)
    requires n <= |outputs|
    ensures Flatten(outputs[..n]) <= Flatten(outputs)
    decreases |outputs| - n
  {
    if n == |outputs| {
      assert outputs[..n] == outputs;
    } else {
      FlattenPrefix(outputs, n + 1);
      FlattenNext(outputs, n);
    }
  }

  lemma {:induction false} EntriesOfJoin(a: seq<Item>, b: seq<Item>)
    ensures EntriesOf(a + b) == EntriesOf(a) + EntriesOf(b)
  {
    forall e | e in EntriesOf(a) + EntriesOf(b)
      ensures e in EntriesOf(a + b)
    {
      assert Parsed(e) in a + b;
    }
  }

  /** Entries of a strictly sorted stream that stand after the others are none of them. */
  lemma {:induction false} SortedApart(a: seq<Item>, b: seq<Item>)
    requires StrictlySorted(a + b)
    ensures EntriesOf(a) !! EntriesOf(b)
  {
    var s := a + b;
    forall i, j | 0 <= i < |a| && 0 <= j < |b|
      ensures a[i] != b[j]
    {
      assert s[i] == a[i] && s[|a| + j] == b[j] && Before(s[i].entry, s[|a| + j].entry);
    }
    assert forall item :: item in a ==> item !in b;
  }

  lemma {:induction false} SortedPrefix(a: seq<Item>, s: seq<Item>)
    requires a <= s && StrictlySorted(s)
    ensures StrictlySorted(a)
  {
    assert forall i :: 0 <= i < |a| ==> a[i] == s[i];
  }

  /** The files are chunks as a compaction job consumes them: each finished file takes a
    non-empty part of what is still to write, and together they leave nothing. */
  lemma {:induction false} FilesAreChunks(outputs: seq<Output>, input: seq<Item>, smallest: nat, base: set<Key>, n: nat)
    requires AllFinished(outputs) && StrictlySorted(input)
    requires Flatten(outputs) == Kept(input, |input|, smallest, base)
    requires Consistent(EntriesOf(input)) && smallest < MAX_SEQUENCE_NUMBER
    requires n < |outputs|
    ensures var keep := KeepSet(EntriesOf(input), smallest, base);
            var chunk := EntriesOf(outputs[n].content);
            && chunk != {} && chunk <= StillToWrite(outputs, n, keep)
            && StillToWrite(outputs, n + 1, keep) == StillToWrite(outputs, n, keep) - chunk
            && StillToWrite(outputs, |outputs|, keep) == {}
  {
    var before, content := Flatten(outputs[..n]), outputs[n].content;
    OutputsPartition(outputs, input, smallest, base);
    KeptSorted(input, |input|, smallest, base);
    FlattenNext(outputs, n);
    FlattenPrefix(outputs, n + 1);
    SortedPrefix(before + content, Flatten(outputs));
    SortedApart(before, content);
    EntriesOfJoin(before, content);
    ChunkWithin(before + content, Flatten(outputs));
    assert outputs[..|outputs|] == outputs;
    assert (before + content)[|before|] == content[0];
    InputHolds(content, 0);
  }

  lemma {:induction false} ChunkWithin(a: seq<Item>, s: seq<Item>)
    requires a <= s
    ensures EntriesOf(a) <= EntriesOf(s)
  {
    assert forall item :: item in a ==> item in s;
  }
}
