/** DB::Open as it is written: replaying the logs left behind, one memtable after another. */
module DbOpening {
  import opened Entries
  import opened DbState
  import opened DbSteps
  import opened DbInvariant
  import opened DbProofRecovery
  import opened DbRuns

  /** The database while it recovers: the files, versions_, the edit under construction, and
    what is to become mem_ and logfile_number_. */
  class Opening {
    var logs: map<nat, seq<Record>>
    var tables: map<nat, set<Entry>>
    var manifest: Versions
    var versions: Versions
    var todo: seq<nat>
    var added: map<nat, nat>
    var maxSequence: nat
    var saveManifest: bool
    var logfileNumber: Option<nat>
    var mem: set<Entry>

    function Files(): Disk
      reads this
    {
      Disk(logs, tables, manifest)
    }

    function View(): Recovery
      reads this
    {
      Recovery(versions, todo, added, maxSequence, saveManifest, logfileNumber, mem, false)
    }

    function Written(): Tables
      reads this
    {
      Tables(tables, added, versions.nextFile)
    }

    /** An empty memtable still takes a file number, but no file. */
    method WriteLevel0Table(memtable: set<Entry>)
      modifies `versions, `tables, `added
      ensures versions == old(versions).(nextFile := old(versions).nextFile + 1)
      ensures Written() == OneMore(old(Written()), memtable)
    {
      var number := versions.nextFile;
      versions := versions.(nextFile := number + 1);
      if memtable != {} {
        tables := tables[number := memtable];
        added := added[number := 0];
      }
    }

    /** The loop of RecoverLogFile: replays a log into memtables, flushing each when it is
      full. full is the memory-usage test after each record. The log is cut into chunks,
      one for each flushed memtable, and cur, which is in the last one. */
    method ReplayLog(records: seq<Record>, full: nat -> bool)
      returns (memtable: Option<set<Entry>>, compactions: nat, ghost chunks: seq<seq<Record>>, ghost cur: seq<Record>)
      modifies `versions, `tables, `added, `maxSequence, `saveManifest
      ensures Cut(records, |records|, chunks, cur, memtable) && compactions == |chunks|
      ensures maxSequence == MaxSequence(records, old(maxSequence))
      ensures versions == old(versions).(nextFile := versions.nextFile)
      ensures Written() == FlushChunks(chunks, old(Written()))
      ensures saveManifest == (old(saveManifest) || chunks != [])
    {
      memtable, compactions, chunks, cur := None, 0, [], [];
      var i := 0;
      while i < |records|
        invariant Cut(records, i, chunks, cur, memtable) && compactions == |chunks|
        invariant maxSequence == MaxSequence(records[..i], old(maxSequence))
        invariant versions == old(versions).(nextFile := versions.nextFile)
        invariant Written() == FlushChunks(chunks, old(Written()))
        invariant saveManifest == (old(saveManifest) || chunks != [])
      {
        memtable := Insert(memtable, records, i, chunks, cur, old(maxSequence));
        cur := cur + [records[i]];
        i := i + 1;
        if full(i) {
          compactions := compactions + 1;
          chunks := FlushMemtable(memtable.value, records, i, chunks, cur, old(Written()));
          memtable, cur := None, [];
        }
      }
      assert records[..|records|] == records;
    }

    /** The last log may be taken over with its memtable if nothing had to be flushed; reuse
      is whether it can be opened for appending. Otherwise the rest is flushed too. */
    method RecoverLogFile(number: nat, lastLog: bool, full: nat -> bool, reuse: bool)
      returns (reused: bool, ghost chunks: seq<seq<Record>>)
      requires number in logs && logfileNumber == None && mem == {}
      modifies `versions, `tables, `added, `maxSequence, `saveManifest, `logfileNumber, `mem
      ensures Concat(chunks) == logs[number] && (reused ==> lastLog && |chunks| <= 1)
      ensures maxSequence == MaxSequence(logs[number], old(maxSequence))
      ensures versions == old(versions).(nextFile := versions.nextFile)
      ensures logfileNumber == (if reused then Some(number) else None)
      ensures mem == if reused then Replay(logs[number]) else {}
      ensures Written() == if reused then old(Written()) else FlushChunks(chunks, old(Written()))
      ensures saveManifest == (old(saveManifest) || (!reused && chunks != []))
    {
      var memtable, compactions;
      ghost var cur;
      memtable, compactions, chunks, cur := ReplayLog(logs[number], full);
      reused := lastLog && compactions == 0 && reuse;
      if reused {
        logfileNumber := Some(number);
        mem := memtable.GetOr({});
        CutOnce(logs[number], chunks, cur, memtable);
        chunks := if cur == [] then [] else [cur];
      } else {
        chunks := FlushRest(memtable, logs[number], chunks, cur, old(Written()));
      }
    }

    /** What is left in the memtable at the end of the log is one more chunk. */
    method FlushRest(memtable: Option<set<Entry>>, ghost records: seq<Record>, ghost chunks: seq<seq<Record>>,
                     ghost cur: seq<Record>, ghost t: Tables) returns (ghost all: seq<seq<Record>>)
      requires Cut(records, |records|, chunks, cur, memtable) && Written() == FlushChunks(chunks, t)
      modifies `versions, `tables, `added, `saveManifest
      ensures Concat(all) == records && Written() == FlushChunks(all, t)
      ensures versions == old(versions).(nextFile := versions.nextFile)
      ensures saveManifest == (old(saveManifest) || memtable != None)
      ensures all != [] <==> chunks != [] || memtable != None
    {
      all := chunks;
      if memtable != None {
        all := FlushMemtable(memtable.value, records, |records|, chunks, cur, t);
      }
    }

    /** One more chunk of the log becomes a table. */
    method FlushMemtable(memtable: set<Entry>, ghost records: seq<Record>, ghost i: nat,
                         ghost chunks: seq<seq<Record>>, ghost cur: seq<Record>, ghost t: Tables)
      returns (ghost all: seq<seq<Record>>)
      requires Cut(records, i, chunks, cur, Some(memtable)) && Written() == FlushChunks(chunks, t)
      modifies `versions, `tables, `added, `saveManifest
      ensures Cut(records, i, all, [], None) && all == chunks + [cur] && Written() == FlushChunks(all, t)
      ensures versions == old(versions).(nextFile := versions.nextFile) && saveManifest
    {
      saveManifest := true;
      WriteLevel0Table(memtable);
      all := chunks + [cur];
      CutFlush(records, i, chunks, cur, Some(memtable), t);
    }

    /** One log of Recover, with MarkFileNumberUsed. */
    method RecoverNext(full: nat -> bool, reuse: bool) returns (reused: bool, ghost chunks: seq<seq<Record>>)
      requires todo != [] && todo[0] in logs && logfileNumber == None && mem == {}
      modifies this
      ensures Concat(chunks) == old(logs)[old(todo)[0]] && (reused ==> |old(todo)| == 1 && |chunks| <= 1)
      ensures (Files(), View()) == RecoverLog(old(Files()), old(View()), chunks, reused)
    {
      var number := todo[0];
      reused, chunks := RecoverLogFile(number, |todo| == 1, full, reuse);
      versions := versions.(nextFile := Max(versions.nextFile, number + 1));
      todo := todo[1..];
    }

    /** The loop of Recover: all logs are replayed, in order; the invariant of recovery holds,
      and what the files hold durably has not changed. */
    method Recover(full: (nat, nat) -> bool, reuse: bool, ghost h: History)
      requires DiskInv(Files(), h) && RecoveryOk(Files(), h, View()) && logfileNumber == None
      modifies this
      ensures DiskInv(Files(), h) && RecoveryOk(Files(), h, View()) && todo == []
      ensures logs == old(logs) && manifest == old(manifest) && Durable(Files(), h) == old(Durable(Files(), h))
      ensures AtMost(KeptLogs(Files()), versions.lastSequence)
    {
      while todo != []
        invariant DiskInv(Files(), h) && RecoveryOk(Files(), h, View())
        invariant logs == old(logs) && manifest == old(manifest)
        invariant todo != [] ==> logfileNumber == None
        decreases |todo|
      {
        ghost var d, rec := Files(), View();
        var number := todo[0];
        var reused;
        ghost var chunks;
        reused, chunks := RecoverNext((i: nat) => full(number, i), reuse);
        RecoverLogKeeps(d, h, rec, chunks, reused);
      }
      assert Pending(logs, todo) == {};
      if versions.lastSequence < maxSequence {
        versions := versions.(lastSequence := maxSequence);
      }
    }

    /** WriteBatchInternal::InsertInto, and the largest sequence number so far. */
    method Insert(memtable: Option<set<Entry>>, records: seq<Record>, i: nat, ghost chunks: seq<seq<Record>>,
                  ghost cur: seq<Record>, ghost before: nat) returns (inserted: Option<set<Entry>>)
      requires i < |records| && Cut(records, i, chunks, cur, memtable)
      requires maxSequence == MaxSequence(records[..i], before)
      modifies `maxSequence
      ensures inserted.Some? && Cut(records, i + 1, chunks, cur + [records[i]], inserted)
      ensures maxSequence == MaxSequence(records[..i + 1], before)
    {
      var r := records[i];
      assert records[..i + 1][..i] == records[..i];
      CutInsert(records, i, chunks, cur, memtable);
      inserted := Some(memtable.GetOr({}) + Batch(r.first, r.ops));
      if r.first + |r.ops| > maxSequence + 1 {
        maxSequence := r.first + |r.ops| - 1;
      }
    }
  }

  /** What flushing one memtable writes. */
  function OneMore(t: Tables, es: set<Entry>): Tables {
    if es == {} then t.(next := t.next + 1) else Tables(t.tables[t.next := es], t.added[t.next := 0], t.next + 1)
  }

  /** The first i records are the flushed chunks and what is in the current memtable. */
  ghost predicate Cut(records: seq<Record>, i: nat, chunks: seq<seq<Record>>, cur: seq<Record>,
                      memtable: Option<set<Entry>>) {
    && i <= |records|
    && Concat(chunks) + cur == records[..i]
    && memtable == if cur == [] then None else Some(Replay(cur))
  }

  lemma {:induction false} OneMoreRecord(front: seq<Record>, cur: seq<Record>, records: seq<Record>, i: nat)
    requires i < |records| && front + cur == records[..i]
    ensures front + (cur + [records[i]]) == records[..i + 1]
  {
  }

  lemma {:induction false} CutInsert(records: seq<Record>, i: nat, chunks: seq<seq<Record>>, cur: seq<Record>,
                                     memtable: Option<set<Entry>>)
    requires i < |records| && Cut(records, i, chunks, cur, memtable)
    ensures Cut(records, i + 1, chunks, cur + [records[i]],
                Some(memtable.GetOr({}) + Batch(records[i].first, records[i].ops)))
  {
    ReplaySnoc(cur, records[i]);
    OneMoreRecord(Concat(chunks), cur, records, i);
  }

  lemma {:induction false} CutFlush(records: seq<Record>, i: nat, chunks: seq<seq<Record>>, cur: seq<Record>,
                                    memtable: Option<set<Entry>>, t: Tables)
    requires Cut(records, i, chunks, cur, memtable) && memtable.Some?
    ensures Cut(records, i, chunks + [cur], [], None)
    ensures FlushChunks(chunks + [cur], t) == OneMore(FlushChunks(chunks, t), memtable.value)
  {
    assert (chunks + [cur])[..|chunks|] == chunks;
  }

  lemma {:induction false} CutOnce(records: seq<Record>, chunks: seq<seq<Record>>, cur: seq<Record>,
                                   memtable: Option<set<Entry>>)
    requires Cut(records, |records|, chunks, cur, memtable) && chunks == []
    ensures memtable.GetOr({}) == Replay(records)
    ensures Concat(if cur == [] then [] else [cur]) == records
  {
    assert cur == records;
    assert [cur][..0] == [];
  }
}
