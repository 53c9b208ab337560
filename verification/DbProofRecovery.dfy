/** Crashes and recovery keep the invariant, and recovery loses and invents nothing. */
module DbProofRecovery {
  import opened Entries
  import opened DbState
  import opened DbSteps
  import opened DbInvariant
  import opened DbProofBackground
  import opened DbProofTables
  import opened DbProofWriters
  import opened DbProofManifest
  import opened DbProofReads

  lemma {:induction false} InitKeeps()
    ensures Inv(InitState())
  {
    var d, h := InitState().disk, InitState().hist;
    forall part: DiskPart
      ensures DiskHolds(part, d, h)
    {
      assert Union(d.tables, {}) == {};
    }
  }

  lemma {:induction false} LeftoverKeeps(d: Disk, h: History, f: nat, es: set<Entry>)
    requires DiskInv(d, h) && f !in d.manifest.files
    ensures DiskInv(d.(tables := d.tables[f := es]), h)
  {
    DiskAgrees(d, h, d.tables[f := es]);
  }

  lemma {:induction false} BeginRecoveryKeeps(d: Disk, h: History, todo: seq<nat>, newManifest: bool)
    requires DiskInv(d, h) && IsListing(todo, d.logs, d.manifest.logNumber)
    ensures RecoveryOk(d, h, BeginRecovery(d, todo, newManifest))
  {
    var rec := BeginRecovery(d, todo, newManifest);
    assert DiskHolds(PManifest, d, h);
    assert Recovered(d, rec) == {};
    assert LogsFrom(d.logs, d.manifest.logNumber) == Pending(d.logs, todo);
  }

  // Replaying one log.

  lemma {:induction false} MaxSequenceCovers(records: seq<Record>, m: nat)
    ensures m <= MaxSequence(records, m)
    ensures AtMost(Replay(records), MaxSequence(records, m))
    ensures MaxSequence(records, m) == m || exists r :: r in records && r.first + |r.ops| == MaxSequence(records, m) + 1
  {
    if records == [] {
    } else {
      var front := records[..|records| - 1];
      MaxSequenceCovers(front, m);
      assert forall r :: r in front ==> r in records;
    }
  }

  lemma {:induction false} ReplayConcat(a: seq<Record>, b: seq<Record>)
    ensures Replay(a + b) == Replay(a) + Replay(b)
  {
    if b == [] {
      assert a + b == a;
    } else {
      var front, last := b[..|b| - 1], b[|b| - 1];
      assert b == front + [last];
      assert a + b == (a + front) + [last];
      ReplayConcat(a, front);
      ReplaySnoc(a + front, last);
      ReplaySnoc(front, last);
    }
  }

  /** What flushing leaves: older tables alone, new ones numbered from start on, and in
    them exactly the entries given. */
  ghost predicate Flushed(before: Tables, after: Tables, es: set<Entry>) {
    && before.next <= after.next
    && before.added.Keys <= after.added.Keys <= after.tables.Keys
    && (forall f :: f in before.tables && f < before.next ==> f in after.tables && after.tables[f] == before.tables[f])
    && (forall f :: f in after.added ==> f in before.added || before.next <= f < after.next)
    && Union(after.tables, after.added.Keys) == Union(before.tables, before.added.Keys) + es
  }

  lemma {:induction false} FlushedOneMore(before: Tables, middle: Tables, seen: set<Entry>, es: set<Entry>)
    requires Flushed(before, middle, seen)
    requires forall f :: f in before.added ==> f < before.next
    ensures Flushed(before, Tables(middle.tables[middle.next := es], middle.added[middle.next := 0], middle.next + 1),
                    seen + es)
  {
    UnionAdd(middle.tables, middle.added.Keys, middle.next, es);
    assert middle.added[middle.next := 0].Keys == middle.added.Keys + {middle.next};
  }

  /** However the log is cut into memtables, the tables written hold exactly its entries. */
  lemma {:induction false} FlushChunksOk(chunks: seq<seq<Record>>, t: Tables)
    requires t.added.Keys <= t.tables.Keys && forall f :: f in t.added ==> f < t.next
    ensures Flushed(t, FlushChunks(chunks, t), Replay(Concat(chunks)))
  {
    if chunks == [] {
    } else {
      var front, last := chunks[..|chunks| - 1], chunks[|chunks| - 1];
      FlushChunksOk(front, t);
      ReplayConcat(Concat(front), last);
      if Replay(last) != {} {
        FlushedOneMore(t, FlushChunks(front, t), Replay(Concat(front)), Replay(last));
      }
    }
  }

  lemma {:induction false} RecoveredIsUnion(d: Disk, rec: Recovery)
    ensures Recovered(d, rec) == Union(d.tables, rec.added.Keys)
  {
  }

  lemma {:induction false} PendingFirst(logs: map<nat, seq<Record>>, todo: seq<nat>)
    requires todo != [] && todo[0] in logs
    ensures Pending(logs, todo) == Replay(logs[todo[0]]) + Pending(logs, todo[1..])
  {
    forall e | e in Replay(logs[todo[0]]) + Pending(logs, todo[1..])
      ensures e in Pending(logs, todo)
    {
      if e in Replay(logs[todo[0]]) {
        assert todo[0] in todo;
      } else {
        var n :| n in todo[1..] && n in logs && e in Replay(logs[n]);
        assert n in todo;
      }
    }
    forall e | e in Pending(logs, todo)
      ensures e in Replay(logs[todo[0]]) + Pending(logs, todo[1..])
    {
      var n :| n in todo && n in logs && e in Replay(logs[n]);
      assert n == todo[0] || n in todo[1..];
    }
  }

  lemma {:induction false} FirstIsApart(logs: map<nat, seq<Record>>, todo: seq<nat>, logNumber: nat)
    requires LogsOrdered(logs) && TodoOk(logs, todo, logNumber) && todo != []
    ensures Replay(logs[todo[0]]) !! Pending(logs, todo[1..])
  {
    forall n | n in todo[1..]
      ensures Below(Replay(logs[todo[0]]), Replay(logs[n]))
    {
      var i :| 0 <= i < |todo[1..]| && todo[1..][i] == n;
      assert todo[i + 1] == n;
    }
  }

  lemma {:induction false} TodoRest(logs: map<nat, seq<Record>>, todo: seq<nat>, logNumber: nat)
    requires TodoOk(logs, todo, logNumber) && todo != []
    ensures TodoOk(logs, todo[1..], logNumber)
    ensures forall k :: k in todo ==> k in todo[1..] || k == todo[0]
  {
    forall n | n in todo[1..]
      ensures n in todo && todo[0] < n
    {
      var i :| 0 <= i < |todo[1..]| && todo[1..][i] == n;
      assert todo[i + 1] == n;
    }
  }

  lemma {:induction false} ReplayMoves(kept: set<Entry>, recovered: set<Entry>, pending: set<Entry>, log: set<Entry>,
                                       rest: set<Entry>, last: nat, later: nat)
    requires ReplayOk(kept, recovered, {}, pending, last)
    requires pending == log + rest && log !! rest && last <= later && AtMost(log, later)
    ensures ReplayOk(kept, recovered + log, {}, rest, later)
    ensures rest == {} ==> ReplayOk(kept, recovered, log, {}, later)
  {
  }

  lemma {:induction false} ReplayNext(d: Disk, h: History, rec: Recovery)
    requires DiskInv(d, h) && RecoveryOk(d, h, rec)
    requires rec.todo != []
    ensures var log, rest := Replay(d.logs[rec.todo[0]]), Pending(d.logs, rec.todo[1..]);
            var later := Max(rec.versions.lastSequence, MaxSequence(d.logs[rec.todo[0]], rec.maxSequence));
            && ReplayOk(KeptLogs(d), Recovered(d, rec) + log, {}, rest, later)
            && (|rec.todo| == 1 ==> ReplayOk(KeptLogs(d), Recovered(d, rec), log, {}, later))
  {
    var records := d.logs[rec.todo[0]];
    assert DiskHolds(PLogOrder, d, h);
    MaxSequenceCovers(records, rec.maxSequence);
    PendingFirst(d.logs, rec.todo);
    FirstIsApart(d.logs, rec.todo, d.manifest.logNumber);
    var v := rec.versions;
    ReplayMoves(KeptLogs(d), Recovered(d, rec), Pending(d.logs, rec.todo), Replay(records),
                Pending(d.logs, rec.todo[1..]),
                Max(v.lastSequence, rec.maxSequence), Max(v.lastSequence, MaxSequence(records, rec.maxSequence)));
    if |rec.todo| == 1 {
      assert Pending(d.logs, rec.todo[1..]) == {};
    }
  }

  lemma {:induction false} FlushLogTables(d: Disk, h: History, rec: Recovery, chunks: seq<seq<Record>>)
    requires DiskInv(d, h) && RecoveryOk(d, h, rec)
    requires rec.todo != [] && Concat(chunks) == d.logs[rec.todo[0]]
    ensures var (d1, rec1) := RecoverLog(d, rec, chunks, false);
            && DiskInv(d1, h) && RecoveryFiles(d1, rec1)
            && Recovered(d1, rec1) == Recovered(d, rec) + Replay(d.logs[rec.todo[0]])
  {
    var (d1, rec1) := RecoverLog(d, rec, chunks, false);
    FlushChunksOk(chunks, Tables(d.tables, rec.added, rec.versions.nextFile));
    RecoveredIsUnion(d, rec);
    RecoveredIsUnion(d1, rec1);
    assert DiskHolds(PManifest, d, h);
    TodoRest(d.logs, rec.todo, d.manifest.logNumber);
    DiskAgrees(d, h, d1.tables);
  }

  lemma {:induction false} FlushLogKeeps(d: Disk, h: History, rec: Recovery, chunks: seq<seq<Record>>)
    requires DiskInv(d, h) && RecoveryOk(d, h, rec)
    requires rec.todo != [] && Concat(chunks) == d.logs[rec.todo[0]]
    ensures var (d1, rec1) := RecoverLog(d, rec, chunks, false); DiskInv(d1, h) && RecoveryOk(d1, h, rec1)
  {
    FlushLogTables(d, h, rec, chunks);
    ReplayNext(d, h, rec);
    TodoRest(d.logs, rec.todo, d.manifest.logNumber);
  }

  lemma {:induction false} ReuseLogKeeps(d: Disk, h: History, rec: Recovery, chunks: seq<seq<Record>>)
    requires DiskInv(d, h) && RecoveryOk(d, h, rec)
    requires |rec.todo| == 1
    ensures var (d1, rec1) := RecoverLog(d, rec, chunks, true); d1 == d && RecoveryOk(d, h, rec1)
  {
    var (_, rec1) := RecoverLog(d, rec, chunks, true);
    ReuseReplays(d, h, rec, chunks);
    ReuseTakesOver(d, rec, chunks);
  }

  lemma {:induction false} ReuseReplays(d: Disk, h: History, rec: Recovery, chunks: seq<seq<Record>>)
    requires DiskInv(d, h) && RecoveryOk(d, h, rec)
    requires |rec.todo| == 1
    ensures var rec1 := RecoverLog(d, rec, chunks, true).1;
            ReplayOk(KeptLogs(d), Recovered(d, rec1), rec1.contents, Pending(d.logs, rec1.todo),
                     Max(rec1.versions.lastSequence, rec1.maxSequence))
  {
    var (_, rec1) := RecoverLog(d, rec, chunks, true);
    ReplayNext(d, h, rec);
    assert Recovered(d, rec1) == Recovered(d, rec);
    assert Pending(d.logs, rec1.todo) == {};
  }

  lemma {:induction false} ReuseTakesOver(d: Disk, rec: Recovery, chunks: seq<seq<Record>>)
    requires TodoOk(d.logs, rec.todo, d.manifest.logNumber) && RecoveryFiles(d, rec)
    requires |rec.todo| == 1
    ensures var rec1 := RecoverLog(d, rec, chunks, true).1;
            TodoOk(d.logs, rec1.todo, d.manifest.logNumber) && TakenOver(d, rec1) && RecoveryFiles(d, rec1)
  {
    TodoRest(d.logs, rec.todo, d.manifest.logNumber);
  }

  lemma {:induction false} RecoverLogKeeps(d: Disk, h: History, rec: Recovery, chunks: seq<seq<Record>>, reuse: bool)
    requires DiskInv(d, h) && RecoveryOk(d, h, rec)
    requires rec.todo != [] && Concat(chunks) == d.logs[rec.todo[0]]
    requires reuse ==> |rec.todo| == 1
    ensures var (d1, rec1) := RecoverLog(d, rec, chunks, reuse); DiskInv(d1, h) && RecoveryOk(d1, h, rec1)
  {
    if reuse {
      ReuseLogKeeps(d, h, rec, chunks);
    } else {
      FlushLogKeeps(d, h, rec, chunks);
    }
  }

  lemma {:induction false} OpenLogKeeps(d: Disk, h: History, rec: Recovery)
    requires DiskInv(d, h) && RecoveryOk(d, h, rec)
    requires rec.todo == [] && !rec.replayed
    ensures var (d1, rec1) := OpenLog(d, rec); DiskInv(d1, h) && RecoveryOk(d1, h, rec1)
  {
    var (d1, rec1) := OpenLog(d, rec);
    assert Pending(d.logs, rec.todo) == {} == Pending(d1.logs, rec.todo);
    assert Recovered(d1, rec1) == Recovered(d, rec);
    if rec.mem.None? {
      assert DiskHolds(PManifest, d, h);
      EmptyLogKeepsDisk(d, h, rec.versions.nextFile);
      LogsNew(d.logs, rec.versions.nextFile, d.manifest.logNumber);
    }
  }

  // The first manifest record, and the memory of the opened database.

  /** Everything is replayed: the recovered entries r and the contents c of the memtable
    are the kept logs, and c is the newest log. */
  ghost predicate ReadyToOpen(d: Disk, h: History, rec: Recovery) {
    RecoveryOk(d, h, rec) && rec.replayed
  }

  lemma {:induction false} ReadyParts(d: Disk, h: History, rec: Recovery)
    requires DiskInv(d, h) && ReadyToOpen(d, h, rec)
    ensures var r, n := Recovered(d, rec), rec.mem.value;
            && n in d.logs && (forall k :: k in d.logs ==> k <= n)
            && rec.contents == Replay(d.logs[n]) == LogsFrom(d.logs, n)
            && KeptLogs(d) == r + rec.contents && r !! rec.contents
            && AtMost(r + rec.contents, rec.versions.lastSequence)
            && h.committed !! rec.contents
  {
    assert Pending(d.logs, rec.todo) == {};
    NewestLog(d.logs, rec.mem.value);
    assert DiskHolds(PApart, d, h);
  }

  /** What recovery flushed goes on top of the tables, below the newest log. */
  lemma {:induction false} RecoveredTops(d: Disk, h: History, rec: Recovery)
    requires DiskInv(d, h) && ReadyToOpen(d, h, rec)
    ensures var r := Recovered(d, rec);
            && Tops(r, h.committed) && Tops(rec.contents, h.committed + r)
  {
    var r, n := Recovered(d, rec), rec.mem.value;
    ReadyParts(d, h, rec);
    assert DiskHolds(PManifestTop, d, h);
    assert DiskHolds(PLogOrder, d, h);
    forall b | b in r
      ensures Below({b}, rec.contents)
    {
      assert b in KeptLogs(d);
      OldIsOlder(d.logs, n, d.manifest.logNumber, b);
    }
  }

  lemma {:induction false} OpenTables(d: Disk, h: History, rec: Recovery)
    requires DiskInv(d, h) && ReadyToOpen(d, h, rec)
    ensures TablesOk(d.tables, d.manifest.files.Keys + rec.added.Keys, h.committed + Recovered(d, rec), h.floor)
    ensures HistoryOk(LogsFrom(d.logs, 0), h.logged, h.committed + Recovered(d, rec))
  {
    RecoveredTops(d, h, rec);
    ReadyParts(d, h, rec);
    RecoveredIsUnion(d, rec);
    assert DiskHolds(PManifestTables, d, h);
    assert DiskHolds(PHistory, d, h);
    LogsMonotone(d.logs, 0, d.manifest.logNumber);
    FlushTables(d.tables, d.manifest.files.Keys, rec.added.Keys, h.committed, Recovered(d, rec), h.floor);
  }

  lemma {:induction false} OpenManifestKeeps(d: Disk, h: History, rec: Recovery)
    requires DiskInv(d, h) && ReadyToOpen(d, h, rec)
    ensures DiskInv(OpenManifest(d, h, rec).0, OpenManifest(d, h, rec).1)
  {
    var (d1, h1) := OpenManifest(d, h, rec);
    ReadyParts(d, h, rec);
    EditFilesKeys(OpenEdit(rec), d.manifest.files);
    assert d.manifest.files.Keys - {} == d.manifest.files.Keys;
    forall part: DiskPart
      ensures DiskHolds(part, d1, h1)
    {
      assert DiskHolds(part, d, h);
      match part
      case PHistory => OpenTables(d, h, rec);
      case PApart => ApartJoin(d.logs, rec.mem.value, h.committed, Recovered(d, rec));
      case PManifestTables => OpenTables(d, h, rec);
      case PManifestTop => RecoveredTops(d, h, rec);
      case _ =>
    }
  }

  /** Ready, and the manifest on disk is what the version in memory will be. */
  ghost predicate Settles(d: Disk, h: History, m: Memory, contents: set<Entry>) {
    && m == Memory(m.versions, m.mem, None, map[m.mem := contents], [], map[], {}, false, false, false, 0,
                   BgIdle, None, [], NoLeader, map[], [])
    && m.versions.files == d.manifest.files && m.versions.logNumber == d.manifest.logNumber <= m.mem
    && d.manifest.lastSequence <= m.versions.lastSequence && d.manifest.nextFile <= m.versions.nextFile
    && m.mem in d.logs && (forall k :: k in d.logs ==> k <= m.mem)
    && m.mem < m.versions.nextFile
    && contents == Replay(d.logs[m.mem]) == KeptLogs(d)
    && AtMost(contents, m.versions.lastSequence)
    && h.flushed == h.committed
  }

  lemma {:induction false} OpenTouched(part: Part, d: Disk, h: History, m: Memory, contents: set<Entry>)
    requires DiskInv(d, h) && Settles(d, h, m, contents)
    requires part.PLayers? || part.PTables? || part.PSync? || part.PSequences?
    ensures Holds(part, d, h, m)
  {
    assert ImmContents(m) == {} && MemContents(m) == contents;
    assert h.flushed + {} == h.flushed;
    match part
    case PLayers =>
      assert DiskHolds(PHistory, d, h);
      assert DiskHolds(PManifestAcked, d, h);
      assert DiskHolds(PManifestTop, d, h);
    case PTables => assert DiskHolds(PManifestTables, d, h);
    case PSync => assert DiskHolds(PManifestTop, d, h);
    case PSequences => assert DiskHolds(PManifest, d, h);
  }

  lemma {:induction false} OpenFrame(part: Part, d: Disk, h: History, m: Memory, contents: set<Entry>)
    requires DiskInv(d, h) && Settles(d, h, m, contents)
    requires !part.PLayers? && !part.PTables? && !part.PSync? && !part.PSequences? && !part.PSchedule?
    ensures Holds(part, d, h, m)
  {
    assert ImmContents(m) == {};
    assert DiskHolds(PManifest, d, h);
  }

  lemma {:induction false} OpenRests(d: Disk, h: History, m: Memory, contents: set<Entry>)
    requires DiskInv(d, h) && Settles(d, h, m, contents)
    ensures Resting(d, h, m)
  {
    forall part: Part | !part.PSchedule?
      ensures Holds(part, d, h, m)
    {
      if part.PLayers? || part.PTables? || part.PSync? || part.PSequences? {
        OpenTouched(part, d, h, m, contents);
      } else {
        OpenFrame(part, d, h, m, contents);
      }
    }
  }

  lemma {:induction false} OpenSettles(d: Disk, h: History, rec: Recovery)
    requires DiskInv(d, h) && ReadyToOpen(d, h, rec)
    ensures var (d1, h1) := if rec.save then OpenManifest(d, h, rec) else (d, h);
            Settles(d1, h1.(flushed := h1.committed), OpenMemory(rec), rec.contents)
  {
    ReadyParts(d, h, rec);
    assert !rec.save ==> Recovered(d, rec) == {};
  }

  lemma {:induction false} FlushedIsVolatile(d: Disk, h: History, flushed: set<Entry>)
    requires DiskInv(d, h)
    ensures DiskInv(d, h.(flushed := flushed))
  {
    forall part: DiskPart
      ensures DiskHolds(part, d, h.(flushed := flushed))
    {
      assert DiskHolds(part, d, h);
    }
  }

  /** LogAndApply failed: the database stays closed, whatever became durable. */
  lemma {:induction false} OpenFailsKeeps(d: Disk, h: History, rec: Recovery, durable: bool)
    requires DiskInv(d, h) && ReadyToOpen(d, h, rec)
    ensures var (d1, h1) := if durable then OpenManifest(d, h, rec) else (d, h); DiskInv(d1, h1)
  {
    if durable {
      OpenManifestKeeps(d, h, rec);
    }
  }

  lemma {:induction false} OpenedKeeps(d: Disk, h: History, rec: Recovery, needs: bool)
    requires DiskInv(d, h) && ReadyToOpen(d, h, rec) && NeedsAllowed(OpenMemory(rec), needs)
    ensures var (d1, h1) := if rec.save then OpenManifest(d, h, rec) else (d, h);
            var m, h2 := OpenMemory(rec), h1.(flushed := h1.committed);
            DiskInv(DeleteObsolete(d1, m), h2) && MemoryInv(DeleteObsolete(d1, m), h2, MaybeSchedule(m, needs))
  {
    var (d1, h1) := if rec.save then OpenManifest(d, h, rec) else (d, h);
    var m, h2 := OpenMemory(rec), h1.(flushed := h1.committed);
    if rec.save {
      OpenManifestKeeps(d, h, rec);
    }
    OpenSettles(d, h, rec);
    FlushedIsVolatile(d1, h1, h1.committed);
    OpenRests(d1, h2, m, rec.contents);
    DeleteObsoleteKeeps(d1, h2, m);
    ScheduleKeeps(DeleteObsolete(d1, m), h2, m, needs);
  }

  function AfterFailure(d: Disk, h: History, rec: Recovery, durable: bool): State
    requires rec.mem.Some?
  {
    var (d1, h1) := if durable then OpenManifest(d, h, rec) else (d, h);
    Closed(d1, h1)
  }

  function AfterOpening(d: Disk, h: History, rec: Recovery, needs: bool): State
    requires rec.mem.Some?
  {
    var (d1, h1) := if rec.save then OpenManifest(d, h, rec) else (d, h);
    var m := OpenMemory(rec);
    Running(DeleteObsolete(d1, m), h1.(flushed := h1.committed), MaybeSchedule(m, needs))
  }

  lemma {:induction false} CommitLeads(d: Disk, h: History, rec: Recovery, ok: bool, durable: bool, needs: bool)
    requires rec.replayed && rec.mem.Some? && (ok ==> durable) && NeedsAllowed(OpenMemory(rec), needs)
    ensures Next(Recovering(d, h, rec), OpenCommitStep(ok, durable, needs)) ==
            if rec.save && !ok then AfterFailure(d, h, rec, durable) else AfterOpening(d, h, rec, needs)
  {
  }

  lemma {:induction false} OpenCommitKeeps(d: Disk, h: History, rec: Recovery, ok: bool, durable: bool, needs: bool)
    requires DiskInv(d, h) && ReadyToOpen(d, h, rec)
    requires (ok ==> durable) && NeedsAllowed(OpenMemory(rec), needs)
    ensures Inv(Next(Recovering(d, h, rec), OpenCommitStep(ok, durable, needs)))
  {
    CommitLeads(d, h, rec, ok, durable, needs);
    if rec.save && !ok {
      OpenFailsKeeps(d, h, rec, durable);
      assert Inv(AfterFailure(d, h, rec, durable));
    } else {
      OpenedKeeps(d, h, rec, needs);
      assert Inv(AfterOpening(d, h, rec, needs));
    }
  }
}
