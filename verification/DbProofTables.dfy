/** Writing, replacing and deleting files that no version refers to keeps the invariant. */
module DbProofTables {
  import opened Entries
  import opened DbState
  import opened DbSteps
  import opened DbInvariant
  import opened DbProofBackground

  /** Every table of files has the same contents in both. */
  ghost predicate Agree(a: map<nat, set<Entry>>, b: map<nat, set<Entry>>, files: set<nat>) {
    forall f :: f in files && f in a ==> f in b && b[f] == a[f]
  }

  /** No file of files goes missing, whatever happens to its contents. */
  ghost predicate Remain(a: map<nat, set<Entry>>, b: map<nat, set<Entry>>, files: set<nat>) {
    forall f :: f in files && f in a ==> f in b
  }

  /** The tables whose contents are final. */
  ghost function Finished(d: Disk, m: Memory): set<nat> {
    Settled(m.versions.files, d.manifest.files, m.readers, m.job)
    + (if m.job.Some? then m.job.value.outputs else {})
  }

  /** Those, and the tables under construction by a compaction or a flush. */
  ghost function InUse(d: Disk, m: Memory): set<nat> {
    Finished(d, m) + JobFiles(m.job) + BuildingFile(m.bg)
  }

  lemma {:induction false} UnionAgrees(a: map<nat, set<Entry>>, b: map<nat, set<Entry>>, inUse: set<nat>,
                                       files: set<nat>)
    requires Agree(a, b, inUse) && files <= inUse && files <= a.Keys
    ensures Union(a, files) == Union(b, files) && files <= b.Keys
  {
    UnionSame(a, b, files);
  }

  lemma {:induction false} TablesAgree(a: map<nat, set<Entry>>, b: map<nat, set<Entry>>, inUse: set<nat>,
                                       files: set<nat>, full: set<Entry>, floor: nat)
    requires TablesOk(a, files, full, floor)
    requires Agree(a, b, inUse) && files <= inUse
    ensures TablesOk(b, files, full, floor)
  {
    UnionAgrees(a, b, inUse, files);
  }

  lemma {:induction false} JobAgrees(a: map<nat, set<Entry>>, b: map<nat, set<Entry>>, inUse: set<nat>,
                                     flushed: set<Entry>, files: set<nat>, durable: set<nat>, bg: Background,
                                     job: Job)
    requires JobOk(a, flushed, files, durable, bg, job)
    requires Agree(a, b, inUse) && files <= inUse && durable <= inUse && job.held <= inUse && job.outputs <= inUse
    requires files <= a.Keys && durable <= a.Keys
    requires Remain(a, b, JobFiles(Some(job)))
    ensures JobOk(b, flushed, files, durable, bg, job)
  {
    UnionAgrees(a, b, inUse, job.inputs);
    UnionAgrees(a, b, inUse, job.held);
    UnionAgrees(a, b, inUse, job.outputs);
    UnionAgrees(a, b, inUse, files - job.inputs);
    UnionAgrees(a, b, inUse, durable - job.inputs);
  }

  lemma {:induction false} ReadersAgree(a: map<nat, set<Entry>>, b: map<nat, set<Entry>>, inUse: set<nat>,
                                        heap: map<nat, set<Entry>>, readers: map<nat, Reader>, live: set<Entry>,
                                        s: nat, newest: nat)
    requires ReadersOk(a, heap, readers, live, s, newest)
    requires Agree(a, b, inUse) && ReaderFiles(readers) <= inUse
    ensures ReadersOk(b, heap, readers, live, s, newest)
  {
    forall id | id in readers
      ensures ReaderOk(b, heap, readers[id], live, s, newest)
    {
      assert ReaderOk(a, heap, readers[id], live, s, newest);
      assert readers[id].files <= ReaderFiles(readers);
      UnionAgrees(a, b, inUse, readers[id].files);
    }
  }

  lemma {:induction false} DiskAgrees(d: Disk, h: History, tables: map<nat, set<Entry>>)
    requires DiskInv(d, h)
    requires Agree(d.tables, tables, d.manifest.files.Keys)
    ensures DiskInv(d.(tables := tables), h)
  {
    forall part: DiskPart
      ensures DiskHolds(part, d.(tables := tables), h)
    {
      assert DiskHolds(part, d, h);
      if part.PManifestTables? {
        TablesAgree(d.tables, tables, d.manifest.files.Keys, d.manifest.files.Keys, h.committed, h.floor);
      }
    }
  }

  predicate ReadsTables(part: Part) {
    part.PTables? || part.PJob? || part.PReaders? || part.PBackground?
  }

  lemma {:induction false} TablesTouched(part: Part, d: Disk, h: History, m: Memory, tables: map<nat, set<Entry>>)
    requires DiskInv(d, h) && Resting(d, h, m)
    requires Agree(d.tables, tables, Finished(d, m)) && Remain(d.tables, tables, JobFiles(m.job))
    requires m.bg.BgIdle? || m.bg.BgMerging? || m.bg.BgBuilding?
    requires ReadsTables(part)
    ensures Holds(part, d.(tables := tables), h, m)
  {
    var v, inUse := m.versions, Finished(d, m);
    assert Holds(part, d, h, m);
    match part
    case PTables => TablesAgree(d.tables, tables, inUse, v.files.Keys, h.flushed, h.floor);
    case PJob =>
      if m.job.Some? {
        assert Holds(PTables, d, h, m);
        assert DiskHolds(PManifestTables, d, h);
        JobAgrees(d.tables, tables, inUse, h.flushed, v.files.Keys, d.manifest.files.Keys, m.bg, m.job.value);
      }
    case PReaders => ReadersAgree(d.tables, tables, inUse, m.heap, m.readers, Live(h, m), v.lastSequence, m.mem);
    case PBackground =>
  }

  /** A table nobody uses may change or go. */
  lemma {:induction false} TablesChange(d: Disk, h: History, m: Memory, tables: map<nat, set<Entry>>)
    requires DiskInv(d, h) && Resting(d, h, m)
    requires Agree(d.tables, tables, Finished(d, m)) && Remain(d.tables, tables, JobFiles(m.job))
    requires m.bg.BgIdle? || m.bg.BgMerging? || m.bg.BgBuilding?
    ensures DiskInv(d.(tables := tables), h) && Resting(d.(tables := tables), h, m)
  {
    DiskAgrees(d, h, tables);
    forall part: Part | !part.PSchedule?
      ensures Holds(part, d.(tables := tables), h, m)
    {
      if ReadsTables(part) {
        TablesTouched(part, d, h, m, tables);
      } else {
        assert Holds(part, d, h, m);
      }
    }
  }

  // Deleting the logs before logNumber.

  function KeepLogs(logs: map<nat, seq<Record>>, from: nat): map<nat, seq<Record>> {
    map n | n in logs && n >= from :: logs[n]
  }

  lemma {:induction false} RetiredLogs(logs: map<nat, seq<Record>>, from: nat, n: nat)
    requires from <= n
    ensures LogsFrom(KeepLogs(logs, from), n) == LogsFrom(logs, n)
  {
    var after := KeepLogs(logs, from);
    forall e | e in LogsFrom(logs, n)
      ensures e in LogsFrom(after, n)
    {
      var k :| k in logs && n <= k && e in Replay(logs[k]);
      assert k in after && e in Replay(after[k]);
    }
  }

  lemma {:induction false} FewerLogs(logs: map<nat, seq<Record>>, from: nat, n: nat)
    ensures LogsFrom(KeepLogs(logs, from), n) <= LogsFrom(logs, n)
  {
  }

  lemma {:induction false} RetireApart(logs: map<nat, seq<Record>>, from: nat, mem: nat, committed: set<Entry>)
    requires Apart(logs, committed) && mem in logs && from <= mem && forall n :: n in logs ==> n <= mem
    ensures Apart(KeepLogs(logs, from), committed)
  {
    forall n | n in KeepLogs(logs, from) && forall k :: k in KeepLogs(logs, from) ==> k <= n
      ensures committed !! Replay(logs[n])
    {
      assert mem in KeepLogs(logs, from);
    }
  }

  lemma {:induction false} RetireKeepsDisk(d: Disk, h: History, m: Memory)
    requires DiskInv(d, h) && Resting(d, h, m)
    requires m.versions.logNumber == d.manifest.logNumber
    ensures DiskInv(d.(logs := KeepLogs(d.logs, m.versions.logNumber)), h)
  {
    var from := m.versions.logNumber;
    var d1 := d.(logs := KeepLogs(d.logs, from));
    RetiredLogs(d.logs, from, from);
    forall part: DiskPart
      ensures DiskHolds(part, d1, h)
    {
      assert DiskHolds(part, d, h);
      match part
      case PHistory => FewerLogs(d.logs, from, 0);
      case PApart =>
        assert Holds(PMemtables, d, h, m);
        RetireApart(d.logs, from, m.mem, h.committed);
      case _ =>
    }
  }

  predicate ReadsOldLogs(part: Part) {
    part.PMemtables? || part.PSequences? || part.PNumbers? || part.PBackground?
  }

  lemma {:induction false} RetireTouched(part: Part, d: Disk, h: History, m: Memory, d1: Disk)
    requires Resting(d, h, m)
    requires d1 == d.(logs := KeepLogs(d.logs, m.versions.logNumber))
    requires m.bg.BgIdle? || m.bg.BgMerging?
    requires ReadsOldLogs(part)
    ensures Holds(part, d1, h, m)
  {
    assert Holds(PMemtables, d, h, m);
    assert Holds(part, d, h, m);
    assert d1.logs.Keys <= d.logs.Keys;
  }

  lemma {:induction false} RetireKeeps(d: Disk, h: History, m: Memory)
    requires Resting(d, h, m)
    requires m.bg.BgIdle? || m.bg.BgMerging?
    ensures Resting(d.(logs := KeepLogs(d.logs, m.versions.logNumber)), h, m)
  {
    var d1 := d.(logs := KeepLogs(d.logs, m.versions.logNumber));
    RetiredLogs(d.logs, m.versions.logNumber, m.versions.logNumber);
    forall part: Part | !part.PSchedule?
      ensures Holds(part, d1, h, m)
    {
      if ReadsOldLogs(part) {
        RetireTouched(part, d, h, m, d1);
      } else {
        assert Holds(part, d, h, m);
      }
    }
  }

  /** What DeleteObsoleteFiles does unless there is a background error, in two parts. */
  lemma {:induction false} DeleteObsoleteIs(d: Disk, m: Memory)
    requires !m.bgError
    ensures DeleteObsolete(d, m) ==
            d.(logs := KeepLogs(d.logs, m.versions.logNumber), tables := DeleteObsolete(d, m).tables)
    ensures DeleteObsolete(d, m).tables.Keys <= d.tables.Keys
    ensures forall f :: f in d.tables && f in LiveFiles(m) ==>
              f in DeleteObsolete(d, m).tables && DeleteObsolete(d, m).tables[f] == d.tables[f]
  {
  }

  /** Nothing in use is deleted: without a background error the manifest's files are the
    version's, and the outputs of a compaction are pending. */
  lemma {:induction false} InUseIsLive(d: Disk, h: History, m: Memory)
    requires Resting(d, h, m) && !m.bgError && (m.bg.BgIdle? || m.bg.BgMerging?)
    ensures InUse(d, m) <= LiveFiles(m)
    ensures m.versions.logNumber == d.manifest.logNumber
  {
    assert Holds(PInStep, d, h, m);
    assert Holds(PFresh, d, h, m);
  }

  lemma {:induction false} DeleteObsoleteKeeps(d: Disk, h: History, m: Memory)
    requires DiskInv(d, h) && Resting(d, h, m)
    requires m.bg.BgIdle? || m.bg.BgMerging?
    ensures DiskInv(DeleteObsolete(d, m), h) && Resting(DeleteObsolete(d, m), h, m)
  {
    if !m.bgError {
      var d1 := d.(logs := KeepLogs(d.logs, m.versions.logNumber));
      InUseIsLive(d, h, m);
      RetireKeepsDisk(d, h, m);
      RetireKeeps(d, h, m);
      DeleteObsoleteIs(d, m);
      TablesChange(d1, h, m, DeleteObsolete(d, m).tables);
    }
  }
}
