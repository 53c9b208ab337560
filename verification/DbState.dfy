/** The state of one database: what is on disk, what one open incarnation keeps in
  memory, and the history the proofs compare both with. */
module DbState {
  import opened Entries

  /** One log record: a write batch with the sequence number of its first operation. */
  datatype Record = Record(first: nat, ops: seq<Op>)

  /** The entries a batch inserts: consecutive sequence numbers from first on. */
  function Batch(first: nat, ops: seq<Op>): (es: set<Entry>)
    ensures forall e :: e in es <==>
              first <= e.sequence < first + |ops| && ops[e.sequence - first] == e.op
  {
    if ops == [] then
      {}
    else
      var n := |ops| - 1;
      Batch(first, ops[..n]) + {Entry(first + n, ops[n])}
  }

  /** Everything replaying the records of one log inserts. */
  function Replay(records: seq<Record>): (es: set<Entry>)
  {
    if records == [] then
      {}
    else
      var n := |records| - 1;
      Replay(records[..n]) + Batch(records[n].first, records[n].ops)
  }

  /** What VersionSet keeps, and what its manifest makes durable: the table files with
    their levels, the oldest log still needed, the last sequence, the next file number. */
  datatype Versions = Versions(files: map<nat, nat>, logNumber: nat, lastSequence: nat, nextFile: nat)

  datatype EditKind = FlushEdit | CompactionEdit | MoveEdit

  datatype Edit = Edit(kind: EditKind, added: map<nat, nat>, removed: set<nat>,
                       logNumber: nat, lastSequence: nat, nextFile: nat)

  function EditFiles(edit: Edit, files: map<nat, nat>): map<nat, nat> {
    (files - edit.removed) + edit.added
  }

  /** A manifest after the edit's record has been read back. */
  function ApplyEdit(edit: Edit, manifest: Versions): Versions {
    Versions(EditFiles(edit, manifest.files), edit.logNumber, edit.lastSequence, edit.nextFile)
  }

  datatype Disk = Disk(logs: map<nat, seq<Record>>, tables: map<nat, set<Entry>>, manifest: Versions)

  /** A read in progress: the memtables and the version it holds references to. */
  datatype Reader = Reader(snapshot: nat, mem: nat, imm: Option<nat>, files: set<nat>)

  /** One DoCompactionWork in progress; held is its input version, remaining the entries
    it will keep but has not yet written to a finished output. */
  datatype Job = Job(level: nat, inputs: set<nat>, held: set<nat>, smallest: nat, base: set<Key>,
                     remaining: set<Entry>, open: Option<nat>, outputs: set<nat>)

  /** Where the background thread stands; every state but BgIdle is inside BackgroundCall. */
  datatype Background =
    | BgIdle
    | BgBuilding(file: nat)
    | BgBuilt(file: nat, ok: bool)
    | BgWriting(edit: Edit)
    | BgWritten(edit: Edit, ok: bool)
    | BgMerging

  datatype Writer = Writer(id: nat, batch: Option<seq<Op>>, size: nat, sync: bool)

  /** A write group: the writers served together and the batch logged for them. */
  datatype Group = Group(writers: seq<Writer>, first: nat, ops: seq<Op>, synced: bool, ok: bool)

  /** Where the writer at the front of the queue stands in DBImpl::Write. */
  datatype Leader =
    | NoLeader
    | MakingRoom(force: bool, allowDelay: bool)
    | WaitingForRoom(force: bool, allowDelay: bool)
    | Logging(group: Group)
    | Syncing(group: Group)
    | Inserting(group: Group, done: nat)
    | Failed(group: Group, syncError: bool)

  /** The members of DBImpl. A memtable is named by the number of the log that feeds it,
    so mem is also logfile_number_. results is what each finished Write returned, groups
    the groups finished so far. */
  datatype Memory = Memory(
    versions: Versions,
    mem: nat,
    imm: Option<nat>,
    heap: map<nat, set<Entry>>,
    snapshots: seq<nat>,
    readers: map<nat, Reader>,
    pending: set<nat>,
    bgError: bool,
    shuttingDown: bool,
    scheduled: bool,
    queued: nat,
    bg: Background,
    job: Option<Job>,
    writers: seq<Writer>,
    leader: Leader,
    results: map<nat, bool>,
    groups: seq<Group>)

  /** What the proofs remember: flushed and committed are all entries ever moved to the
    tables of the current version and of the manifest; floor is the largest smallest
    snapshot of a committed compaction; logged is every entry ever made durable in a log;
    acked every entry of a write that returned success. */
  datatype History = History(flushed: set<Entry>, committed: set<Entry>, floor: nat,
                             logged: set<Entry>, acked: set<Entry>)

  /** DB::Open in progress: the recovered VersionSet, the logs still to replay, the tables
    written so far, and the memtable taken over from a reused or new log. */
  datatype Recovery = Recovery(versions: Versions, todo: seq<nat>, added: map<nat, nat>,
                               maxSequence: nat, save: bool, mem: Option<nat>, contents: set<Entry>, replayed: bool)

  datatype State =
    | Closed(disk: Disk, hist: History)
    | Recovering(disk: Disk, hist: History, rec: Recovery)
    | Running(disk: Disk, hist: History, m: Memory)

  ghost function LogsFrom(logs: map<nat, seq<Record>>, from: nat): set<Entry> {
    set n, e | n in logs && from <= n && e in Replay(logs[n]) :: e
  }

  ghost function Union(tables: map<nat, set<Entry>>, files: set<nat>): set<Entry> {
    set f, e | f in files && f in tables && e in tables[f] :: e
  }

  function Contents(heap: map<nat, set<Entry>>, id: Option<nat>): set<Entry> {
    if id.Some? && id.value in heap then heap[id.value] else {}
  }

  function LevelCount(files: map<nat, nat>, level: nat): nat {
    |set f | f in files && files[f] == level|
  }

  // Facts about Union and LogsFrom used by the invariant proofs.

  lemma {:induction false} UnionAdd(tables: map<nat, set<Entry>>, files: set<nat>, f: nat, es: set<Entry>)
    requires f !in files
    ensures Union(tables[f := es], files) == Union(tables, files)
    ensures Union(tables[f := es], files + {f}) == Union(tables, files) + es
  {
    var t2 := tables[f := es];
    forall e | e in Union(tables, files)
      ensures e in Union(t2, files) && e in Union(t2, files + {f})
    {
      var g :| g in files && g in tables && e in tables[g];
      assert g in t2 && e in t2[g];
    }
    forall e | e in es
      ensures e in Union(t2, files + {f})
    {
      assert f in t2 && e in t2[f];
    }
  }

  lemma {:induction false} UnionSplit(tables: map<nat, set<Entry>>, a: set<nat>, b: set<nat>)
    ensures Union(tables, a + b) == Union(tables, a) + Union(tables, b)
  {
  }

  lemma {:induction false} UnionMonotone(tables: map<nat, set<Entry>>, a: set<nat>, b: set<nat>)
    requires a <= b
    ensures Union(tables, a) <= Union(tables, b)
  {
  }

  lemma {:induction false} UnionSame(tables: map<nat, set<Entry>>, other: map<nat, set<Entry>>, files: set<nat>)
    requires forall f :: f in files ==> f in tables && f in other && tables[f] == other[f]
    ensures Union(tables, files) == Union(other, files)
  {
  }

  lemma {:induction false} LogsAppend(logs: map<nat, seq<Record>>, n: nat, r: Record, from: nat)
    requires n in logs
    ensures LogsFrom(logs[n := logs[n] + [r]], from) ==
            LogsFrom(logs, from) + if from <= n then Batch(r.first, r.ops) else {}
  {
    var after := logs[n := logs[n] + [r]];
    ReplaySnoc(logs[n], r);
    LogsGrow(logs, after, n, from);
    if from <= n {
      LogWithin(after, n, from);
    }
  }

  lemma {:induction false} LogsGrow(logs: map<nat, seq<Record>>, after: map<nat, seq<Record>>, n: nat, from: nat)
    requires n in logs && n in after && after == logs[n := after[n]] && Replay(logs[n]) <= Replay(after[n])
    ensures LogsFrom(logs, from) <= LogsFrom(after, from)
    ensures LogsFrom(after, from) <= LogsFrom(logs, from) + Replay(after[n])
    ensures n < from ==> LogsFrom(after, from) <= LogsFrom(logs, from)
  {
    forall e | e in LogsFrom(logs, from)
      ensures e in LogsFrom(after, from)
    {
      var k :| k in logs && from <= k && e in Replay(logs[k]);
      assert k in after && e in Replay(after[k]);
    }
  }

  lemma {:induction false} ReplaySnoc(records: seq<Record>, r: Record)
    ensures Replay(records + [r]) == Replay(records) + Batch(r.first, r.ops)
  {
    assert (records + [r])[..|records|] == records;
  }

  lemma {:induction false} LogsNew(logs: map<nat, seq<Record>>, n: nat, from: nat)
    requires n !in logs
    ensures LogsFrom(logs[n := []], from) == LogsFrom(logs, from)
  {
    var after := logs[n := []];
    forall e | e in LogsFrom(logs, from)
      ensures e in LogsFrom(after, from)
    {
      var k :| k in logs && from <= k && e in Replay(logs[k]);
      assert k in after && e in Replay(after[k]);
    }
  }

  lemma {:induction false} LogsMonotone(logs: map<nat, seq<Record>>, from: nat, later: nat)
    requires from <= later
    ensures LogsFrom(logs, later) <= LogsFrom(logs, from)
  {
  }

  lemma {:induction false} LogWithin(logs: map<nat, seq<Record>>, n: nat, from: nat)
    requires n in logs && from <= n
    ensures Replay(logs[n]) <= LogsFrom(logs, from)
  {
  }
}
