/** The steps of the database. Each is a stretch of code during which the mutex is held,
  or one action taken with it released; parameters of a step are the results of I/O and
  of the parts that are not modelled. */
module DbSteps {
  import opened Entries
  import opened Compaction
  import opened DbState

  const L0_COMPACTION_TRIGGER: nat := 4
  const L0_SLOWDOWN_WRITES_TRIGGER: nat := 8
  const L0_STOP_WRITES_TRIGGER: nat := 12
  const MAX_MEM_COMPACT_LEVEL: nat := 2

  // Group commit.

  /** Bytes of the batches of the first n writers. */
  function BytesOf(ws: seq<Writer>, n: nat): nat
    requires n <= |ws|
  {
    if n == 0 then 0 else BytesOf(ws, n - 1) + if ws[n - 1].batch.Some? then ws[n - 1].size else 0
  }

  function GroupLimit(firstSize: nat): nat {
    if firstSize <= 128 * 1024 then firstSize + 128 * 1024 else 1024 * 1024
  }

  /** Writer n may be served by a group that already holds the n before it. */
  predicate Joins(ws: seq<Writer>, n: nat)
    requires 0 < n < |ws|
  {
    && !(ws[n].sync && !ws[0].sync)
    && (ws[n].batch.Some? ==> BytesOf(ws, n + 1) <= GroupLimit(ws[0].size))
  }

  function GrowGroup(ws: seq<Writer>, n: nat): (k: nat)
    requires 0 < n <= |ws|
    ensures n <= k <= |ws|
    ensures forall i :: n <= i < k ==> Joins(ws, i)
    ensures k < |ws| ==> !Joins(ws, k)
    decreases |ws| - n
  {
    if n < |ws| && Joins(ws, n) then GrowGroup(ws, n + 1) else n
  }

  function OpsOf(ws: seq<Writer>): seq<Op> {
    if ws == [] then [] else OpsOf(ws[..|ws| - 1]) + ws[|ws| - 1].batch.GetOr([])
  }

  function BuildGroup(ws: seq<Writer>, first: nat): Group
    requires ws != []
  {
    var group := ws[..GrowGroup(ws, 1)];
    Group(group, first, OpsOf(group), false, true)
  }

  function MarkDone(results: map<nat, bool>, ws: seq<Writer>, ok: bool): map<nat, bool> {
    if ws == [] then results else MarkDone(results, ws[..|ws| - 1], ok)[ws[|ws| - 1].id := ok]
  }

  /** The leader pops the first n writers, gives each the status, and steps down. */
  function PopWriters(m: Memory, n: nat, ok: bool): Memory
    requires n <= |m.writers|
  {
    m.(writers := m.writers[n..], results := MarkDone(m.results, m.writers[..n], ok), leader := NoLeader)
  }

  // Signals, errors and scheduling.

  function SignalAll(m: Memory): Memory {
    match m.leader
    case WaitingForRoom(force, allowDelay) => m.(leader := MakingRoom(force, allowDelay))
    case _ => m
  }

  function RecordBackgroundError(m: Memory): Memory {
    if m.bgError then m else SignalAll(m.(bgError := true))
  }

  /** needs is VersionSet::NeedsCompaction. */
  function MaybeSchedule(m: Memory, needs: bool): Memory {
    if m.scheduled || m.shuttingDown || m.bgError || (m.imm.None? && !needs) then
      m
    else
      m.(scheduled := true, queued := m.queued + 1)
  }

  predicate NeedsAllowed(m: Memory, needs: bool) {
    LevelCount(m.versions.files, 0) >= L0_COMPACTION_TRIGGER ==> needs
  }

  // Writers.

  /** The memtable becomes imm; a new one takes over with the next file number. */
  function Rotated(m: Memory): Memory
    requires m.leader.MakingRoom?
  {
    var n := m.versions.nextFile;
    m.(versions := m.versions.(nextFile := n + 1), imm := Some(m.mem), mem := n,
       heap := m.heap[n := {}], leader := MakingRoom(false, m.leader.allowDelay))
  }

  /** One pass of the loop in MakeRoomForWrite, with the rest of DBImpl::Write up to the
    next release of the mutex when the loop ends. */
  function Room(d: Disk, m: Memory, memFull: bool, newLogOk: bool, needs: bool): (Disk, Memory)
    requires m.leader.MakingRoom? && m.writers != []
  {
    var MakingRoom(force, allowDelay) := m.leader;
    if m.bgError then
      (d, PopWriters(m, 1, false))
    else if allowDelay && LevelCount(m.versions.files, 0) >= L0_SLOWDOWN_WRITES_TRIGGER then
      (d, m.(leader := MakingRoom(force, false)))
    else if !force && !memFull then
      if m.writers[0].batch.None? then
        (d, PopWriters(m, 1, true))
      else
        (d, m.(leader := Logging(BuildGroup(m.writers, m.versions.lastSequence + 1))))
    else if m.imm.Some? || LevelCount(m.versions.files, 0) >= L0_STOP_WRITES_TRIGGER then
      (d, m.(leader := WaitingForRoom(force, allowDelay)))
    else if !newLogOk then
      (d, PopWriters(m, 1, false))
    else
      (d.(logs := d.logs[m.versions.nextFile := []]), MaybeSchedule(Rotated(m), needs))
  }

  function AppendRecord(d: Disk, h: History, m: Memory, durable: bool): (Disk, History)
    requires m.leader.Logging? && m.mem in d.logs
  {
    var g := m.leader.group;
    if durable then
      (d.(logs := d.logs[m.mem := d.logs[m.mem] + [Record(g.first, g.ops)]]),
       h.(logged := h.logged + Batch(g.first, g.ops)))
    else
      (d, h)
  }

  function AfterAppend(m: Memory, ok: bool): Memory
    requires m.leader.Logging? && m.leader.group.writers != []
  {
    var g := m.leader.group;
    m.(leader := if !ok then Failed(g, false)
                 else if g.writers[0].sync then Syncing(g)
                 else Inserting(g, 0))
  }

  function AfterSync(m: Memory, ok: bool): Memory
    requires m.leader.Syncing?
  {
    var g := m.leader.group;
    m.(leader := if ok then Inserting(g.(synced := true), 0) else Failed(g, true))
  }

  function InsertOne(m: Memory): Memory
    requires m.leader.Inserting? && m.leader.done < |m.leader.group.ops| && m.mem in m.heap
  {
    var Inserting(g, done) := m.leader;
    m.(heap := m.heap[m.mem := m.heap[m.mem] + {Entry(g.first + done, g.ops[done])}],
       leader := Inserting(g, done + 1))
  }

  predicate ReadyToPublish(m: Memory) {
    && (m.leader.Failed? || (m.leader.Inserting? && m.leader.done == |m.leader.group.ops|))
    && 1 <= m.leader.group.first
    && |m.leader.group.writers| <= |m.writers|
  }

  /** The end of Write. After a failed sync the error is recorded; the leader itself is the
    only writer that could be waiting for a signal, and it is not. */
  function Publish(h: History, m: Memory): (History, Memory)
    requires ReadyToPublish(m)
  {
    var g, ok, n := m.leader.group, m.leader.Inserting?, |m.leader.group.writers|;
    (h.(acked := if ok then h.acked + Batch(g.first, g.ops) else h.acked),
     m.(versions := m.versions.(lastSequence := g.first + |g.ops| - 1),
        bgError := m.bgError || (m.leader.Failed? && m.leader.syncError),
        writers := m.writers[n..], results := MarkDone(m.results, m.writers[..n], ok),
        leader := NoLeader, groups := m.groups + [g.(ok := ok)]))
  }

  // Garbage collection.

  function LiveFiles(m: Memory): set<nat> {
    m.pending + m.versions.files.Keys
    + (set r, f | r in m.readers && f in m.readers[r].files :: f)
    + (if m.job.Some? then m.job.value.held else {})
  }

  function DeleteObsolete(d: Disk, m: Memory): Disk {
    if m.bgError then
      d
    else
      d.(logs := map n | n in d.logs && n >= m.versions.logNumber :: d.logs[n],
         tables := map f | f in d.tables && f in LiveFiles(m) :: d.tables[f])
  }

  // The background thread.

  datatype Pick = PickNothing | PickMove(file: nat) | PickMerge(level: nat, inputs: set<nat>, base: set<Key>)

  /** What PickCompaction and IsBaseLevelForKey promise about the current version. */
  ghost predicate PickAllowed(d: Disk, m: Memory, pick: Pick) {
    match pick
    case PickNothing => true
    case PickMove(f) => f in m.versions.files
    case PickMerge(level, inputs, base) =>
      && inputs != {} && inputs <= m.versions.files.Keys
      && (forall f :: f in inputs ==> m.versions.files[f] == level || m.versions.files[f] == level + 1)
      && BaseSafe(Union(d.tables, m.versions.files.Keys - inputs), Union(d.tables, inputs), base)
  }

  function EndCall(m: Memory, needs: bool): Memory {
    SignalAll(MaybeSchedule(m.(bg := BgIdle, scheduled := false), needs))
  }

  /** WriteLevel0Table for imm, up to the release of the mutex. */
  function StartFlush(m: Memory): Memory {
    var n := m.versions.nextFile;
    m.(versions := m.versions.(nextFile := n + 1), pending := m.pending + {n}, bg := BgBuilding(n))
  }

  /** After CompactMemTable: back to the compaction loop, or the end of the call. */
  function AfterFlush(m: Memory, needs: bool): Memory {
    if m.job.Some? then SignalAll(m.(bg := BgMerging)) else EndCall(m, needs)
  }

  function SmallestSnapshot(m: Memory): nat {
    if m.snapshots == [] then m.versions.lastSequence else m.snapshots[0]
  }

  ghost function BeginCall(d: Disk, m: Memory, pick: Pick, needs: bool): Memory
    requires m.queued > 0
    requires pick.PickMove? ==> pick.file in m.versions.files
  {
    var m1, v := m.(queued := m.queued - 1), m.versions;
    if m.shuttingDown || m.bgError then
      EndCall(m1, needs)
    else if m.imm.Some? then
      StartFlush(m1)
    else
      match pick
      case PickNothing => EndCall(m1, needs)
      case PickMove(f) =>
        var edit := Edit(MoveEdit, map[f := v.files[f] + 1], {f}, v.logNumber, v.lastSequence, v.nextFile);
        m1.(bg := BgWriting(edit))
      case PickMerge(level, inputs, base) =>
        var smallest := SmallestSnapshot(m);
        var job := Job(level, inputs, v.files.Keys, smallest, base,
                       KeepSet(Union(d.tables, inputs), smallest, base), None, {});
        m1.(bg := BgMerging, job := Some(job))
  }

  function BuildTable(d: Disk, m: Memory, ok: bool): (Disk, Memory)
    requires m.bg.BgBuilding?
  {
    var file, es := m.bg.file, Contents(m.heap, m.imm);
    (d.(tables := if ok && es != {} then d.tables[file := es] else d.tables - {file}),
     m.(bg := BgBuilt(file, ok)))
  }

  /** CompactMemTable from the return of BuildTable to the manifest write. */
  function FlushApply(m: Memory, level: nat, needs: bool): Memory
    requires m.bg.BgBuilt?
  {
    var BgBuilt(file, ok) := m.bg;
    var m1, v := m.(pending := m.pending - {file}), m.versions;
    if !ok || m.shuttingDown then
      AfterFlush(RecordBackgroundError(m1), needs)
    else
      var added := if Contents(m.heap, m.imm) != {} then map[file := level] else map[];
      m1.(bg := BgWriting(Edit(FlushEdit, added, {}, m.mem, v.lastSequence, v.nextFile)))
  }

  /** The manifest record of LogAndApply; a failed write may still be durable. */
  function WriteManifest(d: Disk, h: History, m: Memory, ok: bool, durable: bool): (Disk, History, Memory)
    requires m.bg.BgWriting?
  {
    var edit := m.bg.edit;
    var m1 := m.(bg := BgWritten(edit, ok));
    if !durable then
      (d, h, m1)
    else
      (d.(manifest := ApplyEdit(edit, d.manifest)),
       h.(committed := if edit.kind.FlushEdit? then h.committed + Contents(m.heap, m.imm) else h.committed,
          floor := if edit.kind.CompactionEdit? && m.job.Some? then m.job.value.smallest else h.floor),
       m1)
  }

  /** CleanupCompaction and ReleaseInputs. */
  function DropJob(m: Memory): Memory {
    match m.job
    case None => m
    case Some(job) =>
      m.(job := None, pending := m.pending - job.outputs - (if job.open.Some? then {job.open.value} else {}))
  }

  function InstallVersion(m: Memory, edit: Edit): Memory {
    m.(versions := m.versions.(files := EditFiles(edit, m.versions.files), logNumber := edit.logNumber))
  }

  /** From the end of LogAndApply to the next release of the mutex. */
  function Install(d: Disk, h: History, m: Memory, needs: bool): (Disk, History, Memory)
    requires m.bg.BgWritten?
  {
    var BgWritten(edit, ok) := m.bg;
    match edit.kind
    case FlushEdit =>
      if ok then
        var m1 := InstallVersion(m, edit).(imm := None);
        (DeleteObsolete(d, m1), h.(flushed := h.flushed + Contents(m.heap, m.imm)), AfterFlush(m1, needs))
      else
        (d, h, AfterFlush(RecordBackgroundError(m), needs))
    case CompactionEdit =>
      var m1 := DropJob(if ok then InstallVersion(m, edit) else RecordBackgroundError(m));
      (DeleteObsolete(d, m1), h, EndCall(m1, needs))
    case MoveEdit =>
      (d, h, EndCall(if ok then InstallVersion(m, edit) else RecordBackgroundError(m), needs))
  }

  function JobOpen(d: Disk, m: Memory): (Disk, Memory)
    requires m.job.Some?
  {
    var n := m.versions.nextFile;
    (d.(tables := d.tables[n := {}]),
     m.(versions := m.versions.(nextFile := n + 1), pending := m.pending + {n},
        job := Some(m.job.value.(open := Some(n)))))
  }

  function JobFinishFile(d: Disk, m: Memory, chunk: set<Entry>): (Disk, Memory)
    requires m.job.Some? && m.job.value.open.Some?
  {
    var job := m.job.value;
    var n := job.open.value;
    (d.(tables := d.tables[n := chunk]),
     m.(job := Some(job.(open := None, outputs := job.outputs + {n}, remaining := job.remaining - chunk))))
  }

  function JobApply(m: Memory): Memory
    requires m.job.Some?
  {
    var job, v := m.job.value, m.versions;
    var added := map f | f in job.outputs :: job.level + 1;
    m.(bg := BgWriting(Edit(CompactionEdit, added, job.inputs, v.logNumber, v.lastSequence, v.nextFile)))
  }

  function JobFail(d: Disk, m: Memory, needs: bool): (Disk, Memory) {
    var m1 := DropJob(RecordBackgroundError(m));
    (DeleteObsolete(d, m1), EndCall(m1, needs))
  }

  // Snapshots and reads.

  function BeginRead(m: Memory, id: nat, snapshot: nat): Memory {
    m.(readers := m.readers[id := Reader(snapshot, m.mem, m.imm, m.versions.files.Keys)])
  }

  /** What DBImpl::Get returns: memtable first, then the immutable one, then the version. */
  ghost function GetThrough(d: Disk, m: Memory, r: Reader, k: Key): Option<string> {
    var inMem := Find(Contents(m.heap, Some(r.mem)), k, r.snapshot);
    if inMem.Some? then
      Visible(inMem)
    else
      var inImm := Find(Contents(m.heap, r.imm), k, r.snapshot);
      if inImm.Some? then Visible(inImm) else Lookup(Union(d.tables, r.files), k, r.snapshot)
  }

  // Recovery.

  function Max(a: nat, b: nat): nat {
    if a < b then b else a
  }

  ghost predicate IsListing(todo: seq<nat>, logs: map<nat, seq<Record>>, from: nat) {
    && (forall i, j :: 0 <= i < j < |todo| ==> todo[i] < todo[j])
    && (forall n :: n in todo <==> n in logs && from <= n)
  }

  function BeginRecovery(d: Disk, todo: seq<nat>, newManifest: bool): Recovery {
    var v := d.manifest;
    Recovery(v.(nextFile := v.nextFile + 1), todo, map[], 0, newManifest, None, {}, false)
  }

  /** The largest sequence number in the records, or m if that is larger. */
  function MaxSequence(records: seq<Record>, m: nat): nat {
    if records == [] then
      m
    else
      var r := records[|records| - 1];
      var before := MaxSequence(records[..|records| - 1], m);
      if r.first + |r.ops| > before + 1 then r.first + |r.ops| - 1 else before
  }

  datatype Tables = Tables(tables: map<nat, set<Entry>>, added: map<nat, nat>, next: nat)

  /** WriteLevel0Table for one memtable after another; an empty table is not kept. */
  function FlushChunks(chunks: seq<seq<Record>>, t: Tables): Tables {
    if chunks == [] then
      t
    else
      var before := FlushChunks(chunks[..|chunks| - 1], t);
      var es := Replay(chunks[|chunks| - 1]);
      if es == {} then
        before.(next := before.next + 1)
      else
        Tables(before.tables[before.next := es], before.added[before.next := 0], before.next + 1)
  }

  function Concat(chunks: seq<seq<Record>>): seq<Record> {
    if chunks == [] then [] else Concat(chunks[..|chunks| - 1]) + chunks[|chunks| - 1]
  }

  /** RecoverLogFile for the first log still to do. The chunks are the runs of records
    between two flushes; reuse takes the log over instead of flushing it. */
  function RecoverLog(d: Disk, rec: Recovery, chunks: seq<seq<Record>>, reuse: bool): (Disk, Recovery)
    requires rec.todo != [] && rec.todo[0] in d.logs
  {
    var n := rec.todo[0];
    var records := d.logs[n];
    var top := MaxSequence(records, rec.maxSequence);
    if reuse then
      var v := rec.versions.(nextFile := Max(rec.versions.nextFile, n + 1));
      (d, rec.(versions := v, todo := rec.todo[1..], maxSequence := top, mem := Some(n), contents := Replay(records)))
    else
      var t := FlushChunks(chunks, Tables(d.tables, rec.added, rec.versions.nextFile));
      var v := rec.versions.(nextFile := Max(t.next, n + 1));
      (d.(tables := t.tables),
       rec.(versions := v, todo := rec.todo[1..], added := t.added, maxSequence := top,
            save := rec.save || chunks != []))
  }

  /** The end of Recover, and the new log of DB::Open when none was taken over. */
  function OpenLog(d: Disk, rec: Recovery): (Disk, Recovery) {
    var v := rec.versions.(lastSequence := Max(rec.versions.lastSequence, rec.maxSequence));
    if rec.mem.Some? then
      (d, rec.(versions := v, replayed := true))
    else
      var n := v.nextFile;
      (d.(logs := d.logs[n := []]),
       rec.(versions := v.(nextFile := n + 1), mem := Some(n), contents := {}, replayed := true))
  }

  function OpenEdit(rec: Recovery): Edit
    requires rec.mem.Some?
  {
    Edit(FlushEdit, rec.added, {}, rec.mem.value, rec.versions.lastSequence, rec.versions.nextFile)
  }

  function OpenManifest(d: Disk, h: History, rec: Recovery): (Disk, History)
    requires rec.mem.Some?
  {
    (d.(manifest := ApplyEdit(OpenEdit(rec), d.manifest)),
     h.(committed := h.committed + Recovered(d, rec)))
  }

  /** The entries replayed into tables. */
  function Recovered(d: Disk, rec: Recovery): set<Entry> {
    set f, e | f in rec.added && f in d.tables && e in d.tables[f] :: e
  }

  function OpenMemory(rec: Recovery): Memory
    requires rec.mem.Some?
  {
    var v := if rec.save
             then rec.versions.(files := EditFiles(OpenEdit(rec), rec.versions.files), logNumber := rec.mem.value)
             else rec.versions;
    Memory(v, rec.mem.value, None, map[rec.mem.value := rec.contents], [], map[], {}, false, false, false, 0,
           BgIdle, None, [], NoLeader, map[], [])
  }

  // All steps.

  datatype Step =
    | Enqueue(w: Writer)
    | StartLeader
    | RoomStep(memFull: bool, newLogOk: bool, needs: bool)
    | AddRecordStep(ok: bool, durable: bool)
    | SyncStep(ok: bool)
    | InsertStep
    | PublishStep
    | BeginCallStep(pick: Pick, needs: bool)
    | BuildStep(ok: bool)
    | FlushApplyStep(level: nat, needs: bool)
    | ManifestStep(ok: bool, durable: bool)
    | InstallStep(needs: bool)
    | JobFlushStep
    | JobOpenStep
    | JobFinishStep(chunk: set<Entry>)
    | JobApplyStep
    | JobFailStep(needs: bool)
    | GetSnapshotStep
    | ReleaseSnapshotStep(index: nat)
    | BeginReadStep(reader: nat, snapshot: Option<nat>)
    | EndReadStep(reader: nat, schedule: bool, needs: bool)
    | ShutDownStep
    | CrashStep
    | LeftoverStep(file: nat, contents: set<Entry>)
    | BeginRecoveryStep(todo: seq<nat>, newManifest: bool)
    | RecoverLogStep(chunks: seq<seq<Record>>, reuse: bool)
    | OpenLogStep
    | OpenCommitStep(ok: bool, durable: bool, needs: bool)

  ghost predicate RunningEnabled(d: Disk, m: Memory, step: Step) {
    match step
    case Enqueue(w) => w.id !in m.results && forall x :: x in m.writers ==> x.id != w.id
    case StartLeader => m.writers != [] && m.leader.NoLeader?
    case RoomStep(_, _, needs) => m.leader.MakingRoom? && m.writers != [] && NeedsAllowed(m, needs)
    case AddRecordStep(ok, durable) =>
      m.leader.Logging? && m.leader.group.writers != [] && m.mem in d.logs && (ok ==> durable)
    case SyncStep(_) => m.leader.Syncing?
    case InsertStep => m.leader.Inserting? && m.leader.done < |m.leader.group.ops| && m.mem in m.heap
    case PublishStep => ReadyToPublish(m)
    case BeginCallStep(pick, needs) =>
      m.queued > 0 && m.bg.BgIdle? && m.job.None? && PickAllowed(d, m, pick) && NeedsAllowed(m, needs)
    case BuildStep(_) => m.bg.BgBuilding?
    case FlushApplyStep(level, needs) => m.bg.BgBuilt? && level <= MAX_MEM_COMPACT_LEVEL && NeedsAllowed(m, needs)
    case ManifestStep(ok, durable) => m.bg.BgWriting? && (ok ==> durable)
    case InstallStep(needs) =>
      m.bg.BgWritten? && NeedsAllowed(if m.bg.ok then InstallVersion(m, m.bg.edit) else m, needs)
    case JobFlushStep => m.bg.BgMerging? && m.job.Some? && m.imm.Some?
    case JobOpenStep => m.bg.BgMerging? && m.job.Some? && m.job.value.open.None? && m.job.value.remaining != {}
    case JobFinishStep(chunk) =>
      && m.bg.BgMerging? && m.job.Some? && m.job.value.open.Some?
      && chunk != {} && chunk <= m.job.value.remaining
    case JobApplyStep =>
      m.bg.BgMerging? && m.job.Some? && m.job.value.open.None? && m.job.value.remaining == {}
    case JobFailStep(needs) => m.bg.BgMerging? && m.job.Some? && NeedsAllowed(m, needs)
    case GetSnapshotStep => true
    case ReleaseSnapshotStep(i) => i < |m.snapshots|
    case BeginReadStep(id, index) => id !in m.readers && (index.Some? ==> index.value < |m.snapshots|)
    case EndReadStep(id, _, needs) => id in m.readers && NeedsAllowed(m, needs)
    case ShutDownStep => true
    case CrashStep => true
    case _ => false
  }

  ghost predicate Enabled(s: State, step: Step) {
    match s
    case Running(d, h, m) => RunningEnabled(d, m, step)
    case Closed(d, h) =>
      || (step.LeftoverStep? && step.file !in d.manifest.files)
      || (step.BeginRecoveryStep? && IsListing(step.todo, d.logs, d.manifest.logNumber))
    case Recovering(d, h, rec) =>
      match step
      case CrashStep => true
      case RecoverLogStep(chunks, reuse) =>
        && rec.todo != [] && rec.todo[0] in d.logs
        && Concat(chunks) == d.logs[rec.todo[0]]
        && (reuse ==> |rec.todo| == 1 && |chunks| <= 1)
      case OpenLogStep => rec.todo == [] && !rec.replayed
      case OpenCommitStep(ok, durable, needs) =>
        rec.replayed && rec.mem.Some? && (ok ==> durable) && NeedsAllowed(OpenMemory(rec), needs)
      case _ => false
  }

  ghost function Next(s: State, step: Step): State
    requires Enabled(s, step)
  {
    match s
    case Running(d, h, m) => NextRunning(d, h, m, step)
    case Closed(d, h) =>
      (match step
       case LeftoverStep(f, es) => Closed(d.(tables := d.tables[f := es]), h)
       case BeginRecoveryStep(todo, newManifest) => Recovering(d, h, BeginRecovery(d, todo, newManifest)))
    case Recovering(d, h, rec) =>
      match step
      case CrashStep => Closed(d, h)
      case RecoverLogStep(chunks, reuse) => var (d1, r1) := RecoverLog(d, rec, chunks, reuse); Recovering(d1, h, r1)
      case OpenLogStep => var (d1, r1) := OpenLog(d, rec); Recovering(d1, h, r1)
      case OpenCommitStep(ok, durable, needs) =>
        var (d1, h1) := if rec.save && durable then OpenManifest(d, h, rec) else (d, h);
        if rec.save && !ok then
          Closed(d1, h1)
        else
          var m := OpenMemory(rec);
          Running(DeleteObsolete(d1, m), h1.(flushed := h1.committed), MaybeSchedule(m, needs))
  }

  ghost function NextRunning(d: Disk, h: History, m: Memory, step: Step): State
    requires RunningEnabled(d, m, step)
  {
    match step
    case Enqueue(w) => Running(d, h, m.(writers := m.writers + [w]))
    case StartLeader =>
      var force := m.writers[0].batch.None?;
      Running(d, h, m.(leader := MakingRoom(force, !force)))
    case RoomStep(memFull, newLogOk, needs) =>
      var (d1, m1) := Room(d, m, memFull, newLogOk, needs); Running(d1, h, m1)
    case AddRecordStep(ok, durable) =>
      var (d1, h1) := AppendRecord(d, h, m, durable); Running(d1, h1, AfterAppend(m, ok))
    case SyncStep(ok) => Running(d, h, AfterSync(m, ok))
    case InsertStep => Running(d, h, InsertOne(m))
    case PublishStep => var (h1, m1) := Publish(h, m); Running(d, h1, m1)
    case BeginCallStep(pick, needs) => Running(d, h, BeginCall(d, m, pick, needs))
    case BuildStep(ok) => var (d1, m1) := BuildTable(d, m, ok); Running(d1, h, m1)
    case FlushApplyStep(level, needs) => Running(d, h, FlushApply(m, level, needs))
    case ManifestStep(ok, durable) => var (d1, h1, m1) := WriteManifest(d, h, m, ok, durable); Running(d1, h1, m1)
    case InstallStep(needs) => var (d1, h1, m1) := Install(d, h, m, needs); Running(d1, h1, m1)
    case JobFlushStep => Running(d, h, StartFlush(m))
    case JobOpenStep => var (d1, m1) := JobOpen(d, m); Running(d1, h, m1)
    case JobFinishStep(chunk) => var (d1, m1) := JobFinishFile(d, m, chunk); Running(d1, h, m1)
    case JobApplyStep => Running(d, h, JobApply(m))
    case JobFailStep(needs) => var (d1, m1) := JobFail(d, m, needs); Running(d1, h, m1)
    case GetSnapshotStep => Running(d, h, m.(snapshots := m.snapshots + [m.versions.lastSequence]))
    case ReleaseSnapshotStep(i) => Running(d, h, m.(snapshots := m.snapshots[..i] + m.snapshots[i + 1..]))
    case BeginReadStep(id, index) =>
      var s := if index.Some? then m.snapshots[index.value] else m.versions.lastSequence;
      Running(d, h, BeginRead(m, id, s))
    case EndReadStep(id, schedule, needs) =>
      var m1 := m.(readers := m.readers - {id});
      Running(d, h, if schedule then MaybeSchedule(m1, needs) else m1)
    case ShutDownStep => Running(d, h, m.(shuttingDown := true))
    case CrashStep => Closed(d, h)
  }

  /** A new database: NewDB writes an empty manifest. */
  function InitState(): State {
    Closed(Disk(map[], map[], Versions(map[], 0, 0, 2)), History({}, {}, 0, {}, {}))
  }

  /** Step i is enabled and leads to the next state. */
  ghost predicate StepTaken(states: seq<State>, steps: seq<Step>, i: nat)
    requires i < |steps| && |states| == |steps| + 1
  {
    Enabled(states[i], steps[i]) && states[i + 1] == Next(states[i], steps[i])
  }

  /** The states of a run: each is reached from the one before by an enabled step. */
  ghost predicate IsRun(states: seq<State>, steps: seq<Step>) {
    && |states| == |steps| + 1
    && states[0] == InitState()
    && forall i :: 0 <= i < |steps| ==> StepTaken(states, steps, i)
  }
}
