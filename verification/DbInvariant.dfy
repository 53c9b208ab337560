/** What every reachable state satisfies. Each part names exactly the pieces of state it
  is about, so that a step that leaves those alone keeps the part without proof. */
module DbInvariant {
  import opened Entries
  import opened Compaction
  import opened DbState
  import opened DbSteps

  ghost predicate AtMost(es: set<Entry>, s: nat) {
    forall e :: e in es ==> e.sequence <= s
  }

  /** The files exist, hold nothing outside full, and read like full from floor on. */
  ghost predicate TablesOk(tables: map<nat, set<Entry>>, files: set<nat>, full: set<Entry>, floor: nat) {
    && files <= tables.Keys
    && Union(tables, files) <= full
    && SameFrom(floor, Union(tables, files), full)
  }

  /** Logs are filled in the order of their numbers. */
  ghost predicate LogsOrdered(logs: map<nat, seq<Record>>) {
    forall n, k :: n in logs && k in logs && n < k ==> Below(Replay(logs[n]), Replay(logs[k]))
  }

  ghost predicate Below(a: set<Entry>, b: set<Entry>) {
    forall e, f :: e in a && f in b ==> e.sequence < f.sequence
  }

  /** Every logged entry is either numbered by the manifest or still in a log it keeps. */
  ghost predicate Numbered(logged: set<Entry>, kept: set<Entry>, s: nat) {
    forall e :: e in logged ==> e.sequence <= s || e in kept
  }

  /** One operation per sequence number, in the logs as in the tables. */
  ghost predicate HistoryOk(inLogs: set<Entry>, logged: set<Entry>, committed: set<Entry>) {
    && Consistent(logged)
    && committed <= logged
    && inLogs <= logged
  }

  /** The newest log holds nothing that has reached a table. */
  ghost predicate Apart(logs: map<nat, seq<Record>>, committed: set<Entry>) {
    forall n :: n in logs && (forall k :: k in logs ==> k <= n) ==> committed !! Replay(logs[n])
  }

  /** The entries of the logs the manifest does not retire. */
  ghost function KeptLogs(d: Disk): set<Entry> {
    LogsFrom(d.logs, d.manifest.logNumber)
  }

  /** The manifest numbers all that is in tables, and all that its logs do not hold. */
  ghost predicate ManifestOk(d: Disk, h: History) {
    && AtMost(h.committed, d.manifest.lastSequence)
    && h.floor <= d.manifest.lastSequence
    && Numbered(h.logged, KeptLogs(d), d.manifest.lastSequence)
    && d.manifest.logNumber < d.manifest.nextFile
    && (forall f :: f in d.manifest.files ==> f < d.manifest.nextFile)
  }

  // While the database is open.

  ghost function ImmContents(m: Memory): set<Entry> {
    Contents(m.heap, m.imm)
  }

  ghost function MemContents(m: Memory): set<Entry> {
    Contents(m.heap, Some(m.mem))
  }

  /** All entries applied so far and not forgotten by a crash: the plain versioned map. */
  ghost function Live(h: History, m: Memory): set<Entry> {
    h.flushed + ImmContents(m) + MemContents(m)
  }

  /** Every memtable is covered by its own log, and the logs from logNumber on exist. */
  ghost predicate MemtablesOk(logs: map<nat, seq<Record>>, heap: map<nat, set<Entry>>, mem: nat, imm: Option<nat>,
                              logNumber: nat, durableNumber: nat) {
    && mem in heap && mem in logs && logNumber <= mem && durableNumber <= mem
    && heap[mem] <= Replay(logs[mem])
    && (forall n :: n in logs ==> n <= mem)
    && (imm.Some? ==>
          && imm.value in heap && imm.value in logs && logNumber <= imm.value < mem
          && heap[imm.value] <= Replay(logs[imm.value]))
  }

  /** The layers: table data below imm below mem, all of it logged. */
  ghost predicate LayersOk(flushed: set<Entry>, imm: set<Entry>, mem: set<Entry>, logged: set<Entry>,
                           acked: set<Entry>) {
    && flushed <= logged
    && acked <= flushed + imm + mem
    && Tops(imm, flushed)
    && Tops(mem, flushed + imm)
  }

  /** A log is retired only once its memtable is in committed tables. */
  ghost predicate RetiredOk(imm: Option<nat>, immContents: set<Entry>, committed: set<Entry>, durableNumber: nat) {
    imm.Some? && imm.value < durableNumber ==> immContents <= committed
  }

  predicate HasGroup(leader: Leader) {
    leader.Logging? || leader.Syncing? || leader.Inserting? || leader.Failed?
  }

  /** The batch of the current group, once it may be in the log. */
  ghost function InFlight(leader: Leader): set<Entry> {
    if HasGroup(leader) && !leader.Logging? then Batch(leader.group.first, leader.group.ops) else {}
  }

  ghost function Inserted(leader: Leader): set<Entry> {
    if leader.Inserting? && leader.done <= |leader.group.ops|
    then Batch(leader.group.first, leader.group.ops[..leader.done]) else {}
  }

  /** Only the group in flight is numbered above lastSequence, and of it only what has
    been inserted so far is in the memtable. */
  ghost predicate SequencesOk(flushed: set<Entry>, imm: set<Entry>, mem: set<Entry>, logged: set<Entry>,
                              lastSequence: nat, leader: Leader, log: set<Entry>) {
    && AtMost(flushed, lastSequence) && AtMost(imm, lastSequence)
    && (forall e :: e in mem ==> e.sequence <= lastSequence || e in Inserted(leader))
    && Inserted(leader) <= mem
    && Numbered(logged, InFlight(leader) * log, lastSequence)
    && (HasGroup(leader) ==> leader.group.first == lastSequence + 1)
    && (leader.Syncing? || leader.Inserting? ==> InFlight(leader) <= log)
    && (leader.Inserting? ==> leader.done <= |leader.group.ops|)
  }

  /** How the version in memory relates to the manifest on disk. */
  ghost predicate SyncOk(kept: set<Entry>, manifest: Versions, flushed: set<Entry>, committed: set<Entry>,
                         imm: set<Entry>, v: Versions) {
    && flushed <= committed <= flushed + imm
    && Tops(kept, flushed)
    && v.logNumber <= manifest.logNumber
    && manifest.lastSequence <= v.lastSequence
    && manifest.nextFile <= v.nextFile
  }

  /** Without a background error and outside LogAndApply the two are the same. */
  ghost predicate InStep(manifest: Versions, v: Versions, committed: set<Entry>, flushed: set<Entry>,
                         bgError: bool, bg: Background) {
    !bgError && !bg.BgWritten? ==>
      && manifest.files == v.files && manifest.logNumber == v.logNumber
      && committed == flushed
  }

  ghost function ReaderFiles(readers: map<nat, Reader>): set<nat> {
    set r, f | r in readers && f in readers[r].files :: f
  }

  function JobFiles(job: Option<Job>): set<nat> {
    if job.None? then {} else job.value.outputs + (if job.value.open.Some? then {job.value.open.value} else {})
  }

  function HeldFiles(job: Option<Job>): set<nat> {
    if job.None? then {} else job.value.held
  }

  /** Files that belong to a version somebody may still read. */
  ghost function Settled(files: map<nat, nat>, durable: map<nat, nat>, readers: map<nat, Reader>,
                         job: Option<Job>): set<nat> {
    files.Keys + durable.Keys + ReaderFiles(readers) + HeldFiles(job)
  }

  function BuildingFile(bg: Background): set<nat> {
    match bg
    case BgBuilding(f) => {f}
    case BgBuilt(f, _) => {f}
    case BgWriting(edit) => if edit.kind.FlushEdit? then edit.added.Keys else {}
    case BgWritten(edit, _) => if edit.kind.FlushEdit? then edit.added.Keys else {}
    case _ => {}
  }

  ghost predicate AllBelow(numbers: set<nat>, next: nat) {
    forall f :: f in numbers ==> f < next
  }

  /** Numbers are handed out in increasing order. */
  ghost predicate NumbersOk(settled: set<nat>, pending: set<nat>, job: Option<Job>, bg: Background,
                            heap: set<nat>, logs: set<nat>, next: nat) {
    && AllBelow(settled, next) && AllBelow(pending, next)
    && AllBelow(JobFiles(job), next) && AllBelow(BuildingFile(bg), next)
    && AllBelow(heap, next) && AllBelow(logs, next)
  }

  predicate AtCompactionEnd(bg: Background) {
    bg.BgWritten? && bg.edit.kind.CompactionEdit?
  }

  /** A file being written is not part of any version yet, and nothing else is pending. */
  ghost predicate FreshOk(settled: set<nat>, pending: set<nat>, job: Option<Job>, bg: Background) {
    && JobFiles(job) <= pending
    && (bg.BgBuilding? ==> bg.file !in settled && bg.file in pending)
    && pending <= JobFiles(job) + (if bg.BgBuilding? || bg.BgBuilt? then {bg.file} else {})
    && BuildingFile(bg) !! JobFiles(job) && BuildingFile(bg) !! HeldFiles(job)
    && (!AtCompactionEnd(bg) ==> JobFiles(job) !! settled)
    && (job.Some? && job.value.open.Some? ==> job.value.open.value !in job.value.outputs)
  }

  /** Files a version, a read or a compaction in progress keeps from being deleted. */
  ghost function VersionFiles(m: Memory): set<nat> {
    m.versions.files.Keys + ReaderFiles(m.readers) + HeldFiles(m.job)
  }

  /** The gap: a flushed table has left pending_outputs_ before any version names it. */
  ghost predicate GapOk(versionFiles: set<nat>, pending: set<nat>, bg: Background) {
    && BuildingFile(bg) !! versionFiles
    && (bg.BgWriting? || bg.BgWritten? ==> BuildingFile(bg) !! pending)
  }

  ghost predicate SnapshotsOk(floor: nat, snapshots: seq<nat>, lastSequence: nat, job: Option<Job>) {
    && floor <= lastSequence
    && (forall i :: 0 <= i < |snapshots| ==> floor <= snapshots[i] <= lastSequence)
    && (forall i, j :: 0 <= i < j < |snapshots| ==> snapshots[i] <= snapshots[j])
    && (job.Some? ==>
          && floor <= job.value.smallest <= lastSequence
          && forall i :: 0 <= i < |snapshots| ==> job.value.smallest <= snapshots[i])
  }

  /** What the files of a version outside the input mean for the keys of the input. */
  ghost predicate InputOk(tables: map<nat, set<Entry>>, files: set<nat>, job: Job) {
    && job.inputs <= files
    && BaseSafe(Union(tables, files - job.inputs), Union(tables, job.inputs), job.base)
  }

  ghost predicate JobOk(tables: map<nat, set<Entry>>, flushed: set<Entry>, files: set<nat>, durable: set<nat>,
                        bg: Background, job: Job) {
    && job.inputs <= job.held <= tables.Keys
    && JobFiles(Some(job)) <= tables.Keys
    && Union(tables, job.inputs) <= flushed
    && KeepSet(Union(tables, job.inputs), job.smallest, job.base) == job.remaining + Union(tables, job.outputs)
    && (job.open.Some? ==> job.remaining != {})
    && InputOk(tables, files, job)
    && (!AtCompactionEnd(bg) ==> InputOk(tables, durable, job))
  }

  /** A compaction's input lies at its level and the next, its output at the next; a moved file
    goes one level down; a flush goes no deeper than level two. */
  ghost predicate LevelsOk(files: map<nat, nat>, job: Option<Job>, bg: Background) {
    && (job.Some? ==> forall f :: f in job.value.inputs ==>
          f in files && (files[f] == job.value.level || files[f] == job.value.level + 1))
    && (bg.BgWriting? || bg.BgWritten? ==>
          && (bg.edit.kind.FlushEdit? ==> forall f :: f in bg.edit.added ==> bg.edit.added[f] <= 2)
          && (bg.edit.kind.CompactionEdit? ==>
                job.Some? && forall f :: f in bg.edit.added ==> bg.edit.added[f] == job.value.level + 1)
          && (bg.edit.kind.MoveEdit? ==>
                forall f :: f in bg.edit.added ==> f in files && bg.edit.added[f] == files[f] + 1))
  }

  /** Where CompactMemTable and the compaction must stand for such an edit to exist. */
  ghost predicate EditFits(edit: Edit, tables: map<nat, set<Entry>>, v: Versions, mem: nat, imm: Option<nat>,
                           immContents: set<Entry>, job: Option<Job>) {
    && edit.added.Keys <= tables.Keys
    && match edit.kind
       case FlushEdit =>
         && imm.Some? && edit.removed == {} && edit.logNumber == mem
         && Union(tables, edit.added.Keys) == immContents
       case CompactionEdit =>
         && job.Some? && edit.logNumber == v.logNumber
         && edit.added.Keys == job.value.outputs && edit.removed == job.value.inputs
         && job.value.remaining == {} && job.value.open.None?
       case MoveEdit =>
         && job.None? && edit.logNumber == v.logNumber
         && edit.added.Keys == edit.removed <= v.files.Keys
  }

  /** An edit on its way to the manifest. */
  ghost predicate EditOk(edit: Edit, d: Disk, committed: set<Entry>, logged: set<Entry>, v: Versions,
                         immContents: set<Entry>, job: Option<Job>) {
    && AllBelow(edit.added.Keys, edit.nextFile)
    && edit.logNumber < edit.nextFile <= v.nextFile
    && d.manifest.nextFile <= edit.nextFile
    && d.manifest.lastSequence <= edit.lastSequence <= v.lastSequence
    && AtMost(committed, edit.lastSequence)
    && Numbered(logged, LogsFrom(d.logs, edit.logNumber), edit.lastSequence)
    && (edit.kind.FlushEdit? ==> AtMost(immContents, edit.lastSequence))
    && (edit.kind.CompactionEdit? ==> job.Some? && job.value.smallest <= edit.lastSequence)
    && (edit.kind.MoveEdit? ==> edit.added.Keys <= d.manifest.files.Keys)
  }

  /** After LogAndApply: if it succeeded, the manifest is what the version will become. */
  ghost predicate WrittenOk(edit: Edit, ok: bool, manifest: Versions, v: Versions, committed: set<Entry>,
                            flushed: set<Entry>, floor: nat, immContents: set<Entry>, job: Option<Job>, bgError: bool) {
    ok ==>
      && edit.logNumber <= manifest.logNumber
      && (edit.kind.FlushEdit? ==> immContents <= committed)
      && (edit.kind.CompactionEdit? ==> job.Some? && job.value.smallest <= floor)
      && (!bgError ==>
            && manifest.files == EditFiles(edit, v.files)
            && manifest.logNumber == edit.logNumber
            && committed == flushed + if edit.kind.FlushEdit? then immContents else {})
  }

  ghost predicate BackgroundOk(d: Disk, h: History, v: Versions, mem: nat, imm: Option<nat>, immContents: set<Entry>,
                               job: Option<Job>, bg: Background, bgError: bool) {
    match bg
    case BgIdle => job.None?
    case BgBuilding(_) => imm.Some?
    case BgBuilt(f, ok) => imm.Some? && (ok && immContents != {} ==> f in d.tables && d.tables[f] == immContents)
    case BgWriting(edit) =>
      && EditFits(edit, d.tables, v, mem, imm, immContents, job)
      && EditOk(edit, d, h.committed, h.logged, v, immContents, job)
    case BgWritten(edit, ok) =>
      && EditFits(edit, d.tables, v, mem, imm, immContents, job)
      && WrittenOk(edit, ok, d.manifest, v, h.committed, h.flushed, h.floor, immContents, job, bgError)
    case BgMerging => job.Some?
  }

  /** A read in progress will answer what the versioned map holds at its snapshot. */
  ghost predicate ReaderOk(tables: map<nat, set<Entry>>, heap: map<nat, set<Entry>>, r: Reader,
                           live: set<Entry>, lastSequence: nat, newest: nat) {
    var below, imm, mem := Union(tables, r.files), Contents(heap, r.imm), Contents(heap, Some(r.mem));
    && r.files <= tables.Keys && r.mem in heap && r.mem <= newest
    && (r.imm.Some? ==> r.imm.value in heap && r.imm.value < r.mem)
    && r.snapshot <= lastSequence
    && below + imm + mem <= live
    && Tops(imm, below) && Tops(mem, below + imm)
    && forall k :: Lookup(below + imm + mem, k, r.snapshot) == Lookup(live, k, r.snapshot)
  }

  ghost predicate ReadersOk(tables: map<nat, set<Entry>>, heap: map<nat, set<Entry>>, readers: map<nat, Reader>,
                            live: set<Entry>, lastSequence: nat, newest: nat) {
    forall id :: id in readers ==> ReaderOk(tables, heap, readers[id], live, lastSequence, newest)
  }

  predicate WorkToDo(imm: Option<nat>, files: map<nat, nat>) {
    imm.Some? || LevelCount(files, 0) >= L0_COMPACTION_TRIGGER
  }

  /** At most one background call is outstanding, and one is whenever there is work that
    a writer may be waiting for. */
  ghost predicate ScheduleOk(queued: nat, running: bool, scheduled: bool, work: bool, stopped: bool, bgError: bool,
                             waiting: bool) {
    && queued + (if running then 1 else 0) == (if scheduled then 1 else 0)
    && (work && !bgError && !stopped ==> scheduled)
    && (waiting ==> work && !bgError)
  }

  // Group commit.

  ghost predicate DistinctIds(ws: seq<Writer>) {
    forall i, j :: 0 <= i < j < |ws| ==> ws[i].id != ws[j].id
  }

  ghost predicate GroupOk(g: Group) {
    && g.writers != [] && g.writers[0].batch.Some?
    && g.ops == OpsOf(g.writers)
    && forall i :: 0 <= i < |g.writers| ==> g.writers[i].sync ==> g.writers[0].sync
  }

  ghost predicate QueueOk(writers: seq<Writer>, results: map<nat, bool>, leader: Leader) {
    && DistinctIds(writers)
    && (forall i :: 0 <= i < |writers| ==> writers[i].id !in results)
    && (leader != NoLeader ==> writers != [])
    && (HasGroup(leader) ==>
          && GroupOk(leader.group)
          && |leader.group.writers| <= |writers|
          && leader.group.writers == writers[..|leader.group.writers|])
    && (leader.Logging? ==> !leader.group.synced)
    && (leader.Syncing? ==> leader.group.writers[0].sync)
    && (leader.Inserting? ==> (leader.group.synced <==> leader.group.writers[0].sync))
  }

  /** Every finished group: its members hold its own status, and the groups' sequence
    ranges follow one another. */
  ghost predicate GroupsOk(groups: seq<Group>, results: map<nat, bool>, lastSequence: nat) {
    && (forall i :: 0 <= i < |groups| ==>
          && GroupOk(groups[i])
          && groups[i].first + |groups[i].ops| <= lastSequence + 1
          && (groups[i].ok ==> (groups[i].synced <==> groups[i].writers[0].sync))
          && forall j :: 0 <= j < |groups[i].writers| ==>
               groups[i].writers[j].id in results && results[groups[i].writers[j].id] == groups[i].ok)
    && forall i, j :: 0 <= i < j < |groups| ==> groups[i].first + |groups[i].ops| <= groups[j].first
  }

  /** The entry belongs to a group that reported an error; it may be in the log all the same. */
  ghost predicate InFailed(groups: seq<Group>, e: Entry) {
    exists i :: 0 <= i < |groups| && !groups[i].ok && e in Batch(groups[i].first, groups[i].ops)
  }

  ghost predicate NoneFailed(live: set<Entry>, groups: seq<Group>) {
    forall e :: e in live ==> !InFailed(groups, e)
  }

  /** A log holds what its memtable holds, and besides only entries of failed groups and
    of the group in flight. */
  ghost predicate LogExplained(log: set<Entry>, mem: set<Entry>, groups: seq<Group>, inFlight: set<Entry>) {
    forall e :: e in log ==> e in mem || InFailed(groups, e) || e in inFlight
  }

  ghost function LogOf(logs: map<nat, seq<Record>>, n: Option<nat>): set<Entry> {
    if n.Some? && n.value in logs then Replay(logs[n.value]) else {}
  }

  // While it is being opened.

  /** The entries of the logs still to replay. */
  ghost function Pending(logs: map<nat, seq<Record>>, todo: seq<nat>): set<Entry> {
    set n, e | n in todo && n in logs && e in Replay(logs[n]) :: e
  }

  /** The logs still to replay are in order, and newer than all others. */
  ghost predicate TodoOk(logs: map<nat, seq<Record>>, todo: seq<nat>, logNumber: nat) {
    && (forall i, j :: 0 <= i < j < |todo| ==> todo[i] < todo[j])
    && (forall n :: n in todo ==> n in logs && logNumber <= n)
    && forall n, k :: n in todo && k in logs ==> k in todo || k < n
  }

  /** The memtable taken over, if any, is the newest log. */
  ghost predicate TakenOver(d: Disk, rec: Recovery) {
    match rec.mem
    case None => rec.contents == {}
    case Some(n) =>
      && rec.todo == [] && n in d.logs && d.manifest.logNumber <= n
      && rec.contents == Replay(d.logs[n])
      && forall k :: k in d.logs ==> k <= n
  }

  /** What has been replayed is in the new tables or in the memtable; the rest is to do. */
  ghost predicate ReplayOk(kept: set<Entry>, recovered: set<Entry>, contents: set<Entry>, pending: set<Entry>,
                           last: nat) {
    && kept == recovered + contents + pending
    && recovered !! contents + pending
    && AtMost(recovered + contents, last)
  }

  /** New tables and old logs are numbered below nextFile. */
  ghost predicate RecoveryFiles(d: Disk, rec: Recovery) {
    && rec.versions.files == d.manifest.files && rec.versions.logNumber == d.manifest.logNumber
    && rec.added.Keys <= d.tables.Keys && rec.added.Keys !! d.manifest.files.Keys
    && d.manifest.nextFile <= rec.versions.nextFile
    && (forall f :: f in rec.added ==> f < rec.versions.nextFile)
    && (forall n :: n in d.logs ==> n in rec.todo || n < rec.versions.nextFile)
    && (!rec.save ==> rec.added == map[])
    && d.manifest.lastSequence <= rec.versions.lastSequence
  }

  ghost predicate RecoveryOk(d: Disk, h: History, rec: Recovery) {
    && TodoOk(d.logs, rec.todo, d.manifest.logNumber)
    && ReplayOk(LogsFrom(d.logs, d.manifest.logNumber), Recovered(d, rec), rec.contents, Pending(d.logs, rec.todo),
                Max(rec.versions.lastSequence, rec.maxSequence))
    && TakenOver(d, rec)
    && RecoveryFiles(d, rec)
    && (rec.replayed ==> rec.todo == [] && rec.mem.Some? && rec.maxSequence <= rec.versions.lastSequence)
  }

  /** The parts of the invariant: what the disk always satisfies, and what an open
    database satisfies besides. */
  datatype DiskPart =
    | PHistory | PLogOrder | PApart | PManifestTables | PManifestAcked | PManifestTop | PManifest

  datatype Part =
    | PMemtables | PLayers | PSequences | PTables | PSync | PInStep | PNumbers | PFresh | PSnapshots
    | PJob | PLevels | PBackground | PReaders | PSchedule | PQueue | PGroups | PGap | PRetired | PFailed | PExplained

  ghost predicate DiskHolds(part: DiskPart, d: Disk, h: History) {
    match part
    case PHistory => HistoryOk(LogsFrom(d.logs, 0), h.logged, h.committed)
    case PLogOrder => LogsOrdered(d.logs)
    case PApart => Apart(d.logs, h.committed)
    case PManifestTables => TablesOk(d.tables, d.manifest.files.Keys, h.committed, h.floor)
    case PManifestAcked => h.acked <= h.committed + KeptLogs(d)
    case PManifestTop => Tops(KeptLogs(d), h.committed)
    case PManifest => ManifestOk(d, h)
  }

  ghost predicate Holds(part: Part, d: Disk, h: History, m: Memory) {
    match part
    case PMemtables => MemtablesOk(d.logs, m.heap, m.mem, m.imm, m.versions.logNumber, d.manifest.logNumber)
    case PLayers => LayersOk(h.flushed, ImmContents(m), MemContents(m), h.logged, h.acked)
    case PSequences =>
      SequencesOk(h.flushed, ImmContents(m), MemContents(m), h.logged, m.versions.lastSequence, m.leader,
                  if m.mem in d.logs then Replay(d.logs[m.mem]) else {})
    case PTables => TablesOk(d.tables, m.versions.files.Keys, h.flushed, h.floor)
    case PSync => SyncOk(LogsFrom(d.logs, m.versions.logNumber), d.manifest, h.flushed, h.committed,
                         ImmContents(m), m.versions)
    case PInStep => InStep(d.manifest, m.versions, h.committed, h.flushed, m.bgError, m.bg)
    case PNumbers =>
      NumbersOk(Settled(m.versions.files, d.manifest.files, m.readers, m.job), m.pending, m.job, m.bg,
                m.heap.Keys, d.logs.Keys, m.versions.nextFile)
    case PFresh => FreshOk(Settled(m.versions.files, d.manifest.files, m.readers, m.job), m.pending, m.job, m.bg)
    case PSnapshots => SnapshotsOk(h.floor, m.snapshots, m.versions.lastSequence, m.job)
    case PJob =>
      m.job.Some? ==>
        JobOk(d.tables, h.flushed, m.versions.files.Keys, d.manifest.files.Keys, m.bg, m.job.value)
    case PLevels => LevelsOk(m.versions.files, m.job, m.bg)
    case PBackground => BackgroundOk(d, h, m.versions, m.mem, m.imm, ImmContents(m), m.job, m.bg, m.bgError)
    case PReaders => ReadersOk(d.tables, m.heap, m.readers, Live(h, m), m.versions.lastSequence, m.mem)
    case PSchedule =>
      ScheduleOk(m.queued, !m.bg.BgIdle?, m.scheduled, WorkToDo(m.imm, m.versions.files), m.shuttingDown, m.bgError,
                 m.leader.WaitingForRoom?)
    case PQueue => QueueOk(m.writers, m.results, m.leader)
    case PGroups => GroupsOk(m.groups, m.results, m.versions.lastSequence)
    case PRetired => RetiredOk(m.imm, ImmContents(m), h.committed, d.manifest.logNumber)
    case PFailed => NoneFailed(Live(h, m), m.groups)
    case PExplained =>
      && LogExplained(LogOf(d.logs, Some(m.mem)), MemContents(m), m.groups, InFlight(m.leader))
      && LogExplained(LogOf(d.logs, m.imm), ImmContents(m), m.groups, {})
    case PGap => GapOk(VersionFiles(m), m.pending, m.bg)
  }

  ghost predicate DiskInv(d: Disk, h: History) {
    forall part: DiskPart :: DiskHolds(part, d, h)
  }

  ghost predicate MemoryInv(d: Disk, h: History, m: Memory) {
    forall part: Part :: Holds(part, d, h, m)
  }

  ghost predicate Inv(s: State) {
    && DiskInv(s.disk, s.hist)
    && match s
       case Closed(_, _) => true
       case Recovering(d, h, rec) => RecoveryOk(d, h, rec)
       case Running(d, h, m) => MemoryInv(d, h, m)
  }
}
