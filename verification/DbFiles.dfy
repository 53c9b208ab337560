/** Garbage collection and log retirement: nothing anybody needs is deleted. */
module DbFiles {
  import opened Entries
  import opened DbState
  import opened DbSteps
  import opened DbInvariant
  import opened DbProofBackground
  import opened DbProofTables
  import opened DbProofManifest
  import opened DbSafety
  import opened DbTheorems

  /** Recovery finds every file its manifest names: the check for missing files never
    fails on a database these steps wrote. */
  lemma {:induction false} NoFileMissing(d: Disk, h: History)
    requires DiskInv(d, h)
    ensures d.manifest.files.Keys <= d.tables.Keys
  {
    assert DiskHolds(PManifestTables, d, h);
  }

  lemma {:induction false} ReaderFilesExist(d: Disk, h: History, m: Memory)
    requires Holds(PReaders, d, h, m)
    ensures ReaderFiles(m.readers) <= d.tables.Keys
  {
    forall id | id in m.readers
      ensures m.readers[id].files <= d.tables.Keys
    {
      assert ReaderOk(d.tables, m.heap, m.readers[id], Live(h, m), m.versions.lastSequence, m.mem);
    }
  }

  /** While the database is open, every table of the version, of a read in progress, and of
    a compaction's input and output exists, the output being written among them; so does a
    flushed table from the moment it is built; and so do the logs of both memtables. */
  lemma {:induction false} NoUsedFileMissing(d: Disk, h: History, m: Memory)
    requires Inv(Running(d, h, m))
    ensures Finished(d, m) + JobFiles(m.job) <= d.tables.Keys
    ensures m.bg.BgWriting? || m.bg.BgWritten? || (m.bg.BgBuilt? && m.bg.ok && ImmContents(m) != {}) ==>
              BuildingFile(m.bg) <= d.tables.Keys
    ensures m.mem in d.logs && (m.imm.Some? ==> m.imm.value in d.logs)
  {
    NoFileMissing(d, h);
    assert Holds(PTables, d, h, m);
    assert Holds(PMemtables, d, h, m);
    assert Holds(PJob, d, h, m);
    assert Holds(PBackground, d, h, m);
    assert Holds(PReaders, d, h, m);
    ReaderFilesExist(d, h, m);
  }

  /** The file a step writes itself. */
  function OwnFile(m: Memory, step: Step): set<nat> {
    match step
    case BuildStep(_) => if m.bg.BgBuilding? then {m.bg.file} else {}
    case JobFinishStep(_) => if m.job.Some? && m.job.value.open.Some? then {m.job.value.open.value} else {}
    case _ => {}
  }

  /** What a step must not take: tables in use before and after, finished or under
    construction, and logs still needed. own is what the step itself writes; a compaction
    output does not even then disappear. */
  ghost predicate FilesKept(d: Disk, m: Memory, d1: Disk, m1: Memory, own: set<nat>) {
    && Agree(d.tables, d1.tables, InUse(d, m) * InUse(d1, m1) - own)
    && Remain(d.tables, d1.tables, JobFiles(m.job) * JobFiles(m1.job))
    && LogsKept(d, d1)
  }

  /** Logs from the durable LogNumber on stay, and only grow. */
  ghost predicate LogsKept(d: Disk, d1: Disk) {
    forall n :: n in d.logs && d1.manifest.logNumber <= n ==> n in d1.logs && d.logs[n] <= d1.logs[n]
  }

  /** DeleteObsoleteFiles at the end of a flush or a compaction, from x, which then becomes m1. */
  lemma {:induction false} CollectionIsSafe(d: Disk, m: Memory, x: Memory, h1: History, m1: Memory)
    requires Inv(Running(DeleteObsolete(d, x), h1, m1))
    requires m1.versions == x.versions && m1.pending == x.pending && m1.readers == x.readers && m1.job == x.job
    requires m1.bgError == x.bgError && (m1.bg.BgIdle? || m1.bg.BgMerging?)
    ensures FilesKept(d, m, DeleteObsolete(d, x), m1, {})
  {
    if !x.bgError {
      var d1 := DeleteObsolete(d, x);
      InUseIsLive(d1, h1, m1);
      DeleteObsoleteIs(d, x);
      assert LiveFiles(m1) == LiveFiles(x);
    }
  }

  lemma {:induction false} InstallFlushIsSafe(d: Disk, h: History, m: Memory, needs: bool)
    requires m.bg.BgWritten? && m.bg.edit.kind.FlushEdit?
    requires var (d1, h1, m1) := Install(d, h, m, needs); Inv(Running(d1, h1, m1))
    ensures FilesKept(d, m, Install(d, h, m, needs).0, Install(d, h, m, needs).2, {})
  {
    if m.bg.ok {
      var x := InstallVersion(m, m.bg.edit).(imm := None);
      AfterFlushWakes(x, needs);
      CollectionIsSafe(d, m, x, Install(d, h, m, needs).1, AfterFlush(x, needs));
    }
  }

  lemma {:induction false} InstallCompactionIsSafe(d: Disk, h: History, m: Memory, needs: bool)
    requires m.bg.BgWritten? && m.bg.edit.kind.CompactionEdit?
    requires var (d1, h1, m1) := Install(d, h, m, needs); Inv(Running(d1, h1, m1))
    ensures FilesKept(d, m, Install(d, h, m, needs).0, Install(d, h, m, needs).2, {})
  {
    var x := DropJob(if m.bg.ok then InstallVersion(m, m.bg.edit) else RecordBackgroundError(m));
    EndCallWakes(x, needs);
    CollectionIsSafe(d, m, x, h, EndCall(x, needs));
  }

  lemma {:induction false} InstallIsSafe(d: Disk, h: History, m: Memory, needs: bool)
    requires m.bg.BgWritten?
    requires var (d1, h1, m1) := Install(d, h, m, needs); Inv(Running(d1, h1, m1))
    ensures FilesKept(d, m, Install(d, h, m, needs).0, Install(d, h, m, needs).2, {})
  {
    match m.bg.edit.kind
    case FlushEdit => InstallFlushIsSafe(d, h, m, needs);
    case CompactionEdit => InstallCompactionIsSafe(d, h, m, needs);
    case MoveEdit =>
  }

  lemma {:induction false} JobFailIsSafe(d: Disk, h: History, m: Memory, needs: bool)
    requires Inv(Running(JobFail(d, m, needs).0, h, JobFail(d, m, needs).1))
    ensures FilesKept(d, m, JobFail(d, m, needs).0, JobFail(d, m, needs).1, {})
  {
    var x := DropJob(RecordBackgroundError(m));
    EndCallWakes(x, needs);
    CollectionIsSafe(d, m, x, h, EndCall(x, needs));
  }

  predicate Collects(step: Step) {
    step.InstallStep? || step.JobFailStep?
  }

  predicate WritesTable(step: Step) {
    step.BuildStep? || step.JobOpenStep? || step.JobFinishStep?
  }

  lemma {:induction false} BuildIsSafe(d: Disk, h: History, m: Memory, ok: bool)
    requires Inv(Running(d, h, m)) && m.bg.BgBuilding?
    ensures FilesKept(d, m, BuildTable(d, m, ok).0, BuildTable(d, m, ok).1, {m.bg.file})
  {
    assert Holds(PFresh, d, h, m);
  }

  lemma {:induction false} JobOpenIsSafe(d: Disk, h: History, m: Memory)
    requires Inv(Running(d, h, m)) && m.job.Some?
    ensures FilesKept(d, m, JobOpen(d, m).0, JobOpen(d, m).1, {})
  {
    assert Holds(PNumbers, d, h, m);
  }

  lemma {:induction false} TableWriteIsSafe(d: Disk, h: History, m: Memory, step: Step)
    requires Inv(Running(d, h, m)) && RunningEnabled(d, m, step) && WritesTable(step)
    ensures FilesKept(d, m, NextRunning(d, h, m, step).disk, NextRunning(d, h, m, step).m, OwnFile(m, step))
  {
    match step
    case BuildStep(ok) => BuildIsSafe(d, h, m, ok);
    case JobOpenStep => JobOpenIsSafe(d, h, m);
    case JobFinishStep(_) =>
  }

  lemma {:induction false} CollectionStepIsSafe(d: Disk, h: History, m: Memory, step: Step)
    requires Inv(Running(d, h, m)) && RunningEnabled(d, m, step) && Collects(step)
    ensures NextRunning(d, h, m, step).Running?
    ensures FilesKept(d, m, NextRunning(d, h, m, step).disk, NextRunning(d, h, m, step).m, OwnFile(m, step))
  {
    NextKeeps(Running(d, h, m), step);
    match step
    case InstallStep(needs) => InstallIsSafe(d, h, m, needs);
    case JobFailStep(needs) => JobFailIsSafe(d, h, m, needs);
  }

  lemma {:induction false} OtherStepKeepsLogs(d: Disk, h: History, m: Memory, step: Step)
    requires RunningEnabled(d, m, step) && AllBelow(d.logs.Keys, m.versions.nextFile)
    requires !Collects(step) && !WritesTable(step) && !step.CrashStep?
    ensures NextRunning(d, h, m, step).Running?
    ensures NextRunning(d, h, m, step).disk.tables == d.tables
    ensures LogsKept(d, NextRunning(d, h, m, step).disk)
  {
    assert IsWriterStep(step) || NextRunning(d, h, m, step).disk.logs == d.logs;
  }

  lemma {:induction false} OtherStepIsSafe(d: Disk, h: History, m: Memory, step: Step)
    requires Inv(Running(d, h, m)) && RunningEnabled(d, m, step)
    requires !Collects(step) && !WritesTable(step) && !step.CrashStep?
    ensures NextRunning(d, h, m, step).Running?
    ensures FilesKept(d, m, NextRunning(d, h, m, step).disk, NextRunning(d, h, m, step).m, OwnFile(m, step))
  {
    assert Holds(PNumbers, d, h, m);
    OtherStepKeepsLogs(d, h, m, step);
  }

  /** In every interleaving: no step deletes or changes a table that is in use before and
    after it, be it part of a version or still under construction, nor a log from the durable
    LogNumber on. */
  lemma {:induction false} StepKeepsFiles(d: Disk, h: History, m: Memory, step: Step)
    requires Inv(Running(d, h, m)) && RunningEnabled(d, m, step) && !step.CrashStep?
    ensures NextRunning(d, h, m, step).Running?
    ensures FilesKept(d, m, NextRunning(d, h, m, step).disk, NextRunning(d, h, m, step).m, OwnFile(m, step))
  {
    if Collects(step) {
      CollectionStepIsSafe(d, h, m, step);
    } else if WritesTable(step) {
      TableWriteIsSafe(d, h, m, step);
    } else {
      OtherStepIsSafe(d, h, m, step);
    }
  }

  // The gap between pending_outputs_ and the version.

  /** f is a flushed table on its way into a version. */
  predicate InGap(m: Memory, f: nat) {
    && (m.bg.BgWriting? || m.bg.BgWritten?)
    && m.bg.edit.kind.FlushEdit? && f in m.bg.edit.added
  }

  lemma {:induction false} GapFits(d: Disk, h: History, m: Memory, f: nat)
    requires Inv(Running(d, h, m)) && InGap(m, f)
    ensures EditFits(m.bg.edit, d.tables, m.versions, m.mem, m.imm, ImmContents(m), m.job)
    ensures f in d.tables && f !in LiveFiles(m)
  {
    assert Holds(PBackground, d, h, m);
    assert Holds(PGap, d, h, m);
  }

  /** The gap is real: nothing but the error flag would keep a collection from deleting the
    new table here. */
  lemma {:induction false} GapIsOpen(d: Disk, h: History, m: Memory, f: nat)
    requires Inv(Running(d, h, m)) && InGap(m, f)
    ensures f in d.tables
    ensures f in DeleteObsolete(d, m).tables <==> m.bgError
  {
    GapFits(d, h, m, f);
  }

  /** The table is untouched, and it is still on its way, has arrived, or an error stands. */
  ghost predicate GapSafe(d: Disk, f: nat, d1: Disk, m1: Memory) {
    && f in d.tables && f in d1.tables && d1.tables[f] == d.tables[f]
    && (InGap(m1, f) || f in m1.versions.files || m1.bgError)
  }

  lemma {:induction false} InstallClosesGap(d: Disk, h: History, m: Memory, f: nat, needs: bool)
    requires Inv(Running(d, h, m)) && InGap(m, f) && m.bg.BgWritten?
    ensures GapSafe(d, f, Install(d, h, m, needs).0, Install(d, h, m, needs).2)
  {
    GapFits(d, h, m, f);
    var x := if m.bg.ok then InstallVersion(m, m.bg.edit).(imm := None) else RecordBackgroundError(m);
    AfterFlushWakes(x, needs);
    if m.bg.ok {
      EditFilesKeys(m.bg.edit, m.versions.files);
    } else {
      ErrorWakes(m);
    }
  }

  lemma {:induction false} ManifestKeepsGap(d: Disk, h: History, m: Memory, f: nat, ok: bool, durable: bool)
    requires InGap(m, f) && m.bg.BgWriting? && f in d.tables
    ensures GapSafe(d, f, WriteManifest(d, h, m, ok, durable).0, WriteManifest(d, h, m, ok, durable).2)
  {
  }

  /** The background call the table belongs to writes the manifest, or installs the version. */
  lemma {:induction false} OwnCallKeepsGap(d: Disk, h: History, m: Memory, f: nat, step: Step)
    requires Inv(Running(d, h, m)) && InGap(m, f) && f in d.tables
    requires RunningEnabled(d, m, step) && (step.ManifestStep? || step.InstallStep?)
    ensures NextRunning(d, h, m, step).Running?
    ensures GapSafe(d, f, NextRunning(d, h, m, step).disk, NextRunning(d, h, m, step).m)
  {
    if step.ManifestStep? {
      ManifestKeepsGap(d, h, m, f, step.ok, step.durable);
    } else {
      InstallClosesGap(d, h, m, f, step.needs);
    }
  }

  lemma {:induction false} OtherThreads(d: Disk, m: Memory, f: nat, step: Step)
    requires InGap(m, f) && RunningEnabled(d, m, step) && !step.ManifestStep? && !step.InstallStep?
    ensures !IsBackgroundStep(step)
  {
  }

  lemma {:induction false} RoomKeepsGap(d: Disk, m: Memory, f: nat, memFull: bool, newLogOk: bool, needs: bool)
    requires InGap(m, f) && f in d.tables && m.leader.MakingRoom? && m.writers != []
    ensures GapSafe(d, f, Room(d, m, memFull, newLogOk, needs).0, Room(d, m, memFull, newLogOk, needs).1)
  {
    RoomEnds(d, m, memFull, newLogOk, needs);
    ScheduleWakes(Rotated(m), needs);
  }

  lemma {:induction false} WriterKeepsGap(d: Disk, h: History, m: Memory, f: nat, step: Step)
    requires InGap(m, f) && f in d.tables && RunningEnabled(d, m, step) && IsWriterStep(step)
    ensures NextRunning(d, h, m, step).Running?
    ensures GapSafe(d, f, NextRunning(d, h, m, step).disk, NextRunning(d, h, m, step).m)
  {
    match step
    case RoomStep(memFull, newLogOk, needs) => RoomKeepsGap(d, m, f, memFull, newLogOk, needs);
    case _ =>
  }

  lemma {:induction false} ReaderKeepsGap(d: Disk, h: History, m: Memory, f: nat, step: Step)
    requires InGap(m, f) && f in d.tables && RunningEnabled(d, m, step)
    requires !IsWriterStep(step) && !IsBackgroundStep(step) && !step.CrashStep?
    ensures NextRunning(d, h, m, step).Running?
    ensures GapSafe(d, f, NextRunning(d, h, m, step).disk, NextRunning(d, h, m, step).m)
  {
  }

  lemma {:induction false} OtherKeepsGap(d: Disk, h: History, m: Memory, f: nat, step: Step)
    requires InGap(m, f) && f in d.tables && RunningEnabled(d, m, step)
    requires !step.CrashStep? && !step.ManifestStep? && !step.InstallStep?
    ensures NextRunning(d, h, m, step).Running?
    ensures GapSafe(d, f, NextRunning(d, h, m, step).disk, NextRunning(d, h, m, step).m)
  {
    OtherThreads(d, m, f, step);
    if IsWriterStep(step) {
      WriterKeepsGap(d, h, m, f, step);
    } else {
      ReaderKeepsGap(d, h, m, f, step);
    }
  }

  /** Yet no step falls into it: until the table is part of the version it is neither
    deleted nor changed, and if it never becomes part, an error has been recorded. */
  lemma {:induction false} GapIsClosed(d: Disk, h: History, m: Memory, f: nat, step: Step)
    requires Inv(Running(d, h, m)) && InGap(m, f)
    requires RunningEnabled(d, m, step) && !step.CrashStep?
    ensures NextRunning(d, h, m, step).Running?
    ensures GapSafe(d, f, NextRunning(d, h, m, step).disk, NextRunning(d, h, m, step).m)
  {
    GapFits(d, h, m, f);
    if step.ManifestStep? || step.InstallStep? {
      OwnCallKeepsGap(d, h, m, f, step);
    } else {
      OtherKeepsGap(d, h, m, f, step);
    }
  }

  // Log retirement.

  /** imm and the log number only move together: a rotation waits for imm to be gone, and
    imm goes only when a flush that holds all of it is installed. */
  ghost predicate ImmMoves(d: Disk, m: Memory, h1: History, m1: Memory, step: Step) {
    && (m1.mem != m.mem ==> m.imm.None? && m1.imm == Some(m.mem) && m1.versions.logNumber == m.versions.logNumber)
    && (m1.mem == m.mem && m1.imm != m.imm ==>
          && step.InstallStep? && m.imm.Some? && m1.imm.None? && m1.versions.logNumber == m.mem
          && ImmContents(m) <= h1.flushed)
  }

  lemma {:induction false} RoomMovesImm(d: Disk, h: History, m: Memory, memFull: bool, newLogOk: bool, needs: bool)
    requires Inv(Running(d, h, m)) && m.leader.MakingRoom? && m.writers != []
    ensures ImmMoves(d, m, h, Room(d, m, memFull, newLogOk, needs).1, RoomStep(memFull, newLogOk, needs))
  {
    assert Holds(PMemtables, d, h, m);
    assert Holds(PNumbers, d, h, m);
    RoomRotates(d, h, m, memFull, newLogOk, needs);
  }

  ghost predicate StateMovesImm(d: Disk, m: Memory, s1: State, step: Step) {
    s1.Running? && ImmMoves(d, m, s1.hist, s1.m, step)
  }

  lemma {:induction false} RotationWaits(d: Disk, h: History, m: Memory, step: Step)
    requires Inv(Running(d, h, m)) && RunningEnabled(d, m, step) && !step.CrashStep?
    ensures StateMovesImm(d, m, NextRunning(d, h, m, step), step)
  {
    if step.RoomStep? || step.InstallStep? {
      MovingStepWaits(d, h, m, step);
    } else if MovesLayers(step) {
      WriterKeepsImm(d, h, m, step);
    } else {
      OtherKeepsImm(d, h, m, step);
    }
  }

  lemma {:induction false} MovingStepWaits(d: Disk, h: History, m: Memory, step: Step)
    requires Inv(Running(d, h, m)) && RunningEnabled(d, m, step) && (step.RoomStep? || step.InstallStep?)
    ensures StateMovesImm(d, m, NextRunning(d, h, m, step), step)
  {
    if step.RoomStep? {
      RoomMovesImm(d, h, m, step.memFull, step.newLogOk, step.needs);
    } else {
      InstallMovesImm(d, h, m, step.needs);
    }
  }

  lemma {:induction false} WriterKeepsImm(d: Disk, h: History, m: Memory, step: Step)
    requires RunningEnabled(d, m, step) && (step.InsertStep? || step.PublishStep?)
    ensures var s1 := NextRunning(d, h, m, step); s1.Running? && s1.m.mem == m.mem && s1.m.imm == m.imm
  {
  }

  lemma {:induction false} OtherKeepsImm(d: Disk, h: History, m: Memory, step: Step)
    requires RunningEnabled(d, m, step) && !MovesLayers(step)
    ensures var s1 := NextRunning(d, h, m, step); s1.Running? && s1.m.mem == m.mem && s1.m.imm == m.imm
  {
    if IsBackgroundStep(step) {
      BackgroundSameLayers(d, h, m, step);
    } else {
      OtherSameLayers(d, h, m, step);
    }
  }

  lemma {:induction false} InstallMovesImm(d: Disk, h: History, m: Memory, needs: bool)
    requires Inv(Running(d, h, m)) && m.bg.BgWritten?
    ensures var (_, h1, m1) := Install(d, h, m, needs); ImmMoves(d, m, h1, m1, InstallStep(needs))
  {
    assert Holds(PBackground, d, h, m);
    match m.bg.edit.kind
    case FlushEdit =>
      var x := if m.bg.ok then InstallVersion(m, m.bg.edit).(imm := None) else RecordBackgroundError(m);
      ErrorWakes(m);
      AfterFlushWakes(x, needs);
    case CompactionEdit => InstallCompactionSameLayers(d, h, m, needs);
    case MoveEdit => InstallMoveSameLayers(d, h, m, needs);
  }

  /** An acknowledged entry found in a log the manifest has retired is in a committed table. */
  lemma {:induction false} RetiredIsCommitted(d: Disk, h: History, n: nat, e: Entry)
    requires DiskInv(d, h)
    requires n in d.logs && n < d.manifest.logNumber && e in Replay(d.logs[n]) && e in h.acked
    ensures e in h.committed
  {
    assert DiskHolds(PManifestAcked, d, h);
    assert DiskHolds(PLogOrder, d, h);
    forall k | k in d.logs && d.manifest.logNumber <= k
      ensures e !in Replay(d.logs[k])
    {
      assert Below(Replay(d.logs[n]), Replay(d.logs[k]));
    }
  }

  lemma {:induction false} WholeUnlessFailed(log: set<Entry>, imm: set<Entry>, committed: set<Entry>,
                                             live: set<Entry>, groups: seq<Group>)
    requires LogExplained(log, imm, groups, {}) && NoneFailed(live, groups) && committed + imm <= live
    ensures log <= committed + imm <==> forall e :: e in log ==> !InFailed(groups, e)
  {
  }

  lemma {:induction false} FlushHasImm(d: Disk, h: History, m: Memory)
    requires Inv(Running(d, h, m)) && m.bg.BgWriting? && m.bg.edit.kind.FlushEdit?
    ensures m.imm.Some? && m.imm.value in d.logs
  {
    assert Holds(PBackground, d, h, m);
    assert Holds(PMemtables, d, h, m);
  }

  lemma {:induction false} ImmIsExplained(d: Disk, h: History, m: Memory)
    requires Inv(Running(d, h, m)) && m.bg.BgWriting? && m.bg.edit.kind.FlushEdit?
    ensures m.imm.Some? && m.imm.value in d.logs
    ensures LogExplained(LogOf(d.logs, m.imm), ImmContents(m), m.groups, {}) && NoneFailed(Live(h, m), m.groups)
    ensures h.committed + ImmContents(m) <= Live(h, m)
  {
    FlushHasImm(d, h, m);
    assert Holds(PExplained, d, h, m);
    assert Holds(PFailed, d, h, m);
    assert Holds(PSync, d, h, m);
  }

  /** Committing a flush retires the log of imm. All its records are then in committed
    tables if and only if no group that reported an error left a record there. */
  lemma {:induction false} RetiredWhole(d: Disk, h: History, m: Memory, ok: bool)
    requires Inv(Running(d, h, m)) && m.bg.BgWriting? && m.bg.edit.kind.FlushEdit?
    ensures m.imm.Some? && m.imm.value in d.logs
    ensures var (_, h1, _) := WriteManifest(d, h, m, ok, true);
            var log := Replay(d.logs[m.imm.value]);
            log <= h1.committed <==> forall e :: e in log ==> !InFailed(m.groups, e)
  {
    ImmIsExplained(d, h, m);
    WholeUnlessFailed(LogOf(d.logs, m.imm), ImmContents(m), h.committed, Live(h, m), m.groups);
  }

  /** The half a caller can check beforehand: as long as no write has reported an error, a
    retired log is in committed tables record by record. */
  lemma {:induction false} RetiredWholeUnlessFailed(d: Disk, h: History, m: Memory, ok: bool)
    requires Inv(Running(d, h, m)) && m.bg.BgWriting? && m.bg.edit.kind.FlushEdit?
    requires forall i :: 0 <= i < |m.groups| ==> m.groups[i].ok
    ensures m.imm.Some? && m.imm.value in d.logs
    ensures Replay(d.logs[m.imm.value]) <= WriteManifest(d, h, m, ok, true).1.committed
  {
    RetiredWhole(d, h, m, ok);
  }
}
