/** Background calls: what they make of the files, what they leave behind, and that a full
  memtable goes first. */
module DbCalls {
  import opened Entries
  import opened CompactionLoop
  import opened DbState
  import opened DbSteps
  import opened DbInvariant
  import opened DbProofBackground
  import opened DbProofInstall
  import opened DbSafety

  // What a call installs.

  /** The version's files after InstallStep. */
  function FilesAfter(m: Memory): map<nat, nat>
    requires m.bg.BgWritten? && m.bg.ok
  {
    InstallVersion(m, m.bg.edit).versions.files
  }

  lemma {:induction false} InstallsFiles(d: Disk, h: History, m: Memory, needs: bool)
    requires m.bg.BgWritten? && m.bg.ok
    ensures var m1 := Install(d, h, m, needs).2;
            m1.versions.files == FilesAfter(m) && m1.bgError == m.bgError
            && m1.readers == m.readers && m1.versions.logNumber == m.bg.edit.logNumber
    ensures m.bg.edit.kind.FlushEdit? ==> Install(d, h, m, needs).2.job == m.job && Install(d, h, m, needs).2.imm.None?
    ensures m.bg.edit.kind.CompactionEdit? ==> Install(d, h, m, needs).2.job.None?
  {
    var x := InstallVersion(m, m.bg.edit);
    AfterFlushWakes(x.(imm := None), needs);
    EndCallWakes(x, needs);
    EndCallWakes(DropJob(x), needs);
  }

  /** A compaction takes its inputs, which lie at its level and the next, out of the version, and
    puts its outputs in at the next; what these hold is the inputs' entries made compact. */
  lemma {:induction false} CompactionIsInstalled(d: Disk, h: History, m: Memory, needs: bool)
    requires Inv(Running(d, h, m)) && m.bg.BgWritten? && m.bg.ok && m.bg.edit.kind.CompactionEdit?
    ensures m.job.Some?
    ensures var (job, before) := (m.job.value, m.versions.files);
            var after := Install(d, h, m, needs).2.versions.files;
            && after.Keys == before.Keys - job.inputs + job.outputs
            && (forall f :: f in job.inputs ==> f in before && (before[f] == job.level || before[f] == job.level + 1))
            && (forall f :: f in job.outputs ==> after[f] == job.level + 1)
            && (forall f :: f in before && f !in job.inputs && f !in job.outputs ==> after[f] == before[f])
            && Compacted(Union(d.tables, job.outputs), Union(d.tables, job.inputs), job.smallest, job.base)
  {
    CompactionFits(d, h, m);
    InstallsFiles(d, h, m, needs);
    assert Holds(PLevels, d, h, m);
    assert Holds(PJob, d, h, m);
    var job := m.job.value;
    KeepSetIsCompact(Union(d.tables, job.inputs), job.smallest, job.base);
  }

  /** A moved file goes down one level; the others stay where they are. */
  lemma {:induction false} MoveIsInstalled(d: Disk, h: History, m: Memory, needs: bool)
    requires Inv(Running(d, h, m)) && m.bg.BgWritten? && m.bg.ok && m.bg.edit.kind.MoveEdit?
    ensures var (before, after) := (m.versions.files, Install(d, h, m, needs).2.versions.files);
            && after.Keys == before.Keys
            && forall f :: f in before ==> after[f] == if f in m.bg.edit.removed then before[f] + 1 else before[f]
  {
    CompactionFits(d, h, m);
    InstallsFiles(d, h, m, needs);
    assert Holds(PLevels, d, h, m);
  }

  lemma {:induction false} FilesAreAdded(edit: Edit, files: map<nat, nat>)
    requires edit.removed == {} && edit.added.Keys !! files.Keys
    ensures EditFiles(edit, files).Keys - files.Keys == edit.added.Keys && files.Keys <= EditFiles(edit, files).Keys
    ensures forall f :: f in files ==> EditFiles(edit, files)[f] == files[f]
    ensures forall f :: f in edit.added ==> EditFiles(edit, files)[f] == edit.added[f]
  {
  }

  lemma {:induction false} FlushIsNew(d: Disk, h: History, m: Memory)
    requires Inv(Running(d, h, m)) && m.bg.BgWritten? && m.bg.edit.kind.FlushEdit?
    ensures m.bg.edit.removed == {} && m.bg.edit.added.Keys !! m.versions.files.Keys
    ensures forall f :: f in m.bg.edit.added ==> m.bg.edit.added[f] <= 2
    ensures Union(d.tables, m.bg.edit.added.Keys) == ImmContents(m)
  {
    FlushFits(d, h, m);
    assert Holds(PLevels, d, h, m);
    assert Holds(PGap, d, h, m);
  }

  /** A flush adds tables that hold just what imm held, no deeper than level two. */
  lemma {:induction false} FlushIsInstalled(d: Disk, h: History, m: Memory, needs: bool)
    requires Inv(Running(d, h, m)) && m.bg.BgWritten? && m.bg.ok && m.bg.edit.kind.FlushEdit?
    ensures var (before, m1) := (m.versions.files, Install(d, h, m, needs).2);
            && m1.imm.None? && before.Keys <= m1.versions.files.Keys
            && (forall f :: f in before ==> m1.versions.files[f] == before[f])
            && (forall f :: f in m1.versions.files && f !in before ==> m1.versions.files[f] <= 2)
            && Union(d.tables, m1.versions.files.Keys - before.Keys) == ImmContents(m)
  {
    FlushIsNew(d, h, m);
    InstallsFiles(d, h, m, needs);
    FilesAreAdded(m.bg.edit, m.versions.files);
  }

  /** A compaction starts at the oldest snapshot, or the last sequence if there is none. */
  lemma {:induction false} JobStartsAtOldest(d: Disk, h: History, m: Memory, pick: Pick, needs: bool, i: nat)
    requires Inv(Running(d, h, m)) && m.queued > 0 && PickAllowed(d, m, pick) && m.job.None?
    requires BeginCall(d, m, pick, needs).job.Some?
    ensures var smallest := BeginCall(d, m, pick, needs).job.value.smallest;
            && (m.snapshots == [] ==> smallest == m.versions.lastSequence)
            && (m.snapshots != [] ==> smallest in m.snapshots)
            && (i < |m.snapshots| ==> smallest <= m.snapshots[i])
  {
    assert Holds(PSnapshots, d, h, m);
    EndCallWakes(m.(queued := m.queued - 1), needs);
  }

  // Nothing is left behind.

  /** Every table belongs to the version, to a read in progress or to a compaction, and every log
    feeds a memtable that is not in tables yet. */
  ghost predicate NoGarbage(d: Disk, m: Memory) {
    && (forall f :: f in d.tables ==>
          || f in m.versions.files
          || (exists id :: id in m.readers && f in m.readers[id].files)
          || (m.job.Some? && (f in m.job.value.held || f in m.job.value.outputs || m.job.value.open == Some(f))))
    && (forall n :: n in d.logs ==> m.versions.logNumber <= n)
  }

  /** What a collection leaves once no table is being built for a flush. */
  lemma {:induction false} Collected(d: Disk, h: History, x: Memory, m1: Memory)
    requires !x.bgError && Holds(PFresh, DeleteObsolete(d, x), h, m1)
    requires m1.versions == x.versions && m1.pending == x.pending && m1.readers == x.readers && m1.job == x.job
    requires !m1.bg.BgBuilding? && !m1.bg.BgBuilt?
    ensures NoGarbage(DeleteObsolete(d, x), m1)
  {
    assert m1.pending <= JobFiles(m1.job);
  }

  lemma {:induction false} FlushLeavesNoGarbage(d: Disk, h: History, m: Memory, needs: bool)
    requires m.bg.BgWritten? && m.bg.ok && !m.bgError && m.bg.edit.kind.FlushEdit?
    requires var (d1, h1, m1) := Install(d, h, m, needs); Inv(Running(d1, h1, m1))
    ensures var (d1, _, m1) := Install(d, h, m, needs); NoGarbage(d1, m1)
  {
    var (d1, h1, m1) := Install(d, h, m, needs);
    var x := InstallVersion(m, m.bg.edit).(imm := None);
    AfterFlushWakes(x, needs);
    assert Holds(PFresh, d1, h1, m1);
    Collected(d, h1, x, m1);
  }

  lemma {:induction false} CompactionLeavesNoGarbage(d: Disk, h: History, m: Memory, needs: bool)
    requires m.bg.BgWritten? && m.bg.ok && !m.bgError && m.bg.edit.kind.CompactionEdit?
    requires var (d1, h1, m1) := Install(d, h, m, needs); Inv(Running(d1, h1, m1))
    ensures var (d1, _, m1) := Install(d, h, m, needs); NoGarbage(d1, m1)
  {
    var (d1, h1, m1) := Install(d, h, m, needs);
    var x := DropJob(InstallVersion(m, m.bg.edit));
    EndCallWakes(x, needs);
    assert Holds(PFresh, d1, h1, m1);
    Collected(d, h1, x, m1);
  }

  /** After a flush or a compaction nothing that nobody needs is left on disk, unless an error
    has been recorded. */
  lemma {:induction false} InstallLeavesNoGarbage(d: Disk, h: History, m: Memory, needs: bool)
    requires Inv(Running(d, h, m)) && RunningEnabled(d, m, InstallStep(needs))
    requires m.bg.ok && !m.bgError && !m.bg.edit.kind.MoveEdit?
    ensures var (d1, _, m1) := Install(d, h, m, needs); NoGarbage(d1, m1)
  {
    NextKeeps(Running(d, h, m), InstallStep(needs));
    if m.bg.edit.kind.FlushEdit? {
      FlushLeavesNoGarbage(d, h, m, needs);
    } else {
      CompactionLeavesNoGarbage(d, h, m, needs);
    }
  }

  /** Nor after opening, whatever an earlier incarnation left. */
  lemma {:induction false} OpeningLeavesNoGarbage(d: Disk, h: History, rec: Recovery, ok: bool, durable: bool,
                                                  needs: bool)
    requires Inv(Recovering(d, h, rec)) && Enabled(Recovering(d, h, rec), OpenCommitStep(ok, durable, needs))
    requires rec.save ==> ok
    ensures var s1 := Next(Recovering(d, h, rec), OpenCommitStep(ok, durable, needs));
            s1.Running? && NoGarbage(s1.disk, s1.m)
  {
    ScheduleWakes(OpenMemory(rec), needs);
  }

  // A full memtable goes first.

  /** A flush is under way. */
  predicate Flushing(m: Memory) {
    m.imm.Some? && match m.bg
                   case BgBuilding(_) => true
                   case BgBuilt(_, _) => true
                   case BgWriting(edit) => edit.kind.FlushEdit?
                   case BgWritten(edit, _) => edit.kind.FlushEdit?
                   case _ => false
  }

  predicate FlushGoesOn(m: Memory) {
    Flushing(m) || m.imm.None? || m.bgError
  }

  lemma {:induction false} FlushStarts(d: Disk, m: Memory, pick: Pick, needs: bool)
    requires m.queued > 0 && PickAllowed(d, m, pick) && m.imm.Some? && !m.bgError && !m.shuttingDown
    ensures Flushing(BeginCall(d, m, pick, needs))
  {
  }

  lemma {:induction false} InstallGoesOn(d: Disk, h: History, m: Memory, needs: bool)
    requires Flushing(m) && m.bg.BgWritten?
    ensures FlushGoesOn(Install(d, h, m, needs).2)
  {
    var x := InstallVersion(m, m.bg.edit).(imm := None);
    AfterFlushWakes(x, needs);
    ErrorWakes(m);
    AfterFlushWakes(RecordBackgroundError(m), needs);
  }

  lemma {:induction false} ApplyGoesOn(m: Memory, level: nat, needs: bool)
    requires Flushing(m) && m.bg.BgBuilt?
    ensures FlushGoesOn(FlushApply(m, level, needs))
  {
    var x := m.(pending := m.pending - {m.bg.file});
    ErrorWakes(x);
    AfterFlushWakes(RecordBackgroundError(x), needs);
  }

  lemma {:induction false} CallGoesOn(d: Disk, h: History, m: Memory, step: Step)
    requires RunningEnabled(d, m, step) && IsBackgroundStep(step) && Flushing(m)
    ensures NextRunning(d, h, m, step).Running? && FlushGoesOn(NextRunning(d, h, m, step).m)
  {
    match step
    case InstallStep(needs) => InstallGoesOn(d, h, m, needs);
    case FlushApplyStep(level, needs) => ApplyGoesOn(m, level, needs);
    case _ =>
  }

  lemma {:induction false} RoomGoesOn(d: Disk, m: Memory, memFull: bool, newLogOk: bool, needs: bool)
    requires m.leader.MakingRoom? && m.writers != [] && Flushing(m)
    ensures FlushGoesOn(Room(d, m, memFull, newLogOk, needs).1)
  {
    RoomEnds(d, m, memFull, newLogOk, needs);
  }

  lemma {:induction false} ClientGoesOn(d: Disk, h: History, m: Memory, step: Step)
    requires RunningEnabled(d, m, step) && !IsBackgroundStep(step) && !step.RoomStep? && !step.CrashStep? && Flushing(m)
    ensures NextRunning(d, h, m, step).Running? && FlushGoesOn(NextRunning(d, h, m, step).m)
  {
  }

  lemma {:induction false} StepGoesOn(d: Disk, h: History, m: Memory, step: Step)
    requires RunningEnabled(d, m, step) && !step.CrashStep? && Flushing(m)
    ensures NextRunning(d, h, m, step).Running? && FlushGoesOn(NextRunning(d, h, m, step).m)
  {
    if IsBackgroundStep(step) {
      CallGoesOn(d, h, m, step);
    } else if step.RoomStep? {
      RoomGoesOn(d, m, step.memFull, step.newLogOk, step.needs);
    } else {
      ClientGoesOn(d, h, m, step);
    }
  }

  lemma {:induction false} StaysFlushing(states: seq<State>, steps: seq<Step>, i: nat, j: nat)
    requires IsRun(states, steps) && i <= j < |states| && states[i].Running? && Flushing(states[i].m)
    requires forall x :: i <= x <= j ==> states[x].Running? && states[x].m.imm.Some? && !states[x].m.bgError
    ensures states[j].Running? && Flushing(states[j].m)
  {
    if i == j {
    } else {
      StaysFlushing(states, steps, i, j - 1);
      assert StepTaken(states, steps, j - 1);
      StepGoesOn(states[j - 1].disk, states[j - 1].hist, states[j - 1].m, steps[j - 1]);
    }
  }

  /** Over a run: a call that finds a full memtable does not end, and compacts nothing, before
    that memtable has been flushed or an error recorded. */
  lemma {:induction false} FullMemtableGoesFirst(states: seq<State>, steps: seq<Step>, i: nat, j: nat)
    requires IsRun(states, steps) && i < j < |states|
    requires steps[i].BeginCallStep? && states[i].Running? && !states[i].m.shuttingDown
    requires forall x :: i <= x <= j ==> states[x].Running? && states[x].m.imm.Some? && !states[x].m.bgError
    ensures !states[j].m.bg.BgIdle? && !states[j].m.bg.BgMerging?
  {
    assert StepTaken(states, steps, i);
    FlushStarts(states[i].disk, states[i].m, steps[i].pick, steps[i].needs);
    StaysFlushing(states, steps, i + 1, j);
  }
}
