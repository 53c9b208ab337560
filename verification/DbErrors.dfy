/** Once an error has been recorded, no write succeeds any more; and errors are recorded. */
module DbErrors {
  import opened DbState
  import opened DbSteps
  import opened DbInvariant
  import opened DbProofBackground
  import opened DbProofWriters
  import opened DbSafety
  import opened DbGroups

  /** The write belongs to the group that is being logged, synced or inserted. */
  predicate InGroup(leader: Leader, id: nat) {
    HasGroup(leader) && Named(leader.group.writers, id)
  }

  predicate SyncFailed(leader: Leader) {
    leader.Failed? && leader.syncError
  }

  /** The write has not succeeded, and no longer can: an error stands and its group was not under
    way before, or the group at the front has failed to sync. */
  predicate Barred(m: Memory, id: nat) {
    && (id in m.results ==> !m.results[id])
    && (SyncFailed(m.leader) || (m.bgError && !InGroup(m.leader, id)))
  }

  ghost predicate StateBars(s: State, id: nat) {
    s.Running? && Barred(s.m, id)
  }

  lemma {:induction false} RoomBars(d: Disk, m: Memory, memFull: bool, newLogOk: bool, needs: bool, id: nat)
    requires m.leader.MakingRoom? && m.writers != [] && Barred(m, id)
    ensures Barred(Room(d, m, memFull, newLogOk, needs).1, id)
  {
    assert m.bgError;
    MarkDoneIs(m.results, m.writers[..1], false);
  }

  lemma {:induction false} PublishBars(d: Disk, h: History, m: Memory, id: nat)
    requires Inv(Running(d, h, m)) && ReadyToPublish(m) && Barred(m, id)
    ensures Barred(Publish(h, m).1, id)
  {
    PublishFinishes(d, h, m, id);
  }

  lemma {:induction false} ServingBars(d: Disk, h: History, m: Memory, step: Step, id: nat)
    requires Inv(Running(d, h, m)) && RunningEnabled(d, m, step) && (step.RoomStep? || step.PublishStep?)
    requires Barred(m, id)
    ensures StateBars(NextRunning(d, h, m, step), id)
  {
    if step.PublishStep? {
      PublishBars(d, h, m, id);
    } else {
      RoomBars(d, m, step.memFull, step.newLogOk, step.needs, id);
    }
  }

  lemma {:induction false} GroupStepBars(d: Disk, h: History, m: Memory, step: Step, id: nat)
    requires RunningEnabled(d, m, step) && (step.AddRecordStep? || step.SyncStep? || step.InsertStep?)
    requires Barred(m, id)
    ensures StateBars(NextRunning(d, h, m, step), id)
  {
  }

  lemma {:induction false} OtherStepBars(d: Disk, h: History, m: Memory, step: Step, id: nat)
    requires RunningEnabled(d, m, step) && !IsBackgroundStep(step) && !step.CrashStep?
    requires !step.RoomStep? && !step.PublishStep? && !step.AddRecordStep? && !step.SyncStep? && !step.InsertStep?
    requires Barred(m, id)
    ensures StateBars(NextRunning(d, h, m, step), id)
  {
  }

  lemma {:induction false} BackgroundBars(d: Disk, h: History, m: Memory, step: Step, id: nat)
    requires RunningEnabled(d, m, step) && IsBackgroundStep(step) && Barred(m, id)
    ensures StateBars(NextRunning(d, h, m, step), id)
  {
    BackgroundServesNone(d, h, m, step);
  }

  lemma {:induction false} StepBars(d: Disk, h: History, m: Memory, step: Step, id: nat)
    requires Inv(Running(d, h, m)) && RunningEnabled(d, m, step) && !step.CrashStep? && Barred(m, id)
    ensures StateBars(NextRunning(d, h, m, step), id)
  {
    if IsBackgroundStep(step) {
      BackgroundBars(d, h, m, step, id);
    } else if step.RoomStep? || step.PublishStep? {
      ServingBars(d, h, m, step, id);
    } else if step.AddRecordStep? || step.SyncStep? || step.InsertStep? {
      GroupStepBars(d, h, m, step, id);
    } else {
      OtherStepBars(d, h, m, step, id);
    }
  }

  lemma {:induction false} RunStepBars(states: seq<State>, steps: seq<Step>, i: nat, id: nat)
    requires IsRun(states, steps) && i < |steps| && StateBars(states[i], id) && states[i + 1].Running?
    ensures StateBars(states[i + 1], id)
  {
    RunKeeps(states, steps, i);
    assert StepTaken(states, steps, i);
    StepBars(states[i].disk, states[i].hist, states[i].m, steps[i], id);
  }

  lemma {:induction false} StaysBarred(states: seq<State>, steps: seq<Step>, i: nat, j: nat, id: nat)
    requires IsRun(states, steps) && i <= j < |states| && StateBars(states[i], id)
    requires forall x :: i <= x <= j ==> states[x].Running?
    ensures StateBars(states[j], id)
  {
    if i == j {
    } else {
      StaysBarred(states, steps, i, j - 1, id);
      RunStepBars(states, steps, j - 1, id);
    }
  }

  /** Over a run: once the error flag is set, no write succeeds while the database stays open,
    neither one still in the queue nor one that comes later; only the group already under way
    may still end well. */
  lemma {:induction false} ErrorStopsWrites(states: seq<State>, steps: seq<Step>, i: nat, j: nat, id: nat)
    requires IsRun(states, steps) && i <= j < |states| && forall x :: i <= x <= j ==> states[x].Running?
    requires states[i].m.bgError && id !in states[i].m.results
    requires HasGroup(states[i].m.leader) ==>
               forall w :: w in states[i].m.leader.group.writers ==> w.id != id
    ensures id in states[j].m.results ==> !states[j].m.results[id]
  {
    StaysBarred(states, steps, i, j, id);
  }

  /** And after a failed sync none at all: what its group appended may or may not be in the log. */
  lemma {:induction false} FailedSyncStopsWrites(states: seq<State>, steps: seq<Step>, i: nat, j: nat, id: nat)
    requires IsRun(states, steps) && i < j < |states| && forall x :: i <= x <= j ==> states[x].Running?
    requires steps[i] == SyncStep(false) && id !in states[i].m.results
    ensures id in states[j].m.results ==> !states[j].m.results[id]
  {
    assert StepTaken(states, steps, i);
    StaysBarred(states, steps, i + 1, j, id);
  }

  // Errors of the background thread.

  /** What the background thread reports as failed: the table of a flush, a manifest record, a
    compaction. */
  predicate ReportsFailure(m: Memory, step: Step) {
    || (step.FlushApplyStep? && m.bg.BgBuilt? && (!m.bg.ok || m.shuttingDown))
    || (step.InstallStep? && m.bg.BgWritten? && !m.bg.ok)
    || step.JobFailStep?
  }

  lemma {:induction false} InstallRecords(d: Disk, h: History, m: Memory, needs: bool)
    requires m.bg.BgWritten? && !m.bg.ok
    ensures Install(d, h, m, needs).2.bgError
  {
    var x := RecordBackgroundError(m);
    ErrorWakes(m);
    AfterFlushWakes(x, needs);
    EndCallWakes(x, needs);
    EndCallWakes(DropJob(x), needs);
  }

  lemma {:induction false} FlushRecords(d: Disk, m: Memory, level: nat, needs: bool)
    requires m.bg.BgBuilt? && (!m.bg.ok || m.shuttingDown)
    ensures FlushApply(m, level, needs).bgError
  {
    var x := RecordBackgroundError(m.(pending := m.pending - {m.bg.file}));
    ErrorWakes(m.(pending := m.pending - {m.bg.file}));
    AfterFlushWakes(x, needs);
  }

  lemma {:induction false} JobRecords(d: Disk, m: Memory, needs: bool)
    ensures JobFail(d, m, needs).1.bgError
  {
    ErrorWakes(m);
    EndCallWakes(DropJob(RecordBackgroundError(m)), needs);
  }

  /** None of these goes unrecorded, so that what is in doubt is not built upon. */
  lemma {:induction false} FailuresAreRecorded(d: Disk, h: History, m: Memory, step: Step)
    requires RunningEnabled(d, m, step) && ReportsFailure(m, step)
    ensures NextRunning(d, h, m, step).Running? && NextRunning(d, h, m, step).m.bgError
  {
    match step
    case FlushApplyStep(level, needs) => FlushRecords(d, m, level, needs);
    case InstallStep(needs) => InstallRecords(d, h, m, needs);
    case JobFailStep(needs) => JobRecords(d, m, needs);
  }

  // No more background work.

  /** The database has stopped: an error stands or it shuts down, and no call is running. */
  predicate Stopped(m: Memory) {
    (m.bgError || m.shuttingDown) && m.bg.BgIdle?
  }

  ghost predicate StateStopped(s: State) {
    s.Running? && Stopped(s.m)
  }

  lemma {:induction false} BeginStops(d: Disk, m: Memory, pick: Pick, needs: bool)
    requires m.queued > 0 && PickAllowed(d, m, pick) && Stopped(m)
    ensures Stopped(BeginCall(d, m, pick, needs))
  {
    EndCallWakes(m.(queued := m.queued - 1), needs);
  }

  lemma {:induction false} CallStops(d: Disk, h: History, m: Memory, step: Step)
    requires RunningEnabled(d, m, step) && IsBackgroundStep(step) && Stopped(m)
    ensures StateStopped(NextRunning(d, h, m, step))
  {
    BeginStops(d, m, step.pick, step.needs);
  }

  lemma {:induction false} RoomStops(d: Disk, m: Memory, memFull: bool, newLogOk: bool, needs: bool)
    requires m.leader.MakingRoom? && m.writers != [] && Stopped(m)
    ensures Stopped(Room(d, m, memFull, newLogOk, needs).1)
  {
    RoomEnds(d, m, memFull, newLogOk, needs);
    ScheduleWakes(Rotated(m), needs);
  }

  lemma {:induction false} ClientStops(d: Disk, h: History, m: Memory, step: Step)
    requires RunningEnabled(d, m, step) && !IsBackgroundStep(step) && !step.RoomStep? && !step.CrashStep? && Stopped(m)
    ensures StateStopped(NextRunning(d, h, m, step))
  {
  }

  lemma {:induction false} StepStops(d: Disk, h: History, m: Memory, step: Step)
    requires RunningEnabled(d, m, step) && !step.CrashStep? && Stopped(m)
    ensures StateStopped(NextRunning(d, h, m, step))
  {
    if IsBackgroundStep(step) {
      CallStops(d, h, m, step);
    } else if step.RoomStep? {
      RoomStops(d, m, step.memFull, step.newLogOk, step.needs);
    } else {
      ClientStops(d, h, m, step);
    }
  }

  /** Over a run: after an error, as after shutting down, nothing is flushed or compacted any more
    once the call under way has ended. */
  lemma {:induction false} StoppedForGood(states: seq<State>, steps: seq<Step>, i: nat, j: nat)
    requires IsRun(states, steps) && i <= j < |states| && StateStopped(states[i])
    requires forall x :: i <= x <= j ==> states[x].Running?
    ensures StateStopped(states[j])
  {
    if i == j {
    } else {
      StoppedForGood(states, steps, i, j - 1);
      assert StepTaken(states, steps, j - 1);
      StepStops(states[j - 1].disk, states[j - 1].hist, states[j - 1].m, steps[j - 1]);
    }
  }
}
