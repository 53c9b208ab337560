/** The invariant holds in every state of every run. */
module DbSafety {
  import opened DbState
  import opened DbSteps
  import opened DbInvariant
  import opened DbProofBackground
  import opened DbProofWriters
  import opened DbProofManifest
  import opened DbProofInstall
  import opened DbProofReads
  import opened DbProofRecovery

  predicate IsWriterStep(step: Step) {
    step.Enqueue? || step.StartLeader? || step.RoomStep? || step.AddRecordStep? || step.SyncStep? || step.InsertStep?
    || step.PublishStep?
  }

  predicate IsBackgroundStep(step: Step) {
    step.BeginCallStep? || step.BuildStep? || step.FlushApplyStep? || step.ManifestStep? || step.InstallStep?
    || step.JobFlushStep? || step.JobOpenStep? || step.JobFinishStep? || step.JobApplyStep? || step.JobFailStep?
  }

  lemma {:induction false} WriterStepKeeps(d: Disk, h: History, m: Memory, step: Step)
    requires Inv(Running(d, h, m)) && RunningEnabled(d, m, step) && IsWriterStep(step)
    ensures Inv(NextRunning(d, h, m, step))
  {
    match step
    case Enqueue(w) => EnqueueKeeps(d, h, m, w);
    case StartLeader => LeaderMoves(d, h, m, MakingRoom(m.writers[0].batch.None?, m.writers[0].batch.Some?));
    case RoomStep(memFull, newLogOk, needs) => RoomKeeps(d, h, m, memFull, newLogOk, needs);
    case AddRecordStep(ok, durable) =>
      if durable {
        AppendKeepsDisk(d, h, m);
        AppendKeeps(d, h, m, ok);
      } else {
        AppendFailsKeeps(d, h, m);
      }
    case SyncStep(ok) => SyncKeeps(d, h, m, ok);
    case InsertStep => InsertKeeps(d, h, m);
    case PublishStep => PublishKeeps(d, h, m);
  }

  predicate IsCompactionStep(step: Step) {
    step.JobFlushStep? || step.JobOpenStep? || step.JobFinishStep? || step.JobApplyStep? || step.JobFailStep?
  }

  lemma {:induction false} CompactionStepKeeps(d: Disk, h: History, m: Memory, step: Step)
    requires Inv(Running(d, h, m)) && RunningEnabled(d, m, step) && IsCompactionStep(step)
    ensures Inv(NextRunning(d, h, m, step))
  {
    match step
    case JobFlushStep => StartFlushKeeps(d, h, m, m);
    case JobOpenStep => JobOpenKeeps(d, h, m);
    case JobFinishStep(chunk) => JobFinishKeeps(d, h, m, chunk);
    case JobApplyStep => JobApplyKeeps(d, h, m);
    case JobFailStep(needs) => JobFailKeeps(d, h, m, needs);
  }

  lemma {:induction false} CallStepKeeps(d: Disk, h: History, m: Memory, step: Step)
    requires Inv(Running(d, h, m)) && RunningEnabled(d, m, step) && IsBackgroundStep(step) && !IsCompactionStep(step)
    ensures Inv(NextRunning(d, h, m, step))
  {
    match step
    case BeginCallStep(pick, needs) => BeginCallKeeps(d, h, m, pick, needs);
    case BuildStep(ok) => BuildTableKeeps(d, h, m, ok);
    case FlushApplyStep(level, needs) => FlushApplyKeeps(d, h, m, level, needs);
    case ManifestStep(ok, durable) => WriteManifestKeeps(d, h, m, ok, durable);
    case InstallStep(needs) => InstallKeeps(d, h, m, needs);
  }

  lemma {:induction false} ReadStepKeeps(d: Disk, h: History, m: Memory, step: Step)
    requires Inv(Running(d, h, m)) && RunningEnabled(d, m, step)
    requires !IsWriterStep(step) && !IsBackgroundStep(step)
    ensures Inv(NextRunning(d, h, m, step))
  {
    match step
    case GetSnapshotStep => GetSnapshotKeeps(d, h, m);
    case ReleaseSnapshotStep(i) => ReleaseSnapshotKeeps(d, h, m, i);
    case BeginReadStep(id, index) =>
      assert Holds(PSnapshots, d, h, m);
      BeginReadKeeps(d, h, m, id, if index.Some? then m.snapshots[index.value] else m.versions.lastSequence);
    case EndReadStep(id, schedule, needs) => EndReadKeeps(d, h, m, id, schedule, needs);
    case ShutDownStep => ShutDownKeeps(d, h, m);
    case CrashStep =>
  }

  /** Every step keeps the invariant. */
  lemma {:induction false} NextKeeps(s: State, step: Step)
    requires Inv(s) && Enabled(s, step)
    ensures Inv(Next(s, step))
  {
    match s
    case Running(d, h, m) =>
      if IsWriterStep(step) {
        WriterStepKeeps(d, h, m, step);
      } else if IsBackgroundStep(step) {
        if IsCompactionStep(step) {
          CompactionStepKeeps(d, h, m, step);
        } else {
          CallStepKeeps(d, h, m, step);
        }
      } else {
        ReadStepKeeps(d, h, m, step);
      }
    case Closed(d, h) =>
      match step {
        case LeftoverStep(f, es) => LeftoverKeeps(d, h, f, es);
        case BeginRecoveryStep(todo, newManifest) => BeginRecoveryKeeps(d, h, todo, newManifest);
      }
    case Recovering(d, h, rec) =>
      match step {
        case CrashStep =>
        case RecoverLogStep(chunks, reuse) => RecoverLogKeeps(d, h, rec, chunks, reuse);
        case OpenLogStep => OpenLogKeeps(d, h, rec);
        case OpenCommitStep(ok, durable, needs) => OpenCommitKeeps(d, h, rec, ok, durable, needs);
      }
  }

  /** Every state of every run satisfies the invariant: steps of writers, of the
    background thread and of readers may interleave, and crashes may strike, at will. */
  lemma {:induction false} RunKeeps(states: seq<State>, steps: seq<Step>, i: nat)
    requires IsRun(states, steps) && i < |states|
    ensures Inv(states[i])
  {
    if i == 0 {
      InitKeeps();
    } else {
      RunKeeps(states, steps, i - 1);
      assert StepTaken(states, steps, i - 1);
      NextKeeps(states[i - 1], steps[i - 1]);
    }
  }
}
