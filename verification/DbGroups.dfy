/** Group commit and background scheduling: who is served with whom, who is told what, and
  why nobody waits for ever. */
module DbGroups {
  import opened Entries
  import opened DbState
  import opened DbSteps
  import opened DbInvariant
  import opened DbProofBackground
  import opened DbProofWriters
  import opened DbSafety
  import opened DbTheorems

  // The shape of a group.

  /** Operations of the first n writers. */
  function OpsBefore(ws: seq<Writer>, n: nat): nat
    requires n <= |ws|
  {
    if n == 0 then 0 else OpsBefore(ws, n - 1) + |ws[n - 1].batch.GetOr([])|
  }

  lemma {:induction false} OpsBeforeFront(ws: seq<Writer>, front: seq<Writer>, n: nat)
    requires |front| <= |ws| && front == ws[..|front|] && n <= |front|
    ensures OpsBefore(front, n) == OpsBefore(ws, n)
  {
    if n == 0 {
    } else {
      OpsBeforeFront(ws, front, n - 1);
    }
  }

  /** The group's batch is the members' batches in queue order: member i's operations stand
    right after those of the members before it. */
  lemma {:induction false} BatchIsInOrder(ws: seq<Writer>, i: nat)
    requires i < |ws|
    ensures OpsBefore(ws, i + 1) <= |OpsOf(ws)| == OpsBefore(ws, |ws|)
    ensures OpsBefore(ws, i) <= OpsBefore(ws, i + 1)
    ensures OpsOf(ws)[OpsBefore(ws, i)..OpsBefore(ws, i + 1)] == ws[i].batch.GetOr([])
  {
    var front, last := ws[..|ws| - 1], ws[|ws| - 1];
    if front == [] {
      assert OpsOf(front) == [];
    } else if i < |front| {
      BatchIsInOrder(front, i);
      OpsBeforeFront(ws, front, i);
      OpsBeforeFront(ws, front, i + 1);
    } else {
      BatchIsInOrder(front, |front| - 1);
    }
    OpsBeforeFront(ws, front, |front|);
  }

  lemma {:induction false} JoinedFit(ws: seq<Writer>, k: nat)
    requires 0 < k <= |ws| && ws[0].batch.Some? && forall i :: 1 <= i < k ==> Joins(ws, i)
    ensures BytesOf(ws, k) == ws[0].size
            || BytesOf(ws, k) <= (if ws[0].size <= 0x2_0000 then ws[0].size + 0x2_0000 else 0x10_0000)
  {
    if k == 1 {
      assert BytesOf(ws, 0) == 0;
    } else {
      JoinedFit(ws, k - 1);
      assert Joins(ws, k - 1);
    }
  }

  lemma {:induction false} BytesOfFront(ws: seq<Writer>, front: seq<Writer>, n: nat)
    requires |front| <= |ws| && front == ws[..|front|] && n <= |front|
    ensures BytesOf(front, n) == BytesOf(ws, n)
  {
    if n == 0 {
    } else {
      BytesOfFront(ws, front, n - 1);
    }
  }

  /** A group holds at most 128 KB besides its leader's own batch, or a megabyte in all if that
    batch is larger than 128 KB; only a leader's batch on its own may be larger. It ends at the end
    of the queue, before a sync write that its leader does not ask for, or before a batch that
    would take it over this limit. */
  lemma {:induction false} GroupFits(ws: seq<Writer>, first: nat)
    requires ws != [] && ws[0].batch.Some?
    ensures var g := BuildGroup(ws, first).writers;
            var limit := if ws[0].size <= 0x2_0000 then ws[0].size + 0x2_0000 else 0x10_0000;
            && 0 < |g| <= |ws| && g == ws[..|g|]
            && (BytesOf(g, |g|) == ws[0].size || BytesOf(g, |g|) <= limit)
            && (|g| < |ws| ==>
                  || (ws[|g|].sync && !ws[0].sync)
                  || (ws[|g|].batch.Some? && BytesOf(g, |g|) + ws[|g|].size > limit))
  {
    var g := BuildGroup(ws, first).writers;
    JoinedFit(ws, |g|);
    BytesOfFront(ws, g, |g|);
  }

  // What the groups promise.

  /** The finished groups' sequence ranges are disjoint and increasing, and each group still
    agrees with what its members were told. */
  lemma {:induction false} GroupsAreDisjoint(d: Disk, h: History, m: Memory, i: nat, j: nat)
    requires Inv(Running(d, h, m)) && i < j < |m.groups|
    ensures Below(Batch(m.groups[i].first, m.groups[i].ops), Batch(m.groups[j].first, m.groups[j].ops))
  {
    assert Holds(PGroups, d, h, m);
  }

  /** A writer is told its own group's status; a sync write is told OK only if its leader
    has synced the log, and a leader that did not ask for it has not. */
  lemma {:induction false} StatusIsGroups(d: Disk, h: History, m: Memory, i: nat, j: nat)
    requires Inv(Running(d, h, m)) && i < |m.groups| && j < |m.groups[i].writers|
    ensures var g := m.groups[i];
            var w := g.writers[j];
            && w.id in m.results && m.results[w.id] == g.ok
            && (w.sync && m.results[w.id] ==> g.synced)
            && (g.ok && g.synced ==> g.writers[0].sync)
  {
    assert Holds(PGroups, d, h, m);
    var g := m.groups[i];
    assert GroupOk(g);
  }

  /** Publishing finishes the group's members, each for the first time, and no one else. */
  lemma {:induction false} PublishFinishes(d: Disk, h: History, m: Memory, id: nat)
    requires Inv(Running(d, h, m)) && ReadyToPublish(m)
    ensures var m1 := Publish(h, m).1;
            var g := m.leader.group;
            && (Named(g.writers, id) ==> id !in m.results && id in m1.results && m1.results[id] == m.leader.Inserting?)
            && (!Named(g.writers, id) ==> (id in m1.results <==> id in m.results))
            && (id in m.results ==> m1.results[id] == m.results[id])
            && m1.writers == m.writers[|g.writers|..]
            && g.writers == m.writers[..|g.writers|]
  {
    assert Holds(PQueue, d, h, m);
    PublishIs(h, m);
    PopFinishes(m, |m.leader.group.writers|, m.leader.Inserting?);
  }

  // Exactly once.

  /** Results given stand; only queued writers get one; and a writer leaves the queue exactly
    when it gets one. */
  ghost predicate Answers(before: seq<Writer>, results: map<nat, bool>, after: seq<Writer>, later: map<nat, bool>) {
    && (forall id :: id in results ==> id in later && later[id] == results[id])
    && (forall id :: id in later ==> id in results || Named(before, id))
    && forall id :: Named(before, id) ==> (Named(after, id) <==> id !in later)
  }

  lemma {:induction false} SplitNamed(ws: seq<Writer>, n: nat, id: nat)
    requires n <= |ws|
    ensures Named(ws, id) <==> Named(ws[..n], id) || Named(ws[n..], id)
    ensures DistinctIds(ws) ==> !(Named(ws[..n], id) && Named(ws[n..], id))
  {
    if Named(ws, id) {
      var i :| 0 <= i < |ws| && ws[i].id == id;
      assert if i < n then ws[..n][i].id == id else ws[n..][i - n].id == id;
    }
    if Named(ws[n..], id) {
      var i :| 0 <= i < |ws[n..]| && ws[n..][i].id == id;
      assert ws[n + i].id == id;
    }
  }

  lemma {:induction false} PopAnswers(m: Memory, n: nat, ok: bool)
    requires QueueOk(m.writers, m.results, m.leader) && n <= |m.writers|
    ensures Answers(m.writers, m.results, PopWriters(m, n, ok).writers, PopWriters(m, n, ok).results)
  {
    PopFinishes(m, n, ok);
    forall id
      ensures Named(m.writers, id) ==> (Named(m.writers[n..], id) <==> id !in PopWriters(m, n, ok).results)
    {
      SplitNamed(m.writers, n, id);
      QueuedIsUnanswered(m, id);
    }
    forall id
      ensures Named(m.writers[..n], id) ==> Named(m.writers, id)
    {
      SplitNamed(m.writers, n, id);
    }
  }

  lemma {:induction false} QueuedIsUnanswered(m: Memory, id: nat)
    requires QueueOk(m.writers, m.results, m.leader)
    ensures Named(m.writers, id) ==> id !in m.results
  {
  }

  lemma {:induction false} NothingAnswered(m: Memory)
    requires QueueOk(m.writers, m.results, m.leader)
    ensures Answers(m.writers, m.results, m.writers, m.results)
  {
    forall id
      ensures Named(m.writers, id) ==> id !in m.results
    {
      QueuedIsUnanswered(m, id);
    }
  }

  lemma {:induction false} EnqueueAnswers(m: Memory, w: Writer)
    requires QueueOk(m.writers, m.results, m.leader)
    ensures Answers(m.writers, m.results, m.writers + [w], m.results)
  {
    NothingAnswered(m);
    forall id | Named(m.writers, id)
      ensures Named(m.writers + [w], id)
    {
      var i :| 0 <= i < |m.writers| && m.writers[i].id == id;
      assert (m.writers + [w])[i].id == id;
    }
  }

  /** Nobody is popped, or the first writer is. */
  ghost predicate PopsOne(m: Memory, m1: Memory)
    requires m.writers != []
  {
    || (m1.writers == m.writers && m1.results == m.results)
    || (m1.writers == m.writers[1..]
        && (m1.results == MarkDone(m.results, m.writers[..1], true)
            || m1.results == MarkDone(m.results, m.writers[..1], false)))
  }

  lemma {:induction false} PopOnePops(m: Memory, ok: bool)
    requires m.writers != []
    ensures PopsOne(m, PopWriters(m, 1, ok))
  {
  }

  lemma {:induction false} SwitchPopsNone(m: Memory, needs: bool)
    requires m.leader.MakingRoom? && m.writers != []
    ensures PopsOne(m, MaybeSchedule(Rotated(m), needs))
  {
    ScheduleWakes(Rotated(m), needs);
  }

  /** A pass of MakeRoomForWrite pops one writer or none. */
  lemma {:induction false} RoomPops(d: Disk, m: Memory, memFull: bool, newLogOk: bool, needs: bool)
    requires m.leader.MakingRoom? && m.writers != []
    ensures PopsOne(m, Room(d, m, memFull, newLogOk, needs).1)
  {
    RoomEnds(d, m, memFull, newLogOk, needs);
    PopOnePops(m, true);
    PopOnePops(m, false);
    SwitchPopsNone(m, needs);
  }

  lemma {:induction false} RoomAnswers(d: Disk, h: History, m: Memory, memFull: bool, newLogOk: bool, needs: bool)
    requires Inv(Running(d, h, m)) && m.leader.MakingRoom? && m.writers != []
    ensures var m1 := Room(d, m, memFull, newLogOk, needs).1; Answers(m.writers, m.results, m1.writers, m1.results)
  {
    assert Holds(PQueue, d, h, m);
    RoomPops(d, m, memFull, newLogOk, needs);
    PopAnswers(m, 1, true);
    PopAnswers(m, 1, false);
    NothingAnswered(m);
  }

  lemma {:induction false} PublishAnswers(d: Disk, h: History, m: Memory)
    requires Inv(Running(d, h, m)) && ReadyToPublish(m)
    ensures Answers(m.writers, m.results, Publish(h, m).1.writers, Publish(h, m).1.results)
  {
    assert Holds(PQueue, d, h, m);
    PopAnswers(m, |m.leader.group.writers|, m.leader.Inserting?);
  }

  predicate Serves(step: Step) {
    step.Enqueue? || step.RoomStep? || step.PublishStep?
  }

  ghost predicate ServesNone(m: Memory, s1: State) {
    s1.Running? && s1.m.writers == m.writers && s1.m.results == m.results
  }

  /** No writer is served and no reader disturbed; a waiting leader may be woken, and an error
    recorded but not taken back. */
  predicate LeavesClients(m: Memory, m1: Memory) {
    && m1.writers == m.writers && m1.results == m.results && (m.bgError ==> m1.bgError)
    && m1.readers == m.readers && m1.snapshots == m.snapshots
    && (m1.leader == m.leader
        || (m.leader.WaitingForRoom? && m1.leader == MakingRoom(m.leader.force, m.leader.allowDelay)))
  }

  ghost predicate StateLeavesClients(m: Memory, s1: State) {
    s1.Running? && LeavesClients(m, s1.m)
  }

  lemma {:induction false} OtherWriterStepServesNone(d: Disk, h: History, m: Memory, step: Step)
    requires RunningEnabled(d, m, step) && !IsBackgroundStep(step) && !Serves(step) && !step.CrashStep?
    ensures ServesNone(m, NextRunning(d, h, m, step))
  {
  }

  /** What the parts of a step do after x, in which nobody has been served yet. */
  lemma {:induction false} EndLeaves(m: Memory, x: Memory, needs: bool)
    requires LeavesClients(m, x)
    ensures LeavesClients(m, EndCall(x, needs)) && LeavesClients(m, AfterFlush(x, needs))
  {
    EndCallWakes(x, needs);
    AfterFlushWakes(x, needs);
  }

  lemma {:induction false} DropLeaves(m: Memory, x: Memory)
    requires LeavesClients(m, x)
    ensures LeavesClients(m, DropJob(x))
  {
  }

  lemma {:induction false} ErrorLeaves(m: Memory, x: Memory)
    requires LeavesClients(m, x)
    ensures LeavesClients(m, RecordBackgroundError(x))
  {
    ErrorWakes(x);
  }

  lemma {:induction false} InstallFlushServesNone(d: Disk, h: History, m: Memory, needs: bool)
    requires m.bg.BgWritten? && m.bg.edit.kind.FlushEdit?
    ensures LeavesClients(m, Install(d, h, m, needs).2)
  {
    if m.bg.ok {
      EndLeaves(m, InstallVersion(m, m.bg.edit).(imm := None), needs);
    } else {
      ErrorLeaves(m, m);
      EndLeaves(m, RecordBackgroundError(m), needs);
    }
  }

  lemma {:induction false} InstallCompactionServesNone(d: Disk, h: History, m: Memory, needs: bool)
    requires m.bg.BgWritten? && m.bg.edit.kind.CompactionEdit?
    ensures LeavesClients(m, Install(d, h, m, needs).2)
  {
    var x := if m.bg.ok then InstallVersion(m, m.bg.edit) else RecordBackgroundError(m);
    ErrorLeaves(m, m);
    DropLeaves(m, x);
    EndLeaves(m, DropJob(x), needs);
  }

  lemma {:induction false} InstallMoveServesNone(d: Disk, h: History, m: Memory, needs: bool)
    requires m.bg.BgWritten? && m.bg.edit.kind.MoveEdit?
    ensures LeavesClients(m, Install(d, h, m, needs).2)
  {
    var x := if m.bg.ok then InstallVersion(m, m.bg.edit) else RecordBackgroundError(m);
    ErrorLeaves(m, m);
    EndLeaves(m, x, needs);
  }

  lemma {:induction false} InstallServesNone(d: Disk, h: History, m: Memory, needs: bool)
    requires m.bg.BgWritten?
    ensures LeavesClients(m, Install(d, h, m, needs).2)
  {
    match m.bg.edit.kind
    case FlushEdit => InstallFlushServesNone(d, h, m, needs);
    case CompactionEdit => InstallCompactionServesNone(d, h, m, needs);
    case MoveEdit => InstallMoveServesNone(d, h, m, needs);
  }

  lemma {:induction false} BeginCallServesNone(d: Disk, m: Memory, pick: Pick, needs: bool)
    requires m.queued > 0 && PickAllowed(d, m, pick)
    ensures LeavesClients(m, BeginCall(d, m, pick, needs))
  {
    EndCallWakes(m.(queued := m.queued - 1), needs);
  }

  lemma {:induction false} FailuresServeNone(d: Disk, m: Memory, level: nat, needs: bool)
    ensures LeavesClients(m, JobFail(d, m, needs).1)
    ensures m.bg.BgBuilt? ==> LeavesClients(m, FlushApply(m, level, needs))
  {
    ErrorLeaves(m, m);
    DropLeaves(m, RecordBackgroundError(m));
    EndLeaves(m, DropJob(RecordBackgroundError(m)), needs);
    if m.bg.BgBuilt? {
      var m1 := m.(pending := m.pending - {m.bg.file});
      ErrorLeaves(m, m1);
      EndLeaves(m, RecordBackgroundError(m1), needs);
    }
  }

  /** The steps that begin or end a call, or part of it. */
  predicate IsTurn(step: Step) {
    step.BeginCallStep? || step.FlushApplyStep? || step.InstallStep? || step.JobFailStep?
  }

  lemma {:induction false} TurnServesNone(d: Disk, h: History, m: Memory, step: Step)
    requires RunningEnabled(d, m, step) && IsTurn(step)
    ensures StateLeavesClients(m, NextRunning(d, h, m, step))
  {
    match step
    case BeginCallStep(pick, needs) => BeginCallServesNone(d, m, pick, needs);
    case FlushApplyStep(level, needs) => FailuresServeNone(d, m, level, needs);
    case InstallStep(needs) => InstallServesNone(d, h, m, needs);
    case JobFailStep(needs) => FailuresServeNone(d, m, 0, needs);
  }

  lemma {:induction false} JobStepServesNone(d: Disk, h: History, m: Memory, step: Step)
    requires RunningEnabled(d, m, step) && IsJobStep(step)
    ensures StateLeavesClients(m, NextRunning(d, h, m, step))
  {
    JobStepMoves(d, h, m, step);
  }

  lemma {:induction false} BackgroundServesNone(d: Disk, h: History, m: Memory, step: Step)
    requires RunningEnabled(d, m, step) && IsBackgroundStep(step)
    ensures StateLeavesClients(m, NextRunning(d, h, m, step))
  {
    if IsJobStep(step) {
      JobStepServesNone(d, h, m, step);
    } else {
      TurnServesNone(d, h, m, step);
    }
  }

  ghost predicate StateAnswers(m: Memory, s1: State) {
    s1.Running? && Answers(m.writers, m.results, s1.m.writers, s1.m.results)
  }

  lemma {:induction false} ServingAnswers(d: Disk, h: History, m: Memory, step: Step)
    requires Inv(Running(d, h, m)) && RunningEnabled(d, m, step) && Serves(step)
    ensures StateAnswers(m, NextRunning(d, h, m, step))
  {
    match step
    case Enqueue(w) =>
      assert Holds(PQueue, d, h, m);
      EnqueueAnswers(m, w);
    case RoomStep(memFull, newLogOk, needs) => RoomAnswers(d, h, m, memFull, newLogOk, needs);
    case PublishStep => PublishAnswers(d, h, m);
  }

  lemma {:induction false} OthersAnswer(d: Disk, h: History, m: Memory, step: Step)
    requires QueueOk(m.writers, m.results, m.leader) && RunningEnabled(d, m, step)
    requires !Serves(step) && !step.CrashStep?
    ensures StateAnswers(m, NextRunning(d, h, m, step))
  {
    NothingAnswered(m);
    if IsBackgroundStep(step) {
      BackgroundServesNone(d, h, m, step);
    } else {
      OtherWriterStepServesNone(d, h, m, step);
    }
  }

  /** Exactly once, step by step: whoever pops, results stand, and a writer is answered
    exactly when it leaves the queue. */
  lemma {:induction false} StepAnswers(d: Disk, h: History, m: Memory, step: Step)
    requires Inv(Running(d, h, m)) && RunningEnabled(d, m, step) && !step.CrashStep?
    ensures StateAnswers(m, NextRunning(d, h, m, step))
  {
    if Serves(step) {
      ServingAnswers(d, h, m, step);
    } else {
      assert Holds(PQueue, d, h, m);
      OthersAnswer(d, h, m, step);
    }
  }

  lemma {:induction false} RunAnswers(states: seq<State>, steps: seq<Step>, i: nat)
    requires IsRun(states, steps) && i < |steps| && states[i].Running? && states[i + 1].Running?
    ensures Answers(states[i].m.writers, states[i].m.results, states[i + 1].m.writers, states[i + 1].m.results)
  {
    RunKeeps(states, steps, i);
    assert StepTaken(states, steps, i);
    StepAnswers(states[i].disk, states[i].hist, states[i].m, steps[i]);
  }

  /** Over a run: while the database stays open, a result never changes once given, and a
    writer that has one is never in the queue again. */
  lemma {:induction false} ResultsStand(states: seq<State>, steps: seq<Step>, i: nat, j: nat, id: nat)
    requires IsRun(states, steps) && i <= j < |states| && states[i].Running? && states[j].Running?
    requires forall x :: i <= x <= j ==> states[x].Running?
    requires id in states[i].m.results
    ensures id in states[j].m.results && states[j].m.results[id] == states[i].m.results[id]
    ensures !Named(states[j].m.writers, id)
  {
    RunKeeps(states, steps, j);
    assert Holds(PQueue, states[j].disk, states[j].hist, states[j].m);
    if i == j {
    } else {
      ResultsStand(states, steps, i, j - 1, id);
      RunAnswers(states, steps, j - 1);
    }
    QueuedIsUnanswered(states[j].m, id);
  }

  // Scheduling.

  /** At most one background call is outstanding, and exactly one whenever there is a full
    memtable to flush or too many level-0 files, unless an error or a shutdown stops it. */
  lemma {:induction false} OneBackgroundCall(d: Disk, h: History, m: Memory)
    requires Inv(Running(d, h, m))
    ensures m.queued + (if m.bg.BgIdle? then 0 else 1) <= 1
    ensures WorkToDo(m.imm, m.versions.files) && !m.bgError && !m.shuttingDown ==>
              m.queued + (if m.bg.BgIdle? then 0 else 1) == 1
  {
    assert Holds(PSchedule, d, h, m);
  }

  /** A compaction has entries to write, a file to write them to, or all it needs to be
    installed. */
  function JobStep(job: Job): Step {
    if job.remaining == {} then JobApplyStep
    else if job.open.None? then JobOpenStep
    else JobFinishStep(job.remaining)
  }

  /** A step that makes headway: the compaction need not give up. */
  ghost predicate GoesOn(d: Disk, m: Memory, step: Step) {
    IsBackgroundStep(step) && !step.JobFailStep? && RunningEnabled(d, m, step)
  }

  lemma {:induction false} MergingGoesOn(d: Disk, h: History, m: Memory)
    requires Inv(Running(d, h, m)) && m.bg.BgMerging?
    ensures m.job.Some? && GoesOn(d, m, JobStep(m.job.value))
  {
    assert Holds(PBackground, d, h, m);
    assert Holds(PJob, d, h, m);
  }

  lemma {:induction false} OtherCallGoesOn(d: Disk, h: History, m: Memory)
    requires Inv(Running(d, h, m)) && !m.bg.BgMerging? && (m.queued > 0 || !m.bg.BgIdle?)
    ensures exists step :: GoesOn(d, m, step)
  {
    assert Holds(PSchedule, d, h, m);
    assert Holds(PBackground, d, h, m);
    var next := match m.bg
                case BgIdle => BeginCallStep(PickNothing, true)
                case BgBuilding(_) => BuildStep(true)
                case BgBuilt(_, _) => FlushApplyStep(0, true)
                case BgWriting(_) => ManifestStep(true, true)
                case _ => InstallStep(true);
    assert GoesOn(d, m, next);
  }

  /** An outstanding call can always go on, and a compaction without failing. */
  lemma {:induction false} BackgroundCanGoOn(d: Disk, h: History, m: Memory)
    requires Inv(Running(d, h, m)) && (m.queued > 0 || !m.bg.BgIdle?)
    ensures exists step :: GoesOn(d, m, step)
  {
    if m.bg.BgMerging? {
      MergingGoesOn(d, h, m);
    } else {
      OtherCallGoesOn(d, h, m);
    }
  }

  /** The writer at the front of the queue can always take its next step, unless it waits
    for room. */
  lemma {:induction false} LeaderCanGoOn(d: Disk, h: History, m: Memory)
    requires Inv(Running(d, h, m)) && m.writers != [] && !m.leader.WaitingForRoom?
    ensures exists step :: IsWriterStep(step) && !step.Enqueue? && RunningEnabled(d, m, step)
  {
    assert Holds(PQueue, d, h, m);
    assert Holds(PMemtables, d, h, m);
    assert Holds(PSequences, d, h, m);
    var next := match m.leader
                case NoLeader => StartLeader
                case MakingRoom(_, _) => RoomStep(false, true, true)
                case WaitingForRoom(_, _) => StartLeader
                case Logging(_) => AddRecordStep(true, true)
                case Syncing(_) => SyncStep(true)
                case Inserting(g, done) => if done < |g.ops| then InsertStep else PublishStep
                case Failed(_, _) => PublishStep;
    assert IsWriterStep(next) && !next.Enqueue? && RunningEnabled(d, m, next);
  }

  /** A writer that waits for room always has a signaller: unless the database is shutting
    down, a background call is outstanding and can go on. */
  lemma {:induction false} WaiterHasSignaller(d: Disk, h: History, m: Memory)
    requires Inv(Running(d, h, m)) && m.leader.WaitingForRoom? && !m.shuttingDown
    ensures !m.bgError && m.queued + (if m.bg.BgIdle? then 0 else 1) == 1
    ensures exists step :: GoesOn(d, m, step)
  {
    assert Holds(PSchedule, d, h, m);
    BackgroundCanGoOn(d, h, m);
  }

  /** Nobody is left waiting if the call ended, an error was recorded, or imm was freed. */
  predicate Signals(m: Memory, m1: Memory) {
    (m1.bg.BgIdle? || (m1.bgError && !m.bgError) || (m.imm.Some? && m1.imm.None?)) ==> !m1.leader.WaitingForRoom?
  }

  lemma {:induction false} BeginCallSignals(d: Disk, m: Memory, pick: Pick, needs: bool)
    requires m.queued > 0 && PickAllowed(d, m, pick)
    ensures Signals(m, BeginCall(d, m, pick, needs))
  {
    EndCallWakes(m.(queued := m.queued - 1), needs);
  }

  lemma {:induction false} FlushApplySignals(m: Memory, level: nat, needs: bool)
    requires m.bg.BgBuilt?
    ensures Signals(m, FlushApply(m, level, needs))
  {
    var failed := RecordBackgroundError(m.(pending := m.pending - {m.bg.file}));
    SignalWakes(failed.(bg := BgMerging));
    EndCallWakes(failed, needs);
  }

  lemma {:induction false} JobFailSignals(d: Disk, m: Memory, needs: bool)
    ensures Signals(m, JobFail(d, m, needs).1)
  {
    EndCallWakes(DropJob(RecordBackgroundError(m)), needs);
  }

  lemma {:induction false} InstallFlushSignals(d: Disk, h: History, m: Memory, needs: bool)
    requires m.bg.BgWritten? && m.bg.edit.kind.FlushEdit?
    ensures Signals(m, Install(d, h, m, needs).2)
  {
    var x := if m.bg.ok then InstallVersion(m, m.bg.edit).(imm := None) else RecordBackgroundError(m);
    SignalWakes(x.(bg := BgMerging));
    EndCallWakes(x, needs);
  }

  lemma {:induction false} InstallOtherSignals(d: Disk, h: History, m: Memory, needs: bool)
    requires m.bg.BgWritten? && !m.bg.edit.kind.FlushEdit?
    ensures Signals(m, Install(d, h, m, needs).2)
  {
    var x := if m.bg.ok then InstallVersion(m, m.bg.edit) else RecordBackgroundError(m);
    EndCallWakes(if m.bg.edit.kind.CompactionEdit? then DropJob(x) else x, needs);
  }

  lemma {:induction false} InstallSignals(d: Disk, h: History, m: Memory, needs: bool)
    requires m.bg.BgWritten?
    ensures Signals(m, Install(d, h, m, needs).2)
  {
    if m.bg.edit.kind.FlushEdit? {
      InstallFlushSignals(d, h, m, needs);
    } else {
      InstallOtherSignals(d, h, m, needs);
    }
  }

  lemma {:induction false} TurnSignals(d: Disk, h: History, m: Memory, step: Step)
    requires RunningEnabled(d, m, step) && IsTurn(step)
    ensures NextRunning(d, h, m, step).Running? && Signals(m, NextRunning(d, h, m, step).m)
  {
    match step
    case InstallStep(needs) => InstallSignals(d, h, m, needs);
    case BeginCallStep(pick, needs) => BeginCallSignals(d, m, pick, needs);
    case FlushApplyStep(level, needs) => FlushApplySignals(m, level, needs);
    case JobFailStep(needs) => JobFailSignals(d, m, needs);
  }

  /** And the signal comes: whatever ends a background call, frees imm or records an error
    leaves nobody waiting. */
  lemma {:induction false} CallEndsSignal(d: Disk, h: History, m: Memory, step: Step)
    requires RunningEnabled(d, m, step) && IsBackgroundStep(step)
    ensures NextRunning(d, h, m, step).Running? && Signals(m, NextRunning(d, h, m, step).m)
  {
    if IsJobStep(step) {
      JobStepMoves(d, h, m, step);
    } else {
      TurnSignals(d, h, m, step);
    }
  }

  // Snapshots and compactions.

  /** Every snapshot that is live while a compaction runs, and in particular when its result
    is installed, is at least the compaction's smallest snapshot. */
  lemma {:induction false} SnapshotsAboveSmallest(d: Disk, h: History, m: Memory, i: nat)
    requires Inv(Running(d, h, m)) && m.job.Some? && i < |m.snapshots|
    ensures m.job.value.smallest <= m.snapshots[i]
  {
    assert Holds(PSnapshots, d, h, m);
  }
}
