/** Whole runs, with any number of crashes: what is visible stays visible, what is visible
  was written, and a snapshot always reads the same. */
module DbRuns {
  import opened Entries
  import opened DbState
  import opened DbSteps
  import opened DbInvariant
  import opened DbProofWriters
  import opened DbProofRecovery
  import opened DbSafety
  import opened DbTheorems

  /** The committed version, and the logs a recovery would replay over it. */
  ghost function Durable(d: Disk, h: History): set<Entry> {
    h.committed + KeptLogs(d)
  }

  /** The entries readers see, or while the database is closed, would see once it is open. */
  ghost function Seen(s: State): set<Entry> {
    if s.Running? then Published(s.hist, s.m) else Durable(s.disk, s.hist)
  }

  /** The tables the manifest names, and the logs it keeps: all that a recovery has to go by. */
  ghost function OnDisk(d: Disk): set<Entry> {
    Union(d.tables, d.manifest.files.Keys) + KeptLogs(d)
  }

  /** What compactions have dropped, no read from the floor on misses: the disk answers it as if
    all committed entries were still there. */
  lemma {:induction false} DiskAnswers(d: Disk, h: History)
    requires DiskInv(d, h)
    ensures SameFrom(h.floor, OnDisk(d), Durable(d, h))
  {
    assert DiskHolds(PManifestTables, d, h);
    assert DiskHolds(PManifestTop, d, h);
    assert DiskHolds(PHistory, d, h);
    LogsMonotone(d.logs, 0, d.manifest.logNumber);
    SameFromTop(h.floor, Union(d.tables, d.manifest.files.Keys), h.committed, KeptLogs(d));
  }

  /** All that is live is also durable, so a crash loses none of it. */
  lemma {:induction false} LiveIsDurable(d: Disk, h: History, m: Memory)
    requires Inv(Running(d, h, m))
    ensures Live(h, m) <= Durable(d, h)
  {
    assert Holds(PMemtables, d, h, m);
    assert Holds(PSync, d, h, m);
    LogWithin(d.logs, m.mem, d.manifest.logNumber);
    forall e | e in ImmContents(m)
      ensures e in Durable(d, h)
    {
      ImmIsDurable(d, h, m, e);
    }
  }

  /** imm is either committed or its log is still kept. */
  lemma {:induction false} ImmIsDurable(d: Disk, h: History, m: Memory, e: Entry)
    requires Inv(Running(d, h, m)) && e in ImmContents(m)
    ensures e in Durable(d, h)
  {
    assert Holds(PRetired, d, h, m);
    assert Holds(PMemtables, d, h, m);
    if d.manifest.logNumber <= m.imm.value {
      LogWithin(d.logs, m.imm.value, d.manifest.logNumber);
    }
  }

  /** What reads are answered from: the live entries, or while the database is closed, what is
    on disk. */
  ghost function Shown(s: State): set<Entry> {
    if s.Running? then Published(s.hist, s.m) else OnDisk(s.disk)
  }

  // One step.

  /** Ghost updates of the two histories: a durable append logs a group, publishing a
    group that was inserted acknowledges it. */
  ghost function NewlyLogged(s: State, step: Step): set<Entry> {
    if s.Running? && s.m.leader.Logging? && step.AddRecordStep? && step.durable
    then Batch(s.m.leader.group.first, s.m.leader.group.ops) else {}
  }

  ghost function NewlyAcked(s: State, step: Step): set<Entry> {
    if s.Running? && s.m.leader.Inserting? && step.PublishStep?
    then Batch(s.m.leader.group.first, s.m.leader.group.ops) else {}
  }

  lemma {:induction false} OthersLogNothing(d: Disk, h: History, m: Memory, step: Step)
    requires RunningEnabled(d, m, step) && !step.AddRecordStep?
    ensures NextRunning(d, h, m, step).hist.logged == h.logged
  {
  }

  lemma {:induction false} LoggedStep(s: State, step: Step)
    requires Enabled(s, step)
    ensures Next(s, step).hist.logged == s.hist.logged + NewlyLogged(s, step)
  {
    if s.Running? && !step.AddRecordStep? {
      OthersLogNothing(s.disk, s.hist, s.m, step);
    }
  }

  lemma {:induction false} DurableStays(s: State, step: Step)
    requires Inv(s) && Enabled(s, step) && !s.Running?
    ensures Seen(Next(s, step)) == Seen(s)
  {
    match s
    case Closed(d, h) =>
    case Recovering(d, h, rec) =>
      match step {
        case CrashStep =>
        case RecoverLogStep(_, _) =>
        case OpenLogStep =>
          assert DiskHolds(PManifest, d, h);
          if rec.mem.None? {
            LogsNew(d.logs, rec.versions.nextFile, d.manifest.logNumber);
          }
        case OpenCommitStep(ok, durable, needs) => OpenSeen(d, h, rec, ok, durable, needs);
      }
  }

  lemma {:induction false} OpenManifestSeen(d: Disk, h: History, rec: Recovery)
    requires DiskInv(d, h) && ReadyToOpen(d, h, rec)
    ensures Durable(OpenManifest(d, h, rec).0, OpenManifest(d, h, rec).1) == Durable(d, h)
  {
    ReadyParts(d, h, rec);
  }

  lemma {:induction false} OpenSees(d: Disk, h: History, m: Memory, contents: set<Entry>, needs: bool)
    requires DiskInv(d, h) && Settles(d, h, m, contents)
    ensures Published(h, MaybeSchedule(m, needs)) == Durable(d, h)
  {
    assert DiskHolds(PManifest, d, h);
    assert ImmContents(m) == {} && MemContents(m) == contents;
    assert Live(h, MaybeSchedule(m, needs)) == Live(h, m);
  }

  lemma {:induction false} OpenedSeen(d: Disk, h: History, rec: Recovery, needs: bool)
    requires DiskInv(d, h) && ReadyToOpen(d, h, rec)
    ensures var (d1, h1) := if rec.save then OpenManifest(d, h, rec) else (d, h);
            Published(h1.(flushed := h1.committed), MaybeSchedule(OpenMemory(rec), needs)) == Durable(d, h)
  {
    var (d1, h1) := if rec.save then OpenManifest(d, h, rec) else (d, h);
    var h2 := h1.(flushed := h1.committed);
    OpenSettles(d, h, rec);
    if rec.save {
      OpenManifestKeeps(d, h, rec);
      OpenManifestSeen(d, h, rec);
    }
    FlushedIsVolatile(d1, h1, h1.committed);
    OpenSees(d1, h2, OpenMemory(rec), rec.contents, needs);
  }

  lemma {:induction false} OpenLeads(d: Disk, h: History, rec: Recovery, ok: bool, durable: bool, needs: bool,
                                     seen: set<Entry>)
    requires rec.replayed && rec.mem.Some? && (ok ==> durable) && NeedsAllowed(OpenMemory(rec), needs)
    requires Durable(d, h) == seen && Durable(OpenManifest(d, h, rec).0, OpenManifest(d, h, rec).1) == seen
    requires var (d1, h1) := if rec.save then OpenManifest(d, h, rec) else (d, h);
             Published(h1.(flushed := h1.committed), MaybeSchedule(OpenMemory(rec), needs)) == seen
    ensures Seen(Next(Recovering(d, h, rec), OpenCommitStep(ok, durable, needs))) == seen
  {
  }

  /** Opening ends with exactly the committed tables and the replayed logs visible. */
  lemma {:induction false} OpenSeen(d: Disk, h: History, rec: Recovery, ok: bool, durable: bool, needs: bool)
    requires DiskInv(d, h) && ReadyToOpen(d, h, rec)
    requires (ok ==> durable) && NeedsAllowed(OpenMemory(rec), needs)
    ensures Seen(Next(Recovering(d, h, rec), OpenCommitStep(ok, durable, needs))) == Durable(d, h)
  {
    OpenedSeen(d, h, rec, needs);
    OpenManifestSeen(d, h, rec);
    OpenLeads(d, h, rec, ok, durable, needs, Durable(d, h));
  }

  lemma {:induction false} FloorStays(s: State, step: Step)
    requires Enabled(s, step) && !s.Running?
    ensures Next(s, step).hist.floor == s.hist.floor
  {
  }

  lemma {:induction false} ShownAnswers(s: State)
    requires Inv(s)
    ensures SameFrom(s.hist.floor, Shown(s), Seen(s)) && SameFrom(s.hist.floor, Seen(s), Shown(s))
  {
    DiskAnswers(s.disk, s.hist);
  }

  /** While the database is closed or recovering, what it holds durably does not change, even
    when recovery crashes half way and starts over. So the tables the manifest names and the
    logs it keeps go on answering alike, and in the end the open database answers like them. */
  lemma {:induction false} RecoveryStepSeen(s: State, step: Step)
    requires Inv(s) && Enabled(s, step) && !s.Running?
    ensures Seen(Next(s, step)) == Seen(s) && Next(s, step).hist.floor == s.hist.floor
    ensures SameFrom(s.hist.floor, Shown(s), Shown(Next(s, step)))
  {
    DurableStays(s, step);
    FloorStays(s, step);
    NextKeeps(s, step);
    ShownAnswers(s);
    ShownAnswers(Next(s, step));
    SameFromTransitive(s.hist.floor, Shown(s), Seen(s), Shown(Next(s, step)));
  }

  lemma {:induction false} SeenIsLogged(s: State)
    requires Inv(s)
    ensures Seen(s) <= s.hist.logged && Consistent(Seen(s))
  {
    assert DiskHolds(PHistory, s.disk, s.hist);
    match s
    case Running(d, h, m) => LiveIsLogged(d, h, m);
    case _ => LogsMonotone(s.disk.logs, 0, s.disk.manifest.logNumber);
  }

  lemma {:induction false} RunningSeenStep(d: Disk, h: History, m: Memory, step: Step)
    requires Inv(Running(d, h, m)) && RunningEnabled(d, m, step)
    ensures Published(h, m) + NewlyAcked(Running(d, h, m), step) <= Seen(NextRunning(d, h, m, step))
  {
    if step.CrashStep? {
      LiveIsDurable(d, h, m);
    } else {
      StepRefines(d, h, m, step);
    }
  }

  /** No step, not even a crash, takes anything out of sight, and success is reported only
    for what is in sight from then on. */
  lemma {:induction false} SeenStep(s: State, step: Step)
    requires Inv(s) && Enabled(s, step)
    ensures Seen(s) + NewlyAcked(s, step) <= Seen(Next(s, step))
  {
    if s.Running? {
      RunningSeenStep(s.disk, s.hist, s.m, step);
    } else {
      DurableStays(s, step);
    }
  }

  // Whole runs.

  lemma {:induction false} SeenRunStep(states: seq<State>, steps: seq<Step>, i: nat)
    requires IsRun(states, steps) && i < |steps|
    ensures Seen(states[i]) + NewlyAcked(states[i], steps[i]) <= Seen(states[i + 1])
  {
    RunKeeps(states, steps, i);
    assert StepTaken(states, steps, i);
    SeenStep(states[i], steps[i]);
  }

  lemma {:induction false} Ascending(sets: seq<set<Entry>>, i: nat, j: nat)
    requires i <= j < |sets|
    requires forall k {:trigger sets[k]} :: i <= k < j ==> sets[k] <= sets[k + 1]
    ensures sets[i] <= sets[j]
  {
    if i == j {
    } else {
      Ascending(sets, i, j - 1);
      assert sets[j - 1] <= sets[j - 1 + 1];
    }
  }

  lemma {:induction false} SeenGrows(states: seq<State>, steps: seq<Step>, i: nat, j: nat)
    requires IsRun(states, steps) && i <= j < |states|
    ensures Seen(states[i]) <= Seen(states[j])
  {
    var sets := seq(|states|, k requires 0 <= k < |states| => Seen(states[k]));
    forall k {:trigger sets[k]} | i <= k < j
      ensures sets[k] <= sets[k + 1]
    {
      SeenRunStep(states, steps, k);
    }
    Ascending(sets, i, j);
  }

  /** Durability: an entry of a write that returned success is visible in every later state
    of the run, however often the database crashed, also during recovery. */
  lemma {:induction false} AckedStaysVisible(states: seq<State>, steps: seq<Step>, i: nat, j: nat)
    requires IsRun(states, steps) && i < j < |states|
    ensures NewlyAcked(states[i], steps[i]) <= Seen(states[j])
  {
    SeenRunStep(states, steps, i);
    SeenGrows(states, steps, i + 1, j);
  }

  lemma {:induction false} LoggedHasOrigin(states: seq<State>, steps: seq<Step>, j: nat, e: Entry)
    requires IsRun(states, steps) && j < |states| && e in states[j].hist.logged
    ensures exists i :: 0 <= i < j && e in NewlyLogged(states[i], steps[i])
  {
    if j == 0 {
    } else {
      assert StepTaken(states, steps, j - 1);
      LoggedStep(states[j - 1], steps[j - 1]);
      if e !in NewlyLogged(states[j - 1], steps[j - 1]) {
        LoggedHasOrigin(states, steps, j - 1, e);
      }
    }
  }

  /** Nothing is invented: whatever is visible was appended to a log, as part of its
    group's batch, at some earlier step. */
  lemma {:induction false} VisibleWasLogged(states: seq<State>, steps: seq<Step>, j: nat, e: Entry)
    requires IsRun(states, steps) && j < |states| && e in Seen(states[j])
    ensures exists i :: 0 <= i < j && e in NewlyLogged(states[i], steps[i])
  {
    RunKeeps(states, steps, j);
    SeenIsLogged(states[j]);
    LoggedHasOrigin(states, steps, j, e);
  }

  lemma {:induction false} OpenedFresh(s: State, step: Step)
    requires Enabled(s, step) && !s.Running? && Next(s, step).Running?
    ensures Next(s, step).m.leader.NoLeader? && Next(s, step).m.snapshots == []
  {
  }

  lemma {:induction false} LastSequenceCovers(d: Disk, h: History, m: Memory)
    requires Inv(Running(d, h, m)) && m.leader.NoLeader?
    ensures AtMost(Live(h, m), m.versions.lastSequence) && Live(h, m) == Published(h, m)
    ensures AtMost(h.logged, m.versions.lastSequence) && h.floor <= m.versions.lastSequence
  {
    assert Holds(PSequences, d, h, m);
    assert Holds(PSnapshots, d, h, m);
  }

  /** From a crash to the end of the recovery that follows it, through any number of
    further crashes, the live entries are the committed version at the crash plus a replay of
    the logs from LogNumber on, and LastSequence is at least all of them. The open database
    answers every read from the floor on, and so every read to come, like the tables the
    manifest named at the crash with those logs above them. */
  lemma {:induction false} RecoveryRestores(states: seq<State>, steps: seq<Step>, i: nat, j: nat)
    requires IsRun(states, steps) && i < j < |states| && states[i].Closed? && states[j].Running?
    requires forall k :: i <= k < j ==> !states[k].Running?
    ensures Live(states[j].hist, states[j].m) == Durable(states[i].disk, states[i].hist)
    ensures AtMost(Durable(states[i].disk, states[i].hist), states[j].m.versions.lastSequence)
    ensures AtMost(states[j].hist.logged, states[j].m.versions.lastSequence)
    ensures SameFrom(states[i].hist.floor, OnDisk(states[i].disk), Live(states[j].hist, states[j].m))
    ensures states[i].hist.floor <= states[j].m.versions.lastSequence && states[j].m.snapshots == []
  {
    SeenSame(states, steps, i, j);
    RunKeeps(states, steps, i);
    DiskAnswers(states[i].disk, states[i].hist);
    RunKeeps(states, steps, j);
    assert StepTaken(states, steps, j - 1);
    OpenedFresh(states[j - 1], steps[j - 1]);
    LastSequenceCovers(states[j].disk, states[j].hist, states[j].m);
  }

  lemma {:induction false} SeenSameStep(states: seq<State>, steps: seq<Step>, i: nat)
    requires IsRun(states, steps) && i < |steps| && !states[i].Running?
    ensures Seen(states[i + 1]) == Seen(states[i]) && states[i + 1].hist.floor == states[i].hist.floor
  {
    RunKeeps(states, steps, i);
    assert StepTaken(states, steps, i);
    DurableStays(states[i], steps[i]);
    FloorStays(states[i], steps[i]);
  }

  lemma {:induction false} SeenSame(states: seq<State>, steps: seq<Step>, i: nat, j: nat)
    requires IsRun(states, steps) && i <= j < |states|
    requires forall k :: i <= k < j ==> !states[k].Running?
    ensures Seen(states[j]) == Seen(states[i]) && states[j].hist.floor == states[i].hist.floor
  {
    if i == j {
    } else {
      SeenSame(states, steps, i, j - 1);
      SeenSameStep(states, steps, j - 1);
    }
  }

  // Snapshots.

  lemma {:induction false} SnapshotStep(d: Disk, h: History, m: Memory, step: Step, k: Key, s: nat)
    requires Inv(Running(d, h, m)) && RunningEnabled(d, m, step) && !step.CrashStep?
    requires s <= m.versions.lastSequence
    ensures Lookup(Seen(NextRunning(d, h, m, step)), k, s) == Lookup(Published(h, m), k, s)
    ensures m.versions.lastSequence <= NextRunning(d, h, m, step).m.versions.lastSequence
  {
    StepRefines(d, h, m, step);
    if step.PublishStep? && m.leader.Inserting? {
      NextKeeps(Running(d, h, m), step);
      SeenIsLogged(NextRunning(d, h, m, step));
      assert Holds(PSequences, d, h, m);
      NewerIsInvisible(Published(h, m), Batch(m.leader.group.first, m.leader.group.ops), k, s);
    }
  }

  lemma {:induction false} SnapshotRunStep(states: seq<State>, steps: seq<Step>, j: nat, k: Key, s: nat)
    requires IsRun(states, steps) && j < |steps| && states[j].Running? && states[j + 1].Running?
    requires s <= states[j].m.versions.lastSequence
    ensures Lookup(Seen(states[j + 1]), k, s) == Lookup(Seen(states[j]), k, s)
    ensures s <= states[j + 1].m.versions.lastSequence
  {
    RunKeeps(states, steps, j);
    assert StepTaken(states, steps, j);
    SnapshotStep(states[j].disk, states[j].hist, states[j].m, steps[j], k, s);
  }

  /** A snapshot is a fixed map: while the database stays open, looking a key up at a
    sequence already published gives the same answer in every later state. */
  lemma {:induction false} SnapshotStable(states: seq<State>, steps: seq<Step>, i: nat, j: nat, k: Key, s: nat)
    requires IsRun(states, steps) && i <= j < |states|
    requires forall x :: i <= x <= j ==> states[x].Running?
    requires s <= states[i].m.versions.lastSequence
    ensures Lookup(Seen(states[j]), k, s) == Lookup(Seen(states[i]), k, s)
    ensures s <= states[j].m.versions.lastSequence
  {
    if i == j {
    } else {
      SnapshotStable(states, steps, i, j - 1, k, s);
      SnapshotRunStep(states, steps, j - 1, k, s);
    }
  }

  /** What a Get returns at any moment is what the versioned map held at its snapshot. */
  lemma {:induction false} GetIsRepeatable(states: seq<State>, steps: seq<Step>, i: nat, j: nat, id: nat, k: Key)
    requires IsRun(states, steps) && i <= j < |states|
    requires forall x :: i <= x <= j ==> states[x].Running?
    requires id in states[j].m.readers && states[j].m.readers[id].snapshot <= states[i].m.versions.lastSequence
    ensures GetThrough(states[j].disk, states[j].m, states[j].m.readers[id], k) ==
            Lookup(Seen(states[i]), k, states[j].m.readers[id].snapshot)
  {
    var s := states[j].m.readers[id].snapshot;
    RunKeeps(states, steps, j);
    GetIsLookup(states[j].disk, states[j].hist, states[j].m, id, k);
    SnapshotStable(states, steps, i, j, k, s);
  }
}
