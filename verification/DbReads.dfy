/** A Get asks the memtable, then the immutable one, then the version, each at its own time
  and without the mutex. No step in between changes what a layer answers at the snapshot. */
module DbReads {
  import opened Entries
  import opened DbState
  import opened DbSteps
  import opened DbInvariant
  import opened DbProofBackground
  import opened DbProofTables
  import opened DbProofWriters
  import opened DbSafety
  import opened DbTheorems
  import opened DbFiles
  import opened DbGroups
  import opened DbRuns

  ghost function AskMemtable(m: Memory, id: Option<nat>, k: Key, s: nat): Option<Entry> {
    Find(Contents(m.heap, id), k, s)
  }

  ghost function AskVersion(d: Disk, r: Reader, k: Key): Option<string> {
    Lookup(Union(d.tables, r.files), k, r.snapshot)
  }

  /** The answer of a Get, from what the three layers said. */
  function Answer(inMem: Option<Entry>, inImm: Option<Entry>, inVersion: Option<string>): Option<string> {
    if inMem.Some? then Visible(inMem) else if inImm.Some? then Visible(inImm) else inVersion
  }

  /** Every layer of the read still says the same. */
  ghost predicate SameAnswers(d: Disk, m: Memory, d1: Disk, m1: Memory, r: Reader, k: Key) {
    && AskMemtable(m1, Some(r.mem), k, r.snapshot) == AskMemtable(m, Some(r.mem), k, r.snapshot)
    && AskMemtable(m1, r.imm, k, r.snapshot) == AskMemtable(m, r.imm, k, r.snapshot)
    && AskVersion(d1, r, k) == AskVersion(d, r, k)
  }

  // Tables.

  lemma {:induction false} OwnFileIsFree(d: Disk, h: History, m: Memory, step: Step)
    requires Inv(Running(d, h, m)) && RunningEnabled(d, m, step)
    ensures OwnFile(m, step) !! ReaderFiles(m.readers)
  {
    assert Holds(PFresh, d, h, m);
  }

  lemma {:induction false} VersionStays(d: Disk, h: History, m: Memory, step: Step, id: nat, k: Key)
    requires Inv(Running(d, h, m)) && RunningEnabled(d, m, step) && !step.CrashStep? && id in m.readers
    requires NextRunning(d, h, m, step).Running?
    requires id in NextRunning(d, h, m, step).m.readers && NextRunning(d, h, m, step).m.readers[id] == m.readers[id]
    ensures AskVersion(NextRunning(d, h, m, step).disk, m.readers[id], k) == AskVersion(d, m.readers[id], k)
  {
    var s1, r := NextRunning(d, h, m, step), m.readers[id];
    StepKeepsFiles(d, h, m, step);
    OwnFileIsFree(d, h, m, step);
    assert Holds(PReaders, d, h, m);
    assert ReaderOk(d.tables, m.heap, r, Live(h, m), m.versions.lastSequence, m.mem);
    assert r.files <= ReaderFiles(m.readers) && r.files <= ReaderFiles(s1.m.readers);
    UnionAgrees(d.tables, s1.disk.tables, r.files, r.files);
  }

  // Memtables.

  /** A memtable is as before, or has gained one entry no published snapshot sees. */
  ghost predicate Gains(before: set<Entry>, after: set<Entry>, last: nat) {
    || before == after
    || (Consistent(after) && before <= after && forall e :: e in after && e !in before ==> last < e.sequence)
  }

  lemma {:induction false} GainsUnseen(before: set<Entry>, after: set<Entry>, last: nat, k: Key, s: nat)
    requires Gains(before, after, last) && s <= last
    ensures Find(after, k, s) == Find(before, k, s)
  {
    if before != after {
      SameFind(after, before, k, s);
    }
  }

  ghost predicate HeapGains(m: Memory, m1: Memory) {
    forall x :: x in m.heap ==> x in m1.heap && Gains(m.heap[x], m1.heap[x], m.versions.lastSequence)
  }

  lemma {:induction false} OneMoreGains(heap: map<nat, set<Entry>>, n: nat, e: Entry, last: nat)
    requires n in heap && Consistent(heap[n] + {e}) && last < e.sequence
    ensures forall x :: x in heap ==> Gains(heap[x], heap[n := heap[n] + {e}][x], last)
  {
  }

  lemma {:induction false} InsertGains(d: Disk, h: History, m: Memory)
    requires Inv(Running(d, h, m)) && m.leader.Inserting? && m.leader.done < |m.leader.group.ops| && m.mem in m.heap
    ensures HeapGains(m, InsertOne(m))
  {
    var e := Entry(m.leader.group.first + m.leader.done, m.leader.group.ops[m.leader.done]);
    InsertedIsNewest(d, h, m, e);
    InsertIsConsistent(d, h, m, e);
    assert m.heap[m.mem] + {e} <= Live(h, m) + {e} by {
      assert MemContents(m) == m.heap[m.mem];
    }
    OneMoreGains(m.heap, m.mem, e, m.versions.lastSequence);
    assert InsertOne(m).heap == m.heap[m.mem := m.heap[m.mem] + {e}];
  }

  lemma {:induction false} RoomGains(d: Disk, h: History, m: Memory, memFull: bool, newLogOk: bool, needs: bool)
    requires Inv(Running(d, h, m)) && m.leader.MakingRoom? && m.writers != []
    ensures HeapGains(m, Room(d, m, memFull, newLogOk, needs).1)
  {
    assert Holds(PNumbers, d, h, m);
    RoomRotates(d, h, m, memFull, newLogOk, needs);
  }

  lemma {:induction false} InstallKeepsHeap(d: Disk, h: History, m: Memory, needs: bool)
    requires m.bg.BgWritten?
    ensures Install(d, h, m, needs).2.heap == m.heap
  {
    match m.bg.edit.kind
    case FlushEdit => InstallFlushKeepsHeap(d, h, m, needs);
    case CompactionEdit => InstallCompactionSameLayers(d, h, m, needs);
    case MoveEdit => InstallMoveSameLayers(d, h, m, needs);
  }

  ghost predicate StateGains(m: Memory, s1: State) {
    s1.Running? && HeapGains(m, s1.m)
  }

  lemma {:induction false} WriterStepGains(d: Disk, h: History, m: Memory, step: Step)
    requires Inv(Running(d, h, m)) && RunningEnabled(d, m, step) && (step.RoomStep? || step.InsertStep?)
    ensures StateGains(m, NextRunning(d, h, m, step))
  {
    if step.InsertStep? {
      InsertGains(d, h, m);
    } else {
      RoomGains(d, h, m, step.memFull, step.newLogOk, step.needs);
    }
  }

  lemma {:induction false} OtherKeepsHeap(d: Disk, h: History, m: Memory, step: Step)
    requires RunningEnabled(d, m, step) && !MovesLayers(step)
    ensures NextRunning(d, h, m, step).Running? && NextRunning(d, h, m, step).m.heap == m.heap
  {
    if IsBackgroundStep(step) {
      BackgroundSameLayers(d, h, m, step);
    } else {
      OtherSameLayers(d, h, m, step);
    }
  }

  lemma {:induction false} VersionStepKeepsHeap(d: Disk, h: History, m: Memory, step: Step)
    requires RunningEnabled(d, m, step) && (step.InstallStep? || step.PublishStep?)
    ensures NextRunning(d, h, m, step).Running? && NextRunning(d, h, m, step).m.heap == m.heap
  {
    if step.InstallStep? {
      InstallKeepsHeap(d, h, m, step.needs);
    }
  }

  lemma {:induction false} StepGains(d: Disk, h: History, m: Memory, step: Step)
    requires Inv(Running(d, h, m)) && RunningEnabled(d, m, step) && !step.CrashStep?
    ensures StateGains(m, NextRunning(d, h, m, step))
  {
    if step.RoomStep? || step.InsertStep? {
      WriterStepGains(d, h, m, step);
    } else if MovesLayers(step) {
      VersionStepKeepsHeap(d, h, m, step);
    } else {
      OtherKeepsHeap(d, h, m, step);
    }
  }

  lemma {:induction false} MemtablesStay(d: Disk, h: History, m: Memory, m1: Memory, id: nat, k: Key)
    requires Inv(Running(d, h, m)) && id in m.readers && HeapGains(m, m1)
    ensures var r := m.readers[id];
            && AskMemtable(m1, Some(r.mem), k, r.snapshot) == AskMemtable(m, Some(r.mem), k, r.snapshot)
            && AskMemtable(m1, r.imm, k, r.snapshot) == AskMemtable(m, r.imm, k, r.snapshot)
  {
    var r, last := m.readers[id], m.versions.lastSequence;
    assert Holds(PReaders, d, h, m);
    assert ReaderOk(d.tables, m.heap, r, Live(h, m), last, m.mem);
    GainsUnseen(m.heap[r.mem], m1.heap[r.mem], last, k, r.snapshot);
    if r.imm.Some? {
      GainsUnseen(m.heap[r.imm.value], m1.heap[r.imm.value], last, k, r.snapshot);
    }
  }

  // Steps and runs.

  /** No step changes what a layer answers to a read that is in progress before and after it. */
  lemma {:induction false} AnswersStay(d: Disk, h: History, m: Memory, step: Step, id: nat, k: Key)
    requires Inv(Running(d, h, m)) && RunningEnabled(d, m, step) && !step.CrashStep? && id in m.readers
    requires NextRunning(d, h, m, step).Running?
    requires id in NextRunning(d, h, m, step).m.readers && NextRunning(d, h, m, step).m.readers[id] == m.readers[id]
    ensures SameAnswers(d, m, NextRunning(d, h, m, step).disk, NextRunning(d, h, m, step).m, m.readers[id], k)
  {
    StepGains(d, h, m, step);
    MemtablesStay(d, h, m, NextRunning(d, h, m, step).m, id, k);
    VersionStays(d, h, m, step, id, k);
  }

  /** The read id is in progress, always as r. */
  ghost predicate Reading(s: State, id: nat, r: Reader) {
    s.Running? && id in s.m.readers && s.m.readers[id] == r
  }

  lemma {:induction false} AnswersStayInRun(states: seq<State>, steps: seq<Step>, i: nat, id: nat, r: Reader, k: Key)
    requires IsRun(states, steps) && i < |steps| && Reading(states[i], id, r) && Reading(states[i + 1], id, r)
    ensures SameAnswers(states[i].disk, states[i].m, states[i + 1].disk, states[i + 1].m, r, k)
  {
    RunKeeps(states, steps, i);
    assert StepTaken(states, steps, i);
    AnswersStay(states[i].disk, states[i].hist, states[i].m, steps[i], id, k);
  }

  lemma {:induction false} AnswersStayThroughout(states: seq<State>, steps: seq<Step>, i: nat, j: nat, id: nat,
                                                 r: Reader, k: Key)
    requires IsRun(states, steps) && i <= j < |states|
    requires states[i].Running? && states[j].Running?
    requires forall x :: i <= x <= j ==> Reading(states[x], id, r)
    ensures SameAnswers(states[i].disk, states[i].m, states[j].disk, states[j].m, r, k)
  {
    if i == j {
    } else {
      AnswersStayThroughout(states, steps, i, j - 1, id, r, k);
      assert Reading(states[j - 1], id, r) && Reading(states[j], id, r);
      AnswersStayInRun(states, steps, j - 1, id, r, k);
    }
  }

  lemma {:induction false} AnswerIsGet(d: Disk, m: Memory, r: Reader, k: Key)
    ensures Answer(AskMemtable(m, Some(r.mem), k, r.snapshot), AskMemtable(m, r.imm, k, r.snapshot),
                   AskVersion(d, r, k))
            == GetThrough(d, m, r, k)
  {
  }

  /** A Get that asks the memtable in state a, the immutable one in state b and the version in
    state c, with any steps in between, answers what the versioned map held at its snapshot. */
  lemma {:induction false} InterleavedGet(states: seq<State>, steps: seq<Step>, a: nat, b: nat, c: nat, id: nat,
                                          r: Reader, k: Key)
    requires IsRun(states, steps) && a <= b <= c < |states|
    requires states[a].Running? && states[b].Running? && states[c].Running?
    requires forall x :: a <= x <= c ==> Reading(states[x], id, r)
    ensures Answer(AskMemtable(states[a].m, Some(r.mem), k, r.snapshot), AskMemtable(states[b].m, r.imm, k, r.snapshot),
                   AskVersion(states[c].disk, r, k)) == Lookup(Seen(states[a]), k, r.snapshot)
  {
    AnswersStayThroughout(states, steps, a, b, id, r, k);
    AnswersStayThroughout(states, steps, a, c, id, r, k);
    RunKeeps(states, steps, a);
    assert Reading(states[a], id, r);
    AnswerIsGet(states[a].disk, states[a].m, r, k);
    GetIsLookup(states[a].disk, states[a].hist, states[a].m, id, k);
  }

  // Which write a read sees.

  ghost predicate KeepsReads(m: Memory, s1: State, step: Step) {
    && s1.Running?
    && (!step.BeginReadStep? && !step.EndReadStep? ==> s1.m.readers == m.readers)
    && (step.EndReadStep? ==> s1.m.readers == m.readers - {step.reader})
    && (!step.GetSnapshotStep? && !step.ReleaseSnapshotStep? ==> s1.m.snapshots == m.snapshots)
  }

  lemma {:induction false} RoomKeepsReads(d: Disk, m: Memory, memFull: bool, newLogOk: bool, needs: bool)
    requires m.leader.MakingRoom? && m.writers != []
    ensures var m1 := Room(d, m, memFull, newLogOk, needs).1; m1.readers == m.readers && m1.snapshots == m.snapshots
  {
    RoomEnds(d, m, memFull, newLogOk, needs);
    ScheduleWakes(Rotated(m), needs);
  }

  lemma {:induction false} WriterKeepsReads(d: Disk, h: History, m: Memory, step: Step)
    requires RunningEnabled(d, m, step) && IsWriterStep(step)
    ensures KeepsReads(m, NextRunning(d, h, m, step), step)
  {
    match step
    case RoomStep(memFull, newLogOk, needs) => RoomKeepsReads(d, m, memFull, newLogOk, needs);
    case _ =>
  }

  lemma {:induction false} ClientKeepsReads(d: Disk, h: History, m: Memory, step: Step)
    requires RunningEnabled(d, m, step) && !IsWriterStep(step) && !IsBackgroundStep(step) && !step.CrashStep?
    ensures KeepsReads(m, NextRunning(d, h, m, step), step)
  {
  }

  lemma {:induction false} StepKeepsReads(d: Disk, h: History, m: Memory, step: Step)
    requires RunningEnabled(d, m, step) && !step.CrashStep?
    ensures KeepsReads(m, NextRunning(d, h, m, step), step)
  {
    if IsBackgroundStep(step) {
      BackgroundServesNone(d, h, m, step);
    } else if IsWriterStep(step) {
      WriterKeepsReads(d, h, m, step);
    } else {
      ClientKeepsReads(d, h, m, step);
    }
  }

  /** A read in progress before and after a step is the same read. */
  lemma {:induction false} SameReader(d: Disk, h: History, m: Memory, step: Step, id: nat)
    requires RunningEnabled(d, m, step) && !step.CrashStep? && id in m.readers
    requires NextRunning(d, h, m, step).Running? && id in NextRunning(d, h, m, step).m.readers
    ensures NextRunning(d, h, m, step).m.readers[id] == m.readers[id]
  {
    StepKeepsReads(d, h, m, step);
  }

  ghost predicate InProgress(s: State, id: nat) {
    s.Running? && id in s.m.readers
  }

  lemma {:induction false} SameReaderInRun(states: seq<State>, steps: seq<Step>, i: nat, id: nat)
    requires IsRun(states, steps) && i < |steps| && InProgress(states[i], id) && InProgress(states[i + 1], id)
    ensures states[i + 1].m.readers[id] == states[i].m.readers[id]
  {
    assert StepTaken(states, steps, i);
    SameReader(states[i].disk, states[i].hist, states[i].m, steps[i], id);
  }

  lemma {:induction false} ReaderStays(states: seq<State>, steps: seq<Step>, i: nat, j: nat, id: nat)
    requires IsRun(states, steps) && i <= j < |states| && forall x :: i <= x <= j ==> InProgress(states[x], id)
    ensures InProgress(states[i], id) && InProgress(states[j], id)
    ensures states[j].m.readers[id] == states[i].m.readers[id]
  {
    if i == j {
    } else {
      ReaderStays(states, steps, i, j - 1, id);
      SameReaderInRun(states, steps, j - 1, id);
    }
  }

  /** Step i acknowledged e, the last operation of its group on its key. */
  ghost predicate Acknowledges(states: seq<State>, steps: seq<Step>, i: nat, e: Entry)
    requires i < |steps| < |states|
  {
    && e in NewlyAcked(states[i], steps[i])
    && forall f :: f in NewlyAcked(states[i], steps[i]) && f.Key() == e.Key() ==> f.sequence <= e.sequence
  }

  /** No batch logged between steps i and j has an operation on the key. */
  ghost predicate Untouched(states: seq<State>, steps: seq<Step>, i: nat, j: nat, k: Key)
    requires j <= |steps| < |states|
  {
    forall t, f :: i < t < j && f in NewlyLogged(states[t], steps[t]) ==> f.Key() != k
  }

  lemma {:induction false} LoggedStays(states: seq<State>, steps: seq<Step>, i: nat, j: nat)
    requires IsRun(states, steps) && i <= j < |states|
    ensures states[i].hist.logged <= states[j].hist.logged
  {
    if i == j {
    } else {
      LoggedStays(states, steps, i, j - 1);
      assert StepTaken(states, steps, j - 1);
      LoggedStep(states[j - 1], steps[j - 1]);
    }
  }

  /** What was logged before a group was published is older than the group, or part of it. */
  lemma {:induction false} LoggedIsOlder(d: Disk, h: History, m: Memory, e: Entry, f: Entry)
    requires Inv(Running(d, h, m)) && m.leader.Inserting? && f in h.logged
    requires e in Batch(m.leader.group.first, m.leader.group.ops)
    ensures f.sequence < e.sequence || f in Batch(m.leader.group.first, m.leader.group.ops)
  {
    assert Holds(PSequences, d, h, m);
  }

  lemma {:induction false} EarlierIsLogged(states: seq<State>, steps: seq<Step>, t: nat, i: nat)
    requires IsRun(states, steps) && t < i < |states|
    ensures NewlyLogged(states[t], steps[t]) <= states[i].hist.logged
  {
    assert StepTaken(states, steps, t);
    LoggedStep(states[t], steps[t]);
    LoggedStays(states, steps, t + 1, i);
  }

  lemma {:induction false} EarlierIsOlder(states: seq<State>, steps: seq<Step>, t: nat, i: nat, e: Entry, f: Entry)
    requires IsRun(states, steps) && t < i < |steps| && f in NewlyLogged(states[t], steps[t])
    requires e in NewlyAcked(states[i], steps[i])
    ensures f.sequence < e.sequence || f in NewlyAcked(states[i], steps[i])
  {
    EarlierIsLogged(states, steps, t, i);
    RunKeeps(states, steps, i);
    LoggedIsOlder(states[i].disk, states[i].hist, states[i].m, e, f);
  }

  lemma {:induction false} LoggedAtIsOlder(states: seq<State>, steps: seq<Step>, i: nat, j: nat, t: nat, e: Entry,
                                           f: Entry)
    requires IsRun(states, steps) && i < j < |states| && t < j && Acknowledges(states, steps, i, e)
    requires Untouched(states, steps, i, j, e.Key())
    requires f in NewlyLogged(states[t], steps[t]) && f.Key() == e.Key()
    ensures f.sequence <= e.sequence
  {
    AckLogsNothing(states[i], steps[i], e);
    assert t <= i;
    if t < i {
      EarlierIsOlder(states, steps, t, i, e, f);
    }
  }

  lemma {:induction false} AckLogsNothing(s: State, step: Step, e: Entry)
    requires e in NewlyAcked(s, step)
    ensures NewlyLogged(s, step) == {}
  {
  }

  lemma {:induction false} AckedIsNewest(states: seq<State>, steps: seq<Step>, i: nat, j: nat, e: Entry, f: Entry)
    requires IsRun(states, steps) && i < j < |states| && Acknowledges(states, steps, i, e)
    requires Untouched(states, steps, i, j, e.Key()) && f in Seen(states[j]) && f.Key() == e.Key()
    ensures f.sequence <= e.sequence
  {
    VisibleWasLogged(states, steps, j, f);
    var t :| 0 <= t < j && f in NewlyLogged(states[t], steps[t]);
    LoggedAtIsOlder(states, steps, i, j, t, e, f);
  }

  /** The published state reads back what was acknowledged, until the key is written again. */
  lemma {:induction false} LatestIsRead(states: seq<State>, steps: seq<Step>, i: nat, j: nat, e: Entry)
    requires IsRun(states, steps) && i < j < |states| && states[j].Running?
    requires Acknowledges(states, steps, i, e) && Untouched(states, steps, i, j, e.Key())
    ensures Lookup(Seen(states[j]), e.Key(), states[j].m.versions.lastSequence) == Visible(Some(e))
  {
    var seen, last := Seen(states[j]), states[j].m.versions.lastSequence;
    AckedStaysVisible(states, steps, i, j);
    RunKeeps(states, steps, j);
    SeenIsLogged(states[j]);
    forall f | f in seen && Covers(f, e.Key(), last)
      ensures f.sequence <= e.sequence
    {
      AckedIsNewest(states, steps, i, j, e, f);
    }
    FindIs(seen, e.Key(), last, e);
  }

  lemma {:induction false} ReadBegins(d: Disk, h: History, m: Memory, id: nat)
    requires RunningEnabled(d, m, BeginReadStep(id, None))
    ensures InProgress(NextRunning(d, h, m, BeginReadStep(id, None)), id)
    ensures NextRunning(d, h, m, BeginReadStep(id, None)).m.readers[id].snapshot == m.versions.lastSequence
  {
  }

  /** Read your writes: a Get that begins, without a snapshot, after a write to its key was
    acknowledged returns what was written, or nothing if that was a deletion, as long as no later
    group had touched the key; crashes may lie in between. */
  lemma {:induction false} ReadsOwnWrite(states: seq<State>, steps: seq<Step>, i: nat, j: nat, x: nat, id: nat,
                                         e: Entry)
    requires IsRun(states, steps) && i < j < x < |states| && states[j].Running?
    requires Acknowledges(states, steps, i, e) && Untouched(states, steps, i, j, e.Key())
    requires steps[j] == BeginReadStep(id, None)
    requires InProgress(states[x], id) && forall y :: j < y <= x ==> InProgress(states[y], id)
    ensures GetThrough(states[x].disk, states[x].m, states[x].m.readers[id], e.Key()) ==
            match e.op case Put(_, v) => Some(v) case Delete(_) => None
  {
    assert StepTaken(states, steps, j);
    ReadBegins(states[j].disk, states[j].hist, states[j].m, id);
    ReaderStays(states, steps, j + 1, x, id);
    GetIsRepeatable(states, steps, j, x, id, e.Key());
    LatestIsRead(states, steps, i, j, e);
  }

  // Snapshots.

  /** Where the snapshot taken by step j stands in the list at state t, unless it was released. */
  ghost function SnapshotPlace(states: seq<State>, steps: seq<Step>, j: nat, t: nat): Option<nat>
    requires j < t <= |steps| < |states|
    decreases t
  {
    if t == j + 1 then
      if states[j].Running? then Some(|states[j].m.snapshots|) else None
    else
      match SnapshotPlace(states, steps, j, t - 1)
      case None => None
      case Some(p) =>
        if !steps[t - 1].ReleaseSnapshotStep? || p < steps[t - 1].index then Some(p)
        else if p == steps[t - 1].index then None
        else Some(p - 1)
  }

  lemma {:induction false} SnapshotsStep(d: Disk, h: History, m: Memory, step: Step)
    requires RunningEnabled(d, m, step) && !step.CrashStep?
    ensures NextRunning(d, h, m, step).Running?
    ensures var later := NextRunning(d, h, m, step).m.snapshots;
            && (step.GetSnapshotStep? ==> later == m.snapshots + [m.versions.lastSequence])
            && (step.ReleaseSnapshotStep? ==> later == m.snapshots[..step.index] + m.snapshots[step.index + 1..])
            && (!step.GetSnapshotStep? && !step.ReleaseSnapshotStep? ==> later == m.snapshots)
  {
    StepKeepsReads(d, h, m, step);
  }

  /** A snapshot stands for the sequence at which it was taken. */
  lemma {:induction false} SnapshotStays(states: seq<State>, steps: seq<Step>, j: nat, t: nat)
    requires IsRun(states, steps) && j < t <= |steps| && steps[j] == GetSnapshotStep
    requires forall y :: j <= y <= t ==> states[y].Running?
    requires SnapshotPlace(states, steps, j, t).Some?
    ensures var p := SnapshotPlace(states, steps, j, t).value;
            p < |states[t].m.snapshots| && states[t].m.snapshots[p] == states[j].m.versions.lastSequence
    decreases t
  {
    assert StepTaken(states, steps, t - 1);
    SnapshotsStep(states[t - 1].disk, states[t - 1].hist, states[t - 1].m, steps[t - 1]);
    if t > j + 1 {
      SnapshotStays(states, steps, j, t - 1);
    }
  }

  lemma {:induction false} SnapshotReadBegins(d: Disk, h: History, m: Memory, id: nat, p: nat)
    requires RunningEnabled(d, m, BeginReadStep(id, Some(p)))
    ensures InProgress(NextRunning(d, h, m, BeginReadStep(id, Some(p))), id) && p < |m.snapshots|
    ensures NextRunning(d, h, m, BeginReadStep(id, Some(p))).m.readers[id].snapshot == m.snapshots[p]
  {
  }

  /** The same for a Get at a snapshot: it returns what was written before the snapshot was taken,
    whatever has been written since and however many other snapshots were released. */
  lemma {:induction false} SnapshotReadsOwnWrite(states: seq<State>, steps: seq<Step>, i: nat, j: nat, r: nat, x: nat,
                                                 id: nat, e: Entry)
    requires IsRun(states, steps) && i < j < r < x < |states| && steps[j] == GetSnapshotStep
    requires forall y :: j <= y <= x ==> states[y].Running?
    requires Acknowledges(states, steps, i, e) && Untouched(states, steps, i, j, e.Key())
    requires SnapshotPlace(states, steps, j, r).Some?
    requires steps[r] == BeginReadStep(id, SnapshotPlace(states, steps, j, r))
    requires InProgress(states[x], id) && forall y :: r < y <= x ==> InProgress(states[y], id)
    ensures GetThrough(states[x].disk, states[x].m, states[x].m.readers[id], e.Key()) ==
            match e.op case Put(_, v) => Some(v) case Delete(_) => None
  {
    assert StepTaken(states, steps, r);
    SnapshotStays(states, steps, j, r);
    SnapshotReadBegins(states[r].disk, states[r].hist, states[r].m, id, SnapshotPlace(states, steps, j, r).value);
    ReaderStays(states, steps, r + 1, x, id);
    GetIsRepeatable(states, steps, j, x, id, e.Key());
    LatestIsRead(states, steps, i, j, e);
  }
}
