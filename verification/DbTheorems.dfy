/** What the invariant buys, stated on whole runs: the database refines a plain versioned
  map, crashes lose and invent nothing, and files are deleted only when nobody needs them. */
module DbTheorems {
  import opened Entries
  import opened DbState
  import opened DbSteps
  import opened DbInvariant
  import opened DbProofBackground
  import opened DbProofWriters
  import opened DbSafety

  // The versioned map.

  /** What readers can see: the live entries up to the last sequence. */
  ghost function Published(h: History, m: Memory): set<Entry> {
    set e | e in Live(h, m) && e.sequence <= m.versions.lastSequence
  }

  lemma {:induction false} PublishedAnswers(h: History, m: Memory, k: Key, s: nat)
    requires Consistent(Live(h, m)) && s <= m.versions.lastSequence
    ensures Lookup(Published(h, m), k, s) == Lookup(Live(h, m), k, s)
  {
    SameFind(Published(h, m), Live(h, m), k, s);
  }

  /** Every Get answers from the versioned map, at its snapshot: neither the layers it
    looks through, nor compactions since, nor a group being inserted make a difference. */
  lemma {:induction false} GetIsLookup(d: Disk, h: History, m: Memory, id: nat, k: Key)
    requires Inv(Running(d, h, m)) && id in m.readers
    ensures GetThrough(d, m, m.readers[id], k) == Lookup(Published(h, m), k, m.readers[id].snapshot)
  {
    var r := m.readers[id];
    var below, imm, mem := Union(d.tables, r.files), Contents(m.heap, r.imm), Contents(m.heap, Some(r.mem));
    assert Holds(PReaders, d, h, m);
    assert ReaderOk(d.tables, m.heap, r, Live(h, m), m.versions.lastSequence, m.mem);
    LiveIsLogged(d, h, m);
    LayeredLookup(below + imm, mem, k, r.snapshot);
    LayeredLookup(below, imm, k, r.snapshot);
    PublishedAnswers(h, m, k, r.snapshot);
  }

  /** The layers hold the same entries and the last sequence stands. */
  ghost predicate SameLayers(h: History, m: Memory, h1: History, m1: Memory) {
    && h1.flushed == h.flushed && m1.heap == m.heap && m1.mem == m.mem && m1.imm == m.imm
    && m1.versions.lastSequence == m.versions.lastSequence
  }

  lemma {:induction false} SameLayersSameMap(h: History, m: Memory, h1: History, m1: Memory)
    requires SameLayers(h, m, h1, m1)
    ensures Live(h1, m1) == Live(h, m) && Published(h1, m1) == Published(h, m)
  {
  }

  predicate MovesLayers(step: Step) {
    step.RoomStep? || step.InsertStep? || step.PublishStep? || step.InstallStep? || step.CrashStep?
  }

  lemma {:induction false} FlushApplySameLayers(d: Disk, h: History, m: Memory, level: nat, needs: bool)
    requires m.bg.BgBuilt?
    ensures SameLayers(h, m, h, FlushApply(m, level, needs))
  {
    if !m.bg.ok || m.shuttingDown {
      var m1 := m.(pending := m.pending - {m.bg.file});
      ErrorWakes(m1);
      AfterFlushWakes(RecordBackgroundError(m1), needs);
    }
  }

  lemma {:induction false} JobFailSameLayers(d: Disk, h: History, m: Memory, needs: bool)
    ensures SameLayers(h, m, h, JobFail(d, m, needs).1)
  {
    ErrorWakes(m);
    EndCallWakes(DropJob(RecordBackgroundError(m)), needs);
  }

  lemma {:induction false} BeginCallSameLayers(d: Disk, h: History, m: Memory, pick: Pick, needs: bool)
    requires m.queued > 0 && PickAllowed(d, m, pick)
    ensures SameLayers(h, m, h, BeginCall(d, m, pick, needs))
  {
    EndCallWakes(m.(queued := m.queued - 1), needs);
  }

  /** The steps of a call between its beginning and its end. */
  predicate IsJobStep(step: Step) {
    step.BuildStep? || step.ManifestStep? || step.JobFlushStep? || step.JobOpenStep? || step.JobFinishStep?
    || step.JobApplyStep?
  }

  /** The call, its files and the next file number may move, and nothing else in memory. */
  ghost predicate MovesCall(h: History, m: Memory, s1: State) {
    && s1.Running? && s1.hist.flushed == h.flushed && !s1.m.bg.BgIdle?
    && s1.m == m.(versions := m.versions.(nextFile := s1.m.versions.nextFile), pending := s1.m.pending,
                  bg := s1.m.bg, job := s1.m.job)
  }

  lemma {:induction false} OutputStepMoves(d: Disk, h: History, m: Memory, step: Step)
    requires RunningEnabled(d, m, step) && (step.JobOpenStep? || step.JobFinishStep? || step.JobApplyStep?)
    ensures MovesCall(h, m, NextRunning(d, h, m, step))
  {
  }

  lemma {:induction false} FlushStepMoves(d: Disk, h: History, m: Memory, step: Step)
    requires RunningEnabled(d, m, step) && (step.BuildStep? || step.ManifestStep? || step.JobFlushStep?)
    ensures MovesCall(h, m, NextRunning(d, h, m, step))
  {
  }

  lemma {:induction false} JobStepMoves(d: Disk, h: History, m: Memory, step: Step)
    requires RunningEnabled(d, m, step) && IsJobStep(step)
    ensures MovesCall(h, m, NextRunning(d, h, m, step))
  {
    if step.BuildStep? || step.ManifestStep? || step.JobFlushStep? {
      FlushStepMoves(d, h, m, step);
    } else {
      OutputStepMoves(d, h, m, step);
    }
  }

  lemma {:induction false} TurnSameLayers(d: Disk, h: History, m: Memory, step: Step)
    requires RunningEnabled(d, m, step) && (step.BeginCallStep? || step.FlushApplyStep? || step.JobFailStep?)
    ensures NextRunning(d, h, m, step).Running?
    ensures SameLayers(h, m, NextRunning(d, h, m, step).hist, NextRunning(d, h, m, step).m)
  {
    match step
    case BeginCallStep(pick, needs) => BeginCallSameLayers(d, h, m, pick, needs);
    case FlushApplyStep(level, needs) => FlushApplySameLayers(d, h, m, level, needs);
    case JobFailStep(needs) => JobFailSameLayers(d, h, m, needs);
  }

  lemma {:induction false} BackgroundSameLayers(d: Disk, h: History, m: Memory, step: Step)
    requires RunningEnabled(d, m, step) && IsBackgroundStep(step) && !step.InstallStep?
    ensures NextRunning(d, h, m, step).Running?
    ensures SameLayers(h, m, NextRunning(d, h, m, step).hist, NextRunning(d, h, m, step).m)
  {
    if IsJobStep(step) {
      JobStepMoves(d, h, m, step);
    } else {
      TurnSameLayers(d, h, m, step);
    }
  }

  lemma {:induction false} OtherSameLayers(d: Disk, h: History, m: Memory, step: Step)
    requires RunningEnabled(d, m, step) && !IsBackgroundStep(step) && !MovesLayers(step)
    ensures NextRunning(d, h, m, step).Running?
    ensures SameLayers(h, m, NextRunning(d, h, m, step).hist, NextRunning(d, h, m, step).m)
  {
  }

  // Steps that do move entries, or the last sequence.

  /** A memtable is switched out only when imm is empty, and becomes imm. */
  lemma {:induction false} RoomRotates(d: Disk, h: History, m: Memory, memFull: bool, newLogOk: bool, needs: bool)
    requires m.leader.MakingRoom? && m.writers != []
    ensures var (d1, m1) := Room(d, m, memFull, newLogOk, needs);
            SameLayers(h, m, h, m1) || Rotates(d, m, d1, m1, m.versions.nextFile)
  {
    RoomEnds(d, m, memFull, newLogOk, needs);
    ScheduleWakes(Rotated(m), needs);
  }

  lemma {:induction false} RoomSameMap(d: Disk, h: History, m: Memory, memFull: bool, newLogOk: bool, needs: bool)
    requires Inv(Running(d, h, m)) && m.leader.MakingRoom? && m.writers != []
    ensures var m1 := Room(d, m, memFull, newLogOk, needs).1;
            Live(h, m1) == Live(h, m) && m1.versions.lastSequence == m.versions.lastSequence
  {
    var (d1, m1) := Room(d, m, memFull, newLogOk, needs);
    RoomRotates(d, h, m, memFull, newLogOk, needs);
    if Rotates(d, m, d1, m1, m.versions.nextFile) {
      RotateContents(d, h, m, d1, m1, m.versions.nextFile);
    }
  }

  /** The live entries gain the one inserted. */
  lemma {:induction false} InsertLive(d: Disk, h: History, m: Memory, e: Entry)
    requires Holds(PMemtables, d, h, m)
    requires m.leader.Inserting? && m.leader.done < |m.leader.group.ops| && m.mem in m.heap
    requires e == Entry(m.leader.group.first + m.leader.done, m.leader.group.ops[m.leader.done])
    ensures Live(h, InsertOne(m)) == Live(h, m) + {e}
  {
    var m1 := m.(heap := m.heap[m.mem := MemContents(m) + {e}]);
    InsertContents(d, h, m, e);
    assert InsertOne(m).heap == m1.heap && InsertOne(m).mem == m1.mem && InsertOne(m).imm == m1.imm;
  }

  lemma {:induction false} UnpublishedIsHidden(h: History, m: Memory, m1: Memory, e: Entry)
    requires Live(h, m1) == Live(h, m) + {e} && m.versions.lastSequence < e.sequence
    requires m1.versions.lastSequence == m.versions.lastSequence
    ensures Published(h, m1) == Published(h, m)
  {
  }

  lemma {:induction false} InsertMap(d: Disk, h: History, m: Memory)
    requires Inv(Running(d, h, m)) && m.leader.Inserting? && m.leader.done < |m.leader.group.ops| && m.mem in m.heap
    ensures Live(h, m) <= Live(h, InsertOne(m)) && Published(h, InsertOne(m)) == Published(h, m)
  {
    var e := Entry(m.leader.group.first + m.leader.done, m.leader.group.ops[m.leader.done]);
    InsertedIsNewest(d, h, m, e);
    assert Holds(PMemtables, d, h, m);
    InsertLive(d, h, m, e);
    UnpublishedIsHidden(h, m, InsertOne(m), e);
  }

  /** The entries of a group become visible all at once, numbered right after the last. */
  lemma {:induction false} PublishMap(d: Disk, h: History, m: Memory)
    requires Inv(Running(d, h, m)) && ReadyToPublish(m)
    ensures var (h1, m1) := Publish(h, m);
            var g := m.leader.group;
            && Published(h1, m1) == Published(h, m) + (if m.leader.Inserting? then Batch(g.first, g.ops) else {})
            && Live(h1, m1) == Live(h, m)
            && g.first == m.versions.lastSequence + 1
            && m1.versions.lastSequence == m.versions.lastSequence + |g.ops|
  {
    PublishIs(h, m);
    assert Holds(PSequences, d, h, m);
    if m.leader.Inserting? {
      assert m.leader.group.ops[..m.leader.done] == m.leader.group.ops;
    }
  }

  lemma {:induction false} FlushedIsLive(d: Disk, h: History, m: Memory, needs: bool)
    requires m.bg.BgWritten? && m.bg.edit.kind.FlushEdit? && m.bg.ok
    ensures var m1 := AfterFlush(InstallVersion(m, m.bg.edit).(imm := None), needs);
            && Live(h.(flushed := h.flushed + ImmContents(m)), m1) == Live(h, m)
            && m1.versions.lastSequence == m.versions.lastSequence && m1.mem == m.mem && m1.imm.None?
  {
    var m2 := InstallVersion(m, m.bg.edit).(imm := None);
    AfterFlushWakes(m2, needs);
    assert ImmContents(AfterFlush(m2, needs)) == {} && MemContents(AfterFlush(m2, needs)) == MemContents(m);
  }

  lemma {:induction false} InstallFlushSameMap(d: Disk, h: History, m: Memory, needs: bool)
    requires m.bg.BgWritten? && m.bg.edit.kind.FlushEdit?
    ensures var (_, h1, m1) := Install(d, h, m, needs);
            && Live(h1, m1) == Live(h, m) && m1.versions.lastSequence == m.versions.lastSequence
            && m1.mem == m.mem && (m1.imm == m.imm || m1.imm.None?)
  {
    if m.bg.ok {
      FlushedIsLive(d, h, m, needs);
    } else {
      ErrorWakes(m);
      AfterFlushWakes(RecordBackgroundError(m), needs);
    }
  }

  lemma {:induction false} InstallFlushKeepsHeap(d: Disk, h: History, m: Memory, needs: bool)
    requires m.bg.BgWritten? && m.bg.edit.kind.FlushEdit?
    ensures Install(d, h, m, needs).2.heap == m.heap
  {
    if m.bg.ok {
      AfterFlushWakes(InstallVersion(m, m.bg.edit).(imm := None), needs);
    } else {
      ErrorWakes(m);
      AfterFlushWakes(RecordBackgroundError(m), needs);
    }
  }

  lemma {:induction false} CallEndSameLayers(h: History, m: Memory, m1: Memory, needs: bool)
    requires SameLayers(h, m, h, m1)
    ensures SameLayers(h, m, h, EndCall(m1, needs))
  {
    EndCallWakes(m1, needs);
  }

  lemma {:induction false} InstallCompactionSameLayers(d: Disk, h: History, m: Memory, needs: bool)
    requires m.bg.BgWritten? && m.bg.edit.kind.CompactionEdit?
    ensures SameLayers(h, m, Install(d, h, m, needs).1, Install(d, h, m, needs).2)
  {
    if m.bg.ok {
      CallEndSameLayers(h, m, DropJob(InstallVersion(m, m.bg.edit)), needs);
    } else {
      ErrorWakes(m);
      CallEndSameLayers(h, m, DropJob(RecordBackgroundError(m)), needs);
    }
  }

  lemma {:induction false} InstallMoveSameLayers(d: Disk, h: History, m: Memory, needs: bool)
    requires m.bg.BgWritten? && m.bg.edit.kind.MoveEdit?
    ensures SameLayers(h, m, Install(d, h, m, needs).1, Install(d, h, m, needs).2)
  {
    if m.bg.ok {
      EndCallWakes(InstallVersion(m, m.bg.edit), needs);
    } else {
      ErrorWakes(m);
      EndCallWakes(RecordBackgroundError(m), needs);
    }
  }

  lemma {:induction false} InstallSameMap(d: Disk, h: History, m: Memory, needs: bool)
    requires m.bg.BgWritten?
    ensures var (_, h1, m1) := Install(d, h, m, needs);
            && Live(h1, m1) == Live(h, m) && m1.versions.lastSequence == m.versions.lastSequence
            && m1.mem == m.mem && (m1.imm == m.imm || m1.imm.None?)
  {
    match m.bg.edit.kind
    case FlushEdit => InstallFlushSameMap(d, h, m, needs);
    case CompactionEdit =>
      InstallCompactionSameLayers(d, h, m, needs);
      SameLayersSameMap(h, m, Install(d, h, m, needs).1, Install(d, h, m, needs).2);
    case MoveEdit =>
      InstallMoveSameLayers(d, h, m, needs);
      SameLayersSameMap(h, m, Install(d, h, m, needs).1, Install(d, h, m, needs).2);
  }

  // Refinement.

  /** What one step does to the versioned map: publishing adds the whole group, and no
    other step changes anything. */
  ghost function MapAfter(h: History, m: Memory, step: Step): set<Entry> {
    if step.PublishStep? && m.leader.Inserting?
    then Published(h, m) + Batch(m.leader.group.first, m.leader.group.ops)
    else Published(h, m)
  }

  /** The map after is as expected, and nothing left the live entries. */
  ghost predicate Refines(h: History, m: Memory, step: Step, s1: State) {
    && s1.Running?
    && Published(s1.hist, s1.m) == MapAfter(h, m, step)
    && Live(h, m) <= Live(s1.hist, s1.m)
    && m.versions.lastSequence <= s1.m.versions.lastSequence
  }

  lemma {:induction false} RoomRefines(d: Disk, h: History, m: Memory, step: Step)
    requires Inv(Running(d, h, m)) && RunningEnabled(d, m, step) && step.RoomStep?
    ensures Refines(h, m, step, NextRunning(d, h, m, step))
  {
    RoomSameMap(d, h, m, step.memFull, step.newLogOk, step.needs);
  }

  lemma {:induction false} InsertRefines(d: Disk, h: History, m: Memory, step: Step)
    requires Inv(Running(d, h, m)) && RunningEnabled(d, m, step) && step.InsertStep?
    ensures Refines(h, m, step, NextRunning(d, h, m, step))
  {
    InsertMap(d, h, m);
  }

  lemma {:induction false} PublishRefines(d: Disk, h: History, m: Memory, step: Step)
    requires Inv(Running(d, h, m)) && RunningEnabled(d, m, step) && step.PublishStep?
    ensures Refines(h, m, step, NextRunning(d, h, m, step))
  {
    PublishMap(d, h, m);
  }

  lemma {:induction false} InstallRefines(d: Disk, h: History, m: Memory, step: Step)
    requires RunningEnabled(d, m, step) && step.InstallStep?
    ensures Refines(h, m, step, NextRunning(d, h, m, step))
  {
    InstallSameMap(d, h, m, step.needs);
  }

  lemma {:induction false} OtherRefines(d: Disk, h: History, m: Memory, step: Step)
    requires RunningEnabled(d, m, step) && !MovesLayers(step)
    ensures Refines(h, m, step, NextRunning(d, h, m, step))
  {
    if IsBackgroundStep(step) {
      BackgroundSameLayers(d, h, m, step);
    } else {
      OtherSameLayers(d, h, m, step);
    }
    SameLayersSameMap(h, m, NextRunning(d, h, m, step).hist, NextRunning(d, h, m, step).m);
  }

  lemma {:induction false} WriterRefines(d: Disk, h: History, m: Memory, step: Step)
    requires Inv(Running(d, h, m)) && RunningEnabled(d, m, step)
    requires step.RoomStep? || step.InsertStep? || step.PublishStep?
    ensures Refines(h, m, step, NextRunning(d, h, m, step))
  {
    match step
    case RoomStep(_, _, _) => RoomRefines(d, h, m, step);
    case InsertStep => InsertRefines(d, h, m, step);
    case PublishStep => PublishRefines(d, h, m, step);
  }

  /** The database refines the versioned map, step by step. */
  lemma {:induction false} StepRefines(d: Disk, h: History, m: Memory, step: Step)
    requires Inv(Running(d, h, m)) && RunningEnabled(d, m, step) && !step.CrashStep?
    ensures Refines(h, m, step, NextRunning(d, h, m, step))
  {
    if !MovesLayers(step) {
      OtherRefines(d, h, m, step);
    } else if step.InstallStep? {
      InstallRefines(d, h, m, step);
    } else {
      WriterRefines(d, h, m, step);
    }
  }
}
