/** The steps of the background thread keep the invariant: flushes, compactions, the
  manifest writes of LogAndApply, and garbage collection. */
module DbProofBackground {
  import opened Entries
  import opened Compaction
  import opened DbState
  import opened DbSteps
  import opened DbInvariant

  // Ends of calls: signals, errors, scheduling.

  /** m1 differs from m only in scheduling, in the error flag, and in woken waiters. */
  ghost predicate Wakes(m: Memory, m1: Memory) {
    && m1 == m.(scheduled := m1.scheduled, queued := m1.queued, bgError := m1.bgError, leader := m1.leader)
    && (m.bgError ==> m1.bgError)
    && (m1.leader == m.leader
        || (m.leader.WaitingForRoom? && m1.leader == MakingRoom(m.leader.force, m.leader.allowDelay)))
  }

  lemma {:induction false} WakesKeeps(part: Part, d: Disk, h: History, m: Memory, m1: Memory)
    requires Holds(part, d, h, m) && Wakes(m, m1)
    requires !part.PSchedule?
    ensures Holds(part, d, h, m1)
  {
    assert ImmContents(m1) == ImmContents(m) && MemContents(m1) == MemContents(m);
  }

  lemma {:induction false} SignalWakes(m: Memory)
    ensures Wakes(m, SignalAll(m)) && !SignalAll(m).leader.WaitingForRoom?
    ensures SignalAll(m).bgError == m.bgError && SignalAll(m).scheduled == m.scheduled
            && SignalAll(m).queued == m.queued
  {
  }

  lemma {:induction false} ErrorWakes(m: Memory)
    ensures Wakes(m, RecordBackgroundError(m)) && RecordBackgroundError(m).bgError
    ensures RecordBackgroundError(m).scheduled == m.scheduled && RecordBackgroundError(m).queued == m.queued
    ensures m.bgError ==> RecordBackgroundError(m) == m
    ensures !m.bgError ==> !RecordBackgroundError(m).leader.WaitingForRoom?
  {
    SignalWakes(m.(bgError := true));
  }

  lemma {:induction false} ScheduleWakes(m: Memory, needs: bool)
    ensures Wakes(m, MaybeSchedule(m, needs)) && MaybeSchedule(m, needs).leader == m.leader
    ensures MaybeSchedule(m, needs).bgError == m.bgError
    ensures WorkToDo(m.imm, m.versions.files) && NeedsAllowed(m, needs) && !m.bgError && !m.shuttingDown ==>
              MaybeSchedule(m, needs).scheduled
    ensures MaybeSchedule(m, needs).queued - m.queued ==
            (if MaybeSchedule(m, needs).scheduled then 1 else 0) - (if m.scheduled then 1 else 0)
  {
  }

  /** A pass of MakeRoomForWrite moves the leader on, sends the first writer away, or switches to
    a new log and memtable. */
  lemma {:induction false} RoomEnds(d: Disk, m: Memory, memFull: bool, newLogOk: bool, needs: bool)
    requires m.leader.MakingRoom? && m.writers != []
    ensures var (d1, m1) := Room(d, m, memFull, newLogOk, needs);
            || (d1 == d && m1 == m.(leader := m1.leader))
            || (d1 == d && (m1 == PopWriters(m, 1, true) || m1 == PopWriters(m, 1, false)))
            || (m.imm.None? && d1 == d.(logs := d.logs[m.versions.nextFile := []])
                && m1 == MaybeSchedule(Rotated(m), needs))
  {
  }

  lemma {:induction false} WakesTransitive(a: Memory, b: Memory, c: Memory)
    requires Wakes(a, b) && Wakes(b, c)
    ensures Wakes(a, c)
  {
  }

  /** All parts but scheduling. */
  ghost predicate Resting(d: Disk, h: History, m: Memory) {
    forall part: Part :: !part.PSchedule? ==> Holds(part, d, h, m)
  }

  lemma {:induction false} RestingWakes(d: Disk, h: History, m: Memory, m1: Memory)
    requires Resting(d, h, m) && Wakes(m, m1)
    ensures Resting(d, h, m1)
  {
    forall part: Part | !part.PSchedule?
      ensures Holds(part, d, h, m1)
    {
      WakesKeeps(part, d, h, m, m1);
    }
  }

  lemma {:induction false} EndCallWakes(m: Memory, needs: bool)
    ensures Wakes(m.(bg := BgIdle), EndCall(m, needs)) && !EndCall(m, needs).leader.WaitingForRoom?
    ensures EndCall(m, needs).bgError == m.bgError
    ensures m.queued == 0 && NeedsAllowed(m, needs) ==>
              ScheduleOk(EndCall(m, needs).queued, false, EndCall(m, needs).scheduled,
                         WorkToDo(m.imm, m.versions.files),
                         m.shuttingDown, m.bgError, false)
  {
    var idle := m.(bg := BgIdle);
    var cleared := m.(bg := BgIdle, scheduled := false);
    var scheduled := MaybeSchedule(cleared, needs);
    ScheduleWakes(cleared, needs);
    SignalWakes(scheduled);
    assert Wakes(idle, cleared);
    WakesTransitive(idle, cleared, scheduled);
    WakesTransitive(idle, scheduled, EndCall(m, needs));
  }

  lemma {:induction false} AfterFlushWakes(m: Memory, needs: bool)
    ensures Wakes(m.(bg := if m.job.Some? then BgMerging else BgIdle), AfterFlush(m, needs))
    ensures AfterFlush(m, needs).bgError == m.bgError
  {
    if m.job.Some? {
      SignalWakes(m.(bg := BgMerging));
    } else {
      EndCallWakes(m, needs);
    }
  }

  /** The end of BackgroundCall, from a memory that rests with no call running. */
  lemma {:induction false} EndCallKeeps(d: Disk, h: History, m: Memory, needs: bool)
    requires Resting(d, h, m.(bg := BgIdle))
    requires m.queued == 0 && NeedsAllowed(m, needs)
    ensures MemoryInv(d, h, EndCall(m, needs))
  {
    EndCallWakes(m, needs);
    RestingWakes(d, h, m.(bg := BgIdle), EndCall(m, needs));
    forall part: Part
      ensures Holds(part, d, h, EndCall(m, needs))
    {
    }
  }

  lemma {:induction false} OneCall(d: Disk, h: History, m: Memory)
    requires MemoryInv(d, h, m) && !m.bg.BgIdle?
    ensures m.queued == 0 && m.scheduled
  {
    assert Holds(PSchedule, d, h, m);
  }

  /** Back in the compaction loop after a nested flush. */
  lemma {:induction false} BackToMergingKeeps(d: Disk, h: History, m: Memory)
    requires Resting(d, h, m.(bg := BgMerging))
    requires m.queued == 0 && m.scheduled
    ensures MemoryInv(d, h, SignalAll(m.(bg := BgMerging)))
  {
    var merging := m.(bg := BgMerging);
    SignalWakes(merging);
    RestingWakes(d, h, merging, SignalAll(merging));
    forall part: Part
      ensures Holds(part, d, h, SignalAll(merging))
    {
    }
  }

  lemma {:induction false} AfterFlushKeeps(d: Disk, h: History, m: Memory, needs: bool)
    requires Resting(d, h, m.(bg := if m.job.Some? then BgMerging else BgIdle))
    requires m.queued == 0 && m.scheduled && NeedsAllowed(m, needs)
    ensures MemoryInv(d, h, AfterFlush(m, needs))
  {
    if m.job.Some? {
      BackToMergingKeeps(d, h, m);
    } else {
      EndCallKeeps(d, h, m, needs);
    }
  }

  // Beginning a call.

  /** WriteLevel0Table takes the next file number and starts building: what changes. */
  ghost predicate Starts(m: Memory, m1: Memory, queued: nat) {
    var n := m.versions.nextFile;
    m1 == m.(queued := queued, versions := m.versions.(nextFile := n + 1), pending := m.pending + {n},
             bg := BgBuilding(n))
  }

  lemma {:induction false} StartFlushFiles(d: Disk, h: History, m: Memory, m1: Memory, queued: nat)
    requires MemoryInv(d, h, m) && Starts(m, m1, queued)
    requires m.bg.BgIdle? || m.bg.BgMerging?
    ensures Holds(PFresh, d, h, m1) && Holds(PGap, d, h, m1) && Holds(PNumbers, d, h, m1)
  {
    var n := m.versions.nextFile;
    assert Holds(PNumbers, d, h, m);
    assert Holds(PFresh, d, h, m);
    assert n !in Settled(m.versions.files, d.manifest.files, m.readers, m.job) && n !in JobFiles(m.job);
    assert VersionFiles(m1) <= Settled(m1.versions.files, d.manifest.files, m1.readers, m1.job);
  }

  lemma {:induction false} StartFlushReaders(d: Disk, h: History, m: Memory, m1: Memory, queued: nat)
    requires Holds(PReaders, d, h, m) && Starts(m, m1, queued)
    ensures Holds(PReaders, d, h, m1)
  {
    assert Live(h, m1) == Live(h, m);
  }

  lemma {:induction false} StartFlushRest(part: Part, d: Disk, h: History, m: Memory, m1: Memory, queued: nat)
    requires Holds(part, d, h, m) && Starts(m, m1, queued)
    requires !part.PFresh? && !part.PGap? && !part.PNumbers? && !part.PReaders?
    requires m.imm.Some? && (m.bg.BgIdle? || m.bg.BgMerging?) && m.queued == queued + if m.bg.BgIdle? then 1 else 0
    ensures Holds(part, d, h, m1)
  {
    assert ImmContents(m1) == ImmContents(m) && MemContents(m1) == MemContents(m) && Live(h, m1) == Live(h, m);
  }

  lemma {:induction false} StartFlushKeeps(d: Disk, h: History, m: Memory, began: Memory)
    requires MemoryInv(d, h, m)
    requires m.imm.Some? && (m.bg.BgIdle? || m.bg.BgMerging?)
    requires began == m.(queued := began.queued) && m.queued == began.queued + if m.bg.BgIdle? then 1 else 0
    ensures MemoryInv(d, h, StartFlush(began))
  {
    var m1 := StartFlush(began);
    forall part: Part
      ensures Holds(part, d, h, m1)
    {
      assert Holds(part, d, h, m);
      if part.PFresh? || part.PGap? || part.PNumbers? {
        StartFlushFiles(d, h, m, m1, began.queued);
      } else if part.PReaders? {
        StartFlushReaders(d, h, m, m1, began.queued);
      } else {
        StartFlushRest(part, d, h, m, m1, began.queued);
      }
    }
  }

  /** Everything logged is numbered by the last sequence or in a log from n on. */
  lemma {:induction false} LoggedSoFar(d: Disk, h: History, m: Memory, n: nat)
    requires MemoryInv(d, h, m) && n <= m.mem
    ensures Numbered(h.logged, LogsFrom(d.logs, n), m.versions.lastSequence)
  {
    assert Holds(PMemtables, d, h, m);
    assert Holds(PSequences, d, h, m);
    LogWithin(d.logs, m.mem, n);
  }

  /** LogAndApply stamps every edit with numbers that cover what the edit makes durable. */
  lemma {:induction false} NewEditOk(d: Disk, h: History, m: Memory, edit: Edit)
    requires DiskInv(d, h) && MemoryInv(d, h, m)
    requires edit.lastSequence == m.versions.lastSequence && edit.nextFile == m.versions.nextFile
    requires edit.logNumber == m.mem || edit.logNumber == m.versions.logNumber
    requires AllBelow(edit.added.Keys, m.versions.nextFile)
    requires edit.kind.CompactionEdit? ==> m.job.Some?
    requires edit.kind.MoveEdit? ==> edit.added.Keys <= d.manifest.files.Keys
    ensures EditOk(edit, d, h.committed, h.logged, m.versions, ImmContents(m), m.job)
  {
    assert Holds(PMemtables, d, h, m);
    assert Holds(PNumbers, d, h, m);
    assert Holds(PSync, d, h, m);
    assert DiskHolds(PManifest, d, h);
    LoggedSoFar(d, h, m, edit.logNumber);
    assert Holds(PSequences, d, h, m);
    assert Holds(PSnapshots, d, h, m);
  }

  lemma {:induction false} MoveEditOk(d: Disk, h: History, m: Memory, f: nat, edit: Edit)
    requires DiskInv(d, h) && MemoryInv(d, h, m)
    requires m.bg.BgIdle? && m.job.None? && !m.bgError && f in m.versions.files
    requires var v := m.versions;
             edit == Edit(MoveEdit, map[f := v.files[f] + 1], {f}, v.logNumber, v.lastSequence, v.nextFile)
    ensures EditFits(edit, d.tables, m.versions, m.mem, m.imm, ImmContents(m), m.job)
    ensures EditOk(edit, d, h.committed, h.logged, m.versions, ImmContents(m), m.job)
  {
    assert edit.added.Keys == {f};
    assert Holds(PInStep, d, h, m);
    assert Holds(PTables, d, h, m);
    assert f < m.versions.nextFile by {
      assert Holds(PNumbers, d, h, m);
    }
    NewEditOk(d, h, m, edit);
  }

  /** A call begins by writing an edit that is no flush. */
  lemma {:induction false} BeginWritingFrame(part: Part, d: Disk, h: History, m: Memory, edit: Edit)
    requires Holds(part, d, h, m) && m.bg.BgIdle? && m.queued > 0 && !edit.kind.FlushEdit?
    requires !part.PBackground? && !part.PLevels?
    ensures Holds(part, d, h, m.(queued := m.queued - 1, bg := BgWriting(edit)))
  {
  }

  lemma {:induction false} MoveKeeps(d: Disk, h: History, m: Memory, f: nat)
    requires DiskInv(d, h) && MemoryInv(d, h, m)
    requires m.bg.BgIdle? && m.queued > 0 && m.job.None? && !m.bgError && f in m.versions.files
    ensures var v := m.versions;
            var edit := Edit(MoveEdit, map[f := v.files[f] + 1], {f}, v.logNumber, v.lastSequence, v.nextFile);
            MemoryInv(d, h, m.(queued := m.queued - 1, bg := BgWriting(edit)))
  {
    var v := m.versions;
    var edit := Edit(MoveEdit, map[f := v.files[f] + 1], {f}, v.logNumber, v.lastSequence, v.nextFile);
    var m1 := m.(queued := m.queued - 1, bg := BgWriting(edit));
    MoveEditOk(d, h, m, f, edit);
    forall part: Part
      ensures Holds(part, d, h, m1)
    {
      assert Holds(part, d, h, m);
      if !part.PBackground? && !part.PLevels? {
        BeginWritingFrame(part, d, h, m, edit);
      }
    }
  }

  /** What a compaction starts from. */
  lemma {:induction false} NewJobOk(d: Disk, h: History, m: Memory, level: nat, inputs: set<nat>, base: set<Key>)
    requires MemoryInv(d, h, m)
    requires !m.bgError && m.bg.BgIdle? && inputs <= m.versions.files.Keys
    requires BaseSafe(Union(d.tables, m.versions.files.Keys - inputs), Union(d.tables, inputs), base)
    ensures JobOk(d.tables, h.flushed, m.versions.files.Keys, d.manifest.files.Keys, BgMerging,
                  Job(level, inputs, m.versions.files.Keys, SmallestSnapshot(m), base,
                      KeepSet(Union(d.tables, inputs), SmallestSnapshot(m), base), None, {}))
  {
    assert Holds(PInStep, d, h, m);
    assert Holds(PTables, d, h, m);
    UnionMonotone(d.tables, inputs, m.versions.files.Keys);
    assert Union(d.tables, {}) == {};
  }

  /** No live snapshot is below the smallest snapshot of the compaction. */
  lemma {:induction false} NewJobSnapshots(d: Disk, h: History, m: Memory, job: Job)
    requires Holds(PSnapshots, d, h, m)
    requires job.smallest == SmallestSnapshot(m)
    ensures SnapshotsOk(h.floor, m.snapshots, m.versions.lastSequence, Some(job))
  {
  }

  lemma {:induction false} MergeKeeps(d: Disk, h: History, m: Memory, level: nat, inputs: set<nat>, base: set<Key>)
    requires MemoryInv(d, h, m)
    requires m.bg.BgIdle? && m.queued > 0 && m.job.None? && !m.bgError && inputs <= m.versions.files.Keys
    requires forall f :: f in inputs ==> m.versions.files[f] == level || m.versions.files[f] == level + 1
    requires BaseSafe(Union(d.tables, m.versions.files.Keys - inputs), Union(d.tables, inputs), base)
    ensures var smallest := SmallestSnapshot(m);
            var job := Job(level, inputs, m.versions.files.Keys, smallest, base,
                           KeepSet(Union(d.tables, inputs), smallest, base), None, {});
            MemoryInv(d, h, m.(queued := m.queued - 1, bg := BgMerging, job := Some(job)))
  {
    var smallest := SmallestSnapshot(m);
    var keep := KeepSet(Union(d.tables, inputs), smallest, base);
    var job := Job(level, inputs, m.versions.files.Keys, smallest, base, keep, None, {});
    var m1 := m.(queued := m.queued - 1, bg := BgMerging, job := Some(job));
    NewJobOk(d, h, m, level, inputs, base);
    assert Holds(PSnapshots, d, h, m);
    NewJobSnapshots(d, h, m, job);
    forall part: Part
      ensures Holds(part, d, h, m1)
    {
      assert Holds(part, d, h, m);
    }
  }

  lemma {:induction false} BeginCallKeeps(d: Disk, h: History, m: Memory, pick: Pick, needs: bool)
    requires DiskInv(d, h) && MemoryInv(d, h, m)
    requires m.queued > 0 && m.bg.BgIdle? && m.job.None? && PickAllowed(d, m, pick) && NeedsAllowed(m, needs)
    ensures MemoryInv(d, h, BeginCall(d, m, pick, needs))
  {
    var m1 := m.(queued := m.queued - 1);
    if m.shuttingDown || m.bgError || (m.imm.None? && pick.PickNothing?) {
      assert m.queued == 1 by {
        assert Holds(PSchedule, d, h, m);
      }
      assert m1.(bg := BgIdle) == m1;
      assert Wakes(m, m1);
      RestingWakes(d, h, m, m1);
      EndCallKeeps(d, h, m1, needs);
    } else if m.imm.Some? {
      StartFlushKeeps(d, h, m, m1);
    } else {
      match pick
      case PickMove(f) => MoveKeeps(d, h, m, f);
      case PickMerge(level, inputs, base) => MergeKeeps(d, h, m, level, inputs, base);
    }
  }
}
