/** Snapshots and reads keep the invariant. */
module DbProofReads {
  import opened Entries
  import opened DbState
  import opened DbSteps
  import opened DbInvariant
  import opened DbProofBackground
  import opened DbProofWriters

  lemma {:induction false} ScheduleKeeps(d: Disk, h: History, m: Memory, needs: bool)
    requires Resting(d, h, m) && NeedsAllowed(m, needs)
    requires m.queued + (if m.bg.BgIdle? then 0 else 1) == if m.scheduled then 1 else 0
    requires m.leader.WaitingForRoom? ==> WorkToDo(m.imm, m.versions.files) && !m.bgError
    ensures MemoryInv(d, h, MaybeSchedule(m, needs))
  {
    ScheduleWakes(m, needs);
    RestingWakes(d, h, m, MaybeSchedule(m, needs));
    forall part: Part
      ensures Holds(part, d, h, MaybeSchedule(m, needs))
    {
    }
  }

  lemma {:induction false} SnapshotsFrame(part: Part, d: Disk, h: History, m: Memory, snapshots: seq<nat>)
    requires Holds(part, d, h, m) && !part.PSnapshots?
    ensures Holds(part, d, h, m.(snapshots := snapshots))
  {
  }

  lemma {:induction false} GetSnapshotKeeps(d: Disk, h: History, m: Memory)
    requires MemoryInv(d, h, m)
    ensures MemoryInv(d, h, m.(snapshots := m.snapshots + [m.versions.lastSequence]))
  {
    var later := m.snapshots + [m.versions.lastSequence];
    forall part: Part
      ensures Holds(part, d, h, m.(snapshots := later))
    {
      assert Holds(part, d, h, m);
      if !part.PSnapshots? {
        SnapshotsFrame(part, d, h, m, later);
      }
    }
  }

  lemma {:induction false} ReleaseSnapshotKeeps(d: Disk, h: History, m: Memory, i: nat)
    requires MemoryInv(d, h, m) && i < |m.snapshots|
    ensures MemoryInv(d, h, m.(snapshots := m.snapshots[..i] + m.snapshots[i + 1..]))
  {
    var rest := m.snapshots[..i] + m.snapshots[i + 1..];
    forall part: Part
      ensures Holds(part, d, h, m.(snapshots := rest))
    {
      assert Holds(part, d, h, m);
      if !part.PSnapshots? {
        SnapshotsFrame(part, d, h, m, rest);
      }
    }
  }

  lemma {:induction false} ShutDownKeeps(d: Disk, h: History, m: Memory)
    requires MemoryInv(d, h, m)
    ensures MemoryInv(d, h, m.(shuttingDown := true))
  {
    forall part: Part
      ensures Holds(part, d, h, m.(shuttingDown := true))
    {
      assert Holds(part, d, h, m);
    }
  }

  /** The current version, imm and mem together answer like the versioned map. */
  lemma {:induction false} LayersAnswer(d: Disk, h: History, m: Memory)
    requires DiskInv(d, h) && MemoryInv(d, h, m)
    ensures var below := Union(d.tables, m.versions.files.Keys);
            && below <= h.flushed
            && SameFrom(h.floor, below + ImmContents(m) + MemContents(m), Live(h, m))
  {
    var below, imm, mem := Union(d.tables, m.versions.files.Keys), ImmContents(m), MemContents(m);
    LiveIsLogged(d, h, m);
    assert Holds(PTables, d, h, m);
    assert Holds(PLayers, d, h, m);
    SameFromTop(h.floor, below, h.flushed, imm);
    SameFromTop(h.floor, below + imm, h.flushed + imm, mem);
  }

  lemma {:induction false} NewReaderOk(d: Disk, h: History, m: Memory, snapshot: nat)
    requires DiskInv(d, h) && MemoryInv(d, h, m)
    requires h.floor <= snapshot <= m.versions.lastSequence
    ensures ReaderOk(d.tables, m.heap, Reader(snapshot, m.mem, m.imm, m.versions.files.Keys), Live(h, m),
                     m.versions.lastSequence, m.mem)
  {
    LayersAnswer(d, h, m);
    assert Holds(PTables, d, h, m);
    assert Holds(PMemtables, d, h, m);
    assert Holds(PLayers, d, h, m);
    var all := Union(d.tables, m.versions.files.Keys) + ImmContents(m) + MemContents(m);
    assert forall k :: Lookup(all, k, snapshot) == Lookup(Live(h, m), k, snapshot);
  }

  lemma {:induction false} BeginReadFrame(part: Part, d: Disk, h: History, m: Memory, id: nat, snapshot: nat)
    requires MemoryInv(d, h, m) && id !in m.readers && !part.PReaders?
    ensures Holds(part, d, h, BeginRead(m, id, snapshot))
  {
    var m1 := BeginRead(m, id, snapshot);
    assert Holds(part, d, h, m);
    assert Settled(m1.versions.files, d.manifest.files, m1.readers, m1.job) <=
           Settled(m.versions.files, d.manifest.files, m.readers, m.job);
  }

  lemma {:induction false} BeginReadKeeps(d: Disk, h: History, m: Memory, id: nat, snapshot: nat)
    requires DiskInv(d, h) && MemoryInv(d, h, m) && id !in m.readers
    requires h.floor <= snapshot <= m.versions.lastSequence
    ensures MemoryInv(d, h, BeginRead(m, id, snapshot))
  {
    forall part: Part
      ensures Holds(part, d, h, BeginRead(m, id, snapshot))
    {
      if part.PReaders? {
        assert Holds(part, d, h, m);
        NewReaderOk(d, h, m, snapshot);
      } else {
        BeginReadFrame(part, d, h, m, id, snapshot);
      }
    }
  }

  lemma {:induction false} EndReadFrame(part: Part, d: Disk, h: History, m: Memory, id: nat)
    requires MemoryInv(d, h, m)
    ensures Holds(part, d, h, m.(readers := m.readers - {id}))
  {
    var m1 := m.(readers := m.readers - {id});
    assert Holds(part, d, h, m);
    assert Settled(m1.versions.files, d.manifest.files, m1.readers, m1.job) <=
           Settled(m.versions.files, d.manifest.files, m.readers, m.job);
  }

  lemma {:induction false} EndReadKeeps(d: Disk, h: History, m: Memory, id: nat, schedule: bool, needs: bool)
    requires MemoryInv(d, h, m) && NeedsAllowed(m, needs)
    ensures var m1 := m.(readers := m.readers - {id});
            MemoryInv(d, h, if schedule then MaybeSchedule(m1, needs) else m1)
  {
    var m1 := m.(readers := m.readers - {id});
    forall part: Part
      ensures Holds(part, d, h, m1)
    {
      EndReadFrame(part, d, h, m, id);
    }
    assert Holds(PSchedule, d, h, m1);
    ScheduleKeeps(d, h, m1, needs);
  }
}
