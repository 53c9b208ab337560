/** From the manifest to the version in memory, and the compaction's own steps. */
module DbProofInstall {
  import opened Entries
  import opened DbState
  import opened DbSteps
  import opened DbInvariant
  import opened DbProofBackground
  import opened DbProofTables
  import opened DbProofManifest

  // Failures.

  /** m1 is m after an error: any compaction is either dropped or still running. */
  ghost predicate Fails(m: Memory, m1: Memory) {
    && m1 == m.(bgError := true, job := m1.job, pending := m1.pending, bg := m1.bg)
    && (m1.job.None? || (m1.job == m.job && m1.pending == m.pending && !AtCompactionEnd(m.bg)))
    && (m.bg.BgWritten? || m.bg.BgMerging?)
    && m1.pending <= m.pending - (if m1.job.None? then JobFiles(m.job) else {})
    && m1.bg == if m1.job.Some? then BgMerging else BgIdle
  }

  lemma {:induction false} FailRests(d: Disk, h: History, m: Memory, m1: Memory)
    requires MemoryInv(d, h, m) && Fails(m, m1)
    ensures Resting(d, h, m1)
  {
    forall part: Part | !part.PSchedule?
      ensures Holds(part, d, h, m1)
    {
      assert Holds(part, d, h, m);
    }
  }

  lemma {:induction false} ErrorRests(d: Disk, h: History, m: Memory)
    requires MemoryInv(d, h, m) && m.bg.BgWritten? && !AtCompactionEnd(m.bg)
    ensures Resting(d, h, RecordBackgroundError(m).(bg := if m.job.Some? then BgMerging else BgIdle))
  {
    var failed := RecordBackgroundError(m);
    var bg := if m.job.Some? then BgMerging else BgIdle;
    var stopped := m.(bg := bg, bgError := true);
    ErrorWakes(m);
    FailRests(d, h, m, stopped);
    RestingWakes(d, h, stopped, failed.(bg := bg));
  }

  lemma {:induction false} DropWakes(m: Memory, m1: Memory)
    requires Wakes(m, m1) && m.job.Some?
    ensures Wakes(DropJob(m).(bg := BgIdle), DropJob(m1).(bg := BgIdle))
  {
    var pending := DropJob(m).pending;
    assert DropJob(m).(bg := BgIdle) == m.(job := None, pending := pending, bg := BgIdle);
    assert DropJob(m1).(bg := BgIdle) == m1.(job := None, pending := pending, bg := BgIdle);
  }

  lemma {:induction false} ErrorDropWakes(m: Memory)
    requires m.job.Some?
    ensures Wakes(DropJob(m.(bgError := true)).(bg := BgIdle), DropJob(RecordBackgroundError(m)).(bg := BgIdle))
  {
    ErrorWakes(m);
    DropWakes(m.(bgError := true), RecordBackgroundError(m));
  }

  /** Recording the error and then dropping the compaction. */
  lemma {:induction false} ErrorDropRests(d: Disk, h: History, m: Memory)
    requires MemoryInv(d, h, m) && m.job.Some? && (m.bg.BgWritten? || m.bg.BgMerging?)
    ensures Resting(d, h, DropJob(RecordBackgroundError(m)).(bg := BgIdle))
  {
    var failed := m.(bgError := true);
    FailRests(d, h, m, DropJob(failed).(bg := BgIdle));
    ErrorDropWakes(m);
    RestingWakes(d, h, DropJob(failed).(bg := BgIdle), DropJob(RecordBackgroundError(m)).(bg := BgIdle));
  }

  lemma {:induction false} ErrorSame(m: Memory)
    ensures RecordBackgroundError(m).versions == m.versions && RecordBackgroundError(m).queued == m.queued
    ensures RecordBackgroundError(m).scheduled == m.scheduled && RecordBackgroundError(m).job == m.job
  {
  }

  /** Cleaning up at the end of a call that leaves no compaction running. */
  lemma {:induction false} CleanUpKeeps(d: Disk, h: History, m: Memory, needs: bool)
    requires DiskInv(d, h) && Resting(d, h, m.(bg := BgIdle))
    requires m.queued == 0 && NeedsAllowed(m, needs)
    ensures DiskInv(DeleteObsolete(d, m), h) && MemoryInv(DeleteObsolete(d, m), h, EndCall(m, needs))
  {
    DeleteObsoleteKeeps(d, h, m.(bg := BgIdle));
    EndCallKeeps(DeleteObsolete(d, m), h, m, needs);
  }

  lemma {:induction false} JobFailKeeps(d: Disk, h: History, m: Memory, needs: bool)
    requires DiskInv(d, h) && MemoryInv(d, h, m)
    requires m.bg.BgMerging? && m.job.Some? && NeedsAllowed(m, needs)
    ensures var (d1, m1) := JobFail(d, m, needs); DiskInv(d1, h) && MemoryInv(d1, h, m1)
  {
    ErrorDropRests(d, h, m);
    ErrorSame(m);
    OneCall(d, h, m);
    CleanUpKeeps(d, h, DropJob(RecordBackgroundError(m)), needs);
  }

  // A flush becomes part of the version.

  ghost predicate FlushInstalls(h: History, m: Memory, h1: History, m1: Memory) {
    && m.bg.BgWritten? && m.bg.ok && m.bg.edit.kind.FlushEdit?
    && h1 == h.(flushed := h.flushed + ImmContents(m))
    && m1 == m.(versions := m.versions.(files := EditFiles(m.bg.edit, m.versions.files),
                                        logNumber := m.bg.edit.logNumber),
                imm := None, bg := if m.job.Some? then BgMerging else BgIdle)
  }

  lemma {:induction false} FlushFits(d: Disk, h: History, m: Memory)
    requires MemoryInv(d, h, m) && m.bg.BgWritten? && m.bg.edit.kind.FlushEdit?
    ensures EditFits(m.bg.edit, d.tables, m.versions, m.mem, m.imm, ImmContents(m), m.job)
    ensures EditFiles(m.bg.edit, m.versions.files).Keys == m.versions.files.Keys + m.bg.edit.added.Keys
  {
    assert Holds(PBackground, d, h, m);
    EditFilesKeys(m.bg.edit, m.versions.files);
  }

  lemma {:induction false} InstallTables(d: Disk, h: History, m: Memory, h1: History, m1: Memory)
    requires DiskInv(d, h) && MemoryInv(d, h, m) && FlushInstalls(h, m, h1, m1)
    ensures Holds(PTables, d, h1, m1)
  {
    assert Holds(PTables, d, h, m);
    FlushFits(d, h, m);
    ImmStands(d, h, m);
    FlushTables(d.tables, m.versions.files.Keys, m.bg.edit.added.Keys, h.flushed, ImmContents(m), h.floor);
  }

  lemma {:induction false} InstallLayers(d: Disk, h: History, m: Memory, h1: History, m1: Memory)
    requires MemoryInv(d, h, m) && FlushInstalls(h, m, h1, m1)
    requires h1.flushed <= h1.logged
    ensures Holds(PLayers, d, h1, m1) && Live(h1, m1) == Live(h, m)
    ensures MemContents(m1) == MemContents(m) && ImmContents(m1) == {}
  {
    assert Holds(PLayers, d, h, m);
    assert h1.flushed + {} == h1.flushed;
  }

  lemma {:induction false} InstallSync(d: Disk, h: History, m: Memory, h1: History, m1: Memory)
    requires DiskInv(d, h) && MemoryInv(d, h, m) && FlushInstalls(h, m, h1, m1)
    ensures Holds(PSync, d, h1, m1) && Holds(PMemtables, d, h1, m1)
  {
    FlushFits(d, h, m);
    LogTops(d, h, m);
    assert Holds(PBackground, d, h, m);
    assert Holds(PSync, d, h, m);
    assert Holds(PMemtables, d, h, m);
  }

  lemma {:induction false} SettledGrows(d: Disk, h: History, m: Memory, h1: History, m1: Memory)
    requires MemoryInv(d, h, m) && FlushInstalls(h, m, h1, m1)
    ensures Settled(m1.versions.files, d.manifest.files, m1.readers, m1.job) ==
            Settled(m.versions.files, d.manifest.files, m.readers, m.job) + BuildingFile(m.bg)
  {
    FlushFits(d, h, m);
  }

  lemma {:induction false} InstallNumbers(d: Disk, h: History, m: Memory, h1: History, m1: Memory)
    requires MemoryInv(d, h, m) && FlushInstalls(h, m, h1, m1)
    ensures Holds(PNumbers, d, h1, m1)
  {
    SettledGrows(d, h, m, h1, m1);
    assert Holds(PNumbers, d, h, m);
  }

  lemma {:induction false} InstallFresh(d: Disk, h: History, m: Memory, h1: History, m1: Memory)
    requires MemoryInv(d, h, m) && FlushInstalls(h, m, h1, m1)
    ensures Holds(PFresh, d, h1, m1)
  {
    SettledGrows(d, h, m, h1, m1);
    assert Holds(PFresh, d, h, m);
  }

  lemma {:induction false} InstallJob(d: Disk, h: History, m: Memory, h1: History, m1: Memory)
    requires DiskInv(d, h) && MemoryInv(d, h, m) && FlushInstalls(h, m, h1, m1)
    ensures Holds(PJob, d, h1, m1)
  {
    if m.job.Some? {
      assert Holds(PJob, d, h, m);
      FlushFits(d, h, m);
      FlushJob(d, h, m, m.bg.edit);
    }
  }

  /** A flush adds no file under a number the compaction reads. */
  lemma {:induction false} FlushSparesInputs(d: Disk, h: History, m: Memory)
    requires MemoryInv(d, h, m) && m.bg.BgWritten? && m.bg.edit.kind.FlushEdit? && m.job.Some?
    ensures m.bg.edit.removed == {} && m.job.value.inputs !! m.bg.edit.added.Keys
  {
    FlushFits(d, h, m);
    assert Holds(PFresh, d, h, m);
    assert Holds(PJob, d, h, m);
  }

  lemma {:induction false} InstallLevels(d: Disk, h: History, m: Memory, h1: History, m1: Memory)
    requires MemoryInv(d, h, m) && FlushInstalls(h, m, h1, m1)
    ensures Holds(PLevels, d, h1, m1)
  {
    assert Holds(PLevels, d, h, m);
    if m.job.Some? {
      FlushSparesInputs(d, h, m);
    }
  }

  predicate ReadsVersion(part: Part) {
    part.PTables? || part.PLayers? || part.PSync? || part.PMemtables? || part.PNumbers? || part.PFresh? || part.PJob?
    || part.PLevels? || part.PReaders?
  }

  lemma {:induction false} FlushTouched(part: Part, d: Disk, h: History, m: Memory, h1: History, m1: Memory)
    requires DiskInv(d, h) && MemoryInv(d, h, m) && FlushInstalls(h, m, h1, m1)
    requires ReadsVersion(part)
    ensures Holds(part, d, h1, m1)
  {
    match part
    case PTables => InstallTables(d, h, m, h1, m1);
    case PLayers =>
      ImmStands(d, h, m);
      InstallLayers(d, h, m, h1, m1);
    case PReaders =>
      assert Holds(part, d, h, m);
      ImmStands(d, h, m);
      InstallLayers(d, h, m, h1, m1);
    case PSync => InstallSync(d, h, m, h1, m1);
    case PMemtables => InstallSync(d, h, m, h1, m1);
    case PNumbers => InstallNumbers(d, h, m, h1, m1);
    case PFresh => InstallFresh(d, h, m, h1, m1);
    case PJob => InstallJob(d, h, m, h1, m1);
    case PLevels => InstallLevels(d, h, m, h1, m1);
  }

  lemma {:induction false} FlushFrame(part: Part, d: Disk, h: History, m: Memory, h1: History, m1: Memory)
    requires MemoryInv(d, h, m) && FlushInstalls(h, m, h1, m1)
    requires ImmContents(m1) == {} && MemContents(m1) == MemContents(m)
    requires !ReadsVersion(part) && !part.PSchedule?
    ensures Holds(part, d, h1, m1)
  {
    assert Holds(part, d, h, m);
    assert Holds(PBackground, d, h, m);
  }

  lemma {:induction false} FlushInstallsRests(d: Disk, h: History, m: Memory, h1: History, m1: Memory)
    requires DiskInv(d, h) && MemoryInv(d, h, m) && FlushInstalls(h, m, h1, m1)
    ensures DiskInv(d, h1) && Resting(d, h1, m1)
  {
    forall part: DiskPart
      ensures DiskHolds(part, d, h1)
    {
      assert DiskHolds(part, d, h);
    }
    forall part: Part | !part.PSchedule?
      ensures Holds(part, d, h1, m1)
    {
      if ReadsVersion(part) {
        FlushTouched(part, d, h, m, h1, m1);
      } else {
        FlushFrame(part, d, h, m, h1, m1);
      }
    }
  }

  /** Cleaning up at the end of a flush, inside a compaction or not. */
  lemma {:induction false} FlushCleanUpKeeps(d: Disk, h: History, m: Memory, needs: bool)
    requires DiskInv(d, h) && Resting(d, h, m.(bg := if m.job.Some? then BgMerging else BgIdle))
    requires m.queued == 0 && m.scheduled && NeedsAllowed(m, needs)
    ensures DiskInv(DeleteObsolete(d, m), h) && MemoryInv(DeleteObsolete(d, m), h, AfterFlush(m, needs))
  {
    DeleteObsoleteKeeps(d, h, m.(bg := if m.job.Some? then BgMerging else BgIdle));
    AfterFlushKeeps(DeleteObsolete(d, m), h, m, needs);
  }

  lemma {:induction false} FlushSucceeds(d: Disk, h: History, m: Memory, needs: bool)
    requires DiskInv(d, h) && MemoryInv(d, h, m)
    requires m.bg.BgWritten? && m.bg.edit.kind.FlushEdit? && m.bg.ok
    requires NeedsAllowed(InstallVersion(m, m.bg.edit), needs)
    ensures var (d1, h1, m1) := Install(d, h, m, needs); DiskInv(d1, h1) && MemoryInv(d1, h1, m1)
  {
    OneCall(d, h, m);
    var m1 := InstallVersion(m, m.bg.edit).(imm := None);
    var h1 := h.(flushed := h.flushed + ImmContents(m));
    FlushInstallsRests(d, h, m, h1, m1.(bg := if m.job.Some? then BgMerging else BgIdle));
    FlushCleanUpKeeps(d, h1, m1, needs);
  }

  lemma {:induction false} FlushFails(d: Disk, h: History, m: Memory, needs: bool)
    requires DiskInv(d, h) && MemoryInv(d, h, m)
    requires m.bg.BgWritten? && m.bg.edit.kind.FlushEdit? && !m.bg.ok
    requires NeedsAllowed(m, needs)
    ensures var (d1, h1, m1) := Install(d, h, m, needs); DiskInv(d1, h1) && MemoryInv(d1, h1, m1)
  {
    OneCall(d, h, m);
    ErrorRests(d, h, m);
    ErrorSame(m);
    AfterFlushKeeps(d, h, RecordBackgroundError(m), needs);
  }

  lemma {:induction false} InstallFlushKeeps(d: Disk, h: History, m: Memory, needs: bool)
    requires DiskInv(d, h) && MemoryInv(d, h, m)
    requires m.bg.BgWritten? && m.bg.edit.kind.FlushEdit?
    requires NeedsAllowed(if m.bg.ok then InstallVersion(m, m.bg.edit) else m, needs)
    ensures var (d1, h1, m1) := Install(d, h, m, needs); DiskInv(d1, h1) && MemoryInv(d1, h1, m1)
  {
    if m.bg.ok {
      FlushSucceeds(d, h, m, needs);
    } else {
      FlushFails(d, h, m, needs);
    }
  }

  // A compaction becomes part of the version.

  ghost predicate CompactionInstalls(m: Memory, m1: Memory) {
    && m.bg.BgWritten? && m.bg.ok && !m.bg.edit.kind.FlushEdit?
    && m1 == m.(versions := m.versions.(files := EditFiles(m.bg.edit, m.versions.files),
                                        logNumber := m.bg.edit.logNumber),
                job := None, pending := m1.pending, bg := BgIdle)
    && m1.pending <= m.pending - JobFiles(m.job)
  }

  lemma {:induction false} CompactionFits(d: Disk, h: History, m: Memory)
    requires MemoryInv(d, h, m) && m.bg.BgWritten?
    ensures EditFits(m.bg.edit, d.tables, m.versions, m.mem, m.imm, ImmContents(m), m.job)
    ensures EditFiles(m.bg.edit, m.versions.files).Keys ==
            m.versions.files.Keys - m.bg.edit.removed + m.bg.edit.added.Keys
  {
    assert Holds(PBackground, d, h, m);
    EditFilesKeys(m.bg.edit, m.versions.files);
  }

  lemma {:induction false} CompactedTables(d: Disk, h: History, m: Memory, m1: Memory)
    requires DiskInv(d, h) && MemoryInv(d, h, m) && CompactionInstalls(m, m1)
    ensures Holds(PTables, d, h, m1)
  {
    var files := m.versions.files.Keys;
    assert Holds(PTables, d, h, m);
    CompactionFits(d, h, m);
    match m.bg.edit.kind
    case CompactionEdit =>
      ImmStands(d, h, m);
      assert Holds(PJob, d, h, m);
      assert Holds(PBackground, d, h, m);
      CompactionTables(d.tables, files, m.job.value, h.flushed, h.floor, h.floor);
    case MoveEdit =>
      assert files - m.bg.edit.removed + m.bg.edit.added.Keys == files;
  }

  lemma {:induction false} CompactedFiles(d: Disk, h: History, m: Memory, m1: Memory)
    requires MemoryInv(d, h, m) && CompactionInstalls(m, m1)
    ensures Holds(PNumbers, d, h, m1) && Holds(PFresh, d, h, m1)
  {
    CompactionFits(d, h, m);
    assert Holds(PNumbers, d, h, m);
    assert Holds(PFresh, d, h, m);
    var before := Settled(m.versions.files, d.manifest.files, m.readers, m.job);
    var after := Settled(m1.versions.files, d.manifest.files, m1.readers, m1.job);
    assert after <= before + JobFiles(m.job);
  }

  lemma {:induction false} CompactedFrame(part: Part, d: Disk, h: History, m: Memory, m1: Memory)
    requires MemoryInv(d, h, m) && CompactionInstalls(m, m1)
    requires !part.PTables? && !part.PNumbers? && !part.PFresh? && !part.PSchedule?
    ensures Holds(part, d, h, m1)
  {
    assert Holds(part, d, h, m);
    assert Holds(PBackground, d, h, m);
    CompactionFits(d, h, m);
    assert ImmContents(m1) == ImmContents(m) && MemContents(m1) == MemContents(m);
  }

  lemma {:induction false} CompactionInstallsRests(d: Disk, h: History, m: Memory, m1: Memory)
    requires DiskInv(d, h) && MemoryInv(d, h, m) && CompactionInstalls(m, m1)
    ensures Resting(d, h, m1)
  {
    forall part: Part | !part.PSchedule?
      ensures Holds(part, d, h, m1)
    {
      match part
      case PTables => CompactedTables(d, h, m, m1);
      case PNumbers => CompactedFiles(d, h, m, m1);
      case PFresh => CompactedFiles(d, h, m, m1);
      case _ => CompactedFrame(part, d, h, m, m1);
    }
  }

  lemma {:induction false} InstallCompactionKeeps(d: Disk, h: History, m: Memory, needs: bool)
    requires DiskInv(d, h) && MemoryInv(d, h, m)
    requires m.bg.BgWritten? && m.bg.edit.kind.CompactionEdit?
    requires NeedsAllowed(if m.bg.ok then InstallVersion(m, m.bg.edit) else m, needs)
    ensures var (d1, h1, m1) := Install(d, h, m, needs); DiskInv(d1, h1) && MemoryInv(d1, h1, m1)
  {
    OneCall(d, h, m);
    if m.bg.ok {
      var m1 := DropJob(InstallVersion(m, m.bg.edit));
      CompactionInstallsRests(d, h, m, m1.(bg := BgIdle));
      CleanUpKeeps(d, h, m1, needs);
    } else {
      CompactionFits(d, h, m);
      ErrorDropRests(d, h, m);
      ErrorSame(m);
      CleanUpKeeps(d, h, DropJob(RecordBackgroundError(m)), needs);
    }
  }

  lemma {:induction false} InstallMoveKeeps(d: Disk, h: History, m: Memory, needs: bool)
    requires DiskInv(d, h) && MemoryInv(d, h, m)
    requires m.bg.BgWritten? && m.bg.edit.kind.MoveEdit?
    requires NeedsAllowed(if m.bg.ok then InstallVersion(m, m.bg.edit) else m, needs)
    ensures var (d1, h1, m1) := Install(d, h, m, needs); DiskInv(d1, h1) && MemoryInv(d1, h1, m1)
  {
    OneCall(d, h, m);
    CompactionFits(d, h, m);
    if m.bg.ok {
      var m1 := InstallVersion(m, m.bg.edit);
      CompactionInstallsRests(d, h, m, m1.(bg := BgIdle));
      EndCallKeeps(d, h, m1, needs);
    } else {
      ErrorRests(d, h, m);
      ErrorSame(m);
      EndCallKeeps(d, h, RecordBackgroundError(m), needs);
    }
  }

  lemma {:induction false} InstallKeeps(d: Disk, h: History, m: Memory, needs: bool)
    requires DiskInv(d, h) && MemoryInv(d, h, m)
    requires m.bg.BgWritten?
    requires NeedsAllowed(if m.bg.ok then InstallVersion(m, m.bg.edit) else m, needs)
    ensures var (d1, h1, m1) := Install(d, h, m, needs); DiskInv(d1, h1) && MemoryInv(d1, h1, m1)
  {
    match m.bg.edit.kind
    case FlushEdit => InstallFlushKeeps(d, h, m, needs);
    case CompactionEdit => InstallCompactionKeeps(d, h, m, needs);
    case MoveEdit => InstallMoveKeeps(d, h, m, needs);
  }

  // The compaction's own steps.

  lemma {:induction false} JobOpenKeeps(d: Disk, h: History, m: Memory)
    requires DiskInv(d, h) && MemoryInv(d, h, m)
    requires m.bg.BgMerging? && m.job.Some? && m.job.value.open.None? && m.job.value.remaining != {}
    ensures var (d1, m1) := JobOpen(d, m); DiskInv(d1, h) && MemoryInv(d1, h, m1)
  {
    var (d1, m1) := JobOpen(d, m);
    var n := m.versions.nextFile;
    assert Holds(PNumbers, d, h, m);
    TablesChange(d, h, m, d1.tables);
    forall part: Part | !part.PSchedule?
      ensures Holds(part, d1, h, m1)
    {
      assert Holds(part, d1, h, m);
    }
    RestedKeeps(d, h, m, d1, h, m1);
  }

  lemma {:induction false} OutputWritten(d: Disk, m: Memory, h: History, chunk: set<Entry>)
    requires MemoryInv(d, h, m)
    requires m.bg.BgMerging? && m.job.Some? && m.job.value.open.Some? && chunk <= m.job.value.remaining
    ensures var (d1, m1) := JobFinishFile(d, m, chunk);
            Union(d1.tables, m1.job.value.outputs) == Union(d.tables, m.job.value.outputs) + chunk
  {
    assert Holds(PFresh, d, h, m);
    UnionAdd(d.tables, m.job.value.outputs, m.job.value.open.value, chunk);
  }

  /** Finishing an output moves its entries from what is still to write to what is written. */
  lemma {:induction false} JobFinishKeeps(d: Disk, h: History, m: Memory, chunk: set<Entry>)
    requires DiskInv(d, h) && MemoryInv(d, h, m)
    requires m.bg.BgMerging? && m.job.Some? && m.job.value.open.Some? && chunk <= m.job.value.remaining
    ensures var (d1, m1) := JobFinishFile(d, m, chunk); DiskInv(d1, h) && MemoryInv(d1, h, m1)
  {
    var (d1, m1) := JobFinishFile(d, m, chunk);
    assert Holds(PFresh, d, h, m);
    TablesChange(d, h, m, d1.tables);
    forall part: Part | !part.PSchedule?
      ensures Holds(part, d1, h, m1)
    {
      assert Holds(part, d1, h, m);
      if part.PJob? {
        JobFinishJob(d, h, m, chunk);
      } else {
        JobFinishFrame(part, d1, h, m, m1);
      }
    }
    RestedKeeps(d, h, m, d1, h, m1);
  }

  lemma {:induction false} JobFinishJob(d: Disk, h: History, m: Memory, chunk: set<Entry>)
    requires MemoryInv(d, h, m)
    requires m.bg.BgMerging? && m.job.Some? && m.job.value.open.Some? && chunk <= m.job.value.remaining
    requires Holds(PJob, JobFinishFile(d, m, chunk).0, h, m)
    ensures var (d1, m1) := JobFinishFile(d, m, chunk); Holds(PJob, d1, h, m1)
  {
    assert Holds(PFresh, d, h, m);
    assert Holds(PJob, d, h, m);
    OutputWritten(d, m, h, chunk);
  }

  /** The open output becomes a finished one: the same files are the compaction's. */
  lemma {:induction false} JobFinishFrame(part: Part, d: Disk, h: History, m: Memory, m1: Memory)
    requires Holds(part, d, h, m) && !part.PJob? && !part.PSchedule? && m.bg.BgMerging?
    requires m.job.Some? && m.job.value.open.Some? && m1 == m.(job := m1.job) && m1.job.Some?
    requires var job, job1 := m.job.value, m1.job.value;
             job1 == job.(open := None, outputs := job.outputs + {job.open.value}, remaining := job1.remaining)
    ensures Holds(part, d, h, m1)
  {
    assert JobFiles(m1.job) == JobFiles(m.job);
  }

  lemma {:induction false} JobEditFits(d: Disk, h: History, m: Memory)
    requires DiskInv(d, h) && MemoryInv(d, h, m)
    requires m.bg.BgMerging? && m.job.Some? && m.job.value.open.None? && m.job.value.remaining == {}
    ensures var edit := JobApply(m).bg.edit;
            && EditFits(edit, d.tables, m.versions, m.mem, m.imm, ImmContents(m), m.job)
            && EditOk(edit, d, h.committed, h.logged, m.versions, ImmContents(m), m.job)
  {
    var edit := JobApply(m).bg.edit;
    assert Holds(PJob, d, h, m);
    assert Holds(PNumbers, d, h, m);
    assert edit.added.Keys == m.job.value.outputs;
    NewEditOk(d, h, m, edit);
  }

  lemma {:induction false} JobApplyKeeps(d: Disk, h: History, m: Memory)
    requires DiskInv(d, h) && MemoryInv(d, h, m)
    requires m.bg.BgMerging? && m.job.Some? && m.job.value.open.None? && m.job.value.remaining == {}
    ensures MemoryInv(d, h, JobApply(m))
  {
    JobEditFits(d, h, m);
    forall part: Part
      ensures Holds(part, d, h, JobApply(m))
    {
      assert Holds(part, d, h, m);
    }
  }
}
