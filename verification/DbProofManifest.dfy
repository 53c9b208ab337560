/** From a flushed memtable to the manifest record: WriteLevel0Table, CompactMemTable and
  the durable half of LogAndApply. */
module DbProofManifest {
  import opened Entries
  import opened Compaction
  import opened DbState
  import opened DbSteps
  import opened DbInvariant
  import opened DbProofBackground
  import opened DbProofTables
  import opened DbProofWriters

  /** With a call outstanding, keeping the other parts keeps scheduling too. */
  lemma {:induction false} RestedKeeps(d: Disk, h: History, m: Memory, d1: Disk, h1: History, m1: Memory)
    requires MemoryInv(d, h, m) && Resting(d1, h1, m1)
    requires !m.bg.BgIdle? && !m1.bg.BgIdle?
    requires m1.queued == m.queued && m1.scheduled == m.scheduled && m1.shuttingDown == m.shuttingDown
    requires m1.imm == m.imm && m1.versions.files == m.versions.files && m1.bgError == m.bgError
             && m1.leader == m.leader
    ensures MemoryInv(d1, h1, m1)
  {
    assert Holds(PSchedule, d, h, m);
    forall part: Part
      ensures Holds(part, d1, h1, m1)
    {
    }
  }

  lemma {:induction false} BuildTableKeeps(d: Disk, h: History, m: Memory, ok: bool)
    requires DiskInv(d, h) && MemoryInv(d, h, m)
    requires m.bg.BgBuilding?
    ensures var (d1, m1) := BuildTable(d, m, ok); DiskInv(d1, h) && MemoryInv(d1, h, m1)
  {
    var (d1, m1) := BuildTable(d, m, ok);
    assert Holds(PFresh, d, h, m);
    assert d1 == d.(tables := d1.tables);
    TablesChange(d, h, m, d1.tables);
    forall part: Part | !part.PSchedule?
      ensures Holds(part, d1, h, m1)
    {
      assert Holds(part, d1, h, m);
    }
    RestedKeeps(d, h, m, d1, h, m1);
  }

  /** The table is built: it leaves pending_outputs_ before any version names it. */
  lemma {:induction false} UnpendedRests(d: Disk, h: History, m: Memory, bg: Background)
    requires MemoryInv(d, h, m)
    requires m.bg.BgBuilt? && bg == if m.job.Some? then BgMerging else BgIdle
    ensures Resting(d, h, m.(pending := m.pending - {m.bg.file}, bg := bg))
  {
    var m1 := m.(pending := m.pending - {m.bg.file}, bg := bg);
    forall part: Part | !part.PSchedule?
      ensures Holds(part, d, h, m1)
    {
      assert Holds(part, d, h, m);
    }
  }

  lemma {:induction false} FlushFailsKeeps(d: Disk, h: History, m: Memory, needs: bool)
    requires MemoryInv(d, h, m)
    requires m.bg.BgBuilt? && NeedsAllowed(m, needs)
    ensures MemoryInv(d, h, AfterFlush(RecordBackgroundError(m.(pending := m.pending - {m.bg.file})), needs))
  {
    var m1 := m.(pending := m.pending - {m.bg.file});
    var bg := if m.job.Some? then BgMerging else BgIdle;
    var failed := RecordBackgroundError(m1);
    ErrorWakes(m1);
    UnpendedRests(d, h, m, bg);
    RestingWakes(d, h, m1.(bg := bg), failed.(bg := bg));
    OneCall(d, h, m);
    AfterFlushKeeps(d, h, failed, needs);
  }

  function FlushEditOf(m: Memory, file: nat, level: nat): Edit {
    Edit(FlushEdit, if Contents(m.heap, m.imm) != {} then map[file := level] else map[], {}, m.mem,
         m.versions.lastSequence, m.versions.nextFile)
  }

  lemma {:induction false} FlushEditFits(d: Disk, h: History, m: Memory, level: nat)
    requires DiskInv(d, h) && MemoryInv(d, h, m)
    requires m.bg.BgBuilt? && m.bg.ok
    ensures var edit := FlushEditOf(m, m.bg.file, level);
            && EditFits(edit, d.tables, m.versions, m.mem, m.imm, ImmContents(m), m.job)
            && EditOk(edit, d, h.committed, h.logged, m.versions, ImmContents(m), m.job)
  {
    var edit := FlushEditOf(m, m.bg.file, level);
    assert Holds(PBackground, d, h, m);
    assert Holds(PNumbers, d, h, m);
    NewEditOk(d, h, m, edit);
    if ImmContents(m) != {} {
      assert edit.added.Keys == {m.bg.file};
      assert Union(d.tables, {m.bg.file}) == d.tables[m.bg.file];
    }
  }

  /** The built table is on its way to the manifest: what changes. */
  ghost predicate Applies(m: Memory, m1: Memory, edit: Edit) {
    && m.bg.BgBuilt? && edit.kind.FlushEdit? && edit.added.Keys <= {m.bg.file}
    && m1 == m.(pending := m.pending - {m.bg.file}, bg := BgWriting(edit))
  }

  lemma {:induction false} AppliesFrame(part: Part, d: Disk, h: History, m: Memory, m1: Memory, edit: Edit)
    requires Holds(part, d, h, m) && Applies(m, m1, edit) && !part.PBackground? && !part.PLevels?
    ensures Holds(part, d, h, m1)
  {
    assert ImmContents(m1) == ImmContents(m) && MemContents(m1) == MemContents(m) && Live(h, m1) == Live(h, m);
  }

  lemma {:induction false} AppliesLevels(d: Disk, h: History, m: Memory, m1: Memory, edit: Edit)
    requires Holds(PLevels, d, h, m) && Applies(m, m1, edit) && forall f :: f in edit.added ==> edit.added[f] <= 2
    ensures Holds(PLevels, d, h, m1)
  {
  }

  lemma {:induction false} FlushAppliesKeeps(d: Disk, h: History, m: Memory, level: nat)
    requires DiskInv(d, h) && MemoryInv(d, h, m)
    requires m.bg.BgBuilt? && m.bg.ok && level <= MAX_MEM_COMPACT_LEVEL
    ensures MemoryInv(d, h, m.(pending := m.pending - {m.bg.file}, bg := BgWriting(FlushEditOf(m, m.bg.file, level))))
  {
    var edit := FlushEditOf(m, m.bg.file, level);
    var m1 := m.(pending := m.pending - {m.bg.file}, bg := BgWriting(edit));
    FlushEditFits(d, h, m, level);
    assert edit.added.Keys <= {m.bg.file};
    forall part: Part
      ensures Holds(part, d, h, m1)
    {
      assert Holds(part, d, h, m);
      if part.PLevels? {
        AppliesLevels(d, h, m, m1, edit);
      } else if !part.PBackground? {
        AppliesFrame(part, d, h, m, m1, edit);
      }
    }
  }

  lemma {:induction false} FlushApplyKeeps(d: Disk, h: History, m: Memory, level: nat, needs: bool)
    requires DiskInv(d, h) && MemoryInv(d, h, m)
    requires m.bg.BgBuilt? && level <= MAX_MEM_COMPACT_LEVEL && NeedsAllowed(m, needs)
    ensures MemoryInv(d, h, FlushApply(m, level, needs))
  {
    if !m.bg.ok || m.shuttingDown {
      FlushFailsKeeps(d, h, m, needs);
    } else {
      FlushAppliesKeeps(d, h, m, level);
    }
  }

  // The manifest record.

  /** What becomes durable with edit: all but the compaction's input is as before. */
  ghost function Committed(h: History, m: Memory, edit: Edit): History {
    h.(committed := if edit.kind.FlushEdit? then h.committed + ImmContents(m) else h.committed,
       floor := if edit.kind.CompactionEdit? && m.job.Some? then m.job.value.smallest else h.floor)
  }

  /** Adding the flushed memtable as a table on top. */
  lemma {:induction false} FlushTables(tables: map<nat, set<Entry>>, files: set<nat>, added: set<nat>,
                                       full: set<Entry>, imm: set<Entry>, floor: nat)
    requires TablesOk(tables, files, full, floor)
    requires added <= tables.Keys && Union(tables, added) == imm
    requires Consistent(full + imm) && Tops(imm, full)
    ensures TablesOk(tables, files + added, full + imm, floor)
  {
    UnionSplit(tables, files, added);
    SameFromTop(floor, Union(tables, files), full, imm);
  }

  /** Replacing the inputs of a finished compaction by its outputs. */
  lemma {:induction false} CompactionTables(tables: map<nat, set<Entry>>, files: set<nat>, job: Job, full: set<Entry>,
                                            floor: nat, later: nat)
    requires TablesOk(tables, files, full, floor) && floor <= later && job.smallest <= later
    requires InputOk(tables, files, job) && Consistent(full)
    requires job.outputs <= tables.Keys
    requires KeepSet(Union(tables, job.inputs), job.smallest, job.base) == Union(tables, job.outputs)
    ensures TablesOk(tables, files - job.inputs + job.outputs, full, later)
  {
    var rest, input := Union(tables, files - job.inputs), Union(tables, job.inputs);
    assert files == files - job.inputs + job.inputs;
    UnionSplit(tables, files - job.inputs, job.inputs);
    UnionSplit(tables, files - job.inputs, job.outputs);
    CompactionPreservesReads(input, rest, job.smallest, job.base);
    SameFromWeaken(job.smallest, later, rest + Union(tables, job.outputs), rest + input);
    SameFromWeaken(floor, later, Union(tables, files), full);
    SameFromTransitive(later, rest + Union(tables, job.outputs), Union(tables, files), full);
  }

  /** Where imm stands between the tables and the newest log. */
  lemma {:induction false} ImmStands(d: Disk, h: History, m: Memory)
    requires DiskInv(d, h) && MemoryInv(d, h, m)
    ensures Tops(ImmContents(m), h.committed) && Tops(ImmContents(m), h.flushed)
    ensures h.committed + ImmContents(m) <= h.logged && h.flushed + ImmContents(m) <= h.logged
    ensures Consistent(h.logged)
    ensures Consistent(h.committed + ImmContents(m)) && Consistent(h.flushed + ImmContents(m))
  {
    assert DiskHolds(PHistory, d, h);
    assert Holds(PLayers, d, h, m);
    assert Holds(PSync, d, h, m);
    LiveIsLogged(d, h, m);
  }

  lemma {:induction false} EditFilesKeys(edit: Edit, files: map<nat, nat>)
    ensures EditFiles(edit, files).Keys == files.Keys - edit.removed + edit.added.Keys
  {
  }

  lemma {:induction false} ManifestTables(d: Disk, h: History, m: Memory)
    requires DiskInv(d, h) && MemoryInv(d, h, m) && m.bg.BgWriting?
    ensures TablesOk(d.tables, EditFiles(m.bg.edit, d.manifest.files).Keys, Committed(h, m, m.bg.edit).committed,
                     Committed(h, m, m.bg.edit).floor)
  {
    var edit := m.bg.edit;
    var files := d.manifest.files.Keys;
    EditFilesKeys(edit, d.manifest.files);
    assert Holds(PBackground, d, h, m);
    assert DiskHolds(PManifestTables, d, h);
    ImmStands(d, h, m);
    match edit.kind
    case FlushEdit =>
      assert files - edit.removed == files;
      FlushTables(d.tables, files, edit.added.Keys, h.committed, ImmContents(m), h.floor);
    case CompactionEdit =>
      assert Holds(PSnapshots, d, h, m);
      assert Holds(PJob, d, h, m);
      CompactionTables(d.tables, files, m.job.value, h.committed, h.floor, m.job.value.smallest);
    case MoveEdit =>
      assert files - edit.removed + edit.added.Keys == files;
  }

  /** Above mem there is no log, so what is kept from mem on is exactly its log. */
  lemma {:induction false} NewestLog(logs: map<nat, seq<Record>>, mem: nat)
    requires mem in logs && forall n :: n in logs ==> n <= mem
    ensures LogsFrom(logs, mem) == Replay(logs[mem])
  {
    LogWithin(logs, mem, mem);
  }

  /** What an older log holds is older than what the newest one holds. */
  lemma {:induction false} OldIsOlder(logs: map<nat, seq<Record>>, mem: nat, from: nat, b: Entry)
    requires LogsOrdered(logs) && mem in logs && forall n :: n in logs ==> n <= mem
    requires b in LogsFrom(logs, from) && b !in Replay(logs[mem])
    ensures Below({b}, Replay(logs[mem]))
  {
    var k :| k in logs && from <= k && b in Replay(logs[k]);
    assert Below(Replay(logs[k]), Replay(logs[mem]));
  }

  lemma {:induction false} OlderLog(logs: map<nat, seq<Record>>, mem: nat, from: nat, below: set<Entry>)
    requires LogsOrdered(logs) && mem in logs && forall n :: n in logs ==> n <= mem
    requires from <= mem && Tops(LogsFrom(logs, from), below)
    ensures Tops(Replay(logs[mem]), below)
  {
    var log, kept := Replay(logs[mem]), LogsFrom(logs, from);
    LogWithin(logs, mem, from);
    forall t, b | t in log && b in below
      ensures b.sequence < t.sequence || b in log
    {
      assert b.sequence < t.sequence || b in kept;
      if b in kept && b !in log {
        OldIsOlder(logs, mem, from, b);
      }
    }
  }

  lemma {:induction false} BelowMem(logs: map<nat, seq<Record>>, mem: nat, imm: nat, es: set<Entry>)
    requires LogsOrdered(logs) && mem in logs && imm in logs && imm < mem && es <= Replay(logs[imm])
    ensures Below(es, Replay(logs[mem])) && es !! Replay(logs[mem])
  {
    assert Below(Replay(logs[imm]), Replay(logs[mem]));
    BelowIsApart(es, Replay(logs[mem]));
  }

  lemma {:induction false} BelowIsApart(a: set<Entry>, b: set<Entry>)
    requires Below(a, b)
    ensures a !! b
  {
  }

  /** Once imm is in a table, the newest log still tops all tables. */
  lemma {:induction false} LogTops(d: Disk, h: History, m: Memory)
    requires DiskInv(d, h) && MemoryInv(d, h, m) && m.imm.Some?
    ensures Tops(LogsFrom(d.logs, m.mem), h.flushed + ImmContents(m))
    ensures m.mem in d.logs && ImmContents(m) !! Replay(d.logs[m.mem])
  {
    assert Holds(PMemtables, d, h, m);
    assert Holds(PSync, d, h, m);
    assert DiskHolds(PLogOrder, d, h);
    NewestLog(d.logs, m.mem);
    OlderLog(d.logs, m.mem, m.versions.logNumber, h.flushed);
    BelowMem(d.logs, m.mem, m.imm.value, ImmContents(m));
  }

  lemma {:induction false} ApartJoin(logs: map<nat, seq<Record>>, mem: nat, committed: set<Entry>, es: set<Entry>)
    requires Apart(logs, committed) && mem in logs && (forall n :: n in logs ==> n <= mem)
    requires es !! Replay(logs[mem])
    ensures Apart(logs, committed + es)
  {
  }

  lemma {:induction false} CommittedApart(d: Disk, h: History, m: Memory)
    requires DiskInv(d, h) && MemoryInv(d, h, m) && m.imm.Some?
    ensures Apart(d.logs, h.committed + ImmContents(m))
  {
    LogTops(d, h, m);
    assert Holds(PMemtables, d, h, m);
    assert DiskHolds(PApart, d, h);
    ApartJoin(d.logs, m.mem, h.committed, ImmContents(m));
  }

  lemma {:induction false} KeptTops(d: Disk, h: History, m: Memory)
    requires DiskInv(d, h) && MemoryInv(d, h, m)
    ensures Tops(LogsFrom(d.logs, m.versions.logNumber), h.committed)
  {
    assert Holds(PMemtables, d, h, m);
    assert Holds(PSync, d, h, m);
    if m.imm.Some? {
      LogWithin(d.logs, m.imm.value, m.versions.logNumber);
    }
  }

  /** The entries a retired log held are in committed tables: log retirement is safe. */
  lemma {:induction false} AckedStays(d: Disk, h: History, m: Memory, edit: Edit)
    requires MemoryInv(d, h, m)
    requires edit.kind.FlushEdit? ==> m.imm.Some? && edit.logNumber == m.mem
    requires !edit.kind.FlushEdit? ==> edit.logNumber == m.versions.logNumber
    ensures h.acked <= Committed(h, m, edit).committed + LogsFrom(d.logs, edit.logNumber)
  {
    assert Holds(PMemtables, d, h, m);
    assert Holds(PLayers, d, h, m);
    assert Holds(PSync, d, h, m);
    LogWithin(d.logs, m.mem, edit.logNumber);
    if m.imm.Some? && !edit.kind.FlushEdit? {
      LogWithin(d.logs, m.imm.value, edit.logNumber);
    }
  }

  lemma {:induction false} ManifestNumbers(d: Disk, h: History, m: Memory, d1: Disk, h1: History)
    requires DiskInv(d, h) && MemoryInv(d, h, m) && m.bg.BgWriting?
    requires d1 == d.(manifest := ApplyEdit(m.bg.edit, d.manifest)) && h1 == Committed(h, m, m.bg.edit)
    ensures ManifestOk(d1, h1)
  {
    assert Holds(PBackground, d, h, m);
    assert DiskHolds(PManifest, d, h);
    EditFilesKeys(m.bg.edit, d.manifest.files);
  }

  lemma {:induction false} ManifestKeepsDisk(d: Disk, h: History, m: Memory, d1: Disk, h1: History)
    requires DiskInv(d, h) && MemoryInv(d, h, m) && m.bg.BgWriting?
    requires d1 == d.(manifest := ApplyEdit(m.bg.edit, d.manifest)) && h1 == Committed(h, m, m.bg.edit)
    ensures DiskInv(d1, h1)
  {
    var edit := m.bg.edit;
    assert Holds(PBackground, d, h, m);
    assert EditFits(edit, d.tables, m.versions, m.mem, m.imm, ImmContents(m), m.job);
    forall part: DiskPart
      ensures DiskHolds(part, d1, h1)
    {
      match part
      case PHistory =>
        assert DiskHolds(part, d, h);
        ImmStands(d, h, m);
      case PApart =>
        assert DiskHolds(part, d, h);
        if edit.kind.FlushEdit? {
          CommittedApart(d, h, m);
        }
      case PManifestTables => ManifestTables(d, h, m);
      case PManifestAcked => AckedStays(d, h, m, edit);
      case PManifestTop =>
        if edit.kind.FlushEdit? {
          LogTops(d, h, m);
          assert Holds(PSync, d, h, m);
        } else {
          KeptTops(d, h, m);
        }
      case PManifest => ManifestNumbers(d, h, m, d1, h1);
      case PLogOrder => assert DiskHolds(part, d, h);
    }
  }

  // The manifest record and the open database.

  ghost predicate ManifestWrites(d: Disk, h: History, m: Memory, d1: Disk, h1: History, m1: Memory, ok: bool) {
    && m.bg.BgWriting?
    && d1 == d.(manifest := ApplyEdit(m.bg.edit, d.manifest))
    && h1 == Committed(h, m, m.bg.edit)
    && m1 == m.(bg := BgWritten(m.bg.edit, ok))
  }

  /** A nested flush puts its table above the inputs of the running compaction. */
  lemma {:induction false} InputStays(tables: map<nat, set<Entry>>, files: set<nat>, added: set<nat>, job: Job,
                                      flushed: set<Entry>, imm: set<Entry>)
    requires InputOk(tables, files, job) && Union(tables, job.inputs) <= flushed
    requires Union(tables, added) == imm && Tops(imm, flushed)
    requires added !! job.inputs
    ensures InputOk(tables, files + added, job)
  {
    UnionSplit(tables, files - job.inputs, added);
    assert files + added - job.inputs == files - job.inputs + added;
  }

  lemma {:induction false} ManifestJob(d: Disk, h: History, m: Memory, d1: Disk, h1: History, m1: Memory, ok: bool)
    requires DiskInv(d, h) && MemoryInv(d, h, m) && ManifestWrites(d, h, m, d1, h1, m1, ok)
    ensures Holds(PJob, d1, h1, m1)
  {
    assert Holds(PJob, d, h, m);
    assert Holds(PBackground, d, h, m);
    if m.job.Some? && m.bg.edit.kind.FlushEdit? {
      FlushEditJob(d, h, m, d1, h1, m1, ok);
    } else {
      OtherEditJob(d, h, m, d1, h1, m1, ok);
    }
  }

  lemma {:induction false} FlushEditJob(d: Disk, h: History, m: Memory, d1: Disk, h1: History, m1: Memory, ok: bool)
    requires DiskInv(d, h) && MemoryInv(d, h, m) && ManifestWrites(d, h, m, d1, h1, m1, ok)
    requires m.job.Some? && m.bg.edit.kind.FlushEdit?
    requires EditFits(m.bg.edit, d.tables, m.versions, m.mem, m.imm, ImmContents(m), m.job)
    requires Holds(PJob, d, h, m)
    ensures Holds(PJob, d1, h1, m1)
  {
    EditFilesKeys(m.bg.edit, d.manifest.files);
    assert d.manifest.files.Keys - {} == d.manifest.files.Keys;
    FlushJob(d, h, m, m.bg.edit);
  }

  /** A move finds no job; the compaction's own edit leaves only the version's side to it. */
  lemma {:induction false} OtherEditJob(d: Disk, h: History, m: Memory, d1: Disk, h1: History, m1: Memory, ok: bool)
    requires ManifestWrites(d, h, m, d1, h1, m1, ok) && Holds(PJob, d, h, m)
    requires EditFits(m.bg.edit, d.tables, m.versions, m.mem, m.imm, ImmContents(m), m.job)
    requires m.job.None? || !m.bg.edit.kind.FlushEdit?
    ensures Holds(PJob, d1, h1, m1)
  {
  }

  lemma {:induction false} FlushJob(d: Disk, h: History, m: Memory, edit: Edit)
    requires DiskInv(d, h) && MemoryInv(d, h, m)
    requires m.job.Some? && edit.kind.FlushEdit?
    requires m.bg == BgWriting(edit) || (m.bg.BgWritten? && m.bg.edit == edit)
    requires EditFits(edit, d.tables, m.versions, m.mem, m.imm, ImmContents(m), m.job)
    ensures InputOk(d.tables, d.manifest.files.Keys + edit.added.Keys, m.job.value)
    ensures InputOk(d.tables, m.versions.files.Keys + edit.added.Keys, m.job.value)
  {
    assert Holds(PJob, d, h, m);
    var job := m.job.value;
    assert edit.added.Keys !! job.inputs by {
      assert Holds(PFresh, d, h, m);
    }
    ImmStands(d, h, m);
    InputStays(d.tables, d.manifest.files.Keys, edit.added.Keys, job, h.flushed, ImmContents(m));
    InputStays(d.tables, m.versions.files.Keys, edit.added.Keys, job, h.flushed, ImmContents(m));
  }

  lemma {:induction false} ManifestFloor(d: Disk, h: History, m: Memory, d1: Disk, h1: History, m1: Memory, ok: bool)
    requires MemoryInv(d, h, m) && ManifestWrites(d, h, m, d1, h1, m1, ok)
    ensures h.floor <= h1.floor && Holds(PSnapshots, d1, h1, m1) && Holds(PTables, d1, h1, m1)
  {
    assert Holds(PSnapshots, d, h, m);
    assert Holds(PTables, d, h, m);
    SameFromWeaken(h.floor, h1.floor, Union(d.tables, m.versions.files.Keys), h.flushed);
  }

  lemma {:induction false} ManifestSync(d: Disk, h: History, m: Memory, d1: Disk, h1: History, m1: Memory, ok: bool)
    requires MemoryInv(d, h, m) && ManifestWrites(d, h, m, d1, h1, m1, ok)
    ensures Holds(PSync, d1, h1, m1) && Holds(PMemtables, d1, h1, m1)
  {
    assert Holds(PMemtables, d, h, m);
    assert Holds(PSync, d, h, m);
    assert Holds(PBackground, d, h, m);
  }

  lemma {:induction false} ManifestWritten(d: Disk, h: History, m: Memory, d1: Disk, h1: History, m1: Memory, ok: bool)
    requires MemoryInv(d, h, m) && ManifestWrites(d, h, m, d1, h1, m1, ok)
    ensures Holds(PBackground, d1, h1, m1) && Holds(PInStep, d1, h1, m1)
  {
    assert Holds(PInStep, d, h, m);
    assert Holds(PBackground, d, h, m);
    assert Holds(PSnapshots, d, h, m);
    assert EditFits(m.bg.edit, d.tables, m.versions, m.mem, m.imm, ImmContents(m), m.job);
  }

  lemma {:induction false} ManifestFiles(d: Disk, h: History, m: Memory, d1: Disk, h1: History, m1: Memory, ok: bool)
    requires MemoryInv(d, h, m) && ManifestWrites(d, h, m, d1, h1, m1, ok)
    ensures Holds(PNumbers, d1, h1, m1) && Holds(PFresh, d1, h1, m1)
  {
    var edit := m.bg.edit;
    EditFilesKeys(edit, d.manifest.files);
    assert Holds(PBackground, d, h, m);
    assert EditFits(edit, d.tables, m.versions, m.mem, m.imm, ImmContents(m), m.job);
    assert Holds(PNumbers, d, h, m);
    assert Holds(PFresh, d, h, m);
    var before := Settled(m.versions.files, d.manifest.files, m.readers, m.job);
    var after := Settled(m.versions.files, d1.manifest.files, m.readers, m.job);
    assert after <= before + edit.added.Keys;
    match edit.kind
    case MoveEdit => assert after <= before;
    case _ =>
  }

  lemma {:induction false} ManifestRetires(d: Disk, h: History, m: Memory, d1: Disk, h1: History, m1: Memory, ok: bool)
    requires MemoryInv(d, h, m) && ManifestWrites(d, h, m, d1, h1, m1, ok)
    ensures Holds(PRetired, d1, h1, m1)
  {
    assert Holds(PMemtables, d, h, m);
    assert Holds(PBackground, d, h, m);
    assert Holds(PRetired, d, h, m);
  }

  predicate ReadsManifest(part: Part) {
    part.PRetired? || part.PMemtables? || part.PSync? || part.PInStep? || part.PNumbers? || part.PFresh?
    || part.PJob? || part.PBackground?
    || part.PSnapshots? || part.PTables?
  }

  lemma {:induction false} ManifestTouched(part: Part, d: Disk, h: History, m: Memory, d1: Disk, h1: History,
                                           m1: Memory, ok: bool)
    requires DiskInv(d, h) && MemoryInv(d, h, m) && ManifestWrites(d, h, m, d1, h1, m1, ok)
    requires ReadsManifest(part)
    ensures Holds(part, d1, h1, m1)
  {
    match part
    case PRetired => ManifestRetires(d, h, m, d1, h1, m1, ok);
    case PJob => ManifestJob(d, h, m, d1, h1, m1, ok);
    case PBackground => ManifestWritten(d, h, m, d1, h1, m1, ok);
    case PInStep => ManifestWritten(d, h, m, d1, h1, m1, ok);
    case PSync => ManifestSync(d, h, m, d1, h1, m1, ok);
    case PMemtables => ManifestSync(d, h, m, d1, h1, m1, ok);
    case PNumbers => ManifestFiles(d, h, m, d1, h1, m1, ok);
    case PFresh => ManifestFiles(d, h, m, d1, h1, m1, ok);
    case PSnapshots => ManifestFloor(d, h, m, d1, h1, m1, ok);
    case PTables => ManifestFloor(d, h, m, d1, h1, m1, ok);
  }

  lemma {:induction false} ManifestFrame(part: Part, d: Disk, h: History, m: Memory, d1: Disk, h1: History,
                                         m1: Memory, ok: bool)
    requires MemoryInv(d, h, m) && ManifestWrites(d, h, m, d1, h1, m1, ok)
    requires !ReadsManifest(part)
    ensures Holds(part, d1, h1, m1)
  {
    assert Holds(part, d, h, m);
    assert ImmContents(m1) == ImmContents(m) && MemContents(m1) == MemContents(m);
  }

  lemma {:induction false} NotDurableKeeps(d: Disk, h: History, m: Memory)
    requires MemoryInv(d, h, m) && m.bg.BgWriting?
    ensures MemoryInv(d, h, m.(bg := BgWritten(m.bg.edit, false)))
  {
    forall part: Part
      ensures Holds(part, d, h, m.(bg := BgWritten(m.bg.edit, false)))
    {
      assert Holds(part, d, h, m);
    }
  }

  lemma {:induction false} WriteManifestKeeps(d: Disk, h: History, m: Memory, ok: bool, durable: bool)
    requires DiskInv(d, h) && MemoryInv(d, h, m)
    requires m.bg.BgWriting? && (ok ==> durable)
    ensures var (d1, h1, m1) := WriteManifest(d, h, m, ok, durable); DiskInv(d1, h1) && MemoryInv(d1, h1, m1)
  {
    var (d1, h1, m1) := WriteManifest(d, h, m, ok, durable);
    if durable {
      assert ManifestWrites(d, h, m, d1, h1, m1, ok);
      ManifestKeepsDisk(d, h, m, d1, h1);
      forall part: Part
        ensures Holds(part, d1, h1, m1)
      {
        if ReadsManifest(part) {
          ManifestTouched(part, d, h, m, d1, h1, m1, ok);
        } else {
          ManifestFrame(part, d, h, m, d1, h1, m1, ok);
        }
      }
    } else {
      NotDurableKeeps(d, h, m);
    }
  }
}
