/** A record can outlive its write: a run in which AddRecord fails after the record has
  become durable, and a flush then retires the log that holds it. */
module DbFailedRecord {
  import opened Entries
  import opened DbState
  import opened DbSteps

  ghost predicate Ends(states: seq<State>, steps: seq<Step>, s: State) {
    IsRun(states, steps) && states[|steps|] == s
  }

  lemma {:induction false} Extend(states: seq<State>, steps: seq<Step>, s: State, step: Step, t: State)
    returns (longer: seq<State>, more: seq<Step>)
    requires Ends(states, steps, s) && Enabled(s, step) && Next(s, step) == t
    ensures Ends(longer, more, t)
  {
    longer, more := states + [t], steps + [step];
    forall i | 0 <= i < |more|
      ensures StepTaken(longer, more, i)
    {
      if i < |steps| {
        assert StepTaken(states, steps, i);
        assert more[i] == steps[i] && longer[i] == states[i] && longer[i + 1] == states[i + 1];
      }
    }
  }

  // The write that fails, and a null write that forces a rotation.

  const OP: Op := Put(1, "x")
  const WRITE: Writer := Writer(0, Some([OP]), 1, false)
  const FORCE: Writer := Writer(1, None, 0, false)
  const GROUP: Group := Group([WRITE], 1, [OP], false, true)

  // The states on the way.

  function NoHistory(): History { History({}, {}, 0, {}, {}) }

  function NewDisk(): Disk { Disk(map[], map[], Versions(map[], 0, 0, 2)) }

  function NewRecovery(): Recovery { Recovery(Versions(map[], 0, 0, 3), [], map[], 0, true, None, {}, false) }

  function LoggedDisk(): Disk { NewDisk().(logs := map[3 := []]) }

  function Replayed(): Recovery {
    NewRecovery().(versions := Versions(map[], 0, 0, 4), mem := Some(3), replayed := true)
  }

  function OpenDisk(): Disk { LoggedDisk().(manifest := Versions(map[], 3, 0, 4)) }

  function Opened(): Memory {
    Memory(Versions(map[], 3, 0, 4), 3, None, map[3 := {}], [], map[], {}, false, false, false, 0,
           BgIdle, None, [], NoLeader, map[], [])
  }

  lemma {:induction false} OpeningRun() returns (states: seq<State>, steps: seq<Step>)
    ensures Ends(states, steps, Running(OpenDisk(), NoHistory(), Opened()))
  {
    var recovering := Recovering(NewDisk(), NoHistory(), NewRecovery());
    var replayed := Recovering(LoggedDisk(), NoHistory(), Replayed());
    Begin();
    OpenLogs();
    Commit();
    states, steps := Extend([InitState()], [], InitState(), BeginRecoveryStep([], true), recovering);
    states, steps := Extend(states, steps, recovering, OpenLogStep, replayed);
    states, steps := Extend(states, steps, replayed, OpenCommitStep(true, true, false),
                            Running(OpenDisk(), NoHistory(), Opened()));
  }

  lemma {:induction false} Begin()
    ensures Enabled(InitState(), BeginRecoveryStep([], true))
    ensures Next(InitState(), BeginRecoveryStep([], true)) == Recovering(NewDisk(), NoHistory(), NewRecovery())
  {
  }

  lemma {:induction false} OpenLogs()
    ensures var s := Recovering(NewDisk(), NoHistory(), NewRecovery());
            Enabled(s, OpenLogStep) && Next(s, OpenLogStep) == Recovering(LoggedDisk(), NoHistory(), Replayed())
  {
  }

  lemma {:induction false} NoFiles()
    ensures LevelCount(map[], 0) == 0
  {
    var none: map<nat, nat> := map[];
    assert (set f | f in none && none[f] == 0) == {};
  }

  lemma {:induction false} Commit()
    ensures var s, step := Recovering(LoggedDisk(), NoHistory(), Replayed()), OpenCommitStep(true, true, false);
            Enabled(s, step) && Next(s, step) == Running(OpenDisk(), NoHistory(), Opened())
  {
    NoFiles();
    assert EditFiles(OpenEdit(Replayed()), map[]) == map[];
    assert OpenMemory(Replayed()) == Opened();
    var d1 := OpenManifest(LoggedDisk(), NoHistory(), Replayed()).0;
    assert Recovered(LoggedDisk(), Replayed()) == {};
    assert DeleteObsolete(d1, Opened()) == OpenDisk();
  }

  // The failed write.

  function Queued(): Memory { Opened().(writers := [WRITE]) }

  function Leading(): Memory { Queued().(leader := MakingRoom(false, true)) }

  function Writing(): Memory { Queued().(leader := Logging(GROUP)) }

  function FailedWrite(): Memory { Queued().(leader := Failed(GROUP, false)) }

  function AppendedDisk(): Disk { OpenDisk().(logs := map[3 := [Record(1, [OP])]]) }

  function AppendedHistory(): History { NoHistory().(logged := Batch(1, [OP])) }

  function Reported(): Memory {
    Opened().(versions := Versions(map[], 3, 1, 4), results := map[0 := false], groups := [GROUP.(ok := false)])
  }

  lemma {:induction false} OneWriter()
    ensures BuildGroup([WRITE], 1) == GROUP
  {
    assert [WRITE][..GrowGroup([WRITE], 1)] == [WRITE];
    assert [WRITE][..0] == [];
    assert OpsOf([WRITE]) == OpsOf([]) + [OP];
  }

  lemma {:induction false} Grouped()
    ensures var s, step := Running(OpenDisk(), NoHistory(), Leading()), RoomStep(false, true, false);
            Enabled(s, step) && Next(s, step) == Running(OpenDisk(), NoHistory(), Writing())
  {
    NoFiles();
    OneWriter();
  }

  lemma {:induction false} Appended()
    ensures var s, step := Running(OpenDisk(), NoHistory(), Writing()), AddRecordStep(false, true);
            Enabled(s, step) && Next(s, step) == Running(AppendedDisk(), AppendedHistory(), FailedWrite())
  {
    var d := OpenDisk();
    assert NoHistory().logged + Batch(1, [OP]) == Batch(1, [OP]);
    assert d.logs[3] + [Record(1, [OP])] == [Record(1, [OP])];
    assert d.logs[3 := d.logs[3] + [Record(1, [OP])]] == AppendedDisk().logs;
  }

  lemma {:induction false} Refused()
    ensures var s := Running(AppendedDisk(), AppendedHistory(), FailedWrite());
            Enabled(s, PublishStep) && Next(s, PublishStep) == Running(AppendedDisk(), AppendedHistory(), Reported())
  {
    var none: seq<Writer> := [];
    assert [WRITE][..1] == [WRITE] && [WRITE][..0] == none;
    assert MarkDone(map[], [WRITE], false) == MarkDone(map[], none, false)[0 := false];
  }

  lemma {:induction false} GroupRun() returns (states: seq<State>, steps: seq<Step>)
    ensures Ends(states, steps, Running(OpenDisk(), NoHistory(), Writing()))
  {
    var d, h := OpenDisk(), NoHistory();
    states, steps := OpeningRun();
    Grouped();
    states, steps := Extend(states, steps, Running(d, h, Opened()), Enqueue(WRITE), Running(d, h, Queued()));
    states, steps := Extend(states, steps, Running(d, h, Queued()), StartLeader, Running(d, h, Leading()));
    states, steps := Extend(states, steps, Running(d, h, Leading()), RoomStep(false, true, false),
                            Running(d, h, Writing()));
  }

  lemma {:induction false} FailedRun() returns (states: seq<State>, steps: seq<Step>)
    ensures Ends(states, steps, Running(AppendedDisk(), AppendedHistory(), Reported()))
  {
    var d, h := AppendedDisk(), AppendedHistory();
    states, steps := GroupRun();
    Appended();
    Refused();
    states, steps := Extend(states, steps, Running(OpenDisk(), NoHistory(), Writing()), AddRecordStep(false, true),
                            Running(d, h, FailedWrite()));
    states, steps := Extend(states, steps, Running(d, h, FailedWrite()), PublishStep, Running(d, h, Reported()));
  }

  // The rotation and the flush.

  function RotatedDisk(): Disk { AppendedDisk().(logs := map[3 := [Record(1, [OP])], 4 := []]) }

  function Forcing(): Memory { Reported().(writers := [FORCE], leader := MakingRoom(true, false)) }

  function Switched(): Memory {
    Forcing().(versions := Versions(map[], 3, 1, 5), imm := Some(3), mem := 4, heap := map[3 := {}, 4 := {}],
               leader := MakingRoom(false, false), scheduled := true, queued := 1)
  }

  function Flushing(bg: Background): Memory {
    Switched().(versions := Versions(map[], 3, 1, 6), queued := 0, bg := bg)
  }

  const EDIT: Edit := Edit(FlushEdit, map[], {}, 4, 1, 6)

  lemma {:induction false} Switches()
    ensures var s, step := Running(AppendedDisk(), AppendedHistory(), Forcing()), RoomStep(false, true, true);
            Enabled(s, step) && Next(s, step) == Running(RotatedDisk(), AppendedHistory(), Switched())
  {
    NoFiles();
  }

  lemma {:induction false} Starts()
    ensures var s, step := Running(RotatedDisk(), AppendedHistory(), Switched()), BeginCallStep(PickNothing, true);
            && Enabled(s, step)
            && Next(s, step) == Running(RotatedDisk(), AppendedHistory(), Flushing(BgBuilding(5)).(pending := {5}))
  {
  }

  lemma {:induction false} Builds()
    ensures var d, h := RotatedDisk(), AppendedHistory();
            var s, step := Running(d, h, Flushing(BgBuilding(5)).(pending := {5})), BuildStep(true);
            Enabled(s, step) && Next(s, step) == Running(d, h, Flushing(BgBuilt(5, true)).(pending := {5}))
  {
    var d, m := RotatedDisk(), Flushing(BgBuilding(5)).(pending := {5});
    assert Contents(m.heap, m.imm) == {};
    assert d.tables - {5} == d.tables;
  }

  lemma {:induction false} Applies()
    ensures var d, h := RotatedDisk(), AppendedHistory();
            var s, step := Running(d, h, Flushing(BgBuilt(5, true)).(pending := {5})), FlushApplyStep(0, true);
            Enabled(s, step) && Next(s, step) == Running(d, h, Flushing(BgWriting(EDIT)))
  {
    var m := Flushing(BgBuilt(5, true)).(pending := {5});
    assert Contents(m.heap, m.imm) == {};
    assert m.pending - {5} == {};
  }

  lemma {:induction false} RotationRun() returns (states: seq<State>, steps: seq<Step>)
    ensures Ends(states, steps, Running(RotatedDisk(), AppendedHistory(), Switched()))
  {
    var d, h, before := AppendedDisk(), AppendedHistory(), Reported().(writers := [FORCE]);
    states, steps := FailedRun();
    Switches();
    states, steps := Extend(states, steps, Running(d, h, Reported()), Enqueue(FORCE), Running(d, h, before));
    states, steps := Extend(states, steps, Running(d, h, before), StartLeader, Running(d, h, Forcing()));
    states, steps := Extend(states, steps, Running(d, h, Forcing()), RoomStep(false, true, true),
                            Running(RotatedDisk(), h, Switched()));
  }

  lemma {:induction false} FlushRun() returns (states: seq<State>, steps: seq<Step>)
    ensures Ends(states, steps, Running(RotatedDisk(), AppendedHistory(), Flushing(BgWriting(EDIT))))
  {
    var d, h := RotatedDisk(), AppendedHistory();
    var building, built := Flushing(BgBuilding(5)).(pending := {5}), Flushing(BgBuilt(5, true)).(pending := {5});
    states, steps := RotationRun();
    Starts();
    Builds();
    Applies();
    states, steps := Extend(states, steps, Running(d, h, Switched()), BeginCallStep(PickNothing, true),
                            Running(d, h, building));
    states, steps := Extend(states, steps, Running(d, h, building), BuildStep(true), Running(d, h, built));
    states, steps := Extend(states, steps, Running(d, h, built), FlushApplyStep(0, true),
                            Running(d, h, Flushing(BgWriting(EDIT))));
  }

  /** The counterexample: a reachable state about to commit a flush, whose memtable's log holds
    a record that no committed table will hold. */
  lemma {:induction false} RecordIsRetired() returns (states: seq<State>, steps: seq<Step>, e: Entry)
    ensures IsRun(states, steps) && states[|steps|].Running?
    ensures var d, h, m := states[|steps|].disk, states[|steps|].hist, states[|steps|].m;
            && m.bg.BgWriting? && m.bg.edit.kind.FlushEdit? && m.imm.Some? && m.imm.value in d.logs
            && e in Replay(d.logs[m.imm.value]) && e !in WriteManifest(d, h, m, true, true).1.committed
            && m.imm.value < WriteManifest(d, h, m, true, true).0.manifest.logNumber
  {
    states, steps := FlushRun();
    e := Entry(1, OP);
    NotCommitted(e);
  }

  lemma {:induction false} NotCommitted(e: Entry)
    requires e == Entry(1, OP)
    ensures var d, h, m := RotatedDisk(), AppendedHistory(), Flushing(BgWriting(EDIT));
            e in Replay(d.logs[3]) && e !in WriteManifest(d, h, m, true, true).1.committed
  {
    ReplaySnoc([], Record(1, [OP]));
    assert [] + [Record(1, [OP])] == [Record(1, [OP])];
    assert e in Batch(1, [OP]);
  }
}
