/** Making room for a write: when a write waits, when the memtable is switched, and that a
  write without a batch, which is made to force the memtable out, does so. */
module DbRoom {
  import opened DbState
  import opened DbSteps
  import opened DbInvariant
  import opened DbProofBackground
  import opened DbProofWriters
  import opened DbSafety
  import opened DbGroups

  /** A write that allows a delay gives way once while there are eight level-0 files or more. If
    the memtable is full, or a switch is forced, it waits as long as imm is in the way or there
    are twelve level-0 files; no write goes into a full memtable. */
  lemma {:induction false} WhenWritesWait(d: Disk, m: Memory, memFull: bool, newLogOk: bool, needs: bool)
    requires m.leader.MakingRoom? && m.writers != []
    ensures var (force, count) := (m.leader.force, LevelCount(m.versions.files, 0));
            var m1 := Room(d, m, memFull, newLogOk, needs).1;
            var pauses := !m.bgError && m.leader.allowDelay && 8 <= count;
            && (pauses ==> m1 == m.(leader := MakingRoom(force, false)))
            && (m1.leader.WaitingForRoom? <==>
                  !m.bgError && !pauses && (force || memFull) && (m.imm.Some? || 12 <= count))
            && (m1.leader.Logging? ==> !m.bgError && !force && !memFull)
  {
    ScheduleWakes(Rotated(m), needs);
  }

  /** The memtable is switched only if it is full or a switch is forced, imm is free, and there
    are fewer than twelve level-0 files. */
  lemma {:induction false} WhenMemtableSwitches(d: Disk, m: Memory, memFull: bool, newLogOk: bool, needs: bool)
    requires m.leader.MakingRoom? && m.writers != []
    requires Room(d, m, memFull, newLogOk, needs).1.mem != m.mem
    ensures !m.bgError && (m.leader.force || memFull) && m.imm.None? && LevelCount(m.versions.files, 0) < 12
  {
  }

  // A forced switch.

  /** The write is at the front and asks for a switch. */
  predicate Forcing(m: Memory, id: nat) {
    && (m.leader.MakingRoom? || m.leader.WaitingForRoom?) && m.leader.force
    && m.writers != [] && m.writers[0].id == id
  }

  /** It still does, or has failed. */
  predicate NotYet(m: Memory, id: nat) {
    Forcing(m, id) || (id in m.results && !m.results[id])
  }

  lemma {:induction false} NextIsUnused(d: Disk, h: History, m: Memory)
    requires Inv(Running(d, h, m))
    ensures m.versions.nextFile != m.mem
  {
    assert Holds(PNumbers, d, h, m);
    assert Holds(PMemtables, d, h, m);
  }

  lemma {:induction false} ForcedRoomEnds(d: Disk, m: Memory, memFull: bool, newLogOk: bool, needs: bool)
    requires m.leader.MakingRoom? && m.leader.force && m.writers != []
    ensures var m1 := Room(d, m, memFull, newLogOk, needs).1;
            || m1 == m.(leader := MakingRoom(true, false))
            || m1 == m.(leader := WaitingForRoom(true, m.leader.allowDelay))
            || m1 == PopWriters(m, 1, false)
            || m1 == MaybeSchedule(Rotated(m), needs)
  {
  }

  predicate Forces(m: Memory, m1: Memory, id: nat) {
    m1.mem == m.mem ==> NotYet(m1, id)
  }

  ghost predicate StateForces(m: Memory, s1: State, id: nat) {
    s1.Running? && Forces(m, s1.m, id)
  }

  lemma {:induction false} PopFails(m: Memory, id: nat)
    requires Forcing(m, id)
    ensures NotYet(PopWriters(m, 1, false), id)
  {
    MarkDoneIs(m.results, m.writers[..1], false);
  }

  lemma {:induction false} RoomForces(d: Disk, h: History, m: Memory, memFull: bool, newLogOk: bool, needs: bool,
                                      id: nat)
    requires Inv(Running(d, h, m)) && m.leader.MakingRoom? && Forcing(m, id)
    ensures Forces(m, Room(d, m, memFull, newLogOk, needs).1, id)
  {
    ForcedRoomEnds(d, m, memFull, newLogOk, needs);
    PopFails(m, id);
    NextIsUnused(d, h, m);
    ScheduleWakes(Rotated(m), needs);
  }

  lemma {:induction false} BackgroundForces(d: Disk, h: History, m: Memory, step: Step, id: nat)
    requires RunningEnabled(d, m, step) && IsBackgroundStep(step) && Forcing(m, id)
    ensures StateForces(m, NextRunning(d, h, m, step), id)
  {
    BackgroundServesNone(d, h, m, step);
  }

  lemma {:induction false} OtherForces(d: Disk, h: History, m: Memory, step: Step, id: nat)
    requires RunningEnabled(d, m, step) && !IsBackgroundStep(step) && !step.RoomStep? && !step.CrashStep?
    requires Forcing(m, id)
    ensures StateForces(m, NextRunning(d, h, m, step), id)
  {
  }

  lemma {:induction false} StepForces(d: Disk, h: History, m: Memory, step: Step, id: nat)
    requires Inv(Running(d, h, m)) && RunningEnabled(d, m, step) && !step.CrashStep? && Forcing(m, id)
    ensures StateForces(m, NextRunning(d, h, m, step), id)
  {
    if IsBackgroundStep(step) {
      BackgroundForces(d, h, m, step, id);
    } else if step.RoomStep? {
      RoomForces(d, h, m, step.memFull, step.newLogOk, step.needs, id);
    } else {
      OtherForces(d, h, m, step, id);
    }
  }

  lemma {:induction false} RunForces(states: seq<State>, steps: seq<Step>, i: nat, id: nat)
    requires IsRun(states, steps) && i < |steps| && states[i].Running? && states[i + 1].Running?
    requires NotYet(states[i].m, id) && states[i + 1].m.mem == states[i].m.mem
    ensures NotYet(states[i + 1].m, id)
  {
    if Forcing(states[i].m, id) {
      RunKeeps(states, steps, i);
      assert StepTaken(states, steps, i);
      StepForces(states[i].disk, states[i].hist, states[i].m, steps[i], id);
    } else {
      ResultsStand(states, steps, i, i + 1, id);
    }
  }

  ghost predicate NoSwitch(states: seq<State>, i: nat, j: nat)
    requires i <= j < |states|
  {
    states[i].Running? && forall x :: i <= x <= j ==> states[x].Running? && states[x].m.mem == states[i].m.mem
  }

  lemma {:induction false} KeepsForcing(states: seq<State>, steps: seq<Step>, i: nat, j: nat, id: nat)
    requires IsRun(states, steps) && i <= j < |states| && NoSwitch(states, i, j) && NotYet(states[i].m, id)
    ensures NotYet(states[j].m, id)
  {
    if i == j {
    } else {
      KeepsForcing(states, steps, i, j - 1, id);
      RunForces(states, steps, j - 1, id);
    }
  }

  /** Over a run: a write without a batch does not succeed before the memtable has been switched. */
  lemma {:induction false} ForcedWriteSwitches(states: seq<State>, steps: seq<Step>, i: nat, j: nat, id: nat)
    requires IsRun(states, steps) && i < j < |states| && NoSwitch(states, i, j)
    requires steps[i] == StartLeader && states[i].m.writers != [] && states[i].m.writers[0].batch.None?
    requires states[i].m.writers[0].id == id
    ensures id in states[j].m.results ==> !states[j].m.results[id]
  {
    assert StepTaken(states, steps, i);
    KeepsForcing(states, steps, i + 1, j, id);
    RunKeeps(states, steps, j);
    assert Holds(PQueue, states[j].disk, states[j].hist, states[j].m);
  }
}
