/** DBImpl as it is written: fields updated in place under the mutex. Each method is one
  stretch of code during which the mutex is held, proved to do what the step of the same
  name does to the view of the fields. */
module DbImpl {
  import opened Entries
  import opened DbState
  import opened DbSteps
  import opened DbInvariant

  /** Names found in the database directory. */
  datatype FileName = LogFile(number: nat) | TableFile(number: nat) | OtherFile

  class DBImpl {
    var logs: map<nat, seq<Record>>
    var tables: map<nat, set<Entry>>
    var manifest: Versions

    var versions: Versions
    var mem: nat
    var imm: Option<nat>
    var heap: map<nat, set<Entry>>
    var snapshots: seq<nat>
    var readers: map<nat, Reader>
    var pendingOutputs: set<nat>
    var bgError: bool
    var shuttingDown: bool
    var backgroundCompactionScheduled: bool
    var queued: nat
    var bg: Background
    var job: Option<Job>
    var writers: seq<Writer>
    var leader: Leader
    var results: map<nat, bool>
    var groups: seq<Group>

    function View(): Memory
      reads this
    {
      Memory(versions, mem, imm, heap, snapshots, readers, pendingOutputs, bgError, shuttingDown,
             backgroundCompactionScheduled, queued, bg, job, writers, leader, results, groups)
    }

    function Files(): Disk
      reads this
    {
      Disk(logs, tables, manifest)
    }

    // Signals, errors and scheduling.

    /** background_work_finished_signal_.SignalAll. */
    method SignalAll()
      modifies `leader
      ensures View() == DbSteps.SignalAll(old(View()))
    {
      match leader {
        case WaitingForRoom(force, allowDelay) => leader := MakingRoom(force, allowDelay);
        case _ =>
      }
    }

    method RecordBackgroundError()
      modifies `leader, `bgError
      ensures View() == DbSteps.RecordBackgroundError(old(View()))
    {
      if !bgError {
        bgError := true;
        SignalAll();
      }
    }

    method MaybeScheduleCompaction(needs: bool)
      modifies `backgroundCompactionScheduled, `queued
      ensures View() == MaybeSchedule(old(View()), needs)
    {
      if !backgroundCompactionScheduled && !shuttingDown && !bgError && (imm != None || needs) {
        backgroundCompactionScheduled := true;
        queued := queued + 1;
      }
    }

    // Writes.

    /** The group the front writer leads: how many writers, and their operations in order. */
    method BuildBatchGroup() returns (count: nat, result: seq<Op>)
      requires writers != [] && writers[0].batch.Some?
      ensures count == GrowGroup(writers, 1)
      ensures result == OpsOf(writers[..count])
    {
      var first := writers[0];
      result := first.batch.value;
      var size := first.size;
      var maxSize := 1024 * 1024;
      if size <= 128 * 1024 {
        maxSize := size + 128 * 1024;
      }
      count := 1;
      assert writers[..1][..0] == [];
      while count < |writers|
        invariant 1 <= count <= |writers|
        invariant size == BytesOf(writers, count)
        invariant result == OpsOf(writers[..count])
        invariant forall i :: 1 <= i < count ==> Joins(writers, i)
      {
        var w := writers[count];
        if w.sync && !first.sync {
          break;
        }
        if w.batch.Some? {
          size := size + w.size;
          if size > maxSize {
            break;
          }
          result := result + w.batch.value;
        }
        assert writers[..count + 1][..count] == writers[..count];
        count := count + 1;
      }
      GrowStops(writers, 1, count);
    }

    /** The end of Write: pops the writers of the group and tells each the status. */
    method FinishWriters(count: nat, status: bool)
      requires 0 < count <= |writers|
      modifies `writers, `results, `leader
      ensures writers == old(writers)[count..] && leader == NoLeader
      ensures results == MarkDone(old(results), old(writers)[..count], status)
    {
      var popped := 0;
      assert old(writers)[..0] == [];
      while true
        invariant popped < count
        invariant writers == old(writers)[popped..]
        invariant results == MarkDone(old(results), old(writers)[..popped], status)
        decreases count - popped
      {
        var ready := writers[0];
        MarkOneMore(old(results), old(writers), popped, status);
        writers := writers[1..];
        results := results[ready.id := status];
        popped := popped + 1;
        if popped == count {
          break;
        }
      }
      leader := NoLeader;
    }

    /** One pass of the loop in MakeRoomForWrite and, when it ends, Write up to the next
      release of the mutex. */
    method MakeRoomForWrite(memFull: bool, newLogOk: bool, needs: bool)
      requires leader.MakingRoom? && writers != []
      modifies this
      ensures (Files(), View()) == Room(old(Files()), old(View()), memFull, newLogOk, needs)
    {
      var force, allowDelay := leader.force, leader.allowDelay;
      if bgError {
        FinishWriters(1, false);
      } else if allowDelay && LevelCount(versions.files, 0) >= L0_SLOWDOWN_WRITES_TRIGGER {
        // The pause itself takes no step; it happens once for each write.
        leader := MakingRoom(force, false);
      } else if !force && !memFull {
        if writers[0].batch == None {
          FinishWriters(1, true);
        } else {
          StartGroup();
        }
      } else if imm != None {
        leader := WaitingForRoom(force, allowDelay);
      } else if LevelCount(versions.files, 0) >= L0_STOP_WRITES_TRIGGER {
        leader := WaitingForRoom(force, allowDelay);
      } else if !newLogOk {
        // ReuseFileNumber returns the number NewFileNumber took: nextFile is as before.
        FinishWriters(1, false);
      } else {
        SwitchLog(needs);
      }
    }

    method SwitchLog(needs: bool)
      requires leader.MakingRoom?
      modifies this
      ensures Files() == old(Files()).(logs := old(logs)[old(versions).nextFile := []])
      ensures View() == MaybeSchedule(Rotated(old(View())), needs)
    {
      SwitchMemTable();
      assert View() == Rotated(old(View()));
      MaybeScheduleCompaction(needs);
    }

    /** The next file number names a new log and the memtable it feeds. */
    method SwitchMemTable()
      requires leader.MakingRoom?
      modifies `logs, `versions, `imm, `mem, `heap, `leader
      ensures logs == old(logs)[mem := []] && versions == old(versions).(nextFile := mem + 1)
      ensures mem == old(versions).nextFile && imm == Some(old(mem)) && heap == old(heap)[mem := {}]
      ensures leader == MakingRoom(false, old(leader).allowDelay)
    {
      var newLogNumber := versions.nextFile;
      versions := versions.(nextFile := newLogNumber + 1);
      logs := logs[newLogNumber := []];
      imm := Some(mem);
      mem := newLogNumber;
      heap := heap[mem := {}];
      leader := MakingRoom(false, leader.allowDelay);
    }

    method StartGroup()
      requires leader.MakingRoom? && writers != [] && writers[0].batch.Some?
      modifies `leader
      ensures leader == Logging(BuildGroup(writers, versions.lastSequence + 1))
    {
      var count, ops := BuildBatchGroup();
      leader := Logging(Group(writers[..count], versions.lastSequence + 1, ops, false, true));
    }

    /** WriteBatchInternal::InsertInto, with the mutex released and no step in between. */
    method InsertInto()
      requires leader.Inserting? && leader.done == 0 && mem in heap
      modifies `heap, `leader
      ensures leader == Inserting(old(leader).group, |old(leader).group.ops|)
      ensures heap == old(heap)[mem := old(heap[mem]) + Batch(leader.group.first, leader.group.ops)]
    {
      var g := leader.group;
      assert g.ops[..0] == [] && heap[mem] + Batch(g.first, []) == heap[mem];
      while leader.done < |g.ops|
        invariant leader.Inserting? && leader.group == g && leader.done <= |g.ops|
        invariant mem in heap
        invariant heap == old(heap)[mem := old(heap[mem]) + Batch(g.first, g.ops[..leader.done])]
      {
        var i := leader.done;
        InsertNext(old(heap[mem]), g, i);
        heap := heap[mem := heap[mem] + {Entry(g.first + i, g.ops[i])}];
        leader := Inserting(g, i + 1);
      }
      assert g.ops[..|g.ops|] == g.ops;
    }

    method NoteSyncError()
      requires leader.Failed? || leader.Inserting?
      modifies `leader, `bgError
      ensures leader == old(leader)
      ensures bgError == (old(bgError) || (leader.Failed? && leader.syncError))
    {
      if leader.Failed? && leader.syncError {
        RecordBackgroundError();
      }
    }

    /** The rest of Write, with the mutex held again. */
    method FinishWrite(ghost h: History)
      requires ReadyToPublish(View()) && leader.group.writers != []
      modifies `versions, `bgError, `writers, `results, `leader, `groups
      ensures View() == Publish(h, old(View())).1
    {
      FinishGroup();
      PublishFields(h, old(View()), versions, bgError, writers, results, groups);
    }

    /** RecordBackgroundError, SetLastSequence, and the group's writers are answered. */
    method FinishGroup()
      requires (leader.Failed? || leader.Inserting?) && 1 <= leader.group.first
      requires 0 < |leader.group.writers| <= |writers|
      modifies `versions, `bgError, `writers, `results, `leader, `groups
      ensures leader == NoLeader
      ensures var g, ok, n := old(leader).group, old(leader).Inserting?, |old(leader).group.writers|;
              && versions == old(versions).(lastSequence := g.first + |g.ops| - 1)
              && writers == old(writers)[n..] && results == MarkDone(old(results), old(writers)[..n], ok)
              && groups == old(groups) + [g.(ok := ok)]
      ensures bgError == (old(bgError) || (old(leader).Failed? && old(leader).syncError))
    {
      var g, ok := leader.group, leader.Inserting?;
      NoteSyncError();
      versions := versions.(lastSequence := g.first + |g.ops| - 1);
      FinishWriters(|g.writers|, ok);
      groups := groups + [g.(ok := ok)];
    }

    // The background thread.

    /** DeleteObsoleteFiles, given what GetChildren lists: every log and table on disk. After an
      error the manifest may be ahead of the version, and nothing is deleted. */
    method DeleteObsoleteFiles(filenames: seq<FileName>)
      requires forall n :: n in logs ==> LogFile(n) in filenames
      requires forall f :: f in tables ==> TableFile(f) in filenames
      modifies `logs, `tables
      ensures Files() == DeleteObsolete(old(Files()), View())
    {
      if bgError {
        return;
      }
      var live := LiveFiles(View());
      var i := 0;
      while i < |filenames|
        invariant i <= |filenames|
        invariant SweptLogs(old(logs), logs, filenames[..i], versions.logNumber)
        invariant SweptTables(old(tables), tables, filenames[..i], live)
      {
        assert filenames[..i + 1] == filenames[..i] + [filenames[i]];
        DeleteIfObsolete(filenames[i], live);
        i := i + 1;
      }
      assert filenames[..|filenames|] == filenames;
      SweptAll(old(Files()), Files(), View(), filenames);
    }

    method DeleteIfObsolete(name: FileName, live: set<nat>)
      modifies `logs, `tables
      ensures logs == old(logs) - if name.LogFile? && name.number < versions.logNumber then {name.number} else {}
      ensures tables == old(tables) - if name.TableFile? && name.number !in live then {name.number} else {}
    {
      match name {
        case LogFile(n) =>
          if n < versions.logNumber {
            logs := logs - {n};
          }
        case TableFile(f) =>
          if f !in live {
            tables := tables - {f};
          }
        case OtherFile =>
      }
    }

    /** CleanupCompaction, given the numbers in compact->outputs, the open one included. */
    method CleanupCompaction(outputs: seq<nat>)
      requires job.Some? && forall n :: n in outputs <==> n in JobFiles(job)
      modifies `pendingOutputs, `job
      ensures View() == DropJob(old(View()))
    {
      var i := 0;
      while i < |outputs|
        invariant i <= |outputs| && job == old(job)
        invariant pendingOutputs == old(pendingOutputs) - (set n | n in outputs[..i])
      {
        pendingOutputs := pendingOutputs - {outputs[i]};
        assert outputs[..i + 1] == outputs[..i] + [outputs[i]];
        i := i + 1;
      }
      assert outputs[..|outputs|] == outputs;
      assert (set n | n in outputs) == JobFiles(job);
      job := None;
    }
  }

  /** Of the listed logs those before from are gone. */
  ghost predicate SweptLogs(before: map<nat, seq<Record>>, after: map<nat, seq<Record>>, names: seq<FileName>,
                            from: nat) {
    && (forall n :: n in after <==> n in before && (n >= from || LogFile(n) !in names))
    && forall n :: n in after ==> after[n] == before[n]
  }

  /** Of the listed tables those not live are gone. */
  ghost predicate SweptTables(before: map<nat, set<Entry>>, after: map<nat, set<Entry>>, names: seq<FileName>,
                              live: set<nat>) {
    && (forall f :: f in after <==> f in before && (f in live || TableFile(f) !in names))
    && forall f :: f in after ==> after[f] == before[f]
  }

  lemma {:induction false} SweptAll(d: Disk, d1: Disk, m: Memory, names: seq<FileName>)
    requires forall n :: n in d.logs ==> LogFile(n) in names
    requires forall f :: f in d.tables ==> TableFile(f) in names
    requires SweptLogs(d.logs, d1.logs, names, m.versions.logNumber)
             && SweptTables(d.tables, d1.tables, names, LiveFiles(m))
    requires d1.manifest == d.manifest && !m.bgError
    ensures d1 == DeleteObsolete(d, m)
  {
    assert d1.logs == DeleteObsolete(d, m).logs;
    assert d1.tables == DeleteObsolete(d, m).tables;
  }

  lemma {:induction false} InsertNext(before: set<Entry>, g: Group, i: nat)
    requires i < |g.ops|
    ensures before + Batch(g.first, g.ops[..i]) + {Entry(g.first + i, g.ops[i])} ==
            before + Batch(g.first, g.ops[..i + 1])
  {
    var front := g.ops[..i + 1];
    assert front[..|front| - 1] == g.ops[..i];
  }

  /** What publishing changes, field by field. */
  lemma {:induction false} PublishFields(h: History, m: Memory, versions: Versions, bgError: bool, writers: seq<Writer>,
                                         results: map<nat, bool>, groups: seq<Group>)
    requires ReadyToPublish(m)
    requires versions == m.versions.(lastSequence := m.leader.group.first + |m.leader.group.ops| - 1)
    requires bgError == (m.bgError || (m.leader.Failed? && m.leader.syncError))
    requires writers == m.writers[|m.leader.group.writers|..]
    requires results == MarkDone(m.results, m.writers[..|m.leader.group.writers|], m.leader.Inserting?)
    requires groups == m.groups + [m.leader.group.(ok := m.leader.Inserting?)]
    ensures Publish(h, m).1 ==
            Memory(versions, m.mem, m.imm, m.heap, m.snapshots, m.readers, m.pending, bgError, m.shuttingDown,
                   m.scheduled, m.queued, m.bg, m.job, writers, NoLeader, results, groups)
  {
  }

  lemma {:induction false} MarkOneMore(results: map<nat, bool>, ws: seq<Writer>, n: nat, ok: bool)
    requires n < |ws|
    ensures MarkDone(results, ws[..n + 1], ok) == MarkDone(results, ws[..n], ok)[ws[n].id := ok]
  {
    var done := ws[..n + 1];
    assert done[..|done| - 1] == ws[..n] && done[|done| - 1] == ws[n];
  }

  /** The loop's stopping point is the group the step takes. */
  lemma {:induction false} GrowStops(ws: seq<Writer>, n: nat, k: nat)
    requires 0 < n <= k <= |ws|
    requires forall i :: n <= i < k ==> Joins(ws, i)
    requires k < |ws| ==> !Joins(ws, k)
    ensures GrowGroup(ws, n) == k
    decreases k - n
  {
    if n == k {
    } else {
      assert Joins(ws, n);
      GrowStops(ws, n + 1, k);
    }
  }
}
