/** The steps of DBImpl::Write keep the invariant. */
module DbProofWriters {
  import opened Entries
  import opened DbState
  import opened DbSteps
  import opened DbInvariant

  /** The parts about the queue, its leader and the results given. */
  predicate ReadsQueue(part: Part) {
    part.PSequences? || part.PSchedule? || part.PQueue? || part.PGroups? || part.PExplained?
  }

  /** The other parts do not notice when the queue moves. */
  lemma {:induction false} QueueFrame(part: Part, d: Disk, h: History, m: Memory, m1: Memory)
    requires Holds(part, d, h, m) && !ReadsQueue(part)
    requires m1 == m.(writers := m1.writers, results := m1.results, leader := m1.leader)
    ensures Holds(part, d, h, m1)
  {
    assert ImmContents(m1) == ImmContents(m) && MemContents(m1) == MemContents(m);
  }

  lemma {:induction false} EnqueueKeeps(d: Disk, h: History, m: Memory, w: Writer)
    requires MemoryInv(d, h, m)
    requires w.id !in m.results && forall x :: x in m.writers ==> x.id != w.id
    ensures MemoryInv(d, h, m.(writers := m.writers + [w]))
  {
    forall part: Part
      ensures Holds(part, d, h, m.(writers := m.writers + [w]))
    {
      assert Holds(part, d, h, m);
      if !ReadsQueue(part) {
        QueueFrame(part, d, h, m, m.(writers := m.writers + [w]));
      }
    }
  }

  /** The leader moves between states in which it holds no group. */
  lemma {:induction false} LeaderMoves(d: Disk, h: History, m: Memory, leader: Leader)
    requires MemoryInv(d, h, m)
    requires !HasGroup(m.leader) && !HasGroup(leader) && m.writers != []
    requires leader.WaitingForRoom? ==> WorkToDo(m.imm, m.versions.files) && !m.bgError
    ensures MemoryInv(d, h, m.(leader := leader))
  {
    forall part: Part
      ensures Holds(part, d, h, m.(leader := leader))
    {
      assert Holds(part, d, h, m);
      if ReadsQueue(part) {
        LeaderMovesQueue(part, d, h, m, leader);
      } else {
        QueueFrame(part, d, h, m, m.(leader := leader));
      }
    }
  }

  lemma {:induction false} LeaderMovesQueue(part: Part, d: Disk, h: History, m: Memory, leader: Leader)
    requires Holds(part, d, h, m) && ReadsQueue(part)
    requires !HasGroup(m.leader) && !HasGroup(leader) && m.writers != []
    requires leader.WaitingForRoom? ==> WorkToDo(m.imm, m.versions.files) && !m.bgError
    ensures Holds(part, d, h, m.(leader := leader))
  {
  }

  lemma {:induction false} SyncSequences(flushed: set<Entry>, imm: set<Entry>, mem: set<Entry>, logged: set<Entry>,
                                         last: nat, g: Group, ok: bool, log: set<Entry>)
    requires SequencesOk(flushed, imm, mem, logged, last, Syncing(g), log)
    ensures SequencesOk(flushed, imm, mem, logged, last,
                        if ok then Inserting(g.(synced := true), 0) else Failed(g, true), log)
  {
    assert g.ops[..0] == [];
  }

  lemma {:induction false} SyncKeeps(d: Disk, h: History, m: Memory, ok: bool)
    requires MemoryInv(d, h, m)
    requires m.leader.Syncing?
    ensures MemoryInv(d, h, AfterSync(m, ok))
  {
    var m1 := AfterSync(m, ok);
    forall part: Part
      ensures Holds(part, d, h, m1)
    {
      assert Holds(part, d, h, m);
      if !ReadsQueue(part) {
        QueueFrame(part, d, h, m, m1);
      } else if part.PSequences? {
        SyncSequences(h.flushed, ImmContents(m), MemContents(m), h.logged, m.versions.lastSequence, m.leader.group, ok,
                      if m.mem in d.logs then Replay(d.logs[m.mem]) else {});
      }
    }
  }

  // Popping finished writers.

  predicate Named(ws: seq<Writer>, id: nat) {
    exists i :: 0 <= i < |ws| && ws[i].id == id
  }

  lemma {:induction false} MarkDoneIs(results: map<nat, bool>, ws: seq<Writer>, ok: bool)
    ensures forall i :: 0 <= i < |ws| ==>
              ws[i].id in MarkDone(results, ws, ok) && MarkDone(results, ws, ok)[ws[i].id] == ok
    ensures forall id :: id in MarkDone(results, ws, ok) <==> id in results || Named(ws, id)
    ensures forall id :: id in results && !Named(ws, id) ==> MarkDone(results, ws, ok)[id] == results[id]
  {
    if ws == [] {
    } else {
      var front, last := ws[..|ws| - 1], ws[|ws| - 1];
      MarkDoneIs(results, front, ok);
      forall id
        ensures Named(ws, id) <==> Named(front, id) || last.id == id
      {
        if Named(front, id) {
          var i :| 0 <= i < |front| && front[i].id == id;
          assert ws[i].id == id;
        }
      }
    }
  }

  /** Exactly once: popping finishes the first n writers and nobody else, and no result
    already given changes. */
  lemma {:induction false} PopFinishes(m: Memory, n: nat, ok: bool)
    requires QueueOk(m.writers, m.results, m.leader)
    requires n <= |m.writers|
    ensures QueueOk(PopWriters(m, n, ok).writers, PopWriters(m, n, ok).results, NoLeader)
    ensures forall i :: 0 <= i < n ==> m.writers[i].id !in m.results
    ensures forall i :: 0 <= i < n ==>
              m.writers[i].id in PopWriters(m, n, ok).results && PopWriters(m, n, ok).results[m.writers[i].id] == ok
    ensures forall id :: id in PopWriters(m, n, ok).results <==> id in m.results || Named(m.writers[..n], id)
    ensures forall id :: id in m.results ==> PopWriters(m, n, ok).results[id] == m.results[id]
  {
    MarkDoneIs(m.results, m.writers[..n], ok);
    forall id | Named(m.writers[..n], id)
      ensures id !in m.results
    {
      var i :| 0 <= i < n && m.writers[..n][i].id == id;
      assert m.writers[i].id !in m.results;
    }
    forall i | n <= i < |m.writers|
      ensures !Named(m.writers[..n], m.writers[i].id)
    {
    }
  }

  lemma {:induction false} GroupsSurvive(groups: seq<Group>, results: map<nat, bool>, later: map<nat, bool>,
                                         s: nat, s': nat)
    requires GroupsOk(groups, results, s) && s <= s'
    requires forall id :: id in results ==> id in later && later[id] == results[id]
    ensures GroupsOk(groups, later, s')
  {
  }

  /** A leader that logs nothing leaves the queue alone. */
  lemma {:induction false} PopOneKeeps(d: Disk, h: History, m: Memory, ok: bool)
    requires MemoryInv(d, h, m)
    requires m.leader.MakingRoom? && m.writers != []
    ensures MemoryInv(d, h, PopWriters(m, 1, ok))
  {
    var m1 := PopWriters(m, 1, ok);
    forall part: Part
      ensures Holds(part, d, h, m1)
    {
      assert Holds(part, d, h, m);
      if part.PQueue? || part.PGroups? {
        PopOneQueue(d, h, m, ok);
      } else if ReadsQueue(part) {
        PopOneRest(part, d, h, m, ok);
      } else {
        QueueFrame(part, d, h, m, m1);
      }
    }
  }

  lemma {:induction false} PopOneRest(part: Part, d: Disk, h: History, m: Memory, ok: bool)
    requires Holds(part, d, h, m) && m.leader.MakingRoom? && m.writers != []
    requires part.PSequences? || part.PSchedule? || part.PExplained?
    ensures Holds(part, d, h, PopWriters(m, 1, ok))
  {
  }

  lemma {:induction false} PopOneQueue(d: Disk, h: History, m: Memory, ok: bool)
    requires MemoryInv(d, h, m) && m.writers != []
    ensures Holds(PQueue, d, h, PopWriters(m, 1, ok)) && Holds(PGroups, d, h, PopWriters(m, 1, ok))
  {
    assert Holds(PQueue, d, h, m);
    assert Holds(PGroups, d, h, m);
    PopFinishes(m, 1, ok);
    GroupsSurvive(m.groups, m.results, PopWriters(m, 1, ok).results, m.versions.lastSequence, m.versions.lastSequence);
  }

  // Building a group.

  /** BuildBatchGroup: a non-empty prefix of the queue, no sync write behind a leader that
    does not sync, as long as the size limit allows. */
  lemma {:induction false} BuildGroupOk(ws: seq<Writer>, first: nat)
    requires ws != [] && ws[0].batch.Some?
    ensures GroupOk(BuildGroup(ws, first)) && !BuildGroup(ws, first).synced
    ensures |BuildGroup(ws, first).writers| <= |ws|
    ensures BuildGroup(ws, first).writers == ws[..|BuildGroup(ws, first).writers|]
  {
    var k := GrowGroup(ws, 1);
    var g := BuildGroup(ws, first);
    forall i | 0 <= i < |g.writers|
      ensures g.writers[i].sync ==> g.writers[0].sync
    {
      if 0 < i {
        assert Joins(ws, i);
      }
    }
  }

  lemma {:induction false} StartGroupKeeps(d: Disk, h: History, m: Memory)
    requires MemoryInv(d, h, m)
    requires m.leader.MakingRoom? && m.writers != [] && m.writers[0].batch.Some?
    ensures MemoryInv(d, h, m.(leader := Logging(BuildGroup(m.writers, m.versions.lastSequence + 1))))
  {
    var g := BuildGroup(m.writers, m.versions.lastSequence + 1);
    BuildGroupOk(m.writers, m.versions.lastSequence + 1);
    forall part: Part
      ensures Holds(part, d, h, m.(leader := Logging(g)))
    {
      assert Holds(part, d, h, m);
      if ReadsQueue(part) {
        StartGroupQueue(part, d, h, m, g);
      } else {
        QueueFrame(part, d, h, m, m.(leader := Logging(g)));
      }
    }
  }

  lemma {:induction false} StartGroupQueue(part: Part, d: Disk, h: History, m: Memory, g: Group)
    requires Holds(part, d, h, m) && ReadsQueue(part) && m.leader.MakingRoom?
    requires GroupOk(g) && |g.writers| <= |m.writers| && g.writers == m.writers[..|g.writers|]
    requires g.first == m.versions.lastSequence + 1 && !g.synced
    ensures Holds(part, d, h, m.(leader := Logging(g)))
  {
  }

  // Inserting into the memtable.

  lemma {:induction false} InsertSequences(flushed: set<Entry>, imm: set<Entry>, mem: set<Entry>, logged: set<Entry>,
                                           last: nat, g: Group, done: nat, log: set<Entry>)
    requires SequencesOk(flushed, imm, mem, logged, last, Inserting(g, done), log)
    requires done < |g.ops|
    ensures SequencesOk(flushed, imm, mem + {Entry(g.first + done, g.ops[done])}, logged, last,
                        Inserting(g, done + 1), log)
  {
    var e := Entry(g.first + done, g.ops[done]);
    assert e in Batch(g.first, g.ops);
    assert Batch(g.first, g.ops[..done + 1]) == Batch(g.first, g.ops[..done]) + {e};
  }

  /** The entry about to be inserted is logged, and newer than all that is live. */
  lemma {:induction false} InsertedIsNewest(d: Disk, h: History, m: Memory, e: Entry)
    requires MemoryInv(d, h, m)
    requires m.leader.Inserting? && m.leader.done < |m.leader.group.ops|
    requires e == Entry(m.leader.group.first + m.leader.done, m.leader.group.ops[m.leader.done])
    ensures m.mem in m.heap && m.mem in d.logs && e in Replay(d.logs[m.mem])
    ensures forall b :: b in Live(h, m) ==> b.sequence < e.sequence
    ensures m.versions.lastSequence < e.sequence
  {
    assert Holds(PMemtables, d, h, m);
    assert Holds(PSequences, d, h, m);
    assert e in Batch(m.leader.group.first, m.leader.group.ops);
  }

  /** Adding one entry above every snapshot to the live memtable changes no read. */
  lemma {:induction false} InsertReader(tables: map<nat, set<Entry>>, heap: map<nat, set<Entry>>, mem: nat, r: Reader,
                                        live: set<Entry>, s: nat, e: Entry)
    requires ReaderOk(tables, heap, r, live, s, mem)
    requires mem in heap && s < e.sequence && forall b :: b in live ==> b.sequence < e.sequence
    requires Consistent(live + {e})
    ensures ReaderOk(tables, heap[mem := heap[mem] + {e}], r, live + {e}, s, mem)
  {
    var after := heap[mem := heap[mem] + {e}];
    var below, imm, top := Union(tables, r.files), Contents(heap, r.imm), Contents(heap, Some(r.mem));
    assert Contents(after, r.imm) == imm;
    forall k
      ensures Lookup(below + imm + Contents(after, Some(r.mem)), k, r.snapshot) == Lookup(live + {e}, k, r.snapshot)
    {
      NewerIsInvisible(live, {e}, k, r.snapshot);
      if r.mem == mem {
        NewerIsInvisible(below + imm + top, {e}, k, r.snapshot);
        assert below + imm + (top + {e}) == below + imm + top + {e};
      }
    }
  }

  lemma {:induction false} InsertContents(d: Disk, h: History, m: Memory, e: Entry)
    requires Holds(PMemtables, d, h, m)
    ensures var m1 := m.(heap := m.heap[m.mem := MemContents(m) + {e}]);
            && ImmContents(m1) == ImmContents(m) && MemContents(m1) == MemContents(m) + {e}
            && Live(h, m1) == Live(h, m) + {e} && m1.heap.Keys == m.heap.Keys
  {
  }

  lemma {:induction false} LiveIsLogged(d: Disk, h: History, m: Memory)
    requires DiskInv(d, h) && MemoryInv(d, h, m)
    ensures Live(h, m) <= h.logged && Consistent(h.logged)
  {
    assert DiskHolds(PHistory, d, h);
    assert Holds(PMemtables, d, h, m);
    assert Holds(PLayers, d, h, m);
    LogWithin(d.logs, m.mem, 0);
    if m.imm.Some? {
      LogWithin(d.logs, m.imm.value, 0);
    }
  }

  lemma {:induction false} InsertReaders(tables: map<nat, set<Entry>>, heap: map<nat, set<Entry>>, mem: nat,
                                         readers: map<nat, Reader>, live: set<Entry>, s: nat, e: Entry)
    requires ReadersOk(tables, heap, readers, live, s, mem)
    requires mem in heap && s < e.sequence && forall b :: b in live ==> b.sequence < e.sequence
    requires Consistent(live + {e})
    ensures ReadersOk(tables, heap[mem := heap[mem] + {e}], readers, live + {e}, s, mem)
  {
    forall id | id in readers
      ensures ReaderOk(tables, heap[mem := heap[mem] + {e}], readers[id], live + {e}, s, mem)
    {
      InsertReader(tables, heap, mem, readers[id], live, s, e);
    }
  }

  lemma {:induction false} InsertLayers(flushed: set<Entry>, imm: set<Entry>, mem: set<Entry>, logged: set<Entry>,
                                        acked: set<Entry>, e: Entry)
    requires LayersOk(flushed, imm, mem, logged, acked)
    requires forall b :: b in flushed + imm + mem ==> b.sequence < e.sequence
    ensures LayersOk(flushed, imm, mem + {e}, logged, acked)
  {
  }

  lemma {:induction false} InsertIsConsistent(d: Disk, h: History, m: Memory, e: Entry)
    requires DiskInv(d, h) && MemoryInv(d, h, m)
    requires m.mem in d.logs && e in Replay(d.logs[m.mem])
    ensures Consistent(Live(h, m) + {e})
  {
    LiveIsLogged(d, h, m);
    LogWithin(d.logs, m.mem, 0);
    assert DiskHolds(PHistory, d, h);
  }

  lemma {:induction false} InsertKeepsReaders(d: Disk, h: History, m: Memory, e: Entry)
    requires DiskInv(d, h) && MemoryInv(d, h, m)
    requires m.leader.Inserting? && m.leader.done < |m.leader.group.ops|
    requires e == Entry(m.leader.group.first + m.leader.done, m.leader.group.ops[m.leader.done])
    requires m.mem in m.heap
    ensures ReadersOk(d.tables, m.heap[m.mem := m.heap[m.mem] + {e}], m.readers, Live(h, m) + {e},
                      m.versions.lastSequence, m.mem)
  {
    assert Holds(PReaders, d, h, m);
    InsertedIsNewest(d, h, m, e);
    InsertIsConsistent(d, h, m, e);
    InsertReaders(d.tables, m.heap, m.mem, m.readers, Live(h, m), m.versions.lastSequence, e);
  }

  lemma {:induction false} NewIsNotFailed(groups: seq<Group>, results: map<nat, bool>, last: nat, e: Entry)
    requires GroupsOk(groups, results, last) && last < e.sequence
    ensures !InFailed(groups, e)
  {
  }

  lemma {:induction false} InsertIsNotFailed(d: Disk, h: History, m: Memory, m1: Memory, e: Entry)
    requires MemoryInv(d, h, m)
    requires m.leader.Inserting? && m.leader.done < |m.leader.group.ops|
    requires e == Entry(m.leader.group.first + m.leader.done, m.leader.group.ops[m.leader.done])
    requires Live(h, m1) == Live(h, m) + {e} && m1.groups == m.groups
    ensures Holds(PFailed, d, h, m1)
  {
    assert Holds(PFailed, d, h, m);
    assert Holds(PGroups, d, h, m);
    assert Holds(PSequences, d, h, m);
    NewIsNotFailed(m.groups, m.results, m.versions.lastSequence, e);
  }

  predicate ReadsLiveMemtable(part: Part) {
    part.PFailed? || part.PMemtables? || part.PLayers? || part.PSequences? || part.PReaders?
  }

  lemma {:induction false} InsertFrame(part: Part, d: Disk, h: History, m: Memory, m1: Memory, e: Entry)
    requires MemoryInv(d, h, m)
    requires m.leader.Inserting? && m1.leader.Inserting? && m1.leader.group == m.leader.group
    requires m1 == m.(heap := m.heap[m.mem := MemContents(m) + {e}], leader := m1.leader)
    requires !ReadsLiveMemtable(part)
    ensures Holds(part, d, h, m1)
  {
    assert Holds(PMemtables, d, h, m);
    assert Holds(part, d, h, m);
    InsertContents(d, h, m, e);
  }

  lemma {:induction false} InsertKeepsSequences(d: Disk, h: History, m: Memory, m1: Memory, e: Entry)
    requires Holds(PMemtables, d, h, m) && Holds(PSequences, d, h, m)
    requires m.leader.Inserting? && m.leader.done < |m.leader.group.ops|
    requires e == Entry(m.leader.group.first + m.leader.done, m.leader.group.ops[m.leader.done])
    requires m1 == m.(heap := m.heap[m.mem := MemContents(m) + {e}],
                      leader := Inserting(m.leader.group, m.leader.done + 1))
    ensures Holds(PSequences, d, h, m1)
  {
    InsertContents(d, h, m, e);
    InsertSequences(h.flushed, ImmContents(m), MemContents(m), h.logged, m.versions.lastSequence, m.leader.group,
                    m.leader.done, Replay(d.logs[m.mem]));
  }

  lemma {:induction false} InsertKeepsLayers(d: Disk, h: History, m: Memory, m1: Memory, e: Entry)
    requires MemoryInv(d, h, m)
    requires m.leader.Inserting? && m.leader.done < |m.leader.group.ops|
    requires e == Entry(m.leader.group.first + m.leader.done, m.leader.group.ops[m.leader.done])
    requires m1 == m.(heap := m.heap[m.mem := MemContents(m) + {e}],
                      leader := Inserting(m.leader.group, m.leader.done + 1))
    ensures Holds(PMemtables, d, h, m1) && Holds(PLayers, d, h, m1)
  {
    assert Holds(PMemtables, d, h, m);
    assert Holds(PLayers, d, h, m);
    InsertedIsNewest(d, h, m, e);
    InsertContents(d, h, m, e);
    InsertLayers(h.flushed, ImmContents(m), MemContents(m), h.logged, h.acked, e);
  }

  lemma {:induction false} InsertTouched(part: Part, d: Disk, h: History, m: Memory, m1: Memory, e: Entry)
    requires DiskInv(d, h) && MemoryInv(d, h, m)
    requires m.leader.Inserting? && m.leader.done < |m.leader.group.ops|
    requires e == Entry(m.leader.group.first + m.leader.done, m.leader.group.ops[m.leader.done])
    requires m1 == m.(heap := m.heap[m.mem := MemContents(m) + {e}],
                      leader := Inserting(m.leader.group, m.leader.done + 1))
    requires ReadsLiveMemtable(part)
    ensures Holds(part, d, h, m1)
  {
    match part
    case PSequences =>
      assert Holds(PMemtables, d, h, m);
      assert Holds(PSequences, d, h, m);
      InsertKeepsSequences(d, h, m, m1, e);
    case PFailed =>
      assert Holds(PMemtables, d, h, m);
      InsertContents(d, h, m, e);
      InsertIsNotFailed(d, h, m, m1, e);
    case PReaders =>
      assert Holds(PMemtables, d, h, m);
      InsertContents(d, h, m, e);
      InsertKeepsReaders(d, h, m, e);
    case _ => InsertKeepsLayers(d, h, m, m1, e);
  }

  lemma {:induction false} InsertKeeps(d: Disk, h: History, m: Memory)
    requires DiskInv(d, h) && MemoryInv(d, h, m)
    requires m.leader.Inserting? && m.leader.done < |m.leader.group.ops| && m.mem in m.heap
    ensures MemoryInv(d, h, InsertOne(m))
  {
    var e := Entry(m.leader.group.first + m.leader.done, m.leader.group.ops[m.leader.done]);
    var m1 := m.(heap := m.heap[m.mem := MemContents(m) + {e}], leader := Inserting(m.leader.group, m.leader.done + 1));
    forall part: Part
      ensures Holds(part, d, h, m1)
    {
      if ReadsLiveMemtable(part) {
        InsertTouched(part, d, h, m, m1, e);
      } else {
        InsertFrame(part, d, h, m, m1, e);
      }
    }
    assert m1 == InsertOne(m);
  }

  // Appending the group's record to the log.

  lemma {:induction false} AppendTops(kept: set<Entry>, below: set<Entry>, logged: set<Entry>, b: set<Entry>)
    requires Tops(kept, below) && below <= logged && Below(logged, b)
    ensures Tops(kept + b, below)
  {
  }

  lemma {:induction false} AppendNumbered(logged: set<Entry>, kept: set<Entry>, s: nat, b: set<Entry>)
    requires Numbered(logged, kept, s)
    ensures Numbered(logged + b, kept + b, s)
  {
  }

  lemma {:induction false} AppendHistory(inLogs: set<Entry>, logged: set<Entry>, committed: set<Entry>, first: nat,
                                         ops: seq<Op>)
    requires HistoryOk(inLogs, logged, committed)
    requires Below(logged, Batch(first, ops))
    ensures HistoryOk(inLogs + Batch(first, ops), logged + Batch(first, ops), committed)
  {
  }

  lemma {:induction false} AppendLogOrder(logs: map<nat, seq<Record>>, logged: set<Entry>, mem: nat, r: Record)
    requires LogsOrdered(logs) && mem in logs && (forall n :: n in logs ==> n <= mem)
    requires LogsFrom(logs, 0) <= logged
    requires Below(logged, Batch(r.first, r.ops))
    ensures LogsOrdered(logs[mem := logs[mem] + [r]])
  {
    var after := logs[mem := logs[mem] + [r]];
    forall n, k | n in after && k in after && n < k
      ensures Below(Replay(after[n]), Replay(after[k]))
    {
      assert n != mem && Below(Replay(logs[n]), Replay(logs[k]));
      if k == mem {
        LogWithin(logs, n, 0);
        ReplaySnoc(logs[mem], r);
        BelowJoin(Replay(logs[n]), Replay(logs[mem]), Batch(r.first, r.ops), logged);
      }
    }
  }

  lemma {:induction false} BelowJoin(older: set<Entry>, log: set<Entry>, b: set<Entry>, logged: set<Entry>)
    requires Below(older, log) && older <= logged && Below(logged, b)
    ensures Below(older, log + b)
  {
  }

  lemma {:induction false} DisjointJoin(committed: set<Entry>, logged: set<Entry>, log: set<Entry>, b: set<Entry>)
    requires committed !! log && committed <= logged && Below(logged, b)
    ensures committed !! log + b
  {
  }

  lemma {:induction false} AppendApart(logs: map<nat, seq<Record>>, committed: set<Entry>, logged: set<Entry>,
                                       mem: nat, r: Record)
    requires Apart(logs, committed) && mem in logs && (forall n :: n in logs ==> n <= mem)
    requires committed <= logged && Below(logged, Batch(r.first, r.ops))
    ensures Apart(logs[mem := logs[mem] + [r]], committed)
  {
    var after := logs[mem := logs[mem] + [r]];
    ReplaySnoc(logs[mem], r);
    forall n | n in after && forall k :: k in after ==> k <= n
      ensures committed !! Replay(after[n])
    {
      assert mem in after;
      DisjointJoin(committed, logged, Replay(logs[mem]), Batch(r.first, r.ops));
    }
  }

  lemma {:induction false} AppendManifest(d: Disk, h: History, d1: Disk, h1: History, b: set<Entry>)
    requires ManifestOk(d, h)
    requires d1.manifest == d.manifest && h1 == h.(logged := h.logged + b)
    requires KeptLogs(d1) == KeptLogs(d) + b
    ensures ManifestOk(d1, h1)
  {
    AppendNumbered(h.logged, KeptLogs(d), d.manifest.lastSequence, b);
  }

  lemma {:induction false} BatchIsAbove(d: Disk, h: History, m: Memory)
    requires MemoryInv(d, h, m) && m.leader.Logging?
    ensures Below(h.logged, Batch(m.leader.group.first, m.leader.group.ops))
    ensures m.mem in d.logs && d.manifest.logNumber <= m.mem && m.versions.logNumber <= m.mem
    ensures forall n :: n in d.logs ==> n <= m.mem
  {
    assert Holds(PSequences, d, h, m);
    assert Holds(PMemtables, d, h, m);
  }

  lemma {:induction false} AppendKeepsDisk(d: Disk, h: History, m: Memory)
    requires DiskInv(d, h) && MemoryInv(d, h, m)
    requires m.leader.Logging? && m.mem in d.logs
    ensures DiskInv(AppendRecord(d, h, m, true).0, AppendRecord(d, h, m, true).1)
  {
    var (d1, h1) := AppendRecord(d, h, m, true);
    var g := m.leader.group;
    var r, b := Record(g.first, g.ops), Batch(g.first, g.ops);
    BatchIsAbove(d, h, m);
    LogsAppend(d.logs, m.mem, r, d.manifest.logNumber);
    LogsAppend(d.logs, m.mem, r, 0);
    assert KeptLogs(d1) == KeptLogs(d) + b;
    assert DiskHolds(PHistory, d, h);
    forall part: DiskPart
      ensures DiskHolds(part, d1, h1)
    {
      assert DiskHolds(part, d, h);
      match part
      case PHistory => AppendHistory(LogsFrom(d.logs, 0), h.logged, h.committed, g.first, g.ops);
      case PLogOrder => AppendLogOrder(d.logs, h.logged, m.mem, r);
      case PApart => AppendApart(d.logs, h.committed, h.logged, m.mem, r);
      case PManifest => AppendManifest(d, h, d1, h1, b);
      case PManifestTop => AppendTops(KeptLogs(d), h.committed, h.logged, b);
      case _ =>
    }
  }

  lemma {:induction false} AppendSequences(flushed: set<Entry>, imm: set<Entry>, mem: set<Entry>, logged: set<Entry>,
                                           last: nat, g: Group, leader: Leader, log: set<Entry>)
    requires SequencesOk(flushed, imm, mem, logged, last, Logging(g), log)
    requires leader == Syncing(g) || leader == Inserting(g, 0) || leader == Failed(g, false)
    ensures SequencesOk(flushed, imm, mem, logged + Batch(g.first, g.ops), last, leader, log + Batch(g.first, g.ops))
  {
    assert g.ops[..0] == [];
  }

  lemma {:induction false} AppendBackground(d: Disk, h: History, m: Memory, d1: Disk, h1: History, r: Record)
    requires MemoryInv(d, h, m)
    requires m.mem in d.logs && m.versions.logNumber <= m.mem
    requires d1 == d.(logs := d.logs[m.mem := d.logs[m.mem] + [r]])
    requires h1 == h.(logged := h.logged + Batch(r.first, r.ops))
    ensures BackgroundOk(d1, h1, m.versions, m.mem, m.imm, ImmContents(m), m.job, m.bg, m.bgError)
  {
    assert Holds(PBackground, d, h, m);
    match m.bg
    case BgWriting(edit) =>
      LogsAppend(d.logs, m.mem, r, edit.logNumber);
      AppendNumbered(h.logged, LogsFrom(d.logs, edit.logNumber), edit.lastSequence, Batch(r.first, r.ops));
    case _ =>
  }

  lemma {:induction false} AppendSync(kept: set<Entry>, manifest: Versions, flushed: set<Entry>,
                                      committed: set<Entry>, imm: set<Entry>, v: Versions, logged: set<Entry>,
                                      b: set<Entry>)
    requires SyncOk(kept, manifest, flushed, committed, imm, v)
    requires flushed <= logged && Below(logged, b)
    ensures SyncOk(kept + b, manifest, flushed, committed, imm, v)
  {
    AppendTops(kept, flushed, logged, b);
  }

  lemma {:induction false} AppendMemtables(logs: map<nat, seq<Record>>, heap: map<nat, set<Entry>>, mem: nat,
                                           imm: Option<nat>, logNumber: nat, durableNumber: nat, r: Record)
    requires MemtablesOk(logs, heap, mem, imm, logNumber, durableNumber)
    ensures MemtablesOk(logs[mem := logs[mem] + [r]], heap, mem, imm, logNumber, durableNumber)
  {
    ReplaySnoc(logs[mem], r);
  }

  lemma {:induction false} AppendKeepsLogs(d: Disk, h: History, m: Memory, ok: bool)
    requires MemoryInv(d, h, m)
    requires m.leader.Logging? && m.leader.group.writers != [] && m.mem in d.logs
    ensures Holds(PMemtables, AppendRecord(d, h, m, true).0, AppendRecord(d, h, m, true).1, AfterAppend(m, ok))
    ensures Holds(PSequences, AppendRecord(d, h, m, true).0, AppendRecord(d, h, m, true).1, AfterAppend(m, ok))
  {
    var (d1, h1) := AppendRecord(d, h, m, true);
    var g, m1 := m.leader.group, AfterAppend(m, ok);
    var r := Record(g.first, g.ops);
    assert Holds(PMemtables, d, h, m);
    assert Holds(PSequences, d, h, m);
    AppendMemtables(d.logs, m.heap, m.mem, m.imm, m.versions.logNumber, d.manifest.logNumber, r);
    ReplaySnoc(d.logs[m.mem], r);
    AppendSequences(h.flushed, ImmContents(m), MemContents(m), h.logged, m.versions.lastSequence, g, m1.leader,
                    Replay(d.logs[m.mem]));
  }

  lemma {:induction false} AppendKeepsSync(d: Disk, h: History, m: Memory)
    requires MemoryInv(d, h, m)
    requires m.leader.Logging? && m.mem in d.logs
    ensures SyncOk(LogsFrom(AppendRecord(d, h, m, true).0.logs, m.versions.logNumber), d.manifest, h.flushed,
                   h.committed,
                   ImmContents(m), m.versions)
  {
    var g := m.leader.group;
    assert Holds(PLayers, d, h, m);
    assert Holds(PSync, d, h, m);
    BatchIsAbove(d, h, m);
    LogsAppend(d.logs, m.mem, Record(g.first, g.ops), m.versions.logNumber);
    AppendSync(LogsFrom(d.logs, m.versions.logNumber), d.manifest, h.flushed, h.committed, ImmContents(m), m.versions,
               h.logged, Batch(g.first, g.ops));
  }

  lemma {:induction false} ExplainedJoin(log: set<Entry>, mem: set<Entry>, groups: seq<Group>, b: set<Entry>)
    requires LogExplained(log, mem, groups, {})
    ensures LogExplained(log + b, mem, groups, b)
  {
  }

  /** The log of imm is another one. */
  lemma {:induction false} OtherLogStays(d: Disk, h: History, m: Memory)
    requires Holds(PMemtables, d, h, m) && m.leader.Logging?
    ensures LogOf(AppendRecord(d, h, m, true).0.logs, m.imm) == LogOf(d.logs, m.imm)
  {
  }

  lemma {:induction false} AppendExplained(d: Disk, h: History, m: Memory, ok: bool)
    requires Holds(PMemtables, d, h, m) && Holds(PExplained, d, h, m)
    requires m.leader.Logging? && m.leader.group.writers != [] && m.mem in d.logs
    ensures Holds(PExplained, AppendRecord(d, h, m, true).0, AppendRecord(d, h, m, true).1, AfterAppend(m, ok))
  {
    var g := m.leader.group;
    ReplaySnoc(d.logs[m.mem], Record(g.first, g.ops));
    OtherLogStays(d, h, m);
    ExplainedJoin(Replay(d.logs[m.mem]), MemContents(m), m.groups, Batch(g.first, g.ops));
  }

  predicate ReadsLogs(part: Part) {
    part.PExplained? || part.PMemtables? || part.PSequences? || part.PSync? || part.PBackground?
  }

  lemma {:induction false} AppendTouched(part: Part, d: Disk, h: History, m: Memory, ok: bool)
    requires MemoryInv(d, h, m)
    requires m.leader.Logging? && m.leader.group.writers != [] && m.mem in d.logs
    requires ReadsLogs(part)
    ensures Holds(part, AppendRecord(d, h, m, true).0, AppendRecord(d, h, m, true).1, AfterAppend(m, ok))
  {
    match part
    case PSync => AppendKeepsSync(d, h, m);
    case PExplained =>
      assert Holds(PMemtables, d, h, m);
      assert Holds(PExplained, d, h, m);
      AppendExplained(d, h, m, ok);
    case PBackground =>
      var (d1, h1) := AppendRecord(d, h, m, true);
      BatchIsAbove(d, h, m);
      AppendBackground(d, h, m, d1, h1, Record(m.leader.group.first, m.leader.group.ops));
    case _ => AppendKeepsLogs(d, h, m, ok);
  }

  lemma {:induction false} AppendFrame(part: Part, d: Disk, h: History, m: Memory, ok: bool)
    requires MemoryInv(d, h, m)
    requires m.leader.Logging? && m.leader.group.writers != [] && m.mem in d.logs
    requires !ReadsLogs(part)
    ensures Holds(part, AppendRecord(d, h, m, true).0, AppendRecord(d, h, m, true).1, AfterAppend(m, ok))
  {
    assert Holds(part, d, h, m);
  }

  lemma {:induction false} AppendKeeps(d: Disk, h: History, m: Memory, ok: bool)
    requires MemoryInv(d, h, m)
    requires m.leader.Logging? && m.leader.group.writers != [] && m.mem in d.logs
    ensures MemoryInv(AppendRecord(d, h, m, true).0, AppendRecord(d, h, m, true).1, AfterAppend(m, ok))
  {
    var (d1, h1) := AppendRecord(d, h, m, true);
    forall part: Part
      ensures Holds(part, d1, h1, AfterAppend(m, ok))
    {
      if ReadsLogs(part) {
        AppendTouched(part, d, h, m, ok);
      } else {
        AppendFrame(part, d, h, m, ok);
      }
    }
  }

  lemma {:induction false} AppendFailsKeeps(d: Disk, h: History, m: Memory)
    requires MemoryInv(d, h, m)
    requires m.leader.Logging? && m.leader.group.writers != []
    ensures MemoryInv(d, h, AfterAppend(m, false))
  {
    forall part: Part
      ensures Holds(part, d, h, AfterAppend(m, false))
    {
      assert Holds(part, d, h, m);
    }
  }

  // Switching to a new log and memtable.

  lemma {:induction false} EmptyLogKeepsDisk(d: Disk, h: History, n: nat)
    requires DiskInv(d, h)
    requires forall k :: k in d.logs ==> k < n
    ensures DiskInv(d.(logs := d.logs[n := []]), h)
  {
    var d1 := d.(logs := d.logs[n := []]);
    LogsNew(d.logs, n, 0);
    LogsNew(d.logs, n, d.manifest.logNumber);
    forall part: DiskPart
      ensures DiskHolds(part, d1, h)
    {
      assert DiskHolds(part, d, h);
      match part
      case PApart => assert n in d1.logs;
      case _ =>
    }
  }

  /** A rotation: the full memtable becomes imm, a new one and its log take over. */
  ghost predicate Rotates(d: Disk, m: Memory, d1: Disk, m1: Memory, n: nat) {
    && m.imm.None? && n == m.versions.nextFile
    && d1 == d.(logs := d.logs[n := []])
    && m1.versions == m.versions.(nextFile := n + 1)
    && m1.imm == Some(m.mem) && m1.mem == n && m1.heap == m.heap[n := {}]
  }

  lemma {:induction false} RotateContents(d: Disk, h: History, m: Memory, d1: Disk, m1: Memory, n: nat)
    requires MemoryInv(d, h, m) && Rotates(d, m, d1, m1, n)
    ensures ImmContents(m1) == MemContents(m) && MemContents(m1) == {} && ImmContents(m) == {}
    ensures Live(h, m1) == Live(h, m)
    ensures n !in m.heap && (forall k :: k in d.logs ==> k < n)
  {
    assert Holds(PMemtables, d, h, m);
    assert Holds(PNumbers, d, h, m);
  }

  lemma {:induction false} RotateMemtables(d: Disk, h: History, m: Memory, d1: Disk, m1: Memory, n: nat)
    requires MemoryInv(d, h, m) && Rotates(d, m, d1, m1, n)
    ensures Holds(PMemtables, d1, h, m1)
  {
    RotateContents(d, h, m, d1, m1, n);
    assert Holds(PMemtables, d, h, m);
  }

  lemma {:induction false} RotateLayers(d: Disk, h: History, m: Memory, d1: Disk, m1: Memory, n: nat)
    requires MemoryInv(d, h, m) && Rotates(d, m, d1, m1, n)
    ensures Holds(PLayers, d1, h, m1)
  {
    RotateContents(d, h, m, d1, m1, n);
    assert Holds(PLayers, d, h, m);
    assert h.flushed + {} == h.flushed;
  }

  lemma {:induction false} RotateSequences(d: Disk, h: History, m: Memory, d1: Disk, m1: Memory, n: nat)
    requires MemoryInv(d, h, m) && Rotates(d, m, d1, m1, n)
    requires m.leader.MakingRoom? && m1.leader.MakingRoom?
    ensures Holds(PSequences, d1, h, m1)
  {
    RotateContents(d, h, m, d1, m1, n);
    assert Holds(PSequences, d, h, m);
  }

  lemma {:induction false} RotateReaders(d: Disk, h: History, m: Memory, d1: Disk, m1: Memory, n: nat)
    requires MemoryInv(d, h, m) && Rotates(d, m, d1, m1, n) && m1.readers == m.readers
    ensures Holds(PReaders, d1, h, m1)
  {
    RotateContents(d, h, m, d1, m1, n);
    assert Holds(PMemtables, d, h, m);
    assert Holds(PReaders, d, h, m);
    forall id | id in m.readers
      ensures ReaderOk(d.tables, m1.heap, m.readers[id], Live(h, m), m.versions.lastSequence, n)
    {
      RotateReader(d.tables, m.heap, m1.heap, m.readers[id], Live(h, m), m.versions.lastSequence, m.mem, n);
    }
  }

  lemma {:induction false} RotateReader(tables: map<nat, set<Entry>>, heap: map<nat, set<Entry>>,
                                        heap1: map<nat, set<Entry>>, r: Reader, live: set<Entry>, s: nat, mem: nat,
                                        n: nat)
    requires ReaderOk(tables, heap, r, live, s, mem) && mem < n && heap1 == heap[n := {}]
    ensures ReaderOk(tables, heap1, r, live, s, n)
  {
    assert Contents(heap1, r.imm) == Contents(heap, r.imm);
    assert Contents(heap1, Some(r.mem)) == Contents(heap, Some(r.mem));
  }

  lemma {:induction false} RotateNumbers(d: Disk, h: History, m: Memory, d1: Disk, m1: Memory, n: nat)
    requires MemoryInv(d, h, m) && Rotates(d, m, d1, m1, n)
    requires m1.readers == m.readers && m1.job == m.job && m1.pending == m.pending && m1.bg == m.bg
    ensures Holds(PNumbers, d1, h, m1)
  {
    assert Holds(PNumbers, d, h, m);
  }

  lemma {:induction false} RotateSync(d: Disk, h: History, m: Memory, d1: Disk, m1: Memory, n: nat)
    requires MemoryInv(d, h, m) && Rotates(d, m, d1, m1, n)
    ensures Holds(PSync, d1, h, m1)
  {
    RotateContents(d, h, m, d1, m1, n);
    LogsNew(d.logs, n, m.versions.logNumber);
    assert Holds(PSync, d, h, m);
  }

  lemma {:induction false} RotateBackground(d: Disk, h: History, m: Memory, d1: Disk, m1: Memory, n: nat)
    requires MemoryInv(d, h, m) && Rotates(d, m, d1, m1, n)
    requires m1.job == m.job && m1.bg == m.bg && m1.bgError == m.bgError
    ensures Holds(PBackground, d1, h, m1)
  {
    RotateContents(d, h, m, d1, m1, n);
    assert Holds(PBackground, d, h, m);
    match m.bg
    case BgWriting(edit) => LogsNew(d.logs, n, edit.logNumber);
    case _ =>
  }

  lemma {:induction false} RotateExplained(d: Disk, h: History, m: Memory, d1: Disk, m1: Memory, n: nat)
    requires MemoryInv(d, h, m) && Rotates(d, m, d1, m1, n)
    requires m.leader.MakingRoom? && m1.leader.MakingRoom? && m1.groups == m.groups
    ensures Holds(PExplained, d1, h, m1)
  {
    RotateContents(d, h, m, d1, m1, n);
    assert Holds(PExplained, d, h, m);
    assert LogOf(d1.logs, Some(n)) == {};
  }

  lemma {:induction false} RotateFailed(d: Disk, h: History, m: Memory, d1: Disk, m1: Memory, n: nat)
    requires MemoryInv(d, h, m) && Rotates(d, m, d1, m1, n) && m1.groups == m.groups
    ensures Holds(PFailed, d1, h, m1)
  {
    RotateContents(d, h, m, d1, m1, n);
    assert Holds(PFailed, d, h, m);
  }

  predicate ReadsMemtables(part: Part) {
    part.PExplained? || part.PFailed? || part.PMemtables? || part.PLayers? || part.PSequences? || part.PReaders?
    || part.PNumbers? || part.PSync?
    || part.PBackground?
  }

  lemma {:induction false} RotateTouched(part: Part, d: Disk, h: History, m: Memory, d1: Disk, m1: Memory, n: nat)
    requires MemoryInv(d, h, m) && Rotates(d, m, d1, m1, n)
    requires m.leader.MakingRoom? && m1.leader.MakingRoom?
    requires m1.readers == m.readers && m1.job == m.job && m1.pending == m.pending && m1.bg == m.bg
    requires m1.bgError == m.bgError && m1.groups == m.groups
    requires ReadsMemtables(part)
    ensures Holds(part, d1, h, m1)
  {
    match part
    case PExplained => RotateExplained(d, h, m, d1, m1, n);
    case PFailed => RotateFailed(d, h, m, d1, m1, n);
    case PMemtables => RotateMemtables(d, h, m, d1, m1, n);
    case PLayers => RotateLayers(d, h, m, d1, m1, n);
    case PSequences => RotateSequences(d, h, m, d1, m1, n);
    case PReaders => RotateReaders(d, h, m, d1, m1, n);
    case PNumbers => RotateNumbers(d, h, m, d1, m1, n);
    case PSync => RotateSync(d, h, m, d1, m1, n);
    case PBackground => RotateBackground(d, h, m, d1, m1, n);
  }

  lemma {:induction false} RotateFrame(part: Part, d: Disk, h: History, m: Memory, d1: Disk, rotated: Memory,
                                       needs: bool)
    requires MemoryInv(d, h, m)
    requires Rotates(d, m, d1, rotated, m.versions.nextFile)
    requires rotated == m.(versions := rotated.versions, imm := rotated.imm, mem := rotated.mem, heap := rotated.heap,
                           leader := rotated.leader)
    requires m.leader.MakingRoom? && rotated.leader.MakingRoom?
    requires !m.bgError && !ReadsMemtables(part)
    ensures Holds(part, d1, h, MaybeSchedule(rotated, needs))
  {
    assert Holds(part, d, h, m);
    if part.PRetired? {
      assert Holds(PMemtables, d, h, m);
    }
  }

  lemma {:induction false} RotateKeeps(d: Disk, h: History, m: Memory, d1: Disk, rotated: Memory, needs: bool)
    requires MemoryInv(d, h, m)
    requires Rotates(d, m, d1, rotated, m.versions.nextFile)
    requires rotated == m.(versions := rotated.versions, imm := rotated.imm, mem := rotated.mem, heap := rotated.heap,
                           leader := rotated.leader)
    requires m.leader.MakingRoom? && rotated.leader.MakingRoom? && !m.bgError
    ensures MemoryInv(d1, h, MaybeSchedule(rotated, needs))
  {
    var m1 := MaybeSchedule(rotated, needs);
    forall part: Part
      ensures Holds(part, d1, h, m1)
    {
      if ReadsMemtables(part) {
        RotateTouched(part, d, h, m, d1, m1, m.versions.nextFile);
      } else {
        RotateFrame(part, d, h, m, d1, rotated, needs);
      }
    }
  }

  /** One pass of MakeRoomForWrite. */
  lemma {:induction false} RoomKeeps(d: Disk, h: History, m: Memory, memFull: bool, newLogOk: bool, needs: bool)
    requires DiskInv(d, h) && MemoryInv(d, h, m)
    requires m.leader.MakingRoom? && m.writers != []
    ensures var (d1, m1) := Room(d, m, memFull, newLogOk, needs); DiskInv(d1, h) && MemoryInv(d1, h, m1)
  {
    var MakingRoom(force, allowDelay) := m.leader;
    if m.bgError {
      PopOneKeeps(d, h, m, false);
    } else if allowDelay && LevelCount(m.versions.files, 0) >= L0_SLOWDOWN_WRITES_TRIGGER {
      LeaderMoves(d, h, m, MakingRoom(force, false));
    } else if !force && !memFull {
      if m.writers[0].batch.None? {
        PopOneKeeps(d, h, m, true);
      } else {
        StartGroupKeeps(d, h, m);
      }
    } else if m.imm.Some? || LevelCount(m.versions.files, 0) >= L0_STOP_WRITES_TRIGGER {
      LeaderMoves(d, h, m, WaitingForRoom(force, allowDelay));
    } else if !newLogOk {
      PopOneKeeps(d, h, m, false);
    } else {
      var n := m.versions.nextFile;
      var d1 := d.(logs := d.logs[n := []]);
      var rotated := Rotated(m);
      RotateContents(d, h, m, d1, rotated, n);
      EmptyLogKeepsDisk(d, h, n);
      RotateKeeps(d, h, m, d1, rotated, needs);
    }
  }

  // Publishing a group.

  lemma {:induction false} PublishDisk(d: Disk, h: History, m: Memory)
    requires DiskInv(d, h) && MemoryInv(d, h, m)
    requires ReadyToPublish(m) && m.leader.Inserting?
    ensures DiskInv(d, h.(acked := h.acked + Batch(m.leader.group.first, m.leader.group.ops)))
  {
    var b := Batch(m.leader.group.first, m.leader.group.ops);
    assert Holds(PSequences, d, h, m);
    assert Holds(PMemtables, d, h, m);
    LogWithin(d.logs, m.mem, d.manifest.logNumber);
    forall part: DiskPart
      ensures DiskHolds(part, d, h.(acked := h.acked + b))
    {
      assert DiskHolds(part, d, h);
    }
  }

  /** What publishing changes: the last sequence, the queue, and perhaps the error flag. */
  ghost predicate Publishes(h: History, m: Memory, h1: History, m1: Memory) {
    ReadyToPublish(m) &&
    var g, ok, n := m.leader.group, m.leader.Inserting?, |m.leader.group.writers|;
    && h1 == h.(acked := if ok then h.acked + Batch(g.first, g.ops) else h.acked)
    && m1 == m.(versions := m.versions.(lastSequence := g.first + |g.ops| - 1), bgError := m1.bgError,
                writers := m.writers[n..], results := PopWriters(m, n, ok).results,
                leader := NoLeader, groups := m.groups + [g.(ok := ok)])
    && (m.bgError ==> m1.bgError)
  }

  lemma {:induction false} PublishIs(h: History, m: Memory)
    requires ReadyToPublish(m)
    ensures Publishes(h, m, Publish(h, m).0, Publish(h, m).1)
  {
  }

  lemma {:induction false} PublishSequences(d: Disk, h: History, m: Memory, h1: History, m1: Memory)
    requires MemoryInv(d, h, m) && Publishes(h, m, h1, m1)
    ensures Holds(PSequences, d, h1, m1)
    ensures m.versions.lastSequence <= m1.versions.lastSequence
    ensures m.leader.group.first == m.versions.lastSequence + 1
  {
    assert Holds(PSequences, d, h, m);
    assert ImmContents(m1) == ImmContents(m) && MemContents(m1) == MemContents(m);
  }

  lemma {:induction false} PublishLayers(d: Disk, h: History, m: Memory, h1: History, m1: Memory)
    requires MemoryInv(d, h, m) && Publishes(h, m, h1, m1)
    ensures Holds(PLayers, d, h1, m1)
  {
    assert Holds(PSequences, d, h, m);
    assert Holds(PLayers, d, h, m);
    assert ImmContents(m1) == ImmContents(m) && MemContents(m1) == MemContents(m);
    if m.leader.Inserting? {
      assert m.leader.group.ops[..m.leader.done] == m.leader.group.ops;
    }
  }

  lemma {:induction false} PublishGroups(d: Disk, h: History, m: Memory, h1: History, m1: Memory)
    requires MemoryInv(d, h, m) && Publishes(h, m, h1, m1)
    ensures Holds(PGroups, d, h1, m1)
  {
    var g, ok, n := m.leader.group, m.leader.Inserting?, |m.leader.group.writers|;
    assert Holds(PQueue, d, h, m);
    assert Holds(PGroups, d, h, m);
    PublishSequences(d, h, m, h1, m1);
    PopFinishes(m, n, ok);
    GroupsSurvive(m.groups, m.results, m1.results, m.versions.lastSequence, m.versions.lastSequence);
    GroupAnswered(m, n, ok);
    NewGroupOk(m.groups, m1.results, m.versions.lastSequence, m1.versions.lastSequence, g.(ok := ok));
  }

  lemma {:induction false} GroupAnswered(m: Memory, n: nat, ok: bool)
    requires QueueOk(m.writers, m.results, m.leader) && n <= |m.writers|
    ensures forall j :: 0 <= j < n ==> var id := m.writers[..n][j].id;
              id in PopWriters(m, n, ok).results && PopWriters(m, n, ok).results[id] == ok
  {
    PopFinishes(m, n, ok);
  }

  lemma {:induction false} NewGroupOk(groups: seq<Group>, later: map<nat, bool>, s: nat, s': nat, g: Group)
    requires GroupsOk(groups, later, s)
    requires GroupOk(g) && g.first == s + 1 && g.first + |g.ops| <= s' + 1
    requires g.ok ==> (g.synced <==> g.writers[0].sync)
    requires forall j :: 0 <= j < |g.writers| ==> g.writers[j].id in later && later[g.writers[j].id] == g.ok
    ensures GroupsOk(groups + [g], later, s')
  {
  }

  lemma {:induction false} PublishQueue(d: Disk, h: History, m: Memory, h1: History, m1: Memory)
    requires MemoryInv(d, h, m) && Publishes(h, m, h1, m1)
    ensures Holds(PQueue, d, h1, m1)
  {
    assert Holds(PQueue, d, h, m);
    PopFinishes(m, |m.leader.group.writers|, m.leader.Inserting?);
  }

  lemma {:induction false} PublishReaders(d: Disk, h: History, m: Memory, h1: History, m1: Memory)
    requires MemoryInv(d, h, m) && Publishes(h, m, h1, m1)
    ensures Holds(PReaders, d, h1, m1)
  {
    assert Holds(PReaders, d, h, m);
    PublishSequences(d, h, m, h1, m1);
    var live, s := Live(h, m), m.versions.lastSequence;
    assert Live(h1, m1) == live;
    forall id | id in m.readers
      ensures ReaderOk(d.tables, m.heap, m.readers[id], live, m1.versions.lastSequence, m.mem)
    {
      assert ReaderOk(d.tables, m.heap, m.readers[id], live, s, m.mem);
    }
  }

  lemma {:induction false} FailedSnoc(groups: seq<Group>, g: Group, e: Entry)
    ensures InFailed(groups + [g], e) <==> InFailed(groups, e) || (!g.ok && e in Batch(g.first, g.ops))
  {
    if InFailed(groups, e) {
      var i :| 0 <= i < |groups| && !groups[i].ok && e in Batch(groups[i].first, groups[i].ops);
      assert (groups + [g])[i] == groups[i];
    }
    if !g.ok && e in Batch(g.first, g.ops) {
      assert (groups + [g])[|groups|] == g;
    }
  }

  lemma {:induction false} PublishFailed(d: Disk, h: History, m: Memory, h1: History, m1: Memory)
    requires MemoryInv(d, h, m) && Publishes(h, m, h1, m1)
    ensures Holds(PFailed, d, h1, m1)
  {
    var g := m.leader.group.(ok := m.leader.Inserting?);
    assert Holds(PFailed, d, h, m);
    assert Holds(PSequences, d, h, m);
    assert Live(h1, m1) == Live(h, m);
    forall e | e in Live(h, m)
      ensures !InFailed(m.groups + [g], e)
    {
      FailedSnoc(m.groups, g, e);
    }
  }

  lemma {:induction false} PublishExplained(d: Disk, h: History, m: Memory, h1: History, m1: Memory)
    requires MemoryInv(d, h, m) && Publishes(h, m, h1, m1)
    ensures Holds(PExplained, d, h1, m1)
  {
    var g := m.leader.group.(ok := m.leader.Inserting?);
    assert Holds(PExplained, d, h, m);
    assert Holds(PSequences, d, h, m);
    if m.leader.Inserting? {
      assert m.leader.group.ops[..m.leader.done] == m.leader.group.ops;
    }
    forall e
      ensures InFailed(m.groups + [g], e) <==> InFailed(m.groups, e) || (!g.ok && e in Batch(g.first, g.ops))
    {
      FailedSnoc(m.groups, g, e);
    }
    assert MemContents(m1) == MemContents(m) && ImmContents(m1) == ImmContents(m);
  }

  predicate ReadsSequence(part: Part) {
    part.PFailed? || part.PExplained? || part.PSequences? || part.PLayers? || part.PGroups? || part.PQueue?
    || part.PReaders?
  }

  lemma {:induction false} PublishTouched(part: Part, d: Disk, h: History, m: Memory, h1: History, m1: Memory)
    requires MemoryInv(d, h, m) && Publishes(h, m, h1, m1)
    requires ReadsSequence(part)
    ensures Holds(part, d, h1, m1)
  {
    match part
    case PSequences => PublishSequences(d, h, m, h1, m1);
    case PFailed => PublishFailed(d, h, m, h1, m1);
    case PExplained => PublishExplained(d, h, m, h1, m1);
    case PLayers => PublishLayers(d, h, m, h1, m1);
    case PGroups => PublishGroups(d, h, m, h1, m1);
    case PQueue => PublishQueue(d, h, m, h1, m1);
    case PReaders => PublishReaders(d, h, m, h1, m1);
  }

  lemma {:induction false} PublishFrame(part: Part, d: Disk, h: History, m: Memory, h1: History, m1: Memory)
    requires MemoryInv(d, h, m) && Publishes(h, m, h1, m1)
    requires m.versions.lastSequence <= m1.versions.lastSequence
    requires !ReadsSequence(part)
    ensures Holds(part, d, h1, m1)
  {
    assert Holds(part, d, h, m);
    assert ImmContents(m1) == ImmContents(m);
  }

  lemma {:induction false} PublishKeeps(d: Disk, h: History, m: Memory)
    requires DiskInv(d, h) && MemoryInv(d, h, m)
    requires ReadyToPublish(m)
    ensures DiskInv(d, Publish(h, m).0) && MemoryInv(d, Publish(h, m).0, Publish(h, m).1)
  {
    var (h1, m1) := Publish(h, m);
    PublishIs(h, m);
    if m.leader.Inserting? {
      PublishDisk(d, h, m);
    }
    PublishSequences(d, h, m, h1, m1);
    forall part: Part
      ensures Holds(part, d, h1, m1)
    {
      if ReadsSequence(part) {
        PublishTouched(part, d, h, m, h1, m1);
      } else {
        PublishFrame(part, d, h, m, h1, m1);
      }
    }
  }
}
