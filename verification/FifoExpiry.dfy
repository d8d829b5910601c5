/** What losing silent workers does, on the fields: who is lost, what becomes of the
    attempts they held, and which tasks run again. */
module FifoExpiry {
  import opened Types
  import opened Ordering
  import opened Fifo
  import opened FifoSets
  import opened FifoInvariant
  import opened FifoSteps

  /** The attempt is of this set, and of a task with no attempt left. */
  ghost predicate Spent(s: State, id: TaskAttemptID, key: SetKey)
    requires key in s.sets
  {
    && id in s.attempts && s.attempts[id].key == key && s.attempts[id].index < |s.sets[key].tasks|
    && s.sets[key].tasks[s.attempts[id].index].attempts >= s.maxTaskAttempts
  }

  ghost predicate OfTask(s: State, id: TaskAttemptID, key: SetKey, j: int) {
    id in s.attempts && s.attempts[id].key == key && s.attempts[id].index == j
  }

  ghost predicate SomeSpent(s: State, gone: set<TaskAttemptID>, key: SetKey)
    requires key in s.sets
  {
    exists id :: id in gone && Spent(s, id, key)
  }

  ghost predicate SomeOf(s: State, gone: set<TaskAttemptID>, key: SetKey, j: int) {
    exists id :: id in gone && OfTask(s, id, key, j)
  }

  /** What losing these attempts does to a set: an ended one stays as it ended; a live
      one ends with the task's error if one of them was its task's last, and otherwise
      just their tasks wait to run again. */
  ghost predicate Loses(s: State, s1: State, gone: set<TaskAttemptID>, key: SetKey)
    requires key in s.sets
  {
    && key in s1.sets && |s1.sets[key].tasks| == |s.sets[key].tasks| && s1.sets[key].cancelled == s.sets[key].cancelled
    && s1.maxTaskAttempts == s.maxTaskAttempts
    && var t, t1 := s.sets[key], s1.sets[key];
       if t.terminal then t1.terminal && t1.err == t.err
       else
         && (t1.terminal <==> SomeSpent(s, gone, key)) && (t1.terminal ==> t1.err == ErrTask)
         && (!t1.terminal ==>
               && t1.remaining == t.remaining
               && forall j :: 0 <= j < |t.tasks| ==>
                    t1.tasks[j] == if SomeOf(s, gone, key, j) then t.tasks[j].(state := TaskPending) else t.tasks[j])
  }

  lemma OneLost(s: State, id: TaskAttemptID, key: SetKey)
    requires id in s.attempts && Linked(s, s.attempts[id]) && key in s.sets && !s.sets[key].cancelled
    ensures Loses(s, FailAttempt(s, id, LossReport(s.attempts[id].assignment)), {id}, key)
  {
    var a := s.attempts[id];
    var s1 := FailAttempt(s, id, LossReport(a.assignment));
    assert SomeSpent(s, {id}, key) <==> Spent(s, id, key);
    forall j ensures SomeOf(s, {id}, key, j) <==> OfTask(s, id, key, j) {}
    hide SomeSpent, SomeOf;
    if key == a.key && !s.sets[key].terminal {
      assert s1.sets[key] == FailTask(s.sets[key], a.index, LossReport(a.assignment), s.maxTaskAttempts);
    }
  }

  lemma LosesJoin(s: State, s1: State, s2: State, a: set<TaskAttemptID>, b: set<TaskAttemptID>, key: SetKey)
    requires key in s.sets && !s.sets[key].cancelled && Loses(s, s1, a, key) && Loses(s1, s2, b, key)
    requires forall id :: id in b ==>
      id in s.attempts && id in s1.attempts && s1.attempts[id].key == s.attempts[id].key && s1.attempts[id].index == s.attempts[id].index
    ensures Loses(s, s2, a + b, key)
  {
    var t, t1 := s.sets[key], s1.sets[key];
    forall j ensures SomeOf(s, a + b, key, j) <==> SomeOf(s, a, key, j) || SomeOf(s1, b, key, j) { SomeOfJoin(s, s1, a, b, key, j); }
    assert SomeSpent(s, a + b, key) <==> SomeSpent(s, a, key) || exists id :: id in b && Spent(s, id, key);
    if !t.terminal && !t1.terminal {
      forall id | id in b ensures Spent(s1, id, key) <==> Spent(s, id, key) {}
      assert SomeSpent(s1, b, key) <==> exists id :: id in b && Spent(s, id, key);
    }
    hide SomeOf, SomeSpent, Spent;
  }

  lemma SomeOfJoin(s: State, s1: State, a: set<TaskAttemptID>, b: set<TaskAttemptID>, key: SetKey, j: int)
    requires forall id :: id in b ==>
      id in s.attempts && id in s1.attempts && s1.attempts[id].key == s.attempts[id].key && s1.attempts[id].index == s.attempts[id].index
    ensures SomeOf(s, a + b, key, j) <==> SomeOf(s, a, key, j) || SomeOf(s1, b, key, j)
  {
    if id :| id in a + b && OfTask(s, id, key, j) {
      if id in b { assert OfTask(s1, id, key, j); }
    }
    if id :| id in b && OfTask(s1, id, key, j) { assert OfTask(s, id, key, j); }
  }

  // ---------------------------------------------------------------- all attempts of a worker

  /** Exactly these attempts have ended. */
  ghost predicate Ended(s: State, s1: State, gone: set<TaskAttemptID>) {
    && s1.attempts.Keys == s.attempts.Keys
    && forall id :: id in s.attempts ==>
         s1.attempts[id] == if id in gone then s.attempts[id].(state := TaskFailed, terminal := true) else s.attempts[id]
  }

  lemma EndedJoin(s: State, s1: State, s2: State, a: set<TaskAttemptID>, b: set<TaskAttemptID>)
    requires Ended(s, s1, a) && Ended(s1, s2, b)
    ensures Ended(s, s2, a + b)
  {
  }

  lemma SeenFirst(ids: seq<TaskAttemptID>)
    requires ids != []
    ensures Seen(ids) == {ids[0]} + Seen(ids[1..])
  {
  }

  lemma OneEnded(s: State, id: TaskAttemptID, report: TaskAttemptFailure)
    requires id in s.attempts && Linked(s, s.attempts[id])
    ensures Ended(s, FailAttempt(s, id, report), {id}) && FailAttempt(s, id, report).sets.Keys == s.sets.Keys
    ensures forall key :: key in s.sets ==> FailAttempt(s, id, report).sets[key].cancelled == s.sets[key].cancelled
  {
  }

  lemma {:induction false} FailAllOutcome(s: State, ids: seq<TaskAttemptID>, key: SetKey)
    requires Core(s) && Wired(s) && AllLive(s, ids) && key in s.sets && !s.sets[key].cancelled
    ensures Ended(s, FailAll(s, ids), Seen(ids)) && Loses(s, FailAll(s, ids), Seen(ids), key)
    decreases |ids|
  {
    hide *;
    FailAllStep(s, ids);
    if ids == [] {
      NothingLost(s, key);
    } else {
      AllLiveFirst(s, ids);
      var id, report := ids[0], LossReport(s.attempts[ids[0]].assignment);
      var s1 := FailAttempt(s, id, report);
      OneLost(s, id, key);
      OneEnded(s, id, report);
      FailAttemptInv(s, id, report);
      FailedOthersLive(s, ids, report);
      FailAllOutcome(s1, ids[1..], key);
      RestSame(s, s1, ids);
      LosesJoin(s, s1, FailAll(s1, ids[1..]), {id}, Seen(ids[1..]), key);
      EndedJoin(s, s1, FailAll(s1, ids[1..]), {id}, Seen(ids[1..]));
      SeenFirst(ids);
    }
  }

  lemma FailAllStep(s: State, ids: seq<TaskAttemptID>)
    requires Wired(s) && AllLive(s, ids)
    ensures ids == [] ==> FailAll(s, ids) == s && Seen(ids) == {}
    ensures ids != [] ==>
      && ids[0] in s.attempts && Linked(s, s.attempts[ids[0]])
      && var s1 := FailAttempt(s, ids[0], LossReport(s.attempts[ids[0]].assignment));
         Wired(s1) && (forall id :: id in ids[1..] ==> id in s1.attempts) && FailAll(s, ids) == FailAll(s1, ids[1..])
  {
    if ids != [] { FailedOthersLive(s, ids, LossReport(s.attempts[ids[0]].assignment)); }
    hide FailAttempt;
  }

  lemma AllLiveFirst(s: State, ids: seq<TaskAttemptID>)
    requires AllLive(s, ids) && Wired(s) && ids != []
    ensures ids[0] in s.attempts && !s.attempts[ids[0]].terminal && Linked(s, s.attempts[ids[0]])
  {
  }

  lemma RestSame(s: State, s1: State, ids: seq<TaskAttemptID>)
    requires AllLive(s, ids) && ids != [] && Ended(s, s1, {ids[0]})
    ensures forall id :: id in Seen(ids[1..]) ==>
      id in s.attempts && id in s1.attempts && s1.attempts[id].key == s.attempts[id].key && s1.attempts[id].index == s.attempts[id].index
  {
  }

  lemma NothingLost(s: State, key: SetKey)
    requires key in s.sets
    ensures Ended(s, s, {}) && Loses(s, s, {}, key)
  {
  }

  /** The live attempts of these workers. */
  ghost function HeldBy(s: State, ids: seq<WorkerID>): set<TaskAttemptID> {
    set x | x in s.attempts && !s.attempts[x].terminal && s.attempts[x].assignment.workerID in ids
  }

  lemma LoseWorkerOutcome(s: State, id: WorkerID, key: SetKey)
    requires Inv(s) && Wired(s) && id in s.workers && key in s.sets && !s.sets[key].cancelled
    ensures Ended(s, LoseWorker(s, id), HeldBy(s, [id])) && Loses(s, LoseWorker(s, id), HeldBy(s, [id]), key)
  {
    hide *;
    InvCore(s);
    MarkLostCore(s, id);
    ReservedLive(s, id);
    ReservedIsHeld(s, id);
    var s1, ids := MarkLost(s, id), SortedIds(s.workers[id].reserved);
    MarkLostSame(s, id, key);
    FailAllOutcome(s1, ids, key);
    LoseWorkerIs(s, id);
    SameLoses(s, s1, FailAll(s1, ids), Seen(ids), key);
  }

  lemma InvCore(s: State)
    requires Inv(s)
    ensures Core(s)
  {
    hide Core;
  }

  lemma LoseWorkerIs(s: State, id: WorkerID)
    requires Wired(s) && id in s.workers
    ensures Wired(MarkLost(s, id)) && (forall x :: x in SortedIds(s.workers[id].reserved) ==> x in MarkLost(s, id).attempts)
    ensures LoseWorker(s, id) == FailAll(MarkLost(s, id), SortedIds(s.workers[id].reserved))
  {
  }

  lemma ReservedIsHeld(s: State, id: WorkerID)
    requires Core(s) && id in s.workers
    ensures Seen(SortedIds(s.workers[id].reserved)) == HeldBy(s, [id])
  {
    hide AttemptsOK, AllTasksOK, QueueOK, SetsOK;
    assert WorkerOK(s, id);
    var ids := SortedIds(s.workers[id].reserved);
    forall x ensures x in Seen(ids) <==> x in HeldBy(s, [id]) {
      assert x in s.workers[id].reserved <==> Holds(s, id, x);
    }
  }

  lemma MarkLostSame(s: State, id: WorkerID, key: SetKey)
    requires id in s.workers && key in s.sets
    ensures var s1 := MarkLost(s, id);
            s1.sets == s.sets && s1.attempts == s.attempts && s1.maxTaskAttempts == s.maxTaskAttempts
  {
  }

  lemma SameLoses(s: State, s1: State, s2: State, gone: set<TaskAttemptID>, key: SetKey)
    requires key in s.sets && s1.sets == s.sets && s1.attempts == s.attempts && s1.maxTaskAttempts == s.maxTaskAttempts
    requires Ended(s1, s2, gone) && Loses(s1, s2, gone, key)
    ensures Ended(s, s2, gone) && Loses(s, s2, gone, key)
  {
    assert SomeSpent(s, gone, key) <==> SomeSpent(s1, gone, key) by {
      forall id ensures Spent(s, id, key) <==> Spent(s1, id, key) {}
    }
    forall j ensures SomeOf(s, gone, key, j) <==> SomeOf(s1, gone, key, j) {
      forall id ensures OfTask(s, id, key, j) <==> OfTask(s1, id, key, j) {}
    }
    hide SomeSpent, SomeOf;
  }

  lemma {:induction false} LoseWorkersOutcome(s: State, ids: seq<WorkerID>, key: SetKey)
    requires Inv(s) && Wired(s) && (forall id :: id in ids ==> id in s.workers) && (forall i, j :: 0 <= i < j < |ids| ==> ids[i] != ids[j])
    requires key in s.sets && !s.sets[key].cancelled
    ensures Ended(s, LoseWorkers(s, ids), HeldBy(s, ids)) && Loses(s, LoseWorkers(s, ids), HeldBy(s, ids), key)
    decreases |ids|
  {
    hide *;
    LoseWorkersStep(s, ids);
    if ids == [] {
      NobodyHolds(s);
      NothingLost(s, key);
    } else {
      var s1, rest := LoseWorker(s, ids[0]), ids[1..];
      LoseWorkerInv(s, ids[0]);
      LoseWorkerOutcome(s, ids[0], key);
      StillThere(s, s1, HeldBy(s, [ids[0]]), key);
      LoseWorkersOutcome(s1, rest, key);
      OthersHold(s, s1, ids);
      LosesJoin(s, s1, LoseWorkers(s1, rest), HeldBy(s, [ids[0]]), HeldBy(s, rest), key);
      EndedJoin(s, s1, LoseWorkers(s1, rest), HeldBy(s, [ids[0]]), HeldBy(s, rest));
    }
  }

  lemma StillThere(s: State, s1: State, gone: set<TaskAttemptID>, key: SetKey)
    requires key in s.sets && !s.sets[key].cancelled && Loses(s, s1, gone, key)
    ensures key in s1.sets && !s1.sets[key].cancelled
  {
  }

  lemma NobodyHolds(s: State)
    ensures HeldBy(s, []) == {}
  {
  }

  lemma OthersHold(s: State, s1: State, ids: seq<WorkerID>)
    requires ids != [] && (forall i, j :: 0 <= i < j < |ids| ==> ids[i] != ids[j]) && Ended(s, s1, HeldBy(s, [ids[0]]))
    ensures HeldBy(s1, ids[1..]) == HeldBy(s, ids[1..])
    ensures HeldBy(s, [ids[0]]) + HeldBy(s, ids[1..]) == HeldBy(s, ids)
    ensures forall id :: id in HeldBy(s, ids[1..]) ==>
      id in s.attempts && id in s1.attempts && s1.attempts[id].key == s.attempts[id].key && s1.attempts[id].index == s.attempts[id].index
  {
    assert ids == [ids[0]] + ids[1..];
  }

  lemma LoseWorkersStep(s: State, ids: seq<WorkerID>)
    requires Wired(s) && forall id :: id in ids ==> id in s.workers
    ensures ids == [] ==> LoseWorkers(s, ids) == s
    ensures ids != [] ==>
      && ids[0] in s.workers && Wired(LoseWorker(s, ids[0])) && (forall id :: id in ids[1..] ==> id in LoseWorker(s, ids[0]).workers)
      && LoseWorkers(s, ids) == LoseWorkers(LoseWorker(s, ids[0]), ids[1..])
  {
    hide Wired, LoseWorker;
  }

  // ---------------------------------------------------------------- who is lost

  /** The worker was alive and silent for at least the timeout. */
  predicate Silent(w: WorkerState, now: int, timeout: int) {
    w.status == WorkerAlive && w.lastHeartbeat + timeout <= now
  }

  /** An expiry under an open scheduler loses exactly the silent workers. Their live
      attempts, and no others, end; in every set not cancelled just their tasks run
      again, unless one had no attempt left and ends its set. */
  lemma ExpireOutcome(s: State, now: int, timeout: int, key: SetKey)
    requires Inv(s) && Wired(s) && key in s.sets && !s.sets[key].cancelled
    ensures var o := Expire(s, now, timeout);
            && (o.reply.Granted? <==> !s.closed && 0 < timeout) && (o.reply.Refused? ==> o.state == s)
            && (o.reply.Granted? ==>
                  && (forall w :: w in o.reply.value <==> w in s.workers && Silent(s.workers[w], now, timeout))
                  && var gone := set x | x in s.attempts && !s.attempts[x].terminal && s.attempts[x].assignment.workerID in o.reply.value;
                     Ended(s, o.state, gone) && Loses(s, o.state, gone, key))
  {
    if !s.closed && 0 < timeout {
      var lost := SortedKeys(ExpiredIds(s, now, timeout));
      forall i, j | 0 <= i < j < |lost| ensures lost[i] != lost[j] { LessIrreflexive(lost[i]); }
      hide Inv, Wired, LoseWorkers, HeldBy, Loses, Ended;
      LoseWorkersOutcome(s, lost, key);
      CompactSame(s, LoseWorkers(s, lost), HeldBy(s, lost), key);
      assert HeldBy(s, lost) == set x | x in s.attempts && !s.attempts[x].terminal && s.attempts[x].assignment.workerID in lost by {
        HeldByIs(s, lost);
      }
    }
  }

  lemma HeldByIs(s: State, ids: seq<WorkerID>)
    ensures HeldBy(s, ids) == set x | x in s.attempts && !s.attempts[x].terminal && s.attempts[x].assignment.workerID in ids
  {
  }

  lemma CompactSame(s: State, s1: State, gone: set<TaskAttemptID>, key: SetKey)
    requires key in s.sets && (forall k :: k in s1.queue ==> k in s1.sets) && Ended(s, s1, gone) && Loses(s, s1, gone, key)
    ensures Ended(s, Compact(s1), gone) && Loses(s, Compact(s1), gone, key)
  {
    hide LiveKeys;
  }
}
