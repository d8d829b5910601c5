/** Every event of the FIFO scheduler keeps its invariant and only moves forward. */
module FifoSteps {
  import opened Types
  import opened Ordering
  import opened Fifo
  import opened FifoSets
  import opened FifoInvariant

  // ---------------------------------------------------------------- what never goes back

  /** A task set only gains reports, keeps its tasks and inputs, and once it is
      terminal keeps its outcome and its reports. A succeeded task stays as it is. */
  ghost predicate SetStep(t: FifoTaskSet, t1: FifoTaskSet) {
    && Frozen(t, t1)
    && |t1.tasks| == |t.tasks| && t1.inputs == t.inputs && t1.sequence == t.sequence
    && (forall i :: 0 <= i < |t.tasks| ==>
          t1.tasks[i].task == t.tasks[i].task && (t.tasks[i].state == TaskSucceeded ==> t1.tasks[i] == t.tasks[i]))
    && Log(t) <= Log(t1) && t.delivered <= t1.delivered
  }

  ghost predicate AttemptStep(a: AssignedAttempt, a1: AssignedAttempt) {
    a1.assignment == a.assignment && a1.key == a.key && a1.index == a.index && (a.terminal ==> a1 == a)
  }

  ghost predicate WorkerStep(w: WorkerState, w1: WorkerState) {
    w1.totalSlots == w.totalSlots && (w.status == WorkerLost ==> w1.status == WorkerLost)
  }

  ghost predicate Evolves(s: State, s1: State) {
    && s1.runID == s.runID && s1.maxTaskAttempts == s.maxTaskAttempts && s1.nextAttempt >= s.nextAttempt
    && (s.closed ==> s1.closed)
    && (forall key :: key in s.sets ==> key in s1.sets && SetStep(s.sets[key], s1.sets[key]))
    && (forall id :: id in s.attempts ==> id in s1.attempts && AttemptStep(s.attempts[id], s1.attempts[id]))
    && (forall w :: w in s.workers ==> w in s1.workers && WorkerStep(s.workers[w], s1.workers[w]))
  }

  lemma EvolvesTransitive(a: State, b: State, c: State)
    requires Evolves(a, b) && Evolves(b, c)
    ensures Evolves(a, c)
  {
    forall key | key in a.sets ensures key in c.sets && SetStep(a.sets[key], c.sets[key]) {
      assert SetStep(a.sets[key], b.sets[key]) && SetStep(b.sets[key], c.sets[key]);
    }
    forall id | id in a.attempts ensures id in c.attempts && AttemptStep(a.attempts[id], c.attempts[id]) {
      assert AttemptStep(a.attempts[id], b.attempts[id]) && AttemptStep(b.attempts[id], c.attempts[id]);
    }
    forall w | w in a.workers ensures w in c.workers && WorkerStep(a.workers[w], c.workers[w]) {
      assert WorkerStep(a.workers[w], b.workers[w]) && WorkerStep(b.workers[w], c.workers[w]);
    }
  }

  lemma AssignSetStep(t: FifoTaskSet, i: nat, id: TaskAttemptID)
    requires i < |t.tasks| && t.tasks[i].state != TaskSucceeded
    ensures SetStep(t, AssignTask(t, i, id))
  {
  }

  lemma SucceedSetStep(t: FifoTaskSet, i: nat, report: TaskAttemptSuccess)
    requires i < |t.tasks| && t.tasks[i].state == TaskRunning
    ensures SetStep(t, SucceedTask(t, i, report))
  {
    assert t.delivered + (t.reports + [SuccessReport(report)]) == Log(t) + [SuccessReport(report)];
  }

  lemma FailSetStep(t: FifoTaskSet, i: nat, report: TaskAttemptFailure, max: nat)
    requires i < |t.tasks| && t.tasks[i].state == TaskRunning
    ensures SetStep(t, FailTask(t, i, report, max))
  {
    var entry := FailureReport(report, Retryable(report.kind) && t.tasks[i].attempts < max,
                               Retryable(report.kind) && !(Retryable(report.kind) && t.tasks[i].attempts < max),
                               t.tasks[i].attempts);
    assert t.delivered + (t.reports + [entry]) == Log(t) + [entry];
  }

  lemma OtherSetSteps(t: FifoTaskSet, err: SetError)
    ensures SetStep(t, t) && SetStep(t, FinishSet(t, err)) && SetStep(t, DrainSet(t)) && SetStep(t, t.(cancelled := true))
  {
    assert (t.delivered + t.reports) + [] == t.delivered + t.reports;
  }

  lemma PutSetEvolves(s: State, key: SetKey, t: FifoTaskSet)
    requires key in s.sets && SetStep(s.sets[key], t)
    ensures Evolves(s, PutSet(s, key, t))
  {
    forall k | k in s.sets ensures SetStep(s.sets[k], PutSet(s, key, t).sets[k]) { OtherSetSteps(s.sets[k], NoError); }
  }

  lemma AssignEvolves(s: State, key: SetKey, i: nat, w: WorkerID)
    requires key in s.sets && i < |s.sets[key].tasks| && w in s.workers && s.nextAttempt !in s.attempts
    requires s.sets[key].tasks[i].state == TaskPending
    ensures Evolves(s, Assign(s, key, i, w))
  {
    AssignSetStep(s.sets[key], i, s.nextAttempt);
    forall k | k in s.sets ensures SetStep(s.sets[k], Assign(s, key, i, w).sets[k]) { OtherSetSteps(s.sets[k], NoError); }
  }

  lemma RetireEvolves(s: State, id: TaskAttemptID, state: TaskState, t: FifoTaskSet)
    requires id in s.attempts && Linked(s, s.attempts[id]) && !s.attempts[id].terminal
    requires SetStep(s.sets[s.attempts[id].key], t)
    ensures Evolves(s, Retire(s, id, state, t))
  {
    forall k | k in s.sets ensures SetStep(s.sets[k], Retire(s, id, state, t).sets[k]) { OtherSetSteps(s.sets[k], NoError); }
  }

  // ---------------------------------------------------------------- submitting

  lemma SubmitAgree(s: State, input: TaskSet, cancelled: bool)
    requires Inv(s)
    ensures Agree(Submit(s, input, cancelled).state)
  {
    hide SetInv, QueueOK, ValidTaskSet, SortTasks;
    var s1 := Submit(s, input, cancelled).state;
    if s1 != s {
      forall id | id in s1.attempts ensures AttemptOK(s1, id) { assert AttemptOK(s, id); }
      forall k, j | k in s1.sets && 0 <= j < |s1.sets[k].tasks| ensures TaskOK(s1, k, j) {
        if k in s.sets {
          assert TaskOK(s, k, j);
          assert AttemptsOf(s1, k, j) == AttemptsOf(s, k, j);
        } else {
          forall id | id in s.attempts ensures s.attempts[id].key != k { assert AttemptOK(s, id); }
          assert AttemptsOf(s1, k, j) == {};
        }
      }
      forall w | w in s1.workers ensures WorkerOK(s1, w) {
        assert WorkerOK(s, w);
        assert forall id :: Holds(s1, w, id) <==> Holds(s, w, id);
      }
    }
  }

  lemma SubmitEvolves(s: State, input: TaskSet, cancelled: bool)
    ensures Evolves(s, Submit(s, input, cancelled).state)
  {
    var s1 := Submit(s, input, cancelled).state;
    forall k | k in s.sets ensures SetStep(s.sets[k], s1.sets[k]) { OtherSetSteps(s.sets[k], NoError); }
  }

  lemma SubmitSets(s: State, input: TaskSet, cancelled: bool)
    requires SetsOK(s) && s.maxTaskAttempts > 0
    ensures SetsOK(Submit(s, input, cancelled).state)
  {
    if ValidTaskSet(input) { NewSetKeeps(input, s.nextSequence, s.maxTaskAttempts); }
  }

  lemma SubmitInv(s: State, input: TaskSet, cancelled: bool)
    requires Inv(s)
    ensures Inv(Submit(s, input, cancelled).state)
    ensures Evolves(s, Submit(s, input, cancelled).state)
  {
    assert s.maxTaskAttempts > 0;
    hide Agree, QueueOK, SetsOK, Evolves;
    SubmitAgree(s, input, cancelled);
    SubmitSets(s, input, cancelled);
    SubmitQueue(s, input, cancelled);
    SubmitEvolves(s, input, cancelled);
  }

  lemma SubmitQueue(s: State, input: TaskSet, cancelled: bool)
    requires QueueOK(s)
    ensures QueueOK(Submit(s, input, cancelled).state)
  {
    var s1 := Submit(s, input, cancelled).state;
    if s1 != s {
      forall key | key in s1.sets && !s1.sets[key].terminal ensures key in s1.queue {
        if key == KeyOf(input) { assert s1.queue[|s.queue|] == key; }
        else { assert key in s.queue; }
      }
    }
  }

  // ---------------------------------------------------------------- offers

  /** Where an offer stands while it assigns: the invariant holds, and what it
      may still assign fits the worker's unreserved slots. */
  ghost predicate OfferOK(o: OfferState, id: WorkerID) {
    && Inv(o.state) && id in o.state.workers && o.state.workers[id].status == WorkerAlive
    && o.available <= o.state.workers[id].totalSlots - |o.state.workers[id].reserved|
  }

  function AssignOne(o: OfferState, id: WorkerID, key: SetKey, i: nat): OfferState
    requires key in o.state.sets && i < |o.state.sets[key].tasks| && id in o.state.workers
  {
    OfferState(Assign(o.state, key, i, id), o.assignments + [NewAssignment(o.state, key, i, id)], o.available - 1)
  }

  lemma AssignOneOK(o: OfferState, id: WorkerID, key: SetKey, i: nat)
    requires OfferOK(o, id) && key in o.state.sets && i < |o.state.sets[key].tasks|
    requires o.state.sets[key].tasks[i].state == TaskPending && o.available > 0
    ensures OfferOK(AssignOne(o, id, key, i), id)
    ensures Evolves(o.state, AssignOne(o, id, key, i).state)
  {
    var s := o.state;
    AssignOneParts(s, id, key, i);
    hide Core, Evolves, LostIdle, Assign;
  }

  lemma AssignOneParts(s: State, id: WorkerID, key: SetKey, i: nat)
    requires Core(s) && LostIdle(s) && id in s.workers && s.workers[id].status == WorkerAlive
    requires key in s.sets && i < |s.sets[key].tasks| && s.sets[key].tasks[i].state == TaskPending
    requires |s.workers[id].reserved| < s.workers[id].totalSlots
    ensures Core(Assign(s, key, i, id)) && Evolves(s, Assign(s, key, i, id)) && LostIdle(Assign(s, key, i, id))
    ensures id in Assign(s, key, i, id).workers
    ensures var w := Assign(s, key, i, id).workers[id];
            w.status == WorkerAlive && w.totalSlots == s.workers[id].totalSlots
            && |w.reserved| == |s.workers[id].reserved| + 1
  {
    AssignReserved(s, key, i, id);
    AssignIdle(s, key, i, id);
    hide Core, Evolves, LostIdle, Assign;
    AssignCore(s, key, i, id);
    AssignEvolves(s, key, i, id);
  }

  lemma AssignIdle(s: State, key: SetKey, i: nat, id: WorkerID)
    requires LostIdle(s) && id in s.workers && s.workers[id].status == WorkerAlive
    requires key in s.sets && i < |s.sets[key].tasks|
    ensures LostIdle(Assign(s, key, i, id)) && id in Assign(s, key, i, id).workers
    ensures Assign(s, key, i, id).workers[id].status == WorkerAlive
    ensures Assign(s, key, i, id).workers[id].totalSlots == s.workers[id].totalSlots
  {
  }

  lemma AssignReserved(s: State, key: SetKey, i: nat, id: WorkerID)
    requires Core(s) && id in s.workers && key in s.sets && i < |s.sets[key].tasks|
    ensures s.nextAttempt !in s.attempts
    ensures |Assign(s, key, i, id).workers[id].reserved| == |s.workers[id].reserved| + 1
  {
    hide SetsOK, QueueOK, AllTasksOK, AttemptsOK;
    assert WorkerOK(s, id);
    assert !Holds(s, id, s.nextAttempt);
  }

  lemma AssignOneKeys(o: OfferState, id: WorkerID, key: SetKey, i: nat)
    requires key in o.state.sets && i < |o.state.sets[key].tasks| && id in o.state.workers
    ensures AssignOne(o, id, key, i).state.sets.Keys == o.state.sets.Keys
    ensures |AssignOne(o, id, key, i).state.sets[key].tasks| == |o.state.sets[key].tasks|
    ensures AssignOne(o, id, key, i).state.workers.Keys == o.state.workers.Keys
  {
  }

  lemma {:induction false} OfferTasksOK(o: OfferState, id: WorkerID, key: SetKey, i: nat)
    requires OfferOK(o, id) && key in o.state.sets && i <= |o.state.sets[key].tasks|
    ensures OfferOK(OfferTasks(o, id, key, i), id)
    ensures Evolves(o.state, OfferTasks(o, id, key, i).state)
    decreases |o.state.sets[key].tasks| - i
  {
    hide Inv, Evolves, Assign;
    if i == |o.state.sets[key].tasks| || o.available <= 0 {
      EvolvesReflexive(o.state);
    } else if o.state.sets[key].tasks[i].state != TaskPending {
      OfferTasksOK(o, id, key, i + 1);
    } else {
      AssignOneOK(o, id, key, i);
      var o1 := AssignOne(o, id, key, i);
      AssignOneKeys(o, id, key, i);
      OfferTasksOK(o1, id, key, i + 1);
      EvolvesTransitive(o.state, o1.state, OfferTasks(o1, id, key, i + 1).state);
    }
  }

  lemma EvolvesReflexive(s: State)
    ensures Evolves(s, s)
  {
    forall k | k in s.sets ensures SetStep(s.sets[k], s.sets[k]) { OtherSetSteps(s.sets[k], NoError); }
  }

  lemma OfferSetOK(o: OfferState, id: WorkerID, key: SetKey)
    requires OfferOK(o, id) && key in o.state.sets
    ensures OfferOK(OfferSet(o, id, key), id)
    ensures Evolves(o.state, OfferSet(o, id, key).state)
  {
    var t := o.state.sets[key];
    if t.terminal {
      EvolvesReflexive(o.state);
    } else if t.cancelled {
      FinishKeeps(t, ErrContext, o.state.maxTaskAttempts);
      OtherSetSteps(t, ErrContext);
      PutSetCore(o.state, key, FinishSet(t, ErrContext));
      PutSetEvolves(o.state, key, FinishSet(t, ErrContext));
    } else {
      OfferTasksOK(o, id, key, 0);
    }
  }

  lemma {:induction false} OfferSetsOK(o: OfferState, id: WorkerID, keys: seq<SetKey>)
    requires OfferOK(o, id) && forall key :: key in keys ==> key in o.state.sets
    ensures OfferOK(OfferSets(o, id, keys), id)
    ensures Evolves(o.state, OfferSets(o, id, keys).state)
    decreases |keys|
  {
    if keys == [] {
      EvolvesReflexive(o.state);
    } else {
      var o1 := OfferSet(o, id, keys[0]);
      OfferSetOK(o, id, keys[0]);
      OfferSetsOK(o1, id, keys[1..]);
      EvolvesTransitive(o.state, o1.state, OfferSets(o1, id, keys[1..]).state);
    }
  }

  lemma {:induction false} LiveKeysMembers(sets: map<SetKey, FifoTaskSet>, keys: seq<SetKey>)
    requires forall key :: key in keys ==> key in sets
    requires forall i, j :: 0 <= i < j < |keys| ==> sets[keys[i]].sequence < sets[keys[j]].sequence
    ensures forall key :: key in LiveKeys(sets, keys) <==> key in keys && !sets[key].terminal
    ensures forall i, j :: 0 <= i < j < |LiveKeys(sets, keys)| ==>
      sets[LiveKeys(sets, keys)[i]].sequence < sets[LiveKeys(sets, keys)[j]].sequence
  {
    if keys != [] {
      var init, last := keys[..|keys| - 1], keys[|keys| - 1];
      LiveKeysMembers(sets, init);
      var live := LiveKeys(sets, init);
      forall i | 0 <= i < |live| ensures sets[live[i]].sequence < sets[last].sequence {
        assert live[i] in init;
        var j :| 0 <= j < |init| && init[j] == live[i];
        assert keys[j] == live[i];
      }
    }
  }

  lemma CompactInv(s: State)
    requires Core(s)
    ensures Core(Compact(s)) && Evolves(s, Compact(s))
    ensures LostIdle(s) ==> LostIdle(Compact(s))
  {
    LiveKeysMembers(s.sets, s.queue);
    var live := LiveKeys(s.sets, s.queue);
    forall i | 0 <= i < |live| ensures live[i] in s.sets { assert live[i] in live; }
    AgreeFrame(s, Compact(s));
    EvolvesReflexive(s);
  }

  lemma HeartbeatInv(s: State, id: WorkerID, free: int, running: seq<TaskAttemptID>, now: int)
    requires Inv(s) && id in s.workers
    ensures Inv(Heartbeat(s, id, free, running, now)) && Evolves(s, Heartbeat(s, id, free, running, now))
  {
    hide SetInv, SetStep;
    var s1 := Heartbeat(s, id, free, running, now);
    AgreeFrame(s, s1);
    HeartbeatEvolves(s, id, free, running, now);
  }

  lemma HeartbeatEvolves(s: State, id: WorkerID, free: int, running: seq<TaskAttemptID>, now: int)
    requires id in s.workers
    ensures Evolves(s, Heartbeat(s, id, free, running, now))
  {
    hide SetStep;
    EvolvesReflexive(s);
  }

  lemma OfferInv(s: State, id: WorkerID, free: int, running: seq<TaskAttemptID>, now: int)
    requires Inv(s) && Wired(s)
    ensures Inv(Offer(s, id, free, running, now).state)
    ensures Evolves(s, Offer(s, id, free, running, now).state)
  {
    if s.closed || id !in s.workers || s.workers[id].status == WorkerLost || !ValidOffer(s, id, free, running) {
      EvolvesReflexive(s);
    } else {
      var s1 := Heartbeat(s, id, free, running, now);
      HeartbeatInv(s, id, free, running, now);
      var o := OfferState(s1, [], Available(s.workers[id], free, running));
      OfferSetsOK(o, id, s.queue);
      var o1 := OfferSets(o, id, s.queue);
      CoreWired(o1.state);
      CompactInv(o1.state);
      EvolvesTransitive(s, s1, o1.state);
      EvolvesTransitive(s, o1.state, Compact(o1.state));
    }
  }

  // ---------------------------------------------------------------- reports

  lemma SucceedAttemptInv(s: State, report: TaskAttemptSuccess)
    requires Core(s) && report.attempt.id in s.attempts && !s.attempts[report.attempt.id].terminal
    requires Linked(s, s.attempts[report.attempt.id])
    requires report.partitionID == s.attempts[report.attempt.id].assignment.task.partitionID
    ensures Core(SucceedAttempt(s, report)) && Evolves(s, SucceedAttempt(s, report))
  {
    var a := s.attempts[report.attempt.id];
    assert AttemptOK(s, report.attempt.id);
    SucceedCore(s, report);
    SucceedSetStep(s.sets[a.key], a.index, report);
    RetireEvolves(s, report.attempt.id, TaskSucceeded, SucceedTask(s.sets[a.key], a.index, report));
  }

  lemma RetireIdle(s: State, id: TaskAttemptID, state: TaskState, t: FifoTaskSet)
    requires id in s.attempts && Linked(s, s.attempts[id]) && LostIdle(s)
    ensures LostIdle(Retire(s, id, state, t))
  {
  }

  lemma ReportSuccessInv(s: State, report: TaskAttemptSuccess)
    requires Inv(s) && Wired(s)
    ensures Inv(ReportSuccess(s, report).state)
    ensures Evolves(s, ReportSuccess(s, report).state)
  {
    hide Core, Evolves, LostIdle, Retire;
    EvolvesReflexive(s);
    if CheckReport(s, report.jobID, report.stageID, report.attempt, report.partitionID, report.workerID) == Live {
      var a := s.attempts[report.attempt.id];
      SucceedAttemptInv(s, report);
      RetireIdle(s, report.attempt.id, TaskSucceeded, SucceedTask(s.sets[a.key], a.index, report));
    }
  }

  lemma FailAttemptInv(s: State, id: TaskAttemptID, report: TaskAttemptFailure)
    requires Core(s) && id in s.attempts && !s.attempts[id].terminal && Linked(s, s.attempts[id])
    ensures Core(FailAttempt(s, id, report))
    ensures Evolves(s, FailAttempt(s, id, report))
  {
    var a := s.attempts[id];
    assert AttemptOK(s, id);
    FailCore(s, id, report);
    FailSetStep(s.sets[a.key], a.index, report, s.maxTaskAttempts);
    RetireEvolves(s, id, TaskFailed, FailTask(s.sets[a.key], a.index, report, s.maxTaskAttempts));
  }

  lemma ReportFailureInv(s: State, report: TaskAttemptFailure)
    requires Inv(s) && Wired(s)
    ensures Inv(ReportFailure(s, report).state)
    ensures Evolves(s, ReportFailure(s, report).state)
  {
    hide Core, Evolves, LostIdle, Retire;
    EvolvesReflexive(s);
    if CheckReport(s, report.jobID, report.stageID, report.attempt, report.partitionID, report.workerID) == Live {
      var a := s.attempts[report.attempt.id];
      FailAttemptInv(s, report.attempt.id, report);
      RetireIdle(s, report.attempt.id, TaskFailed, FailTask(s.sets[a.key], a.index, report, s.maxTaskAttempts));
    }
  }

  // ---------------------------------------------------------------- expiry

  ghost predicate AllLive(s: State, ids: seq<TaskAttemptID>) {
    && (forall id :: id in ids ==> id in s.attempts && !s.attempts[id].terminal)
    && (forall i, j :: 0 <= i < j < |ids| ==> ids[i] != ids[j])
  }

  lemma FailedOthersLive(s: State, ids: seq<TaskAttemptID>, report: TaskAttemptFailure)
    requires ids != [] && AllLive(s, ids) && Linked(s, s.attempts[ids[0]])
    ensures AllLive(FailAttempt(s, ids[0], report), ids[1..])
    ensures FailAttempt(s, ids[0], report).workers.Keys == s.workers.Keys
    ensures Wired(s) ==> Wired(FailAttempt(s, ids[0], report))
  {
  }

  lemma {:induction false} FailAllCore(s: State, ids: seq<TaskAttemptID>)
    requires Core(s) && Wired(s) && AllLive(s, ids)
    ensures Core(FailAll(s, ids)) && Evolves(s, FailAll(s, ids))
    decreases |ids|
  {
    hide Core, Evolves;
    EvolvesReflexive(s);
    if ids != [] {
      var a := s.attempts[ids[0]];
      var report := LossReport(a.assignment);
      var s1 := FailAttempt(s, ids[0], report);
      FailAttemptInv(s, ids[0], report);
      FailedOthersLive(s, ids, report);
      FailAllCore(s1, ids[1..]);
      EvolvesTransitive(s, s1, FailAll(s1, ids[1..]));
    }
  }

  /** Failing attempts frees exactly their reservations. */
  lemma {:induction false} FailAllReserved(s: State, ids: seq<TaskAttemptID>, w: WorkerID)
    requires Core(s) && Wired(s) && AllLive(s, ids) && w in s.workers
    ensures FailAll(s, ids).workers[w] == s.workers[w].(reserved := s.workers[w].reserved - Seen(ids))
    decreases |ids|
  {
    hide Core, Evolves, FailAttempt;
    if ids != [] {
      var a := s.attempts[ids[0]];
      var report := LossReport(a.assignment);
      var s1 := FailAttempt(s, ids[0], report);
      FailAttemptInv(s, ids[0], report);
      FailedOthersLive(s, ids, report);
      FailAllReserved(s1, ids[1..], w);
      FailOneReserved(s, ids[0], report, w);
      assert s1.workers[w].reserved - Seen(ids[1..]) == s.workers[w].reserved - Seen(ids);
    } else {
      assert s.workers[w].reserved - Seen(ids) == s.workers[w].reserved;
    }
  }

  lemma FailOneReserved(s: State, id: TaskAttemptID, report: TaskAttemptFailure, w: WorkerID)
    requires Core(s) && id in s.attempts && Linked(s, s.attempts[id]) && w in s.workers
    ensures FailAttempt(s, id, report).workers[w] == s.workers[w].(reserved := s.workers[w].reserved - {id})
  {
    hide SetsOK, QueueOK, AllTasksOK, AttemptsOK, FailTask;
    assert WorkerOK(s, w);
    if s.attempts[id].assignment.workerID != w {
      assert !Holds(s, w, id);
      assert s.workers[w].reserved - {id} == s.workers[w].reserved;
    }
  }

  lemma MarkLostCore(s: State, id: WorkerID)
    requires Core(s) && Wired(s) && id in s.workers
    ensures Core(MarkLost(s, id)) && Wired(MarkLost(s, id)) && Evolves(s, MarkLost(s, id))
  {
    AgreeFrame(s, MarkLost(s, id));
    EvolvesReflexive(s);
  }

  lemma LoseWorkerInv(s: State, id: WorkerID)
    requires Inv(s) && Wired(s) && id in s.workers
    ensures Inv(LoseWorker(s, id)) && Evolves(s, LoseWorker(s, id))
  {
    var s1 := MarkLost(s, id);
    var ids := SortedIds(s.workers[id].reserved);
    MarkLostCore(s, id);
    ReservedLive(s, id);
    LoseAll(s, s1, ids, id);
  }

  lemma ReservedLive(s: State, id: WorkerID)
    requires Core(s) && id in s.workers
    ensures AllLive(MarkLost(s, id), SortedIds(s.workers[id].reserved))
  {
    assert WorkerOK(s, id);
    forall x | x in SortedIds(s.workers[id].reserved) ensures x in s.attempts && !s.attempts[x].terminal {
      assert Holds(s, id, x);
    }
  }

  lemma LoseAll(s: State, s1: State, ids: seq<TaskAttemptID>, id: WorkerID)
    requires LostIdle(s) && Core(s1) && Wired(s1) && AllLive(s1, ids) && Evolves(s, s1)
    requires id in s.workers && s1 == MarkLost(s, id) && forall x :: x in s.workers[id].reserved ==> x in ids
    ensures Inv(FailAll(s1, ids)) && Evolves(s, FailAll(s1, ids))
  {
    hide Core, Evolves;
    FailAllCore(s1, ids);
    EvolvesTransitive(s, s1, FailAll(s1, ids));
    forall w | w in s1.workers && s1.workers[w].status == WorkerLost ensures FailAll(s1, ids).workers[w].reserved == {} {
      FailAllReserved(s1, ids, w);
    }
    forall w | w in s1.workers ensures FailAll(s1, ids).workers[w].status == s1.workers[w].status {
      FailAllReserved(s1, ids, w);
    }
  }

  lemma {:induction false} LoseWorkersInv(s: State, ids: seq<WorkerID>)
    requires Inv(s) && Wired(s) && forall id :: id in ids ==> id in s.workers
    ensures Inv(LoseWorkers(s, ids)) && Evolves(s, LoseWorkers(s, ids))
    decreases |ids|
  {
    if ids == [] {
      EvolvesReflexive(s);
    } else {
      LoseWorkerInv(s, ids[0]);
      var s1 := LoseWorker(s, ids[0]);
      LoseWorkersInv(s1, ids[1..]);
      EvolvesTransitive(s, s1, LoseWorkers(s1, ids[1..]));
    }
  }

  lemma ExpireInv(s: State, now: int, timeout: int)
    requires Inv(s) && Wired(s)
    ensures Inv(Expire(s, now, timeout).state) && Evolves(s, Expire(s, now, timeout).state)
  {
    if timeout <= 0 || s.closed {
      EvolvesReflexive(s);
    } else {
      var lost := SortedKeys(ExpiredIds(s, now, timeout));
      LoseWorkersInv(s, lost);
      var s1 := LoseWorkers(s, lost);
      CompactInv(s1);
      EvolvesTransitive(s, s1, Compact(s1));
    }
  }

  // ---------------------------------------------------------------- the rest

  lemma CloseSets(s: State)
    requires SetsOK(s)
    ensures SetsOK(Close(s)) && Evolves(s, Close(s))
  {
    hide SetInv, SetStep, FinishSet;
    var s1 := Close(s);
    forall key | key in s1.sets ensures SetInv(s1.sets[key], s1.maxTaskAttempts) && SetStep(s.sets[key], s1.sets[key]) {
      FinishKeeps(s.sets[key], ErrSchedulerClosed, s.maxTaskAttempts);
      OtherSetSteps(s.sets[key], ErrSchedulerClosed);
    }
  }

  lemma CloseInv(s: State)
    requires Inv(s)
    ensures Inv(Close(s)) && Evolves(s, Close(s))
  {
    hide SetInv, Evolves;
    CloseSets(s);
    AgreeFrame(s, Close(s));
  }

  lemma DrainInv(s: State, key: SetKey)
    requires Inv(s)
    ensures Inv(Drain(s, key)) && Evolves(s, Drain(s, key))
  {
    if key in s.sets && !s.sets[key].returned {
      DrainKeeps(s.sets[key], s.maxTaskAttempts);
      OtherSetSteps(s.sets[key], NoError);
      PutSetCore(s, key, DrainSet(s.sets[key]));
      PutSetEvolves(s, key, DrainSet(s.sets[key]));
    } else {
      EvolvesReflexive(s);
    }
  }

  lemma CancelInv(s: State, key: SetKey)
    requires Inv(s)
    ensures Inv(CancelContext(s, key)) && Evolves(s, CancelContext(s, key))
  {
    if key in s.sets {
      CancelKeeps(s.sets[key], s.maxTaskAttempts);
      OtherSetSteps(s.sets[key], NoError);
      PutSetCore(s, key, s.sets[key].(cancelled := true));
      PutSetEvolves(s, key, s.sets[key].(cancelled := true));
    } else {
      EvolvesReflexive(s);
    }
  }

  lemma RegisterInv(s: State, id: WorkerID, slots: int, now: int)
    requires Inv(s)
    ensures Inv(Register(s, id, slots, now).state) && Evolves(s, Register(s, id, slots, now).state)
  {
    hide *;
    RegisterCases(s, id, slots, now);
    EvolvesReflexive(s);
    if Register(s, id, slots, now).state != s { NewWorkerInv(s, id, WorkerState(WorkerAlive, slots, 0, [], now, {})); }
  }

  lemma RegisterCases(s: State, id: WorkerID, slots: int, now: int)
    ensures var s1 := Register(s, id, slots, now).state;
            s1 == s || (id !in s.workers && s1 == s.(workers := s.workers[id := WorkerState(WorkerAlive, slots, 0, [], now, {})])
                        && slots > 0)
  {
  }

  /** A worker nobody has heard of joins without reservations. */
  lemma NewWorkerInv(s: State, id: WorkerID, worker: WorkerState)
    requires Inv(s) && id !in s.workers && worker.reserved == {} && worker.totalSlots >= 0
    ensures var s1 := s.(workers := s.workers[id := worker]); Inv(s1) && Evolves(s, s1)
  {
    hide Numbered, AttemptsOK, AllTasksOK, WorkersOK, QueueOK, SetsOK, LostIdle, Evolves;
    NewWorkerTasks(s, id, worker);
    NewWorkerAttempts(s, id, worker);
    NewWorkerHolds(s, id, worker);
    NewWorkerRest(s, id, worker);
    NewWorkerEvolves(s, id, worker);
  }

  lemma NewWorkerRest(s: State, id: WorkerID, worker: WorkerState)
    requires Numbered(s) && QueueOK(s) && SetsOK(s) && LostIdle(s) && worker.reserved == {}
    ensures var s1 := s.(workers := s.workers[id := worker]); Numbered(s1) && QueueOK(s1) && SetsOK(s1) && LostIdle(s1)
  {
    hide SetInv;
  }

  lemma NewWorkerEvolves(s: State, id: WorkerID, worker: WorkerState)
    requires id !in s.workers
    ensures Evolves(s, s.(workers := s.workers[id := worker]))
  {
    EvolvesReflexive(s);
    hide SetStep, AttemptStep, WorkerStep;
  }

  lemma NewWorkerTasks(s: State, id: WorkerID, worker: WorkerState)
    requires AllTasksOK(s)
    ensures AllTasksOK(s.(workers := s.workers[id := worker]))
  {
    var s1 := s.(workers := s.workers[id := worker]);
    forall key, i | key in s1.sets && 0 <= i < |s1.sets[key].tasks| ensures TaskOK(s1, key, i) {
      assert TaskOK(s, key, i);
      assert AttemptsOf(s1, key, i) == AttemptsOf(s, key, i);
    }
  }

  lemma NewWorkerAttempts(s: State, id: WorkerID, worker: WorkerState)
    requires AttemptsOK(s)
    ensures AttemptsOK(s.(workers := s.workers[id := worker]))
  {
    var s1 := s.(workers := s.workers[id := worker]);
    forall x | x in s1.attempts ensures AttemptOK(s1, x) { assert AttemptOK(s, x); }
  }

  lemma NewWorkerHolds(s: State, id: WorkerID, worker: WorkerState)
    requires AttemptsOK(s) && WorkersOK(s) && id !in s.workers && worker.reserved == {} && worker.totalSlots >= 0
    ensures WorkersOK(s.(workers := s.workers[id := worker]))
  {
    var s1 := s.(workers := s.workers[id := worker]);
    forall w | w in s1.workers ensures WorkerOK(s1, w) {
      if w in s.workers {
        assert WorkerOK(s, w);
        assert forall x :: Holds(s1, w, x) <==> Holds(s, w, x);
      } else {
        forall x ensures !Holds(s1, w, x) { if x in s.attempts { assert AttemptOK(s, x); } }
      }
    }
  }

  /** Every event keeps the invariant, and the state only moves forward. */
  lemma StepInv(s: State, e: Event)
    requires Inv(s) && Wired(s)
    ensures Inv(Step(s, e)) && Wired(Step(s, e)) && Evolves(s, Step(s, e))
  {
    match e {
      case RegisterEvent(id, slots, now) => RegisterInv(s, id, slots, now);
      case SubmitEvent(input, cancelled) => SubmitInv(s, input, cancelled);
      case DrainEvent(key) => DrainInv(s, key);
      case CancelEvent(key) => CancelInv(s, key);
      case OfferEvent(id, free, running, now) => OfferInv(s, id, free, running, now);
      case SuccessEvent(report) => ReportSuccessInv(s, report);
      case FailureEvent(report) => ReportFailureInv(s, report);
      case ExpireEvent(now, timeout) => ExpireInv(s, now, timeout);
      case CloseEvent => CloseInv(s);
    }
    CoreWired(Step(s, e));
  }

  ghost function Run(s: State, events: seq<Event>): (r: State)
    requires Inv(s) && Wired(s)
    ensures Inv(r) && Wired(r) && Evolves(s, r)
    decreases |events|
  {
    if events == [] then EvolvesReflexive(s); s
    else
      StepInv(s, events[0]);
      EvolvesAfter(s, events);
      Run(Step(s, events[0]), events[1..])
  }

  lemma {:induction false} EvolvesAfter(s: State, events: seq<Event>)
    requires Inv(s) && Wired(s) && events != []
    requires Inv(Step(s, events[0])) && Wired(Step(s, events[0])) && Evolves(s, Step(s, events[0]))
    ensures Evolves(s, Run(Step(s, events[0]), events[1..]))
    decreases |events|, 0
  {
    EvolvesTransitive(s, Step(s, events[0]), Run(Step(s, events[0]), events[1..]));
  }
}
