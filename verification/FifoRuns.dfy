/** The FIFO scheduler over whole runs: late reports, budgets, capacity, lost
    workers, and where delivered successes come from. */
module FifoRuns {
  import opened Types
  import opened FiniteSets
  import opened Ordering
  import opened Fifo
  import opened FifoSets
  import opened FifoInvariant
  import opened FifoSteps

  // ---------------------------------------------------------------- late and duplicate reports

  /** A report about an attempt that has already ended. */
  predicate Late(s: State, e: Event) {
    match e
    case SuccessEvent(r) => r.attempt.id in s.attempts && s.attempts[r.attempt.id].terminal
    case FailureEvent(r) => r.attempt.id in s.attempts && s.attempts[r.attempt.id].terminal
    case _ => false
  }

  lemma LateReportStutters(s: State, e: Event)
    requires Inv(s) && Wired(s) && Late(s, e)
    ensures Step(s, e) == s
  {
    hide Inv, AcceptableOutput, ValidFailure, NamesAssignedInput, SucceedAttempt, FailAttempt;
    if e.SuccessEvent? { assert ReportSuccess(s, e.success).state == s; } else { assert ReportFailure(s, e.failure).state == s; }
  }

  /** The run without the reports that were late when they came. */
  ghost function Prune(s: State, events: seq<Event>): seq<Event>
    requires Inv(s) && Wired(s)
    decreases |events|
  {
    if events == [] then []
    else
      StepInv(s, events[0]);
      (if Late(s, events[0]) then [] else [events[0]]) + Prune(Step(s, events[0]), events[1..])
  }

  /** Deleting every late or duplicate report from any run leaves the same final
      state, and so the same delivered reports. */
  lemma {:induction false} LateReportsChangeNothing(s: State, events: seq<Event>)
    requires Inv(s) && Wired(s)
    ensures Run(s, Prune(s, events)) == Run(s, events)
    decreases |events|
  {
    hide Inv, Wired, Step;
    if events != [] {
      var s1 := Step(s, events[0]);
      StepInv(s, events[0]);
      LateReportsChangeNothing(s1, events[1..]);
      if Late(s, events[0]) {
        LateReportStutters(s, events[0]);
        assert [] + Prune(s1, events[1..]) == Prune(s1, events[1..]);
      } else {
        var pruned := [events[0]] + Prune(s1, events[1..]);
        assert pruned[1..] == Prune(s1, events[1..]);
      }
    }
  }

  /** Nothing a lost worker reports changes anything. */
  lemma LostWorkersReportNothing(s: State, success: TaskAttemptSuccess, failure: TaskAttemptFailure)
    requires Inv(s) && Wired(s)
    ensures success.workerID in s.workers && s.workers[success.workerID].status == WorkerLost ==>
      ReportSuccess(s, success).state == s
    ensures failure.workerID in s.workers && s.workers[failure.workerID].status == WorkerLost ==>
      ReportFailure(s, failure).state == s
  {
    LostWorkersHoldNothing(s, success.workerID, success.attempt.id);
    LostWorkersHoldNothing(s, failure.workerID, failure.attempt.id);
  }

  lemma LostWorkersHoldNothing(s: State, w: WorkerID, id: TaskAttemptID)
    requires Inv(s)
    ensures w in s.workers && s.workers[w].status == WorkerLost ==> s.workers[w].reserved == {} && !Holds(s, w, id)
  {
    if w in s.workers { assert WorkerOK(s, w); }
  }

  // ---------------------------------------------------------------- budgets

  function AttemptsBelow(s: State, key: SetKey, n: nat): set<TaskAttemptID> {
    set id | id in s.attempts && s.attempts[id].key == key && s.attempts[id].index < n
  }

  function AttemptsOfSet(s: State, key: SetKey): set<TaskAttemptID> {
    set id | id in s.attempts && s.attempts[id].key == key
  }

  lemma {:induction false} AttemptsBelowBudget(s: State, key: SetKey, n: nat)
    requires AllTasksOK(s) && key in s.sets && n <= |s.sets[key].tasks| && TasksOK(s.sets[key], s.maxTaskAttempts)
    ensures |AttemptsBelow(s, key, n)| <= n * s.maxTaskAttempts
  {
    if n == 0 {
      assert AttemptsBelow(s, key, 0) == {};
    } else {
      AttemptsBelowBudget(s, key, n - 1);
      assert TaskOK(s, key, n - 1);
      assert AttemptsBelow(s, key, n) == AttemptsBelow(s, key, n - 1) + AttemptsOf(s, key, n - 1);
      assert n * s.maxTaskAttempts == (n - 1) * s.maxTaskAttempts + s.maxTaskAttempts;
    }
  }

  /** Failures and losses draw on one budget: a task's counter is the number of
      its retained attempts and never exceeds the limit, so a set is assigned at
      most tasks times limit. */
  lemma AssignmentsWithinBudget(s: State, key: SetKey)
    requires Inv(s) && key in s.sets
    ensures forall i :: 0 <= i < |s.sets[key].tasks| ==>
      s.sets[key].tasks[i].attempts == |AttemptsOf(s, key, i)| <= s.maxTaskAttempts
    ensures |AttemptsOfSet(s, key)| <= |s.sets[key].tasks| * s.maxTaskAttempts
  {
    assert AllTasksOK(s) && TasksOK(s.sets[key], s.maxTaskAttempts) by { assert SetInv(s.sets[key], s.maxTaskAttempts); }
    assert AttemptsOK(s);
    hide Inv, Core, Agree, AttemptsOf;
    forall i | 0 <= i < |s.sets[key].tasks|
      ensures s.sets[key].tasks[i].attempts == |AttemptsOf(s, key, i)| <= s.maxTaskAttempts
    {
      assert TaskOK(s, key, i);
    }
    AttemptsBelowBudget(s, key, |s.sets[key].tasks|);
    SetIsBelow(s, key);
  }

  lemma SetIsBelow(s: State, key: SetKey)
    requires AttemptsOK(s) && key in s.sets
    ensures AttemptsOfSet(s, key) == AttemptsBelow(s, key, |s.sets[key].tasks|)
  {
    forall id | id in s.attempts && s.attempts[id].key == key ensures s.attempts[id].index < |s.sets[key].tasks| {
      assert AttemptOK(s, id);
    }
  }

  /** A task has at most one live attempt, which is its active one. */
  lemma OneLiveAttempt(s: State, a: TaskAttemptID, b: TaskAttemptID)
    requires Inv(s) && a in s.attempts && b in s.attempts
    requires !s.attempts[a].terminal && !s.attempts[b].terminal
    requires s.attempts[a].key == s.attempts[b].key && s.attempts[a].index == s.attempts[b].index
    ensures a == b
    ensures Linked(s, s.attempts[a])
    ensures var t := s.sets[s.attempts[a].key].tasks[s.attempts[a].index];
            t.active == a && t.state == TaskRunning && a in s.workers[s.attempts[a].assignment.workerID].reserved
  {
    assert AttemptOK(s, a) && AttemptOK(s, b);
    assert WorkerOK(s, s.attempts[a].assignment.workerID);
    assert Holds(s, s.attempts[a].assignment.workerID, a);
  }

  // ---------------------------------------------------------------- exactly once

  /** In any run, a set's reports hold at most one success per task and at most
      one failure that was not requeued; once the set is terminal no later event
      adds or removes a report; and ScheduleTaskSet returns nil only after
      exactly one success of each task was delivered. */
  lemma ExactlyOnce(s: State, events: seq<Event>, key: SetKey, p: PartitionID)
    requires Inv(s) && Wired(s) && key in s.sets
    ensures key in Run(s, events).sets
    ensures var t := Run(s, events).sets[key];
            && Successes(Log(t), p) <= 1 && FinalFailures(Log(t)) <= 1
            && Log(s.sets[key]) <= Log(t)
            && (s.sets[key].terminal ==> Log(t) == Log(s.sets[key]) && t.err == s.sets[key].err)
            && (t.returned && t.err == NoError ==>
                  Successes(t.delivered, p) ==
                  if exists i :: 0 <= i < |t.tasks| && t.tasks[i].task.partitionID == p then 1 else 0)
  {
    var s1 := Run(s, events);
    assert SetStep(s.sets[key], s1.sets[key]);
    SetReportsOnce(s1, key, p);
  }

  lemma SetReportsOnce(s1: State, key: SetKey, p: PartitionID)
    requires SetsOK(s1) && key in s1.sets
    ensures var t := s1.sets[key];
            && Successes(Log(t), p) <= 1 && FinalFailures(Log(t)) <= 1
            && (t.returned && t.err == NoError ==>
                  Successes(t.delivered, p) ==
                  if exists i :: 0 <= i < |t.tasks| && t.tasks[i].task.partitionID == p then 1 else 0)
  {
    var t := s1.sets[key];
    assert SetInv(t, s1.maxTaskAttempts);
    if i :| 0 <= i < |t.tasks| && t.tasks[i].task.partitionID == p {
      assert SuccessOK(t, t.tasks[i]);
    } else {
      NoSuccesses(Log(t), p);
    }
    if t.returned && t.err == NoError { NilReturnDeliveredAll(t, s1.maxTaskAttempts, p); }
  }

  // ---------------------------------------------------------------- capacity

  /** New reservations of an offer are new attempts. */
  ghost predicate NewIds(s: State, s1: State, w: WorkerID)
    requires w in s.workers
  {
    && w in s1.workers && s.nextAttempt <= s1.nextAttempt
    && (forall id :: id in s1.workers[w].reserved ==> id in s.workers[w].reserved || s.nextAttempt <= id < s1.nextAttempt)
  }

  lemma {:induction false} OfferTasksNewIds(o: OfferState, w: WorkerID, key: SetKey, i: nat)
    requires key in o.state.sets && i <= |o.state.sets[key].tasks| && w in o.state.workers
    ensures NewIds(o.state, OfferTasks(o, w, key, i).state, w)
    ensures OfferTasks(o, w, key, i).state.nextAttempt - o.state.nextAttempt == o.available - OfferTasks(o, w, key, i).available
    decreases |o.state.sets[key].tasks| - i
  {
    if i < |o.state.sets[key].tasks| && o.available > 0 {
      if o.state.sets[key].tasks[i].state != TaskPending {
        OfferTasksNewIds(o, w, key, i + 1);
      } else {
        var o1 := AssignOne(o, w, key, i);
        assert NewIds(o.state, o1.state, w);
        hide Assign, NewAssignment;
        AssignOneKeys(o, w, key, i);
        OfferTasksNewIds(o1, w, key, i + 1);
      }
    }
  }

  lemma {:induction false} OfferSetsNewIds(o: OfferState, w: WorkerID, keys: seq<SetKey>)
    requires w in o.state.workers && forall key :: key in keys ==> key in o.state.sets
    ensures NewIds(o.state, OfferSets(o, w, keys).state, w)
    ensures OfferSets(o, w, keys).state.nextAttempt - o.state.nextAttempt == o.available - OfferSets(o, w, keys).available
    decreases |keys|
  {
    if keys != [] {
      var t := o.state.sets[keys[0]];
      if !t.terminal && !t.cancelled { OfferTasksNewIds(o, w, keys[0], 0); }
      OfferSetsNewIds(OfferSet(o, w, keys[0]), w, keys[1..]);
    }
  }

  lemma RangeSize(ids: set<TaskAttemptID>, lo: nat, hi: nat)
    requires lo <= hi && forall id :: id in ids ==> lo <= id < hi
    ensures |ids| <= hi - lo
    decreases hi
  {
    if lo < hi {
      RangeSize(ids - {hi - 1}, lo, hi - 1);
      if hi - 1 in ids { assert |ids - {hi - 1}| == |ids| - 1; } else { assert ids - {hi - 1} == ids; }
    } else {
      assert ids == {};
    }
  }

  lemma {:induction false} SeenSize(running: seq<TaskAttemptID>)
    ensures |Seen(running)| <= |running|
  {
    if running != [] {
      SeenSize(running[1..]);
      assert Seen(running) == {running[0]} + Seen(running[1..]);
    }
  }

  lemma {:induction false} OfferSetsAvailable(o: OfferState, w: WorkerID, keys: seq<SetKey>)
    requires OfferOK(o, w) && forall key :: key in keys ==> key in o.state.sets
    ensures |OfferSets(o, w, keys).state.workers[w].reserved| <= OfferSets(o, w, keys).state.workers[w].totalSlots
    ensures o.available >= 0 ==> OfferSets(o, w, keys).available >= 0
    ensures o.available <= 0 ==> OfferSets(o, w, keys).available == o.available
    decreases |keys|
  {
    hide Evolves;
    OfferSetsOK(o, w, keys);
    assert WorkerOK(OfferSets(o, w, keys).state, w);
    if keys != [] {
      OfferSetOK(o, w, keys[0]);
      AvailableAfter(o, w, keys[0]);
      OfferSetsAvailable(OfferSet(o, w, keys[0]), w, keys[1..]);
    }
  }

  lemma AvailableAfter(o: OfferState, w: WorkerID, key: SetKey)
    requires key in o.state.sets && w in o.state.workers
    ensures o.available >= 0 ==> OfferSet(o, w, key).available >= 0
    ensures o.available <= 0 ==> OfferSet(o, w, key).available == o.available
  {
    TasksAvailable(o, w, key, 0);
  }

  lemma {:induction false} TasksAvailable(o: OfferState, w: WorkerID, key: SetKey, i: nat)
    requires key in o.state.sets && i <= |o.state.sets[key].tasks| && w in o.state.workers
    ensures o.available >= 0 ==> OfferTasks(o, w, key, i).available >= 0
    ensures o.available <= 0 ==> OfferTasks(o, w, key, i).available == o.available
    decreases |o.state.sets[key].tasks| - i
  {
    hide Assign, NewAssignment;
    if i < |o.state.sets[key].tasks| && o.available > 0 {
      if o.state.sets[key].tasks[i].state != TaskPending {
        TasksAvailable(o, w, key, i + 1);
      } else {
        AssignOneKeys(o, w, key, i);
        TasksAvailable(AssignOne(o, w, key, i), w, key, i + 1);
      }
    }
  }

  /** Reservations never exceed a worker's slots, and an offer that assigns work
      leaves what the worker says it runs together with what is reserved within
      them. */
  lemma OfferWithinSlots(s: State, w: WorkerID, free: int, running: seq<TaskAttemptID>, now: int)
    requires Inv(s) && Wired(s) && Offer(s, w, free, running, now).reply.Granted?
    ensures w in Offer(s, w, free, running, now).state.workers
    ensures var w1 := Offer(s, w, free, running, now).state.workers[w];
            && |w1.reserved| <= w1.totalSlots == s.workers[w].totalSlots
            && (Offer(s, w, free, running, now).state.nextAttempt > s.nextAttempt ==>
                  |Seen(running) + w1.reserved| <= w1.totalSlots)
  {
    var s1 := Heartbeat(s, w, free, running, now);
    var o := OfferState(s1, [], Available(s.workers[w], free, running));
    HeartbeatInv(s, w, free, running, now);
    var o1 := OfferSets(o, w, s.queue);
    OfferSetsOK(o, w, s.queue);
    OfferSetsNewIds(o, w, s.queue);
    OfferSetsAvailable(o, w, s.queue);
    assert WorkerStep(s1.workers[w], o1.state.workers[w]);
    UnionWithin(s, w, free, running, o1.state.workers[w].reserved, o1.state.nextAttempt);
  }

  lemma UnionWithin(s: State, w: WorkerID, free: int, running: seq<TaskAttemptID>, reserved: set<TaskAttemptID>, next: nat)
    requires w in s.workers && |running| <= s.workers[w].totalSlots - free && s.nextAttempt <= next
    requires forall id :: id in reserved ==> id in s.workers[w].reserved || s.nextAttempt <= id < next
    requires next - s.nextAttempt <= Available(s.workers[w], free, running) || next == s.nextAttempt
    ensures next > s.nextAttempt ==> |Seen(running) + reserved| <= s.workers[w].totalSlots
  {
    var old_ := s.workers[w].reserved;
    var fresh_ := reserved - old_;
    SeenSize(running);
    RangeSize(fresh_, s.nextAttempt, next);
    var union := Seen(running) + (old_ - Seen(running)) + fresh_;
    assert Seen(running) + reserved <= union;
    SubsetSize(Seen(running) + reserved, union);
    assert |union| <= |Seen(running)| + |old_ - Seen(running)| + |fresh_|;
  }

  // ---------------------------------------------------------------- lost workers

  /** A lost worker stays lost, holds nothing, and is offered nothing; outputs
      already accepted are untouched by any later event. */
  lemma LostForEver(s: State, events: seq<Event>, w: WorkerID, free: int, running: seq<TaskAttemptID>, now: int)
    requires Inv(s) && Wired(s) && w in s.workers && s.workers[w].status == WorkerLost
    ensures w in Run(s, events).workers && Run(s, events).workers[w].status == WorkerLost
    ensures Run(s, events).workers[w].reserved == {}
    ensures Offer(Run(s, events), w, free, running, now).reply.Refused?
    ensures Register(Run(s, events), w, free, now).reply.Refused?
  {
    var s1 := Run(s, events);
    assert WorkerStep(s.workers[w], s1.workers[w]);
    LostWorkersHoldNothing(s1, w, 0);
  }

  lemma AcceptedOutputsSurvive(s: State, events: seq<Event>, key: SetKey, i: nat)
    requires Inv(s) && Wired(s) && key in s.sets && i < |s.sets[key].tasks|
    requires s.sets[key].tasks[i].state == TaskSucceeded
    ensures key in Run(s, events).sets && i < |Run(s, events).sets[key].tasks|
    ensures Run(s, events).sets[key].tasks[i] == s.sets[key].tasks[i]
  {
    assert SetStep(s.sets[key], Run(s, events).sets[key]);
  }

  // ---------------------------------------------------------------- provenance

  /** A queued or delivered success reports an attempt of its own set, with an
      output that was acceptable for it. */
  ghost predicate FromAttempt(s: State, key: SetKey, r: TaskAttemptSuccess) {
    r.attempt.id in s.attempts &&
    var a := s.attempts[r.attempt.id];
    && a.key == key && a.assignment.identity == r.attempt && a.assignment.task.partitionID == r.partitionID
    && a.assignment.jobID == r.jobID && a.assignment.stageID == r.stageID
    && AcceptableOutput(r.output, a.assignment.runID, r.jobID, a.assignment.task, r.attempt)
  }

  ghost predicate Provenance(s: State) {
    forall key, r :: key in s.sets && r in Log(s.sets[key]) && r.SuccessReport? ==> FromAttempt(s, key, r.success)
  }

  ghost predicate NoNewSuccess(s: State, s1: State) {
    forall key, r :: key in s1.sets && r in Log(s1.sets[key]) && r.SuccessReport? ==>
      key in s.sets && r in Log(s.sets[key])
  }

  lemma ProvenanceKept(s: State, s1: State)
    requires Provenance(s) && Evolves(s, s1) && NoNewSuccess(s, s1)
    ensures Provenance(s1)
  {
    forall key, r | key in s1.sets && r in Log(s1.sets[key]) && r.SuccessReport? ensures FromAttempt(s1, key, r.success) {
      FromAttemptKept(s, s1, key, r.success);
    }
  }

  lemma FromAttemptKept(s: State, s1: State, key: SetKey, r: TaskAttemptSuccess)
    requires FromAttempt(s, key, r) && Evolves(s, s1)
    ensures FromAttempt(s1, key, r)
  {
    assert AttemptStep(s.attempts[r.attempt.id], s1.attempts[r.attempt.id]);
  }

  lemma FailTaskNoNewSuccess(t: FifoTaskSet, i: nat, report: TaskAttemptFailure, max: nat, r: TerminalReport)
    requires i < |t.tasks| && r in Log(FailTask(t, i, report, max)) && r.SuccessReport?
    ensures r in Log(t)
  {
  }

  lemma {:induction false} FailAllNoNewSuccess(s: State, ids: seq<TaskAttemptID>)
    requires Wired(s) && forall id :: id in ids ==> id in s.attempts
    ensures NoNewSuccess(s, FailAll(s, ids))
    decreases |ids|
  {
    if ids != [] {
      var a := s.attempts[ids[0]];
      var report := LossReport(a.assignment);
      var s1 := FailAttempt(s, ids[0], report);
      RetireWired(s, ids[0], TaskFailed, FailTask(s.sets[a.key], a.index, report, s.maxTaskAttempts));
      FailAllNoNewSuccess(s1, ids[1..]);
      forall key, r | key in s1.sets && r in Log(s1.sets[key]) && r.SuccessReport?
        ensures key in s.sets && r in Log(s.sets[key])
      {
        if key == a.key { FailTaskNoNewSuccess(s.sets[a.key], a.index, report, s.maxTaskAttempts, r); }
      }
    }
  }

  lemma {:induction false} LoseWorkersNoNewSuccess(s: State, ids: seq<WorkerID>)
    requires Wired(s) && forall id :: id in ids ==> id in s.workers
    ensures NoNewSuccess(s, LoseWorkers(s, ids))
    decreases |ids|
  {
    if ids != [] {
      var s1 := LoseWorker(s, ids[0]);
      FailAllNoNewSuccess(MarkLost(s, ids[0]), SortedIds(s.workers[ids[0]].reserved));
      LoseWorkersNoNewSuccess(s1, ids[1..]);
    }
  }

  lemma {:induction false} OfferTasksNoNewSuccess(o: OfferState, w: WorkerID, key: SetKey, i: nat)
    requires key in o.state.sets && i <= |o.state.sets[key].tasks| && w in o.state.workers
    ensures NoNewSuccess(o.state, OfferTasks(o, w, key, i).state)
    decreases |o.state.sets[key].tasks| - i
  {
    if i < |o.state.sets[key].tasks| && o.available > 0 {
      if o.state.sets[key].tasks[i].state != TaskPending {
        OfferTasksNoNewSuccess(o, w, key, i + 1);
      } else {
        OfferTasksNoNewSuccess(AssignOne(o, w, key, i), w, key, i + 1);
        assert NoNewSuccess(o.state, AssignOne(o, w, key, i).state);
      }
    }
  }

  lemma {:induction false} OfferSetsNoNewSuccess(o: OfferState, w: WorkerID, keys: seq<SetKey>)
    requires w in o.state.workers && forall key :: key in keys ==> key in o.state.sets
    ensures NoNewSuccess(o.state, OfferSets(o, w, keys).state)
    decreases |keys|
  {
    if keys != [] {
      var t := o.state.sets[keys[0]];
      if !t.terminal && !t.cancelled { OfferTasksNoNewSuccess(o, w, keys[0], 0); }
      OfferSetsNoNewSuccess(OfferSet(o, w, keys[0]), w, keys[1..]);
      assert NoNewSuccess(o.state, OfferSet(o, w, keys[0]).state);
    }
  }

  lemma SucceedLog(t: FifoTaskSet, i: nat, report: TaskAttemptSuccess, r: TerminalReport)
    requires i < |t.tasks| && r in Log(SucceedTask(t, i, report))
    ensures r in Log(t) || r == SuccessReport(report)
  {
  }

  lemma SucceedFromAttempt(s: State, report: TaskAttemptSuccess)
    requires Wired(s) && report.attempt.id in s.attempts && AttemptOK(s, report.attempt.id)
    requires CheckReport(s, report.jobID, report.stageID, report.attempt, report.partitionID, report.workerID) == Live
    requires ReportSuccess(s, report).state != s
    ensures FromAttempt(ReportSuccess(s, report).state, s.attempts[report.attempt.id].key, report)
  {
    hide SucceedTask;
  }

  lemma ProvenanceInto(s: State, s1: State, key: SetKey, t1: FifoTaskSet, report: TaskAttemptSuccess)
    requires Provenance(s) && Evolves(s, s1) && key in s.sets && s1.sets == s.sets[key := t1]
    requires FromAttempt(s1, key, report)
    requires forall r :: r in Log(t1) ==> r in Log(s.sets[key]) || r == SuccessReport(report)
    ensures Provenance(s1)
  {
    hide Evolves, FromAttempt;
    forall k, r | k in s1.sets && r in Log(s1.sets[k]) && r.SuccessReport? ensures FromAttempt(s1, k, r.success) {
      if k != key || r != SuccessReport(report) { FromAttemptKept(s, s1, k, r.success); }
    }
  }

  lemma SucceedProvenance(s: State, report: TaskAttemptSuccess)
    requires Inv(s) && Wired(s) && Provenance(s)
    ensures Provenance(ReportSuccess(s, report).state)
  {
    var s1 := ReportSuccess(s, report).state;
    if s1 != s {
      var a := s.attempts[report.attempt.id];
      assert AttemptOK(s, report.attempt.id);
      SucceedFromAttempt(s, report);
      ReportSuccessInv(s, report);
      hide Inv, SucceedTask, Provenance, Evolves, FromAttempt, AttemptOK, AcceptableOutput;
      forall r | r in Log(SucceedTask(s.sets[a.key], a.index, report))
        ensures r in Log(s.sets[a.key]) || r == SuccessReport(report)
      {
        SucceedLog(s.sets[a.key], a.index, report, r);
      }
      ProvenanceInto(s, s1, a.key, SucceedTask(s.sets[a.key], a.index, report), report);
    }
  }

  lemma OfferNoNewSuccess(s: State, id: WorkerID, free: int, running: seq<TaskAttemptID>, now: int)
    requires Wired(s)
    ensures NoNewSuccess(s, Offer(s, id, free, running, now).state)
  {
    if Offer(s, id, free, running, now).reply.Granted? {
      OfferSetsNoNewSuccess(
        OfferState(Heartbeat(s, id, free, running, now), [], Available(s.workers[id], free, running)), id, s.queue);
    }
  }

  lemma FailureNoNewSuccess(s: State, report: TaskAttemptFailure)
    requires Wired(s)
    ensures NoNewSuccess(s, ReportFailure(s, report).state)
  {
    hide FailTask;
    var s1 := ReportFailure(s, report).state;
    if s1 != s {
      var a := s.attempts[report.attempt.id];
      forall key, r | key in s1.sets && r in Log(s1.sets[key]) && r.SuccessReport?
        ensures key in s.sets && r in Log(s.sets[key])
      {
        if key == a.key { FailTaskNoNewSuccess(s.sets[a.key], a.index, report, s.maxTaskAttempts, r); }
      }
    }
  }

  lemma ExpireNoNewSuccess(s: State, now: int, timeout: int)
    requires Wired(s)
    ensures NoNewSuccess(s, Expire(s, now, timeout).state)
  {
    if timeout > 0 && !s.closed { LoseWorkersNoNewSuccess(s, SortedKeys(ExpiredIds(s, now, timeout))); }
  }

  lemma OtherStepsNoNewSuccess(s: State, e: Event)
    requires Wired(s) && !e.SuccessEvent?
    ensures NoNewSuccess(s, Step(s, e))
  {
    match e {
      case OfferEvent(id, free, running, now) =>
        OfferNoNewSuccess(s, id, free, running, now);
      case FailureEvent(report) =>
        FailureNoNewSuccess(s, report);
      case ExpireEvent(now, timeout) =>
        ExpireNoNewSuccess(s, now, timeout);
      case _ =>
    }
  }

  /** Every success ever queued or delivered came from an attempt the scheduler
      assigned for that very set. */
  lemma StepProvenance(s: State, e: Event)
    requires Inv(s) && Wired(s) && Provenance(s)
    ensures Provenance(Step(s, e))
  {
    if e.SuccessEvent? {
      SucceedProvenance(s, e.success);
    } else {
      hide Inv, Wired, Step, Provenance, Evolves, NoNewSuccess;
      StepInv(s, e);
      OtherStepsNoNewSuccess(s, e);
      ProvenanceKept(s, Step(s, e));
    }
  }
}
