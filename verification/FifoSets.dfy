/** What every task set keeps, whatever happens to it: the count of unfinished
    tasks, the retry budget, and the history of its reports. */
module FifoSets {
  import opened Types
  import opened Fifo

  function Log(t: FifoTaskSet): seq<TerminalReport> { t.delivered + t.reports }

  function Unsucceeded(tasks: seq<LogicalTask>): nat {
    if tasks == [] then 0
    else Unsucceeded(tasks[..|tasks| - 1]) + if tasks[|tasks| - 1].state == TaskSucceeded then 0 else 1
  }

  predicate IsSuccessOf(r: TerminalReport, p: PartitionID) {
    r.SuccessReport? && r.success.partitionID == p
  }

  predicate IsFinalFailure(r: TerminalReport) {
    r.FailureReport? && !r.requeued
  }

  function Successes(log: seq<TerminalReport>, p: PartitionID): nat {
    if log == [] then 0
    else Successes(log[..|log| - 1], p) + if IsSuccessOf(log[|log| - 1], p) then 1 else 0
  }

  function FinalFailures(log: seq<TerminalReport>): nat {
    if log == [] then 0
    else FinalFailures(log[..|log| - 1]) + if IsFinalFailure(log[|log| - 1]) then 1 else 0
  }

  /** Distinct partitions in ascending order, distinct task IDs, attempts within the budget. */
  predicate TasksOK(t: FifoTaskSet, max: nat) {
    && (forall i, j :: 0 <= i < j < |t.tasks| ==>
          t.tasks[i].task.partitionID < t.tasks[j].task.partitionID && t.tasks[i].task.id != t.tasks[j].task.id)
    && (forall i :: 0 <= i < |t.tasks| ==>
          t.tasks[i].attempts <= max && (t.tasks[i].state == TaskPending ==> t.tasks[i].attempts < max))
  }

  /** Until a set is terminal `remaining` is the positive number of tasks not yet
      succeeded and no task has failed for good. A terminal set's late successes
      change task states but not the count. */
  predicate CountOK(t: FifoTaskSet) {
    !t.terminal ==>
      && t.remaining == Unsucceeded(t.tasks) > 0
      && forall i :: 0 <= i < |t.tasks| ==> t.tasks[i].state != TaskFailed
  }

  /** At most one success per task, exactly one for each task of a set that ended
      without error, and at most one failure that was not requeued. */
  predicate LogOK(t: FifoTaskSet) {
    && (forall i :: 0 <= i < |t.tasks| ==> SuccessOK(t, t.tasks[i]))
    && (forall r :: r in Log(t) && r.SuccessReport? ==>
          exists i :: 0 <= i < |t.tasks| && t.tasks[i].task.partitionID == r.success.partitionID)
    && FinalFailures(Log(t)) <= 1
    && (FinalFailures(Log(t)) == 1 ==> t.terminal && t.err == ErrTask)
    && (t.returned ==> t.terminal && t.reports == [])
  }

  predicate SuccessOK(t: FifoTaskSet, task: LogicalTask) {
    var n := Successes(Log(t), task.task.partitionID);
    && n <= 1
    && (n == 1 ==> task.state == TaskSucceeded)
    && (!t.terminal && task.state == TaskSucceeded ==> n == 1)
    && (t.terminal && t.err == NoError ==> n == 1)
  }

  predicate SetInv(t: FifoTaskSet, max: nat) {
    TasksOK(t, max) && CountOK(t) && LogOK(t)
  }

  // ---------------------------------------------------------------- counting

  lemma {:induction false} UnsucceededUpdate(tasks: seq<LogicalTask>, i: nat, t: LogicalTask)
    requires i < |tasks|
    ensures Unsucceeded(tasks[i := t]) + (if tasks[i].state == TaskSucceeded then 0 else 1)
         == Unsucceeded(tasks) + (if t.state == TaskSucceeded then 0 else 1)
  {
    var k := |tasks| - 1;
    if i < k {
      assert tasks[i := t][..k] == tasks[..k][i := t];
      UnsucceededUpdate(tasks[..k], i, t);
    } else {
      assert tasks[i := t][..k] == tasks[..k];
    }
  }

  lemma {:induction false} UnsucceededNone(tasks: seq<LogicalTask>, i: nat)
    requires i < |tasks| && Unsucceeded(tasks) == 0
    ensures tasks[i].state == TaskSucceeded
  {
    if i < |tasks| - 1 { UnsucceededNone(tasks[..|tasks| - 1], i); }
  }

  lemma {:induction false} UnsucceededAll(tasks: seq<LogicalTask>)
    requires forall i :: 0 <= i < |tasks| ==> tasks[i].state != TaskSucceeded
    ensures Unsucceeded(tasks) == |tasks|
  {
    if tasks != [] { UnsucceededAll(tasks[..|tasks| - 1]); }
  }

  lemma LogAppend(log: seq<TerminalReport>, r: TerminalReport, p: PartitionID)
    ensures Successes(log + [r], p) == Successes(log, p) + if IsSuccessOf(r, p) then 1 else 0
    ensures FinalFailures(log + [r]) == FinalFailures(log) + if IsFinalFailure(r) then 1 else 0
  {
    assert (log + [r])[..|log|] == log;
  }

  // ---------------------------------------------------------------- what each change keeps

  lemma FinishKeeps(t: FifoTaskSet, err: SetError, max: nat)
    requires SetInv(t, max) && err != NoError
    ensures SetInv(FinishSet(t, err), max)
  {
    var t1 := FinishSet(t, err);
    assert forall i :: 0 <= i < |t.tasks| ==> SuccessOK(t, t.tasks[i]);
  }

  lemma DrainKeeps(t: FifoTaskSet, max: nat)
    requires SetInv(t, max)
    ensures SetInv(DrainSet(t), max)
    ensures Log(DrainSet(t)) == Log(t)
  {
    var t0 := if t.cancelled then FinishSet(t, ErrContext) else t;
    FinishKeeps(t, ErrContext, max);
    var t1 := DrainSet(t);
    assert Log(t1) == Log(t0);
    forall i | 0 <= i < |t1.tasks| ensures SuccessOK(t1, t1.tasks[i]) { assert SuccessOK(t0, t0.tasks[i]); }
  }

  lemma CancelKeeps(t: FifoTaskSet, max: nat)
    requires SetInv(t, max)
    ensures SetInv(t.(cancelled := true), max)
  {
    var t1 := t.(cancelled := true);
    assert Log(t1) == Log(t);
    forall i | 0 <= i < |t1.tasks| ensures SuccessOK(t1, t1.tasks[i]) { assert SuccessOK(t, t.tasks[i]); }
  }

  /** Changing a task to a state other than succeeded, from one other than succeeded. */
  lemma SetTaskKeeps(t: FifoTaskSet, i: nat, task: LogicalTask, max: nat)
    requires SetInv(t, max) && i < |t.tasks|
    requires task.task == t.tasks[i].task && task.attempts <= max && (task.state == TaskPending ==> task.attempts < max)
    requires t.tasks[i].state != TaskSucceeded
    requires t.terminal || (task.state != TaskFailed && task.state != TaskSucceeded)
    ensures SetInv(SetTask(t, i, task), max)
  {
    var t1 := SetTask(t, i, task);
    UnsucceededUpdate(t.tasks, i, task);
    assert Log(t1) == Log(t);
    forall j | 0 <= j < |t1.tasks| ensures SuccessOK(t1, t1.tasks[j]) {
      assert SuccessOK(t, t.tasks[j]);
    }
    forall r | r in Log(t1) && r.SuccessReport?
      ensures exists j :: 0 <= j < |t1.tasks| && t1.tasks[j].task.partitionID == r.success.partitionID
    {
      var j :| 0 <= j < |t.tasks| && t.tasks[j].task.partitionID == r.success.partitionID;
      assert t1.tasks[j].task.partitionID == r.success.partitionID;
    }
  }

  lemma AssignKeeps(t: FifoTaskSet, i: nat, id: TaskAttemptID, max: nat)
    requires SetInv(t, max) && i < |t.tasks| && t.tasks[i].state == TaskPending
    ensures SetInv(AssignTask(t, i, id), max)
  {
    SetTaskKeeps(t, i, t.tasks[i].(state := TaskRunning, active := id, attempts := t.tasks[i].attempts + 1), max);
  }

  /** Adding an entry that is not a success leaves the success counts alone. */
  lemma AppendFailure(t: FifoTaskSet, entry: TerminalReport, t1: FifoTaskSet, max: nat)
    requires SetInv(t, max) && entry.FailureReport? && !t.terminal
    requires t1 == t.(reports := t.reports + [entry]) || t1 == t.(reports := t.reports + [entry], terminal := true, err := ErrTask)
    requires IsFinalFailure(entry) ==> t1.terminal
    ensures SetInv(t1, max)
  {
    assert Log(t1) == Log(t) + [entry];
    LogAppend(Log(t), entry, 0);
    AppendFailureLog(t, entry, t1);
  }

  lemma AppendFailureLog(t: FifoTaskSet, entry: TerminalReport, t1: FifoTaskSet)
    requires LogOK(t) && entry.FailureReport? && !t.terminal && Log(t1) == Log(t) + [entry]
    requires t1.tasks == t.tasks && t1.returned == t.returned && (t1.terminal ==> t1.err == ErrTask)
    requires IsFinalFailure(entry) ==> t1.terminal
    ensures LogOK(t1)
  {
    LogAppend(Log(t), entry, 0);
    forall j | 0 <= j < |t1.tasks| ensures SuccessOK(t1, t1.tasks[j]) {
      assert SuccessOK(t, t.tasks[j]);
      LogAppend(Log(t), entry, t.tasks[j].task.partitionID);
    }
  }

  lemma FailKeeps(t: FifoTaskSet, i: nat, report: TaskAttemptFailure, max: nat)
    requires SetInv(t, max) && i < |t.tasks| && t.tasks[i].state == TaskRunning
    ensures SetInv(FailTask(t, i, report, max), max)
  {
    if t.terminal || t.cancelled {
      FinishKeeps(t, ErrContext, max);
      SetTaskKeeps(FinishSet(t, ErrContext), i, t.tasks[i].(state := TaskFailed), max);
    } else if Retryable(report.kind) && t.tasks[i].attempts < max {
      RequeueKeeps(t, i, report, max);
    } else {
      GiveUpKeeps(t, i, report, max);
    }
  }

  lemma RequeueKeeps(t: FifoTaskSet, i: nat, report: TaskAttemptFailure, max: nat)
    requires SetInv(t, max) && i < |t.tasks| && t.tasks[i].state == TaskRunning && !t.terminal && !t.cancelled
    requires Retryable(report.kind) && t.tasks[i].attempts < max
    ensures SetInv(FailTask(t, i, report, max), max)
  {
    var entry := FailureReport(report, true, false, t.tasks[i].attempts);
    SetTaskKeeps(t, i, t.tasks[i].(state := TaskPending), max);
    var t1 := SetTask(t, i, t.tasks[i].(state := TaskPending));
    AppendFailure(t1, entry, t1.(reports := t1.reports + [entry]), max);
    assert FailTask(t, i, report, max) == t1.(reports := t1.reports + [entry]);
  }

  lemma GiveUpKeeps(t: FifoTaskSet, i: nat, report: TaskAttemptFailure, max: nat)
    requires SetInv(t, max) && i < |t.tasks| && t.tasks[i].state == TaskRunning && !t.terminal && !t.cancelled
    requires !(Retryable(report.kind) && t.tasks[i].attempts < max)
    ensures SetInv(FailTask(t, i, report, max), max)
  {
    var entry := FailureReport(report, false, Retryable(report.kind), t.tasks[i].attempts);
    var t1 := t.(reports := t.reports + [entry], terminal := true, err := ErrTask);
    AppendFailure(t, entry, t1, max);
    SetTaskKeeps(t1, i, t.tasks[i].(state := TaskFailed), max);
    assert FailTask(t, i, report, max) == SetTask(t1, i, t.tasks[i].(state := TaskFailed));
  }

  lemma SucceedKeeps(t: FifoTaskSet, i: nat, report: TaskAttemptSuccess, max: nat)
    requires SetInv(t, max) && i < |t.tasks| && t.tasks[i].state == TaskRunning
    requires report.partitionID == t.tasks[i].task.partitionID
    ensures SetInv(SucceedTask(t, i, report), max)
  {
    var task := t.tasks[i];
    if t.terminal || t.cancelled {
      FinishKeeps(t, ErrContext, max);
      SetTaskKeeps(FinishSet(t, ErrContext), i, task.(state := TaskSucceeded), max);
    } else {
      SucceedLive(t, i, report, max);
    }
  }

  lemma SucceedLive(t: FifoTaskSet, i: nat, report: TaskAttemptSuccess, max: nat)
    requires SetInv(t, max) && i < |t.tasks| && t.tasks[i].state == TaskRunning && !t.terminal && !t.cancelled
    requires report.partitionID == t.tasks[i].task.partitionID
    ensures SetInv(SucceedTask(t, i, report), max)
  {
    var task1 := t.tasks[i].(state := TaskSucceeded, output := Some(report.output));
    var t1 := SucceedTask(t, i, report);
    assert t1.tasks == t.tasks[i := task1];
    assert Log(t1) == Log(t) + [SuccessReport(report)];
    SucceedInto(t, t1, i, report, task1, max);
  }

  lemma SucceedInto(t: FifoTaskSet, t1: FifoTaskSet, i: nat, report: TaskAttemptSuccess, task1: LogicalTask, max: nat)
    requires SetInv(t, max) && i < |t.tasks| && t.tasks[i].state == TaskRunning && !t.terminal
    requires report.partitionID == t.tasks[i].task.partitionID
    requires task1 == t.tasks[i].(state := TaskSucceeded, output := Some(report.output))
    requires t1.tasks == t.tasks[i := task1] && t1.remaining == t.remaining - 1
    requires Log(t1) == Log(t) + [SuccessReport(report)] && t1.returned == t.returned
    requires t1.terminal <==> t1.remaining == 0
    ensures SetInv(t1, max)
  {
    UnsucceededUpdate(t.tasks, i, task1);
    SucceedLog(t, t1, i, report, max);
  }

  lemma SucceedCounts(t: FifoTaskSet, t1: FifoTaskSet, i: nat, report: TaskAttemptSuccess, j: nat, max: nat)
    requires SetInv(t, max) && i < |t.tasks| && report.partitionID == t.tasks[i].task.partitionID && !t.terminal
    requires t.tasks[i].state == TaskRunning && |t1.tasks| == |t.tasks|
    requires forall k :: 0 <= k < |t.tasks| ==> t1.tasks[k].task == t.tasks[k].task
    requires t1.tasks[i].state == TaskSucceeded && forall k :: 0 <= k < |t.tasks| && k != i ==> t1.tasks[k] == t.tasks[k]
    requires Log(t1) == Log(t) + [SuccessReport(report)]
    requires t1.terminal ==> Unsucceeded(t1.tasks) == 0
    requires j < |t.tasks|
    ensures SuccessOK(t1, t1.tasks[j])
  {
    assert SuccessOK(t, t.tasks[j]) && SuccessOK(t, t.tasks[i]);
    LogAppend(Log(t), SuccessReport(report), t.tasks[j].task.partitionID);
    if t1.terminal { UnsucceededNone(t1.tasks, j); }
  }

  lemma SucceedLog(t: FifoTaskSet, t1: FifoTaskSet, i: nat, report: TaskAttemptSuccess, max: nat)
    requires LogOK(t) && i < |t.tasks| && report.partitionID == t.tasks[i].task.partitionID && !t.terminal
    requires |t1.tasks| == |t.tasks| && forall j :: 0 <= j < |t.tasks| ==> t1.tasks[j].task == t.tasks[j].task
    requires Log(t1) == Log(t) + [SuccessReport(report)]
    requires t.tasks[i].state == TaskRunning && t1.tasks[i].state == TaskSucceeded && SetInv(t, max)
    requires forall k :: 0 <= k < |t.tasks| && k != i ==> t1.tasks[k] == t.tasks[k]
    requires t1.terminal ==> Unsucceeded(t1.tasks) == 0
    requires t1.returned == t.returned
    ensures LogOK(t1)
  {
    forall j | 0 <= j < |t1.tasks| ensures SuccessOK(t1, t1.tasks[j]) { SucceedCounts(t, t1, i, report, j, max); }
    LogAppend(Log(t), SuccessReport(report), 0);
    forall r | r in Log(t1) && r.SuccessReport?
      ensures exists j :: 0 <= j < |t1.tasks| && t1.tasks[j].task.partitionID == r.success.partitionID
    {
      if r in Log(t) {
        var j :| 0 <= j < |t.tasks| && t.tasks[j].task.partitionID == r.success.partitionID;
        assert t1.tasks[j].task.partitionID == r.success.partitionID;
      } else {
        assert t1.tasks[i].task.partitionID == r.success.partitionID;
      }
    }
  }

  // ---------------------------------------------------------------- new sets

  predicate Ascending(s: seq<Task>) {
    forall i, j :: 0 <= i < j < |s| ==> s[i].partitionID < s[j].partitionID
  }

  lemma {:induction false} InsertTaskSorts(t: Task, s: seq<Task>)
    requires Ascending(s) && forall i :: 0 <= i < |s| ==> s[i].partitionID != t.partitionID
    ensures Ascending(InsertTask(t, s))
    ensures forall x :: x in InsertTask(t, s) <==> x == t || x in s
  {
    if s != [] && t.partitionID > s[0].partitionID {
      InsertTaskSorts(t, s[1..]);
      var r := InsertTask(t, s[1..]);
      assert forall x :: x in s <==> x == s[0] || x in s[1..];
      forall i | 0 <= i < |r| ensures s[0].partitionID < r[i].partitionID { assert r[i] in r; }
    }
  }

  lemma {:induction false} InsertTaskPermutes(t: Task, s: seq<Task>)
    ensures multiset(InsertTask(t, s)) == multiset(s) + multiset{t}
  {
    if s != [] {
      assert s == [s[0]] + s[1..];
      InsertTaskPermutes(t, s[1..]);
    }
  }

  lemma {:induction false} SortTasksPermutes(tasks: seq<Task>)
    ensures multiset(SortTasks(tasks)) == multiset(tasks)
  {
    if tasks != [] {
      assert tasks == [tasks[0]] + tasks[1..];
      SortTasksPermutes(tasks[1..]);
      InsertTaskPermutes(tasks[0], SortTasks(tasks[1..]));
    }
  }

  /** Sorting keeps exactly the submitted tasks, in ascending partition order. */
  lemma {:induction false} SortTasksSorts(tasks: seq<Task>)
    requires forall i, j :: 0 <= i < j < |tasks| ==> tasks[i].partitionID != tasks[j].partitionID
    ensures Ascending(SortTasks(tasks))
    ensures forall x :: x in SortTasks(tasks) <==> x in tasks
    ensures multiset(SortTasks(tasks)) == multiset(tasks)
  {
    SortTasksPermutes(tasks);
    if tasks != [] {
      SortTasksSorts(tasks[1..]);
      var rest := SortTasks(tasks[1..]);
      forall i | 0 <= i < |rest| ensures rest[i].partitionID != tasks[0].partitionID { assert rest[i] in rest; }
      InsertTaskSorts(tasks[0], rest);
    }
  }

  lemma NewSetKeeps(input: TaskSet, sequence: nat, max: nat)
    requires ValidTaskSet(input) && max > 0
    ensures SetInv(NewSet(input, sequence), max)
  {
    var sorted := SortTasks(input.tasks);
    var t := NewSet(input, sequence);
    SortTasksSorts(input.tasks);
    assert |sorted| == |multiset(sorted)| == |input.tasks|;
    forall i, j | 0 <= i < j < |sorted| ensures sorted[i].id != sorted[j].id {
      assert sorted[i] in sorted && sorted[j] in sorted;
      var a :| 0 <= a < |input.tasks| && input.tasks[a] == sorted[i];
      var b :| 0 <= b < |input.tasks| && input.tasks[b] == sorted[j];
      assert a != b;
      if a < b { assert input.tasks[a].id != input.tasks[b].id; } else { assert input.tasks[b].id != input.tasks[a].id; }
    }
    UnsucceededAll(t.tasks);
    assert Log(t) == [];
  }

  // ---------------------------------------------------------------- consequences

  /** ScheduleTaskSet returns without error only after exactly one success of
      every task, and of nothing else, was delivered. */
  lemma NilReturnDeliveredAll(t: FifoTaskSet, max: nat, p: PartitionID)
    requires SetInv(t, max) && t.returned && t.err == NoError
    ensures Successes(t.delivered, p) == if exists i :: 0 <= i < |t.tasks| && t.tasks[i].task.partitionID == p then 1 else 0
    ensures FinalFailures(t.delivered) == 0
  {
    assert Log(t) == t.delivered;
    if i :| 0 <= i < |t.tasks| && t.tasks[i].task.partitionID == p {
      assert SuccessOK(t, t.tasks[i]);
    } else {
      NoSuccesses(t.delivered, p);
    }
  }

  lemma {:induction false} NoSuccesses(log: seq<TerminalReport>, p: PartitionID)
    requires forall r :: r in log && r.SuccessReport? ==> r.success.partitionID != p
    ensures Successes(log, p) == 0
  {
    if log != [] {
      assert log[|log| - 1] in log;
      NoSuccesses(log[..|log| - 1], p);
    }
  }

  /** The steps that may reach a task set. */
  predicate Frozen(t: FifoTaskSet, t1: FifoTaskSet) {
    t.terminal ==> t1.terminal && t1.err == t.err && Log(t1) == Log(t) && t1.remaining == t.remaining
  }

  /** Once terminal a set takes no more reports and never changes its outcome. */
  lemma TerminalSetsAreFrozen(t: FifoTaskSet, i: nat, id: TaskAttemptID, s: TaskAttemptSuccess, f: TaskAttemptFailure,
                              max: nat, err: SetError)
    requires i < |t.tasks|
    ensures Frozen(t, AssignTask(t, i, id)) && Frozen(t, SucceedTask(t, i, s)) && Frozen(t, FailTask(t, i, f, max))
    ensures Frozen(t, FinishSet(t, err)) && Frozen(t, DrainSet(t)) && Frozen(t, t.(cancelled := true))
  {
    assert t.terminal ==> DrainSet(t).delivered + [] == t.delivered + t.reports;
  }
}
