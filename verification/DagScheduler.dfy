/** The DAG scheduler as an object (scheduler/dag_scheduler.go, dag_recovery.go,
    dag_stage_execution.go). Its event handlers change the fields step by step and
    are proved to reach the state that module Dag prescribes. */
module DagScheduler {
  import opened Types
  import opened Lineage
  import opened Planner
  import opened Dag
  import opened DagInvariant
  import opened DagSteps

  class DAGScheduler {
    const maxStageAttempts: nat
    const functions: FunctionNames
    var jobs: map<JobID, JobState>
    var nextStageAttemptID: StageAttemptID
    var stopping: bool
    /** What the response channels, the task scheduler and the stage contexts got to see. */
    var responses: map<JobID, seq<Answer>>
    var launched: seq<TaskSet>
    var retired: set<StageAttemptID>

    ghost function Abs(): Dag.State
      reads this
    {
      State(maxStageAttempts, functions, jobs, nextStageAttemptID, stopping, responses, launched, retired)
    }

    ghost predicate Valid()
      reads this
    {
      Inv(Abs()) && Ordered(Abs())
    }

    constructor (maxStageAttempts: nat, functions: FunctionNames)
      requires maxStageAttempts > 0
      ensures Valid() && Abs() == Initial(maxStageAttempts, functions)
    {
      this.maxStageAttempts, this.functions := maxStageAttempts, functions;
      jobs, nextStageAttemptID, stopping, responses, launched, retired := map[], 0, false, map[], [], {};
      new;
      InitialInv(maxStageAttempts, functions);
    }

    // -------------------------------------------------------------- answering

    method Send(id: JobID, answer: Answer)
      modifies this`responses
      ensures Abs() == Respond(old(Abs()), id, answer)
    {
      var sent := if id in responses then responses[id] else [];
      responses := responses[id := sent + [answer]];
    }

    method Fail(id: JobID, error: DagError)
      modifies this`responses, this`jobs
      ensures Abs() == FailJob(old(Abs()), id, error)
    {
      if id !in jobs { return; }
      Send(id, Failed(error));
      jobs := jobs - {id};
    }

    // -------------------------------------------------------------- starting stages

    method StageIsReady(job: JobState, stage: Stage) returns (ready: bool)
      ensures ready == Ready(job, stage)
    {
      var i := 0;
      ready := true;
      while i < |stage.parentIDs|
        invariant 0 <= i <= |stage.parentIDs|
        invariant ready <==> forall k :: 0 <= k < i ==>
          stage.parentIDs[k] in job.stages && job.stages[stage.parentIDs[k]].status == StageSucceeded
      {
        var parent := stage.parentIDs[i];
        if parent !in job.stages || job.stages[parent].status != StageSucceeded { ready := false; }
        i := i + 1;
      }
    }

    /** Copies the accepted outputs of a finished parent, partition by partition. */
    method BuildInputs(job: JobState, id: JobID, stage: Stage) returns (inputs: InputSnapshot)
      requires stage.parentIDs != [] && Ready(job, stage)
      ensures Some(inputs) == StageInputs(job, id, stage)
    {
      var parent := job.stages[stage.parentIDs[0]];
      var outputs: seq<MapOutput> := [];
      var p := 0;
      while p < |parent.tasks|
        invariant 0 <= p <= |parent.tasks| && outputs == AcceptedOutputs(parent)[..p]
      {
        outputs := outputs + [AcceptedOutput(parent, p)];
        p := p + 1;
      }
      assert AcceptedOutputs(parent)[..p] == AcceptedOutputs(parent);
      var shuffleID := if parent.stage.shuffleWrite.Some? then parent.stage.shuffleWrite.value.shuffleID else 0;
      inputs := InputSnapshot(job.runID, id, shuffleID, parent.stage.id, parent.attemptID, |parent.tasks|,
                              stage.numPartitions, outputs);
    }

    /** Launches every waiting stage whose parents are done; any error ends the walk. */
    method StartReadyStages(id: JobID) returns (error: Option<DagError>)
      requires id in jobs && forall k :: k in jobs[id].order ==> k in jobs[id].stages
      modifies this`jobs, this`nextStageAttemptID, this`launched
      ensures var l := LaunchReady(old(Abs()), id);
              && error == l.error
              && Abs() == old(Abs()).(jobs := old(jobs)[id := l.job], nextStageAttemptID := l.next,
                                      launched := old(launched) + l.sets)
    {
      hide StartStage, Ready;
      assert jobs == jobs[id := jobs[id]] && launched == launched + [];
      if jobs[id].cancelled { return Some(ErrContext); }
      ghost var first := Launch(jobs[id], nextStageAttemptID, [], None);
      ghost var sets: seq<TaskSet> := [];
      var order := jobs[id].order;
      var i := 0;
      error := None;
      while i < |order| && error.None?
        invariant 0 <= i <= |order| && id in jobs && jobs == old(jobs)[id := jobs[id]]
        invariant launched == old(launched) + sets
        invariant jobs[id].stages.Keys == old(jobs)[id].stages.Keys
        invariant StartStages(Launch(jobs[id], nextStageAttemptID, sets, error), id, maxStageAttempts, order[i..])
                  == StartStages(first, id, maxStageAttempts, order)
        decreases |order| - i
      {
        assert order[i] in order && order[i..] == [order[i]] + order[i + 1..];
        ghost var l := Launch(jobs[id], nextStageAttemptID, sets, None);
        error := StartOne(id, order[i]);
        sets := StartStage(l, id, maxStageAttempts, order[i]).sets;
        assert launched == old(launched) + sets;
        i := i + 1;
      }
    }

    method StartOne(id: JobID, k: StageID) returns (error: Option<DagError>)
      requires id in jobs && k in jobs[id].stages
      modifies this`jobs, this`nextStageAttemptID, this`launched
      ensures id in jobs && jobs == old(jobs)[id := jobs[id]]
      ensures forall sets: seq<TaskSet> ::
        var l := StartStage(Launch(old(jobs)[id], old(nextStageAttemptID), sets, None), id, maxStageAttempts, k);
        l == Launch(jobs[id], nextStageAttemptID, l.sets, error)
        && launched == old(launched) + l.sets[|sets|..] && |sets| <= |l.sets| && l.sets[..|sets|] == sets
    {
      var job := jobs[id];
      var stage := job.stages[k];
      error := None;
      if stage.status != StagePending { return; }
      var ready := StageIsReady(job, stage.stage);
      if !ready { return; }
      if stage.attempts >= maxStageAttempts { return Some(ErrStageExhausted); }
      var inputs: Option<InputSnapshot> := None;
      if stage.stage.parentIDs != [] {
        var snapshot := BuildInputs(job, id, stage.stage);
        if !ValidSnapshot(snapshot) { return Some(ErrInputs); }
        inputs := Some(snapshot);
      }
      var set0 := TaskSet(inputs, id, k, nextStageAttemptID, stage.tasks);
      nextStageAttemptID := nextStageAttemptID + 1;
      var started := stage.(attemptID := set0.stageAttemptID, status := StageRunning, attempts := stage.attempts + 1);
      jobs := jobs[id := job.(stages := job.stages[k := started])];
      launched := launched + [set0];
    }

    method StartOrFail(id: JobID)
      requires id in jobs && forall k :: k in jobs[id].order ==> k in jobs[id].stages
      modifies this
      ensures Abs() == StartReady(old(Abs()), id)
    {
      var error := StartReadyStages(id);
      if error.Some? { Fail(id, error.value); }
    }

    // -------------------------------------------------------------- submission

    method HandleJobSubmitted(id: JobID, graph: RDDGraph, action: ActionSpec, cancelled: bool)
      requires Valid() && graph.Valid() && id !in jobs && id !in responses
      modifies this
      ensures Valid()
      ensures Abs() == SubmitJob(old(Abs()), id, graph.nodes, action, cancelled)
    {
      SubmitInv(Abs(), id, graph.nodes, action, cancelled);
      InvOrdered(SubmitJob(Abs(), id, graph.nodes, action, cancelled));
      hide *;
      AddJob(id, graph, action, cancelled);
    }

    method AddJob(id: JobID, graph: RDDGraph, action: ActionSpec, cancelled: bool)
      requires graph.Valid()
      modifies this
      ensures Abs() == SubmitJob(old(Abs()), id, graph.nodes, action, cancelled)
    {
      hide Planned, StartReady, NewJob, Executable;
      if stopping {
        Send(id, Failed(ErrStopped));
        return;
      }
      var p := Plan(functions, graph, action);
      if p.None? || !Executable(p.value) {
        Send(id, Failed(ErrPlan));
        return;
      }
      var tasks := GenerateTasks(p.value.stages);
      if tasks.None? {
        Send(id, Failed(ErrPlan));
        return;
      }
      TasksBelong(p.value.stages);
      var job := BuildJob(action, p.value, tasks.value, cancelled);
      assert forall k :: k in job.order ==> k in job.stages by { NewJobOrdered(action, p.value, tasks.value, cancelled); }
      jobs := jobs[id := job];
      StartOrFail(id);
    }

    // -------------------------------------------------------------- reports

    method FindPendingTask(id: JobID, k: StageID, attempt: TaskAttemptIdentity, p: PartitionID) returns (pending: bool)
      ensures pending == PendingTask(Abs(), id, k, attempt, p)
    {
      if id !in jobs || k !in jobs[id].stages { return false; }
      var stage := jobs[id].stages[k];
      if stage.status != StageRunning || attempt.stageAttemptID != stage.attemptID || p < 0 || p >= |stage.tasks| { return false; }
      if stage.tasks[p].id != attempt.taskID { return false; }
      pending := p !in stage.outputs;
    }

    method HandleTaskSucceeded(report: TaskAttemptSuccess)
      requires Valid()
      modifies this
      ensures Valid()
      ensures Abs() == TaskSucceeded(old(Abs()), report)
    {
      TaskSucceededInv(Abs(), report);
      InvOrdered(TaskSucceeded(Abs(), report));
      assert Ordered(Abs());
      hide *;
      AcceptOrFail(report);
    }

    method AcceptOrFail(report: TaskAttemptSuccess)
      requires Ordered(Abs())
      modifies this
      ensures Abs() == TaskSucceeded(old(Abs()), report)
    {
      hide AcceptableOutput, StartReady, MergeOutputs;
      var id, k, p := report.jobID, report.stageID, report.partitionID;
      var pending := FindPendingTask(id, k, report.attempt, p);
      if !pending { return; }
      var job := jobs[id];
      var stage := job.stages[k];
      if job.cancelled {
        Fail(id, ErrContext);
        return;
      }
      var runID := job.runID;
      if runID == "" && report.output.shuffleOutput.Some? { runID := report.output.shuffleOutput.value.attempt.runID; }
      if !AcceptableOutput(report.output, runID, id, stage.tasks[p], report.attempt) {
        Fail(id, ErrOutput);
        return;
      }
      if stage.stage.kind == StageShuffleMap { job := job.(runID := runID); }
      stage := stage.(outputs := stage.outputs[p := report.output], remaining := stage.remaining - 1);
      if stage.remaining != 0 {
        jobs := jobs[id := job.(stages := job.stages[k := stage])];
        return;
      }
      stage := stage.(status := StageSucceeded);
      jobs := jobs[id := job.(stages := job.stages[k := stage])];
      if k != job.resultStageID {
        StartOrFail(id);
        return;
      }
      var result := MergeTaskOutputs(job.action.kind, stage.outputs);
      Send(id, Completed(result));
      jobs := jobs - {id};
    }

    method HandleTaskFailed(report: TaskAttemptFailure)
      requires Valid()
      modifies this
      ensures Valid()
      ensures Abs() == TaskFailed(old(Abs()), report)
    {
      TaskFailedInv(Abs(), report);
      InvOrdered(TaskFailed(Abs(), report));
      assert Ordered(Abs());
      hide *;
      RecoverOrFail(report);
    }

    method RecoverOrFail(report: TaskAttemptFailure)
      requires Ordered(Abs())
      modifies this
      ensures Abs() == TaskFailed(old(Abs()), report)
    {
      hide StartReady;
      var id, k := report.jobID, report.stageID;
      var pending := FindPendingTask(id, k, report.attempt, report.partitionID);
      if !pending { return; }
      if jobs[id].cancelled {
        Fail(id, ErrContext);
        return;
      }
      if report.kind != FailureShuffleInput {
        Fail(id, ErrTaskFailed);
        return;
      }
      var child := jobs[id].stages[k];
      if child.stage.kind != StageResult || |child.stage.parentIDs| != 1 {
        Fail(id, ErrNotRecoverable);
        return;
      }
      var j := child.stage.parentIDs[0];
      if j !in jobs[id].stages || jobs[id].stages[j].stage.kind != StageShuffleMap || jobs[id].stages[j].status != StageSucceeded {
        Fail(id, ErrNotRecoverable);
        return;
      }
      var parent := jobs[id].stages[j];
      if !ValidFailure(report.kind, report.shuffleInput) || report.shuffleInput.None?
         || !NamesAccepted(parent, report.shuffleInput.value, report.partitionID) {
        Fail(id, ErrNotRecoverable);
        return;
      }
      if parent.attempts >= maxStageAttempts || child.attempts >= maxStageAttempts {
        Fail(id, ErrRecoveryExhausted);
        return;
      }
      Reset(id, j);
      Reset(id, k);
      assert retired == ResetPair(old(Abs()), id, j, k).retired;
      assert jobs == ResetPair(old(Abs()), id, j, k).jobs;
      StartOrFail(id);
    }

    /** Cancels a stage's attempt and forgets its progress. */
    method Reset(id: JobID, k: StageID)
      requires id in jobs && k in jobs[id].stages
      modifies this`jobs, this`retired
      ensures retired == old(retired) + {old(jobs)[id].stages[k].attemptID}
      ensures jobs == old(jobs)[id := WithStage(old(jobs)[id], k, ResetStage(old(jobs)[id].stages[k]))]
    {
      var job := jobs[id];
      var stage := job.stages[k];
      retired := retired + {stage.attemptID};
      stage := stage.(status := StagePending, remaining := |stage.tasks|, outputs := map[]);
      jobs := jobs[id := job.(stages := job.stages[k := stage])];
    }

    method HandleTaskSetFinished(id: JobID, k: StageID, attempt: StageAttemptID)
      requires Valid()
      modifies this
      ensures Valid()
      ensures Abs() == TaskSetFinished(old(Abs()), id, k, attempt)
    {
      FailJobInv(Abs(), id, ErrContext);
      FailJobInv(Abs(), id, ErrTaskSetEnded);
      InvOrdered(TaskSetFinished(Abs(), id, k, attempt));
      hide Inv, Ordered;
      if id !in jobs || k !in jobs[id].stages { return; }
      var stage := jobs[id].stages[k];
      if stage.status != StageRunning || stage.attemptID != attempt { return; }
      var error := ErrTaskSetEnded;
      if jobs[id].cancelled { error := ErrContext; }
      Fail(id, error);
    }

    method HandleJobCanceled(id: JobID)
      requires Valid()
      modifies this
      ensures Valid()
      ensures Abs() == FailJob(old(Abs()), id, ErrContext)
    {
      FailJobInv(Abs(), id, ErrContext);
      InvOrdered(FailJob(Abs(), id, ErrContext));
      hide Inv, Ordered;
      Fail(id, ErrContext);
    }

    method HandleStopping()
      requires Valid()
      modifies this
      ensures Valid()
      ensures Abs() == Stop(old(Abs()))
    {
      StopInv(Abs());
      InvOrdered(Stop(Abs()));
      hide Inv, Ordered;
      FailAllJobs();
    }

    /** Fails the jobs one by one, in any order. */
    method FailAllJobs()
      modifies this
      ensures Abs() == Stop(old(Abs()))
    {
      stopping := true;
      var todo := jobs.Keys;
      StopNone(old(Abs()));
      hide FailJob, StopAllBut;
      while todo != {}
        invariant todo <= old(jobs).Keys && Abs() == StopAllBut(old(Abs()), todo)
        decreases |todo|
      {
        var id :| id in todo;
        Fail(id, ErrStopped);
        StopOneMore(old(Abs()), todo, id);
        todo := todo - {id};
      }
      StopEvery(old(Abs()));
    }
  }

  /** A stop that still has the jobs in `todo` to fail. */
  function StopAllBut(s: Dag.State, todo: set<JobID>): Dag.State {
    s.(stopping := true, jobs := map id | id in s.jobs && id in todo :: s.jobs[id],
       responses := map id | id in s.responses.Keys + (s.jobs.Keys - todo) ::
                      Sent(s, id) + if id in s.jobs && id !in todo then [Failed(ErrStopped)] else [])
  }

  lemma StopNone(s: Dag.State)
    ensures StopAllBut(s, s.jobs.Keys) == s.(stopping := true)
  {
    forall id | id in s.responses ensures StopAllBut(s, s.jobs.Keys).responses[id] == s.responses[id] {
      assert Sent(s, id) + [] == s.responses[id];
    }
    assert StopAllBut(s, s.jobs.Keys).responses == s.responses;
    assert StopAllBut(s, s.jobs.Keys).jobs == s.jobs;
  }

  lemma StopOneMore(s: Dag.State, todo: set<JobID>, id: JobID)
    requires todo <= s.jobs.Keys && id in todo
    ensures FailJob(StopAllBut(s, todo), id, ErrStopped) == StopAllBut(s, todo - {id})
  {
    var before, after := FailJob(StopAllBut(s, todo), id, ErrStopped), StopAllBut(s, todo - {id});
    assert before.jobs == after.jobs;
    var sent := Sent(StopAllBut(s, todo), id);
    assert sent == Sent(s, id) by { assert Sent(s, id) + [] == Sent(s, id); }
    assert before.responses.Keys == after.responses.Keys;
    forall j | j in after.responses ensures before.responses[j] == after.responses[j] {
      assert j != id ==> before.responses[j] == StopAllBut(s, todo).responses[j];
    }
    assert before.responses == after.responses;
  }

  lemma StopEvery(s: Dag.State)
    ensures StopAllBut(s, {}) == Stop(s)
  {
    assert StopAllBut(s, {}).responses == Stop(s).responses;
    assert StopAllBut(s, {}).jobs == map[];
  }

  lemma {:induction false} TasksBelong(stages: seq<Stage>)
    requires forall i :: 0 <= i < |stages| ==> stages[i].numPartitions > 0
    ensures forall i :: 0 <= i < |AllTasks(stages)| ==> AllTasks(stages)[i].stageID in StageOrder(stages)
  {
    if stages != [] { TasksBelong(stages[..|stages| - 1]); }
  }

  /** Builds the stage table, then deals the tasks out to their stages. */
  method BuildJob(action: ActionSpec, p: StagePlan, tasks: seq<Task>, cancelled: bool) returns (job: JobState)
    requires forall i :: 0 <= i < |tasks| ==> tasks[i].stageID in StageOrder(p.stages)
    ensures job == NewJob(action, p, tasks, cancelled)
  {
    var stages: map<StageID, StageState> := map[];
    var order: seq<StageID> := [];
    var resultStageID: StageID := 0;
    var i := 0;
    while i < |p.stages|
      invariant 0 <= i <= |p.stages|
      invariant order == StageOrder(p.stages[..i]) && resultStageID == ResultID(p.stages[..i])
      invariant stages == StageTable(p.stages[..i], [])
    {
      var stage := p.stages[i];
      assert p.stages[..i + 1][..i] == p.stages[..i];
      order := order + [stage.id];
      stages := stages[stage.id := StageState(stage, 0, StagePending, 0, [], stage.numPartitions, map[])];
      if stage.kind == StageResult { resultStageID := stage.id; }
      i := i + 1;
    }
    assert p.stages[..i] == p.stages;
    var t := 0;
    while t < |tasks|
      invariant 0 <= t <= |tasks| && stages == StageTable(p.stages, tasks[..t])
    {
      var k := tasks[t].stageID;
      TableTakesTask(p.stages, tasks[..t], tasks[t]);
      assert tasks[..t] + [tasks[t]] == tasks[..t + 1];
      stages := stages[k := stages[k].(tasks := stages[k].tasks + [tasks[t]])];
      t := t + 1;
    }
    assert tasks[..t] == tasks;
    job := JobState(action, "", stages, order, resultStageID, cancelled);
  }

  lemma {:induction false} TableTakesTask(stages: seq<Stage>, tasks: seq<Task>, task: Task)
    requires task.stageID in StageOrder(stages)
    ensures var before, k := StageTable(stages, tasks), task.stageID;
            k in before && StageTable(stages, tasks + [task]) == before[k := before[k].(tasks := before[k].tasks + [task])]
  {
    var k := task.stageID;
    var before, after := StageTable(stages, tasks), StageTable(stages, tasks + [task]);
    TableEntries(stages, tasks);
    TableEntries(stages, tasks + [task]);
    assert (tasks + [task])[..|tasks|] == tasks;
    forall j | j in after ensures after[j] == before[k := before[k].(tasks := before[k].tasks + [task])][j] {
      TableSame(stages, tasks, tasks + [task], j);
      if j == k {
        assert TasksOfStage(tasks + [task], k) == TasksOfStage(tasks, k) + [task];
      } else {
        assert TasksOfStage(tasks + [task], j) == TasksOfStage(tasks, j) + [];
      }
    }
  }

  lemma {:induction false} TableEntries(stages: seq<Stage>, tasks: seq<Task>)
    ensures forall k :: k in StageTable(stages, tasks) ==> StageTable(stages, tasks)[k].tasks == TasksOfStage(tasks, k)
  {
    if stages != [] { TableEntries(stages[..|stages| - 1], tasks); }
  }

  /** Tables over different tasks differ in nothing but the tasks. */
  lemma {:induction false} TableSame(stages: seq<Stage>, a: seq<Task>, b: seq<Task>, k: StageID)
    requires k in StageOrder(stages)
    ensures StageTable(stages, b)[k] == StageTable(stages, a)[k].(tasks := TasksOfStage(b, k))
  {
    var last := stages[|stages| - 1];
    if last.id != k { TableSame(stages[..|stages| - 1], a, b, k); }
  }

  /** Goes through the partitions from 0 up. */
  method MergeTaskOutputs(kind: ActionKind, outputs: map<PartitionID, TaskOutput>) returns (result: JobResult)
    ensures result == MergeOutputs(kind, outputs, |outputs|)
  {
    result := JobResult([], 0);
    var p := 0;
    while p < |outputs|
      invariant 0 <= p <= |outputs| && result == MergeOutputs(kind, outputs, p)
    {
      var output := if p in outputs then outputs[p] else TaskOutput(None, 0, None);
      match kind {
        case ActionCollect =>
          if output.records.Some? { result := result.(records := result.records + output.records.value); }
        case ActionCount => result := result.(count := result.count + output.count);
        case ActionUnsupported =>
      }
      p := p + 1;
    }
  }
}
