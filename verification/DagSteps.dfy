/** Every event of the DAG scheduler keeps its invariant. */
module DagSteps {
  import opened Types
  import opened Lineage
  import opened Planner
  import opened Dag
  import opened DagInvariant

  // ---------------------------------------------------------------- one job apart from the others

  /** The invariant, but for what it says of one unfinished job. */
  predicate InvExcept(s: State, id: JobID) {
    && s.maxStageAttempts > 0 && |s.launched| == s.nextStageAttemptID && LogOK(s.launched, s.retired)
    && (forall j :: j in s.jobs && j != id ==> JobOK(s.launched, s.retired, s.maxStageAttempts, j, s.jobs[j]))
    && AnswersOK(s) && id in s.jobs && !s.stopping
  }

  lemma ApartFromOne(s: State, id: JobID, job: JobState)
    requires Inv(s) && id in s.jobs
    ensures InvExcept(s, id) && InvExcept(s.(jobs := s.jobs[id := job]), id)
    ensures JobOK(s.launched, s.retired, s.maxStageAttempts, id, s.jobs[id])
  {
    hide JobOK, LogOK;
  }

  lemma Together(s: State, id: JobID)
    requires InvExcept(s, id) && JobOK(s.launched, s.retired, s.maxStageAttempts, id, s.jobs[id])
    ensures Inv(s)
  {
  }

  lemma EndedInv(s: State, id: JobID, answer: Answer)
    requires InvExcept(s, id) && answer != Failed(ErrStageExhausted)
    ensures Inv(EndJob(s, id, answer))
  {
  }

  lemma FailJobInv(s: State, id: JobID, error: DagError)
    requires Inv(s) && error != ErrStageExhausted
    ensures Inv(FailJob(s, id, error))
  {
    if id in s.jobs {
      ApartFromOne(s, id, s.jobs[id]);
      EndedInv(s, id, Failed(error));
    }
  }

  // ---------------------------------------------------------------- starting stages

  function Started(st: StageState, attempt: StageAttemptID): StageState {
    st.(attemptID := attempt, status := StageRunning, attempts := st.attempts + 1)
  }

  function WithStage(job: JobState, k: StageID, st: StageState): JobState {
    job.(stages := job.stages[k := st])
  }

  /** Both stages wait, or the only one does. */
  predicate AllPending(id: JobID, max: nat, job: JobState) {
    && (NarrowShape(job) || (ShuffleShape(job) && job.stages[0].attempts == job.stages[1].attempts))
    && job.stages[0].attempts < max
    && forall k :: k in job.stages ==> job.stages[k].status == StagePending && StageOK(id, job.runID, k, max, job.stages[k])
  }

  lemma PendingShape(id: JobID, max: nat, job: JobState)
    requires AllPending(id, max, job)
    ensures 0 in job.stages && job.stages[0].status == StagePending && job.stages[0].attempts < max && job.stages[0].stage.parentIDs == []
    ensures job.order == [0] || (job.order == [0, 1] && 1 in job.stages && job.stages[1].stage.parentIDs == [0])
  {
    hide StageOK, ResultOK;
  }

  lemma LaunchFirst(s: State, id: JobID)
    requires id in s.jobs && AllPending(id, s.maxStageAttempts, s.jobs[id]) && !s.jobs[id].cancelled
    ensures forall k :: k in s.jobs[id].order ==> k in s.jobs[id].stages
    ensures LaunchReady(s, id) ==
            Launch(WithStage(s.jobs[id], 0, Started(s.jobs[id].stages[0], s.nextStageAttemptID)), s.nextStageAttemptID + 1,
                   [TaskSet(None, id, 0, s.nextStageAttemptID, s.jobs[id].stages[0].tasks)], None)
  {
    PendingShape(id, s.maxStageAttempts, s.jobs[id]);
    hide AllPending, NarrowShape, ShuffleShape;
    var job := s.jobs[id];
    var l := Launch(job, s.nextStageAttemptID, [], None);
    var max := s.maxStageAttempts;
    var l1 := StartStage(l, id, max, 0);
    assert StartStages(l, id, max, job.order) == StartStages(l1, id, max, job.order[1..]);
    if job.order == [0, 1] {
      assert job.order[1..] == [1];
      assert !Ready(l1.job, job.stages[1].stage) by { assert job.stages[1].stage.parentIDs[0] == 0; }
      assert StartStage(l1, id, max, 1) == l1;
      assert StartStages(l1, id, max, [1]) == StartStages(l1, id, max, [1][1..]);
    } else {
      assert job.order[1..] == [];
    }
  }

  lemma StartFirstInv(s: State, id: JobID)
    requires InvExcept(s, id) && AllPending(id, s.maxStageAttempts, s.jobs[id])
    ensures forall k :: k in s.jobs[id].order ==> k in s.jobs[id].stages
    ensures Inv(StartReady(s, id))
  {
    var job := s.jobs[id];
    if job.cancelled {
      StopsEarly(s, id);
    } else {
      LaunchFirst(s, id);
      var set0 := TaskSet(None, id, 0, s.nextStageAttemptID, job.stages[0].tasks);
      var job1 := WithStage(job, 0, Started(job.stages[0], s.nextStageAttemptID));
      FirstStarts(s, id, job1, set0);
      hide *;
      StartedJobOK(s, id, job1, set0);
      StartReadyResult(s, id);
    }
  }

  lemma StartReadyResult(s: State, id: JobID)
    requires id in s.jobs && (forall k :: k in s.jobs[id].order ==> k in s.jobs[id].stages)
    requires LaunchReady(s, id).error.None?
    ensures var l := LaunchReady(s, id);
            StartReady(s, id) == s.(jobs := s.jobs[id := l.job], nextStageAttemptID := l.next, launched := s.launched + l.sets)
  {
  }

  lemma StageStarts(launched: seq<TaskSet>, retired: set<StageAttemptID>, id: JobID, runID: string, k: StageID, max: nat,
                    st: StageState, inputs: Option<InputSnapshot>)
    requires LogOK(launched, retired)
    requires StageOK(id, runID, k, max, st) && st.status == StagePending && st.attempts < max
    requires inputs.Some? ==> ValidSnapshot(inputs.value)
    ensures StageOK(id, runID, k, max, Started(st, |launched|))
    ensures Launched(launched + [TaskSet(inputs, id, k, |launched|, st.tasks)], retired, id, k, Started(st, |launched|), inputs)
  {
    assert st.outputs == map[];
  }

  lemma FirstStarts(s: State, id: JobID, job1: JobState, set0: TaskSet)
    requires InvExcept(s, id) && AllPending(id, s.maxStageAttempts, s.jobs[id])
    requires job1 == WithStage(s.jobs[id], 0, Started(s.jobs[id].stages[0], s.nextStageAttemptID))
    requires set0 == TaskSet(None, id, 0, s.nextStageAttemptID, job1.stages[0].tasks)
    ensures JobOK(s.launched + [set0], s.retired, s.maxStageAttempts, id, job1)
  {
    hide StageOK, Launched, JobOK, AnswersOK;
    var job := s.jobs[id];
    var st := job.stages[0];
    assert 0 in job.stages && StageOK(id, job.runID, 0, s.maxStageAttempts, st);
    StageStarts(s.launched, s.retired, id, job.runID, 0, s.maxStageAttempts, st, None);
    if NarrowShape(job) {
      assert NarrowJob(job1);
    } else {
      var child := job.stages[1];
      assert ShuffleJob(job1);
      assert StageOK(id, job.runID, 1, s.maxStageAttempts, child);
      PendingLaunched(s.launched + [set0], s.retired, id, 1, child, InputsOf(id, job1, child.stage));
    }
    assert Stages(s.launched + [set0], s.retired, s.maxStageAttempts, id, job1);
    JobFromStages(s.launched + [set0], s.retired, s.maxStageAttempts, id, job1);
  }

  lemma PendingLaunched(launched: seq<TaskSet>, retired: set<StageAttemptID>, id: JobID, k: StageID,
                        st: StageState, inputs: Option<InputSnapshot>)
    requires st.status == StagePending
    ensures Launched(launched, retired, id, k, st, inputs)
  {
  }

  lemma JobFromStages(launched: seq<TaskSet>, retired: set<StageAttemptID>, max: nat, id: JobID, job: JobState)
    requires (NarrowJob(job) || ShuffleJob(job)) && Stages(launched, retired, max, id, job)
    ensures JobOK(launched, retired, max, id, job)
  {
  }

  lemma StopsEarly(s: State, id: JobID)
    requires InvExcept(s, id) && (forall k :: k in s.jobs[id].order ==> k in s.jobs[id].stages)
    requires LaunchReady(s, id).error.Some? && LaunchReady(s, id).error != Some(ErrStageExhausted)
    requires LaunchReady(s, id).next == s.nextStageAttemptID && LaunchReady(s, id).sets == []
    ensures Inv(StartReady(s, id))
  {
    var l := LaunchReady(s, id);
    assert s.launched + [] == s.launched;
    EndedInv(s.(jobs := s.jobs[id := l.job]), id, Failed(l.error.value));
  }

  /** A launch appends one set to the log and leaves the other jobs alone. */
  lemma StartedJobOK(s: State, id: JobID, job: JobState, set0: TaskSet)
    requires InvExcept(s, id) && set0.stageAttemptID == s.nextStageAttemptID
    requires JobOK(s.launched + [set0], s.retired, s.maxStageAttempts, id, job)
    ensures Inv(s.(jobs := s.jobs[id := job], nextStageAttemptID := s.nextStageAttemptID + 1, launched := s.launched + [set0]))
  {
    hide JobOK;
    forall j | j in s.jobs && j != id
      ensures JobOK(s.launched + [set0], s.retired, s.maxStageAttempts, j, s.jobs[j])
    {
      NoneGone(s.jobs[j]);
      JobFrame(s.launched, s.retired, [set0], {}, s.maxStageAttempts, j, s.jobs[j]);
      assert s.retired + {} == s.retired;
    }
  }

  lemma NoneGone(job: JobState)
    ensures forall k :: k in job.stages && job.stages[k].status != StagePending ==> job.stages[k].attemptID !in {}
  {
  }

  /** The map stage is done and the result stage waits. */
  predicate ChildReady(launched: seq<TaskSet>, retired: set<StageAttemptID>, id: JobID, max: nat, job: JobState) {
    && ShuffleShape(job)
    && job.stages[0].status == StageSucceeded && job.stages[1].status == StagePending
    && job.stages[1].attempts == job.stages[0].attempts - 1
    && Stages(launched, retired, max, id, job)
  }

  lemma LaunchSecond(s: State, id: JobID)
    requires id in s.jobs && ShuffleShape(s.jobs[id]) && !s.jobs[id].cancelled
    requires s.jobs[id].stages[0].status == StageSucceeded && s.jobs[id].stages[1].status == StagePending
    requires s.jobs[id].stages[1].attempts < s.maxStageAttempts
    ensures var job := s.jobs[id];
            var inputs := Snapshot(job.runID, id, job.stages[0], job.stages[1].stage);
            LaunchReady(s, id) ==
            if ValidSnapshot(inputs) then
              Launch(WithStage(job, 1, Started(job.stages[1], s.nextStageAttemptID)), s.nextStageAttemptID + 1,
                     [TaskSet(Some(inputs), id, 1, s.nextStageAttemptID, job.stages[1].tasks)], None)
            else Launch(job, s.nextStageAttemptID, [], Some(ErrInputs))
  {
    var job := s.jobs[id];
    var l := Launch(job, s.nextStageAttemptID, [], None);
    var max := s.maxStageAttempts;
    assert StartStage(l, id, max, 0) == l;
    assert StartStages(l, id, max, job.order) == StartStages(l, id, max, job.order[1..]);
    assert job.order[1..] == [1];
    assert Ready(job, job.stages[1].stage);
    assert StartStages(l, id, max, [1]) == StartStages(StartStage(l, id, max, 1), id, max, [1][1..]);
  }

  lemma StartSecondInv(s: State, id: JobID)
    requires InvExcept(s, id) && ChildReady(s.launched, s.retired, id, s.maxStageAttempts, s.jobs[id])
    ensures forall k :: k in s.jobs[id].order ==> k in s.jobs[id].stages
    ensures Inv(StartReady(s, id))
  {
    var job := s.jobs[id];
    assert StageOK(id, job.runID, 0, s.maxStageAttempts, job.stages[0]);
    if job.cancelled {
      StopsEarly(s, id);
    } else {
      LaunchSecond(s, id);
      var inputs := Snapshot(job.runID, id, job.stages[0], job.stages[1].stage);
      if ValidSnapshot(inputs) {
        var set0 := TaskSet(Some(inputs), id, 1, s.nextStageAttemptID, job.stages[1].tasks);
        var job1 := WithStage(job, 1, Started(job.stages[1], s.nextStageAttemptID));
        ChildStarts(s, id, job1, set0);
        StartedJobOK(s, id, job1, set0);
      } else {
        StopsEarly(s, id);
      }
    }
  }

  lemma ChildStarts(s: State, id: JobID, job1: JobState, set0: TaskSet)
    requires InvExcept(s, id) && ChildReady(s.launched, s.retired, id, s.maxStageAttempts, s.jobs[id])
    requires job1 == WithStage(s.jobs[id], 1, Started(s.jobs[id].stages[1], s.nextStageAttemptID))
    requires set0 == TaskSet(Some(Snapshot(job1.runID, id, job1.stages[0], job1.stages[1].stage)), id, 1,
                             s.nextStageAttemptID, job1.stages[1].tasks)
    requires ValidSnapshot(set0.inputs.value)
    ensures JobOK(s.launched + [set0], s.retired, s.maxStageAttempts, id, job1)
  {
    var job := s.jobs[id];
    hide JobOK, AnswersOK, LogOK, ValidSnapshot, StageOK, Launched, Snapshot;
    var parent, child := job.stages[0], job.stages[1];
    var inputs := Some(Snapshot(job.runID, id, parent, child.stage));
    assert Launched(s.launched, s.retired, id, 0, parent, None);
    assert StageOK(id, job.runID, 0, s.maxStageAttempts, parent) && StageOK(id, job.runID, 1, s.maxStageAttempts, child);
    StageStarts(s.launched, s.retired, id, job.runID, 1, s.maxStageAttempts, child, inputs);
    LaunchedMore(s.launched, s.retired, [set0], id, 0, parent, None);
    ChildBarrier(job, s.nextStageAttemptID);
    ShuffleJobOK(s.launched + [set0], s.retired, s.maxStageAttempts, id, job1);
  }

  lemma ChildBarrier(job: JobState, next: StageAttemptID)
    requires ShuffleShape(job) && job.stages[0].status == StageSucceeded
    requires job.stages[1].attempts == job.stages[0].attempts - 1
    ensures ShuffleJob(WithStage(job, 1, Started(job.stages[1], next)))
  {
  }

  lemma ShuffleJobOK(launched: seq<TaskSet>, retired: set<StageAttemptID>, max: nat, id: JobID, job: JobState)
    requires ShuffleJob(job)
    requires StageOK(id, job.runID, 0, max, job.stages[0]) && StageOK(id, job.runID, 1, max, job.stages[1])
    requires Launched(launched, retired, id, 0, job.stages[0], None)
    requires Launched(launched, retired, id, 1, job.stages[1],
                      Some(Snapshot(job.runID, id, job.stages[0], job.stages[1].stage)))
    ensures JobOK(launched, retired, max, id, job)
  {
    hide StageOK, Launched, Snapshot;
    assert Stages(launched, retired, max, id, job);
  }

  lemma LaunchedMore(launched: seq<TaskSet>, retired: set<StageAttemptID>, more: seq<TaskSet>, id: JobID, k: StageID,
                     st: StageState, inputs: Option<InputSnapshot>)
    requires Launched(launched, retired, id, k, st, inputs)
    ensures Launched(launched + more, retired, id, k, st, inputs)
  {
  }

  // ---------------------------------------------------------------- submission

  lemma PlannedShape(names: FunctionNames, nodes: Nodes, action: ActionSpec)
    requires Planned(names, nodes, action).Some?
    ensures exists c :: WellFormed(c) && Planned(names, nodes, action) == Some(PlanOf(c, action))
    ensures action.kind != ActionUnsupported
  {
    var n: nat :| Grounded(nodes, action.targetRDD, n)
                  && ChainOf(nodes, action.targetRDD) == ChainFrom(nodes, action.targetRDD, n);
    ValidatedChain(nodes, action.targetRDD, n);
  }

  lemma NewStageOK(id: JobID, stages: seq<Stage>, k: nat, max: nat)
    requires k < |stages| && forall i :: 0 <= i < |stages| ==> stages[i].numPartitions > 0 && stages[i].id == i
    ensures StageOK(id, "", k, max, NewStage(stages[k], AllTasks(stages)))
  {
    hide *;
    TaskNumbering(stages, k);
    NewStageFields(stages[k], AllTasks(stages));
    FreshStageOK(id, k, max, NewStage(stages[k], AllTasks(stages)), TasksBefore(stages[..k]));
  }

  lemma NewStageFields(stage: Stage, tasks: seq<Task>)
    ensures NewStage(stage, tasks) == StageState(stage, 0, StagePending, 0, TasksOfStage(tasks, stage.id), stage.numPartitions, map[])
  {
    hide TasksOfStage;
  }

  lemma FreshStageOK(id: JobID, k: nat, max: nat, st: StageState, first: TaskID)
    requires st.stage.id == k && st.stage.numPartitions > 0 && st.tasks == StageTasks(st.stage, first)
    requires st.outputs == map[] && st.remaining == st.stage.numPartitions && st.attempts == 0 && st.status == StagePending
    ensures StageOK(id, "", k, max, st)
  {
    hide OutputOK;
  }

  lemma TableOfOne(stages: seq<Stage>, tasks: seq<Task>)
    requires |stages| == 1
    ensures StageTable(stages, tasks) == map[stages[0].id := NewStage(stages[0], tasks)]
    ensures StageOrder(stages) == [stages[0].id]
    ensures ResultID(stages) == if stages[0].kind == StageResult then stages[0].id else 0
  {
    assert stages[..0] == [];
  }

  lemma TableOfTwo(stages: seq<Stage>, tasks: seq<Task>)
    requires |stages| == 2
    ensures StageTable(stages, tasks) == map[stages[0].id := NewStage(stages[0], tasks)][stages[1].id := NewStage(stages[1], tasks)]
    ensures StageOrder(stages) == [stages[0].id, stages[1].id]
    ensures stages[1].kind == StageResult ==> ResultID(stages) == stages[1].id
  {
    TableOfOne(stages[..1], tasks);
  }

  /** The stages of an executable plan of a validated chain. */
  lemma ExecutableStages(c: Chain, action: ActionSpec)
    requires WellFormed(c) && Executable(PlanOf(c, action))
    ensures var stages := PlanOf(c, action).stages;
            && (forall i :: 0 <= i < |stages| ==> stages[i].id == i)
            && stages[|stages| - 1].finalAction == Some(action)
            && (|stages| == 2 ==> stages[0].finalAction.None? && stages[0].shuffleWrite.Some?
                                  && stages[0].shuffleWrite.value.partitioner.numPartitions > 0
                                  && stages[1].shuffleWrite.None?)
  {
    UpstreamShape(c);
    var stages := PlanOf(c, action).stages;
    forall i | 0 <= i < |stages| ensures stages[i].id == i {
      assert i < |Upstream(c)| ==> MapShape(Upstream(c)[i], i);
    }
    if |stages| == 2 {
      assert MapShape(Upstream(c)[0], 0);
      WritesArePositive(c);
    }
  }

  lemma {:induction false} WritesArePositive(c: Chain)
    requires WellFormed(c)
    ensures forall i :: 0 <= i < |Upstream(c)| ==>
      Upstream(c)[i].shuffleWrite.Some? && Upstream(c)[i].shuffleWrite.value.partitioner.numPartitions > 0
  {
    if !c.SourceRDD? { WritesArePositive(c.parent); }
  }

  lemma NewJobPending(id: JobID, max: nat, c: Chain, action: ActionSpec, cancelled: bool)
    requires WellFormed(c) && Executable(PlanOf(c, action)) && max > 0 && action.kind != ActionUnsupported
    requires forall i :: 0 <= i < |PlanOf(c, action).stages| ==> PlanOf(c, action).stages[i].numPartitions > 0
    ensures AllPending(id, max, NewJob(action, PlanOf(c, action), AllTasks(PlanOf(c, action).stages), cancelled))
  {
    var p := PlanOf(c, action);
    var stages := p.stages;
    var tasks := AllTasks(stages);
    var job := NewJob(action, p, tasks, cancelled);
    ExecutableStages(c, action);
    NewStageOK(id, stages, 0, max);
    if |stages| == 1 {
      TableOfOne(stages, tasks);
      OnePending(id, max, job, NewStage(stages[0], tasks));
    } else {
      NewStageOK(id, stages, 1, max);
      TableOfTwo(stages, tasks);
      TwoPending(id, max, job, NewStage(stages[0], tasks), NewStage(stages[1], tasks));
    }
  }

  lemma OnePending(id: JobID, max: nat, job: JobState, st: StageState)
    requires job.order == [0] && job.stages == map[0 := st] && job.resultStageID == 0
    requires st.stage.parentIDs == [] && ResultOK(job, st.stage) && st.attempts == 0 < max && st.status == StagePending
    requires StageOK(id, job.runID, 0, max, st)
    ensures AllPending(id, max, job)
  {
    hide StageOK;
  }

  lemma TwoPending(id: JobID, max: nat, job: JobState, parent: StageState, child: StageState)
    requires job.order == [0, 1] && job.stages == map[0 := parent][1 := child] && job.resultStageID == 1
    requires parent.stage.kind == StageShuffleMap && parent.stage.parentIDs == [] && parent.stage.finalAction.None?
    requires parent.stage.shuffleWrite.Some? && parent.stage.shuffleWrite.value.partitioner.numPartitions > 0
    requires child.stage.parentIDs == [0] && ResultOK(job, child.stage)
    requires parent.attempts == child.attempts == 0 < max && parent.status == child.status == StagePending
    requires StageOK(id, job.runID, 0, max, parent) && StageOK(id, job.runID, 1, max, child)
    ensures AllPending(id, max, job)
  {
    hide StageOK;
    assert ShuffleShape(job);
  }

  lemma ExecutionPlanPending(names: FunctionNames, nodes: Nodes, id: JobID, max: nat, action: ActionSpec, cancelled: bool)
    requires ExecutionPlan(names, nodes, action).Some? && max > 0
    ensures var p := ExecutionPlan(names, nodes, action).value;
            AllPending(id, max, NewJob(action, p, AllTasks(p.stages), cancelled))
  {
    var p := ExecutionPlan(names, nodes, action);
    PlannedShape(names, nodes, action);
    hide Planned, Executable, WellFormed, AllPending, NewJob;
    var c :| WellFormed(c) && p == Some(PlanOf(c, action));
    NewJobPending(id, max, c, action, cancelled);
  }

  /** A submission is refused, or enters as a job whose stages all wait and are then started. */
  ghost predicate Enters(s: State, id: JobID, job: JobState, after: State) {
    && AllPending(id, s.maxStageAttempts, job) && (forall k :: k in job.order ==> k in job.stages)
    && after == StartReady(s.(jobs := s.jobs[id := job]), id)
  }

  lemma SubmitCases(s: State, id: JobID, nodes: Nodes, action: ActionSpec, cancelled: bool)
    requires s.maxStageAttempts > 0
    ensures var after := SubmitJob(s, id, nodes, action, cancelled);
            || (s.stopping && after == Respond(s, id, Failed(ErrStopped))) || after == Respond(s, id, Failed(ErrPlan))
            || (!s.stopping && exists job :: Enters(s, id, job, after))
  {
    hide AllPending, ExecutionPlan, StartReady, NewJob, AllTasks;
    var p := ExecutionPlan(s.functions, nodes, action);
    if !s.stopping && p.Some? {
      var job := NewJob(action, p.value, AllTasks(p.value.stages), cancelled);
      ExecutionPlanPending(s.functions, nodes, id, s.maxStageAttempts, action, cancelled);
      NewJobOrdered(action, p.value, AllTasks(p.value.stages), cancelled);
      assert Enters(s, id, job, SubmitJob(s, id, nodes, action, cancelled));
    }
  }

  lemma NewJobOrdered(action: ActionSpec, p: StagePlan, tasks: seq<Task>, cancelled: bool)
    ensures var job := NewJob(action, p, tasks, cancelled); forall k :: k in job.order ==> k in job.stages
  {
  }

  lemma SubmitInv(s: State, id: JobID, nodes: Nodes, action: ActionSpec, cancelled: bool)
    requires Inv(s) && id !in s.jobs && id !in s.responses
    ensures Inv(SubmitJob(s, id, nodes, action, cancelled))
  {
    hide JobOK, LogOK, AllPending, StartReady, SubmitJob;
    SubmitCases(s, id, nodes, action, cancelled);
    var after := SubmitJob(s, id, nodes, action, cancelled);
    if job :| !s.stopping && Enters(s, id, job, after) {
      StartFirstInv(s.(jobs := s.jobs[id := job]), id);
    }
  }

  // ---------------------------------------------------------------- accepted outputs

  function Grown(st: StageState, p: PartitionID, output: TaskOutput): StageState {
    st.(outputs := st.outputs[p := output], remaining := st.remaining - 1,
        status := if st.remaining - 1 == 0 then StageSucceeded else st.status)
  }

  lemma GrownOK(id: JobID, runID: string, runID1: string, k: StageID, max: nat, st: StageState, p: PartitionID,
                output: TaskOutput, attempt: TaskAttemptIdentity)
    requires StageOK(id, runID, k, max, st) && st.status == StageRunning
    requires 0 <= p < |st.tasks| && p !in st.outputs && attempt.taskID == st.tasks[p].id
    requires attempt.stageAttemptID == st.attemptID
    requires AcceptableOutput(output, runID1, id, st.tasks[p], attempt)
    requires runID1 == runID || st.outputs == map[]
    ensures StageOK(id, runID1, k, max, Grown(st, p, output))
  {
    var st1 := Grown(st, p, output);
    forall q | q in st1.outputs ensures 0 <= q < |st.tasks| && OutputOK(id, runID1, st.attemptID, st.tasks[q], st1.outputs[q]) {
      assert q in st.outputs ==> OutputOK(id, runID, st.attemptID, st.tasks[q], st.outputs[q]);
    }
  }

  /** A result stage's outputs say nothing of the run. */
  lemma AnyRun(id: JobID, runID: string, runID1: string, k: StageID, max: nat, st: StageState)
    requires StageOK(id, runID, k, max, st) && (st.stage.kind == StageResult || st.outputs == map[])
    ensures StageOK(id, runID1, k, max, st)
  {
    forall q | q in st.outputs ensures OutputOK(id, runID1, st.attemptID, st.tasks[q], st.outputs[q]) {
      assert OutputOK(id, runID, st.attemptID, st.tasks[q], st.outputs[q]);
    }
  }

  /** Once a map output is accepted its run is the job's. */
  lemma RunKnown(id: JobID, runID: string, k: StageID, max: nat, st: StageState)
    requires StageOK(id, runID, k, max, st) && st.stage.kind == StageShuffleMap
    ensures st.outputs == map[] || runID != ""
  {
    hide StageOK;
    forall q ensures q in st.outputs ==> runID != "" {
      if q in st.outputs { OutputNamesRun(id, runID, k, max, st, q); }
    }
    assert st.outputs.Keys == {} ==> st.outputs == map[];
  }

  lemma OutputNamesRun(id: JobID, runID: string, k: StageID, max: nat, st: StageState, q: PartitionID)
    requires StageOK(id, runID, k, max, st) && st.stage.kind == StageShuffleMap && q in st.outputs
    ensures runID != ""
  {
    assert OutputOK(id, runID, st.attemptID, st.tasks[q], st.outputs[q]);
  }

  /** What a job becomes when a running stage accepts an output. */
  lemma AcceptedJob(launched: seq<TaskSet>, retired: set<StageAttemptID>, max: nat, id: JobID, job: JobState, k: StageID,
                    p: PartitionID, output: TaskOutput, attempt: TaskAttemptIdentity)
    requires JobOK(launched, retired, max, id, job) && k in job.stages
    requires var st := job.stages[k];
             && st.status == StageRunning && 0 <= p < |st.tasks| && p !in st.outputs
             && attempt.taskID == st.tasks[p].id && attempt.stageAttemptID == st.attemptID
             && AcceptableOutput(output, RunIDFor(job, output), id, st.tasks[p], attempt)
    ensures var st, job1 := job.stages[k], Accept(job, k, p, output);
            && (st.remaining > 1 ==> JobOK(launched, retired, max, id, job1))
            && (st.remaining <= 1 && k != job.resultStageID ==> ChildReady(launched, retired, id, max, job1))
  {
    hide AcceptableOutput, OutputsOK, Stages, ChildReady;
    var st := job.stages[k];
    var job1 := Accept(job, k, p, output);
    JobStage(launched, retired, max, id, job, k);
    if st.stage.kind == StageShuffleMap {
      RunKnown(id, job.runID, k, max, st);
      GrownOK(id, job.runID, job1.runID, k, max, st, p, output, attempt);
      MapStageAccepts(launched, retired, max, id, job, job1, Grown(st, p, output));
    } else {
      AnyOutput(st.tasks[p], output, id, RunIDFor(job, output), job.runID, attempt, st);
      GrownOK(id, job.runID, job.runID, k, max, st, p, output, attempt);
      ResultStageAccepts(launched, retired, max, id, job, job1, k, Grown(st, p, output));
    }
  }

  lemma JobStage(launched: seq<TaskSet>, retired: set<StageAttemptID>, max: nat, id: JobID, job: JobState, k: StageID)
    requires JobOK(launched, retired, max, id, job) && k in job.stages
    ensures StageOK(id, job.runID, k, max, job.stages[k])
    ensures Launched(launched, retired, id, k, job.stages[k], InputsOf(id, job, job.stages[k].stage))
  {
    hide StageOK, Launched, NarrowJob, ShuffleJob;
  }

  lemma AnyOutput(t: Task, output: TaskOutput, id: JobID, runID: string, runID1: string, attempt: TaskAttemptIdentity, st: StageState)
    requires TasksOK(st) && t in st.tasks && st.stage.kind == StageResult && AcceptableOutput(output, runID, id, t, attempt)
    ensures AcceptableOutput(output, runID1, id, t, attempt)
  {
  }

  lemma MapStageAccepts(launched: seq<TaskSet>, retired: set<StageAttemptID>, max: nat, id: JobID, job: JobState, job1: JobState,
                        st1: StageState)
    requires JobOK(launched, retired, max, id, job) && ShuffleShape(job) && job.stages[0].status == StageRunning
    requires job1 == job.(runID := job1.runID, stages := job.stages[0 := st1])
    requires StageOK(id, job1.runID, 0, max, st1)
    requires st1 == job.stages[0].(outputs := st1.outputs, remaining := st1.remaining, status := st1.status)
    requires st1.status != StagePending
    ensures st1.status == StageRunning ==> JobOK(launched, retired, max, id, job1)
    ensures st1.status == StageSucceeded ==> ChildReady(launched, retired, id, max, job1)
  {
    var st, child := job.stages[0], job.stages[1];
    assert StageOK(id, job.runID, 1, max, child) && Launched(launched, retired, id, 0, st, InputsOf(id, job, st.stage));
    assert child.outputs == map[];
    AnyRun(id, job.runID, job1.runID, 1, max, child);
    hide StageOK, JobOK;
    PendingLaunched(launched, retired, id, 1, child, InputsOf(id, job1, child.stage));
    assert Launched(launched, retired, id, 0, st1, InputsOf(id, job1, st1.stage));
    hide Launched;
    assert Stages(launched, retired, max, id, job1);
    if st1.status == StageRunning { JobFromStages(launched, retired, max, id, job1); }
  }

  lemma ResultStageAccepts(launched: seq<TaskSet>, retired: set<StageAttemptID>, max: nat, id: JobID, job: JobState, job1: JobState,
                           k: StageID, st1: StageState)
    requires JobOK(launched, retired, max, id, job) && k in job.stages && job.stages[k].stage.kind == StageResult
    requires job1 == job.(stages := job.stages[k := st1])
    requires StageOK(id, job.runID, k, max, st1) && job.stages[k].status == StageRunning
    requires st1 == job.stages[k].(outputs := st1.outputs, remaining := st1.remaining, status := st1.status)
    ensures st1.status == StageRunning ==> JobOK(launched, retired, max, id, job1)
    ensures k == job.resultStageID
  {
    var st := job.stages[k];
    assert NarrowJob(job) || ShuffleJob(job);
    if st1.status == StageRunning {
      assert NarrowJob(job1) || ShuffleJob(job1);
      hide NarrowJob, ShuffleJob, OutputsOK, TasksOK, ProgressOK;
      forall j | j in job1.stages
        ensures StageOK(id, job1.runID, j, max, job1.stages[j])
        ensures Launched(launched, retired, id, j, job1.stages[j], InputsOf(id, job1, job1.stages[j].stage))
      {
        assert StageOK(id, job.runID, j, max, job.stages[j]);
        assert Launched(launched, retired, id, j, job.stages[j], InputsOf(id, job, job.stages[j].stage));
        assert InputsOf(id, job1, job1.stages[j].stage) == InputsOf(id, job, job.stages[j].stage);
      }
      JobFromStages(launched, retired, max, id, job1);
    }
  }

  lemma AcceptSuccessInv(s: State, id: JobID, k: StageID, p: PartitionID, output: TaskOutput, attempt: TaskAttemptIdentity)
    requires Inv(s) && Ordered(s) && PendingTask(s, id, k, attempt, p)
    requires AcceptableOutput(output, RunIDFor(s.jobs[id], output), id, s.jobs[id].stages[k].tasks[p], attempt)
    ensures Inv(AcceptSuccess(s, id, k, p, output))
  {
    var job := s.jobs[id];
    var st := job.stages[k];
    var job1 := Accept(job, k, p, output);
    ApartFromOne(s, id, job1);
    AcceptedJob(s.launched, s.retired, s.maxStageAttempts, id, job, k, p, output, attempt);
    assert st.remaining > 0 by { assert StageOK(id, job.runID, k, s.maxStageAttempts, st); }
    assert job1.stages[k].remaining == st.remaining - 1;
    hide Inv, JobOK, ChildReady, InvExcept, AcceptableOutput, Ordered, Accept;
    var s1 := s.(jobs := s.jobs[id := job1]);
    if st.remaining > 1 {
      Together(s1, id);
    } else if k != job.resultStageID {
      StartSecondInv(s1, id);
    } else {
      EndedInv(s1, id, Completed(MergeOutputs(job.action.kind, job1.stages[k].outputs, |job1.stages[k].outputs|)));
    }
  }

  lemma TaskSucceededInv(s: State, report: TaskAttemptSuccess)
    requires Inv(s) && Ordered(s)
    ensures Inv(TaskSucceeded(s, report))
  {
    hide Inv, Ordered, AcceptableOutput, AcceptSuccess;
    var id, k, p := report.jobID, report.stageID, report.partitionID;
    FailJobInv(s, id, ErrContext);
    FailJobInv(s, id, ErrOutput);
    if PendingTask(s, id, k, report.attempt, p)
       && AcceptableOutput(report.output, RunIDFor(s.jobs[id], report.output), id, s.jobs[id].stages[k].tasks[p], report.attempt) {
      AcceptSuccessInv(s, id, k, p, report.output, report.attempt);
    }
  }

  // ---------------------------------------------------------------- recovery

  lemma ResetOK(id: JobID, runID: string, k: StageID, max: nat, st: StageState)
    requires StageOK(id, runID, k, max, st)
    ensures StageOK(id, runID, k, max, ResetStage(st)) && ResetStage(st).status == StagePending
  {
  }

  /** A recoverable loss is one of the running child of a completed map stage. */
  lemma RecoverableShape(s: State, report: TaskAttemptFailure)
    requires Inv(s) && PendingTask(s, report.jobID, report.stageID, report.attempt, report.partitionID)
    requires RecoveryError(s, report).None?
    ensures report.stageID == 1 && ShuffleJob(s.jobs[report.jobID])
    ensures s.jobs[report.jobID].stages[0].status == StageSucceeded
    ensures s.jobs[report.jobID].stages[0].attempts < s.maxStageAttempts
  {
    hide Inv, ValidFailure, NamesAccepted, ResultOK;
    JobKinds(s, report.jobID);
  }

  lemma JobKinds(s: State, id: JobID)
    requires Inv(s) && id in s.jobs
    ensures NarrowJob(s.jobs[id]) || ShuffleJob(s.jobs[id])
  {
    assert JobOK(s.launched, s.retired, s.maxStageAttempts, id, s.jobs[id]);
    hide Stages, NarrowJob, ShuffleJob;
  }

  lemma ResetPending(launched: seq<TaskSet>, retired: set<StageAttemptID>, max: nat, id: JobID, job: JobState)
    requires JobOK(launched, retired, max, id, job) && ShuffleJob(job) && job.stages[0].status == StageSucceeded
    requires job.stages[0].attempts < max
    ensures AllPending(id, max, ResetJob(job))
    ensures job.stages[0].attemptID < |launched| && job.stages[1].attemptID < |launched|
  {
    var parent, child := job.stages[0], job.stages[1];
    assert StageOK(id, job.runID, 0, max, parent) && StageOK(id, job.runID, 1, max, child);
    assert Launched(launched, retired, id, 0, parent, InputsOf(id, job, parent.stage));
    assert Launched(launched, retired, id, 1, child, InputsOf(id, job, child.stage));
    ResetOK(id, job.runID, 0, max, parent);
    ResetOK(id, job.runID, 1, max, child);
    hide StageOK, Launched, JobOK;
    assert ShuffleShape(ResetJob(job));
  }

  lemma ResetPairInv(s: State, id: JobID)
    requires Inv(s) && id in s.jobs && ShuffleJob(s.jobs[id]) && s.jobs[id].stages[0].status == StageSucceeded
    requires s.jobs[id].stages[0].attempts < s.maxStageAttempts
    ensures var s1 := ResetPair(s, id, 0, 1); InvExcept(s1, id) && AllPending(id, s1.maxStageAttempts, s1.jobs[id])
  {
    var job := s.jobs[id];
    assert JobOK(s.launched, s.retired, s.maxStageAttempts, id, job);
    ResetPending(s.launched, s.retired, s.maxStageAttempts, id, job);
    ResetPairState(s, id);
    hide JobOK, AllPending, ResetPair, ShuffleJob;
    ResetApart(s, id, ResetJob(job));
  }

  function ResetJob(job: JobState): JobState
    requires 0 in job.stages && 1 in job.stages
  {
    job.(stages := job.stages[0 := ResetStage(job.stages[0])][1 := ResetStage(job.stages[1])])
  }

  lemma ResetPairState(s: State, id: JobID)
    requires id in s.jobs && 0 in s.jobs[id].stages && 1 in s.jobs[id].stages
    ensures ResetPair(s, id, 0, 1) ==
            s.(jobs := s.jobs[id := ResetJob(s.jobs[id])],
               retired := s.retired + {s.jobs[id].stages[0].attemptID, s.jobs[id].stages[1].attemptID})
  {
  }

  lemma ResetApart(s: State, id: JobID, job1: JobState)
    requires Inv(s) && id in s.jobs && 0 in s.jobs[id].stages && 1 in s.jobs[id].stages
    requires s.jobs[id].stages[0].status != StagePending && s.jobs[id].stages[1].status != StagePending
    requires s.jobs[id].stages[0].attemptID < |s.launched| && s.jobs[id].stages[1].attemptID < |s.launched|
    ensures InvExcept(s.(jobs := s.jobs[id := job1],
                         retired := s.retired + {s.jobs[id].stages[0].attemptID, s.jobs[id].stages[1].attemptID}), id)
  {
    hide JobOK;
    var job := s.jobs[id];
    var gone := {job.stages[0].attemptID, job.stages[1].attemptID};
    forall j | j in s.jobs && j != id ensures JobOK(s.launched, s.retired + gone, s.maxStageAttempts, j, s.jobs[j]) {
      OtherSurvives(s.launched, s.retired, s.maxStageAttempts, id, job, j, s.jobs[j]);
    }
  }

  /** Retiring one job's attempts touches no other job. */
  lemma OtherSurvives(launched: seq<TaskSet>, retired: set<StageAttemptID>, max: nat, id: JobID, job: JobState, j: JobID, other: JobState)
    requires JobOK(launched, retired, max, id, job) && JobOK(launched, retired, max, j, other) && id != j
    requires 0 in job.stages && 1 in job.stages
    requires job.stages[0].status != StagePending && job.stages[1].status != StagePending
    ensures JobOK(launched, retired + {job.stages[0].attemptID, job.stages[1].attemptID}, max, j, other)
  {
    hide JobOK;
    var gone := {job.stages[0].attemptID, job.stages[1].attemptID};
    forall k | k in other.stages && other.stages[k].status != StagePending ensures other.stages[k].attemptID !in gone {
      JobsDiffer(launched, retired, max, j, other, id, job, k, 0);
      JobsDiffer(launched, retired, max, j, other, id, job, k, 1);
    }
    JobFrame(launched, retired, [], gone, max, j, other);
    assert launched + [] == launched;
  }

  /** The job can start both of its stages over. */
  ghost predicate Recovering(s: State, id: JobID) {
    && id in s.jobs && !s.jobs[id].cancelled && ShuffleJob(s.jobs[id])
    && s.jobs[id].stages[0].status == StageSucceeded && s.jobs[id].stages[0].attempts < s.maxStageAttempts
    && forall k :: k in s.jobs[id].order ==> k in s.jobs[id].stages
  }

  ghost predicate FailsJob(s: State, id: JobID, after: State) {
    exists error :: error != ErrStageExhausted && error != ErrInputs && after == FailJob(s, id, error)
  }

  /** A failure report is ignored, ends its job, or starts both stages over. */
  lemma TaskFailedCases(s: State, report: TaskAttemptFailure)
    requires Inv(s) && Ordered(s)
    ensures var after := TaskFailed(s, report);
            || after == s || FailsJob(s, report.jobID, after)
            || (Recovering(s, report.jobID) && after == StartReady(ResetPair(s, report.jobID, 0, 1), report.jobID))
  {
    hide Inv, Ordered, StartReady, ResetPair, ValidFailure, NamesAccepted;
    var id, k := report.jobID, report.stageID;
    var after := TaskFailed(s, report);
    if PendingTask(s, id, k, report.attempt, report.partitionID) {
      if s.jobs[id].cancelled {
        assert after == FailJob(s, id, ErrContext);
      } else if report.kind != FailureShuffleInput {
        assert after == FailJob(s, id, ErrTaskFailed);
      } else if RecoveryError(s, report).Some? {
        var error := RecoveryError(s, report).value;
        assert error != ErrStageExhausted && error != ErrInputs;
        assert after == FailJob(s, id, error);
      } else {
        RecoverableShape(s, report);
        KnownOrder(s, id);
        hide RecoveryError, PendingTask;
      }
    }
  }

  lemma KnownOrder(s: State, id: JobID)
    requires Ordered(s) && id in s.jobs
    ensures forall k :: k in s.jobs[id].order ==> k in s.jobs[id].stages
  {
  }

  lemma TaskFailedInv(s: State, report: TaskAttemptFailure)
    requires Inv(s) && Ordered(s)
    ensures Inv(TaskFailed(s, report))
  {
    hide Inv, Ordered, TaskFailed, FailJob, StartReady, ResetPair;
    var id := report.jobID;
    TaskFailedCases(s, report);
    if FailsJob(s, id, TaskFailed(s, report)) {
      var error :| error != ErrStageExhausted && error != ErrInputs && TaskFailed(s, report) == FailJob(s, id, error);
      FailJobInv(s, id, error);
    } else if TaskFailed(s, report) != s {
      ResetPairInv(s, id);
      StartFirstInv(ResetPair(s, id, 0, 1), id);
    }
  }

  // ---------------------------------------------------------------- every event

  lemma StopInv(s: State)
    requires Inv(s)
    ensures Inv(Stop(s))
  {
    hide JobOK, LogOK;
  }

  lemma CancelContextInv(s: State, id: JobID)
    requires Inv(s)
    ensures Inv(CancelContext(s, id))
  {
    if id in s.jobs {
      var job := s.jobs[id];
      var job1 := job.(cancelled := true);
      ApartFromOne(s, id, job1);
      forall k | k in job1.stages
        ensures StageOK(id, job1.runID, k, s.maxStageAttempts, job1.stages[k])
        ensures Launched(s.launched, s.retired, id, k, job1.stages[k], InputsOf(id, job1, job1.stages[k].stage))
      {
        assert StageOK(id, job.runID, k, s.maxStageAttempts, job.stages[k]);
        assert Launched(s.launched, s.retired, id, k, job.stages[k], InputsOf(id, job, job.stages[k].stage));
      }
      hide StageOK, Launched, Inv;
      assert NarrowJob(job1) || ShuffleJob(job1);
      JobFromStages(s.launched, s.retired, s.maxStageAttempts, id, job1);
      hide JobOK, InvExcept;
      Together(s.(jobs := s.jobs[id := job1]), id);
    }
  }

  /** Every event keeps the invariant. */
  lemma StepInv(s: State, e: Event)
    requires Inv(s) && Ordered(s) && Enabled(s, e)
    ensures Inv(Step(s, e)) && Ordered(Step(s, e))
  {
    hide Inv, Ordered;
    match e {
      case JobSubmitted(id, nodes, action, cancelled) => SubmitInv(s, id, nodes, action, cancelled);
      case TaskSucceededEvent(report) => TaskSucceededInv(s, report);
      case TaskFailedEvent(report) => TaskFailedInv(s, report);
      case TaskSetFinishedEvent(id, k, attempt) =>
        FailJobInv(s, id, ErrContext);
        FailJobInv(s, id, ErrTaskSetEnded);
      case JobCanceled(id) => FailJobInv(s, id, ErrContext);
      case ContextCancelled(id) => CancelContextInv(s, id);
      case Stopping => StopInv(s);
    }
    InvOrdered(Step(s, e));
  }
}
