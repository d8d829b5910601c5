/** How a job advances in the joined system: a stage's task set is launched, handed
    out, reported and delivered task by task, and the last report moves the job on. */
module JobProgress {
  import opened Types
  import opened FiniteSets
  import opened Planner
  import opened Streams
  import opened JobMeaning
  import opened EndToEnd
  import opened EndToEndResult
  import opened OneRun
  import opened AcceptedReports
  import opened FifoProgress
  import Dag
  import DagInvariant
  import DagOutcomes
  import DagRuns
  import Fifo
  import FifoInvariant
  import FifoSteps
  import FifoOutcomes

  // ---------------------------------------------------------------- runs

  ghost predicate Healthy(w: World, s: System) {
    Inv(w, s) && Ready(s) && OfOneRun(s)
  }

  /** Some legal run leads from the one state to the other. */
  ghost predicate Leads(w: World, s: System, s1: System) {
    Inv(w, s) && Ready(s) && exists events :: Legal(w, s, events) && Run(w, s, events) == s1
  }

  lemma {:induction false} RunsJoin(w: World, s: System, a: seq<Event>, b: seq<Event>)
    requires Inv(w, s) && Ready(s) && Legal(w, s, a) && Legal(w, Run(w, s, a), b)
    ensures Legal(w, s, a + b) && Run(w, s, a + b) == Run(w, Run(w, s, a), b)
    decreases |a|
  {
    hide Inv, Ready, Enabled, Step;
    if a == [] {
      assert a + b == b;
    } else {
      StepInv(w, s, a[0]);
      assert (a + b)[0] == a[0] && (a + b)[1..] == a[1..] + b;
      RunsJoin(w, Step(w, s, a[0]), a[1..], b);
    }
  }

  lemma LeadsJoin(w: World, s: System, s1: System, s2: System)
    requires Leads(w, s, s1) && Leads(w, s1, s2)
    ensures Leads(w, s, s2)
  {
    hide Inv, Ready, Legal, Run;
    var a :| Legal(w, s, a) && Run(w, s, a) == s1;
    var b :| Legal(w, s1, b) && Run(w, s1, b) == s2;
    RunsJoin(w, s, a, b);
  }

  lemma LeadsStep(w: World, s: System, e: Event)
    requires Healthy(w, s) && Enabled(w, s, e)
    ensures Healthy(w, Step(w, s, e)) && Leads(w, s, Step(w, s, e))
  {
    hide Inv, Ready, OfOneRun, Enabled, Step;
    StepInv(w, s, e);
    StepKeepsRun(w, s, e);
    OneEvent(w, s, e);
  }

  lemma OneEvent(w: World, s: System, e: Event)
    requires Inv(w, s) && Ready(s) && Enabled(w, s, e)
    ensures Legal(w, s, [e]) && Run(w, s, [e]) == Step(w, s, e)
  {
    hide Inv, Ready, Enabled, Step;
    StepInv(w, s, e);
    assert [e][1..] == [];
    assert Legal(w, Step(w, s, e), []) && Run(w, Step(w, s, e), []) == Step(w, s, e);
  }

  lemma HealthyParts(w: World, s: System)
    requires Healthy(w, s)
    ensures Inv(w, s) && Ready(s) && OfOneRun(s)
    ensures DagInvariant.Inv(s.dag) && Dag.Ordered(s.dag) && FifoInvariant.Inv(s.fifo) && Fifo.Wired(s.fifo)
  {
    hide DagInvariant.Inv, Dag.Ordered, FifoInvariant.Inv, Fifo.Wired, OfOneRun;
  }

  // ---------------------------------------------------------------- where the job stands

  /** Stage `k` of job 0 runs under the newest attempt; its first `m` of `n` outputs are in. */
  ghost predicate StageAt(d: Dag.State, k: StageID, n: nat, m: nat) {
    && 0 in d.jobs && !d.jobs[0].cancelled && k in d.jobs[0].stages
    && var st := d.jobs[0].stages[k];
       && st.status == Dag.StageRunning && d.nextStageAttemptID == st.attemptID + 1 == |d.launched|
       && |st.tasks| == n && m < n && (forall p: int :: p in st.outputs <==> 0 <= p < m)
  }

  function AttemptOf(d: Dag.State, k: StageID): StageAttemptID
    requires 0 in d.jobs && k in d.jobs[0].stages
  {
    d.jobs[0].stages[k].attemptID
  }

  predicate SetsBelow(s: Fifo.State, n: nat) {
    forall key :: key in s.sets ==> key.attempt < n
  }

  predicate Submitted(s: System, sub: Submission) {
    0 in s.submissions && s.submissions[0] == sub
  }

  function InputsOf(d: Dag.State, k: StageID): Option<InputSnapshot>
    requires 0 in d.jobs && k in d.jobs[0].stages
  {
    if d.jobs[0].stages[k].attemptID < |d.launched| then d.launched[d.jobs[0].stages[k].attemptID].inputs else None
  }

  /** The task scheduler is as far with the stage as the DAG scheduler. */
  ghost predicate OnCourse(w: World, s: System, sub: Submission, k: StageID, n: nat, m: nat) {
    && Healthy(w, s) && Submitted(s, sub) && StageAt(s.dag, k, n, m) && SetsBelow(s.fifo, AttemptOf(s.dag, k) + 1)
    && Halfway(s.fifo, Fifo.SetKey(0, k, AttemptOf(s.dag, k)), InputsOf(s.dag, k), s.dag.jobs[0].stages[k].tasks, m)
  }

  /** The worker runs task `m` of the stage under attempt `id`. */
  ghost predicate Running(w: World, s: System, sub: Submission, k: StageID, n: nat, m: nat, id: TaskAttemptID) {
    && Healthy(w, s) && Submitted(s, sub) && StageAt(s.dag, k, n, m) && SetsBelow(s.fifo, AttemptOf(s.dag, k) + 1)
    && Underway(s.fifo, Fifo.SetKey(0, k, AttemptOf(s.dag, k)), InputsOf(s.dag, k), s.dag.jobs[0].stages[k].tasks, m, id)
  }

  /** What the running stage's tasks are, and what they were launched with. */
  lemma StageFactsNow(s: Dag.State, k: StageID, n: nat, m: nat)
    requires DagInvariant.Inv(s) && StageAt(s, k, n, m)
    ensures var st := s.jobs[0].stages[k];
            && DagInvariant.TasksOK(st) && st.remaining == n - m && st.stage.id == k
            && s.launched[st.attemptID] == TaskSet(DagInvariant.InputsOf(0, s.jobs[0], st.stage), 0, k, st.attemptID, st.tasks)
            && (InputsOf(s, k).Some? ==> ValidSnapshot(InputsOf(s, k).value))
  {
    var job := s.jobs[0];
    var st := job.stages[k];
    assert DagInvariant.JobOK(s.launched, s.retired, s.maxStageAttempts, 0, job);
    hide DagInvariant.Inv, DagInvariant.NarrowJob, DagInvariant.ShuffleJob;
    assert DagInvariant.StageOK(0, job.runID, k, s.maxStageAttempts, st);
    assert DagInvariant.Launched(s.launched, s.retired, 0, k, st, DagInvariant.InputsOf(0, job, st.stage));
    hide DagInvariant.StageOK, DagInvariant.Launched, DagInvariant.Stages, DagInvariant.JobOK, DagInvariant.TasksOK;
    CountOutputs(st.outputs, m);
  }

  lemma CountOutputs(outputs: map<PartitionID, TaskOutput>, m: nat)
    requires forall p: int :: p in outputs <==> 0 <= p < m
    ensures |outputs| == m
  {
    assert outputs.Keys == Upto(m);
  }

  // ---------------------------------------------------------------- launching a stage

  lemma StageAtParts(s: Dag.State, k: StageID, n: nat, m: nat)
    requires StageAt(s, k, n, m)
    ensures 0 in s.jobs && k in s.jobs[0].stages && |s.jobs[0].stages[k].tasks| == n
    ensures AttemptOf(s, k) == s.jobs[0].stages[k].attemptID < |s.launched|
  {
  }

  lemma StageSetIsValid(s: Dag.State, k: StageID, n: nat)
    requires DagInvariant.Inv(s) && StageAt(s, k, n, 0) && 0 in s.jobs && k in s.jobs[0].stages && AttemptOf(s, k) < |s.launched|
    ensures var set0 := s.launched[AttemptOf(s, k)];
            && Fifo.ValidTaskSet(set0) && InPartitionOrder(set0.tasks) && Fifo.KeyOf(set0) == Fifo.SetKey(0, k, AttemptOf(s, k))
            && set0.tasks == s.jobs[0].stages[k].tasks && set0.inputs == InputsOf(s, k)
  {
    hide *;
    StageAtParts(s, k, n, 0);
    StageFactsNow(s, k, n, 0);
    LaunchedSet(s, k);
    PlannedTasks(s.jobs[0].stages[k]);
    SetIsValid(s.launched[AttemptOf(s, k)]);
  }

  lemma LaunchedSet(s: Dag.State, k: StageID)
    requires 0 in s.jobs && k in s.jobs[0].stages && s.jobs[0].stages[k].attemptID < |s.launched|
    ensures AttemptOf(s, k) == s.jobs[0].stages[k].attemptID && InputsOf(s, k) == s.launched[s.jobs[0].stages[k].attemptID].inputs
    ensures var set0 := s.launched[s.jobs[0].stages[k].attemptID];
            Fifo.KeyOf(set0) == Fifo.SetKey(set0.jobID, set0.stageID, set0.stageAttemptID)
  {
  }

  lemma PlannedTasks(st: Dag.StageState)
    requires DagInvariant.TasksOK(st)
    ensures |st.tasks| > 0
    ensures forall i :: 0 <= i < |st.tasks| ==>
      st.tasks[i].id == st.tasks[0].id + i && st.tasks[i].partitionID == i && st.tasks[i].stageID == st.stage.id
  {
    forall i | 0 <= i < |st.tasks|
      ensures st.tasks[i].id == st.tasks[0].id + i && st.tasks[i].partitionID == i && st.tasks[i].stageID == st.stage.id
    {
      assert st.tasks[i] == TaskOf(st.stage, st.tasks[0].id + i, i);
    }
  }

  lemma SetIsValid(set0: TaskSet)
    requires |set0.tasks| > 0 && (set0.inputs.Some? ==> ValidSnapshot(set0.inputs.value))
    requires forall i :: 0 <= i < |set0.tasks| ==>
      set0.tasks[i].id == set0.tasks[0].id + i && set0.tasks[i].partitionID == i && set0.tasks[i].stageID == set0.stageID
    ensures Fifo.ValidTaskSet(set0) && InPartitionOrder(set0.tasks)
  {
    hide ValidSnapshot;
  }

  /** The stage's set is handed to the idle task scheduler. */
  lemma LaunchesStage(w: World, s: System, sub: Submission, k: StageID, n: nat)
    requires Healthy(w, s) && Submitted(s, sub) && StageAt(s.dag, k, n, 0) && Idle(s.fifo) && SetsBelow(s.fifo, AttemptOf(s.dag, k))
    ensures Ready(s) && Enabled(w, s, LaunchEvent(AttemptOf(s.dag, k), false))
    ensures var s1 := Step(w, s, LaunchEvent(AttemptOf(s.dag, k), false)); Leads(w, s, s1) && OnCourse(w, s1, sub, k, n, 0)
  {
    hide *;
    HealthyParts(w, s);
    StageAtParts(s.dag, k, n, 0);
    var i := AttemptOf(s.dag, k);
    LaunchIs(w, s, k, n);
    LeadsStep(w, s, LaunchEvent(i, false));
    StageSetIsValid(s.dag, k, n);
    KeyIsNew(s, k, i);
    Launches(s.fifo, s.dag.launched[i]);
    NowOnCourse(w, s, Step(w, s, LaunchEvent(i, false)), sub, k, n);
  }

  lemma LaunchIs(w: World, s: System, k: StageID, n: nat)
    requires Ready(s) && StageAt(s.dag, k, n, 0)
    ensures AttemptOf(s.dag, k) < |s.dag.launched| && Enabled(w, s, LaunchEvent(AttemptOf(s.dag, k), false))
    ensures var i := AttemptOf(s.dag, k);
            Step(w, s, LaunchEvent(i, false)) == s.(fifo := Fifo.Submit(s.fifo, s.dag.launched[i], false).state)
  {
    hide Ready, Fifo.Submit;
  }

  lemma KeyIsNew(s: System, k: StageID, i: nat)
    requires SetsBelow(s.fifo, i)
    ensures Fifo.SetKey(0, k, i) !in s.fifo.sets
  {
  }

  lemma NowOnCourse(w: World, s: System, s1: System, sub: Submission, k: StageID, n: nat)
    requires Healthy(w, s1) && Submitted(s, sub) && StageAt(s.dag, k, n, 0) && SetsBelow(s.fifo, AttemptOf(s.dag, k))
    requires s1 == s.(fifo := s1.fifo) && s1.fifo.sets.Keys == s.fifo.sets.Keys + {Fifo.SetKey(0, k, AttemptOf(s.dag, k))}
    requires Halfway(s1.fifo, Fifo.SetKey(0, k, AttemptOf(s.dag, k)), InputsOf(s.dag, k), s.dag.jobs[0].stages[k].tasks, 0)
    ensures OnCourse(w, s1, sub, k, n, 0)
  {
    hide Healthy, Halfway, InputsOf;
  }

  // ---------------------------------------------------------------- handing out a task

  const OFFER := FifoEvent(Fifo.OfferEvent(W, 1, [], 0))

  /** The worker is given the next task under a new attempt, which has published nothing. */
  lemma HandsOutTask(w: World, s: System, sub: Submission, k: StageID, n: nat, m: nat)
    requires OnCourse(w, s, sub, k, n, m)
    ensures Ready(s) && Enabled(w, s, OFFER)
    ensures var s1 := Step(w, s, OFFER);
            && Leads(w, s, s1) && Running(w, s1, sub, k, n, m, s.fifo.nextAttempt) && s1.dag == s.dag && s1.published == s.published
            && forall x :: x in s1.published ==> x.taskAttemptID != s.fifo.nextAttempt
  {
    hide *;
    CourseParts(w, s, sub, k, n, m);
    HealthyParts(w, s);
    OfferIs(w, s);
    LeadsStep(w, s, OFFER);
    HandsOut(s.fifo, Fifo.SetKey(0, k, AttemptOf(s.dag, k)), InputsOf(s.dag, k), s.dag.jobs[0].stages[k].tasks, m);
    NowRunning(w, s, Step(w, s, OFFER), sub, k, n, m);
    NothingPublished(s);
  }

  lemma CourseParts(w: World, s: System, sub: Submission, k: StageID, n: nat, m: nat)
    requires OnCourse(w, s, sub, k, n, m)
    ensures Healthy(w, s) && Submitted(s, sub) && StageAt(s.dag, k, n, m) && SetsBelow(s.fifo, AttemptOf(s.dag, k) + 1)
    ensures 0 in s.dag.jobs && k in s.dag.jobs[0].stages && m < n == |s.dag.jobs[0].stages[k].tasks|
    ensures Halfway(s.fifo, Fifo.SetKey(0, k, AttemptOf(s.dag, k)), InputsOf(s.dag, k), s.dag.jobs[0].stages[k].tasks, m)
  {
    hide Healthy, Halfway, InputsOf, AttemptOf;
  }

  lemma OfferIs(w: World, s: System)
    requires Ready(s)
    ensures Fifo.Wired(s.fifo) && Enabled(w, s, OFFER)
    ensures Step(w, s, OFFER) == s.(fifo := Fifo.Offer(s.fifo, W, 1, [], 0).state)
  {
    hide Fifo.Offer, Fifo.Wired, Dag.Ordered;
  }

  lemma NowRunning(w: World, s: System, s1: System, sub: Submission, k: StageID, n: nat, m: nat)
    requires OnCourse(w, s, sub, k, n, m) && Healthy(w, s1)
    requires s1 == s.(fifo := s1.fifo) && s1.fifo.sets.Keys == s.fifo.sets.Keys
    requires Underway(s1.fifo, Fifo.SetKey(0, k, AttemptOf(s.dag, k)), InputsOf(s.dag, k), s.dag.jobs[0].stages[k].tasks, m, s.fifo.nextAttempt)
    ensures Running(w, s1, sub, k, n, m, s.fifo.nextAttempt)
  {
    hide Healthy, Halfway, Underway, InputsOf;
  }

  lemma NothingPublished(s: System)
    requires OfOneRun(s) && s.fifo.nextAttempt !in s.fifo.attempts
    ensures forall x :: x in s.published ==> x.taskAttemptID != s.fifo.nextAttempt
  {
    hide KnownRun;
  }

  // ---------------------------------------------------------------- a task reported and delivered

  function Given(s: System, k: StageID, m: nat, id: TaskAttemptID): Fifo.TaskAssignment
    requires 0 in s.dag.jobs && k in s.dag.jobs[0].stages && m < |s.dag.jobs[0].stages[k].tasks|
  {
    TheAssignment(s.fifo, Fifo.SetKey(0, k, AttemptOf(s.dag, k)), InputsOf(s.dag, k), s.dag.jobs[0].stages[k].tasks[m], id)
  }

  lemma RunningParts(w: World, s: System, sub: Submission, k: StageID, n: nat, m: nat, id: TaskAttemptID)
    requires Running(w, s, sub, k, n, m, id)
    ensures Healthy(w, s) && Submitted(s, sub) && StageAt(s.dag, k, n, m) && SetsBelow(s.fifo, AttemptOf(s.dag, k) + 1)
    ensures 0 in s.dag.jobs && k in s.dag.jobs[0].stages && m < n == |s.dag.jobs[0].stages[k].tasks|
    ensures Underway(s.fifo, Fifo.SetKey(0, k, AttemptOf(s.dag, k)), InputsOf(s.dag, k), s.dag.jobs[0].stages[k].tasks, m, id)
  {
    hide Healthy, Underway, InputsOf, AttemptOf;
  }

  /** Its assignment lives at the task scheduler and is awaited at the DAG scheduler. */
  lemma RunningIsAwaited(w: World, s: System, sub: Submission, k: StageID, n: nat, m: nat, id: TaskAttemptID)
    requires Running(w, s, sub, k, n, m, id)
    ensures 0 in s.dag.jobs && k in s.dag.jobs[0].stages && m < |s.dag.jobs[0].stages[k].tasks|
    ensures var a := Given(s, k, m, id);
            && Assigned(w, s, a) && FifoOutcomes.Live(s.fifo, id) && a.identity.id == id && a.task.partitionID == m
            && a.jobID == 0 && a.stageID == k
            && DagOutcomes.Awaited(s.dag, 0, k, a.identity, m) && !s.dag.jobs[0].cancelled
  {
    hide *;
    RunningParts(w, s, sub, k, n, m, id);
    HealthyParts(w, s);
    StageFactsNow(s.dag, k, n, m);
    var key := Fifo.SetKey(0, k, AttemptOf(s.dag, k));
    UnderwayIsLive(s.fifo, key, InputsOf(s.dag, k), s.dag.jobs[0].stages[k].tasks, m, id);
    GivenFields(s, k, m, id);
    TaskAt(s.dag.jobs[0].stages[k], m);
    IsAssigned(w, s, Given(s, k, m, id));
    IsAwaited(s, k, n, m, Given(s, k, m, id));
  }

  lemma GivenFields(s: System, k: StageID, m: nat, id: TaskAttemptID)
    requires 0 in s.dag.jobs && k in s.dag.jobs[0].stages && m < |s.dag.jobs[0].stages[k].tasks|
    ensures var t := s.dag.jobs[0].stages[k].tasks[m];
            Given(s, k, m, id) == Fifo.TaskAssignment(InputsOf(s.dag, k), s.fifo.runID, 0, k,
                                                      TaskAttemptIdentity(id, t.id, AttemptOf(s.dag, k)), t, W)
    ensures Given(s, k, m, id)
            == TheAssignment(s.fifo, Fifo.SetKey(0, k, AttemptOf(s.dag, k)), InputsOf(s.dag, k), s.dag.jobs[0].stages[k].tasks[m], id)
  {
    hide InputsOf, AttemptOf;
  }

  lemma TaskAt(st: Dag.StageState, m: nat)
    requires DagInvariant.TasksOK(st) && m < |st.tasks|
    ensures st.tasks[m] == TaskOf(st.stage, st.tasks[m].id, m) && st.tasks[m].partitionID == m
    ensures |st.tasks| == st.stage.numPartitions
  {
    assert st.tasks[m] == TaskOf(st.stage, st.tasks[0].id + m, m);
  }

  lemma IsAssigned(w: World, s: System, a: Fifo.TaskAssignment)
    requires Inv(w, s) && a.identity.id in s.fifo.attempts && s.fifo.attempts[a.identity.id].assignment == a
    ensures Assigned(w, s, a)
  {
    hide Inv;
  }

  lemma IsAwaited(s: System, k: StageID, n: nat, m: nat, a: Fifo.TaskAssignment)
    requires StageAt(s.dag, k, n, m) && a.identity.stageAttemptID == AttemptOf(s.dag, k)
    requires a.identity.taskID == s.dag.jobs[0].stages[k].tasks[m].id
    ensures 0 in s.dag.jobs && DagOutcomes.Awaited(s.dag, 0, k, a.identity, m) && !s.dag.jobs[0].cancelled
  {
  }

  /** After its report is granted, delivered and handled, the task is done at both
      schedulers: the DAG scheduler has moved on, and the task scheduler turns to the
      next task of the set or has ended it. */
  ghost predicate Handled(w: World, s: System, s1: System, sub: Submission, k: StageID, n: nat, m: nat, output: TaskOutput)
    requires 0 in s.dag.jobs && k in s.dag.jobs[0].stages
  {
    && Leads(w, s, s1) && Healthy(w, s1) && Submitted(s1, sub) && SetsBelow(s1.fifo, AttemptOf(s.dag, k) + 1)
    && DagOutcomes.MovesOn(s.dag, s1.dag, 0, k, m, output)
    && if m + 1 < n then
         Halfway(s1.fifo, Fifo.SetKey(0, k, AttemptOf(s.dag, k)), InputsOf(s.dag, k), s.dag.jobs[0].stages[k].tasks, m + 1)
       else Idle(s1.fifo)
  }

  lemma TaskIsHandled(w: World, s: System, sub: Submission, k: StageID, n: nat, m: nat, id: TaskAttemptID, output: TaskOutput)
    returns (s3: System)
    requires Running(w, s, sub, k, n, m, id) && 0 in s.dag.jobs && k in s.dag.jobs[0].stages && m < |s.dag.jobs[0].stages[k].tasks|
    requires var a := Given(s, k, m, id);
             Honest(w, s, ReportOf(a, output)) && AcceptableOutput(output, a.runID, a.jobID, a.task, a.identity)
    ensures Handled(w, s, s3, sub, k, n, m, output)
  {
    hide *;
    var key, report := Fifo.SetKey(0, k, AttemptOf(s.dag, k)), ReportOf(Given(s, k, m, id), output);
    RunningParts(w, s, sub, k, n, m, id);
    HealthyParts(w, s);
    RunningIsAwaited(w, s, sub, k, n, m, id);
    GivenFields(s, k, m, id);
    UnderwayIsLive(s.fifo, key, InputsOf(s.dag, k), s.dag.jobs[0].stages[k].tasks, m, id);
    OutputIsGranted(w, s, Given(s, k, m, id), output);
    ReportIs(w, s, report);
    var e1, e2, e3 := FifoEvent(Fifo.SuccessEvent(report)), DeliverEvent(key), DagEvent(Dag.TaskSucceededEvent(report));
    var s1 := Step(w, s, e1);
    LeadsStep(w, s, e1);
    Delivers(s.fifo, s1.fifo, key, InputsOf(s.dag, k), s.dag.jobs[0].stages[k].tasks, m, id, report);
    HealthyParts(w, s1);
    ReportFields(Given(s, k, m, id), output);
    DeliverIs(w, s1, key, report);
    var s2 := Step(w, s1, e2);
    LeadsStep(w, s1, e2);
    HealthyParts(w, s2);
    AnswerIs(w, s2, report);
    s3 := Step(w, s2, e3);
    LeadsStep(w, s2, e3);
    LeadsJoin(w, s, s1, s2);
    LeadsJoin(w, s, s2, s3);
    OutputIsStored(w, s, Given(s, k, m, id), output);
    NowHandled(w, s, s2, s3, sub, k, n, m, output);
  }

  lemma ReportIs(w: World, s: System, report: TaskAttemptSuccess)
    requires Ready(s) && Honest(w, s, report)
    ensures var e := FifoEvent(Fifo.SuccessEvent(report));
            Enabled(w, s, e) && Fifo.Wired(s.fifo) && Step(w, s, e) == s.(fifo := Fifo.ReportSuccess(s.fifo, report).state)
  {
    hide Honest, Fifo.ReportSuccess, Fifo.Wired, Dag.Ordered;
  }

  lemma DeliverIs(w: World, s: System, key: Fifo.SetKey, report: TaskAttemptSuccess)
    requires Ready(s) && key in s.fifo.sets && Fifo.SuccessReport(report) in s.fifo.sets[key].reports
    requires report.jobID == key.job && report.stageID == key.stage && report.attempt.stageAttemptID == key.attempt
    ensures Enabled(w, s, DeliverEvent(key))
    ensures var s1 := Step(w, s, DeliverEvent(key));
            s1 == s.(fifo := Fifo.Drain(s.fifo, key), inbox := s1.inbox) && report in s1.inbox
  {
    hide Ready, Fifo.Drain;
  }

  lemma AnswerIs(w: World, s: System, report: TaskAttemptSuccess)
    requires Ready(s) && report in s.inbox
    ensures var e := DagEvent(Dag.TaskSucceededEvent(report));
            Enabled(w, s, e) && Dag.Ordered(s.dag) && Step(w, s, e) == s.(dag := Dag.TaskSucceeded(s.dag, report))
  {
    hide Dag.TaskSucceeded, Dag.Ordered, Fifo.Wired;
  }

  lemma NowHandled(w: World, s: System, s2: System, s3: System, sub: Submission, k: StageID, n: nat, m: nat, output: TaskOutput)
    requires 0 in s.dag.jobs && k in s.dag.jobs[0].stages && Submitted(s, sub) && SetsBelow(s.fifo, AttemptOf(s.dag, k) + 1)
    requires Leads(w, s, s3) && Healthy(w, s3) && s2.submissions == s.submissions && s2.fifo.sets.Keys == s.fifo.sets.Keys
    requires s3 == s2.(dag := s3.dag) && DagOutcomes.MovesOn(s.dag, s3.dag, 0, k, m, output)
    requires n == |s.dag.jobs[0].stages[k].tasks|
    requires if m + 1 < n then
               Halfway(s2.fifo, Fifo.SetKey(0, k, AttemptOf(s.dag, k)), InputsOf(s.dag, k), s.dag.jobs[0].stages[k].tasks, m + 1)
             else Idle(s2.fifo)
    ensures Handled(w, s, s3, sub, k, n, m, output)
  {
    hide Healthy, Leads, Halfway, Idle, DagOutcomes.MovesOn, InputsOf, AttemptOf;
  }

  /** The scheduler keeps its run ID. */
  lemma {:induction false} RunKeepsID(w: World, s: System, events: seq<Event>)
    requires Inv(w, s) && Ready(s) && Legal(w, s, events)
    ensures Run(w, s, events).fifo.runID == s.fifo.runID
    decreases |events|
  {
    hide Inv, Ready, Step, Enabled;
    if events != [] {
      StepInv(w, s, events[0]);
      StepKeepsID(w, s, events[0]);
      RunKeepsID(w, Step(w, s, events[0]), events[1..]);
    }
  }

  lemma StepKeepsID(w: World, s: System, e: Event)
    requires Inv(w, s) && Ready(s) && Enabled(w, s, e)
    ensures Step(w, s, e).fifo.runID == s.fifo.runID
  {
    assert FifoInvariant.Inv(s.fifo) && Fifo.Wired(s.fifo);
    if e.FifoEvent? { FifoSteps.StepInv(s.fifo, e.f); }
    hide Inv, FifoInvariant.Inv, Fifo.Wired, Honest, Runs, WritesOf, Dag.Step, Dag.Ordered, Dag.Enabled, Fifo.Step, Delivered;
  }

  lemma LeadsKeepsID(w: World, s: System, s1: System)
    requires Leads(w, s, s1)
    ensures s1.fifo.runID == s.fifo.runID
  {
    hide Inv, Ready, Legal, Run;
    var events :| Legal(w, s, events) && Run(w, s, events) == s1;
    RunKeepsID(w, s, events);
  }

  // ---------------------------------------------------------------- from one task to the next

  lemma HandledParts(w: World, s: System, s1: System, sub: Submission, k: StageID, n: nat, m: nat, output: TaskOutput)
    requires 0 in s.dag.jobs && k in s.dag.jobs[0].stages && Handled(w, s, s1, sub, k, n, m, output)
    ensures Leads(w, s, s1) && Healthy(w, s1) && Submitted(s1, sub) && SetsBelow(s1.fifo, AttemptOf(s.dag, k) + 1)
    ensures DagOutcomes.MovesOn(s.dag, s1.dag, 0, k, m, output)
    ensures m + 1 < n ==> Halfway(s1.fifo, Fifo.SetKey(0, k, AttemptOf(s.dag, k)), InputsOf(s.dag, k), s.dag.jobs[0].stages[k].tasks, m + 1)
    ensures m + 1 >= n ==> Idle(s1.fifo)
  {
    hide Leads, Healthy, Submitted, SetsBelow, DagOutcomes.MovesOn, Halfway, Idle, AttemptOf, InputsOf;
  }

  /** The stage has more tasks: the next one's turn comes. */
  lemma NextTask(w: World, s: System, s1: System, sub: Submission, k: StageID, n: nat, m: nat, output: TaskOutput)
    requires 0 in s.dag.jobs && k in s.dag.jobs[0].stages && Handled(w, s, s1, sub, k, n, m, output)
    requires DagInvariant.Inv(s.dag) && StageAt(s.dag, k, n, m) && m + 1 < n
    ensures OnCourse(w, s1, sub, k, n, m + 1)
  {
    hide *;
    HandledParts(w, s, s1, sub, k, n, m, output);
    StageFactsNow(s.dag, k, n, m);
    StageMovesOn(s.dag, s1.dag, k, n, m, output);
    NextOnCourse(w, s, s1, sub, k, n, m);
  }

  lemma StageMovesOn(d: Dag.State, d1: Dag.State, k: StageID, n: nat, m: nat, output: TaskOutput)
    requires StageAt(d, k, n, m) && m + 1 < n && 0 in d.jobs && k in d.jobs[0].stages && d.jobs[0].stages[k].remaining == n - m
    requires DagOutcomes.MovesOn(d, d1, 0, k, m, output)
    ensures StageAt(d1, k, n, m + 1) && 0 in d1.jobs && k in d1.jobs[0].stages
    ensures AttemptOf(d1, k) == AttemptOf(d, k) && InputsOf(d1, k) == InputsOf(d, k)
    ensures d1.jobs[0].stages[k].tasks == d.jobs[0].stages[k].tasks
  {
    hide DagOutcomes.ChildStarted, DagOutcomes.LearntRun, DagOutcomes.OthersStay;
    assert DagOutcomes.Stored(d, d1, 0, k, m, output);
  }

  lemma NextOnCourse(w: World, s: System, s1: System, sub: Submission, k: StageID, n: nat, m: nat)
    requires 0 in s.dag.jobs && k in s.dag.jobs[0].stages && 0 in s1.dag.jobs && k in s1.dag.jobs[0].stages
    requires Healthy(w, s1) && Submitted(s1, sub) && SetsBelow(s1.fifo, AttemptOf(s.dag, k) + 1) && StageAt(s1.dag, k, n, m + 1)
    requires AttemptOf(s1.dag, k) == AttemptOf(s.dag, k) && InputsOf(s1.dag, k) == InputsOf(s.dag, k)
    requires s1.dag.jobs[0].stages[k].tasks == s.dag.jobs[0].stages[k].tasks
    requires Halfway(s1.fifo, Fifo.SetKey(0, k, AttemptOf(s.dag, k)), InputsOf(s.dag, k), s.dag.jobs[0].stages[k].tasks, m + 1)
    ensures OnCourse(w, s1, sub, k, n, m + 1)
  {
    hide Healthy, Submitted, SetsBelow, StageAt, AttemptOf, InputsOf, Halfway;
  }

  /** The map stage is done: the result stage starts if it is as wide as the shuffle. */
  lemma ChildStarts(d: Dag.State, d1: Dag.State, n: nat, m: nat, output: TaskOutput)
    requires StageAt(d, 0, n, m) && m + 1 == n && 0 in d.jobs && 0 in d.jobs[0].stages && d.jobs[0].stages[0].remaining == n - m
    requires d.jobs[0].resultStageID == 1 && 1 in d.jobs[0].stages && d.jobs[0].stages[0].stage.shuffleWrite.Some?
    requires d.jobs[0].stages[1].stage.numPartitions == d.jobs[0].stages[0].stage.shuffleWrite.value.partitioner.numPartitions
    requires d.jobs[0].stages[1].outputs == map[] && |d.jobs[0].stages[1].tasks| > 0 && |d1.launched| == d1.nextStageAttemptID
    requires DagOutcomes.MovesOn(d, d1, 0, 0, m, output)
    ensures StageAt(d1, 1, |d.jobs[0].stages[1].tasks|, 0) && 0 in d1.jobs && 1 in d1.jobs[0].stages && AttemptOf(d1, 1) == AttemptOf(d, 0) + 1
  {
    hide DagOutcomes.LearntRun, DagOutcomes.OthersStay;
    assert DagOutcomes.Stored(d, d1, 0, 0, m, output) && DagOutcomes.ChildStarted(d, d1, 0);
    assert 0 in d1.jobs[0].stages.Keys && 1 in d1.jobs[0].stages.Keys;
  }

  /** The last result: the job is answered. */
  lemma LastAnswers(d: Dag.State, d1: Dag.State, k: StageID, n: nat, m: nat, output: TaskOutput)
    requires StageAt(d, k, n, m) && m + 1 == n && 0 in d.jobs && k in d.jobs[0].stages && d.jobs[0].stages[k].remaining == n - m
    requires d.jobs[0].resultStageID == k && DagOutcomes.MovesOn(d, d1, 0, k, m, output)
    ensures DagRuns.GotSuccess(d1, 0)
  {
    hide DagOutcomes.Stored, DagOutcomes.ChildStarted, DagOutcomes.OthersStay, DagRuns.GotSuccess;
  }
}
