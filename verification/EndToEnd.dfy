/** The whole system: the driver's DAG scheduler, the FIFO task scheduler, honest
    but unreliable workers and the shuffle store, in any interleaving. */
module EndToEnd {
  import opened Types
  import opened Lineage
  import opened Planner
  import opened Streams
  import opened Evaluation
  import opened Store
  import opened JobMeaning
  import Dag
  import DagInvariant
  import DagSteps
  import DagTheorems
  import DagRuns
  import DagRecovery
  import Fifo
  import FifoSets
  import FifoInvariant
  import FifoSteps
  import FifoRuns

  datatype Submission = Submission(nodes: Nodes, action: ActionSpec)

  /** `inbox` holds every success handed to the DAG scheduler's observers, which it
      may see late, in any order or again; `published` every map output ever
      published. Neither forgets. */
  datatype System = System(
    dag: Dag.State, fifo: Fifo.State, submissions: map<JobID, Submission>, inbox: iset<TaskAttemptSuccess>,
    published: Published)

  /** Launching and cancelling task sets, losing messages and workers, and damage to
      stored buckets are all free to happen at any time. */
  datatype Event =
    | DagEvent(e: Dag.Event)
    | LaunchEvent(i: nat, cancelled: bool)
    | FifoEvent(f: Fifo.Event)
    | DeliverEvent(key: Fifo.SetKey)
    | PublishEvent(id: TaskAttemptID, writes: seq<KV>)

  // ---------------------------------------------------------------- honest workers

  predicate Names(a: Fifo.TaskAssignment, r: TaskAttemptSuccess) {
    a.jobID == r.jobID && a.stageID == r.stageID && a.identity == r.attempt && a.task.partitionID == r.partitionID
    && a.workerID == r.workerID
  }

  /** A success that names an assignment reports what its task computes. */
  ghost predicate Honest(w: World, s: System, r: TaskAttemptSuccess) {
    r.attempt.id in s.fifo.attempts && Names(s.fifo.attempts[r.attempt.id].assignment, r) ==>
      var a := s.fifo.attempts[r.attempt.id].assignment;
      Yields(w, s.published, a.task, a.inputs, r.output)
  }

  /** The writes an assigned map attempt may publish, once. */
  ghost predicate Publishable(w: World, s: System, id: TaskAttemptID, writes: seq<KV>) {
    id in s.fifo.attempts &&
    var a := s.fifo.attempts[id].assignment;
    a.task.shuffleWrite.Some? && IdentityOf(a.runID, a.jobID, a.task, a.identity) !in s.published && Encodable(w.codec, writes)
    && exists out :: Runs(w, s.published, a.task, a.inputs, out) && WritesOf(w, a.task.shuffleWrite.value, out) == Ok(writes)
  }

  ghost predicate Enabled(w: World, s: System, e: Event) {
    match e
    case DagEvent(d) =>
      Dag.Enabled(s.dag, d) && (d.TaskSucceededEvent? ==> d.success in s.inbox)
      && (d.JobSubmitted? ==> d.id !in s.submissions)
    case LaunchEvent(i, _) => i < |s.dag.launched|
    case FifoEvent(f) => !f.SubmitEvent? && !f.DrainEvent? && (f.SuccessEvent? ==> Honest(w, s, f.success))
    case DeliverEvent(_) => true
    case PublishEvent(id, writes) => Publishable(w, s, id, writes)
  }

  // ---------------------------------------------------------------- steps

  /** What a set's observer passes on. */
  ghost function Delivered(s: System, key: Fifo.SetKey): iset<TaskAttemptSuccess> {
    iset r | key in s.fifo.sets && Fifo.SuccessReport(r) in s.fifo.sets[key].reports
             && r.jobID == key.job && r.stageID == key.stage && r.attempt.stageAttemptID == key.attempt
  }

  ghost predicate Ready(s: System) {
    Dag.Ordered(s.dag) && Fifo.Wired(s.fifo)
  }

  ghost function Step(w: World, s: System, e: Event): System
    requires Ready(s) && Enabled(w, s, e)
  {
    match e
    case DagEvent(d) =>
      s.(dag := Dag.Step(s.dag, d),
         submissions := if d.JobSubmitted? then s.submissions[d.id := Submission(d.nodes, d.action)] else s.submissions)
    case LaunchEvent(i, cancelled) => s.(fifo := Fifo.Submit(s.fifo, s.dag.launched[i], cancelled).state)
    case FifoEvent(f) => s.(fifo := Fifo.Step(s.fifo, f))
    case DeliverEvent(key) => s.(fifo := Fifo.Drain(s.fifo, key), inbox := s.inbox + Delivered(s, key))
    case PublishEvent(id, writes) =>
      var a := s.fifo.attempts[id].assignment;
      s.(published := s.published[IdentityOf(a.runID, a.jobID, a.task, a.identity) := writes])
  }

  // ---------------------------------------------------------------- the invariant

  /** Every set of the task scheduler is one the DAG scheduler launched. */
  predicate SetFits(launched: seq<TaskSet>, key: Fifo.SetKey, t: Fifo.FifoTaskSet) {
    && key.attempt < |launched| && Fifo.KeyOf(launched[key.attempt]) == key && t.inputs == launched[key.attempt].inputs
    && forall i :: 0 <= i < |t.tasks| ==> t.tasks[i].task in launched[key.attempt].tasks
  }

  predicate SetsFit(launched: seq<TaskSet>, fifo: Fifo.State) {
    forall key :: key in fifo.sets ==> SetFits(launched, key, fifo.sets[key])
  }

  ghost predicate LogGood(w: World, launched: seq<TaskSet>, published: Published, fifo: Fifo.State) {
    forall key, r :: key in fifo.sets && Fifo.SuccessReport(r) in FifoSets.Log(fifo.sets[key]) ==> Good(w, launched, published, r)
  }

  ghost predicate InboxGood(w: World, launched: seq<TaskSet>, published: Published, inbox: iset<TaskAttemptSuccess>) {
    forall r :: r in inbox ==> Good(w, launched, published, r)
  }

  ghost predicate StoreGood(w: World, launched: seq<TaskSet>, published: Published) {
    forall a :: a in published ==> GoodWrite(w, launched, published, a)
  }

  ghost predicate JobFits(names: FunctionNames, subs: map<JobID, Submission>, id: JobID, job: Dag.JobState) {
    id in subs && Dag.ExecutionPlan(names, subs[id].nodes, subs[id].action).Some? && job.action == subs[id].action
    && DagRecovery.Follows(job, Dag.ExecutionPlan(names, subs[id].nodes, subs[id].action).value)
  }

  ghost predicate JobsFit(dag: Dag.State, subs: map<JobID, Submission>) {
    && (forall id :: id in dag.jobs ==> JobFits(dag.functions, subs, id, dag.jobs[id]))
    && (forall id :: id in dag.responses ==> id in subs)
  }

  /** Every map output a launched task set is to read describes what was published. */
  ghost predicate SetReadsGood(w: World, published: Published, set0: TaskSet) {
    set0.inputs.Some? ==>
      forall i :: 0 <= i < |set0.inputs.value.outputs| ==> Describes(w, published, set0.inputs.value.outputs[i])
  }

  ghost predicate InputsGood(w: World, launched: seq<TaskSet>, published: Published) {
    forall i :: 0 <= i < |launched| ==> SetReadsGood(w, published, launched[i])
  }

  /** What the submitted lineage's functions must satisfy. */
  ghost predicate Covered(w: World, sense: Sense, sub: Submission) {
    Founded(sub.nodes, sub.action.targetRDD) ==> Lawful(w, sense, ChainOf(sub.nodes, sub.action.targetRDD))
  }

  /** The answer is computed from all partitions of the submitted lineage. */
  ghost predicate Right(w: World, sub: Submission, result: Dag.JobResult) {
    && Founded(sub.nodes, sub.action.targetRDD) && sub.action.kind != ActionUnsupported
    && var c := ChainOf(sub.nodes, sub.action.targetRDD);
       WellFormed(c) && ReaderFits(c, c.width) && ComputedAs(w, c, sub.action, result)
  }

  ghost predicate AnswersRight(w: World, s: System) {
    forall id :: id in s.dag.responses && DagRuns.GotSuccess(s.dag, id) && id in s.submissions ==>
      Right(w, s.submissions[id], s.dag.responses[id][0].result)
  }

  ghost predicate Inv(w: World, s: System) {
    && DagInvariant.Inv(s.dag) && Dag.Ordered(s.dag) && FifoInvariant.Inv(s.fifo) && Fifo.Wired(s.fifo)
    && SetsFit(s.dag.launched, s.fifo)
    && LogGood(w, s.dag.launched, s.published, s.fifo) && InboxGood(w, s.dag.launched, s.published, s.inbox)
    && StoreGood(w, s.dag.launched, s.published) && InputsGood(w, s.dag.launched, s.published)
    && DagRecovery.Sourced(s.inbox, s.dag) && JobsFit(s.dag, s.submissions)
  }

  // ---------------------------------------------------------------- history only grows

  predicate Extends(published: Published, more: Published) {
    forall a :: a in published ==> a in more && more[a] == published[a]
  }

  lemma ReadsMore(w: World, published: Published, more: Published, p: int, inputs: Option<InputSnapshot>, buckets: Option<seq<Stream>>)
    requires ReadsInputs(w, published, p, inputs, buckets) && Extends(published, more)
    ensures ReadsInputs(w, more, p, inputs, buckets)
  {
    if inputs.Some? {
      forall i | 0 <= i < |inputs.value.outputs|
        ensures ReadsBucket(w, more, inputs.value.outputs[i], p, buckets.value[i])
      {
        assert ReadsBucket(w, published, inputs.value.outputs[i], p, buckets.value[i]);
      }
    }
  }

  lemma RunsMore(w: World, published: Published, more: Published, t: Task, inputs: Option<InputSnapshot>, s: Stream)
    requires Runs(w, published, t, inputs, s) && Extends(published, more)
    ensures Runs(w, more, t, inputs, s)
  {
    var buckets :| ReadsInputs(w, published, t.partitionID, inputs, buckets)
                   && Build(w, t.partitionID, t.numPartitions, t.operations, buckets, None) == Ok(s);
    ReadsMore(w, published, more, t.partitionID, inputs, buckets);
  }

  lemma DescribesMore(w: World, published: Published, more: Published, o: MapOutput)
    requires Describes(w, published, o) && Extends(published, more)
    ensures Describes(w, more, o)
  {
    hide Manifest, Encodable;
  }

  lemma YieldsMore(w: World, published: Published, more: Published, t: Task, inputs: Option<InputSnapshot>, output: TaskOutput)
    requires Yields(w, published, t, inputs, output) && Extends(published, more)
    ensures Yields(w, more, t, inputs, output)
  {
    if t.kind == StageShuffleMap {
      DescribesMore(w, published, more, output.shuffleOutput.value);
    } else {
      var items :| Runs(w, published, t, inputs, Stream(items, None)) && output == ActionOutput(t.finalAction.value, items);
      RunsMore(w, published, more, t, inputs, Stream(items, None));
    }
  }

  lemma GoodMore(w: World, launched: seq<TaskSet>, published: Published, later: seq<TaskSet>, more: Published, r: TaskAttemptSuccess)
    requires Good(w, launched, published, r) && launched <= later && Extends(published, more)
    ensures Good(w, later, more, r)
  {
    var t :| TaskIn(launched, r.attempt.stageAttemptID, r.jobID, t) && t.id == r.attempt.taskID && t.partitionID == r.partitionID
             && Yields(w, published, t, launched[r.attempt.stageAttemptID].inputs, r.output);
    YieldsMore(w, published, more, t, launched[r.attempt.stageAttemptID].inputs, r.output);
    assert TaskIn(later, r.attempt.stageAttemptID, r.jobID, t);
  }

  lemma GoodWriteMore(w: World, launched: seq<TaskSet>, published: Published, later: seq<TaskSet>, more: Published, a: AttemptIdentity)
    requires GoodWrite(w, launched, published, a) && launched <= later && Extends(published, more)
    ensures GoodWrite(w, later, more, a)
  {
    var t, out :| TaskIn(launched, a.stageAttemptID, a.jobID, t) && t.id == a.taskID && t.partitionID == a.mapPartitionID
                  && t.shuffleWrite.Some? && Runs(w, published, t, launched[a.stageAttemptID].inputs, out)
                  && WritesOf(w, t.shuffleWrite.value, out) == Ok(published[a]);
    RunsMore(w, published, more, t, launched[a.stageAttemptID].inputs, out);
    assert TaskIn(later, a.stageAttemptID, a.jobID, t);
  }

  lemma SetReadsMore(w: World, published: Published, more: Published, set0: TaskSet)
    requires SetReadsGood(w, published, set0) && Extends(published, more)
    ensures SetReadsGood(w, more, set0)
  {
    if set0.inputs.Some? {
      forall i | 0 <= i < |set0.inputs.value.outputs| ensures Describes(w, more, set0.inputs.value.outputs[i]) {
        DescribesMore(w, published, more, set0.inputs.value.outputs[i]);
      }
    }
  }

  /** What was good stays good as launches and publications accumulate. */
  lemma HistoryGrows(w: World, s: System, later: seq<TaskSet>, more: Published)
    requires Inv(w, s) && s.dag.launched <= later && Extends(s.published, more)
    ensures SetsFit(later, s.fifo) && LogGood(w, later, more, s.fifo) && InboxGood(w, later, more, s.inbox)
    ensures InputsGood(w, s.dag.launched, more)
    ensures forall a :: a in s.published ==> GoodWrite(w, later, more, a)
  {
    hide DagInvariant.Inv, FifoInvariant.Inv, Fifo.Wired, Dag.Ordered, Good, GoodWrite, SetReadsGood;
    forall key | key in s.fifo.sets ensures SetFits(later, key, s.fifo.sets[key]) {
      assert SetFits(s.dag.launched, key, s.fifo.sets[key]);
    }
    forall key, r | key in s.fifo.sets && Fifo.SuccessReport(r) in FifoSets.Log(s.fifo.sets[key]) ensures Good(w, later, more, r) {
      GoodMore(w, s.dag.launched, s.published, later, more, r);
    }
    forall r | r in s.inbox ensures Good(w, later, more, r) {
      GoodMore(w, s.dag.launched, s.published, later, more, r);
    }
    forall i | 0 <= i < |s.dag.launched| ensures SetReadsGood(w, more, s.dag.launched[i]) {
      SetReadsMore(w, s.published, more, s.dag.launched[i]);
    }
    forall a | a in s.published ensures GoodWrite(w, later, more, a) {
      GoodWriteMore(w, s.dag.launched, s.published, later, more, a);
    }
  }

  // ---------------------------------------------------------------- publishing

  /** An assigned attempt's task was launched in its stage attempt, with these inputs. */
  lemma AssignedTaskLaunched(launched: seq<TaskSet>, fifo: Fifo.State, id: TaskAttemptID)
    requires FifoInvariant.Inv(fifo) && SetsFit(launched, fifo) && id in fifo.attempts
    ensures var a := fifo.attempts[id].assignment;
            && TaskIn(launched, a.identity.stageAttemptID, a.jobID, a.task) && a.identity.id == id
            && launched[a.identity.stageAttemptID].inputs == a.inputs && a.identity.taskID == a.task.id
            && launched[a.identity.stageAttemptID].stageID == a.stageID
  {
    assert FifoInvariant.AttemptOK(fifo, id);
    var at := fifo.attempts[id];
    assert SetFits(launched, at.key, fifo.sets[at.key]);
  }

  /** What an enabled publication adds is good. */
  lemma PublishedIsGood(w: World, s: System, id: TaskAttemptID, writes: seq<KV>)
    requires Inv(w, s) && Publishable(w, s, id, writes)
    ensures var a := s.fifo.attempts[id].assignment;
            var ident := IdentityOf(a.runID, a.jobID, a.task, a.identity);
            var more := s.published[ident := writes];
            Extends(s.published, more) && GoodWrite(w, s.dag.launched, more, ident)
  {
    hide DagInvariant.Inv, FifoInvariant.Inv, Fifo.Wired, Dag.Ordered, LogGood, InboxGood, StoreGood, InputsGood, DagRecovery.Sourced, JobsFit, SetsFit;
    AssignedTaskLaunched(s.dag.launched, s.fifo, id);
    hide Inv, Runs, WritesOf;
    var a := s.fifo.attempts[id].assignment;
    var ident := IdentityOf(a.runID, a.jobID, a.task, a.identity);
    var more := s.published[ident := writes];
    var out :| Runs(w, s.published, a.task, a.inputs, out) && WritesOf(w, a.task.shuffleWrite.value, out) == Ok(writes);
    RunsMore(w, s.published, more, a.task, a.inputs, out);
    assert TaskIn(s.dag.launched, ident.stageAttemptID, ident.jobID, a.task);
  }

  lemma MorePublished(w: World, s: System, ident: AttemptIdentity, writes: seq<KV>)
    requires Inv(w, s) && Extends(s.published, s.published[ident := writes])
    requires GoodWrite(w, s.dag.launched, s.published[ident := writes], ident)
    ensures Inv(w, s.(published := s.published[ident := writes]))
  {
    HistoryGrows(w, s, s.dag.launched, s.published[ident := writes]);
    hide DagInvariant.Inv, FifoInvariant.Inv, Fifo.Wired, Dag.Ordered, GoodWrite, LogGood, InboxGood, InputsGood, DagRecovery.Sourced, JobsFit, SetsFit;
  }

  lemma PublishInv(w: World, s: System, id: TaskAttemptID, writes: seq<KV>)
    requires Inv(w, s) && Ready(s) && Enabled(w, s, PublishEvent(id, writes))
    ensures Inv(w, Step(w, s, PublishEvent(id, writes)))
  {
    hide Inv, Ready, GoodWrite, Extends, Runs;
    var a := s.fifo.attempts[id].assignment;
    PublishedIsGood(w, s, id, writes);
    MorePublished(w, s, IdentityOf(a.runID, a.jobID, a.task, a.identity), writes);
  }

  // ---------------------------------------------------------------- the task scheduler's steps

  lemma OnlySubmitAddsSets(s: Fifo.State, f: Fifo.Event)
    requires Fifo.Wired(s) && !f.SubmitEvent?
    ensures Fifo.Step(s, f).sets.Keys == s.sets.Keys
  {
  }

  lemma SetsStillFit(launched: seq<TaskSet>, s: Fifo.State, s1: Fifo.State)
    requires SetsFit(launched, s) && FifoSteps.Evolves(s, s1) && s1.sets.Keys == s.sets.Keys
    ensures SetsFit(launched, s1)
  {
    forall key | key in s1.sets ensures SetFits(launched, key, s1.sets[key]) {
      assert SetFits(launched, key, s.sets[key]) && FifoSteps.SetStep(s.sets[key], s1.sets[key]);
    }
  }

  lemma NoNewLog(w: World, launched: seq<TaskSet>, published: Published, s: Fifo.State, s1: Fifo.State)
    requires LogGood(w, launched, published, s) && FifoRuns.NoNewSuccess(s, s1)
    ensures LogGood(w, launched, published, s1)
  {
    hide Good;
    forall key, r | key in s1.sets && Fifo.SuccessReport(r) in FifoSets.Log(s1.sets[key]) ensures Good(w, launched, published, r) {
      var report := Fifo.SuccessReport(r);
      assert report in FifoSets.Log(s1.sets[key]) && report.SuccessReport?;
    }
  }

  /** An honest success that the scheduler logs is good. */
  lemma HonestIsGood(w: World, s: System, r: TaskAttemptSuccess)
    requires Inv(w, s) && Honest(w, s, r) && r.attempt.id in s.fifo.attempts
    requires Names(s.fifo.attempts[r.attempt.id].assignment, r)
    ensures Good(w, s.dag.launched, s.published, r)
  {
    AssignedTaskLaunched(s.dag.launched, s.fifo, r.attempt.id);
    hide DagInvariant.Inv, FifoInvariant.Inv, Yields;
    var a := s.fifo.attempts[r.attempt.id].assignment;
    assert TaskIn(s.dag.launched, r.attempt.stageAttemptID, r.jobID, a.task);
  }

  lemma SuccessLog(s: Fifo.State, r: TaskAttemptSuccess, key: Fifo.SetKey, logged: TaskAttemptSuccess)
    requires Fifo.Wired(s) && key in Fifo.ReportSuccess(s, r).state.sets
    requires Fifo.SuccessReport(logged) in FifoSets.Log(Fifo.ReportSuccess(s, r).state.sets[key])
    ensures key in s.sets
    ensures Fifo.SuccessReport(logged) in FifoSets.Log(s.sets[key])
            || (logged == r && r.attempt.id in s.attempts && Names(s.attempts[r.attempt.id].assignment, r))
  {
    var s1 := Fifo.ReportSuccess(s, r).state;
    if s1 != s {
      var a := s.attempts[r.attempt.id];
      if key == a.key { FifoRuns.SucceedLog(s.sets[a.key], a.index, r, Fifo.SuccessReport(logged)); }
    }
  }

  lemma FifoEventInv(w: World, s: System, f: Fifo.Event)
    requires Inv(w, s) && Enabled(w, s, FifoEvent(f))
    ensures Inv(w, Step(w, s, FifoEvent(f)))
  {
    hide DagInvariant.Inv, FifoInvariant.Inv, Dag.Ordered, FifoSteps.Evolves, SetsFit, LogGood, Fifo.Step, Fifo.Wired;
    hide InboxGood, StoreGood, InputsGood, DagRecovery.Sourced, JobsFit, Honest;
    var s1 := Fifo.Step(s.fifo, f);
    FifoSteps.StepInv(s.fifo, f);
    OnlySubmitAddsSets(s.fifo, f);
    SetsStillFit(s.dag.launched, s.fifo, s1);
    if f.SuccessEvent? {
      assert f == Fifo.SuccessEvent(f.success);
      SuccessLogGood(w, s, f.success);
    } else {
      FifoRuns.OtherStepsNoNewSuccess(s.fifo, f);
      NoNewLog(w, s.dag.launched, s.published, s.fifo, s1);
    }
  }

  lemma SuccessLogGood(w: World, s: System, report: TaskAttemptSuccess)
    requires Inv(w, s) && Honest(w, s, report)
    ensures LogGood(w, s.dag.launched, s.published, Fifo.Step(s.fifo, Fifo.SuccessEvent(report)))
  {
    hide DagInvariant.Inv, FifoInvariant.Inv, Dag.Ordered, Good, GoodWrite, SetsFit, Fifo.ReportSuccess;
    var s1 := Fifo.Step(s.fifo, Fifo.SuccessEvent(report));
    forall key, r | key in s1.sets && Fifo.SuccessReport(r) in FifoSets.Log(s1.sets[key])
      ensures Good(w, s.dag.launched, s.published, r)
    {
      SuccessLog(s.fifo, report, key, r);
      if Fifo.SuccessReport(r) !in FifoSets.Log(s.fifo.sets[key]) { HonestIsGood(w, s, r); }
    }
  }

  lemma LaunchInv(w: World, s: System, i: nat, cancelled: bool)
    requires Inv(w, s) && i < |s.dag.launched|
    ensures Inv(w, Step(w, s, LaunchEvent(i, cancelled)))
  {
    var f := Fifo.SubmitEvent(s.dag.launched[i], cancelled);
    var s1 := Fifo.Step(s.fifo, f);
    assert s.dag.launched[i].stageAttemptID == i by { assert DagInvariant.LogOK(s.dag.launched, s.dag.retired); }
    FifoSteps.StepInv(s.fifo, f);
    FifoRuns.OtherStepsNoNewSuccess(s.fifo, f);
    NoNewLog(w, s.dag.launched, s.published, s.fifo, s1);
    LaunchedSetsFit(s.dag.launched, s.fifo, i, cancelled);
    hide DagInvariant.Inv, FifoInvariant.Inv, Dag.Ordered, FifoSteps.Evolves, Fifo.Submit, Fifo.Wired, SetsFit, LogGood, InboxGood, StoreGood, InputsGood;
    hide DagRecovery.Sourced, JobsFit;
  }

  lemma LaunchedSetsFit(launched: seq<TaskSet>, fifo: Fifo.State, i: nat, cancelled: bool)
    requires i < |launched| && launched[i].stageAttemptID == i && SetsFit(launched, fifo)
    ensures SetsFit(launched, Fifo.Submit(fifo, launched[i], cancelled).state)
  {
    hide Fifo.ValidTaskSet, Fifo.SortTasks;
    var s1 := Fifo.Submit(fifo, launched[i], cancelled).state;
    SortTasksKeeps(launched[i].tasks);
    forall key | key in s1.sets ensures SetFits(launched, key, s1.sets[key]) {
      assert key in fifo.sets ==> SetFits(launched, key, fifo.sets[key]);
    }
  }

  lemma {:induction false} SortTasksKeeps(tasks: seq<Task>)
    ensures forall t :: t in Fifo.SortTasks(tasks) ==> t in tasks
  {
    if tasks != [] {
      SortTasksKeeps(tasks[1..]);
      InsertTaskKeeps(tasks[0], Fifo.SortTasks(tasks[1..]));
    }
  }

  lemma {:induction false} InsertTaskKeeps(t: Task, tasks: seq<Task>)
    ensures forall u :: u in Fifo.InsertTask(t, tasks) ==> u == t || u in tasks
  {
    if tasks != [] { InsertTaskKeeps(t, tasks[1..]); }
  }

  lemma DeliverInv(w: World, s: System, key: Fifo.SetKey)
    requires Inv(w, s)
    ensures Inv(w, Step(w, s, DeliverEvent(key)))
  {
    var f := Fifo.DrainEvent(key);
    var s1 := Fifo.Step(s.fifo, f);
    FifoSteps.StepInv(s.fifo, f);
    OnlySubmitAddsSets(s.fifo, f);
    SetsStillFit(s.dag.launched, s.fifo, s1);
    FifoRuns.OtherStepsNoNewSuccess(s.fifo, f);
    NoNewLog(w, s.dag.launched, s.published, s.fifo, s1);
    SourcedMore(s.inbox, Delivered(s, key), s.dag);
    hide DagInvariant.Inv, FifoInvariant.Inv, Dag.Ordered, Good, GoodWrite, SetReadsGood, FifoSteps.Evolves, SetsFit, DagRecovery.Sourced;
  }

  lemma SourcedMore(seen: iset<TaskAttemptSuccess>, more: iset<TaskAttemptSuccess>, dag: Dag.State)
    requires DagRecovery.Sourced(seen, dag)
    ensures DagRecovery.Sourced(seen + more, dag)
  {
    forall id, k | id in dag.jobs && k in dag.jobs[id].stages
      ensures DagRecovery.SourcedStage(seen + more, id, k, dag.jobs[id].stages[k])
    {
      assert DagRecovery.SourcedJob(seen, id, dag.jobs[id]);
      DagRecovery.SourcedMore(seen, more, id, k, dag.jobs[id].stages[k]);
    }
  }
}
