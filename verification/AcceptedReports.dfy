/** What becomes of an honest success: whatever an assigned task reports of what it
    published or computed is granted by the task scheduler while its attempt lives, and
    stored by the DAG scheduler while its task is awaited. */
module AcceptedReports {
  import opened Types
  import opened Planner
  import opened Keyed
  import opened Streams
  import opened Store
  import opened JobMeaning
  import opened OneRun
  import EndToEnd
  import Dag
  import DagInvariant
  import DagOutcomes
  import Fifo
  import FifoInvariant
  import FifoOutcomes

  // ---------------------------------------------------------------- an assignment of the system

  /** The scheduler made this assignment. */
  ghost predicate Assigned(w: World, s: EndToEnd.System, a: Fifo.TaskAssignment) {
    EndToEnd.Inv(w, s) && a.identity.id in s.fifo.attempts && s.fifo.attempts[a.identity.id].assignment == a
  }

  lemma AssignedIn(w: World, s: EndToEnd.System, a: Fifo.TaskAssignment)
    requires Assigned(w, s, a)
    ensures a.identity.id in s.fifo.attempts && s.fifo.attempts[a.identity.id].assignment == a
  {
    hide EndToEnd.Inv;
  }

  function ReportOf(a: Fifo.TaskAssignment, output: TaskOutput): TaskAttemptSuccess {
    TaskAttemptSuccess(a.jobID, a.stageID, a.identity, a.task.partitionID, a.workerID, output)
  }

  lemma ReportFields(a: Fifo.TaskAssignment, output: TaskOutput)
    ensures ReportOf(a, output) == TaskAttemptSuccess(a.jobID, a.stageID, a.identity, a.task.partitionID, a.workerID, output)
  {
  }

  lemma YieldsIsHonest(w: World, s: EndToEnd.System, a: Fifo.TaskAssignment, output: TaskOutput)
    requires a.identity.id in s.fifo.attempts && s.fifo.attempts[a.identity.id].assignment == a
    requires Yields(w, s.published, a.task, a.inputs, output)
    ensures EndToEnd.Honest(w, s, ReportOf(a, output))
  {
    hide Yields;
  }

  // ---------------------------------------------------------------- publishing

  /** The system once the attempt has published. */
  function Publishing(s: EndToEnd.System, a: Fifo.TaskAssignment, pairs: seq<KV>): EndToEnd.System
    requires a.task.shuffleWrite.Some?
  {
    s.(published := s.published[IdentityOf(a.runID, a.jobID, a.task, a.identity) := pairs])
  }

  /** The system takes a publishing step for the attempt, with these pairs. */
  ghost predicate PublishesStep(w: World, s: EndToEnd.System, a: Fifo.TaskAssignment, pairs: seq<KV>, s1: EndToEnd.System)
    requires EndToEnd.Ready(s)
  {
    EndToEnd.Enabled(w, s, EndToEnd.PublishEvent(a.identity.id, pairs))
    && s1 == EndToEnd.Step(w, s, EndToEnd.PublishEvent(a.identity.id, pairs))
  }

  lemma PublishingIsStep(w: World, s: EndToEnd.System, a: Fifo.TaskAssignment, pairs: seq<KV>)
    requires Assigned(w, s, a) && EndToEnd.Ready(s) && EndToEnd.Publishable(w, s, a.identity.id, pairs)
    requires a.task.shuffleWrite.Some?
    ensures PublishesStep(w, s, a, pairs, Publishing(s, a, pairs))
  {
    hide EndToEnd.Inv, EndToEnd.Ready, EndToEnd.Publishable;
  }

  // ---------------------------------------------------------------- map tasks

  /** A map task of a stage of some width. */
  predicate MapTask(t: Task) {
    t.kind == StageShuffleMap && t.shuffleWrite.Some? && t.finalAction.None? && 0 <= t.partitionID < t.numPartitions
    && t.shuffleWrite.value.partitioner.numPartitions > 0
  }

  /** What a map task reports of the pairs it published. */
  function Reported(w: World, a: Fifo.TaskAssignment, pairs: seq<KV>): TaskOutput
    requires MapTask(a.task)
  {
    TaskOutput(None, 0, Some(Manifest(w.codec, w.hash, IdentityOf(a.runID, a.jobID, a.task, a.identity), a.task.numPartitions,
                                      a.task.shuffleWrite.value.partitioner.numPartitions, pairs)))
  }

  lemma MapIsHonest(w: World, s: EndToEnd.System, a: Fifo.TaskAssignment, pairs: seq<KV>)
    requires Assigned(w, s, a) && MapTask(a.task) && Encodable(w.codec, pairs)
    ensures EndToEnd.Honest(w, Publishing(s, a, pairs), ReportOf(a, Reported(w, a, pairs)))
  {
    hide EndToEnd.Inv, Manifest, Encodable;
    var ident, n := IdentityOf(a.runID, a.jobID, a.task, a.identity), a.task.shuffleWrite.value.partitioner.numPartitions;
    var o := Manifest(w.codec, w.hash, ident, a.task.numPartitions, n, pairs);
    ManifestFields(w, ident, a.task.numPartitions, n, pairs);
    assert Describes(w, Publishing(s, a, pairs).published, o);
    YieldsIsHonest(w, Publishing(s, a, pairs), a, TaskOutput(None, 0, Some(o)));
  }

  lemma ManifestFields(w: World, ident: AttemptIdentity, maps: int, n: nat, pairs: seq<KV>)
    requires n > 0
    ensures var o := Manifest(w.codec, w.hash, ident, maps, n, pairs);
            o.attempt == ident && o.numMapPartitions == maps && o.numReducePartitions == n
  {
  }

  lemma MapIsAcceptable(w: World, a: Fifo.TaskAssignment, pairs: seq<KV>)
    requires MapTask(a.task) && LawfulCodec(w.codec, w.restore) && Encodable(w.codec, pairs) && LowerHex(a.runID, 32)
    ensures AcceptableOutput(Reported(w, a, pairs), a.runID, a.jobID, a.task, a.identity)
  {
    hide Manifest, Encodable, LawfulCodec, ValidMapOutput;
    var ident, n := IdentityOf(a.runID, a.jobID, a.task, a.identity), a.task.shuffleWrite.value.partitioner.numPartitions;
    ManifestFields(w, ident, a.task.numPartitions, n, pairs);
    ManifestIsValid(w.codec, w.restore, w.hash, ident, a.task.numPartitions, n, pairs);
  }

  /** While a map attempt lives in a set that is live and not cancelled, its report of
      what it published is granted: the task has succeeded with that output and the
      set has one task less to wait for. */
  lemma MapIsGranted(w: World, s: EndToEnd.System, a: Fifo.TaskAssignment, pairs: seq<KV>)
    requires Assigned(w, s, a) && Fifo.Wired(s.fifo) && FifoOutcomes.Live(s.fifo, a.identity.id)
    requires MapTask(a.task) && LawfulCodec(w.codec, w.restore) && Encodable(w.codec, pairs) && LowerHex(a.runID, 32)
    ensures var report := ReportOf(a, Reported(w, a, pairs));
            var o := Fifo.ReportSuccess(s.fifo, report);
            o.reply == Fifo.Granted(()) && FifoOutcomes.Succeeded(s.fifo, o.state, a.identity.id, report)
  {
    hide *;
    MapIsAcceptable(w, a, pairs);
    OutputIsGranted(w, s, a, Reported(w, a, pairs));
  }

  lemma OutputIsGranted(w: World, s: EndToEnd.System, a: Fifo.TaskAssignment, output: TaskOutput)
    requires Assigned(w, s, a) && Fifo.Wired(s.fifo) && FifoOutcomes.Live(s.fifo, a.identity.id)
    requires AcceptableOutput(output, a.runID, a.jobID, a.task, a.identity)
    ensures var report := ReportOf(a, output);
            var o := Fifo.ReportSuccess(s.fifo, report);
            o.reply == Fifo.Granted(()) && FifoOutcomes.Succeeded(s.fifo, o.state, a.identity.id, report)
  {
    assert FifoInvariant.Inv(s.fifo);
    hide AcceptableOutput, EndToEnd.Inv, FifoInvariant.Inv, Fifo.Wired, FifoOutcomes.Live, FifoOutcomes.Succeeded, Fifo.ReportSuccess;
    FifoOutcomes.SuccessOutcome(s.fifo, a.identity.id, output);
  }

  // ---------------------------------------------------------------- result tasks

  lemma ResultIsAcceptable(a: Fifo.TaskAssignment, items: seq<Record>)
    requires a.task.kind == StageResult && a.task.finalAction.Some? && a.task.finalAction.value.kind != ActionUnsupported
    ensures AcceptableOutput(ActionOutput(a.task.finalAction.value, items), a.runID, a.jobID, a.task, a.identity)
  {
  }

  // ---------------------------------------------------------------- at the DAG scheduler

  /** The task the DAG scheduler awaits is the one that was assigned. */
  lemma AwaitedTask(w: World, s: EndToEnd.System, a: Fifo.TaskAssignment)
    requires Assigned(w, s, a) && DagOutcomes.Awaited(s.dag, a.jobID, a.stageID, a.identity, a.task.partitionID)
    ensures a.task == s.dag.jobs[a.jobID].stages[a.stageID].tasks[a.task.partitionID]
  {
    assert DagInvariant.Inv(s.dag);
    EndToEnd.AssignedTaskLaunched(s.dag.launched, s.fifo, a.identity.id);
    hide Assigned, EndToEnd.Inv, DagInvariant.Inv;
    AwaitedStage(s.dag, a.jobID, a.stageID, a.identity, a.task.partitionID);
    var st := s.dag.jobs[a.jobID].stages[a.stageID];
    hide DagOutcomes.Awaited, DagInvariant.TasksOK;
    TaskByPartition(st, a.task, a.task.partitionID);
  }

  lemma AwaitedStage(s: Dag.State, id: JobID, k: StageID, attempt: TaskAttemptIdentity, p: PartitionID)
    requires DagInvariant.Inv(s) && DagOutcomes.Awaited(s, id, k, attempt, p)
    ensures id in s.jobs && k in s.jobs[id].stages
    ensures var st := s.jobs[id].stages[k];
            && st.attemptID == attempt.stageAttemptID < |s.launched| && s.launched[attempt.stageAttemptID].tasks == st.tasks
            && DagInvariant.TasksOK(st)
  {
    var job := s.jobs[id];
    assert DagInvariant.JobOK(s.launched, s.retired, s.maxStageAttempts, id, job);
    hide DagInvariant.Inv, DagInvariant.NarrowJob, DagInvariant.ShuffleJob;
    assert DagInvariant.StageOK(id, job.runID, k, s.maxStageAttempts, job.stages[k]);
    assert DagInvariant.Launched(s.launched, s.retired, id, k, job.stages[k], DagInvariant.InputsOf(id, job, job.stages[k].stage));
  }

  /** Delivered while its task is awaited by a job that is not cancelled, an acceptable
      output of the assignment is stored. */
  lemma OutputIsStored(w: World, s: EndToEnd.System, a: Fifo.TaskAssignment, output: TaskOutput)
    requires Assigned(w, s, a) && EndToEnd.Ready(s) && OfOneRun(s)
    requires DagOutcomes.Awaited(s.dag, a.jobID, a.stageID, a.identity, a.task.partitionID) && !s.dag.jobs[a.jobID].cancelled
    requires AcceptableOutput(output, a.runID, a.jobID, a.task, a.identity)
    ensures DagOutcomes.MovesOn(s.dag, Dag.TaskSucceeded(s.dag, ReportOf(a, output)), a.jobID, a.stageID, a.task.partitionID, output)
  {
    hide *;
    SystemParts(w, s, a);
    ReportFields(a, output);
    DagOutcomes.SuccessExactly(s.dag, ReportOf(a, output));
    AwaitedTask(w, s, a);
    AwaitedJob(s, a);
    RunAgrees(s, a, output);
    DagOutcomes.AskedExactly(s.dag.jobs[a.jobID], a.jobID, a.task, a.identity, output);
  }

  lemma SystemParts(w: World, s: EndToEnd.System, a: Fifo.TaskAssignment)
    requires Assigned(w, s, a) && EndToEnd.Ready(s)
    ensures DagInvariant.Inv(s.dag) && Dag.Ordered(s.dag) && FifoInvariant.Inv(s.fifo) && Fifo.Wired(s.fifo)
    ensures a.runID == s.fifo.runID
  {
    hide DagInvariant.Inv, Dag.Ordered, FifoInvariant.Inv, Fifo.Wired;
    AssignedRun(s.fifo, a.identity.id);
  }

  lemma AwaitedJob(s: EndToEnd.System, a: Fifo.TaskAssignment)
    requires DagOutcomes.Awaited(s.dag, a.jobID, a.stageID, a.identity, a.task.partitionID)
    ensures a.jobID in s.dag.jobs && a.stageID in s.dag.jobs[a.jobID].stages
    ensures 0 <= a.task.partitionID < |s.dag.jobs[a.jobID].stages[a.stageID].tasks|
  {
  }

  lemma RunAgrees(s: EndToEnd.System, a: Fifo.TaskAssignment, output: TaskOutput)
    requires OfOneRun(s) && a.jobID in s.dag.jobs && a.runID == s.fifo.runID
    requires AcceptableOutput(output, a.runID, a.jobID, a.task, a.identity)
    ensures AcceptableOutput(output, Dag.RunIDFor(s.dag.jobs[a.jobID], output), a.jobID, a.task, a.identity)
  {
    assert KnownRun(s.fifo.runID, s.dag.jobs[a.jobID].runID);
    hide OfOneRun, ValidMapOutput;
  }

  /** The same for what a map task published: stored under its partition, with one
      output less for its stage to wait for. */
  lemma MapIsStored(w: World, s: EndToEnd.System, a: Fifo.TaskAssignment, pairs: seq<KV>)
    requires Assigned(w, s, a) && EndToEnd.Ready(s) && OfOneRun(s)
    requires DagOutcomes.Awaited(s.dag, a.jobID, a.stageID, a.identity, a.task.partitionID) && !s.dag.jobs[a.jobID].cancelled
    requires MapTask(a.task) && LawfulCodec(w.codec, w.restore) && Encodable(w.codec, pairs) && LowerHex(a.runID, 32)
    ensures DagOutcomes.MovesOn(s.dag, Dag.TaskSucceeded(s.dag, ReportOf(a, Reported(w, a, pairs))), a.jobID, a.stageID,
                                a.task.partitionID, Reported(w, a, pairs))
  {
    hide *;
    MapIsAcceptable(w, a, pairs);
    OutputIsStored(w, s, a, Reported(w, a, pairs));
  }
}
