/** One run ID throughout: every map output ever published and every job carries the
    run ID of the task scheduler, in every run of the system. */
module OneRun {
  import opened Types
  import opened Planner
  import opened Streams
  import opened Store
  import opened JobMeaning
  import opened EndToEnd
  import opened EndToEndResult
  import Dag
  import DagInvariant
  import DagSteps
  import DagTheorems
  import DagOutcomes
  import Fifo
  import FifoInvariant
  import FifoSteps

  predicate KnownRun(runID: string, s: string) {
    s == "" || s == runID
  }

  /** Published outputs come from attempts of this run, and jobs know this run or none. */
  ghost predicate OfOneRun(s: System) {
    && (forall x :: x in s.published ==> x.runID == s.fifo.runID && x.taskAttemptID in s.fifo.attempts)
    && (forall id :: id in s.dag.jobs ==> KnownRun(s.fifo.runID, s.dag.jobs[id].runID))
  }

  lemma AssignedRun(s: Fifo.State, id: TaskAttemptID)
    requires FifoInvariant.Inv(s) && id in s.attempts
    ensures s.attempts[id].assignment.runID == s.runID && s.attempts[id].assignment.identity.id == id
  {
    assert FifoInvariant.AttemptOK(s, id);
  }

  /** The run a report can teach a job is the scheduler's own. */
  lemma ReportedRun(w: World, s: System, r: TaskAttemptSuccess)
    requires Inv(w, s) && OfOneRun(s) && r in s.inbox && r.output.shuffleOutput.Some?
    ensures r.output.shuffleOutput.value.attempt.runID == s.fifo.runID
  {
    hide DagInvariant.Inv, FifoInvariant.Inv, Fifo.Wired, Dag.Ordered, Yields;
    assert Good(w, s.dag.launched, s.published, r);
    var t :| Yields(w, s.published, t, s.dag.launched[r.attempt.stageAttemptID].inputs, r.output);
    hide Inv;
    YieldsDescribes(w, s.published, t, s.dag.launched[r.attempt.stageAttemptID].inputs, r.output);
    hide Manifest, Encodable;
  }

  /** A job learns its run from no report, or from a map output. */
  predicate Learns(d: Dag.Event, before: string, after: string) {
    || after == before
    || (d.TaskSucceededEvent? && d.success.output.shuffleOutput.Some? && after == d.success.output.shuffleOutput.value.attempt.runID)
  }

  lemma AcceptLearns(s: Dag.State, d: Dag.Event, id: JobID)
    requires DagTheorems.Accepts(s, d, id)
    ensures id in s.jobs && Learns(d, s.jobs[id].runID, DagTheorems.AfterAccept(s, d, id).runID)
  {
    hide AcceptableOutput;
  }

  lemma MovesLearn(s: Dag.State, d: Dag.Event, id: JobID, after: Dag.JobState)
    requires id in s.jobs && DagTheorems.Moves(s, d, id, after)
    ensures Learns(d, s.jobs[id].runID, after.runID)
  {
    hide Learns, DagTheorems.Accepts, DagTheorems.AfterAccept, DagInvariant.ShuffleShape, DagSteps.Started, Dag.ResetStage;
    if DagTheorems.Accepts(s, d, id) { AcceptLearns(s, d, id); }
    Unchanged(d, s.jobs[id].runID);
  }

  lemma Unchanged(d: Dag.Event, runID: string)
    ensures Learns(d, runID, runID)
  {
  }

  lemma MovesKeepRun(w: World, s: System, d: Dag.Event, id: JobID, after: Dag.JobState)
    requires Inv(w, s) && OfOneRun(s) && Enabled(w, s, DagEvent(d)) && id in s.dag.jobs && DagTheorems.Moves(s.dag, d, id, after)
    ensures KnownRun(s.fifo.runID, after.runID)
  {
    hide Inv, DagTheorems.Moves;
    MovesLearn(s.dag, d, id, after);
    if after.runID != s.dag.jobs[id].runID { ReportedRun(w, s, d.success); }
  }

  lemma NewJobRun(s: Dag.State, d: Dag.Event, id: JobID)
    requires DagInvariant.Inv(s) && Dag.Ordered(s) && d.JobSubmitted? && d.id == id && id !in s.jobs && id !in s.responses
    requires id in Dag.Step(s, d).jobs
    ensures Dag.Step(s, d).jobs[id].runID == ""
  {
    hide DagInvariant.Inv, Dag.Ordered, Dag.SubmitJob, Dag.ExecutionPlan;
    DagOutcomes.SubmitExactly(s, id, d.nodes, d.action, d.cancelled);
  }

  lemma DagKeepsRun(w: World, s: System, d: Dag.Event)
    requires Inv(w, s) && Ready(s) && OfOneRun(s) && Enabled(w, s, DagEvent(d))
    ensures OfOneRun(Step(w, s, DagEvent(d)))
  {
    hide *;
    DagStepIs(w, s, d);
    forall id | id in Step(w, s, DagEvent(d)).dag.jobs ensures KnownRun(s.fifo.runID, Step(w, s, DagEvent(d)).dag.jobs[id].runID) {
      JobBefore(s.dag, d, id);
      if id in s.dag.jobs {
        MovesKeepRun(w, s, d, id, Dag.Step(s.dag, d).jobs[id]);
      } else {
        NewJobRun(s.dag, d, id);
        NoRunYet(s.fifo.runID);
      }
    }
    StillOneRun(s, Step(w, s, DagEvent(d)));
  }

  lemma DagStepIs(w: World, s: System, d: Dag.Event)
    requires Inv(w, s) && Ready(s) && Enabled(w, s, DagEvent(d))
    ensures DagInvariant.Inv(s.dag) && Dag.Ordered(s.dag) && Dag.Enabled(s.dag, d)
    ensures var s1 := Step(w, s, DagEvent(d)); s1.dag == Dag.Step(s.dag, d) && s1.fifo == s.fifo && s1.published == s.published
  {
    hide DagInvariant.Inv, Dag.Ordered, Dag.Enabled, Dag.Step, FifoInvariant.Inv, Fifo.Wired;
  }

  lemma NoRunYet(runID: string)
    ensures KnownRun(runID, "")
  {
  }

  lemma StillOneRun(s: System, s1: System)
    requires OfOneRun(s) && s1.fifo == s.fifo && s1.published == s.published
    requires forall id :: id in s1.dag.jobs ==> KnownRun(s.fifo.runID, s1.dag.jobs[id].runID)
    ensures OfOneRun(s1)
  {
    hide KnownRun;
  }

  lemma AttemptsStay(s: Fifo.State, s1: Fifo.State, published: Published)
    requires FifoSteps.Evolves(s, s1) && forall x :: x in published ==> x.runID == s.runID && x.taskAttemptID in s.attempts
    ensures s1.runID == s.runID && forall x :: x in published ==> x.runID == s1.runID && x.taskAttemptID in s1.attempts
  {
    hide FifoSteps.SetStep, FifoSteps.AttemptStep, FifoSteps.WorkerStep;
  }

  lemma FifoKeepsRun(s: System, f: Fifo.Event, s1: System)
    requires FifoInvariant.Inv(s.fifo) && Fifo.Wired(s.fifo) && OfOneRun(s)
    requires s1.dag == s.dag && s1.published == s.published && s1.fifo == Fifo.Step(s.fifo, f)
    ensures OfOneRun(s1)
  {
    hide FifoInvariant.Inv, Fifo.Wired, Fifo.Step, FifoSteps.Evolves;
    FifoSteps.StepInv(s.fifo, f);
    AttemptsStay(s.fifo, s1.fifo, s.published);
  }

  lemma PublishKeepsRun(w: World, s: System, id: TaskAttemptID, writes: seq<KV>)
    requires Inv(w, s) && Ready(s) && OfOneRun(s) && Enabled(w, s, PublishEvent(id, writes))
    ensures OfOneRun(Step(w, s, PublishEvent(id, writes)))
  {
    hide *;
    PublishStepIs(w, s, id, writes);
    AssignedRun(s.fifo, id);
    OneMoreOfRun(s, Step(w, s, PublishEvent(id, writes)), s.fifo.attempts[id].assignment, writes);
  }

  lemma PublishStepIs(w: World, s: System, id: TaskAttemptID, writes: seq<KV>)
    requires Inv(w, s) && Ready(s) && Enabled(w, s, PublishEvent(id, writes))
    ensures FifoInvariant.Inv(s.fifo) && id in s.fifo.attempts && s.fifo.attempts[id].assignment.task.shuffleWrite.Some?
    ensures var a := s.fifo.attempts[id].assignment;
            Step(w, s, PublishEvent(id, writes)) == s.(published := s.published[IdentityOf(a.runID, a.jobID, a.task, a.identity) := writes])
  {
    hide DagInvariant.Inv, FifoInvariant.Inv, Runs, WritesOf, Encodable, Fifo.Wired, Dag.Ordered;
  }

  lemma OneMoreOfRun(s: System, s1: System, a: Fifo.TaskAssignment, writes: seq<KV>)
    requires OfOneRun(s) && a.task.shuffleWrite.Some? && a.runID == s.fifo.runID && a.identity.id in s.fifo.attempts
    requires s1 == s.(published := s.published[IdentityOf(a.runID, a.jobID, a.task, a.identity) := writes])
    ensures OfOneRun(s1)
  {
    hide KnownRun;
  }

  lemma StepKeepsRun(w: World, s: System, e: Event)
    requires Inv(w, s) && Ready(s) && OfOneRun(s) && Enabled(w, s, e)
    ensures OfOneRun(Step(w, s, e))
  {
    assert FifoInvariant.Inv(s.fifo) && Fifo.Wired(s.fifo);
    hide Inv, FifoInvariant.Inv, Fifo.Wired, OfOneRun, Fifo.Step, Fifo.Submit, Fifo.Drain;
    match e {
      case DagEvent(d) => DagKeepsRun(w, s, d);
      case LaunchEvent(i, cancelled) => LaunchKeepsRun(w, s, i, cancelled);
      case FifoEvent(f) => FifoKeepsRun(s, f, Step(w, s, e));
      case DeliverEvent(key) => DeliverKeepsRun(w, s, key);
      case PublishEvent(id, writes) => PublishKeepsRun(w, s, id, writes);
    }
  }

  lemma LaunchKeepsRun(w: World, s: System, i: nat, cancelled: bool)
    requires Inv(w, s) && Ready(s) && OfOneRun(s) && Enabled(w, s, LaunchEvent(i, cancelled))
    ensures OfOneRun(Step(w, s, LaunchEvent(i, cancelled)))
  {
    assert FifoInvariant.Inv(s.fifo) && Fifo.Wired(s.fifo);
    hide Inv, FifoInvariant.Inv, Fifo.Wired, OfOneRun, Fifo.Submit;
    var f := Fifo.SubmitEvent(s.dag.launched[i], cancelled);
    FifoKeepsRun(s, f, Step(w, s, LaunchEvent(i, cancelled)));
  }

  lemma DeliverKeepsRun(w: World, s: System, key: Fifo.SetKey)
    requires Inv(w, s) && Ready(s) && OfOneRun(s)
    ensures OfOneRun(Step(w, s, DeliverEvent(key)))
  {
    assert FifoInvariant.Inv(s.fifo) && Fifo.Wired(s.fifo);
    hide Inv, FifoInvariant.Inv, Fifo.Wired, OfOneRun, Fifo.Drain;
    FifoKeepsRun(s, Fifo.DrainEvent(key), Step(w, s, DeliverEvent(key)));
  }

  lemma {:induction false} RunKeepsRun(w: World, s: System, events: seq<Event>)
    requires Inv(w, s) && Ready(s) && OfOneRun(s) && Legal(w, s, events)
    ensures OfOneRun(Run(w, s, events))
    decreases |events|
  {
    hide Inv, Ready, OfOneRun, Step, Enabled;
    if events != [] {
      StepInv(w, s, events[0]);
      StepKeepsRun(w, s, events[0]);
      RunKeepsRun(w, Step(w, s, events[0]), events[1..]);
    }
  }

  /** In any run of the system there is one run ID. */
  lemma AlwaysOneRun(w: World, maxStageAttempts: nat, maxTaskAttempts: nat, names: FunctionNames, runID: string, events: seq<Event>)
    requires maxStageAttempts > 0 && maxTaskAttempts > 0
    requires Legal(w, Start(w, maxStageAttempts, maxTaskAttempts, names, runID), events)
    ensures OfOneRun(Run(w, Start(w, maxStageAttempts, maxTaskAttempts, names, runID), events))
  {
    var s := Start(w, maxStageAttempts, maxTaskAttempts, names, runID);
    assert OfOneRun(s);
    hide Start, Inv, Ready, OfOneRun;
    RunKeepsRun(w, s, events);
  }
}
