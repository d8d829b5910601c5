/** A worker that carries out an assignment with Runner's loops over the shuffle
    store is honest in the sense of the end-to-end system, whatever has happened to
    the stored files (worker/task.go, executor/local_runner.go). */
module HonestWorkers {
  import opened Types
  import opened Keyed
  import opened Streams
  import opened Environment
  import opened Store
  import opened ShuffleFilesystem
  import opened Executor
  import opened Runner
  import opened JobMeaning
  import opened WorkerRuntime
  import opened OneRun
  import opened AcceptedReports
  import EndToEnd
  import Dag
  import DagOutcomes
  import Fifo
  import FifoOutcomes

  type Files = map<Path, Directory>

  /** If bucket `p` of a published attempt has come to hold something else, its digest tells. */
  predicate DamageShows(w: World, published: Published, files: Files, o: MapOutput, p: int) {
    var path := AttemptPath(o.attempt);
    o.attempt in published && o.numReducePartitions > 0 && path in files && p in files[path].buckets && p >= 0 ==>
      var whole := Bytes(w.codec, Bucket(w.hash, o.numReducePartitions, p, published[o.attempt]));
      w.codec.digest(files[path].buckets[p]) == w.codec.digest(whole) ==> files[path].buckets[p] == whole
  }

  /** A bucket read from any state of the files is whole or visibly damaged. */
  lemma BucketReadIsHonest(w: World, published: Published, files: Files, output: MapOutput, p: nat)
    requires LawfulCodec(w.codec, w.restore) && Describes(w, published, output) && DamageShows(w, published, files, output, p)
    ensures ReadsBucket(w, published, output, p, BucketAt(w.codec, w.hash, files, p, output))
  {
    var path := AttemptPath(output.attempt);
    if ValidMapOutput(output) && p < output.numReducePartitions && Whole(files, output, p) {
      DamageNeverPasses(w.codec, w.restore, w.hash, output.attempt, output.numMapPartitions, output.numReducePartitions, p,
                        published[output.attempt], files[path].buckets[p]);
    }
  }

  /** A bucket read from files still as they were published is all of it. */
  lemma IntactBucketIsRead(w: World, published: Published, files: Files, output: MapOutput, p: nat)
    requires LawfulCodec(w.codec, w.restore) && Describes(w, published, output) && ValidMapOutput(output)
    requires p < output.numReducePartitions && AttemptPath(output.attempt) in files
    requires files[AttemptPath(output.attempt)]
             == PublishedDirectory(w.codec, w.hash, output.attempt, output.numMapPartitions, output.numReducePartitions,
                                   published[output.attempt])
    ensures BucketAt(w.codec, w.hash, files, p, output)
            == Stream(ToRecords(Restored(w.restore, Bucket(w.hash, output.numReducePartitions, p, published[output.attempt]))), None)
  {
    StoreRoundTrip(w.codec, w.restore, w.hash, output.attempt, output.numMapPartitions, output.numReducePartitions, p,
                   published[output.attempt]);
    hide ReadFrom, ValidMapOutput, LawfulCodec, Encodable, Bytes, Bucket, Restored;
  }

  lemma {:induction false} BucketsAtEach(c: Codec, hash: string -> nat, files: Files, p: nat, outputs: seq<MapOutput>)
    ensures |BucketsAt(c, hash, files, p, outputs)| == |outputs|
    ensures forall i :: 0 <= i < |outputs| ==> BucketsAt(c, hash, files, p, outputs)[i] == BucketAt(c, hash, files, p, outputs[i])
  {
    if outputs != [] { BucketsAtEach(c, hash, files, p, outputs[1..]); }
  }

  // ---------------------------------------------------------------- an assignment of the system

  /** How the files relate to what has been published: paths stay taken, and damage
      to what this assignment reads shows. */
  ghost predicate FilesFit(w: World, s: EndToEnd.System, files: Files, a: Fifo.TaskAssignment) {
    && (forall x :: x in s.published ==> AttemptPath(x) in files)
    && (a.inputs.Some? ==>
          forall i :: 0 <= i < |a.inputs.value.outputs| ==>
            DamageShows(w, s.published, files, a.inputs.value.outputs[i], a.task.partitionID))
  }

  /** The outputs it is to read describe what was published. */
  lemma AssignedReads(w: World, s: EndToEnd.System, a: Fifo.TaskAssignment)
    requires Assigned(w, s, a) && a.inputs.Some?
    ensures forall i :: 0 <= i < |a.inputs.value.outputs| ==> Describes(w, s.published, a.inputs.value.outputs[i])
  {
    assert EndToEnd.InputsGood(w, s.dag.launched, s.published);
    EndToEnd.AssignedTaskLaunched(s.dag.launched, s.fifo, a.identity.id);
    hide EndToEnd.Inv, Describes;
    assert EndToEnd.SetReadsGood(w, s.published, s.dag.launched[a.identity.stageAttemptID]);
  }

  // ---------------------------------------------------------------- result tasks

  lemma ResultIsHonest(w: World, s: EndToEnd.System, files: Files, a: Fifo.TaskAssignment, items: seq<Record>, output: TaskOutput)
    requires Assigned(w, s, a) && FilesFit(w, s, files, a) && LawfulCodec(w.codec, w.restore)
    requires a.task.kind == StageResult && a.task.finalAction.Some? && a.task.partitionID >= 0
    requires Build(w, a.task.partitionID, a.task.numPartitions, a.task.operations,
                   InputStreams(w.codec, w.hash, files, a.task.partitionID, a.inputs), None) == Ok(Stream(items, None))
    requires output == ActionOutput(a.task.finalAction.value, items)
    ensures EndToEnd.Honest(w, s, ReportOf(a, output))
  {
    hide *;
    var p := a.task.partitionID;
    var buckets := InputStreams(w.codec, w.hash, files, p, a.inputs);
    InputsAreHonest(w, s, files, a);
    HonestRun(w, s.published, a.task, a.inputs, buckets, items, output);
    AssignedIn(w, s, a);
    YieldsIsHonest(w, s, a, output);
  }

  /** Whatever it reads of its inputs is whole or visibly damaged. */
  lemma InputsAreHonest(w: World, s: EndToEnd.System, files: Files, a: Fifo.TaskAssignment)
    requires Assigned(w, s, a) && FilesFit(w, s, files, a) && LawfulCodec(w.codec, w.restore) && a.task.partitionID >= 0
    ensures ReadsInputs(w, s.published, a.task.partitionID, a.inputs, InputStreams(w.codec, w.hash, files, a.task.partitionID, a.inputs))
  {
    hide *;
    var p := a.task.partitionID;
    InputStreamsAre(w, files, p, a.inputs);
    if a.inputs.Some? {
      var outputs := a.inputs.value.outputs;
      AssignedReads(w, s, a);
      BucketsAtEach(w.codec, w.hash, files, p, outputs);
      forall i: nat | i < |outputs| ensures ReadsBucket(w, s.published, outputs[i], p, BucketAt(w.codec, w.hash, files, p, outputs[i])) {
        FilesFitAt(w, s, files, a, i);
        BucketReadIsHonest(w, s.published, files, outputs[i], p);
      }
    }
    ReadsEach(w, s.published, p, a.inputs, InputStreams(w.codec, w.hash, files, p, a.inputs));
  }

  lemma InputStreamsAre(w: World, files: Files, p: nat, inputs: Option<InputSnapshot>)
    ensures InputStreams(w.codec, w.hash, files, p, inputs) ==
            if inputs.Some? then Some(BucketsAt(w.codec, w.hash, files, p, inputs.value.outputs)) else None
  {
    hide BucketsAt;
  }

  lemma FilesFitAt(w: World, s: EndToEnd.System, files: Files, a: Fifo.TaskAssignment, i: nat)
    requires FilesFit(w, s, files, a) && a.inputs.Some? && i < |a.inputs.value.outputs|
    ensures DamageShows(w, s.published, files, a.inputs.value.outputs[i], a.task.partitionID)
  {
    hide DamageShows;
  }

  lemma ReadsEach(w: World, published: Published, p: nat, inputs: Option<InputSnapshot>, buckets: Option<seq<Stream>>)
    requires inputs.Some? <==> buckets.Some?
    requires inputs.Some? ==>
      |buckets.value| == |inputs.value.outputs|
      && forall i: nat :: i < |inputs.value.outputs| ==> ReadsBucket(w, published, inputs.value.outputs[i], p, buckets.value[i])
    ensures ReadsInputs(w, published, p, inputs, buckets)
  {
    hide ReadsBucket;
  }

  lemma HonestRun(w: World, published: Published, t: Task, inputs: Option<InputSnapshot>, buckets: Option<seq<Stream>>,
                  items: seq<Record>, output: TaskOutput)
    requires ReadsInputs(w, published, t.partitionID, inputs, buckets) && t.kind == StageResult && t.finalAction.Some?
    requires Build(w, t.partitionID, t.numPartitions, t.operations, buckets, None) == Ok(Stream(items, None))
    requires output == ActionOutput(t.finalAction.value, items)
    ensures Yields(w, published, t, inputs, output)
  {
    hide ReadsInputs, Build, ActionOutput;
    assert Runs(w, published, t, inputs, Stream(items, None));
  }

  /** What a worker reports of an assigned result task is an honest success, and is
      granted while the attempt lives. */
  method RunResultAttempt(w: World, ghost s: EndToEnd.System, store: Filesystem, ctx: Context, a: Fifo.TaskAssignment)
    returns (r: Result<TaskOutput>)
    requires store.Valid() && ctx as object != store && store.codec == w.codec && store.hash == w.hash
    requires Assigned(w, s, a) && EndToEnd.Ready(s) && FilesFit(w, s, store.published, a) && LawfulCodec(w.codec, w.restore)
    requires ValidAssignment(a) && a.task.kind == StageResult
    modifies store, ctx
    ensures r.Ok? ==> EndToEnd.Honest(w, s, ReportOf(a, r.value))
    ensures r.Ok? && FifoOutcomes.Live(s.fifo, a.identity.id) ==> Counts(s, a, r.value)
    ensures r.Err? ==> Excused(r.error, ctx, store) || ResultFails(w, old(store.published), a, r.error)
  {
    hide *;
    ResultChecked(a);
    ghost var files := store.published;
    var valid := ValidateShuffleExecution(a.task, a.runID, a.jobID, a.inputs);
    AcceptedIsExecutable(a);
    if !valid { return Err(Permanent()); }
    var cancelled := ctx.Poll();
    if cancelled {
      CancelExcuses(ctx, store);
      return Err(Canceled());
    }
    r := RunTask(w, store, ctx, a.task, a.inputs);
    if r.Err? { ResultFailsBy(w, files, a, r.error); }
    if r.Ok? {
      ghost var buckets := InputStreams(w.codec, w.hash, files, a.task.partitionID, a.inputs);
      ghost var items :| Build(w, a.task.partitionID, a.task.numPartitions, a.task.operations, buckets, None) == Ok(Stream(items, None))
                         && r.value == ActionOutput(a.task.finalAction.value, items);
      ResultIsHonest(w, s, files, a, items, r.value);
      ResultIsAcceptable(a, items);
      OutputCounts(w, s, a, r.value);
    }
  }

  /** The task scheduler grants the report and counts the task as done, with this output. */
  ghost predicate Counts(s: EndToEnd.System, a: Fifo.TaskAssignment, output: TaskOutput)
    requires EndToEnd.Ready(s)
  {
    var o := Fifo.ReportSuccess(s.fifo, ReportOf(a, output));
    && o.reply == Fifo.Granted(()) && a.identity.id in s.fifo.attempts && Fifo.Linked(s.fifo, s.fifo.attempts[a.identity.id])
    && FifoOutcomes.Succeeded(s.fifo, o.state, a.identity.id, ReportOf(a, output))
  }

  lemma OutputCounts(w: World, s: EndToEnd.System, a: Fifo.TaskAssignment, output: TaskOutput)
    requires Assigned(w, s, a) && EndToEnd.Ready(s) && AcceptableOutput(output, a.runID, a.jobID, a.task, a.identity)
    ensures FifoOutcomes.Live(s.fifo, a.identity.id) ==> Counts(s, a, output)
  {
    assert Fifo.Wired(s.fifo);
    hide EndToEnd.Inv, Fifo.Wired, Dag.Ordered, Fifo.ReportSuccess, AcceptableOutput, FifoOutcomes.Succeeded;
    if FifoOutcomes.Live(s.fifo, a.identity.id) { OutputIsGranted(w, s, a, output); }
  }

  /** What the task reads of its files makes it fail so. */
  ghost predicate ResultFails(w: World, files: Files, a: Fifo.TaskAssignment, e: Failure) {
    var buckets := InputStreams(w.codec, w.hash, files, a.task.partitionID, a.inputs);
    var built := Build(w, a.task.partitionID, a.task.numPartitions, a.task.operations, buckets, None);
    built == Err(e) || (built.Ok? && built.value.end == Some(e))
  }

  lemma ResultFailsBy(w: World, files: Files, a: Fifo.TaskAssignment, e: Failure)
    ensures var buckets := InputStreams(w.codec, w.hash, files, a.task.partitionID, a.inputs);
            var built := Build(w, a.task.partitionID, a.task.numPartitions, a.task.operations, buckets, None);
            built == Err(e) || (built.Ok? && built.value.end == Some(e)) ==> ResultFails(w, files, a, e)
  {
    hide Build, InputStreams;
  }

  lemma CancelExcuses(ctx: Context, store: Filesystem)
    requires ctx.cancelled
    ensures Excused(Canceled(), ctx, store)
  {
  }

  lemma ResultChecked(a: Fifo.TaskAssignment)
    requires ValidAssignment(a) && a.task.kind == StageResult
    ensures a.task.partitionID >= 0 && a.task.finalAction.Some? && a.task.finalAction.value.kind != ActionUnsupported
    ensures a.task.shuffleWrite.None?
  {
    hide ValidInputs, ValidOperation;
  }

  // ---------------------------------------------------------------- map tasks

  lemma MapIsPublishable(w: World, s: EndToEnd.System, files: Files, a: Fifo.TaskAssignment, n: int, pairs: seq<KV>, after: Files)
    requires Assigned(w, s, a) && FilesFit(w, s, files, a) && a.inputs.None? && a.task.shuffleWrite.Some?
    requires TaskWrites(w, a.task, pairs)
    requires PublishedAs(w.codec, w.hash, IdentityOf(a.runID, a.jobID, a.task, a.identity), a.task.numPartitions, n, pairs, files, after)
    ensures EndToEnd.Publishable(w, s, a.identity.id, pairs)
    ensures n > 0 && Encodable(w.codec, pairs)
    ensures forall x :: x in Publishing(s, a, pairs).published ==> AttemptPath(x) in after
  {
    hide EndToEnd.Inv, Build, WritesOf, Encodable, DamageShows, PublishedDirectory;
    var out :| Build(w, a.task.partitionID, a.task.numPartitions, a.task.operations, None, None) == Ok(out)
               && WritesOf(w, a.task.shuffleWrite.value, out) == Ok(pairs);
    assert ReadsInputs(w, s.published, a.task.partitionID, None, None);
    assert Runs(w, s.published, a.task, a.inputs, out);
  }

  /** Whatever a worker that runs an assigned map task leaves published is exactly one
      publishing step of the system: when it reports success, and when it is cancelled
      before it can report. A success is honest. While the attempt lives it is granted
      and counted, and while its task is awaited it is stored. */
  method RunMapAttempt(w: World, ghost s: EndToEnd.System, store: Filesystem, ctx: Context, a: Fifo.TaskAssignment)
    returns (r: Result<TaskOutput>, ghost pairs: seq<KV>)
    requires store.Valid() && ctx as object != store && store.codec == w.codec && store.hash == w.hash
    requires Assigned(w, s, a) && EndToEnd.Ready(s) && FilesFit(w, s, store.published, a)
    requires ValidAssignment(a) && a.task.kind == StageShuffleMap
    modifies store, ctx
    ensures store.Valid() && Kept(old(store.published), store.published)
    ensures store.published != old(store.published) ==>
      && a.task.shuffleWrite.Some? && PublishesStep(w, s, a, pairs, Publishing(s, a, pairs))
      && forall x :: x in Publishing(s, a, pairs).published ==> AttemptPath(x) in store.published
    ensures r.Ok? ==>
      && store.published != old(store.published) && a.task.shuffleWrite.Some?
      && EndToEnd.Honest(w, Publishing(s, a, pairs), ReportOf(a, r.value))
    ensures r.Ok? && LawfulCodec(w.codec, w.restore) && FifoOutcomes.Live(s.fifo, a.identity.id) ==> Counts(s, a, r.value)
    ensures r.Ok? && LawfulCodec(w.codec, w.restore) && OfOneRun(s)
            && DagOutcomes.Awaited(s.dag, a.jobID, a.stageID, a.identity, a.task.partitionID) && !s.dag.jobs[a.jobID].cancelled ==>
      DagOutcomes.MovesOn(s.dag, Dag.TaskSucceeded(s.dag, ReportOf(a, r.value)), a.jobID, a.stageID, a.task.partitionID, r.value)
    ensures r.Err? && store.published != old(store.published) ==> r.error == Canceled() && ctx.cancelled
    ensures r.Err? && store.published == old(store.published) ==>
      || Excused(r.error, ctx, store) || !WritesShuffle(w, a.task) || MapFails(w, a.task, r.error)
      || AttemptPath(IdentityOf(a.runID, a.jobID, a.task, a.identity)) in old(store.published)
  {
    hide *;
    MapChecked(a);
    DagReady(s);
    ghost var files := store.published;
    pairs := [];
    var valid := ValidateShuffleExecution(a.task, a.runID, a.jobID, a.inputs);
    AcceptedIsExecutable(a);
    KeptSame(files);
    if !valid { return Err(Permanent()), pairs; }
    var cancelled := ctx.Poll();
    if cancelled {
      CancelExcuses(ctx, store);
      return Err(Canceled()), pairs;
    }
    r, pairs := RunShuffleMap(w, store, ctx, a.runID, a.jobID, a.task, a.identity);
    if store.published != files {
      ghost var n := a.task.shuffleWrite.value.partitioner.numPartitions;
      MapIsPublishable(w, s, files, a, n, pairs, store.published);
      PublishingIsStep(w, s, a, pairs);
      MapTaskIs(a.task);
      MapIsHonest(w, s, a, pairs);
      if LawfulCodec(w.codec, w.restore) { ReportedCounts(w, s, a, pairs); }
      ReportedIs(w, a, pairs);
    }
  }

  lemma DagReady(s: EndToEnd.System)
    requires EndToEnd.Ready(s)
    ensures Dag.Ordered(s.dag)
  {
  }

  lemma MapTaskIs(t: Task)
    requires t.kind == StageShuffleMap && t.shuffleWrite.Some? && t.finalAction.None? && 0 <= t.partitionID < t.numPartitions
    requires t.shuffleWrite.value.partitioner.numPartitions > 0
    ensures MapTask(t)
  {
  }

  lemma ReportedIs(w: World, a: Fifo.TaskAssignment, pairs: seq<KV>)
    requires MapTask(a.task)
    ensures a.task.shuffleWrite.Some? && a.task.shuffleWrite.value.partitioner.numPartitions > 0
    ensures Reported(w, a, pairs)
            == TaskOutput(None, 0, Some(Manifest(w.codec, w.hash, IdentityOf(a.runID, a.jobID, a.task, a.identity), a.task.numPartitions,
                                                 a.task.shuffleWrite.value.partitioner.numPartitions, pairs)))
  {
    hide Manifest;
  }

  lemma ReportedCounts(w: World, s: EndToEnd.System, a: Fifo.TaskAssignment, pairs: seq<KV>)
    requires Assigned(w, s, a) && EndToEnd.Ready(s) && Dag.Ordered(s.dag) && MapTask(a.task) && LowerHex(a.runID, 32)
    requires LawfulCodec(w.codec, w.restore) && Encodable(w.codec, pairs)
    ensures FifoOutcomes.Live(s.fifo, a.identity.id) ==> Counts(s, a, Reported(w, a, pairs))
    ensures OfOneRun(s) && DagOutcomes.Awaited(s.dag, a.jobID, a.stageID, a.identity, a.task.partitionID) ==>
      a.jobID in s.dag.jobs
    ensures OfOneRun(s) && DagOutcomes.Awaited(s.dag, a.jobID, a.stageID, a.identity, a.task.partitionID)
            && !s.dag.jobs[a.jobID].cancelled ==>
      DagOutcomes.MovesOn(s.dag, Dag.TaskSucceeded(s.dag, ReportOf(a, Reported(w, a, pairs))), a.jobID, a.stageID,
                          a.task.partitionID, Reported(w, a, pairs))
  {
    hide *;
    MapIsAcceptable(w, a, pairs);
    OutputCounts(w, s, a, Reported(w, a, pairs));
    if OfOneRun(s) && DagOutcomes.Awaited(s.dag, a.jobID, a.stageID, a.identity, a.task.partitionID) {
      AwaitedJob(s, a);
      if !s.dag.jobs[a.jobID].cancelled { MapIsStored(w, s, a, pairs); }
    }
  }

  lemma KeptSame(files: Files)
    ensures Kept(files, files)
  {
  }

  /** A worker never refuses for its shape what it accepted as an assignment. */
  lemma AcceptedIsExecutable(a: Fifo.TaskAssignment)
    requires ValidAssignment(a)
    ensures ValidExecution(a.task, a.runID, a.jobID, a.inputs)
  {
    hide Blank, ValidSnapshot, LowerHex;
    var t := a.task;
    forall i | 0 <= i < |t.operations|
      ensures t.operations[i].ShuffleRead? ==> i == 0
      ensures t.operations[i].RDDOperation? && t.operations[i].operator.kind == OpReduceByKey ==> i == 1 && t.operations[0].ShuffleRead?
    {
      assert ValidOperation(t, i);
    }
  }

  lemma MapChecked(a: Fifo.TaskAssignment)
    requires ValidAssignment(a) && a.task.kind == StageShuffleMap
    ensures a.inputs.None? && a.task.shuffleWrite.Some? && a.task.finalAction.None? && 0 <= a.task.partitionID < a.task.numPartitions
    ensures LowerHex(a.runID, 32)
  {
    hide ValidInputs, ValidOperation;
  }
}
