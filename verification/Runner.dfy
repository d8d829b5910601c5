/** Tasks as a runner executes them: building the pipeline, draining it into an
    action's output or into shuffle buckets (executor/pipeline.go, local_runner.go,
    shuffle_map.go, shuffle_read.go). */
module Runner {
  import opened Types
  import opened Ordering
  import opened TextSource
  import opened Keyed
  import opened Streams
  import opened Environment
  import opened Store
  import opened ShuffleFilesystem
  import opened Executor
  import opened Pipeline
  import opened JobMeaning

  /** What the buckets a task was given read as. */
  function InputStreams(c: Codec, hash: string -> nat, published: map<Path, Directory>, p: int, inputs: Option<InputSnapshot>):
    Option<seq<Stream>>
  {
    if inputs.Some? && p >= 0 then Some(BucketsAt(c, hash, published, p, inputs.value.outputs)) else None
  }

  // ---------------------------------------------------------------- validation

  /** The shape of a task that reads a shuffle, or reads none (executor/shuffle_read.go:12-54). */
  predicate ValidExecution(t: Task, runID: string, jobID: JobID, inputs: Option<InputSnapshot>) {
    && (forall i :: 0 <= i < |t.operations| ==> t.operations[i].ShuffleRead? ==> i == 0)
    && (forall i :: 0 <= i < |t.operations| ==>
          t.operations[i].RDDOperation? && t.operations[i].operator.kind == OpReduceByKey ==> i == 1 && t.operations[0].ShuffleRead?)
    && if |t.operations| == 0 || !t.operations[0].ShuffleRead? then inputs.None?
       else
         && t.kind == StageResult && t.shuffleWrite.None? && t.finalAction.Some?
         && |t.operations| >= 2 && t.operations[1].RDDOperation? && t.operations[1].operator.kind == OpReduceByKey
         && inputs.Some? && ValidSnapshot(inputs.value)
         && inputs.value.runID == runID && inputs.value.jobID == jobID && inputs.value.shuffleID == t.operations[0].shuffleID
         && t.operations[0].partitioner.hash && t.operations[0].partitioner.numPartitions == inputs.value.numReducePartitions
         && t.numPartitions == inputs.value.numReducePartitions && 0 <= t.partitionID < t.numPartitions
  }

  method ValidateShuffleExecution(t: Task, runID: string, jobID: JobID, inputs: Option<InputSnapshot>) returns (ok: bool)
    ensures ok == ValidExecution(t, runID, jobID, inputs)
  {
    var read: Option<StageOperation> := None;
    var i := 0;
    while i < |t.operations|
      invariant 0 <= i <= |t.operations|
      invariant read == if i > 0 && t.operations[0].ShuffleRead? then Some(t.operations[0]) else None
      invariant forall k :: 0 <= k < i ==> t.operations[k].ShuffleRead? ==> k == 0
      invariant forall k :: 0 <= k < i ==>
        t.operations[k].RDDOperation? && t.operations[k].operator.kind == OpReduceByKey ==> k == 1 && t.operations[0].ShuffleRead?
    {
      var operation := t.operations[i];
      if operation.ShuffleRead? {
        if i != 0 { return false; }
        read := Some(operation);
      } else if operation.operator.kind == OpReduceByKey && (read.None? || i != 1) {
        return false;
      }
      i := i + 1;
    }
    if read.None? { return inputs.None?; }
    if t.kind != StageResult || t.shuffleWrite.Some? || t.finalAction.None? { return false; }
    if |t.operations| < 2 || !t.operations[1].RDDOperation? || t.operations[1].operator.kind != OpReduceByKey { return false; }
    if inputs.None? || !ValidSnapshot(inputs.value) { return false; }
    var s := inputs.value;
    if s.runID != runID || s.jobID != jobID || s.shuffleID != read.value.shuffleID { return false; }
    ok := read.value.partitioner.hash && read.value.partitioner.numPartitions == s.numReducePartitions
          && t.numPartitions == s.numReducePartitions && t.partitionID >= 0 && t.partitionID < t.numPartitions;
  }

  // ---------------------------------------------------------------- building

  /** Stacks one iterator per operation; what comes out at the top is the pipeline's stream. */
  method BuildTaskIterator(w: World, store: Filesystem, ctx: Context, t: Task, inputs: Option<InputSnapshot>)
    returns (r: Result<PullIterator>)
    requires store.Valid() && ctx as object != store && (inputs.Some? ==> t.partitionID >= 0)
    modifies ctx
    ensures r.Ok? ==> r.value.Valid() && !r.value.spent && r.value.ctx == ctx && fresh(r.value.Repr - {store})
                      && (inputs.None? ==> fresh(r.value.Repr)) && r.value.ReadsOnly(store)
    ensures var buckets := InputStreams(store.codec, store.hash, store.published, t.partitionID, inputs);
            var built := Build(w, t.partitionID, t.numPartitions, t.operations, buckets, None);
            if r.Ok? then built == Ok(r.value.rest) else (r.error == Canceled() && ctx.cancelled) || built == Err(r.error)
  {
    var current: PullIterator? := null;
    ghost var buckets := InputStreams(store.codec, store.hash, store.published, t.partitionID, inputs);
    ghost var goal := Build(w, t.partitionID, t.numPartitions, t.operations, buckets, None);
    var i := 0;
    while i < |t.operations|
      invariant 0 <= i <= |t.operations|
      invariant current != null ==> current.Valid() && !current.spent && current.ctx == ctx && fresh(current.Repr - {store})
                                    && (inputs.None? ==> fresh(current.Repr)) && current.ReadsOnly(store)
      invariant Build(w, t.partitionID, t.numPartitions, t.operations[i..], buckets,
                      if current == null then None else Some(current.rest)) == goal
    {
      var operation := t.operations[i];
      assert t.operations[i..][0] == operation && t.operations[i..][1..] == t.operations[i + 1..];
      var built := AddOperation(w, store, ctx, t, inputs, operation, current);
      if built.Err? { return Err(built.error); }
      current := built.value;
      i := i + 1;
    }
    assert t.operations[i..] == [];
    if current == null { return Err(Permanent()); }
    r := Ok(current);
  }

  method AddOperation(w: World, store: Filesystem, ctx: Context, t: Task, inputs: Option<InputSnapshot>, operation: StageOperation,
                      current: PullIterator?)
    returns (r: Result<PullIterator>)
    requires store.Valid() && ctx as object != store && (inputs.Some? ==> t.partitionID >= 0)
    requires current != null ==>
      current.Valid() && !current.spent && current.ctx == ctx && ctx !in current.Repr && current.ReadsOnly(store)
    modifies ctx
    ensures r.Ok? ==> r.value.Valid() && !r.value.spent && r.value.ctx == ctx
                      && fresh(r.value.Repr - {store} - (if current == null then {} else current.Repr))
                      && (inputs.None? ==> fresh(r.value.Repr - (if current == null then {} else current.Repr)))
                      && r.value.ReadsOnly(store)
    ensures var buckets := InputStreams(store.codec, store.hash, store.published, t.partitionID, inputs);
            var applied := Apply(w, t.partitionID, t.numPartitions, operation, buckets,
                                 if current == null then None else Some(old(current.rest)));
            if r.Ok? then applied == Ok(r.value.rest) else (r.error == Canceled() && ctx.cancelled) || applied == Err(r.error)
  {
    if operation.ShuffleRead? {
      if inputs.None? { return Err(Permanent()); }
      var shuffle := new ShuffleIterator(store, ctx, inputs.value.outputs, t.partitionID);
      var reading := new PullIterator.FromShuffle(ctx, shuffle);
      return Ok(reading);
    }
    var operator := operation.operator;
    if operator.kind == OpSource {
      if current != null { return Err(Permanent()); }
      r := OpenSourceIterator(w, ctx, operator.sourcePath, t.partitionID, t.numPartitions);
      return;
    }
    if current == null { return Err(Permanent()); }
    if operator.kind == OpReduceByKey {
      if operator.functionID !in w.functions.reduces { return Err(Permanent()); }
      var reducing := new PullIterator.WithReduce(ctx, current, w.functions.reduces[operator.functionID]);
      return Ok(reducing);
    }
    var step := StepOf(w.functions, operator);
    if step.Err? { return Err(step.error); }
    var stepping := new PullIterator.WithStep(ctx, current, step.value);
    r := Ok(stepping);
  }

  method OpenSourceIterator(w: World, ctx: Context, path: string, p: int, n: int) returns (r: Result<PullIterator>)
    modifies ctx
    ensures r.Ok? ==> r.value.Valid() && !r.value.spent && r.value.ctx == ctx && fresh(r.value.Repr) && r.value.store == null
    ensures if r.Ok? then OpenSource(w, path, p, n) == Ok(r.value.rest)
            else (r.error == Canceled() && ctx.cancelled) || OpenSource(w, path, p, n) == Err(r.error)
  {
    if path !in w.files {
      var cancelled := ctx.Poll();
      return Err(if cancelled then Canceled() else Permanent());
    }
    var cancelled := ctx.Poll();
    var text := Open(w.files[path], p, n, cancelled);
    if text.Err? { return Err(text.error); }
    var source := new PullIterator.FromText(ctx, text.value);
    r := Ok(source);
  }

  // ---------------------------------------------------------------- result tasks

  /** Drains the pipeline into the action's output. It fails for reasons of its own, as
      its stream does, or because the task is no result task with a known action. */
  method RunTask(w: World, store: Filesystem, ctx: Context, t: Task, inputs: Option<InputSnapshot>) returns (r: Result<TaskOutput>)
    requires store.Valid() && ctx as object != store && (inputs.Some? ==> t.partitionID >= 0)
    modifies store, ctx
    ensures store.closed == old(store.closed)
    ensures r.Ok? ==>
      && t.kind == StageResult && t.finalAction.Some? && t.shuffleWrite.None?
      && var buckets := InputStreams(store.codec, store.hash, old(store.published), t.partitionID, inputs);
         exists items :: Build(w, t.partitionID, t.numPartitions, t.operations, buckets, None) == Ok(Stream(items, None))
                         && (t.finalAction.value.kind != ActionUnsupported ==> r.value == ActionOutput(t.finalAction.value, items))
    ensures r.Err? ==>
      var buckets := InputStreams(store.codec, store.hash, old(store.published), t.partitionID, inputs);
      var built := Build(w, t.partitionID, t.numPartitions, t.operations, buckets, None);
      || Excused(r.error, ctx, store) || built == Err(r.error) || (built.Ok? && built.value.end == Some(r.error))
      || t.kind != StageResult || t.finalAction.None? || t.shuffleWrite.Some? || t.finalAction.value.kind == ActionUnsupported
  {
    if t.kind != StageResult || t.finalAction.None? || t.shuffleWrite.Some? { return Err(Permanent()); }
    var built := BuildTaskIterator(w, store, ctx, t, inputs);
    if built.Err? { return Err(built.error); }
    r := Drain(ctx, built.value, t.finalAction.value);
  }

  /** Pulls everything, collecting the records or counting them. */
  method Drain(ctx: Context, source: PullIterator, action: ActionSpec) returns (r: Result<TaskOutput>)
    requires source.Valid() && !source.spent && source.ctx == ctx
    modifies source.Repr, ctx
    ensures r.Ok? ==> old(source.rest).end.None?
    ensures r.Ok? && action.kind != ActionUnsupported ==> r.value == ActionOutput(action, old(source.rest).items)
    ensures r.Err? ==> Excused(r.error, ctx, source.store) || old(source.rest).end == Some(r.error) || action.kind == ActionUnsupported
    ensures SameStore(source.store, old(source.store != null && source.store.closed))
  {
    hide PullIterator.Valid, Flatten;
    var records: seq<Record> := [];
    var count := 0;
    ghost var all := source.rest;
    assert [] + all.items == all.items;
    while true
      invariant source.Valid() && !source.spent && fresh(source.Repr - old(source.Repr)) && source.rest.end == all.end
      invariant SameStore(source.store, old(source.store != null && source.store.closed))
      invariant action.kind == ActionCollect ==> records + source.rest.items == all.items && count == 0
      invariant action.kind == ActionCount ==> count + |source.rest.items| == |all.items|
      decreases |source.rest.items|
    {
      ghost var left := source.rest.items;
      var pulled := source.Next();
      match pulled {
        case Fault(e) => return Err(e);
        case NoMore =>
          assert records + [] == records;
          return Ok(TaskOutput(if action.kind == ActionCollect then Some(records) else None, count, None));
        case Item(record) =>
          assert left == [record] + left[1..];
          match action.kind {
            case ActionCollect => records := records + [record];
            case ActionCount => count := count + 1;
            case ActionUnsupported => return Err(Permanent());
          }
      }
    }
  }

  // ---------------------------------------------------------------- map tasks

  /** What a map task writes of a stream: the pairs themselves, or one combined
      pair per key in key order. */
  ghost function Written(combine: Option<ReduceFn>, s: Stream): Result<seq<KV>> {
    match combine
    case None => PairsOf(s)
    case Some(f) =>
      match FoldStream(f, s, map[])
      case Ok(m) => Ok(SortedPairs(m))
      case Err(e) => Err(e)
  }

  /** Storage refuses a pair the task is to write. */
  ghost predicate Unstorable(c: Codec, combine: Option<ReduceFn>, s: Stream) {
    if combine.None? then exists i :: 0 <= i < |s.items| && s.items[i].KeyValue? && c.encode(KV(s.items[i].key, s.items[i].value)).None?
    else Written(combine, s).Ok? && !Encodable(c, Written(combine, s).value)
  }

  /** Writes pairs as they come, or folds them first and writes the result in key order. */
  method WriteShuffleRecords(ctx: Context, source: PullIterator, writer: FileWriter, combine: Option<ReduceFn>)
    returns (e: Option<Failure>)
    requires source.Valid() && !source.spent && source.ctx == ctx && writer.Valid() && !writer.closed && writer.ctx == ctx
    requires writer !in source.Repr && writer.store !in source.Repr && ctx as object != writer && ctx as object != writer.store
    requires writer.written == []
    modifies source.Repr, writer, writer.store, ctx
    ensures writer.Valid() && writer.store.published == old(writer.store.published) && writer.store.closed == old(writer.store.closed)
    ensures writer.IsFor(old(writer.output).attempt, old(writer.output).numMapPartitions, old(writer.output).numReducePartitions)
    ensures e.None? ==> !writer.closed && Written(combine, old(source.rest)) == Ok(writer.written)
    ensures e.Some? ==>
      || Excused(e.value, ctx, source.store) || Written(combine, old(source.rest)) == Err(e.value)
      || (e.value == Permanent() && Unstorable(writer.store.codec, combine, old(source.rest)))
  {
    if combine.None? {
      e := WritePairs(ctx, source, writer);
      return;
    }
    var combined := FoldInput(ctx, source, combine.value);
    if combined.Err? { return Some(combined.error); }
    e := WriteCombined(ctx, writer, combined.value);
  }

  /** Writes one record per key, in key order. */
  method WriteCombined(ctx: Context, writer: FileWriter, combined: map<string, Record>) returns (e: Option<Failure>)
    requires writer.Valid() && !writer.closed && writer.ctx == ctx && ctx as object != writer && ctx as object != writer.store
    requires writer.written == []
    modifies writer, writer.store, ctx
    ensures writer.Valid() && writer.store.published == old(writer.store.published) && writer.store.closed == old(writer.store.closed)
    ensures writer.IsFor(old(writer.output).attempt, old(writer.output).numMapPartitions, old(writer.output).numReducePartitions)
    ensures e.None? ==> !writer.closed && writer.written == SortedPairs(combined)
    ensures e.Some? ==> Excused(e.value, ctx, null) || (e.value == Permanent() && !Encodable(writer.store.codec, SortedPairs(combined)))
  {
    hide FileWriter.Valid, Filesystem.Valid;
    var keys := SortedKeyList(combined);
    ghost var start, goal := writer.output, SortedPairs(combined);
    var i := 0;
    assert goal[..0] == [];
    while i < |keys|
      invariant 0 <= i <= |keys| == |goal| && writer.Valid() && !writer.closed && writer.written == goal[..i]
      invariant writer.store.published == old(writer.store.published) && writer.store.closed == old(writer.store.closed)
      invariant writer.IsFor(start.attempt, start.numMapPartitions, start.numReducePartitions)
    {
      var cancelled := ctx.Poll();
      if cancelled { return Some(Canceled()); }
      assert KV(keys[i], combined[keys[i]]) == goal[i] && goal[..i + 1] == goal[..i] + [goal[i]];
      var failure := writer.Write(KV(keys[i], combined[keys[i]]));
      if failure.Some? { return failure; }
      i := i + 1;
    }
    assert goal[..i] == goal;
    e := None;
  }

  /** Writes every pair as it comes. */
  method WritePairs(ctx: Context, source: PullIterator, writer: FileWriter) returns (e: Option<Failure>)
    requires source.Valid() && !source.spent && source.ctx == ctx && writer.Valid() && !writer.closed && writer.ctx == ctx
    requires writer !in source.Repr && writer.store !in source.Repr && ctx as object != writer && ctx as object != writer.store
    requires writer.written == []
    modifies source.Repr, writer, writer.store, ctx
    ensures writer.Valid() && writer.store.published == old(writer.store.published) && writer.store.closed == old(writer.store.closed)
    ensures writer.IsFor(old(writer.output).attempt, old(writer.output).numMapPartitions, old(writer.output).numReducePartitions)
    ensures e.None? ==> !writer.closed && PairsOf(old(source.rest)) == Ok(writer.written)
    ensures e.Some? ==>
      || Excused(e.value, ctx, source.store) || PairsOf(old(source.rest)) == Err(e.value)
      || (e.value == Permanent() && Unstorable(writer.store.codec, None, old(source.rest)))
  {
    assert ctx !in source.Repr;
    hide PullIterator.Valid, FileWriter.Valid, Filesystem.Valid;
    ghost var all, start := source.rest, writer.output;
    assert PrependPairs([], PairsOf(all)) == PairsOf(all) by {
      assert PairsOf(all).Ok? ==> [] + PairsOf(all).value == PairsOf(all).value;
    }
    hide PairsOf, PrependPairs;
    var more := true;
    while more
      invariant fresh(source.Repr - old(source.Repr)) && (more ==> source.Valid() && !source.spent)
      invariant writer !in source.Repr && writer.store !in source.Repr && ctx !in source.Repr
      invariant writer.Valid() && !writer.closed && writer.store.published == old(writer.store.published)
      invariant writer.store.closed == old(writer.store.closed)
      invariant writer.IsFor(start.attempt, start.numMapPartitions, start.numReducePartitions)
      invariant PairsOf(all) == if more then PrependPairs(writer.written, PairsOf(source.rest)) else Ok(writer.written)
      invariant more ==> EndsIn(all.items, source.rest.items)
      decreases more, |source.rest.items|
    {
      ghost var rest := source.rest;
      PrependFails(writer.written, PairsOf(rest));
      more, e := WriteNext(ctx, source, writer);
      if e.Some? {
        if FirstRefused(writer.store.codec, rest.items) { RefusedIsUnstorable(writer.store.codec, all, rest.items); }
        return;
      }
    }
    e := None;
  }

  ghost predicate EndsIn(all: seq<Record>, rest: seq<Record>) {
    |rest| <= |all| && rest == all[|all| - |rest|..]
  }

  /** The next record is a pair that storage refuses. */
  ghost predicate FirstRefused(c: Codec, items: seq<Record>) {
    items != [] && items[0].KeyValue? && c.encode(KV(items[0].key, items[0].value)).None?
  }

  lemma RefusedIsUnstorable(c: Codec, s: Stream, rest: seq<Record>)
    requires EndsIn(s.items, rest) && FirstRefused(c, rest)
    ensures Unstorable(c, None, s)
  {
    assert rest[0] == s.items[|s.items| - |rest|];
  }

  lemma PrependFails(done: seq<KV>, rest: Result<seq<KV>>)
    ensures rest.Err? ==> PrependPairs(done, rest) == rest
  {
  }

  /** Writes the next pair, if there is one. */
  method WriteNext(ctx: Context, source: PullIterator, writer: FileWriter) returns (more: bool, e: Option<Failure>)
    requires source.Valid() && !source.spent && source.ctx == ctx && writer.Valid() && !writer.closed && writer.ctx == ctx
    requires writer !in source.Repr && writer.store !in source.Repr && ctx as object != writer && ctx as object != writer.store
    requires ctx !in source.Repr
    modifies source.Repr, writer, writer.store, ctx
    ensures writer.Valid() && writer.store.published == old(writer.store.published) && writer.store.closed == old(writer.store.closed)
    ensures writer.IsFor(old(writer.output).attempt, old(writer.output).numMapPartitions, old(writer.output).numReducePartitions)
    ensures fresh(source.Repr - old(source.Repr))
    ensures writer !in source.Repr && writer.store !in source.Repr && ctx !in source.Repr
    ensures e.None? ==> !writer.closed
    ensures e.Some? ==>
      || Excused(e.value, ctx, source.store) || PairsOf(old(source.rest)) == Err(e.value)
      || (e.value == Permanent() && FirstRefused(writer.store.codec, old(source.rest.items)))
    ensures e.None? && more ==>
      && source.Valid() && !source.spent && |old(source.rest.items)| > 0 && source.rest.items == old(source.rest.items)[1..]
      && PrependPairs(writer.written, PairsOf(source.rest)) == PrependPairs(old(writer.written), PairsOf(old(source.rest)))
    ensures e.None? && !more ==> PrependPairs(old(writer.written), PairsOf(old(source.rest))) == Ok(writer.written)
  {
    hide PullIterator.Valid, FileWriter.Valid, Filesystem.Valid, PairsOf;
    more := true;
    var cancelled := ctx.Poll();
    if cancelled { return more, Some(Canceled()); }
    ghost var before, rest := writer.written, source.rest;
    PairsOfStep(rest);
    var pulled := source.Next();
    match pulled {
      case Fault(failure) => return more, Some(failure);
      case NoMore =>
        assert before + [] == before;
        return false, None;
      case Item(record) =>
        if !record.KeyValue? { return more, Some(Permanent()); }
        PrependOne(before, KV(record.key, record.value), PairsOf(source.rest));
        e := writer.Write(KV(record.key, record.value));
    }
  }

  lemma PairsOfStep(s: Stream)
    ensures s == Stream([], None) ==> PairsOf(s) == Ok([])
    ensures s.items == [] && s.end.Some? ==> PairsOf(s) == Err(s.end.value)
    ensures s.items != [] && !s.items[0].KeyValue? ==> PairsOf(s) == Err(Permanent())
    ensures s.items != [] && s.items[0].KeyValue? ==>
      PairsOf(s) == PrependPairs([KV(s.items[0].key, s.items[0].value)], PairsOf(s.(items := s.items[1..])))
  {
  }

  function PrependPairs(done: seq<KV>, rest: Result<seq<KV>>): Result<seq<KV>> {
    match rest case Ok(pairs) => Ok(done + pairs) case Err(e) => Err(e)
  }

  lemma PrependOne(done: seq<KV>, pair: KV, rest: Result<seq<KV>>)
    ensures rest.Ok? ==> PrependPairs(done + [pair], rest) == PrependPairs(done, Ok([pair] + rest.value))
  {
    if rest.Ok? { assert done + [pair] + rest.value == done + ([pair] + rest.value); }
  }

  /** The task's pipeline yields a stream that writes these pairs. */
  ghost predicate TaskWrites(w: World, t: Task, pairs: seq<KV>) {
    t.shuffleWrite.Some?
    && exists s :: Build(w, t.partitionID, t.numPartitions, t.operations, None, None) == Ok(s)
                   && WritesOf(w, t.shuffleWrite.value, s) == Ok(pairs)
  }

  /** The pairs were published under the attempt's free path, and nothing else changed. */
  ghost predicate PublishedAs(c: Codec, hash: string -> nat, a: AttemptIdentity, maps: int, n: int, pairs: seq<KV>,
                              before: map<Path, Directory>, after: map<Path, Directory>)
  {
    n > 0 && Encodable(c, pairs) && AttemptPath(a) !in before
    && after == before[AttemptPath(a) := PublishedDirectory(c, hash, a, maps, n, pairs)]
  }

  function CombineOf(w: World, write: ShuffleWriteSpec): Option<ReduceFn> {
    if write.mapSideCombine && write.aggregatorID in w.functions.reduces then Some(w.functions.reduces[write.aggregatorID]) else None
  }

  /** The task's own stream, or storage, gives the reason for failing. */
  ghost predicate MapFails(w: World, t: Task, e: Failure)
    requires t.shuffleWrite.Some?
  {
    var built := Build(w, t.partitionID, t.numPartitions, t.operations, None, None);
    || built == Err(e)
    || (built.Ok? && WritesOf(w, t.shuffleWrite.value, built.value) == Err(e))
    || (built.Ok? && e == Permanent() && Unstorable(w.codec, CombineOf(w, t.shuffleWrite.value), built.value))
  }

  /** A task that writes one of its partitions to a shuffle with a known combiner. */
  predicate WritesShuffle(w: World, t: Task) {
    && t.shuffleWrite.Some? && t.finalAction.None? && 0 <= t.partitionID < t.numPartitions
    && var write := t.shuffleWrite.value;
       write.partitioner.hash && write.partitioner.numPartitions > 0
       && (write.mapSideCombine ==> write.aggregatorID in w.functions.reduces)
  }

  /** Runs a map task: its whole output is published, complete and once, or nothing
      of it is; what it publishes is what the task's stream writes. Only a task that
      is cancelled between publishing and returning fails with its output published;
      any other failure has its reason in the task, its path or its surroundings. */
  method RunShuffleMap(w: World, store: Filesystem, ctx: Context, runID: string, jobID: JobID, t: Task, identity: TaskAttemptIdentity)
    returns (r: Result<TaskOutput>, ghost pairs: seq<KV>)
    requires store.Valid() && ctx as object != store && store.codec == w.codec
    modifies store, ctx
    ensures store.closed == old(store.closed)
    ensures r.Err? && store.published == old(store.published) ==>
      || Excused(r.error, ctx, store) || !WritesShuffle(w, t) || MapFails(w, t, r.error)
      || (r.error == Failure(FailureExecution, None)
          && (AttemptPath(IdentityOf(runID, jobID, t, identity)) in old(store.published) || !LowerHex(runID, 32)))
    ensures store.Valid() && Kept(old(store.published), store.published)
    ensures store.published != old(store.published) ==>
      && TaskWrites(w, t, pairs)
      && PublishedAs(store.codec, store.hash, IdentityOf(runID, jobID, t, identity), t.numPartitions,
                     t.shuffleWrite.value.partitioner.numPartitions, pairs, old(store.published), store.published)
    ensures r.Ok? ==>
      && store.published != old(store.published) && t.shuffleWrite.Some? && t.finalAction.None?
      && t.shuffleWrite.value.partitioner.numPartitions > 0
      && r.value == TaskOutput(None, 0, Some(Manifest(store.codec, store.hash, IdentityOf(runID, jobID, t, identity),
                                                      t.numPartitions, t.shuffleWrite.value.partitioner.numPartitions, pairs)))
    ensures r.Err? && store.published != old(store.published) ==> r.error == Canceled() && ctx.cancelled
  {
    pairs := [];
    if t.shuffleWrite.None? || t.finalAction.Some? { return Err(Permanent()), pairs; }
    var write := t.shuffleWrite.value;
    if t.numPartitions <= 0 || t.partitionID < 0 || t.partitionID >= t.numPartitions { return Err(Permanent()), pairs; }
    if !write.partitioner.hash || write.partitioner.numPartitions <= 0 { return Err(Permanent()), pairs; }
    var combine: Option<ReduceFn> := None;
    if write.mapSideCombine {
      if write.aggregatorID !in w.functions.reduces { return Err(Permanent()), pairs; }
      combine := Some(w.functions.reduces[write.aggregatorID]);
    }
    var a := IdentityOf(runID, jobID, t, identity);
    var begun := store.Begin(ctx, a, t.numPartitions, write.partitioner.numPartitions);
    if begun.Err? { return Err(begun.error), pairs; }
    var writer := begun.value;
    r, pairs := WriteAndPublish(w, store, ctx, t, writer, combine);
    if r.Err? { var aborted := writer.Abort(); }
  }

  method WriteAndPublish(w: World, store: Filesystem, ctx: Context, t: Task, writer: FileWriter, combine: Option<ReduceFn>)
    returns (r: Result<TaskOutput>, ghost pairs: seq<KV>)
    requires writer.Valid() && !writer.closed && writer.ctx == ctx && writer.store == store && writer.written == []
    requires ctx as object != store && ctx as object != writer && t.shuffleWrite.Some? && store.codec == w.codec
    requires AttemptPath(writer.output.attempt) !in store.published
    requires t.shuffleWrite.value.mapSideCombine ==> t.shuffleWrite.value.aggregatorID in w.functions.reduces
    requires combine == CombineOf(w, t.shuffleWrite.value)
    modifies store, ctx, writer
    ensures store.closed == old(store.closed)
    ensures r.Err? && store.published == old(store.published) ==> Excused(r.error, ctx, store) || MapFails(w, t, r.error)
    ensures writer.Valid() && Kept(old(store.published), store.published)
    ensures store.published != old(store.published) ==>
      && TaskWrites(w, t, pairs)
      && PublishedAs(store.codec, store.hash, old(writer.output).attempt, old(writer.output).numMapPartitions,
                     old(writer.output).numReducePartitions, pairs, old(store.published), store.published)
    ensures r.Ok? ==>
      && writer.closed && store.published != old(store.published) && old(writer.output).numReducePartitions > 0
      && r.value == TaskOutput(None, 0, Some(Manifest(store.codec, store.hash, old(writer.output).attempt,
                                                      old(writer.output).numMapPartitions,
                                                      old(writer.output).numReducePartitions, pairs)))
    ensures r.Err? && store.published != old(store.published) ==> r.error == Canceled() && ctx.cancelled
  {
    hide Build, WritesOf, FileWriter.Valid, Filesystem.Valid, MapFails, TaskWrites, Manifest, PublishedDirectory;
    pairs := [];
    var e := WriteOut(w, store, ctx, t, writer, combine);
    if e.Some? { return Err(e.value), pairs; }
    var cancelled := ctx.Poll();
    if cancelled { return Err(Canceled()), pairs; }
    pairs := writer.written;
    WriterHolds(writer);
    var published := writer.Publish();
    if published.Err? { return Err(published.error), pairs; }
    cancelled := ctx.Poll();
    if cancelled { return Err(Canceled()), pairs; }
    r := Ok(TaskOutput(None, 0, Some(published.value)));
  }

  lemma WriterHolds(writer: FileWriter)
    requires writer.Valid()
    ensures Encodable(writer.store.codec, writer.written) && writer.output.numReducePartitions > 0
  {
  }

  /** Writes the task's whole stream. */
  method WriteOut(w: World, store: Filesystem, ctx: Context, t: Task, writer: FileWriter, combine: Option<ReduceFn>)
    returns (e: Option<Failure>)
    requires writer.Valid() && !writer.closed && writer.ctx == ctx && writer.store == store && writer.written == []
    requires ctx as object != store && ctx as object != writer && t.shuffleWrite.Some? && store.codec == w.codec
    requires t.shuffleWrite.value.mapSideCombine ==> t.shuffleWrite.value.aggregatorID in w.functions.reduces
    requires combine == CombineOf(w, t.shuffleWrite.value)
    modifies store, ctx, writer
    ensures writer.Valid() && store.published == old(store.published) && store.closed == old(store.closed)
    ensures writer.IsFor(old(writer.output).attempt, old(writer.output).numMapPartitions, old(writer.output).numReducePartitions)
    ensures e.None? ==> !writer.closed && TaskWrites(w, t, writer.written)
    ensures e.Some? ==> Excused(e.value, ctx, store) || MapFails(w, t, e.value)
  {
    hide WritesOf, FileWriter.Valid, Filesystem.Valid, MapFails, TaskWrites, Written, Unstorable, PullIterator.Valid, CombineOf;
    assert store.Valid() by { WriterStore(writer); }
    ghost var goal := Build(w, t.partitionID, t.numPartitions, t.operations, None, None);
    hide Build;
    var built := BuildTaskIterator(w, store, ctx, t, None);
    if built.Err? {
      BuildFails(w, t, built.error);
      return Some(built.error);
    }
    ghost var s := built.value.rest;
    e := WriteShuffleRecords(ctx, built.value, writer, combine);
    WritingIs(w, t, s, combine);
    if e.None? {
      WritingSucceeds(w, t, s, writer.written);
    } else if Written(combine, s) == Err(e.value) || (e.value == Permanent() && Unstorable(w.codec, combine, s)) {
      WritingFails(w, t, s, combine, e.value);
    }
  }

  lemma WriterStore(writer: FileWriter)
    requires writer.Valid()
    ensures writer.store.Valid()
  {
  }

  lemma BuildFails(w: World, t: Task, e: Failure)
    requires t.shuffleWrite.Some?
    ensures Build(w, t.partitionID, t.numPartitions, t.operations, None, None) == Err(e) ==> MapFails(w, t, e)
  {
    hide Build, WritesOf, Unstorable;
  }

  lemma WritingIs(w: World, t: Task, s: Stream, combine: Option<ReduceFn>)
    requires t.shuffleWrite.Some? && combine == CombineOf(w, t.shuffleWrite.value)
    requires t.shuffleWrite.value.mapSideCombine ==> t.shuffleWrite.value.aggregatorID in w.functions.reduces
    ensures WritesOf(w, t.shuffleWrite.value, s) == Written(combine, s)
  {
  }

  lemma WritingSucceeds(w: World, t: Task, s: Stream, pairs: seq<KV>)
    requires t.shuffleWrite.Some? && Build(w, t.partitionID, t.numPartitions, t.operations, None, None) == Ok(s)
    requires WritesOf(w, t.shuffleWrite.value, s) == Ok(pairs)
    ensures TaskWrites(w, t, pairs)
  {
    hide Build, WritesOf;
  }

  lemma WritingFails(w: World, t: Task, s: Stream, combine: Option<ReduceFn>, e: Failure)
    requires t.shuffleWrite.Some? && Build(w, t.partitionID, t.numPartitions, t.operations, None, None) == Ok(s)
    requires combine == CombineOf(w, t.shuffleWrite.value)
    requires WritesOf(w, t.shuffleWrite.value, s) == Err(e) || (e == Permanent() && Unstorable(w.codec, combine, s))
    ensures MapFails(w, t, e)
  {
    hide Build, WritesOf, Unstorable;
  }

  // ---------------------------------------------------------------- when a map task fails on its own account

  lemma {:induction false} PairsAre(s: Stream)
    requires PairsOf(s).Ok?
    ensures |PairsOf(s).value| == |s.items|
    ensures forall i :: 0 <= i < |s.items| ==>
      s.items[i].KeyValue? && PairsOf(s).value[i] == KV(s.items[i].key, s.items[i].value)
    decreases |s.items|
  {
    if s.items != [] { PairsAre(s.(items := s.items[1..])); }
  }

  lemma UnstorableExactly(w: World, write: ShuffleWriteSpec, s: Stream)
    requires write.mapSideCombine ==> write.aggregatorID in w.functions.reduces
    requires WritesOf(w, write, s).Ok?
    ensures Unstorable(w.codec, CombineOf(w, write), s) <==> !Encodable(w.codec, WritesOf(w, write, s).value)
  {
    if !write.mapSideCombine { PairsAre(s); }
    hide FoldStream, PairsOf;
  }

  /** A task that writes to a shuffle has no reason of its own to fail exactly when its
      stream yields pairs to write and storage takes them all. */
  lemma MapFailsExactly(w: World, t: Task)
    requires WritesShuffle(w, t)
    ensures (forall e :: !MapFails(w, t, e)) <==> exists pairs :: TaskWrites(w, t, pairs) && Encodable(w.codec, pairs)
  {
    hide Unstorable, Encodable, WritesOf, Build, CombineOf;
    var built := Build(w, t.partitionID, t.numPartitions, t.operations, None, None);
    if built.Err? {
      assert MapFails(w, t, built.error);
    } else {
      var written := WritesOf(w, t.shuffleWrite.value, built.value);
      if written.Err? {
        assert MapFails(w, t, written.error);
      } else {
        UnstorableExactly(w, t.shuffleWrite.value, built.value);
        assert TaskWrites(w, t, written.value);
        if !Encodable(w.codec, written.value) { assert MapFails(w, t, Permanent()); }
      }
    }
  }
}
