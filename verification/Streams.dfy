/** What tasks compute. A stream is the records a pull iterator yields before it
    ends, and the failure it ends with, if any; pipelines are functions on streams. */
module Streams {
  import opened Types
  import opened Ordering
  import opened TextSource
  import opened Keyed
  import opened Lineage
  import opened Planner

  datatype Stream = Stream(items: seq<Record>, end: Option<Failure>)

  /** One narrow step: a record becomes at most one record, or fails. */
  type StepFn = Record -> Result<Option<Record>>

  datatype Functions = Functions(
    maps: map<string, Record -> Result<Record>>, filters: map<string, Record -> Result<bool>>,
    pairMaps: map<string, Record -> Result<KV>>, valueMaps: map<string, Record -> Result<Record>>,
    reduces: map<string, ReduceFn>)

  /** Encoding a record as a line (none when it is refused), decoding one, and the digest. */
  datatype Codec = Codec(encode: KV -> Option<string>, decode: string -> Option<KV>, digest: string -> string)

  /** Everything a task reads besides its inputs: files, user functions, the hash,
      the codec, and how a value comes back from storage. */
  datatype World = World(
    files: map<string, string>, functions: Functions, hash: string -> nat, codec: Codec, restore: Record -> Record)

  // ---------------------------------------------------------------- narrow steps

  function ToRecord(pair: KV): Record {
    KeyValue(pair.key, pair.value)
  }

  function MapStep(f: Record -> Result<Record>): StepFn {
    r => match f(r) case Ok(v) => Ok(Some(v)) case Err(e) => Err(e)
  }

  function FilterStep(f: Record -> Result<bool>): StepFn {
    r => match f(r) case Ok(keep) => Ok(if keep then Some(r) else None) case Err(e) => Err(e)
  }

  function PairStep(f: Record -> Result<KV>): StepFn {
    r => match f(r) case Ok(pair) => Ok(Some(ToRecord(pair))) case Err(e) => Err(e)
  }

  function ValueStep(f: Record -> Result<Record>): StepFn {
    (r: Record) =>
      if r.KeyValue? then match f(r.value) case Ok(v) => Ok(Some(KeyValue(r.key, v))) case Err(e) => Err(e)
      else Err(Permanent())
  }

  /** The step an operator names; unknown functions are permanent errors. */
  function StepOf(fns: Functions, op: OperatorSpec): Result<StepFn> {
    match op.kind
    case OpMap => if op.functionID in fns.maps then Ok(MapStep(fns.maps[op.functionID])) else Err(Permanent())
    case OpFilter => if op.functionID in fns.filters then Ok(FilterStep(fns.filters[op.functionID])) else Err(Permanent())
    case OpMapToPair => if op.functionID in fns.pairMaps then Ok(PairStep(fns.pairMaps[op.functionID])) else Err(Permanent())
    case OpMapValues => if op.functionID in fns.valueMaps then Ok(ValueStep(fns.valueMaps[op.functionID])) else Err(Permanent())
    case OpSource | OpReduceByKey | OpUnsupported => Err(Permanent())
  }

  /** Pulls a stream through a step, record by record, to the first failure. */
  function Through(step: StepFn, s: Stream): Stream
    decreases |s.items|
  {
    if s.items == [] then s
    else
      match step(s.items[0])
      case Err(e) => Stream([], Some(e))
      case Ok(None) => Through(step, s.(items := s.items[1..]))
      case Ok(Some(r)) =>
        var rest := Through(step, s.(items := s.items[1..]));
        Stream([r] + rest.items, rest.end)
  }

  // ---------------------------------------------------------------- keyed steps

  /** Folds a stream into a map by key, in order, to the first failure. */
  function FoldStream(f: ReduceFn, s: Stream, m: map<string, Record>): Result<map<string, Record>>
    decreases |s.items|
  {
    if s.items == [] then (if s.end.Some? then Err(s.end.value) else Ok(m))
    else if !s.items[0].KeyValue? then Err(Permanent())
    else
      match AddPair(f, m, KV(s.items[0].key, s.items[0].value))
      case Err(e) => Err(e)
      case Ok(m1) => FoldStream(f, s.(items := s.items[1..]), m1)
  }

  function ToRecords(pairs: seq<KV>): (r: seq<Record>)
    ensures |r| == |pairs| && forall i :: 0 <= i < |r| ==> r[i] == ToRecord(pairs[i])
  {
    seq(|pairs|, i requires 0 <= i < |pairs| => ToRecord(pairs[i]))
  }

  /** reduce-by-key: nothing is emitted unless the whole input folds. */
  ghost function Reduced(f: ReduceFn, s: Stream): Stream {
    match FoldStream(f, s, map[])
    case Ok(m) => Stream(ToRecords(SortedPairs(m)), None)
    case Err(e) => Stream([], Some(e))
  }

  /** The pairs of a stream that ends well and holds only pairs. */
  function PairsOf(s: Stream): Result<seq<KV>>
    decreases |s.items|
  {
    if s.items == [] then (if s.end.Some? then Err(s.end.value) else Ok([]))
    else if !s.items[0].KeyValue? then Err(Permanent())
    else
      match PairsOf(s.(items := s.items[1..]))
      case Err(e) => Err(e)
      case Ok(rest) => Ok([KV(s.items[0].key, s.items[0].value)] + rest)
  }

  /** What a map task writes to the shuffle when all goes well. */
  ghost function WritesOf(w: World, write: ShuffleWriteSpec, s: Stream): Result<seq<KV>> {
    if !write.mapSideCombine then PairsOf(s)
    else if write.aggregatorID !in w.functions.reduces then Err(Permanent())
    else
      match FoldStream(w.functions.reduces[write.aggregatorID], s, map[])
      case Ok(m) => Ok(SortedPairs(m))
      case Err(e) => Err(e)
  }

  /** Reads streams one after the other, to the first that ends in failure. */
  function Joined(buckets: seq<Stream>): Stream {
    if buckets == [] then Stream([], None)
    else if buckets[0].end.Some? then buckets[0]
    else
      var rest := Joined(buckets[1..]);
      Stream(buckets[0].items + rest.items, rest.end)
  }

  // ---------------------------------------------------------------- pipelines

  function TextRecords(lines: seq<string>): (r: seq<Record>)
    ensures |r| == |lines| && forall i :: 0 <= i < |r| ==> r[i] == Text(lines[i])
  {
    seq(|lines|, i requires 0 <= i < |lines| => Text(lines[i]))
  }

  /** A file that does not exist is classified as a permanent failure (scheduler/failure.go:64). */
  function OpenSource(w: World, path: string, p: int, n: int): Result<Stream> {
    if !(0 <= p < n) || path !in w.files then Err(Permanent())
    else Ok(Stream(TextRecords(PartitionLines(w.files[path], p, n)), None))
  }

  /** Puts one operation on top of the pipeline built so far. */
  ghost function Apply(w: World, p: int, n: int, op: StageOperation, buckets: Option<seq<Stream>>, current: Option<Stream>):
    Result<Stream>
  {
    match op
    case ShuffleRead(_, _) => if buckets.Some? then Ok(Joined(buckets.value)) else Err(Permanent())
    case RDDOperation(_, operator) =>
      if operator.kind == OpSource then
        if current.Some? then Err(Permanent()) else OpenSource(w, operator.sourcePath, p, n)
      else if current.None? then Err(Permanent())
      else if operator.kind == OpReduceByKey then
        if operator.functionID in w.functions.reduces then
          Ok(Reduced(w.functions.reduces[operator.functionID], current.value))
        else Err(Permanent())
      else
        match StepOf(w.functions, operator)
        case Ok(step) => Ok(Through(step, current.value))
        case Err(e) => Err(e)
  }

  ghost function Build(w: World, p: int, n: int, ops: seq<StageOperation>, buckets: Option<seq<Stream>>, current: Option<Stream>):
    Result<Stream>
    decreases |ops|
  {
    if ops == [] then (if current.Some? then Ok(current.value) else Err(Permanent()))
    else
      match Apply(w, p, n, ops[0], buckets, current)
      case Err(e) => Err(e)
      case Ok(s) => Build(w, p, n, ops[1..], buckets, Some(s))
  }

  lemma {:induction false} BuildLast(w: World, p: int, n: int, ops: seq<StageOperation>, op: StageOperation,
                                     buckets: Option<seq<Stream>>, current: Option<Stream>)
    requires ops != []
    ensures Build(w, p, n, ops + [op], buckets, current) ==
            match Build(w, p, n, ops, buckets, current)
            case Ok(s) => Apply(w, p, n, op, buckets, Some(s))
            case Err(e) => Err(e)
    decreases |ops|
  {
    assert (ops + [op])[1..] == ops[1..] + [op];
    match Apply(w, p, n, ops[0], buckets, current)
    case Err(e) =>
    case Ok(s) =>
      if |ops| > 1 {
        BuildLast(w, p, n, ops[1..], op, buckets, Some(s));
      } else {
        assert ops[1..] + [op] == [op];
        assert Build(w, p, n, [op], buckets, Some(s)) == match Apply(w, p, n, op, buckets, Some(s))
               case Err(e) => Err(e)
               case Ok(s1) => Build(w, p, n, [op][1..], buckets, Some(s1));
      }
  }

  // ---------------------------------------------------------------- data of a lineage, partition by partition

  /** Lists of pairs read without a failure. */
  function Undamaged(lists: seq<seq<KV>>): (r: seq<Stream>)
    ensures |r| == |lists| && forall i :: 0 <= i < |r| ==> r[i] == Stream(ToRecords(lists[i]), None)
  {
    if lists == [] then []
    else Undamaged(lists[..|lists| - 1]) + [Stream(ToRecords(lists[|lists| - 1]), None)]
  }

  /** The buckets one reduce partition reads, undamaged. */
  function BucketStreams(w: World, n: nat, p: nat, writes: seq<seq<KV>>): (r: seq<Stream>)
    requires n > 0
    ensures |r| == |writes|
  {
    Undamaged(ReduceBuckets(w.hash, n, p, w.restore, writes))
  }

  /** Partition `p` of a lineage, computed the way the cluster does by a stage of `n` tasks. */
  ghost function Partition(w: World, c: Chain, n: int, p: nat): Result<Stream>
    requires WellFormed(c)
    decreases c, 0, 0
  {
    match c
    case SourceRDD(_, op, _) => OpenSource(w, op.sourcePath, p, n)
    case NarrowRDD(parent, _, op, _) =>
      (match Partition(w, parent, n, p)
       case Err(e) => Err(e)
       case Ok(s) =>
         match StepOf(w.functions, op)
         case Ok(step) => Ok(Through(step, s))
         case Err(e) => Err(e))
    case ShuffledRDD(parent, _, op, width, shuffle) =>
      match AllWrites(w, parent, WriteOf(shuffle), parent.width)
      case Err(e) => Err(e)
      case Ok(writes) =>
        if op.functionID in w.functions.reduces then
          Ok(Reduced(w.functions.reduces[op.functionID], Joined(BucketStreams(w, width, p, writes))))
        else Err(Permanent())
  }

  /** What map tasks 0 to k - 1 write. */
  ghost function AllWrites(w: World, c: Chain, write: ShuffleWriteSpec, k: nat): (r: Result<seq<seq<KV>>>)
    requires WellFormed(c)
    ensures r.Ok? ==> |r.value| == k
    decreases c, 1, k
  {
    if k == 0 then Ok([])
    else OneMore(w, write, AllWrites(w, c, write, k - 1), Partition(w, c, c.width, k - 1))
  }

  /** Adds the writes of one more map task; the first failure stands. */
  ghost function OneMore(w: World, write: ShuffleWriteSpec, before: Result<seq<seq<KV>>>, s: Result<Stream>): (r: Result<seq<seq<KV>>>)
    ensures r.Ok? ==> before.Ok? && s.Ok? && WritesOf(w, write, s.value).Ok?
                      && r.value == before.value + [WritesOf(w, write, s.value).value]
  {
    match before
    case Err(e) => Err(e)
    case Ok(done) =>
      match s
      case Err(e) => Err(e)
      case Ok(stream) =>
        match WritesOf(w, write, stream)
        case Err(e) => Err(e)
        case Ok(pairs) => Ok(done + [pairs])
  }

  // ---------------------------------------------------------------- data of a plan, stage by stage

  predicate ParentsFirst(stages: seq<Stage>) {
    forall i :: 0 <= i < |stages| ==>
      stages[i].numPartitions > 0 && (stages[i].parentIDs == [] || (stages[i].parentIDs[0] < i
      && stages[stages[i].parentIDs[0]].shuffleWrite.Some?))
  }

  /** What the task of partition `p` of stage `i` yields, given what its parent's tasks write. */
  ghost function StageStream(w: World, stages: seq<Stage>, i: nat, p: nat): Result<Stream>
    requires i < |stages| && ParentsFirst(stages)
    decreases i, 0, 0
  {
    var stage := stages[i];
    if stage.parentIDs == [] then Build(w, p, stage.numPartitions, stage.operations, None, None)
    else
      var j := stage.parentIDs[0];
      match StageWrites(w, stages, j, stages[j].numPartitions)
      case Err(e) => Err(e)
      case Ok(writes) =>
        Build(w, p, stage.numPartitions, stage.operations,
              Some(BucketStreams(w, stage.numPartitions, p, writes)), None)
  }

  ghost function StageWrites(w: World, stages: seq<Stage>, i: nat, k: nat): (r: Result<seq<seq<KV>>>)
    requires i < |stages| && ParentsFirst(stages) && stages[i].shuffleWrite.Some?
    ensures r.Ok? ==> |r.value| == k
    decreases i, 1, k
  {
    if k == 0 then Ok([])
    else OneMore(w, stages[i].shuffleWrite.value, StageWrites(w, stages, i, k - 1), StageStream(w, stages, i, k - 1))
  }

  /** The nearest shuffle at or above a node: what its stage reads from. */
  function ReadsFrom(c: Chain): Option<Chain> {
    match c
    case SourceRDD(_, _, _) => None
    case NarrowRDD(parent, _, _, _) => ReadsFrom(parent)
    case ShuffledRDD(_, _, _, _, _) => Some(c)
  }

  lemma {:induction false} ReadsFromFacts(c: Chain, n: int)
    requires WellFormed(c)
    ensures ReadsFrom(c).None? <==> Parents(c) == []
    ensures ReadsFrom(c).None? ==> ReaderFits(c, n)
    ensures ReadsFrom(c).Some? ==>
      var s := ReadsFrom(c).value;
      && s.ShuffledRDD? && WellFormed(s) && Upstream(c) == Upstream(s) && Parents(c) == [|Upstream(s.parent)|]
      && (ReaderFits(c, n) <==> s.width == n && ReaderFits(s.parent, s.parent.width))
  {
    if c.NarrowRDD? { ReadsFromFacts(c.parent, n); }
  }

  /** The pipeline of a stage computes its chain's partition from the shuffle's buckets. */
  lemma {:induction false} PipelineMeaning(w: World, c: Chain, n: int, p: nat, buckets: Option<seq<Stream>>)
    requires WellFormed(c)
    requires ReadsFrom(c).Some? ==>
      var s := ReadsFrom(c).value;
      && s.ShuffledRDD? && WellFormed(s.parent) && s.width > 0
      && AllWrites(w, s.parent, WriteOf(s.shuffle), s.parent.width).Ok?
      && buckets == Some(BucketStreams(w, s.width, p, AllWrites(w, s.parent, WriteOf(s.shuffle), s.parent.width).value))
    ensures Build(w, p, n, Ops(c), buckets, None) == Partition(w, c, n, p)
  {
    hide Build, Partition, AllWrites, BucketStreams;
    match c
    case SourceRDD(_, _, _) => SourcePipeline(w, c, n, p, buckets);
    case NarrowRDD(parent, _, _, _) =>
      PipelineMeaning(w, parent, n, p, buckets);
      NarrowPipeline(w, c, n, p, buckets);
    case ShuffledRDD(parent, _, _, _, shuffle) =>
      ShufflePipeline(w, c, n, p, AllWrites(w, parent, WriteOf(shuffle), parent.width).value);
  }

  lemma SourcePipeline(w: World, c: Chain, n: int, p: nat, buckets: Option<seq<Stream>>)
    requires c.SourceRDD? && WellFormed(c)
    ensures Build(w, p, n, Ops(c), buckets, None) == Partition(w, c, n, p)
  {
    assert Ops(c)[1..] == [];
  }

  lemma NarrowPipeline(w: World, c: Chain, n: int, p: nat, buckets: Option<seq<Stream>>)
    requires c.NarrowRDD? && WellFormed(c)
    requires Build(w, p, n, Ops(c.parent), buckets, None) == Partition(w, c.parent, n, p)
    ensures Build(w, p, n, Ops(c), buckets, None) == Partition(w, c, n, p)
  {
    BuildLast(w, p, n, Ops(c.parent), RddOp(c), buckets, None);
    hide Build;
  }

  lemma ShufflePipeline(w: World, c: Chain, n: int, p: nat, writes: seq<seq<KV>>)
    requires c.ShuffledRDD? && WellFormed(c)
    requires AllWrites(w, c.parent, WriteOf(c.shuffle), c.parent.width) == Ok(writes)
    ensures Build(w, p, n, Ops(c), Some(BucketStreams(w, c.width, p, writes)), None) == Partition(w, c, n, p)
  {
    hide AllWrites, BucketStreams, Joined, Reduced;
    var buckets := Some(BucketStreams(w, c.width, p, writes));
    var read := ShuffleRead(c.shuffle.shuffleID, c.shuffle.partitioner);
    assert Ops(c) == [read] + [RddOp(c)];
    BuildLast(w, p, n, [read], RddOp(c), buckets, None);
    assert [read][1..] == [];
    assert Build(w, p, n, [read], buckets, None) == Ok(Joined(buckets.value));
  }

  /** Evaluating the stages of a plan gives the data of the lineage, for any number of shuffles. */
  lemma {:induction false} StageKeepsMeaning(w: World, c: Chain, stages: seq<Stage>, i: nat, p: nat)
    requires WellFormed(c) && ReaderFits(c, c.width) && i < |stages| && ParentsFirst(stages)
    requires Upstream(c) <= stages[..i] && stages[i].operations == Ops(c) && stages[i].parentIDs == Parents(c)
    requires stages[i].numPartitions == c.width
    ensures StageStream(w, stages, i, p) == Partition(w, c, c.width, p)
    decreases c, 1, 0
  {
    ReadsFromFacts(c, c.width);
    if Parents(c) == [] {
      PipelineMeaning(w, c, c.width, p, None);
    } else {
      var s := ReadsFrom(c).value;
      var j := |Upstream(s.parent)|;
      assert Upstream(c)[j] == MapStage(s.parent, s.shuffle) && stages[..i][j] == Upstream(c)[j];
      ReadsFromSmaller(c);
      WritesKeepMeaning(w, s.parent, WriteOf(s.shuffle), stages, j, s.parent.width);
      if AllWrites(w, s.parent, WriteOf(s.shuffle), s.parent.width).Ok? {
        PipelineMeaning(w, c, c.width, p,
                        Some(BucketStreams(w, s.width, p, AllWrites(w, s.parent, WriteOf(s.shuffle), s.parent.width).value)));
      } else {
        FailedWrites(w, c, c.width, p);
      }
    }
  }

  lemma {:induction false} ReadsFromSmaller(c: Chain)
    requires ReadsFrom(c).Some?
    ensures ReadsFrom(c).value.ShuffledRDD? && ReadsFrom(c).value.parent < c
  {
    if c.NarrowRDD? { ReadsFromSmaller(c.parent); }
  }

  lemma {:induction false} FailedWrites(w: World, c: Chain, n: int, p: nat)
    requires WellFormed(c) && ReadsFrom(c).Some? && ReadsFrom(c).value.ShuffledRDD? && WellFormed(ReadsFrom(c).value.parent)
    requires var s := ReadsFrom(c).value; AllWrites(w, s.parent, WriteOf(s.shuffle), s.parent.width).Err?
    ensures var s := ReadsFrom(c).value;
            Partition(w, c, n, p) == Err(AllWrites(w, s.parent, WriteOf(s.shuffle), s.parent.width).error)
  {
    if c.NarrowRDD? { FailedWrites(w, c.parent, n, p); }
  }

  lemma {:induction false} WritesKeepMeaning(w: World, c: Chain, write: ShuffleWriteSpec, stages: seq<Stage>, i: nat, k: nat)
    requires WellFormed(c) && ReaderFits(c, c.width) && i < |stages| && ParentsFirst(stages)
    requires Upstream(c) <= stages[..i] && stages[i].operations == Ops(c) && stages[i].parentIDs == Parents(c)
    requires stages[i].numPartitions == c.width && stages[i].shuffleWrite == Some(write)
    ensures StageWrites(w, stages, i, k) == AllWrites(w, c, write, k)
    decreases c, 2, k
  {
    hide *;
    StageWritesStep(w, stages, i, k);
    AllWritesStep(w, c, write, k);
    if k > 0 {
      WritesKeepMeaning(w, c, write, stages, i, k - 1);
      StageKeepsMeaning(w, c, stages, i, k - 1);
    }
  }

  lemma StageWritesStep(w: World, stages: seq<Stage>, i: nat, k: nat)
    requires i < |stages| && ParentsFirst(stages) && stages[i].shuffleWrite.Some?
    ensures StageWrites(w, stages, i, k) ==
            if k == 0 then Ok([])
            else OneMore(w, stages[i].shuffleWrite.value, StageWrites(w, stages, i, k - 1), StageStream(w, stages, i, k - 1))
  {
    hide StageStream, OneMore;
  }

  lemma AllWritesStep(w: World, c: Chain, write: ShuffleWriteSpec, k: nat)
    requires WellFormed(c)
    ensures AllWrites(w, c, write, k) ==
            if k == 0 then Ok([]) else OneMore(w, write, AllWrites(w, c, write, k - 1), Partition(w, c, c.width, k - 1))
  {
    hide Partition, OneMore, WellFormed;
  }

  lemma {:induction false} UpstreamIsOrdered(c: Chain)
    requires WellFormed(c)
    ensures ParentsFirst(Upstream(c))
    ensures Parents(c) != [] ==> Parents(c)[0] < |Upstream(c)| && Upstream(c)[Parents(c)[0]].shuffleWrite.Some?
  {
    UpstreamShape(c);
    if !c.SourceRDD? {
      UpstreamIsOrdered(c.parent);
    }
  }

  /** Planning keeps meaning: what the result stage yields for a partition is that
      partition of the lineage. */
  lemma PlanKeepsMeaning(w: World, c: Chain, action: ActionSpec, p: nat)
    requires WellFormed(c) && ReaderFits(c, c.width)
    ensures ParentsFirst(PlanOf(c, action).stages)
    ensures StageStream(w, PlanOf(c, action).stages, |Upstream(c)|, p) == Partition(w, c, c.width, p)
  {
    var stages := PlanOf(c, action).stages;
    UpstreamIsOrdered(c);
    assert forall i :: 0 <= i < |Upstream(c)| ==> stages[i] == Upstream(c)[i];
    assert stages[..|Upstream(c)|] == Upstream(c);
    StageKeepsMeaning(w, c, stages, |Upstream(c)|, p);
  }
}
