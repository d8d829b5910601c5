/** The pull iterators of a pipeline, and the loop that reduces a whole input by key
    (executor/iterator.go, reduce.go). */
module Pipeline {
  import opened Types
  import opened Ordering
  import opened TextSource
  import opened Keyed
  import opened Streams
  import opened Environment
  import opened Store
  import opened ShuffleFilesystem
  import opened Executor

  datatype Kind = TextKind | ShuffleKind | StepKind | ReduceKind

  /** Pulling neither closes the store nor opens it again. */
  ghost predicate SameStore(store: Filesystem?, closed: bool)
    reads store
  {
    closed == (store != null && store.closed)
  }

  /** Any iterator of a pipeline. `StepKind` stands for the map, filter, pair-map and
      value-map iterators, which differ in the step they apply; only a filter's
      step ever drops a record. */
  class PullIterator {
    const kind: Kind
    const ctx: Context
    const text: TextPartitionIterator?
    const shuffle: ShuffleIterator?
    const input: PullIterator?
    const step: StepFn
    const fn: ReduceFn
    /** The store it reads from in the end, if any. */
    ghost const store: Filesystem?
    /** Iterators below this one. */
    ghost const depth: nat
    /** A reduce iterator's result, once computed, and the failure that replaced it. */
    var result: Option<seq<Record>>
    var next: nat
    var err: Option<Failure>
    /** What is still to come; nothing is known of it after a failure. */
    ghost var rest: Stream
    ghost var spent: bool
    ghost var Repr: set<object>

    ghost predicate Valid()
      reads this, Repr
      decreases Repr
    {
      && this in Repr && ctx !in Repr && (store != null ==> store in Repr)
      && match kind
         case TextKind =>
           text != null && text in Repr && text.Valid() && store == null && (!spent ==> rest == Stream(TextRecords(text.Rest()), None))
         case ShuffleKind =>
           shuffle != null && shuffle in Repr && shuffle.Repr <= Repr && this !in shuffle.Repr && shuffle.Valid() && shuffle.ctx == ctx && shuffle.store == store
           && (!spent ==> rest == shuffle.rest && shuffle.err.None?)
         case StepKind => InputOK() && (!spent ==> !input.spent && rest == Through(step, input.rest))
         case ReduceKind =>
           (err.Some? <==> spent)
           && match result
              case Some(records) => next <= |records| && (!spent ==> rest == Stream(records[next..], None))
              case None => !spent ==> InputOK() && !input.spent && rest == Reduced(fn, input.rest)
    }

    ghost predicate InputOK()
      requires this in Repr
      reads this, Repr
      decreases Repr, 0
    {
      input != null && input in Repr && input.Repr <= Repr && this !in input.Repr && input.Valid() && input.ctx == ctx
      && input.store == store && input.depth < depth
    }

    /** If it reads a store at all, it is this one. */
    ghost predicate ReadsOnly(s: Filesystem)
      reads this
    {
      if store == null then s !in Repr else store == s
    }

    constructor FromText(ctx: Context, text: TextPartitionIterator)
      requires text.Valid() && ctx as object != text
      ensures Valid() && !spent && rest == Stream(TextRecords(text.Rest()), None) && Repr == {this, text} && this.ctx == ctx && store == null
    {
      store := null;
      kind, this.ctx, this.text, shuffle, input := TextKind, ctx, text, null, null;
      step, fn := r => Ok(Some(r)), (a, b) => Ok(a);
      result, next, err, spent := None, 0, None, false;
      rest := Stream(TextRecords(text.Rest()), None);
      depth, Repr := 0, {this, text};
    }

    constructor FromShuffle(ctx: Context, shuffle: ShuffleIterator)
      requires shuffle.Valid() && shuffle.ctx == ctx && shuffle.err.None?
      ensures Valid() && !spent && rest == shuffle.rest && Repr == {this} + shuffle.Repr && this.ctx == ctx && store == shuffle.store
    {
      store := shuffle.store;
      kind, this.ctx, text, this.shuffle, input := ShuffleKind, ctx, null, shuffle, null;
      step, fn := r => Ok(Some(r)), (a, b) => Ok(a);
      result, next, err, spent := None, 0, None, false;
      rest := shuffle.rest;
      depth, Repr := 0, {this} + shuffle.Repr;
    }

    constructor WithStep(ctx: Context, input: PullIterator, step: StepFn)
      requires input.Valid() && !input.spent && input.ctx == ctx
      ensures Valid() && !spent && rest == Through(step, input.rest) && Repr == {this} + input.Repr && this.ctx == ctx && store == input.store
    {
      store := input.store;
      kind, this.ctx, text, shuffle, this.input := StepKind, ctx, null, null, input;
      this.step, fn := step, (a, b) => Ok(a);
      result, next, err, spent := None, 0, None, false;
      rest := Through(step, input.rest);
      depth, Repr := input.depth + 1, {this} + input.Repr;
    }

    constructor WithReduce(ctx: Context, input: PullIterator, fn: ReduceFn)
      requires input.Valid() && !input.spent && input.ctx == ctx
      ensures Valid() && !spent && rest == Reduced(fn, input.rest) && Repr == {this} + input.Repr && this.ctx == ctx && store == input.store
    {
      store := input.store;
      kind, this.ctx, text, shuffle, this.input := ReduceKind, ctx, null, null, input;
      step, this.fn := r => Ok(Some(r)), fn;
      result, next, err, spent := None, 0, None, false;
      rest := Reduced(fn, input.rest);
      depth, Repr := input.depth + 1, {this} + input.Repr;
    }

    /** A reduce iterator that failed keeps failing the same way. */
    method Next() returns (r: Pulled)
      requires Valid() && (!spent || kind.ReduceKind?)
      modifies Repr, ctx
      ensures Valid() && fresh(Repr - old(Repr)) && SameStore(store, old(store != null && store.closed))
      ensures !old(spent) ==> PullsFrom(old(rest), r, rest, ctx, store)
      ensures old(spent) ==> r == Fault(old(err).value) && err == old(err)
      ensures spent <==> r.Fault?
      decreases depth, 2
    {
      if kind.ReduceKind? && err.Some? { return Fault(err.value); }
      match kind
      case TextKind => r := NextLine();
      case ShuffleKind => r := NextShuffled();
      case StepKind => r := NextStepped();
      case ReduceKind => r := NextReduced();
    }

    method NextLine() returns (r: Pulled)
      requires Valid() && !spent && kind.TextKind?
      modifies Repr, ctx
      ensures Valid() && fresh(Repr - old(Repr)) && store == null
      ensures PullsFrom(old(rest), r, rest, ctx, store) && (spent <==> r.Fault?)
    {
      var cancelled := ctx.Poll();
      var line := text.Next(cancelled);
      rest := Stream(TextRecords(text.Rest()), None);
      match line {
        case Line(s) => r := Item(Text(s));
        case Exhausted => r := NoMore;
        case Failed(e) =>
          spent := true;
          r := Fault(e);
      }
    }

    method NextShuffled() returns (r: Pulled)
      requires Valid() && !spent && kind.ShuffleKind?
      modifies Repr, ctx
      ensures Valid() && fresh(Repr - old(Repr)) && SameStore(store, old(store != null && store.closed))
      ensures PullsFrom(old(rest), r, rest, ctx, store) && (spent <==> r.Fault?)
    {
      r := shuffle.Next();
      rest, spent := shuffle.rest, r.Fault?;
      Repr := {this} + shuffle.Repr;
    }

    /** Pulls until the step lets a record through. */
    method NextStepped() returns (r: Pulled)
      requires Valid() && !spent && kind.StepKind?
      modifies Repr, ctx
      ensures Valid() && fresh(Repr - old(Repr)) && SameStore(store, old(store != null && store.closed))
      ensures PullsFrom(old(rest), r, rest, ctx, store) && (spent <==> r.Fault?)
      decreases depth, 1
    {
      hide Through, Reduced, TextPartitionIterator.Valid, TextPartitionIterator.Rest, ShuffleIterator.Valid;
      while true
        invariant Valid() && !spent && rest == old(rest) && fresh(Repr - old(Repr)) && SameStore(store, old(store != null && store.closed))
        decreases |input.rest.items|
      {
        ThroughStep(step, input.rest);
        var pulled := input.Next();
        Repr := {this} + input.Repr;
        match pulled {
          case Fault(e) =>
            spent := true;
            return pulled;
          case NoMore => return NoMore;
          case Item(record) =>
            var out := step(record);
            if out.Err? {
              spent := true;
              return Fault(out.error);
            }
            if out.value.Some? {
              rest := Through(step, input.rest);
              return Item(out.value.value);
            }
        }
      }
    }

    /** Computes the whole result on the first pull; a failure is kept for good. */
    method NextReduced() returns (r: Pulled)
      requires Valid() && !spent && kind.ReduceKind?
      modifies Repr, ctx
      ensures Valid() && fresh(Repr - old(Repr)) && SameStore(store, old(store != null && store.closed))
      ensures PullsFrom(old(rest), r, rest, ctx, store) && (spent <==> r.Fault?)
      decreases depth, 1
    {
      hide TextPartitionIterator.Valid, ShuffleIterator.Valid, Reduced;
      if result.None? {
        var reduced := ReduceRecords(ctx, input, fn);
        if reduced.Err? {
          err, spent := Some(reduced.error), true;
          return Fault(reduced.error);
        }
        result, next := Some(reduced.value), 0;
        assert reduced.value[0..] == reduced.value;
      }
      var cancelled := ctx.Poll();
      if cancelled {
        err, spent := Some(Canceled()), true;
        return Fault(Canceled());
      }
      if next >= |result.value| { return NoMore; }
      r := Item(result.value[next]);
      next := next + 1;
      rest := rest.(items := rest.items[1..]);
    }
  }

  /** The first record of a stream on its way through a step. */
  lemma ThroughStep(step: StepFn, s: Stream)
    ensures s.items == [] ==> Through(step, s) == s
    ensures s.items != [] ==>
      var rest := Through(step, s.(items := s.items[1..]));
      Through(step, s) == match step(s.items[0])
                          case Err(e) => Stream([], Some(e))
                          case Ok(None) => rest
                          case Ok(Some(r)) => Stream([r] + rest.items, rest.end)
  {
  }

  /** Folds a whole input by key and lists the result in key order. */
  method ReduceRecords(ctx: Context, input: PullIterator, fn: ReduceFn) returns (r: Result<seq<Record>>)
    requires input.Valid() && !input.spent && input.ctx == ctx
    modifies input.Repr, ctx
    ensures r.Ok? ==> Reduced(fn, old(input.rest)) == Stream(r.value, None)
    ensures SameStore(input.store, old(input.store != null && input.store.closed))
    ensures r.Err? ==> Excused(r.error, ctx, input.store) || Reduced(fn, old(input.rest)) == Stream([], Some(r.error))
    decreases input.depth, 4
  {
    var values := FoldInput(ctx, input, fn);
    if values.Err? { return Err(values.error); }
    r := SortedRecords(ctx, values.value);
  }

  method FoldInput(ctx: Context, input: PullIterator, fn: ReduceFn) returns (r: Result<map<string, Record>>)
    requires input.Valid() && !input.spent && input.ctx == ctx
    modifies input.Repr, ctx
    ensures r.Ok? ==> FoldStream(fn, old(input.rest), map[]) == r
    ensures SameStore(input.store, old(input.store != null && input.store.closed))
    ensures r.Err? ==> Excused(r.error, ctx, input.store) || FoldStream(fn, old(input.rest), map[]) == r
    decreases input.depth, 3
  {
    var values: map<string, Record> := map[];
    ghost var goal := FoldStream(fn, input.rest, map[]);
    while true
      invariant input.Valid() && !input.spent && fresh(input.Repr - old(input.Repr))
      invariant SameStore(input.store, old(input.store != null && input.store.closed))
      invariant FoldStream(fn, input.rest, values) == goal
      decreases |input.rest.items|
    {
      var cancelled := ctx.Poll();
      if cancelled { return Err(Canceled()); }
      var pulled := input.Next();
      match pulled {
        case Fault(e) => return Err(e);
        case NoMore => return Ok(values);
        case Item(record) =>
          if !record.KeyValue? { return Err(Permanent()); }
          var value := record.value;
          if record.key in values {
            var combined := fn(values[record.key], value);
            if combined.Err? { return Err(combined.error); }
            value := combined.value;
          }
          values := values[record.key := value];
      }
    }
  }

  method SortedRecords(ctx: Context, values: map<string, Record>) returns (r: Result<seq<Record>>)
    modifies ctx
    ensures r.Ok? ==> r.value == ToRecords(SortedPairs(values))
    ensures r.Err? ==> r.error == Canceled() && ctx.cancelled
  {
    hide SortedKeys;
    var keys := SortedKeyList(values);
    var records: seq<Record> := [];
    var i := 0;
    while i < |keys|
      invariant 0 <= i <= |keys| && records == ToRecords(SortedPairs(values))[..i]
    {
      var cancelled := ctx.Poll();
      if cancelled { return Err(Canceled()); }
      records := records + [KeyValue(keys[i], values[keys[i]])];
      i := i + 1;
    }
    r := Ok(records);
  }

  /** The keys of a map, collected in any order and sorted. */
  method SortedKeyList(values: map<string, Record>) returns (keys: seq<string>)
    ensures keys == SortedKeys(values.Keys) && |keys| == |SortedPairs(values)|
    ensures forall i :: 0 <= i < |keys| ==> keys[i] in values
  {
    var found: seq<string> := [];
    var todo := values.Keys;
    while todo != {}
      invariant todo <= values.Keys && forall key :: key in found <==> key in values.Keys - todo
      decreases |todo|
    {
      var key :| key in todo;
      todo := todo - {key};
      found := found + [key];
    }
    SortKeysIsSortedKeys(found, values.Keys);
    keys := SortKeys(found);
    assert forall i :: 0 <= i < |keys| ==> keys[i] in keys;
  }
}
