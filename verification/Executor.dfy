/** What pulling a record does, and the iterator that reads the buckets of a shuffle
    in snapshot order (executor/shuffle_read.go). The context passed to every call of
    one task is kept as a field. */
module Executor {
  import opened Types
  import opened Ordering
  import opened TextSource
  import opened Keyed
  import opened Streams
  import opened Environment
  import opened Store
  import opened ShuffleFilesystem

  datatype Pulled = Item(record: Record) | NoMore | Fault(error: Failure)

  /** Failures that no input explains: cancellation, the operating system, a closed store. */
  ghost predicate Excused(e: Failure, ctx: Context, store: Filesystem?)
    reads ctx, store
  {
    || (e == Failure(FailureCanceled, None) && ctx.cancelled)
    || (ctx.broken && e.kind in {FailureExecution, FailureShuffleInput})
    || (store != null && store.closed && e == Failure(FailureExecution, None))
  }

  /** What pulling once does to what is still to come. */
  ghost predicate PullsFrom(before: Stream, r: Pulled, after: Stream, ctx: Context, store: Filesystem?)
    reads ctx, store
  {
    match r
    case Item(record) => before.items != [] && record == before.items[0] && after == before.(items := before.items[1..])
    case NoMore => before == Stream([], None) && after == before
    case Fault(e) => Excused(e, ctx, store) || before == Stream([], Some(e))
  }

  // ---------------------------------------------------------------- reading the shuffle

  /** What bucket `p` of an accepted output reads as, from what is published. */
  function BucketAt(c: Codec, hash: string -> nat, published: map<Path, Directory>, p: nat, output: MapOutput): Stream {
    if !ValidMapOutput(output) || p >= output.numReducePartitions then Stream([], Some(Broken()))
    else if !Whole(published, output, p) then Stream([], Some(InputLost(output.attempt, p)))
    else ReadFrom(c, hash, output, p, published[AttemptPath(output.attempt)].buckets[p], 0, 0)
  }

  function BucketsAt(c: Codec, hash: string -> nat, published: map<Path, Directory>, p: nat, outputs: seq<MapOutput>): seq<Stream> {
    if outputs == [] then []
    else [BucketAt(c, hash, published, p, outputs[0])] + BucketsAt(c, hash, published, p, outputs[1..])
  }

  /** Reads one bucket per map task, in snapshot order. */
  class ShuffleIterator {
    const store: Filesystem
    const ctx: Context
    const inputs: seq<MapOutput>
    const partition: nat
    var next: nat
    var reader: BucketReader?
    var closed: bool
    var err: Option<Failure>
    ghost var rest: Stream
    ghost var Repr: set<object>

    /** The buckets not opened yet. */
    ghost function Pending(from: nat): seq<Stream>
      requires from <= |inputs|
      reads store`published
    {
      BucketsAt(store.codec, store.hash, store.published, partition, inputs[from..])
    }

    ghost predicate Valid()
      reads this, Repr
    {
      && this in Repr && store in Repr && ctx !in Repr && store.Valid() && next <= |inputs|
      && (reader != null ==>
            && {reader, reader.decoder} <= Repr && reader.store == store && reader.ctx == ctx && reader.Valid()
            && !reader.closed && next < |inputs| && reader.output == inputs[next] && reader.partition == partition)
      && (closed ==> reader == null) && (err.Some? ==> closed)
      && (!closed ==> rest == Joined((if reader != null then [reader.rest] else [])
                                     + Pending(if reader != null then next + 1 else next)))
      && (closed && err.None? ==> rest == Stream([], None))
    }

    constructor (store: Filesystem, ctx: Context, inputs: seq<MapOutput>, partition: nat)
      requires store.Valid() && ctx as object != store
      ensures Valid() && !closed && err.None? && fresh(Repr - {store}) && this.ctx == ctx && this.store == store
      ensures rest == Joined(BucketsAt(store.codec, store.hash, store.published, partition, inputs))
    {
      this.store, this.ctx, this.inputs, this.partition := store, ctx, inputs, partition;
      next, reader, closed, err := 0, null, false, None;
      rest := Joined(BucketsAt(store.codec, store.hash, store.published, partition, inputs));
      Repr := {this, store};
      new;
      assert inputs[0..] == inputs;
      assert [] + Pending(0) == Pending(0);
    }

    /** A failure closes the iterator and is repeated from then on. */
    method Next() returns (r: Pulled)
      requires Valid()
      modifies Repr, ctx
      ensures Valid() && fresh(Repr - old(Repr)) && store.published == old(store.published) && store.closed == old(store.closed)
      ensures old(err).Some? ==> r == Fault(old(err).value) && err == old(err)
      ensures old(err).None? ==> PullsFrom(old(rest), r, rest, ctx, store)
      ensures r.Fault? <==> err.Some?
    {
      if err.Some? { return Fault(err.value); }
      if closed { return NoMore; }
      while true
        invariant Valid() && !closed && err.None? && rest == old(rest) && store.published == old(store.published)
        invariant store.closed == old(store.closed)
        invariant fresh(Repr - old(Repr))
        decreases |inputs| - next
      {
        var turn := Turn();
        if turn.Some? { return turn.value; }
      }
    }

    /** One turn of the loop: an answer, or the next bucket. */
    method Turn() returns (r: Option<Pulled>)
      requires Valid() && !closed && err.None?
      modifies Repr, ctx
      ensures Valid() && fresh(Repr - old(Repr)) && store.published == old(store.published) && store.closed == old(store.closed)
      ensures r.None? ==> !closed && err.None? && rest == old(rest) && next == old(next) + 1
      ensures r.Some? ==> PullsFrom(old(rest), r.value, rest, ctx, store) && (r.value.Fault? <==> err.Some?)
      ensures r.Some? && r.value.Fault? ==> err == Some(r.value.error)
    {
      var cancelled := ctx.Poll();
      if cancelled {
        var fault := Fail(Canceled());
        return Some(fault);
      }
      if next == |inputs| {
        assert inputs[next..] == [];
        closed := true;
        return Some(NoMore);
      }
      if reader == null {
        var e := OpenNext();
        if e.Some? {
          var fault := Fail(e.value);
          return Some(fault);
        }
      }
      r := ReadOne();
    }

    /** Reads on in the open bucket; at its end goes on to the next. */
    method ReadOne() returns (r: Option<Pulled>)
      requires Valid() && !closed && err.None? && reader != null
      modifies Repr, ctx
      ensures Valid() && Repr == old(Repr) && store.published == old(store.published) && store.closed == old(store.closed)
      ensures r.None? ==> !closed && err.None? && rest == old(rest) && next == old(next) + 1
      ensures r.Some? ==> PullsFrom(old(rest), r.value, rest, ctx, store) && (r.value.Fault? <==> err.Some?)
      ensures r.Some? && r.value.Fault? ==> err == Some(r.value.error)
    {
      hide Joined, BucketsAt, Filesystem.Valid, BucketReader.Valid, ReadFrom;
      ghost var tail, before := Pending(next + 1), reader.rest;
      JoinedCases(before, tail);
      assert [] + tail == tail;
      var read := reader.Next();
      assert Pending(next + 1) == tail;
      match read {
        case Got(pair) =>
          rest := rest.(items := rest.items[1..]);
          return Some(Item(ToRecord(pair)));
        case Ended =>
          reader, next := null, next + 1;
          r := None;
        case Lost(e) =>
          var fault := Fail(e);
          return Some(fault);
      }
    }

    method OpenNext() returns (e: Option<Failure>)
      requires Valid() && !closed && err.None? && reader == null && next < |inputs|
      modifies this`reader, this`Repr, store, ctx
      ensures Valid() && fresh(Repr - old(Repr)) && store.published == old(store.published) && store.closed == old(store.closed)
      ensures e.None? ==> reader != null
      ensures e.Some? ==> reader == null && (Excused(e.value, ctx, store) || rest == Stream([], Some(e.value)))
    {
      hide Joined, Filesystem.Valid, BucketReader.Valid, ReadFrom, ValidMapOutput, Whole;
      assert inputs[next..] == [inputs[next]] + inputs[next + 1..];
      assert [] + Pending(next) == Pending(next);
      JoinedHead(BucketAt(store.codec, store.hash, store.published, partition, inputs[next]), Pending(next + 1));
      var bucket := store.OpenBucket(ctx, inputs[next], partition);
      if bucket.Err? { return Some(bucket.error); }
      reader := bucket.value;
      Repr := Repr + {reader, reader.decoder};
      e := None;
    }

    method Fail(e: Failure) returns (r: Pulled)
      requires this in Repr && store in Repr && ctx !in Repr && store.Valid() && next <= |inputs|
      requires reader != null ==>
        {reader, reader.decoder} <= Repr && reader.store == store && reader.decoder as object != store && reader.Valid()
      modifies Repr
      ensures Valid() && closed && err == Some(e) && r == Fault(e) && Repr == old(Repr) && store.published == old(store.published)
      ensures rest == old(rest) && store.closed == old(store.closed)
    {
      if reader != null { reader.Close(); }
      reader, closed, err := null, true, Some(e);
      r := Fault(e);
    }
  }

  lemma JoinedHead(s: Stream, tail: seq<Stream>)
    ensures Joined([s] + tail) == if s.end.Some? then s else Stream(s.items + Joined(tail).items, Joined(tail).end)
  {
    assert ([s] + tail)[1..] == tail;
  }

  lemma JoinedCases(s: Stream, tail: seq<Stream>)
    ensures s == Stream([], None) ==> Joined([s] + tail) == Joined(tail)
    ensures s.items == [] && s.end.Some? ==> Joined([s] + tail) == s
    ensures s.items != [] ==>
      && Joined([s] + tail).items != [] && Joined([s] + tail).items[0] == s.items[0]
      && Joined([s.(items := s.items[1..])] + tail) == Joined([s] + tail).(items := Joined([s] + tail).items[1..])
  {
    JoinedHead(s, tail);
    if s.items != [] { JoinedHead(s.(items := s.items[1..]), tail); }
    assert [] + Joined(tail).items == Joined(tail).items;
  }
}
