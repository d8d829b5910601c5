/** The objects of the shuffle store: the filesystem with its open handles, the
    writer that publishes an attempt once or not at all, and the reader that
    verifies what it reads (shuffle/filesystem.go, writer.go, reader.go, record.go). */
module ShuffleFilesystem {
  import opened Types
  import opened TextSource
  import opened Keyed
  import opened Streams
  import opened Environment
  import opened Store

  function Broken(): Failure { Failure(FailureExecution, None) }

  /** Where an attempt is published: every field of its identity but the task. */
  datatype Path = Path(
    runID: string, jobID: JobID, shuffleID: ShuffleID, stageID: StageID, stageAttemptID: StageAttemptID,
    mapPartitionID: PartitionID, taskAttemptID: TaskAttemptID)

  function AttemptPath(a: AttemptIdentity): Path {
    Path(a.runID, a.jobID, a.shuffleID, a.stageID, a.stageAttemptID, a.mapPartitionID, a.taskAttemptID)
  }

  /** Two attempts share a path exactly when they differ at most in their task. */
  lemma PathsExactly(a: AttemptIdentity, b: AttemptIdentity)
    ensures AttemptPath(a) == AttemptPath(b) <==> a.(taskID := b.taskID) == b
  {
  }

  function HandlesOf(handles: map<nat, string>, run: string): set<nat> {
    set h | h in handles && handles[h] == run
  }

  predicate Kept(before: map<Path, Directory>, after: map<Path, Directory>) {
    forall path :: path in before ==> path in after && after[path] == before[path]
  }

  /** The published attempt is the one that was accepted, and the bucket has its size. */
  predicate Whole(published: map<Path, Directory>, output: MapOutput, p: PartitionID) {
    var path := AttemptPath(output.attempt);
    && path in published && published[path].manifest == Some(output) && p in published[path].buckets
    && 0 <= p < |output.buckets| && |published[path].buckets[p]| == output.buckets[p].byteCount
  }

  class Filesystem {
    const codec: Codec
    const hash: string -> nat
    var active: map<string, nat>
    var closed: bool
    var published: map<Path, Directory>
    /** Private directories of writers, by random name. */
    var workdirs: map<nat, Directory>
    /** The run in whose namespace each private directory was made. */
    var owners: map<nat, string>
    var nextName: nat
    /** The run of every open writer and reader. */
    ghost var handles: map<nat, string>

    /** `active` counts exactly the open handles of each run. */
    ghost predicate Valid()
      reads this
    {
      && (forall run :: (if run in active then active[run] else 0) == |HandlesOf(handles, run)|)
      && (forall run :: run in active ==> active[run] > 0)
      && (forall h :: h in handles ==> h < nextName)
      && (forall h :: h in workdirs ==> h < nextName && h in owners)
      && (closed ==> handles == map[])
      && codec.digest("") == EMPTY_SHA256
    }

    constructor (codec: Codec, hash: string -> nat)
      requires codec.digest("") == EMPTY_SHA256
      ensures Valid() && published == map[] && handles == map[] && !closed
      ensures this.codec == codec && this.hash == hash
    {
      this.codec, this.hash := codec, hash;
      active, closed, published, workdirs, owners, nextName, handles := map[], false, map[], map[], map[], 0, map[];
    }

    method Acquire(run: string) returns (ok: bool, handle: nat)
      requires Valid()
      modifies this`active, this`nextName, this`handles
      ensures Valid() && ok == !closed && nextName >= old(nextName) && (ok ==> handle < nextName)
      ensures ok ==> handle !in old(handles) && handle !in workdirs && handles == old(handles)[handle := run]
      ensures !ok ==> handles == old(handles)
    {
      handle := nextName;
      if closed { return false, handle; }
      OneMoreHandle(handles, handle, run);
      active := active[run := (if run in active then active[run] else 0) + 1];
      nextName := nextName + 1;
      handles := handles[handle := run];
      ok := true;
    }

    method Release(ghost handle: nat, run: string)
      requires Valid() && handle in handles && handles[handle] == run
      modifies this`active, this`handles
      ensures Valid() && handles == old(handles) - {handle}
    {
      OneHandleLess(handles, handle, run);
      active := active[run := active[run] - 1];
      if active[run] == 0 { active := active - {run}; }
      handles := handles - {handle};
    }

    /** Removes a run's namespace, published and private, unless one of its handles is open. */
    method CleanupRun(run: string) returns (ok: bool)
      requires Valid()
      modifies this`published, this`workdirs
      ensures Valid()
      ensures ok <==> LowerHex(run, 32) && !closed && HandlesOf(handles, run) == {}
      ensures ok ==> published == map path | path in old(published) && path.runID != run :: old(published)[path]
      ensures ok ==> workdirs == map h | h in old(workdirs) && owners[h] != run :: old(workdirs)[h]
      ensures !ok ==> published == old(published) && workdirs == old(workdirs)
    {
      if !LowerHex(run, 32) || closed || run in active { return false; }
      published := map path | path in published && path.runID != run :: published[path];
      workdirs := map h | h in workdirs && owners[h] != run :: workdirs[h];
      ok := true;
    }

    method Close() returns (ok: bool)
      requires Valid()
      modifies this`closed
      ensures Valid() && ok == (old(closed) || handles == map[]) && closed == ok
    {
      if closed { return true; }
      NoHandles(handles, active);
      if active != map[] { return false; }
      closed := true;
      ok := true;
    }

    /** Replaces the contents of a private directory. */
    method PutFiles(handle: nat, directory: Directory)
      requires Valid() && handle in workdirs
      modifies this`workdirs
      ensures Valid() && workdirs == old(workdirs)[handle := directory]
    {
      workdirs := workdirs[handle := directory];
    }

    method RemoveAll(handle: nat)
      requires Valid()
      modifies this`workdirs
      ensures Valid() && workdirs == old(workdirs) - {handle}
    {
      workdirs := workdirs - {handle};
    }

    /** Moves a private directory to a path where nothing is. */
    method Rename(handle: nat, path: Path)
      requires Valid() && handle in workdirs && path !in published
      modifies this`workdirs, this`published
      ensures Valid() && workdirs == old(workdirs) - {handle}
      ensures published == old(published)[path := old(workdirs)[handle]]
    {
      published := published[path := workdirs[handle]];
      workdirs := workdirs - {handle};
    }

    /** Makes an empty private directory in a run's namespace. */
    method MakePrivate(handle: nat, run: string)
      requires Valid() && handle in handles
      modifies this`workdirs, this`owners
      ensures Valid() && workdirs == old(workdirs)[handle := Directory(map[], None)] && owners == old(owners)[handle := run]
    {
      workdirs, owners := workdirs[handle := Directory(map[], None)], owners[handle := run];
    }

    method Begin(ctx: Context, a: AttemptIdentity, maps: int, reduces: int) returns (r: Result<FileWriter>)
      requires Valid() && ctx as object != this
      modifies this`active, this`nextName, this`handles, this`workdirs, this`owners, ctx
      ensures Valid() && published == old(published)
      ensures r.Ok? ==> fresh(r.value) && r.value.store == this && r.value.ctx == ctx && r.value.Valid() && !r.value.closed
      ensures r.Ok? ==> r.value.IsFor(a, maps, reduces) && r.value.written == []
      ensures r.Ok? ==> AttemptPath(a) !in published && r.value.handle !in old(handles)
      ensures r.Ok? ==> handles == old(handles)[r.value.handle := a.runID] && OthersKept(old(workdirs), workdirs, r.value.handle)
      ensures r.Ok? ==> owners == old(owners)[r.value.handle := a.runID]
      ensures r.Err? ==> handles == old(handles) && workdirs == old(workdirs) && owners == old(owners)
      ensures r.Err? ==>
        || (r.error == Canceled() && ctx.cancelled)
        || (r.error == Failure(FailureExecution, None)
            && (ctx.broken || closed || AttemptPath(a) in published
                || !(LowerHex(a.runID, 32) && 0 <= a.mapPartitionID < maps && 0 < reduces)))
    {
      hide Filesystem.Valid, FileWriter.Valid;
      var cancelled := ctx.Poll();
      if cancelled { return Err(Canceled()); }
      if !ValidIdentity(a) || maps <= 0 || a.mapPartitionID >= maps || reduces <= 0 { return Err(Broken()); }
      var acquired, handle := Acquire(a.runID);
      if !acquired { return Err(Broken()); }
      var failed := ctx.Fails();
      if AttemptPath(a) in published || failed {
        Release(handle, a.runID);
        assert handles == old(handles);
        return Err(Broken());
      }
      MakePrivate(handle, a.runID);
      var writer := new FileWriter(this, ctx, handle, a, maps, reduces);
      r := Ok(writer);
    }

    /** Opens a bucket whose manifest and size are what was accepted. */
    method OpenBucket(ctx: Context, output: MapOutput, p: PartitionID) returns (r: Result<BucketReader>)
      requires Valid() && ctx as object != this
      modifies this`active, this`nextName, this`handles, ctx
      ensures Valid()
      ensures r.Ok? ==> fresh(r.value) && r.value.store == this && r.value.ctx == ctx && r.value.Valid() && !r.value.closed
      ensures r.Ok? ==> r.value.handle !in old(handles) && handles == old(handles)[r.value.handle := output.attempt.runID]
      ensures r.Ok? ==> r.value.output == output && r.value.partition == p && 0 <= p < |output.buckets| && fresh(r.value.decoder)
      ensures r.Ok? ==>
        && AttemptPath(output.attempt) in published && p in published[AttemptPath(output.attempt)].buckets
        && published[AttemptPath(output.attempt)].manifest == Some(output)
        && output.numReducePartitions > 0
        && r.value.rest == ReadFrom(codec, hash, output, p, published[AttemptPath(output.attempt)].buckets[p], 0, 0)
      ensures r.Err? ==> handles == old(handles)
      ensures r.Err? ==>
        || (r.error == Canceled() && ctx.cancelled)
        || (r.error == Failure(FailureExecution, None) && (closed || !ValidMapOutput(output) || !(0 <= p < output.numReducePartitions)))
        || (r.error == Failure(FailureShuffleInput, Some(InputReference(output.attempt, p)))
            && (ctx.broken || (ValidMapOutput(output) && 0 <= p < output.numReducePartitions && !Whole(published, output, p))))
      ensures r.Ok? ==> ValidMapOutput(output) && p < output.numReducePartitions && Whole(published, output, p)
    {
      var cancelled := ctx.Poll();
      if cancelled { return Err(Canceled()); }
      if !ValidMapOutput(output) || p < 0 || p >= output.numReducePartitions { return Err(Broken()); }
      var acquired, handle := Acquire(output.attempt.runID);
      if !acquired { return Err(Broken()); }
      var path := AttemptPath(output.attempt);
      var failed := ctx.Fails();
      if failed || path !in published || published[path].manifest != Some(output) || p !in published[path].buckets
         || |published[path].buckets[p]| != output.buckets[p].byteCount {
        Release(handle, output.attempt.runID);
        assert handles == old(handles);
        cancelled := ctx.Poll();
        return Err(if cancelled then Canceled() else InputLost(output.attempt, p));
      }
      var reader := new BucketReader(this, ctx, handle, output, p, published[path].buckets[p]);
      r := Ok(reader);
    }
  }

  ghost predicate OthersKept(before: map<nat, Directory>, after: map<nat, Directory>, handle: nat) {
    forall h: nat :: h != handle ==> (h in after <==> h in before) && (h in before ==> after[h] == before[h])
  }

  lemma OneMoreHandle(handles: map<nat, string>, handle: nat, run: string)
    requires handle !in handles
    ensures |HandlesOf(handles[handle := run], run)| == |HandlesOf(handles, run)| + 1
    ensures forall r :: r != run ==> HandlesOf(handles[handle := run], r) == HandlesOf(handles, r)
  {
    assert HandlesOf(handles[handle := run], run) == HandlesOf(handles, run) + {handle};
  }

  lemma OneHandleLess(handles: map<nat, string>, handle: nat, run: string)
    requires handle in handles && handles[handle] == run
    ensures |HandlesOf(handles - {handle}, run)| == |HandlesOf(handles, run)| - 1
    ensures forall r :: r != run ==> HandlesOf(handles - {handle}, r) == HandlesOf(handles, r)
  {
    assert HandlesOf(handles, run) == HandlesOf(handles - {handle}, run) + {handle};
  }

  lemma NoHandles(handles: map<nat, string>, active: map<string, nat>)
    requires forall run :: (if run in active then active[run] else 0) == |HandlesOf(handles, run)|
    requires forall run :: run in active ==> active[run] > 0
    ensures active == map[] <==> handles == map[]
  {
    if handles != map[] {
      var h :| h in handles;
      assert h in HandlesOf(handles, handles[h]);
      assert handles[h] in active;
    } else {
      assert forall run :: HandlesOf(handles, run) == {};
      assert active.Keys == {};
    }
  }

  // ---------------------------------------------------------------- the writer

  /** The bucket files of a writer: only buckets that got a record exist. */
  function Touched(c: Codec, hash: string -> nat, n: nat, written: seq<KV>): map<PartitionID, string>
    requires n > 0
  {
    map p: int | 0 <= p < n && Bucket(hash, n, p, written) != [] :: Bytes(c, Bucket(hash, n, p, written))
  }

  class FileWriter {
    const store: Filesystem
    const ctx: Context
    /** Names the private directory. */
    const handle: nat
    var output: MapOutput
    /** The data each bucket's running digest has taken in. */
    var hashes: seq<Option<string>>
    var closed: bool
    var err: Option<Failure>
    /** The records written so far. */
    ghost var written: seq<KV>

    ghost predicate IsFor(a: AttemptIdentity, maps: int, reduces: int)
      reads this`output
    {
      output.attempt == a && output.numMapPartitions == maps && output.numReducePartitions == reduces
    }

    ghost predicate Valid()
      reads this, store
    {
      var n := output.numReducePartitions;
      && store.Valid() && n > 0 && |output.buckets| == n && |hashes| == n
      && ValidIdentity(output.attempt) && output.attempt.mapPartitionID < output.numMapPartitions
      && Encodable(store.codec, written)
      && (!closed ==>
            && handle in store.handles && store.handles[handle] == output.attempt.runID
            && handle in store.workdirs && store.workdirs[handle] == Directory(Touched(store.codec, store.hash, n, written), None)
            && output.version == FORMAT_VERSION
            && AllFit(store.codec, store.hash, n, written, output.buckets, hashes))
    }

    constructor (store: Filesystem, ctx: Context, handle: nat, a: AttemptIdentity, maps: int, reduces: int)
      requires store.Valid() && ValidIdentity(a) && a.mapPartitionID < maps && reduces > 0
      requires handle in store.handles && store.handles[handle] == a.runID
      requires handle in store.workdirs && store.workdirs[handle] == Directory(map[], None)
      ensures Valid() && !closed && written == [] && this.store == store && this.ctx == ctx && this.handle == handle
      ensures IsFor(a, maps, reduces)
    {
      this.store, this.ctx, this.handle := store, ctx, handle;
      output := MapOutput(FORMAT_VERSION, a, maps, reduces,
                          seq(reduces, p requires 0 <= p < reduces => BucketMetadata(p, 0, 0, EMPTY_SHA256)));
      hashes := seq(reduces, p => None);
      closed, err, written := false, None, [];
      new;
      assert Touched(store.codec, store.hash, reduces, []) == map[];
    }

    /** Discards the private directory, if the system lets it, and closes. */
    method Discard(cause: Option<Failure>) returns (e: Option<Failure>)
      requires Valid() && !closed && ctx as object != store && ctx as object != this
      modifies this`closed, this`err, store`active, store`handles, store`workdirs, ctx`broken
      ensures Valid() && closed && err == e
      ensures cause.Some? ==> e == cause
      ensures cause.None? && e.Some? ==> e.value == Broken() && ctx.broken
      ensures old(ctx.broken) ==> ctx.broken
      ensures store.handles == old(store.handles) - {handle} && OthersKept(old(store.workdirs), store.workdirs, handle)
    {
      var failed := ctx.Fails();
      if !failed { store.RemoveAll(handle); }
      e := if cause.Some? then cause else if failed then Some(Broken()) else None;
      Finish(e);
    }

    method Finish(e: Option<Failure>)
      requires store.Valid() && handle in store.handles && store.handles[handle] == output.attempt.runID
      modifies this`closed, this`err, store`active, store`handles
      ensures store.Valid() && closed && err == e && store.handles == old(store.handles) - {handle}
    {
      closed, err := true, e;
      store.Release(handle, output.attempt.runID);
    }

    /** Whether the writer may go on; a cancelled context aborts it. */
    method Check() returns (e: Option<Failure>)
      requires Valid() && ctx as object != store && ctx as object != this
      modifies this`closed, this`err, store`active, store`handles, store`workdirs, ctx
      ensures Valid() && (e.None? <==> !closed)
      ensures old(closed) ==> closed && store.handles == old(store.handles) && store.workdirs == old(store.workdirs)
                              && err == old(err) && e == Some(if err.Some? then err.value else Broken())
      ensures !old(closed) && closed ==> e == Some(Canceled()) && ctx.cancelled && store.handles == old(store.handles) - {handle}
      ensures !closed ==> store.handles == old(store.handles) && store.workdirs == old(store.workdirs)
      ensures OthersKept(old(store.workdirs), store.workdirs, handle)
    {
      if closed { return Some(if err.Some? then err.value else Broken()); }
      var cancelled := ctx.Poll();
      if cancelled {
        e := Discard(Some(Canceled()));
        return;
      }
      e := None;
    }

    /** Appends the record to its bucket, or aborts the attempt. */
    method Write(record: KV) returns (e: Option<Failure>)
      requires Valid() && ctx as object != store && ctx as object != this
      modifies this, store`active, store`handles, store`workdirs, ctx
      ensures Valid() && store.published == old(store.published)
      ensures e.None? ==> !closed && written == old(written) + [record]
      ensures e.Some? ==> closed
      ensures e.Some? && !old(closed) ==>
        || (e.value == Canceled() && ctx.cancelled) || (e.value == Failure(FailureExecution, None) && ctx.broken)
        || (e.value == Failure(FailurePermanent, None) && store.codec.encode(record).None?)
      ensures IsFor(old(output).attempt, old(output).numMapPartitions, old(output).numReducePartitions)
      ensures OthersKept(old(store.workdirs), store.workdirs, handle)
      ensures !closed ==> store.handles == old(store.handles)
      ensures closed && !old(closed) ==> store.handles == old(store.handles) - {handle}
    {
      hide AllFit, Touched, Bytes, Bucket, Filesystem.Valid, Encodable, ValidIdentity;
      e := Check();
      if e.Some? { return; }
      var data := store.codec.encode(record);
      if data.None? {
        e := Discard(Some(Permanent()));
        return;
      }
      var n := output.numReducePartitions;
      var p := Home(store.hash, n, record.key);
      var failed := ctx.Fails();
      if failed {
        e := Discard(Some(Broken()));
        return;
      }
      Append(record, p, data.value + "\n");
      e := Check();
    }

    method Append(record: KV, p: nat, line: string)
      requires Valid() && !closed && p == Home(store.hash, output.numReducePartitions, record.key)
      requires store.codec.encode(record).Some? && line == store.codec.encode(record).value + "\n"
      modifies this`output, this`hashes, this`written, store`workdirs
      ensures Valid() && !closed && written == old(written) + [record]
      ensures IsFor(old(output).attempt, old(output).numMapPartitions, old(output).numReducePartitions)
      ensures OthersKept(old(store.workdirs), store.workdirs, handle)
    {
      hide AllFit, Touched, Bytes, Bucket, Home, Filesystem.Valid, Encodable, ValidIdentity, OthersKept, PutLine, TakeIn, CountIn;
      ghost var n, before := output.numReducePartitions, written;
      var files := PutLine(store.workdirs[handle].buckets, p, line);
      EncodableMore(store.codec, before, record);
      BucketsGrow(store.codec, store.hash, n, p, before, record, output.buckets, hashes);
      TouchedGrows(store.codec, store.hash, n, before, record);
      PutKeepsOthers(store.workdirs, handle, Directory(files, None));
      hashes := hashes[p := TakeIn(hashes[p], line)];
      output := output.(buckets := output.buckets[p := CountIn(output.buckets[p], line)]);
      written := written + [record];
      store.PutFiles(handle, Directory(files, None));
    }

    /** Makes the attempt visible under its path, complete and only once, or discards it. */
    method Publish() returns (r: Result<MapOutput>)
      requires Valid() && ctx as object != store && ctx as object != this
      modifies this, store, ctx
      ensures store.closed == old(store.closed)
      ensures Valid() && closed && Kept(old(store.published), store.published)
      ensures r.Ok? ==>
        var n := old(output).numReducePartitions;
        var o := old(output);
        && !old(closed) && AttemptPath(o.attempt) !in old(store.published)
        && n > 0 && r.value == Manifest(store.codec, store.hash, o.attempt, o.numMapPartitions, n, old(written))
        && store.published == old(store.published)[AttemptPath(o.attempt) :=
             PublishedDirectory(store.codec, store.hash, o.attempt, o.numMapPartitions, n, old(written))]
      ensures r.Err? ==> store.published == old(store.published)
      ensures r.Err? && !old(closed) ==>
        || (r.error == Canceled() && ctx.cancelled)
        || (r.error == Failure(FailureExecution, None) && (ctx.broken || AttemptPath(old(output).attempt) in old(store.published)))
      ensures store.handles == old(store.handles) - {handle} || (old(closed) && store.handles == old(store.handles))
      ensures OthersKept(old(store.workdirs), store.workdirs, handle)
    {
      hide AllFit, Touched, Bytes, Bucket, Encodable, ValidIdentity, PublishedBuckets, Infos;
      var e := Check();
      if e.Some? { return Err(e.value); }
      var cause := Seal();
      if cause.Some? {
        e := Abandon(cause);
        return Err(e.value);
      }
      r := Rename();
    }

    /** Completes the metadata and the files of every bucket. */
    method Seal() returns (cause: Option<Failure>)
      requires Valid() && !closed && ctx as object != store && ctx as object != this
      modifies this`output, store`workdirs, ctx
      ensures store.Valid() && handle in store.workdirs && OthersKept(old(store.workdirs), store.workdirs, handle)
      ensures output == old(output).(buckets := output.buckets) && |output.buckets| == |old(output.buckets)|
      ensures cause.Some? ==> (cause.value == Canceled() && ctx.cancelled) || (cause.value == Broken() && ctx.broken)
      ensures cause.None? ==>
        var n := output.numReducePartitions;
        && output.buckets == Infos(store.codec, store.hash, n, written)
        && store.workdirs[handle].buckets == PublishedBuckets(store.codec, store.hash, n, written)
    {
      hide AllFit, Touched, Bytes, Bucket, Filesystem.Valid, Encodable, ValidIdentity, SealBuckets, FillEmpty, PublishedBuckets, Infos;
      ghost var n, c, o := output.numReducePartitions, store.codec, output;
      ghost var files := store.workdirs[handle].buckets;
      assert c.digest("") == EMPTY_SHA256 by { StoreKnowsEmpty(); }
      FitSizes(c, store.hash, n, written, o.buckets, hashes);
      AllKept(store.workdirs, handle);
      SealedIsPublished(c, store.hash, n, written, o.buckets, hashes, files);
      hide *;
      var i := 0;
      while i < |output.buckets|
        invariant 0 <= i <= |output.buckets| == |hashes| && store.Valid()
        invariant output == o.(buckets := output.buckets) && |output.buckets| == |o.buckets|
        invariant SealBuckets(c, output.buckets, hashes, i) == SealBuckets(c, o.buckets, hashes, 0)
        invariant handle in store.workdirs && OthersKept(old(store.workdirs), store.workdirs, handle)
        invariant FillEmpty(store.workdirs[handle].buckets, hashes, i) == FillEmpty(files, hashes, 0)
      {
        SealStep(c, output.buckets, hashes, i);
        FillStep(store.workdirs[handle].buckets, hashes, i);
        var cancelled := ctx.Poll();
        var failed := ctx.Fails();
        if cancelled { return Some(Canceled()); }
        if hashes[i].None? && failed { return Some(Broken()); }
        var b := output.buckets[i];
        if hashes[i].Some? {
          output := output.(buckets := output.buckets[i := b.(sha256 := store.codec.digest(hashes[i].value))]);
        } else {
          PutStillKeeps(old(store.workdirs), store.workdirs, handle, Directory(store.workdirs[handle].buckets[i := ""], None));
          store.PutFiles(handle, Directory(store.workdirs[handle].buckets[i := ""], None));
        }
        i := i + 1;
      }
      SealStep(c, output.buckets, hashes, i);
      FillStep(store.workdirs[handle].buckets, hashes, i);
      var failed := ctx.Fails();
      if failed { return Some(Broken()); }
      cause := None;
    }

    lemma StoreKnowsEmpty()
      requires store.Valid()
      ensures store.codec.digest("") == EMPTY_SHA256
    {
    }

    /** Moves the finished directory into place unless something is there already. */
    method Rename() returns (r: Result<MapOutput>)
      requires store.Valid() && handle in store.handles && store.handles[handle] == output.attempt.runID && handle in store.workdirs
      requires ctx as object != store && ctx as object != this
      modifies this, store, ctx
      ensures store.closed == old(store.closed)
      ensures store.Valid() && closed && store.handles == old(store.handles) - {handle}
      ensures OthersKept(old(store.workdirs), store.workdirs, handle)
      ensures r.Ok? ==> AttemptPath(output.attempt) !in old(store.published) && r.value == output == old(output)
                        && store.published == old(store.published)[AttemptPath(output.attempt) :=
                             Directory(old(store.workdirs)[handle].buckets, Some(output))]
      ensures r.Err? ==> store.published == old(store.published)
      ensures r.Err? ==>
        || (r.error == Canceled() && ctx.cancelled)
        || (r.error == Broken() && (ctx.broken || AttemptPath(output.attempt) in old(store.published)))
      ensures output == old(output) && hashes == old(hashes) && written == old(written)
    {
      store.PutFiles(handle, store.workdirs[handle].(manifest := Some(output)));
      var cancelled := ctx.Poll();
      var failed := ctx.Fails();
      if cancelled || failed || AttemptPath(output.attempt) in store.published {
        var e := Abandon(Some(if cancelled then Canceled() else Broken()));
        return Err(e.value);
      }
      store.Rename(handle, AttemptPath(output.attempt));
      Finish(None);
      r := Ok(output);
    }

    /** Aborts in the middle of publishing. */
    method Abandon(cause: Option<Failure>) returns (e: Option<Failure>)
      requires store.Valid() && handle in store.handles && store.handles[handle] == output.attempt.runID && cause.Some?
      requires ctx as object != store && ctx as object != this
      modifies this`closed, this`err, store`active, store`handles, store`workdirs, ctx`broken
      ensures old(ctx.broken) ==> ctx.broken
      ensures store.Valid() && closed && e == cause && store.handles == old(store.handles) - {handle}
      ensures OthersKept(old(store.workdirs), store.workdirs, handle)
    {
      var failed := ctx.Fails();
      if !failed { store.RemoveAll(handle); }
      e := cause;
      Finish(e);
    }

    /** Discards an open attempt; a closed one keeps its outcome. */
    method Abort() returns (e: Option<Failure>)
      requires Valid() && ctx as object != store && ctx as object != this
      modifies this`closed, this`err, store`active, store`handles, store`workdirs, ctx`broken
      ensures Valid() && closed && e == err && store.published == old(store.published)
      ensures e.Some? && !old(closed) ==> e.value == Failure(FailureExecution, None) && ctx.broken
      ensures old(ctx.broken) ==> ctx.broken
      ensures old(closed) ==> e == old(err) && store.handles == old(store.handles)
      ensures !old(closed) ==> store.handles == old(store.handles) - {handle}
      ensures OthersKept(old(store.workdirs), store.workdirs, handle)
    {
      if closed { return err; }
      e := Discard(None);
    }
  }

  /** One more line in a bucket's file, its metadata and its digest. */
  function PutLine(files: map<PartitionID, string>, p: nat, line: string): map<PartitionID, string> {
    files[p := (if p in files then files[p] else "") + line]
  }

  function CountIn(meta: BucketMetadata, line: string): BucketMetadata {
    meta.(recordCount := meta.recordCount + 1, byteCount := meta.byteCount + |line|)
  }

  function TakeIn(taken: Option<string>, line: string): Option<string> {
    Some((if taken.Some? then taken.value else "") + line)
  }

  predicate BucketFits(c: Codec, hash: string -> nat, n: nat, p: nat, written: seq<KV>, meta: BucketMetadata, taken: Option<string>)
    requires n > 0
  {
    var records := Bucket(hash, n, p, written);
    var bytes := Bytes(c, records);
    meta == BucketMetadata(p, |records|, |bytes|, EMPTY_SHA256) && taken == if records == [] then None else Some(bytes)
  }

  lemma BucketGrows(c: Codec, hash: string -> nat, n: nat, q: nat, before: seq<KV>, record: KV, meta: BucketMetadata,
                    taken: Option<string>)
    requires n > 0 && BucketFits(c, hash, n, q, before, meta, taken) && c.encode(record).Some?
    ensures var line := c.encode(record).value + "\n";
            if q == Home(hash, n, record.key) then
              BucketFits(c, hash, n, q, before + [record], CountIn(meta, line), TakeIn(taken, line))
            else BucketFits(c, hash, n, q, before + [record], meta, taken)
  {
    hide *;
    BucketStep(hash, n, q, before, record);
    BytesStep(c, Bucket(hash, n, q, before), record);
    FitsMore(c, hash, n, q, before, record, meta, taken);
  }

  lemma BucketStep(hash: string -> nat, n: nat, q: nat, before: seq<KV>, record: KV)
    requires n > 0
    ensures Bucket(hash, n, q, before + [record]) ==
            if q == Home(hash, n, record.key) then Bucket(hash, n, q, before) + [record] else Bucket(hash, n, q, before)
  {
    hide Home;
    assert (before + [record])[..|before|] == before;
    assert Bucket(hash, n, q, before) + [] == Bucket(hash, n, q, before);
  }

  lemma BytesStep(c: Codec, records: seq<KV>, record: KV)
    requires c.encode(record).Some?
    ensures Bytes(c, records + [record]) == Bytes(c, records) + (c.encode(record).value + "\n")
  {
    hide *;
    BytesJoin(c, records, [record]);
    BytesOfOne(c, record);
  }

  lemma FitsMore(c: Codec, hash: string -> nat, n: nat, q: nat, before: seq<KV>, record: KV, meta: BucketMetadata,
                 taken: Option<string>)
    requires n > 0 && BucketFits(c, hash, n, q, before, meta, taken) && c.encode(record).Some?
    requires var records := Bucket(hash, n, q, before);
             && Bucket(hash, n, q, before + [record]) == (if q == Home(hash, n, record.key) then records + [record] else records)
             && Bytes(c, records + [record]) == Bytes(c, records) + (c.encode(record).value + "\n")
    ensures var line := c.encode(record).value + "\n";
            if q == Home(hash, n, record.key) then
              BucketFits(c, hash, n, q, before + [record], CountIn(meta, line), TakeIn(taken, line))
            else BucketFits(c, hash, n, q, before + [record], meta, taken)
  {
    hide Bucket, Home;
    hide Bytes;
    BytesOfNone(c);
    var line := c.encode(record).value + "\n";
    assert "" + line == line;
  }

  predicate AllFit(c: Codec, hash: string -> nat, n: nat, written: seq<KV>, buckets: seq<BucketMetadata>, hashes: seq<Option<string>>)
    requires n > 0
  {
    |buckets| == |hashes| == n && forall p: nat :: p < n ==> BucketFits(c, hash, n, p, written, buckets[p], hashes[p])
  }

  lemma EncodableMore(c: Codec, before: seq<KV>, record: KV)
    requires Encodable(c, before) && c.encode(record).Some?
    ensures Encodable(c, before + [record])
  {
  }

  lemma BucketsGrow(c: Codec, hash: string -> nat, n: nat, p: nat, before: seq<KV>, record: KV, buckets: seq<BucketMetadata>,
                    hashes: seq<Option<string>>)
    requires n > 0 && AllFit(c, hash, n, before, buckets, hashes) && c.encode(record).Some? && p == Home(hash, n, record.key)
    ensures |buckets| == |hashes| == n
    ensures var line := c.encode(record).value + "\n";
            AllFit(c, hash, n, before + [record], buckets[p := CountIn(buckets[p], line)], hashes[p := TakeIn(hashes[p], line)])
  {
    var line := c.encode(record).value + "\n";
    var buckets1, hashes1 := buckets[p := CountIn(buckets[p], line)], hashes[p := TakeIn(hashes[p], line)];
    hide BucketFits, CountIn, TakeIn;
    forall q: nat | q < n ensures BucketFits(c, hash, n, q, before + [record], buckets1[q], hashes1[q]) {
      BucketGrows(c, hash, n, q, before, record, buckets[q], hashes[q]);
    }
  }

  lemma PutKeepsOthers(workdirs: map<nat, Directory>, handle: nat, directory: Directory)
    ensures OthersKept(workdirs, workdirs[handle := directory], handle)
  {
  }

  lemma PutStillKeeps(before: map<nat, Directory>, workdirs: map<nat, Directory>, handle: nat, directory: Directory)
    requires OthersKept(before, workdirs, handle)
    ensures OthersKept(before, workdirs[handle := directory], handle)
  {
  }

  lemma AllKept(workdirs: map<nat, Directory>, handle: nat)
    ensures OthersKept(workdirs, workdirs, handle)
  {
  }

  /** Two writers of one attempt, however far each has got: at most one publishes,
      and the loser leaves what the winner published as it is. */
  method PublishBoth(a: FileWriter, b: FileWriter) returns (first: Result<MapOutput>, second: Result<MapOutput>)
    requires a.Valid() && b.Valid() && a != b && a.store == b.store && a.handle != b.handle
    requires AttemptPath(a.output.attempt) == AttemptPath(b.output.attempt)
    requires a.ctx as object !in {a, b, a.store} && b.ctx as object !in {a, b, b.store}
    modifies a, b, a.store, a.ctx, b.ctx
    ensures a.store.Valid() && Kept(old(a.store.published), a.store.published)
    ensures first.Err? || second.Err?
    ensures first.Ok? ==> AttemptPath(old(a.output).attempt) in a.store.published
                          && a.store.published[AttemptPath(old(a.output).attempt)].manifest == Some(first.value)
  {
    first := a.Publish();
    assert b.Valid() by { hide Touched, AllFit, Bytes, Encodable; }
    second := b.Publish();
  }

  // ---------------------------------------------------------------- sealing

  /** Buckets from `i` on get the digest of what they took in. */
  function SealBuckets(c: Codec, buckets: seq<BucketMetadata>, hashes: seq<Option<string>>, i: nat): (r: seq<BucketMetadata>)
    requires i <= |buckets| == |hashes|
    ensures |r| == |buckets|
    decreases |buckets| - i
  {
    if i == |buckets| then buckets
    else
      var b := if hashes[i].Some? then buckets[i].(sha256 := c.digest(hashes[i].value)) else buckets[i];
      SealBuckets(c, buckets[i := b], hashes, i + 1)
  }

  lemma SealStep(c: Codec, buckets: seq<BucketMetadata>, hashes: seq<Option<string>>, i: nat)
    requires i <= |buckets| == |hashes|
    ensures i == |buckets| ==> SealBuckets(c, buckets, hashes, i) == buckets
    ensures i < |buckets| ==>
      SealBuckets(c, buckets, hashes, i) ==
      SealBuckets(c, if hashes[i].Some? then buckets[i := buckets[i].(sha256 := c.digest(hashes[i].value))] else buckets, hashes, i + 1)
  {
    assert i < |buckets| ==> buckets[i := buckets[i]] == buckets;
  }

  /** Buckets from `i` on that took nothing in get an empty file. */
  function FillEmpty(files: map<PartitionID, string>, hashes: seq<Option<string>>, i: nat): map<PartitionID, string>
    requires i <= |hashes|
    decreases |hashes| - i
  {
    if i == |hashes| then files else FillEmpty(if hashes[i].None? then files[i := ""] else files, hashes, i + 1)
  }

  lemma FillStep(files: map<PartitionID, string>, hashes: seq<Option<string>>, i: nat)
    requires i <= |hashes|
    ensures i == |hashes| ==> FillEmpty(files, hashes, i) == files
    ensures i < |hashes| ==>
      FillEmpty(files, hashes, i) == FillEmpty(if hashes[i].None? then files[i := ""] else files, hashes, i + 1)
  {
  }

  lemma {:induction false} SealAt(c: Codec, buckets: seq<BucketMetadata>, hashes: seq<Option<string>>, i: nat, p: nat)
    requires i <= |buckets| == |hashes| && p < |buckets|
    ensures SealBuckets(c, buckets, hashes, i)[p] ==
            if p >= i && hashes[p].Some? then buckets[p].(sha256 := c.digest(hashes[p].value)) else buckets[p]
    decreases |buckets| - i
  {
    SealStep(c, buckets, hashes, i);
    if i < |buckets| {
      SealAt(c, if hashes[i].Some? then buckets[i := buckets[i].(sha256 := c.digest(hashes[i].value))] else buckets, hashes, i + 1, p);
    }
  }

  lemma {:induction false} FillAt(files: map<PartitionID, string>, hashes: seq<Option<string>>, i: nat)
    requires i <= |hashes|
    ensures forall p :: p in FillEmpty(files, hashes, i) <==> p in files || (i <= p < |hashes| && hashes[p].None?)
    ensures forall p :: p in FillEmpty(files, hashes, i) ==>
      FillEmpty(files, hashes, i)[p] == if i <= p < |hashes| && hashes[p].None? then "" else files[p]
    decreases |hashes| - i
  {
    if i < |hashes| { FillAt(if hashes[i].None? then files[i := ""] else files, hashes, i + 1); }
  }

  /** Sealing what a writer holds gives the metadata and files of a published attempt. */
  lemma SealedIsPublished(c: Codec, hash: string -> nat, n: nat, written: seq<KV>, buckets: seq<BucketMetadata>,
                          hashes: seq<Option<string>>, files: map<PartitionID, string>)
    requires n > 0 && AllFit(c, hash, n, written, buckets, hashes) && files == Touched(c, hash, n, written)
    requires c.digest("") == EMPTY_SHA256
    ensures SealBuckets(c, buckets, hashes, 0) == Infos(c, hash, n, written)
    ensures FillEmpty(files, hashes, 0) == PublishedBuckets(c, hash, n, written)
  {
    hide *;
    assert |buckets| == |hashes| == n by { FitSizes(c, hash, n, written, buckets, hashes); }
    forall p: nat | p < n
      ensures SealBuckets(c, buckets, hashes, 0)[p] == BucketInfo(c, hash, n, p, written)
      ensures hashes[p].None? <==> Bucket(hash, n, p, written) == []
    {
      FitAt(c, hash, n, written, buckets, hashes, p);
      SealAt(c, buckets, hashes, 0, p);
    }
    FillAt(files, hashes, 0);
    FilledIsPublished(c, hash, n, written, hashes, FillEmpty(files, hashes, 0));
  }

  lemma FitSizes(c: Codec, hash: string -> nat, n: nat, written: seq<KV>, buckets: seq<BucketMetadata>, hashes: seq<Option<string>>)
    requires n > 0 && AllFit(c, hash, n, written, buckets, hashes)
    ensures |buckets| == |hashes| == n
  {
  }

  lemma FitAt(c: Codec, hash: string -> nat, n: nat, written: seq<KV>, buckets: seq<BucketMetadata>, hashes: seq<Option<string>>, p: nat)
    requires n > 0 && AllFit(c, hash, n, written, buckets, hashes) && p < n && c.digest("") == EMPTY_SHA256
    ensures |buckets| == |hashes| == n && (hashes[p].None? <==> Bucket(hash, n, p, written) == [])
    ensures BucketInfo(c, hash, n, p, written) ==
            if hashes[p].Some? then buckets[p].(sha256 := c.digest(hashes[p].value)) else buckets[p]
  {
    assert BucketFits(c, hash, n, p, written, buckets[p], hashes[p]);
    hide Bucket;
  }

  lemma FilledIsPublished(c: Codec, hash: string -> nat, n: nat, written: seq<KV>, hashes: seq<Option<string>>,
                          filled: map<PartitionID, string>)
    requires n > 0 && |hashes| == n
    requires forall p: nat :: p < n ==> (hashes[p].None? <==> Bucket(hash, n, p, written) == [])
    requires forall p :: p in filled <==> p in Touched(c, hash, n, written) || (0 <= p < n && hashes[p].None?)
    requires forall p :: p in filled ==>
      filled[p] == if 0 <= p < n && hashes[p].None? then "" else Touched(c, hash, n, written)[p]
    ensures filled == PublishedBuckets(c, hash, n, written)
  {
    hide Bucket, Bytes;
    BytesOfNone(c);
  }

  lemma TouchedGrows(c: Codec, hash: string -> nat, n: nat, before: seq<KV>, record: KV)
    requires n > 0 && c.encode(record).Some?
    ensures var files, p := Touched(c, hash, n, before), Home(hash, n, record.key);
            Touched(c, hash, n, before + [record]) == PutLine(files, p, c.encode(record).value + "\n")
  {
    hide Bucket, Home, Bytes;
    var after, p := before + [record], Home(hash, n, record.key);
    BytesStep(c, Bucket(hash, n, p, before), record);
    assert Bytes(c, []) == "" by { BytesOfNone(c); }
    var line := c.encode(record).value + "\n";
    assert "" + line == line;
    forall q: nat | q < n
      ensures Bucket(hash, n, q, after) == if q == p then Bucket(hash, n, q, before) + [record] else Bucket(hash, n, q, before)
    {
      BucketStep(hash, n, q, before, record);
    }
    assert 0 <= p < n by { HomeInRange(hash, n, record.key); }
  }

  lemma BytesOfNone(c: Codec)
    ensures Bytes(c, []) == ""
  {
  }

  lemma HomeInRange(hash: string -> nat, n: nat, key: string)
    requires n > 0
    ensures 0 <= Home(hash, n, key) < n
  {
  }

  // ---------------------------------------------------------------- the reader

  const BUFFER: nat := 4096

  datatype Fragment = Complete(text: string) | BufferFull(text: string) | AtEnd(text: string)

  /** bufio's ReadSlice over a 4096-byte buffer: through the next newline, a full
      buffer without one, or what is left of the file. */
  function ReadSlice(file: string, pos: nat): Fragment
    requires pos <= |file|
  {
    var end := LineEnd(file, pos);
    if pos < |file| && file[end - 1] == '\n' && end - pos <= BUFFER then Complete(file[pos..end])
    else if |file| - pos >= BUFFER then BufferFull(file[pos..pos + BUFFER])
    else AtEnd(file[pos..])
  }

  /** `pos` is inside the line that starts at `start`, or at the end of a file whose last line has no newline. */
  predicate Within(file: string, start: nat, pos: nat, end: nat) {
    && start <= pos <= end <= |file| && LineEnd(file, start) == end && LineEnd(file, pos) == end
    && (start < |file| ==> end == |file| || file[end - 1] == '\n')
    && (pos == end ==> end == |file| && (start < |file| ==> file[end - 1] != '\n'))
  }

  lemma WithinStart(file: string, pos: nat)
    requires pos <= |file|
    ensures Within(file, pos, pos, LineEnd(file, pos)) && pos <= LineEnd(file, pos) <= |file|
  {
    if pos < |file| { LineEndStops(file, pos, pos); }
  }

  lemma SlicesJoin(file: string, start: nat, pos: nat, next: nat)
    requires start <= pos <= next <= |file|
    ensures file[start..pos] + file[pos..next] == file[start..next]
    ensures next > start ==> file[start..next][..next - start - 1] == file[start..next - 1]
  {
  }

  /** What one more fragment of a line tells. */
  lemma SliceFacts(file: string, start: nat, pos: nat, end: nat)
    requires Within(file, start, pos, end)
    ensures var f := ReadSlice(file, pos);
            var next := pos + |f.text|;
            && next <= end && f.text == file[pos..next]
            && (f.Complete? ==> next == end && |f.text| > 0
                                && FrameAt(file, start) == if end - 1 - start > MAX_RECORD_BYTES then TooLarge
                                                           else RecordLine(file[start..end - 1], end))
            && (f.BufferFull? ==> |f.text| == BUFFER && Within(file, start, next, end)
                                  && (next - start > MAX_RECORD_BYTES ==> FrameAt(file, start) == TooLarge))
            && (f.AtEnd? ==> |f.text| <= BUFFER && next == |file|
                             && FrameAt(file, start) == if start == |file| then EndOfFile
                                                        else if next - start > MAX_RECORD_BYTES then TooLarge else MissingNewline)
            && (f.Complete? ==> |f.text| <= BUFFER)
  {
    var f := ReadSlice(file, pos);
    if pos < end { LineEndStops(file, pos, pos); }
    if f.BufferFull? && pos + BUFFER < end { LineEndSuffix(file, pos, pos + BUFFER); }
  }

  /** Why a decoder stopped: between records at the end of the file, or at a bad line. */
  datatype Stop = CleanEnd | BadLine

  /** Reads bounded lines; after any error it stays there. */
  class RecordDecoder {
    const codec: Codec
    const file: string
    var pos: nat
    var err: Option<Stop>

    ghost predicate Valid()
      reads this
    {
      pos <= |file|
    }

    constructor (codec: Codec, file: string)
      ensures Valid() && this.codec == codec && this.file == file && pos == 0 && err.None?
    {
      this.codec, this.file, pos, err := codec, file, 0, None;
    }

    /** Collects fragments into a line, never more than the limit and one buffer. */
    method ReadLine() returns (frame: Frame)
      requires Valid()
      modifies this`pos
      ensures Valid() && frame == FrameAt(file, old(pos))
      ensures frame.RecordLine? ==> pos == frame.next
      ensures frame.EndOfFile? ==> pos == |file|
      ensures frame.TooLarge? ==> pos - old(pos) <= MAX_RECORD_BYTES + BUFFER + 1
    {
      hide FrameAt, ReadSlice, LineEnd, Within;
      var line := "";
      ghost var start, end := pos, LineEnd(file, pos);
      WithinStart(file, pos);
      while true
        invariant start <= pos <= end <= |file| && Within(file, start, pos, end) && line == file[start..pos]
        invariant |line| <= MAX_RECORD_BYTES
        decreases |file| - pos, if pos < |file| then 1 else 0
      {
        SliceFacts(file, start, pos, end);
        SlicesJoin(file, start, pos, pos + |ReadSlice(file, pos).text|);
        var fragment := ReadSlice(file, pos);
        var length := |line| + |fragment.text|;
        if fragment.Complete? { length := length - 1; }
        pos := pos + |fragment.text|;
        if length > MAX_RECORD_BYTES { return TooLarge; }
        line := line + fragment.text;
        if fragment.Complete? { return RecordLine(line[..|line| - 1], pos); }
        if fragment.AtEnd? { return if |line| == 0 then EndOfFile else MissingNewline; }
      }
    }

    /** The next record, or why there is none. */
    method Next() returns (pair: Option<KV>)
      requires Valid()
      modifies this
      ensures Valid()
      ensures pair.Some? ==> old(err).None? && err.None? && FrameAt(file, old(pos)).RecordLine?
                             && codec.decode(FrameAt(file, old(pos)).line) == pair && pos == FrameAt(file, old(pos)).next
      ensures pair.None? ==> err.Some? && (old(err).Some? ==> err == old(err))
      ensures pair.None? && old(err).None? ==>
        var frame := FrameAt(file, old(pos));
        && (frame.RecordLine? ==> codec.decode(frame.line).None?)
        && err == Some(if frame.EndOfFile? then CleanEnd else BadLine)
    {
      if err.Some? { return None; }
      var frame := ReadLine();
      if frame.RecordLine? {
        pair := codec.decode(frame.line);
        if pair.Some? { return; }
      }
      err := Some(if frame.EndOfFile? then CleanEnd else BadLine);
      pair := None;
    }
  }

  datatype Read = Got(pair: KV) | Ended | Lost(error: Failure)

  /** Yields the records of one bucket and certifies them before saying it is done. */
  class BucketReader {
    const store: Filesystem
    const ctx: Context
    ghost const handle: nat
    const output: MapOutput
    const partition: PartitionID
    const decoder: RecordDecoder
    var records: nat
    var closed: bool
    /** What a closed reader keeps answering. */
    var outcome: Read
    /** What is still to come. */
    ghost var rest: Stream

    ghost predicate Valid()
      reads this, store, decoder
    {
      && store.Valid() && decoder.Valid() && decoder.codec == store.codec
      && 0 <= partition < |output.buckets| && output.numReducePartitions > 0
      && (closed ==> !outcome.Got?)
      && (!closed ==>
            && handle in store.handles && store.handles[handle] == output.attempt.runID && decoder.err.None?
            && rest == ReadFrom(store.codec, store.hash, output, partition, decoder.file, decoder.pos, records))
    }

    constructor (store: Filesystem, ctx: Context, ghost handle: nat, output: MapOutput, p: PartitionID, file: string)
      requires store.Valid() && handle in store.handles && store.handles[handle] == output.attempt.runID
      requires 0 <= p < |output.buckets| && output.numReducePartitions > 0
      ensures Valid() && !closed && this.store == store && this.ctx == ctx && this.handle == handle
      ensures this.output == output && partition == p && fresh(decoder)
      ensures rest == ReadFrom(store.codec, store.hash, output, p, file, 0, 0)
    {
      this.store, this.ctx, this.handle, this.output, partition := store, ctx, handle, output, p;
      decoder := new RecordDecoder(store.codec, file);
      records, closed, outcome := 0, false, Ended;
      rest := ReadFrom(store.codec, store.hash, output, p, file, 0, 0);
    }

    method Next() returns (r: Read)
      requires Valid() && ctx as object != store && ctx as object != this && ctx as object != decoder
      modifies this, decoder, store`active, store`handles, ctx
      ensures Valid()
      ensures old(closed) ==> r == old(outcome) && closed && rest == old(rest) && store.handles == old(store.handles)
      ensures r.Got? ==> !closed && old(rest).items != [] && ToRecord(r.pair) == old(rest).items[0]
                         && rest == old(rest).(items := old(rest).items[1..]) && store.handles == old(store.handles)
      ensures !r.Got? ==> closed && outcome == r
      ensures !r.Got? && !old(closed) ==> store.handles == old(store.handles) - {handle}
      ensures !old(closed) && r.Ended? ==> old(rest) == Stream([], None)
      ensures !old(closed) && r.Lost? ==> (r.error == Canceled() && ctx.cancelled) || old(rest) == Stream([], Some(r.error))
    {
      if closed { return outcome; }
      var cancelled := ctx.Poll();
      if cancelled {
        r := Lost(Canceled());
        Finish(r);
        return;
      }
      var pair := decoder.Next();
      cancelled := ctx.Poll();
      if cancelled {
        r := Lost(Canceled());
        Finish(r);
        return;
      }
      var lost := InputLost(output.attempt, partition);
      if pair.Some? {
        records := records + 1;
        if Home(store.hash, output.numReducePartitions, pair.value.key) == partition && records <= output.buckets[partition].recordCount {
          rest := rest.(items := rest.items[1..]);
          return Got(pair.value);
        }
        r := Lost(lost);
      } else if decoder.err == Some(CleanEnd) && Certified(store.codec, output.buckets[partition], decoder.file, records) {
        r := Ended;
      } else {
        r := Lost(lost);
      }
      Finish(r);
    }

    method Finish(r: Read)
      requires store.Valid() && handle in store.handles && store.handles[handle] == output.attempt.runID && !r.Got?
      modifies this`closed, this`outcome, store`active, store`handles
      ensures store.Valid() && closed && outcome == r && store.handles == old(store.handles) - {handle}
    {
      closed, outcome := true, r;
      store.Release(handle, output.attempt.runID);
    }

    /** Releases the handle; it certifies nothing. */
    method Close()
      requires Valid()
      modifies this`closed, this`outcome, store`active, store`handles
      ensures Valid() && closed
      ensures old(closed) ==> outcome == old(outcome) && store.handles == old(store.handles)
      ensures !old(closed) ==> store.handles == old(store.handles) - {handle}
    {
      if !closed { Finish(Lost(Broken())); }
    }
  }
}
