/** Values shared by the planner, the schedulers and the executor: identifiers,
    stage and task descriptions, shuffle metadata and the checks on them. */
module Types {

  datatype Option<+T> = None | Some(value: T)

  datatype Result<+T> = Ok(value: T) | Err(error: Failure)

  type RDDID = nat
  type JobID = nat
  type StageID = nat
  type ShuffleID = nat
  type TaskID = nat
  type StageAttemptID = nat
  type TaskAttemptID = nat
  type PartitionID = int
  type WorkerID = string

  /** A record of the data plane. `JsonNumber` keeps only the signed 64-bit
      integer its text denotes, if any. */
  datatype Record =
    | Text(text: string)
    | Integer(n: int)
    | JsonNumber(integer: Option<int>)
    | KeyValue(key: string, value: Record)
    | Other(tag: nat)

  datatype KV = KV(key: string, value: Record)

  datatype FailureKind =
    | FailureExecution
    | FailurePermanent
    | FailureShuffleInput
    | FailureCanceled
    | FailureWorkerLost
    | FailureUnrecognized

  /** What remains of an error: its kind and, for lost input, which bucket. */
  datatype Failure = Failure(kind: FailureKind, input: Option<InputReference>)

  function Permanent(): Failure { Failure(FailurePermanent, None) }
  function Canceled(): Failure { Failure(FailureCanceled, None) }

  // ---------------------------------------------------------------- plans

  datatype PartitionerSpec = PartitionerSpec(hash: bool, numPartitions: int)

  datatype OperatorKind = OpSource | OpMap | OpFilter | OpMapToPair | OpMapValues | OpReduceByKey | OpUnsupported

  datatype OperatorSpec = OperatorSpec(kind: OperatorKind, functionID: string, sourcePath: string)

  datatype StageOperation =
    | ShuffleRead(shuffleID: ShuffleID, partitioner: PartitionerSpec)
    | RDDOperation(rddID: RDDID, operator: OperatorSpec)

  datatype StageKind = StageShuffleMap | StageResult

  datatype ActionKind = ActionCollect | ActionCount | ActionUnsupported

  datatype ActionSpec = ActionSpec(kind: ActionKind, targetRDD: RDDID)

  datatype ShuffleWriteSpec = ShuffleWriteSpec(
    shuffleID: ShuffleID, partitioner: PartitionerSpec, aggregatorID: string, mapSideCombine: bool)

  datatype Stage = Stage(
    id: StageID, kind: StageKind, parentIDs: seq<StageID>, numPartitions: int, operations: seq<StageOperation>,
    shuffleWrite: Option<ShuffleWriteSpec>, finalAction: Option<ActionSpec>)

  datatype Task = Task(
    id: TaskID, stageID: StageID, kind: StageKind, partitionID: PartitionID, numPartitions: int,
    operations: seq<StageOperation>, shuffleWrite: Option<ShuffleWriteSpec>, finalAction: Option<ActionSpec>)

  datatype TaskSet = TaskSet(
    inputs: Option<InputSnapshot>, jobID: JobID, stageID: StageID, stageAttemptID: StageAttemptID, tasks: seq<Task>)

  // ---------------------------------------------------------------- shuffle metadata

  datatype AttemptIdentity = AttemptIdentity(
    runID: string, jobID: JobID, shuffleID: ShuffleID, stageID: StageID, stageAttemptID: StageAttemptID,
    taskID: TaskID, taskAttemptID: TaskAttemptID, mapPartitionID: PartitionID)

  datatype InputReference = InputReference(attempt: AttemptIdentity, partitionID: PartitionID)

  datatype BucketMetadata = BucketMetadata(partitionID: PartitionID, recordCount: int, byteCount: int, sha256: string)

  datatype MapOutput = MapOutput(
    version: int, attempt: AttemptIdentity, numMapPartitions: int, numReducePartitions: int,
    buckets: seq<BucketMetadata>)

  datatype InputSnapshot = InputSnapshot(
    runID: string, jobID: JobID, shuffleID: ShuffleID, stageID: StageID, stageAttemptID: StageAttemptID,
    numMapPartitions: int, numReducePartitions: int, outputs: seq<MapOutput>)

  datatype TaskOutput = TaskOutput(records: Option<seq<Record>>, count: int, shuffleOutput: Option<MapOutput>)

  const FORMAT_VERSION := 1

  /** SHA-256 of no bytes. */
  const EMPTY_SHA256 := "e3b0c44298fc1c149afbf4c8996fb92427ae41e4649b934ca495991b7852b855"

  predicate LowerHex(s: string, length: nat) {
    |s| == length && forall i :: 0 <= i < |s| ==> '0' <= s[i] <= '9' || 'a' <= s[i] <= 'f'
  }

  predicate ValidIdentity(a: AttemptIdentity) {
    LowerHex(a.runID, 32) && a.mapPartitionID >= 0
  }

  predicate ValidReference(r: InputReference) {
    ValidIdentity(r.attempt) && r.partitionID >= 0
  }

  predicate ValidBucket(b: BucketMetadata, i: int) {
    && b.partitionID == i
    && b.recordCount >= 0 && b.byteCount >= 0 && LowerHex(b.sha256, 64)
    && (if b.recordCount == 0 then b.byteCount == 0 && b.sha256 == EMPTY_SHA256 else b.byteCount >= b.recordCount)
  }

  predicate ValidMapOutput(o: MapOutput) {
    && o.version == FORMAT_VERSION
    && ValidIdentity(o.attempt)
    && o.numMapPartitions > 0 && o.attempt.mapPartitionID < o.numMapPartitions
    && o.numReducePartitions > 0 && |o.buckets| == o.numReducePartitions
    && forall i :: 0 <= i < |o.buckets| ==> ValidBucket(o.buckets[i], i)
  }

  /** What one output of a snapshot must agree on with the snapshot. */
  predicate FitsSnapshot(s: InputSnapshot, o: MapOutput, i: int) {
    && ValidMapOutput(o)
    && o.attempt.runID == s.runID && o.attempt.jobID == s.jobID && o.attempt.shuffleID == s.shuffleID
    && o.attempt.stageID == s.stageID && o.attempt.stageAttemptID == s.stageAttemptID
    && o.attempt.mapPartitionID == i
    && o.numMapPartitions == s.numMapPartitions && o.numReducePartitions == s.numReducePartitions
  }

  predicate ValidSnapshot(s: InputSnapshot) {
    && LowerHex(s.runID, 32) && s.numMapPartitions > 0 && s.numReducePartitions > 0
    && |s.outputs| == s.numMapPartitions
    && forall i :: 0 <= i < |s.outputs| ==> FitsSnapshot(s, s.outputs[i], i)
  }

  predicate ValidFailure(kind: FailureKind, input: Option<InputReference>) {
    match kind
    case FailureShuffleInput => input.Some? && ValidReference(input.value)
    case FailureExecution | FailurePermanent | FailureCanceled => input.None?
    case FailureWorkerLost | FailureUnrecognized => false
  }

  // ---------------------------------------------------------------- task attempts

  datatype TaskAttemptIdentity = TaskAttemptIdentity(id: TaskAttemptID, taskID: TaskID, stageAttemptID: StageAttemptID)

  datatype TaskAttemptSuccess = TaskAttemptSuccess(
    jobID: JobID, stageID: StageID, attempt: TaskAttemptIdentity, partitionID: PartitionID, workerID: WorkerID,
    output: TaskOutput)

  datatype TaskAttemptFailure = TaskAttemptFailure(
    kind: FailureKind, shuffleInput: Option<InputReference>, jobID: JobID, stageID: StageID,
    attempt: TaskAttemptIdentity, partitionID: PartitionID, workerID: WorkerID, error: string)

  /** The check both schedulers make before accepting an output. */
  predicate AcceptableOutput(o: TaskOutput, runID: string, jobID: JobID, t: Task, attempt: TaskAttemptIdentity) {
    if t.kind == StageShuffleMap then
      && t.shuffleWrite.Some? && t.finalAction.None?
      && o.shuffleOutput.Some? && o.records.None? && o.count == 0
      && AcceptableMapOutput(o.shuffleOutput.value, runID, jobID, t, attempt)
    else
      && t.finalAction.Some? && o.shuffleOutput.None? && o.count >= 0
      && match t.finalAction.value.kind
         case ActionCount => o.records.None?
         case ActionCollect => o.count == 0 && o.records.Some?
         case ActionUnsupported => false
  }

  predicate AcceptableMapOutput(m: MapOutput, runID: string, jobID: JobID, t: Task, attempt: TaskAttemptIdentity)
    requires t.shuffleWrite.Some?
  {
    && ValidMapOutput(m)
    && m.attempt == IdentityOf(runID, jobID, t, attempt)
    && m.numMapPartitions == t.numPartitions
    && m.numReducePartitions == t.shuffleWrite.value.partitioner.numPartitions
  }

  /** The identity under which a map attempt publishes. */
  function IdentityOf(runID: string, jobID: JobID, t: Task, attempt: TaskAttemptIdentity): AttemptIdentity
    requires t.shuffleWrite.Some?
  {
    AttemptIdentity(runID, jobID, t.shuffleWrite.value.shuffleID, t.stageID, attempt.stageAttemptID,
                    t.id, attempt.id, t.partitionID)
  }
}
