# A verified model of SparkCore Go

SparkCore Go builds a lazy RDD lineage, plans it into stages, runs the stages
through a DAG event loop, places their tasks on unreliable workers through a FIFO
scheduler, and executes them as map, shuffle and reduce loops over a shared store.
This project models that machinery in Dafny and proves what it promises.

The main result joins all parts. In every interleaving of submissions, offers,
honest reports (late, lost or repeated), retries, cancellations, worker losses,
damaged bucket reads and shuffle recoveries, a job that is answered with success is
answered exactly once, with its action over all partitions of its lineage, in
order, each computed in full (`EndToEndResult.SuccessIsComputed`, which asks nothing
of functions or storage). So its answer agrees with the sequential list evaluation
of its lineage over the input file (`SuccessIsSequentialEvaluation`). Without a
shuffle the answer is the very same list (`NarrowJobIsExact`). With one, values pass
through storage, which gives integers back as JSON numbers; then the answer has the
same records in the same order up to what values mean, provided storage keeps that
meaning and the reduce functions are associative in it. `WordCount.SumJobIsExact` is
the instance for the repository's own word count: every key once, with the true sum
of all its values. Conversely, with reduce functions that never fail the partitions
can be computed exactly when the sequential evaluation succeeds
(`Completeness.ComputedExactly`). And there are such answers:
`SuccessfulRun.SucceedsExactly` shows that a planned job of any width, with or without
a shuffle, is answered with success in some run exactly when its lineage can be
computed, and `SuccessfulRun.ReductionSucceeds` names the runs' lineages in full.

The transition systems, the classes and the theorems share their checks and their
record functions, so a mistake in one of those would go through all of them unseen.
Modules named after outcomes (`Outputs`, `FifoOutcomes`, `FifoExpiry`, `DagOutcomes`,
`StepMeaning`, `ReduceMeaning`) therefore say what each operation does on the fields
alone, without these functions: which outputs are accepted, which failures are tried
again, when a lost input starts a job over, what a filter keeps, in which order keys
come out.

## How it is organised

| layer | modules |
|---|---|
| shared values | `Types`, `Outputs`, `Ordering`, `FiniteSets`, `Environment` |
| lineage and planning | `Lineage`, `Planner` |
| FIFO task scheduler | `Fifo`, `FifoSets`, `FifoInvariant`, `FifoSteps`, `FifoTheorems`, `FifoRuns`, `FifoOutcomes`, `FifoExpiry`; the object in `FifoScheduler` |
| DAG scheduler | `Dag`, `DagInvariant`, `DagSteps`, `DagTheorems`, `DagRuns`, `DagRecovery`, `DagOutcomes`; the object in `DagScheduler` |
| data: meaning | `TextSource`, `Keyed`, `Streams`, `Evaluation`, `StepMeaning`, `ReduceMeaning`, `Completeness`, `ExampleFunctions` |
| data: loops | `Store`, `ShuffleFilesystem`, `Executor` (the shuffle iterator), `Pipeline` (the other iterators), `Runner` |
| both ends joined | `JobMeaning`, `EndToEnd`, `EndToEndResult`, `OneRun`, `WordCount`, `MixedAggregators` |
| workers and progress | `AcceptedReports`, `HonestWorkers`, `FifoProgress`, `JobProgress`, `SuccessfulRun` |
| worker protocol | `WorkerRuntime`, `PlannedAssignments` |

Each scheduler is given twice: as a transition system over values, on which
invariants and theorems over all runs are proved, and as a class whose methods
change its fields step by step and are proved to reach exactly the state the
transition system prescribes. The executor and the store are classes with loops,
proved against functions on streams (`Streams`, `Store`), which the data theorems
are about.

What stands for the world outside: a context is a flag that may turn cancelled
whenever it is asked; a file operation may fail whenever it is tried, which its ghost
field `broken` remembers; clocks are arguments. User functions, the hash, the digest
and the record codec are parameters. A user function may fail. What the end-to-end
theorem asks of them is `Evaluation.Lawful`, lineage by lineage, for a notion of
meaning that is free to choose: nothing before the first shuffle; at a shuffle,
storage that keeps meaning and a reduce function that, where it succeeds, computes an
associative function on meanings, with a combining function that computes the same;
after it, steps that treat alike records alike. That covers total associative
functions and the bounded sum of the examples. Fields named `delivered`, `returned`,
`responses`, `launched`, `retired`, `started`, `written` and `rest` are history: the
source has them as messages sent, not as state.

## Found on the way

- Plan validation compares widths across shuffles only. A lineage made by hand that
  changes width between its last shuffle and its target is planned and started, and
  fails when its map stage completes. `DagRecovery.WidenedReaderIsPlanned` is an
  example that passes validation and planning; `EndToEndResult.InputsFailOnLineage`
  is the exact condition, on the lineage alone: the target is not as wide as the
  partitioner of its last shuffle. `DagRecovery.BuiltWidthsAgree` shows that
  driver-built lineages never meet it. Narrow steps that change width elsewhere do
  no harm, since a source is opened with the width of its stage; the end-to-end
  theorem covers them.
- Plan validation accepts names made of spaces, and operators with a stray field (a
  source that names a function, a step that names a path); the protocol refuses the
  assignment. `PlannedAssignments.BlankPathIsRefused` and `StrayFieldIsRefused` are
  the examples, `ResultAssignmentAccepted` and `MapAssignmentAccepted` the exact
  conditions.
- Nothing compares a shuffle's aggregator with the function its node reduces with.
  `MixedAggregators.AggregatorExactly` says when that is right: on all data every key
  gets the left fold of its values if and only if the combining function computes, on
  what values mean, what the reducing one does. The end-to-end theorem asks just
  that, where combining is on. `MixedAggregators.MixedJobDiffers` is an accepted
  lineage of two total, associative functions that fails it: any job over it that
  succeeds answers with the first line, its sequential evaluation is the last. The
  driver always sets both to the same function (`Planner.BuiltChainIsUniform`,
  `Evaluation.SameReducerCombines`).
- The comment on the planner's memo of shuffle stages suggests sharing; since
  validation makes every lineage a chain, the memo is never hit while planning
  (`Planner.StageBuilder.BuildStage`).
- `sum_int` is not associative as a partial function
  (`ExampleFunctions.SumIntIsNotAssociative`), yet every run of it that succeeds
  gives true sums (`ExampleFunctions.BoundedSumsAreExact`).
- A map task that is cancelled just after publishing reports failure although its
  output is visible; nothing else can be left behind by a failure
  (`Runner.RunShuffleMap`), and what is left is a publishing step like any other
  (`HonestWorkers.RunMapAttempt`). Attempt identities keep such output from ever
  being used.

## Model

| member | source | states |
|---|---|---|
| EndToEndResult.SuccessIsComputed | scheduler/dag_scheduler.go:252-320 | in every run of the whole system a job answered with success was answered once, with its action over all partitions of its lineage in order, each computed in full; nothing is asked of functions, widths or storage |
| EndToEndResult.SuccessIsSequentialEvaluation | scheduler/dag_scheduler.go:252-320 | so it agrees with the sequential evaluation of its lineage: for Collect its records in order, equal without a shuffle and alike in meaning with one; for Count their number |
| EndToEndResult.NarrowJobIsExact | scheduler/dag_scheduler.go:252-320 | without a shuffle the answer is exactly the sequential evaluation, whatever the functions, the widths and storage |
| WordCount.SumJobIsExact | internal/examplefuncs/functions.go:50-65 | in every run a job that sums by key and succeeds answers every key once with the true integer sum of all its values, bounded sum, map-side combine and JSON-number storage included |
| EndToEndResult.InputsFailOnLineage | scheduler/dag_stage_execution.go:94-96 | building a stage's inputs fails exactly when the last map output arrives for a lineage whose target is not as wide as its last shuffle |
| EndToEndResult.StepInv | scheduler/fifo_task_scheduler.go:228-383 | every event of the whole system keeps: FIFO sets are launched sets, logged and delivered successes are honest outputs of launched tasks, published attempts hold what their tasks write, accepted DAG outputs come from delivered reports of their own attempt, launched sets read only metadata that describes what was published, jobs follow their plans |
| EndToEndResult.CompletedIsRight | scheduler/dag_scheduler.go:287-294 | the step that answers a job with success answers with its action over all partitions of its lineage, each computed in full |
| EndToEndResult.StepInputsGood | scheduler/dag_stage_execution.go:87-97 | a task set is launched only with snapshots whose metadata describes what its attempts published |
| JobMeaning.AnswerIsComputed | scheduler/dag_scheduler.go:308-320 | if every accepted output is its task's action over its partition, the merged outputs are the action over all partitions in order |
| JobMeaning.AnswerIsEvaluation | scheduler/dag_scheduler.go:308-320 | an answer computed over all partitions agrees with the evaluated lineage |
| JobMeaning.ShufflePart | scheduler/dag_stage_execution.go:87-97 | a result task that ends well has read every bucket of the accepted map outputs whole, so what it reports is its partition of the lineage |
| JobMeaning.MapStageHolds | shuffle/metadata.go:45-52 | the accepted outputs of a finished map stage hold exactly what its tasks write |
| HonestWorkers.BucketReadIsHonest | shuffle/reader.go:163-181 | whatever a bucket file has come to hold, if damage to it shows in its digest, reading it ends in failure or yields what the attempt published to that bucket |
| HonestWorkers.IntactBucketIsRead | shuffle/reader.go:19-82 | a bucket whose files are as published is opened and read in full |
| HonestWorkers.RunResultAttempt | worker/task.go:22-58 | a success of an assigned result task is an honest report, granted while the attempt lives; a failure is excused by cancellation or the system, or is what its input reads as |
| HonestWorkers.RunMapAttempt | worker/task.go:22-58 | whatever running an assigned map task leaves published, with success or cancelled after publishing, is exactly one publishing step of the system; a success is honest, granted while the attempt lives and stored while the task is awaited; a failure has its reason in cancellation, the system, the path or the task itself |
| HonestWorkers.AcceptedIsExecutable | executor/local_runner.go:109-111 | the runner never refuses for its shape what the worker accepted as an assignment |
| HonestWorkers.AssignedReads | scheduler/dag_stage_execution.go:87-97 | the map outputs an assignment names describe what their attempts published |
| Evaluation.PartitionsEvaluate | executor/pipeline.go:12-102 | for any number of shuffles, when every partition of a lineage is computed the partitions in order agree with the sequential list evaluation: equal without a shuffle, alike in meaning with one |
| Completeness.ComputedExactly | executor/pipeline.go:12-102 | with reduce functions that never fail, every partition of a lineage can be computed exactly when its sequential evaluation succeeds |
| SuccessfulRun.SucceedsExactly | scheduler/dag_scheduler.go:132-320 | if storage takes what its map tasks would write, a planned job of any widths, with or without a shuffle, is answered with success in some run exactly when its target is as wide as its last shuffle and every partition of its lineage can be computed |
| SuccessfulRun.EvaluatedJobSucceeds | scheduler/dag_scheduler.go:132-320 | with reduce functions that never fail, a planned job whose lineage evaluates is answered in some run, with an answer that agrees with the evaluation |
| SuccessfulRun.NarrowJobSucceeds | scheduler/dag_scheduler.go:132-320 | a planned lineage without a shuffle that evaluates is answered in some run with exactly that evaluation |
| SuccessfulRun.ReductionSucceeds | api/rdd.go:38-71 | the reduction the driver builds over an existing file is answered in some run for every number of map partitions and of reduce partitions |
| OneRun.AlwaysOneRun | scheduler/dag_scheduler.go:262-272 | in every run all published outputs and all jobs carry the task scheduler's run ID, and published outputs come from attempts it made |
| AcceptedReports.MapIsGranted | scheduler/fifo_task_scheduler.go:306-335 | while its attempt lives, the report of what a map task published is granted: the task has succeeded with it and its set waits for one task less |
| AcceptedReports.MapIsStored | scheduler/dag_scheduler.go:252-295 | delivered while its task is awaited, that output is stored under its partition and the stage waits for one less; the last one starts the result stage |
| Streams.PlanKeepsMeaning | scheduler/planner.go:60-150 | evaluating a plan's stages gives the partitions of the lineage, failures included, when each stage is as wide as the shuffle it reads |
| Streams.StageKeepsMeaning | scheduler/planner.go:84-130 | the same for every stage of a plan, reading what its parent's tasks write |
| Keyed.ShuffleKeepsMeaning | executor/shuffle_map.go:76-126 | with or without map-side combine, even with another function that computes the same, a reduce task emits exactly the keys with hash(key) modulo the width equal to its partition, each before those it precedes character by character, each with the left fold of all the key's values in (map partition, record) order |
| Ordering.LessExactly | executor/reduce.go:76 | the order keys are sorted in: a proper prefix first, otherwise by the first character that differs |
| ReduceMeaning.ReductionExactly | executor/reduce.go:46-85 | an evaluated reduction lists every key of its input once, partition by hash and then in that order, each with the left fold of its values |
| StepMeaning.NarrowExactly | executor/iterator.go:48-115 | evaluating a map, filter, map-to-pair or map-values step, in terms of the registered function alone: a filter keeps exactly what it accepts in order, the others give f of each record, keeping keys where they should, and the first failure wins |
| Keyed.KeyEmittedOnce | executor/reduce.go:46-85 | over all reduce partitions every key is emitted at exactly one place |
| Keyed.TotalShuffleSucceeds | executor/reduce.go:63-70 | with a total reduce function no task of the shuffle fails |
| Keyed.ReduceInputMeaning | executor/shuffle_read.go:66-101 | the values a reduce task reads for its keys, in snapshot order, fold to what all the map input's values fold to |
| ExampleFunctions.BoundedSumsAreExact | internal/examplefuncs/functions.go:50-65 | whenever a combine-and-reduce run of sum_int succeeds each key has the true integer sum of all its values, combined or not |
| ExampleFunctions.SumIntExactly | internal/examplefuncs/functions.go:60-63 | the overflow test fails exactly the sums that do not fit 64 bits |
| ExampleFunctions.SumIntIsNotAssociative | internal/examplefuncs/functions.go:60-63 | a concrete triple shows the bounded sum is not associative |
| ExampleFunctions.SumIntIsLawful | internal/examplefuncs/functions.go:50-65 | the bounded sum meets what the end-to-end theorem asks of a reduce function, and storage as JSON numbers what it asks of storage |
| MixedAggregators.AggregatorExactly | executor/shuffle_map.go:29-35 | combining with one function and reducing with another gives every key the left fold of its values, for all hashes, widths and data, if and only if the one computes on meanings what the other does |
| MixedAggregators.MixedJobDiffers | plan/validate.go:53-61 | in every run, a job over a certain accepted lineage with different aggregator and reducer that succeeds answers with something else than its sequential evaluation |
| TextSource.PartitionsAreLines | executor/text_source.go:46-54 | for every file and partition count the partitions' records, in order, are the file's lines: none lost, split or repeated |
| TextSource.LinesAreTheFile | executor/text_source.go:104-117 | the lines, with their ends, concatenate to the file, only the last may lack a newline, and each record is its line without the newline and then without one carriage return |
| TextSource.BoundaryExactly | executor/text_source.go:46-54 | a partition starts at the offset in proportion to its number, rounded down |
| TextSource.TextPartitionIterator.Next | executor/text_source.go:92-118 | each call yields the next line of the partition, then the end; cancellation closes it |
| TextSource.Open | executor/text_source.go:23-55 | opens exactly the partition's lines, or fails for a partition outside the file's |
| Lineage.RDDGraph.Validate | plan/validate.go:6-16 | accepts a target exactly when every node reachable from it is sound and no walk from it repeats a node |
| Lineage.RDDGraph.ValidateFrom | plan/validate.go:26-69 | the three-colour search ends on every graph and on refusal exhibits a bad walk |
| Lineage.FoundedIsAcceptable | plan/validate.go:26-69 | a lineage of finite depth is sound and free of cycles |
| Lineage.RDDGraph.AddNode | plan/graph.go:28-43 | stores a well-shaped node under the next number and refuses any other |
| Lineage.Context.TextFile | api/context.go:20-33 | adds a source node of the given width |
| Lineage.Context.Narrow | api/rdd.go:73-114 | adds a one-to-one step as wide as its parent; filters and value maps keep the partitioner |
| Lineage.Context.ReduceByKey | api/rdd.go:38-71 | adds a shuffle with the next shuffle ID, above all in use, and takes that ID; combined with the function it reduces with |
| Lineage.BuiltIsAcceptable | api/rdd.go:38-114 | a driver-built lineage passes validation exactly when every operator reachable from its target is valid |
| Lineage.NamedIsAcceptable | api/rdd.go:38-114 | a driver-built lineage passes validation exactly when every operator reachable from its target names its path or its function |
| Lineage.SoundExactly | plan/validate.go:36-99 | a node is sound exactly when it is a source with a path, a named one-to-one step over a known parent, or a named reduction as wide as its hash partitioner |
| Planner.BuiltChainIsUniform | api/rdd.go:106 | driver-built lineages have equal widths along narrow steps and matching aggregators |
| Planner.Plan | scheduler/planner.go:20-43 | yields the plan of the target's chain exactly when the action is known, the lineage valid and every function registered |
| Planner.StageBuilder.BuildStage | scheduler/planner.go:60-82 | appends the stages above a target and then its own; the memo of shuffle stages is never hit |
| Planner.StageBuilder.BuildPipeline | scheduler/planner.go:84-130 | collects the pipeline down to the source or the nearest shuffle |
| Planner.StageBuilder.BuildShuffleStage | scheduler/planner.go:132-150 | returns a recorded stage or builds the map stage of the dependency |
| Planner.PlanHasOneStagePerShuffle | scheduler/planner.go:20-43 | one map stage per shuffle and one result stage, numbered in order, each after its parents |
| Planner.PlanRejoinsLineage | scheduler/planner.go:109-120 | joining the pipelines at their shuffle reads gives the lineage's operators back |
| Planner.ValidateFunctions | scheduler/function_validation.go:19-48 | succeeds exactly when every function along the lineage is registered |
| DagOutcomes.ExecutableExactly | scheduler/dag_stage_execution.go:41-60 | the plans that can be executed are those of lineages with at most one shuffle |
| Planner.GenerateTasks | scheduler/task_generator.go:11-40 | one task per partition of every stage in order, or an error for a stage without partitions |
| Planner.TaskNumbering | scheduler/task_generator.go:25-37 | each stage owns one task per partition, in order, numbered on from the stages before it |
| Planner.TaskIDsAreDense | scheduler/task_generator.go:29 | task IDs are positions in the whole list |
| FifoSteps.StepInv | scheduler/fifo_task_scheduler.go:228-412 | every method keeps the invariant: reservations are exactly a worker's live attempts and fit its slots, a live attempt is its task's active one and the task runs, counters count retained attempts, the queue is strictly sequence-sorted and holds every live set, a live set's remaining count is the positive number of unsucceeded tasks, lost workers hold nothing |
| FifoTheorems.OfferIsFifo | scheduler/fifo_task_scheduler.go:262-300 | an accepted offer assigns exactly the first k pending tasks in queue order, k the smaller of the capacity left and the number pending, and leaves the rest pending |
| FifoTheorems.PendingListIsFifoOrder | scheduler/fifo_task_scheduler.go:194-217 | that order is by (set sequence, partition), over exactly the pending tasks of live uncancelled sets |
| FifoRuns.ExactlyOnce | scheduler/fifo_task_scheduler.go:158-191 | in any run a set's queued and delivered reports hold at most one success per task and one final failure, and a nil return has delivered exactly one success of each task |
| FifoRuns.LateReportsChangeNothing | scheduler/fifo_task_scheduler.go:387-405 | deleting every report about an ended attempt from any run leaves the same final state and deliveries |
| FifoRuns.LostWorkersReportNothing | scheduler/worker_expiry.go:30-54 | reports of lost workers change nothing |
| FifoRuns.AssignmentsWithinBudget | scheduler/fifo_task_scheduler.go:364-383 | a task's counter is its number of retained attempts, at most the limit, so a set makes at most tasks times limit assignments, losses included |
| FifoRuns.OneLiveAttempt | scheduler/fifo_task_scheduler.go:277-299 | a task has at most one live attempt |
| FifoRuns.OfferWithinSlots | scheduler/fifo_task_scheduler.go:248-275 | reservations fit the slots, and after an offer that assigns work so does their union with what the worker reports running |
| FifoRuns.LostForEver | scheduler/worker_registry.go:51-66 | a lost worker stays lost, holds no reservation and is offered nothing in any later run |
| FifoRuns.AcceptedOutputsSurvive | scheduler/worker_expiry.go:30-54 | an accepted output is untouched by every later event |
| FifoRuns.StepProvenance | scheduler/fifo_task_scheduler.go:306-335 | every logged success came from an attempt assigned for that set, with an acceptable output |
| FifoSets.TerminalSetsAreFrozen | scheduler/fifo_task_scheduler.go:419-427 | a terminal set takes no report and keeps its outcome |
| FifoScheduler.FIFOTaskScheduler.RegisterWorker | scheduler/worker_registry.go:51-66 | idempotent registration; lost or differently sized workers are refused |
| FifoOutcomes.RegisterOutcome | scheduler/worker_registry.go:51-66 | when a registration is granted, and that it only adds a live worker with its slots and no reservation |
| FifoOutcomes.SubmitOutcome | scheduler/fifo_task_scheduler.go:130-157 | exactly which task sets are queued, and that such a set joins the end of the queue with all its tasks pending in partition order |
| FifoOutcomes.OfferOutcome | scheduler/fifo_task_scheduler.go:228-302 | exactly which offers are granted, and how many tasks one gives out, from slots, running attempts, reservations and pending tasks |
| FifoOutcomes.OfferIsHeartbeat | scheduler/fifo_task_scheduler.go:255-299 | a granted offer records when it came and what the worker said, reserves for it just what it is given, and changes no other worker |
| FifoOutcomes.SuccessOutcome | scheduler/fifo_task_scheduler.go:306-335 | an acceptable output of a live attempt is granted: the task has succeeded with it, the set waits for one less and ends with the last, the slot is free, nothing else changes |
| FifoOutcomes.FailureOutcome | scheduler/fifo_task_scheduler.go:338-383 | exactly which failures of a live attempt are granted; then the task is pending again, in a set still live and queued, if and only if the kind is execution or lost worker and attempts are left, and otherwise the set has ended with the task's error, reported as exhausted exactly for these two kinds |
| FifoOutcomes.CancelledOutcome | scheduler/fifo_task_scheduler.go:306-383 | the next report about a cancelled set ends it with its context's error and records no output |
| FifoOutcomes.DrainOutcome | scheduler/fifo_task_scheduler.go:158-191 | delivery hands over every queued report once, in order, and the call returns exactly when the set has ended or is cancelled |
| FifoExpiry.ExpireOutcome | scheduler/worker_expiry.go:15-54 | exactly the workers silent for the timeout are lost; their attempts end, and each task is tried again or ends its set as for a reported loss |
| Outputs.MapOutputsExactly | scheduler/task_output.go:6-20 | a map output is accepted exactly when it is nothing but a valid manifest of its own attempt and widths |
| Outputs.ResultOutputsExactly | scheduler/task_output.go:6-39 | a result is accepted exactly when it is nothing but records for Collect, or nothing but a count that is not negative for Count |
| Outputs.ValidMapOutputsExactly | shuffle/metadata.go:45-88 | a manifest is valid exactly when it lists one sound bucket for each reduce partition, in order |
| Outputs.ValidSnapshotsExactly | shuffle/input.go:23-43 | a snapshot is valid exactly when it holds one valid output of every map partition, in order, of one run, job, shuffle, stage and stage attempt |
| FifoScheduler.FIFOTaskScheduler.PrepareTaskSet | scheduler/fifo_task_scheduler.go:194-217 | refuses exactly malformed task sets and sorts the tasks by partition |
| FifoScheduler.FIFOTaskScheduler.SubmitTaskSet | scheduler/fifo_task_scheduler.go:130-157 | queues one new stage attempt under the next sequence number |
| FifoScheduler.FIFOTaskScheduler.DrainReports | scheduler/fifo_task_scheduler.go:158-191 | one turn of the delivery loop: all queued reports go out once, and the call returns once the set is terminal |
| FifoScheduler.FIFOTaskScheduler.OfferResources | scheduler/fifo_task_scheduler.go:228-302 | records the heartbeat, assigns as the transition system says, compacts the queue |
| FifoScheduler.FIFOTaskScheduler.CompactQueue | scheduler/fifo_task_scheduler.go:428-440 | drops exactly the terminal sets, in order |
| FifoScheduler.FIFOTaskScheduler.ValidateReport | scheduler/fifo_task_scheduler.go:387-405 | tells errors, late reports and reports of the live attempt apart |
| FifoScheduler.FIFOTaskScheduler.ReportTaskSuccess | scheduler/fifo_task_scheduler.go:306-335 | accepts an acceptable output of the live attempt once and frees its slot |
| FifoScheduler.FIFOTaskScheduler.ReportTaskFailure | scheduler/fifo_task_scheduler.go:338-383 | requeues within the budget or ends the set |
| FifoScheduler.FIFOTaskScheduler.ExpireWorkers | scheduler/worker_expiry.go:15-54 | fences every silent worker and fails its attempts in ascending order |
| FifoScheduler.FIFOTaskScheduler.CloseScheduler | scheduler/fifo_task_scheduler.go:442-450 | ends every live set and refuses further calls |
| DagSteps.StepInv | scheduler/dag_scheduler.go:100-130 | every event keeps the invariant: the barrier, tasks and counts of every stage, accepted outputs of the current attempt only, launched sets as recorded, one answer per finished job |
| DagTheorems.BarrierAndSnapshot | scheduler/dag_stage_execution.go:62-111 | a stage with a parent runs only on a finished parent; its task set carries a valid snapshot with the one accepted output of every map partition, all of the parent's current attempt and one run |
| DagTheorems.AttemptsInStep | scheduler/dag_recovery.go:46-57 | parent and child attempts differ by at most one, are equal while the child runs, and stay within the budget |
| DagTheorems.StepMoves | scheduler/dag_scheduler.go:252-295 | an unanswered job changes only by an accepted output, the start of its result stage, a recovery of both stages, or its context |
| DagInvariant.SnapshotValidity | shuffle/input.go:23-43 | a snapshot of a finished map stage is valid exactly when the child is as wide as the shuffle |
| DagRecovery.InputsFailExactly | scheduler/dag_stage_execution.go:94-96 | building inputs fails exactly when the map stage completes and the widths differ |
| DagRecovery.BuiltWidthsAgree | scheduler/planner.go:109-120 | plans of driver-built lineages have matching widths |
| DagRecovery.WidthsAgreeExactly | scheduler/planner.go:109-120 | the two stages of a plan have matching widths exactly when the target is as wide as the lineage's last shuffle |
| DagRecovery.WidenedReaderIsPlanned | plan/validate.go:53-61 | a lineage of width 4 over a reduction into 3 passes validation and planning |
| DagRuns.AnsweredExactlyOnce | scheduler/dag_scheduler.go:100-130 | in any run a submitted job is pending or answered exactly once, and after stopping nothing is pending |
| DagRuns.SuccessIsTheMerge | scheduler/dag_scheduler.go:252-320 | a success answer is the partition-order merge of all outputs of the current result attempt, whatever the arrival order |
| DagRuns.MergeIsInOrder | scheduler/dag_scheduler.go:308-320 | merging partitions 0 to n-1 concatenates their records, or adds their counts |
| DagRecovery.RecoveryTerminates | scheduler/dag_recovery.go:46-61 | in any run an unanswered job changes at most as often as its potential says |
| DagRecovery.ChangeFalls | scheduler/dag_recovery.go:46-61 | every change to an unanswered job lowers (spare stage attempts, unfinished tasks) lexicographically |
| DagRecovery.AcceptSourced | scheduler/dag_scheduler.go:234-250 | every accepted output came from a report of the stage's current attempt; superseded attempts leave none |
| DagRecovery.NewJobFollows | scheduler/dag_scheduler.go:155-171 | a submitted job runs the stages of its plan, each with its own tasks |
| DagScheduler.DAGScheduler.HandleJobSubmitted | scheduler/dag_scheduler.go:132-175 | plans, checks, builds the stage table and starts the ready stages, or answers with an error |
| DagOutcomes.SubmitExactly | scheduler/dag_scheduler.go:132-175 | a submission is answered at once with the stop, plan or context error, or enters with its plan's stages and tasks, the first running under a new attempt and launched |
| DagOutcomes.SuccessExactly | scheduler/dag_scheduler.go:252-295 | a success about an awaited task ends a cancelled job, ends the job if it is not just what the task asks for, and is otherwise stored under its partition with one less to wait for; the last map output starts the result stage if the widths agree, the last result answers; any other report changes nothing |
| DagOutcomes.FailureExactly | scheduler/dag_recovery.go:9-62 | a failure about an awaited task starts both stages over exactly when it is a lost input of the result stage that names its bucket of an accepted map output and both stages have attempts left; otherwise it answers the job, with which error; any other report changes nothing |
| DagOutcomes.SetFinishedExactly | scheduler/dag_scheduler.go:106-124 | a set that ends while its stage attempt runs ends the job with the context's or the set's error; any other changes nothing |
| DagOutcomes.StopExactly | scheduler/dag_scheduler.go:224-230 | stopping answers every pending job with the stop error and no other |
| DagScheduler.DAGScheduler.StartReadyStages | scheduler/dag_stage_execution.go:62-111 | launches every waiting stage whose parents are done, in plan order |
| DagScheduler.DAGScheduler.HandleTaskSucceeded | scheduler/dag_scheduler.go:252-295 | ignores stale reports, checks and records an output, completes the stage or the job |
| DagScheduler.DAGScheduler.HandleTaskFailed | scheduler/dag_recovery.go:9-62 | ends the job or starts both stages over under their budget |
| DagScheduler.DAGScheduler.HandleTaskSetFinished | scheduler/dag_scheduler.go:106-124 | fails the job of a set that ended while its stage runs |
| DagScheduler.DAGScheduler.HandleStopping | scheduler/dag_scheduler.go:224-230 | fails every job, in any order |
| DagScheduler.BuildJob | scheduler/dag_scheduler.go:155-167 | builds the stage table and deals the tasks out to their stages |
| DagScheduler.MergeTaskOutputs | scheduler/dag_scheduler.go:308-320 | merges from partition 0 up |
| Store.StoreRoundTrip | shuffle/reader.go:141-181 | reading a bucket of a published attempt yields exactly the records written to it, in order, and then the end |
| Store.EndCertifies | shuffle/reader.go:163-181 | a reader that reaches the end of any file has yielded the recorded number of records from a file of the recorded size and digest, every key with its hash in the bucket; any other end is the loss of just this bucket |
| Store.FramesExactly | shuffle/record.go:79-105 | a line is read up to its newline; one over 1048576 bytes is too large, and a last line without a newline is missing it |
| Store.DamageNeverPasses | shuffle/reader.go:163-181 | without a digest collision the end is reached only on exactly the published records |
| Store.ManifestIsValid | shuffle/metadata.go:58-88 | what a writer publishes passes every check on map outputs |
| ShuffleFilesystem.Filesystem.Acquire | shuffle/filesystem.go:49-57 | counts one more open handle unless the store is closed |
| ShuffleFilesystem.Filesystem.Release | shuffle/filesystem.go:59-66 | counts one handle less; the counts equal the open handles per run |
| ShuffleFilesystem.Filesystem.CleanupRun | shuffle/filesystem.go:70-83 | removes a run's namespace, published and private, and no other's, exactly when the run is well named, the store open and no handle of the run is |
| ShuffleFilesystem.Filesystem.Close | shuffle/filesystem.go:86-97 | closes exactly when no handle is open |
| ShuffleFilesystem.Filesystem.Begin | shuffle/filesystem.go:147-186 | opens a writer with a private directory for a path where nothing is published; it refuses only malformed attempts and widths, taken paths, a closed store, a cancelled context and system failures |
| ShuffleFilesystem.Filesystem.OpenBucket | shuffle/reader.go:19-82 | opens a bucket only if its manifest and size are what was accepted; it is reported lost only when they are not or the system failed |
| ShuffleFilesystem.FileWriter.Write | shuffle/writer.go:44-77 | appends the record to the bucket of its key, keeping counts and running digest, or aborts the attempt, for cancellation, a system failure or a record that cannot be encoded |
| ShuffleFilesystem.FileWriter.Publish | shuffle/writer.go:79-130 | makes the whole attempt visible under a path that was free, changing no other attempt, or nothing of it, for cancellation, a system failure or a taken path |
| ShuffleFilesystem.PublishBoth | shuffle/writer.go:112-125 | of two writers of one attempt at most one publishes, and what the first published stays |
| ShuffleFilesystem.FileWriter.Abort | shuffle/writer.go:132-139 | discards an open attempt and keeps the outcome of a closed one |
| ShuffleFilesystem.RecordDecoder.ReadLine | shuffle/record.go:79-105 | assembles one line from 4096-byte fragments: the line, the end, a missing newline, or too large after at most the limit and one buffer |
| ShuffleFilesystem.RecordDecoder.Next | shuffle/record.go:63-77 | decodes the next line; errors stick |
| ShuffleFilesystem.BucketReader.Next | shuffle/reader.go:141-181 | yields the verified stream of the bucket and repeats its outcome once closed |
| Executor.ShuffleIterator.Next | executor/shuffle_read.go:66-101 | yields the accepted buckets one after the other, in snapshot order; it fails as they do, or for cancellation, a system failure or a closed store; a failure sticks |
| Pipeline.PullIterator.Next | executor/iterator.go:48-115 | pulls one record of the pipeline's stream |
| Pipeline.ReduceRecords | executor/reduce.go:46-85 | folds the whole input by key and lists the result in key order, or fails without emitting |
| Runner.ValidateShuffleExecution | executor/shuffle_read.go:13-54 | accepts exactly tasks without a shuffle read and inputs, and well-placed reads of matching inputs |
| Runner.BuildTaskIterator | executor/pipeline.go:12-102 | the iterator it stacks up carries the pipeline's stream, and its errors are the pipeline's |
| Runner.Drain | executor/local_runner.go:72-90 | collects the records or counts them to the end of the stream |
| Runner.RunTask | executor/local_runner.go:59-91 | a success is the action over the whole stream of a pipeline that ended well; a failure is the pipeline's own, or comes from cancellation, the system or a task of another kind |
| Runner.WriteShuffleRecords | executor/shuffle_map.go:76-126 | writes the pairs as they come, or one combined pair per key in key order; it fails as its stream does, for a pair storage refuses, or for cancellation or the system |
| Runner.RunShuffleMap | executor/shuffle_map.go:14-74 | a success published exactly what the task's stream writes, under a free path; a failure changed nothing and has its reason in the task, its path, cancellation or the system, or is the cancellation after exactly that publication |
| Runner.MapFailsExactly | executor/shuffle_map.go:14-126 | a map task has no reason of its own to fail exactly when its stream gives pairs to write and storage takes them all |
| WorkerRuntime.HonestWorkerRuns | worker/runtime.go:117-132 | in any run a live worker's next heartbeat is accepted, its free slots stay within bounds, and it starts no attempt twice |
| WorkerRuntime.HeartbeatAccepted | protocol/validate.go:33-62 | the offer of a worker whose attempts are its own is valid for the scheduler |
| WorkerRuntime.ResponseFits | worker/runtime.go:212-226 | what the scheduler grants is for the worker, within its free slots, new to it, and names no logical task twice |
| WorkerRuntime.ResponseAccepted | protocol/validate.go:64-91 | the worker accepts a granted response exactly when each of its assignments is valid in itself |
| WorkerRuntime.DispatchFits | worker/runtime.go:194-210 | dispatching an accepted response keeps within the slots and repeats no attempt |
| WorkerRuntime.RegisteredFits | worker/runtime.go:135-148 | a registered worker starts in agreement with the scheduler |
| WorkerRuntime.Runtime.Drain | worker/runtime.go:151-160 | completed attempts leave before the next offer |
| WorkerRuntime.Runtime.ResourceOffer | worker/runtime.go:162-173 | offers the free slots and the running attempts in ascending order |
| WorkerRuntime.Runtime.ValidateAssignments | worker/runtime.go:212-226 | accepts exactly responses that fit, are valid and repeat nothing |
| WorkerRuntime.AcceptedFields | protocol/validate.go:93-179 | what an accepted assignment must look like, field by field |
| WorkerRuntime.SlotsExactly | worker/runtime.go:151-210 | draining frees just the slots of completed attempts, dispatching takes one for each assignment |
| WorkerRuntime.Runtime.DispatchAll | worker/runtime.go:194-210 | reserves every assigned attempt |
| PlannedAssignments.ResultAssignmentAccepted | protocol/validate.go:93-179 | an assignment of a planned result stage is valid exactly when no name of its pipeline is blank, no operator has a stray field, and the stage is as wide as the shuffle it reads |
| PlannedAssignments.MapAssignmentAccepted | protocol/validate.go:93-179 | an assignment of a planned map stage is valid exactly when no name of its pipeline nor its aggregator's is blank and no operator has a stray field |
| PlannedAssignments.BlankPathIsRefused | plan/validate.go:71-77 | a lineage with a blank path that plan validation accepts and every worker refuses |
| PlannedAssignments.StrayFieldIsRefused | plan/validate.go:71-77 | another without a blank name, whose source also names a function |
| PlannedAssignments.ValidatedChainIsDistinct | protocol/validate.go:146-149 | no RDD repeats in a planned pipeline |

## Left out

- Pointers between sets, tasks, attempts and workers: these are entries of maps reached by key, so aliasing is not modelled; updates to the maps are.
- Unsigned 64-bit wrap-around of counters and the overflow of `size*partition` and of summed counts: counters and sizes are unbounded.
- Goroutines, channels, mutexes and wait groups: every method under a mutex and every event is one step; nothing is claimed about the liveness of the Go runtime.
- The asynchronous abort of a writer or reader when its context is cancelled between calls: cancellation takes effect at the next call instead.
- HTTP, routing, JSON decoding of messages, request deadlines and heartbeat timing: messages are direct calls that may be lost, late or repeated; collected records travel as they are, where the source sends their JSON text on.
- The record codec, the digest and the hash: parameters with laws; the theorems ask of storage only that it keeps what values mean.
- FNV-1a, SHA-256 and UTF-8 validity of keys: a refused key is a refused encoding.
- The size limit of manifests, symbolic links, permissions and file modes.
- Close errors of files and iterators, and releasing iterators early: a pipeline is pulled to its end or abandoned.
- Read-ahead of the buffered bucket reader and files that change while they are read: a file is fixed when it is opened.
- ShuffleFilesystem.Filesystem.CleanupRun: a removal that the file system stops half way.
- The local task scheduler, concurrency permits of the local runner, explanation output, logging, option defaults and the function registry's registration.
- Error texts and wrapping: an error is its kind and, for lost input, the bucket it names.
- Worker snapshots and the monitor that calls worker expiry.
- Runner.RunTask: for an action that is neither Collect nor Count it promises only that the stream ended well, since such tasks are refused before.
- Evaluation.PartitionsEvaluate: one direction; `Completeness.ComputedExactly` gives both for reduce functions that never fail, and a partial one can fail in one grouping of a fold and not in another (`ExampleFunctions.SumIntIsNotAssociative`).
- SuccessfulRun.SucceedsExactly: that some run answers, not that every fair run does; nothing is claimed about progress of the running system.
