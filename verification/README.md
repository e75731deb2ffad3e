# Verification of the OpenLLMOps workload, import and evaluation protocols

OpenLLMOps runs inference deployments, training jobs and evaluation runs on the GPU cards of one node. A control
plane keeps rows and whole-card leases in a database, a node agent starts and stops containers, and the two talk over
calls that may be lost before or after they take effect. This project models that protocol and the pipelines around it
in Dafny and proves what they promise. `dafny verify dfyconfig.toml` verifies all of it.

## The parts

| files | content |
|---|---|
| `Contract`, `GpuScheduler`, `DockerRunner`, `CommandService`, `Reconciler`, `Routes` | The program's own operations: the lease table, the containers, the agent's command processor with its state file, the reconciler's transitions and scheduling loop, and the API handlers. Classes carry the fields the program updates; each method is proved equal to a specification function. |
| `AgentRuns`, `AgentOutcomes` | The agent alone, for any sequence of delayed, duplicated and reordered commands with crashes between any two steps; and outcome by outcome, what each command answers and leaves. |
| `AllocationSystem`, `LeaseCoverage` | The whole allocation protocol as one step system, its invariant, and the coverage theorem. |
| `WitnessRuns`, `CoverageLimits` | Concrete runs from the empty system, and the exact conditions under which coverage is lost. |
| `JobLifecycle`, `FifoOrder`, `SchedulingPhase` | Jobs start at most once and end once; the queue is first-in first-out without preemption, with the exact exception; the scheduling loop ends. |
| `ModelImport`, `ImportRuns` | Model imports with crash recovery around an atomic rename. |
| `Safetensors`, `ShardIndex` | The weight file check decides tiling; the shard index check decides equality of ownership. |
| `JsonlIngest`, `DatasetMerge` | Bounded reading of uploads, the check at scheduling time, and the merge of evaluation sets. |
| `EvaluationReport`, `ReportChecks`, `ReportAgreement` | Aggregation and comparison of scores, and the agent's and the control plane's checks of the report. |
| `JsonText`, `ReportSize`, `MergedEvaluations`, `MergeWitnesses` | The report as JSON text and its size, what the limits of the merge guarantee for the check of the report, and concrete data sets where they are not enough. |
| `NonceCache`, `SseParser`, `Sorting` | The replay window for signed requests, the incremental event-stream parser, and sorting. |

A system is described by an `Event` datatype, an `Enabled` predicate and a `Next` function; a run is a sequence of
states and events that follow each other. Results "over runs" hold in every reachable state.

## How outside behaviour enters

- Docker, NVML and the node file system appear as the outcome of each call: done, refused, or lost, where a lost call
  took effect but its answer did not arrive. A container may also change by itself at any point between commands, but
  one that is not active stays inactive.
- A call of the control plane is not executed, executed and answered, or executed with the answer lost. It is never
  executed later. The results of `AgentRuns` do not need this: there commands arrive in any order, any number of times.
- Every database transaction is one atomic step, and there is one reconciler and one import coordinator.
- A digest is represented by the digested bytes, JSON decoding and encoding, and the signature function, are
  parameters, and identifiers that the program draws at random are taken to be fresh.

## Findings

Every active container is covered by leases on exactly its cards, held by its owner at its generation, under two
assumptions. Both are needed: `CoverageLimits` states exactly when coverage is lost without them, for every `/start`
that is followed by `/stop` and the clean-up and for every call with its answer, and gives runs from the empty system.

- `/start` on a deployment that is still stopping puts a row into the queue that owns an older lease. A `/stop` after it
  makes the row terminal while its container may still run, and the next clean-up after the expiry takes the leases
  away; without the `/stop`, the row cannot be claimed for as long as it is the head of the queue.
- A failure to read the metadata of a running training container, by a probe or by the START that has just launched it,
  is answered as a refusal with observed state FAILED, which the reconciler reads as the end of the job.

The queue is first-in first-out in every run in which no `/start` reaches a stopping deployment. Otherwise a late ABSENT
gives a row that already waits a new place; this is the only way a place ever changes
(`PlaceChangesExactlyByRequeueing`), and `RestartLosesThePlaceInARun` is a run in which a later workload is claimed
first because of it.

If the commit of an import takes effect but is reported as failed, a published job is marked FAILED
(`LostCommitFailsAPublishedJob`, `LostCommitInARun`). With every commit's outcome known, READY holds exactly for
published jobs.

The agent accepts the report of every evaluation exactly when its file is within 128 MiB. The merge's own budget of
32 MiB for ids counts raw bytes, while the report writes each id twice with escapes: ids with at most 15 million
quotation marks and backslashes always fit (`MergedEvaluationsAreAccepted`), but 173,857 ids made of such characters
pass the merge and cost the finished run its report (`QuotedFileIsMerged`, `QuotedIdsAreRefused`, and for a file written
out in full `MergedReportIsRefused`).

The merge lengthens every line after it has checked its length, so a merged file may hold a line that the runner's
loader refuses. `LoaderReadsTheMerge` says exactly when the loader accepts, and `LongRowIsMergedNotLoaded` gives a row.

## Model

| member | source | states |
|---|---|---|
| `GpuScheduler.GPULeaseManager.RenewAll` | backend/app/services/gpu_scheduler.py:130-134 | the leases of a card set get the new heartbeat and expiry, all others stay |
| `GpuScheduler.GPULeaseManager.LowestConflict` | backend/app/services/gpu_scheduler.py:142-160 | the conflict that is reported is the one with the lowest card number |
| `GpuScheduler.GPULeaseManager.InsertGroup` | backend/app/services/gpu_scheduler.py:162-182 | the whole group is inserted with one group id, generation and expiry, or, when one card is taken, none of it |
| `GpuScheduler.GPULeaseManager.TryAcquireLocked` | backend/app/services/gpu_scheduler.py:98-207 | acquire equals its specification: invalid request, exact re-acquire, mismatch, blocked, race lost on the unique constraint, or whole grant |
| `GpuScheduler.RacesAreAllOrNothing` | backend/app/services/gpu_scheduler.py:179-202 | a lost race leaves the caller without a card and names a holder of a requested one; the other writer keeps all its leases; no race means plain acquire |
| `GpuScheduler.GPULeaseManager.HeartbeatGroup` | backend/app/services/gpu_scheduler.py:209-235 | renews exactly the leases of the owner at that generation and returns their number |
| `GpuScheduler.ReleaseUndoesAcquire` | backend/app/services/gpu_scheduler.py:237-247 | giving a new group back restores the table as it was before; only leases of that owner and generation go |
| `GpuScheduler.GPULeaseManager.ReapExpiredLocked` | backend/app/services/gpu_scheduler.py:249-284 | deletes exactly the expired leases of confirmed owners and returns those owners |
| `GpuScheduler.AcquireFrame` | backend/app/services/gpu_scheduler.py:98-207 | an acquire never changes the holder of an existing lease; new leases lie in the request of a caller that held none |
| `GpuScheduler.ReacquireIsExact` | backend/app/services/gpu_scheduler.py:108-140 | asking again succeeds exactly for the same cards and generation; a mismatch changes no lease |
| `GpuScheduler.OperationsMoveWholeGroups` | backend/app/services/gpu_scheduler.py:98-284 | acquire, heartbeat, release and reap affect a whole group or nothing |
| `GpuScheduler.GroupsStayWholeOverRuns` | backend/app/services/gpu_scheduler.py:40-284 | over all runs every owner holds no card or exactly its one complete group |
| `GpuScheduler.AcquiredLeasesLast` | backend/app/services/gpu_scheduler.py:128-182 | after a successful acquire every requested card is leased to the caller at that generation, seen now and expiring a full time to live from now, a new group also acquired now; no reaping before that takes it |
| `GpuScheduler.HeartbeatsExtend` | backend/app/services/gpu_scheduler.py:209-235 | a heartbeat moves the expiry of exactly the named group to a full time to live from now |
| `GpuScheduler.RefusalsNameTheirReason` | backend/app/services/gpu_scheduler.py:108-160 | a refusal is for a list that is not one of different card numbers, for another group the caller holds, or for the holder of the lowest taken card |
| `GpuScheduler.ReacquiresAreWhole` | backend/app/services/gpu_scheduler.py:111-140 | who holds cards acquires again exactly for all of them, at their one generation and group |
| `GpuScheduler.ReapedLeasesHaveExpired` | backend/app/services/gpu_scheduler.py:249-284 | reaping takes exactly the leases that have expired and whose owner and generation are confirmed |
| `DockerRunner.WorkloadRunner.GpuAllocations` | agent/openllmops_agent/docker_runner.py:872-880 | a card is in the map exactly when an active container has it |
| `DockerRunner.PreparingMakesRoom` | agent/openllmops_agent/docker_runner.py:212-232 | no active or newer container is touched; when none is reported the name is free and a launch conflicts only over cards |
| `DockerRunner.WorkloadRunner.LaunchWorkload` | agent/openllmops_agent/docker_runner.py:549-576 | name and cards are checked before a container with exactly the requested cards is created |
| `DockerRunner.StoppingIsFinal` | agent/openllmops_agent/docker_runner.py:234-262 | a confirmed stop leaves no container or a job that finished by itself, and stopping again confirms the same and changes nothing |
| `DockerRunner.CleaningUpIsFinal` | agent/openllmops_agent/docker_runner.py:264-318 | only an ended container of the exact generation goes; once confirmed, clean-up and stop find nothing ever after |
| `DockerRunner.QuietIsReadAsFailed` | agent/openllmops_agent/docker_runner.py:320-361 | a container confirmed quiet is not active and is read as FAILED from then on; no other generation is touched |
| `DockerRunner.LaunchKeepsExclusive` | agent/openllmops_agent/docker_runner.py:1183-1207 | a launch never puts a card into two active containers |
| `DockerRunner.EndStatesAreInactive` | agent/openllmops_agent/command_service.py:587-610 | FAILED and SUCCEEDED are read exactly off exited and dead containers |
| `DockerRunner.ReadinessWaitIsBounded` | agent/openllmops_agent/command_service.py:556-585 | waiting for readiness is bounded: a verdict of failure never lapses, a deadline always decides, a ready container never fails |
| `DockerRunner.FailureIsDecided` | agent/openllmops_agent/command_service.py:556-585 | exactly when an inference container has failed: never when ready, always after three restarts otherwise, before that by its failed checks, or if and only if its time since start, last end or creation is over or unknown |
| `DockerRunner.StatesAreRead` | agent/openllmops_agent/command_service.py:587-610 | which statuses, health and exit codes show each state, for deployments and for jobs |
| `DockerRunner.LaunchOutcomes` | agent/openllmops_agent/docker_runner.py:549-576 | exactly when a launch is invalid, conflicts, is unknown or gives a container, and when one is left behind |
| `DockerRunner.PrepareOutcomes` | agent/openllmops_agent/docker_runner.py:212-232 | exactly when a container is handed over, the name is free, a start conflicts, or nothing is known |
| `DockerRunner.StopOutcomes` | agent/openllmops_agent/docker_runner.py:234-262 | exactly when a stop finds nothing, conflicts, keeps a job that is done, removes the container, or ends unknown |
| `DockerRunner.CleanupOutcomes` | agent/openllmops_agent/docker_runner.py:264-318 | exactly when a clean-up is done, conflicts, or ends unknown |
| `DockerRunner.QuietOutcomes` | agent/openllmops_agent/docker_runner.py:320-361 | exactly when a failed inference container is known to be quiet, by its status and both looks at it |
| `CommandService.CommandStateStore.Reload` | agent/openllmops_agent/command_service.py:204-251 | after a restart each watermark is the larger of the stored one and the bound start's generation |
| `CommandService.CommandStateStore.AdvanceGeneration` | agent/openllmops_agent/command_service.py:164-168 | the watermark only grows, and is on disk when it has |
| `CommandService.CommandStateStore.Bind` | agent/openllmops_agent/command_service.py:170-192 | a generation is bound to one body; binding and watermark reach the file in one write |
| `AgentOutcomes.WatermarksAreMaxima` | agent/openllmops_agent/command_service.py:164-168 | a watermark is the largest generation it was given, and nothing else of the store moves |
| `AgentOutcomes.BindingsAreOfBodies` | agent/openllmops_agent/command_service.py:170-192 | what conflicts with a bound START: the same owner and generation with other cards or another execution, and not another request id alone |
| `AgentOutcomes.ReloadingIsExact` | agent/openllmops_agent/command_service.py:204-251 | reloading takes the larger of stored watermark and bound START for each owner and changes nothing else |
| `AgentRuns.CachingKeepsTheBound` | agent/openllmops_agent/command_service.py:197-202 | a new answer is in the cache afterwards and the cache keeps to its 2048 entries when an entry it holds is evicted |
| `AgentRuns.RespondTellsTheTruth` | agent/openllmops_agent/command_service.py:490-554 | a reading reports an end only when the container is not active, and never ABSENT |
| `LeaseCoverage.StartEndsInactive` | agent/openllmops_agent/command_service.py:368-456 | after a START, with readable metadata, whatever reads as an end leaves no active container, and an active one has exactly the command's generation and cards |
| `AgentRuns.StopKeepsResults` | agent/openllmops_agent/command_service.py:458-469 | a finished job answers SUCCEEDED to every STOP and STATUS and keeps its container; STOP answers ABSENT exactly when none is left |
| `AgentRuns.StatusOnlyReads` | agent/openllmops_agent/command_service.py:481-506 | STATUS changes a container only to quieten a failed starting inference container; RUNNING is reported only of an active one |
| `CommandService.CommandProcessor.ExecuteCommand` | agent/openllmops_agent/command_service.py:300-354 | a command without a crash equals the step that the results over runs are about |
| `AgentRuns.ReloadCoversBindings` | agent/openllmops_agent/command_service.py:228-236 | for any file, the reloaded watermark covers every stored watermark and every bound start |
| `AgentRuns.DispatchFrame` | agent/openllmops_agent/command_service.py:356-488 | a command touches no other owner's container, keeps cards exclusive, and wakes nothing unless it is a START |
| `AgentRuns.StepKeepsInv` | agent/openllmops_agent/command_service.py:300-354 | every step, a crash at any point included, keeps memory and file equal, dispatches durable and cards exclusive |
| `AgentRuns.CardsAreExclusiveOverRuns` | agent/openllmops_agent/docker_runner.py:872-880 | no card is ever in two active containers, and no container is above its owner's watermark |
| `AgentRuns.DispatchIsDurableOverRuns` | agent/openllmops_agent/command_service.py:164-192 | the reloaded watermark covers every generation ever dispatched; one START body per owner and generation |
| `AgentRuns.GenerationsNeverDecrease` | agent/openllmops_agent/command_service.py:303-311 | watermarks and container generations never decrease, across crashes and removals |
| `AgentRuns.StaleCommandsChangeNothing` | agent/openllmops_agent/command_service.py:303-311 | a command below the watermark is refused and changes nothing; that refusal is given for no other reason |
| `AgentRuns.RedeliveryIsIdempotent` | agent/openllmops_agent/command_service.py:313-322 | a repeated command gets the cached answer and touches no container |
| `AgentRuns.RestartNeedsTheSameBody` | agent/openllmops_agent/command_service.py:324-341 | a START at a bound generation is run again exactly when its body is the bound one, else refused as reused |
| `AgentRuns.AnswersAreCached` | agent/openllmops_agent/command_service.py:342-354 | an answered command is in the cache in memory and on disk, within the bound of 2048 |
| `AgentRuns.DispatchTellsTheTruth` | agent/openllmops_agent/command_service.py:458-554 | an end state is reported only for a workload without an active container, ABSENT only without any |
| `AgentRuns.EndReportsAreTruthful` | agent/openllmops_agent/command_service.py:300-354 | an accepted ABSENT, FAILED or SUCCEEDED that is not from the cache means there is no active container |
| `AgentRuns.StartIsNeverAbsent` | agent/openllmops_agent/command_service.py:368-456 | START is never answered with an accepted ABSENT |
| `AgentRuns.UncertainStopsReportStarting` | agent/openllmops_agent/command_service.py:494-506 | FAILED is reported for a starting inference container exactly when it has failed and its stop is confirmed |
| `AgentRuns.RefusalsAreWellFormed` | agent/openllmops_agent/command_service.py:793-809 | a refusal carries an error and the observed state FAILED, an acceptance neither |
| `AgentRuns.StartsNeedTheirRunner` | agent/openllmops_agent/command_service.py:368-456 | a START is carried out only with vLLM for deployments, LLaMA-Factory for training jobs and the evaluation runner for evaluations; any other is refused and moves nothing |
| `AgentRuns.SmoothStartsRun` | agent/openllmops_agent/command_service.py:368-456 | a START with the right runner, free name and cards, and a Docker that does what it is asked, creates the container with exactly these cards and reports it running |
| `AgentRuns.FailuresHaveTheirCodes` | agent/openllmops_agent/command_service.py:342-354 | each kind of failure is answered with its own code, and what is not caught is not answered |
| `AgentOutcomes.ReadingsAreAnswered` | agent/openllmops_agent/command_service.py:490-554 | a container is read as it is, a failed starting one after it was stopped, and unreadable results are an error exactly where they are read |
| `AgentOutcomes.StartsMeetContainers` | agent/openllmops_agent/command_service.py:368-456 | a START reads a container of its generation, makes room in place of an older ended one, and conflicts with any other |
| `AgentOutcomes.StartsAreLaunched` | agent/openllmops_agent/command_service.py:368-456 | with room, execution and tensor parallelism are checked, and then the launch or what its container shows is answered |
| `AgentOutcomes.StopsAreAnswered` | agent/openllmops_agent/command_service.py:458-469 | what a STOP answers: ABSENT, the result of a job that is done, a conflict, or nothing |
| `AgentOutcomes.CleanupsAreAnswered` | agent/openllmops_agent/command_service.py:471-479 | exactly when a clean-up answers ABSENT, conflicts, or is not answered, and what it leaves |
| `AgentOutcomes.LooksAreAnswered` | agent/openllmops_agent/command_service.py:481-488 | what a STATUS answers, with and without a container of its generation |
| `AgentOutcomes.StopsCarryNothingElse` | agent/openllmops_agent/command_service.py:356-366 | a STOP with any other execution is refused and moves nothing |
| `AgentOutcomes.ScreeningIsInOrder` | agent/openllmops_agent/command_service.py:303-322 | answered before anything is done: a command below the watermark, a request id used for another command, one that was answered already |
| `AgentOutcomes.ReboundStartsAreRefused` | agent/openllmops_agent/command_service.py:324-341 | a START of a bound generation with another body is refused and only the refusal kept, unless the agent crashes before it is written |
| `AgentOutcomes.CrashesLeave` | agent/openllmops_agent/command_service.py:324-354 | what memory, file and containers hold after a crash at each point, and that only an uninterrupted command is answered |
| `Reconciler.StateReconciler.FindHead` | backend/app/services/reconciler.py:327-330 | the head is the startable row with the least queue key across all types |
| `Reconciler.StateReconciler.ClaimFifoHead` | backend/app/services/reconciler.py:290-384 | a claim equals its specification: empty, failed preflight, blocked, error or whole claim of the head |
| `Reconciler.RowAndLeasesEndTogether` | backend/app/services/reconciler.py:435-642 | an observation of the current instance leaves the row active exactly when it reports no end, and its leases stay or go with the row; any other changes nothing |
| `Reconciler.EndingWorkIsStopped` | backend/app/services/reconciler.py:126-162 | a deployment or evaluation that is to end is asked to STOP and nothing else decides; an accepted ABSENT ends it as stopped or canceled and gives its cards back |
| `Reconciler.RunningWorkIsObserved` | backend/app/services/reconciler.py:126-162 | work that is to run is only looked at: the answer to STATUS alone decides the row and its cards |
| `Reconciler.TerminatingTrainingIsProbedThenStopped` | backend/app/services/reconciler.py:128-162 | a training job that is to end is probed first; STOP counts exactly when the probe is accepted and reports it alive, and an accepted ABSENT then cancels it |
| `Reconciler.ObservationsAreApplied` | backend/app/services/reconciler.py:458-642 | what each observed state makes of a deployment and of a job, with and without a request to end it |
| `Reconciler.RowStates` | backend/app/services/reconciler.py:47-58 | which rows wait, are active and are over, and what a snapshot of a row says |
| `Reconciler.TheQueueIsOrdered` | backend/app/services/reconciler.py:279-288 | the queue goes by time queued or created, then deployments before evaluations before training jobs, then by id |
| `Reconciler.ClaimsAreOfTheHead` | backend/app/services/reconciler.py:290-384 | what each preflight and acquisition makes of the head of the queue, and that errors change nothing |
| `Reconciler.NothingToClaim` | backend/app/services/reconciler.py:290-340 | a claim is empty exactly when no row waits |
| `LeaseCoverage.InspectionKeepsMatching` | backend/app/services/reconciler.py:126-162 | whatever the agent answers to one inspection, every active row has exactly its group of leases afterwards and every other row none |
| `LeaseCoverage.InspectionsKeepMatching` | backend/app/services/reconciler.py:125-162 | the same for a whole pass over different workloads |
| `Reconciler.StateReconciler.InspectWorkloads` | backend/app/services/reconciler.py:125-162 | the first half of a round inspects the active workloads in turn |
| `Reconciler.InspectionsStayApart` | backend/app/services/reconciler.py:126-162 | inspecting some workloads never touches the row or the leases of another, whatever the agent answers |
| `Reconciler.FinishedTrainingIsNotCanceled` | backend/app/services/reconciler.py:128-134 | a training job that finished by itself is closed by its result although its termination was asked for |
| `Reconciler.RefusedStartUndoesTheClaim` | backend/app/services/reconciler.py:664-680 | a refused START restores the lease table of before the claim and fails the row for good; applying it twice changes nothing more |
| `Reconciler.RefusedStartsFail` | backend/app/services/reconciler.py:664-680 | a refused START fails its row and gives its cards back exactly when the row is still that instance |
| `Reconciler.StateReconciler.ReapTerminalExpiredLeases` | backend/app/services/reconciler.py:682-705 | only expired leases of missing or terminal rows are reaped |
| `Reconciler.ReapedLeasesAreOver` | backend/app/services/reconciler.py:682-711 | a lease is reaped exactly when it has expired and its row is gone or over |
| `Reconciler.StateReconciler.ScheduleOne` | backend/app/services/reconciler.py:166-194 | one turn is a claim, then the answer to START observed or, when it is refused, the row failed and its cards given back; it takes the head out of the queue for good or ends the loop |
| `Reconciler.StateReconciler.ScheduleQueue` | backend/app/services/reconciler.py:165-195 | the loop terminates; rows leave in strict key order and before all that remain; a blocked head stops it |
| `AllocationSystem.AnswersAreApplied` | backend/app/services/reconciler.py:126-194 | what an answer in hand does to rows and leases, and which call or step follows it |
| `AllocationSystem.CallsAreSent` | backend/app/services/reconciler.py:210-233 | what one call carries, does at the agent and teaches the reconciler, executed or not and answered or not |
| `AllocationSystem.RoundsGoOn` | backend/app/services/reconciler.py:125-195 | which call an inspection begins with and where a claim leads |
| `AllocationSystem.NothingIsRuledOut` | backend/app/services/reconciler.py:123-195 | requests, restarts and aborted rounds may come at any time, and a round may begin whenever none is under way |
| `LeaseCoverage.DispatchEndsInactive` | agent/openllmops_agent/command_service.py:356-554 | with readable metadata, whatever the reconciler reads as an end, refusals included, leaves no active container of that owner |
| `LeaseCoverage.CallHasEffect` | agent/openllmops_agent/command_service.py:300-354 | what one call may change at the agent and what its answer proves, for every fate and crash |
| `LeaseCoverage.ClaimKeepsInv` | backend/app/services/reconciler.py:290-384 | claiming keeps leases, rows, containers and snapshots matched |
| `LeaseCoverage.RpcKeepsInv` | backend/app/services/reconciler.py:126-162 | a call, executed or not and answered or not, keeps them matched |
| `LeaseCoverage.ApplyKeepsInv` | backend/app/services/reconciler.py:435-680 | applying an answer keeps them matched |
| `LeaseCoverage.DeleteKeepsInv` | backend/app/services/workload_cleanup.py:38-83 | deleting a terminal row keeps them matched, whether or not the clean-up was confirmed |
| `AllocationSystem.DeletionsAreConfirmed` | backend/app/services/workload_cleanup.py:38-83 | row and leases go exactly when the clean-up call was answered by an accepted ABSENT |
| `LeaseCoverage.RequestsAreQuiet` | backend/app/api/routes/deployments.py:91-171 | no route makes an active row inactive or changes its generation or cards, `/start` while stopping aside |
| `LeaseCoverage.StepKeepsInv` | backend/app/services/reconciler.py:123-195 | every step of the system keeps the invariant under the two assumptions |
| `LeaseCoverage.LeasesCoverContainersOverRuns` | backend/app/services/reconciler.py:123-195 | in every reachable state every active container holds exactly the cards leased to its owner at its generation |
| `LeaseCoverage.NoStepFreesAnOccupiedCard` | backend/app/services/gpu_scheduler.py:237-284 | no step removes the lease of a card that an active container is on |
| `LeaseCoverage.ControlCallsAreCurrent` | backend/app/services/reconciler.py:222-233 | the agent never refuses a control-plane call as stale or as a reused request id, and every end it reports is true |
| `LeaseCoverage.LeasesFollowActiveRows` | backend/app/services/reconciler.py:682-705 | leases exist exactly for starting, running and stopping rows, so the reaper never finds anything |
| `CoverageLimits.RestartWhileStoppingLosesCoverage` | backend/app/api/routes/deployments.py:115-171 | start, stop and clean-up cost a live container its expired leases exactly when the deployment was stopping |
| `CoverageLimits.RestartWhileStoppingJamsTheQueue` | backend/app/services/gpu_scheduler.py:121-127 | after `/start` while stopping, the row at the head fails every claim |
| `CoverageLimits.UnreadableMetadataLosesCoverage` | agent/openllmops_agent/command_service.py:520-524 | for every call in hand: the answer costs a live container its leases exactly when training metadata was unreadable and the answer was about a START that launched the container or a probe that found it |
| `CoverageLimits.AliveAnswersAreThese` | agent/openllmops_agent/command_service.py:356-456 | which exchanges about a training job leave an answered call with a live container: delivered without a crash, and a probe of one, or a START whose body, name, cards and Docker calls are all in order |
| `CoverageLimits.ReadingMovesNothing` | agent/openllmops_agent/command_service.py:490-554 | whether the metadata can be read decides neither what happens to the containers nor whether there is an answer |
| `CoverageLimits.RestartLosesCoverageInARun` | backend/app/api/routes/deployments.py:115-171 | a run from the empty system that ends with a live container on a card not leased to it |
| `CoverageLimits.RestartJamsTheQueueInARun` | backend/app/services/gpu_scheduler.py:121-127 | a run from the empty system that ends with one waiting row whose every claim fails |
| `CoverageLimits.UnreadableMetadataLosesCoverageInARun` | agent/openllmops_agent/command_service.py:520-524 | a run from the empty system in which a probe with unreadable metadata costs a live training container its leases |
| `CoverageLimits.UnreadableStartLosesCoverageInARun` | backend/app/services/reconciler.py:186-191 | a run from the empty system in which the START itself does, when the metadata cannot be read after the launch |
| `JobLifecycle.StepKeepsInv` | backend/app/services/reconciler.py:123-195 | every step, without any assumption, keeps the job invariant |
| `JobLifecycle.JobsStartAtMostOnce` | backend/app/services/reconciler.py:166-194 | each training or evaluation job is sent at most one START, and none while queued |
| `JobLifecycle.EndsAreAbsorbing` | backend/app/services/reconciler.py:528-642 | CANCELED, SUCCEEDED and FAILED are final, no START follows, and a deleted job does not return |
| `JobLifecycle.StopRequestsStick` | backend/app/api/routes/training_jobs.py:230-268 | a job whose stop was asked for is canceling or ended ever after |
| `FifoOrder.ClaimTouchesOnlyTheHead` | backend/app/services/reconciler.py:290-384 | a claim changes no other row and no lease of anyone else; a block names a holder of a requested card |
| `FifoOrder.PlaceChangesExactlyByRequeueing` | backend/app/services/reconciler.py:435-484 | in any state, a waiting row changes its place at a step if and only if an accepted ABSENT for its current generation is applied to it, at another time than it stands at |
| `FifoOrder.ClaimsFollowThePlaces` | backend/app/services/reconciler.py:279-384 | over every run: of two waiting rows the one claimed is the first by place, where a place changes only by requeueing |
| `FifoOrder.ClaimsFollowTheQueue` | backend/app/services/reconciler.py:279-384 | over every run: while two rows both wait and neither is requeued, the later one in key order is never claimed first |
| `FifoOrder.SettledClaimsFollowTheQueue` | backend/app/services/reconciler.py:279-384 | over every run in which no `/start` reaches a stopping deployment, the queue is first-in first-out |
| `FifoOrder.StartWhileStoppingLosesThePlace` | backend/app/api/routes/deployments.py:115-142 | `/start` before a late ABSENT queues the row exactly when it is stopping, and the answer then moves it to its own time |
| `FifoOrder.RestartLosesThePlaceInARun` | backend/app/services/reconciler.py:478-481 | a run from the empty system in which a deployment created later is claimed first although both have waited all the time |
| `FifoOrder.BlockedHeadEndsTheRound` | backend/app/services/reconciler.py:167-173 | a blocked head ends the round, starts nothing, and stays the head |
| `SchedulingPhase.StartIsNeverAbsentOverRuns` | backend/app/services/reconciler.py:166-194 | in every reachable state an accepted answer to START is not ABSENT |
| `SchedulingPhase.SchedulingEnds` | backend/app/services/reconciler.py:165-195 | without requests in between, the loop makes at most as many claims as there were rows waiting |
| `Routes.NewWorkGoesLast` | backend/app/api/routes/deployments.py:59-65 | new work can start and goes behind everything queued before: the head stays the head |
| `Reconciler.RequestsAreApplied` | backend/app/api/routes/deployments.py:91-171 | what each request makes of a row in each of its states |
| `Routes.WorkloadRoutes.UpdateDeployment` | backend/app/api/routes/deployments.py:91-112 | an edit is accepted exactly for an ended deployment with valid cards, and bumps the version |
| `Routes.StartRequestsAreIdempotent` | backend/app/api/routes/deployments.py:115-142 | starting again changes nothing and keeps the place; a start after a stop queues anew under a version above all before |
| `Routes.StopsEndOrWaitForTheAgent` | backend/app/api/routes/deployments.py:145-171 | a stop ends what has no container at once; anything else stays active until the agent reports an end and is not queued again |
| `Routes.TerminationMeetsTheAgent` | backend/app/api/routes/training_jobs.py:230-268 | terminating twice is terminating once; the running job is canceled exactly on ABSENT, a result it reached still counts |
| `Routes.CancelingIsTerminating` | backend/app/api/routes/evaluations.py:127-143 | canceling leads to the state terminating leads to, and asked for again only raises the version |
| `Routes.WaitingIsNotDisturbed` | backend/app/api/routes/deployments.py:91-142 | any number of start and edit requests leaves a waiting deployment exactly as it is |
| `Routes.RequestsLeaveLiveWorkActive` | backend/app/api/routes/deployments.py:91-171 | no sequence of requests without a start ends live work or changes its generation or cards |
| `Routes.CanceledJobsStayCanceled` | backend/app/api/routes/training_jobs.py:230-268 | once the end of a job was asked for, no sequence of requests lets it wait or run again |
| `Routes.WorkloadRoutes.ConfirmAbsentAndReleaseLeases` | backend/app/services/workload_cleanup.py:38-83 | all leases of the owner go exactly on an accepted ABSENT |
| `Routes.DeletionIsAllOrNothing` | backend/app/services/workload_cleanup.py:38-83 | row and leases go together or not at all, exactly on an accepted ABSENT of a terminal row; the cards are then free for anyone, and deleting again finds nothing |
| `ModelImport.ModelImportCoordinator.ClaimNext` | backend/app/services/model_import_coordinator.py:140-193 | claims the oldest pending job, or nothing exactly when none is pending |
| `ModelImport.OldestIsFirst` | backend/app/services/model_import_coordinator.py:140-193 | the job that is claimed is pending and every other pending one was created later, or then under a higher id; there is one whenever any is pending |
| `ModelImport.PhasesFollow` | backend/app/services/model_import_coordinator.py:140-193 | a claim puts the job in its first phase under the name and time of the worker, and progress says the phase as long as nobody cancels |
| `ModelImport.BeginningsAndEnds` | backend/app/services/model_import_coordinator.py:507-541 | how a job begins, and that it ends canceled when that was asked for, and otherwise failed or, at a shutdown, waiting without a worker |
| `ModelImport.CancellationWins` | backend/app/services/model_import_coordinator.py:196-234 | after a request to cancel, progress, failure, shutdown or recovery all end in CANCELED; asking again changes nothing |
| `ModelImport.ProgressKeepsTheJob` | backend/app/services/model_import_coordinator.py:382-405 | progress keeps a job from being taken for abandoned, never revives an ended one and forgets no cancellation |
| `ModelImport.ModelImportCoordinator.FinalizeReady` | backend/app/services/model_import_coordinator.py:444-505 | job and asset are linked together, or neither changes when the path is taken |
| `ModelImport.FailureEndsTheJob` | backend/app/services/model_import_coordinator.py:507-524 | a failure ends the job for good, as CANCELED exactly when that was asked for; no later request or progress changes it |
| `ModelImport.ShutdownUndoesTheClaim` | backend/app/services/model_import_coordinator.py:526-541 | a shutdown gives a claimed job back exactly as it was before the claim |
| `ModelImport.ShutdownKeepsThePlace` | backend/app/services/model_import_coordinator.py:140-193 | so the job that was first is claimed first again |
| `ModelImport.ModelImportCoordinator.RecoverStaleModelImports` | backend/app/services/model_import_coordinator.py:260-346 | one pass recovers exactly the stale jobs and removes exactly their unpublished directories |
| `ModelImport.RecoveryIsExact` | backend/app/services/model_import_coordinator.py:299-344 | the one right status for every stale job, nothing changed for others, no directory named by an asset removed |
| `ModelImport.RecoveryReachesTheAbandoned` | backend/app/services/model_import_coordinator.py:287-344 | after a pass nobody else's job is transferring, validating or canceling with a claim before the cut-off or none; each such job is settled or pending, and every other is untouched |
| `ImportRuns.MovedFits` | workers/model_importer/src/openllmops_model_importer/importer.py:102-193 | each step of an import, with errors and cancellation at any check, keeps its directories as its place demands |
| `ImportRuns.ImportsGoOn` | workers/model_importer/src/openllmops_model_importer/importer.py:102-193 | where each step of an import leads, and what a failure, an error while filling and a cancellation leave of its directories |
| `ImportRuns.ImportsEnd` | backend/app/services/model_import_coordinator.py:543-575 | a commit makes the job READY and names its directory, known or not; any other end fails, cancels or gives back the job |
| `ImportRuns.RecoveriesGoOn` | backend/app/services/model_import_coordinator.py:299-344 | the removals of a recovery pass in their order, and how a job is settled when one of them fails or its directory is named |
| `ImportRuns.TheCoordinatorActs` | backend/app/services/model_import_coordinator.py:577-613 | which imports are signaled, what a shutdown stops, and which claims a heartbeat renews |
| `ImportRuns.StepKeepsInv` | backend/app/services/model_import_coordinator.py:260-575 | every step, crashes at any point included, keeps jobs, assets and directories matched |
| `ImportRuns.PendingJobsHaveNoDirectories` | workers/model_importer/src/openllmops_model_importer/importer.py:111-115 | a pending job has neither directory, so a claimed import never finds its id in use |
| `ImportRuns.ReadyMeansPublished` | backend/app/services/model_import_coordinator.py:454-505 | READY, and any link, means the one asset naming the directory is linked and the directory is there |
| `ImportRuns.ReadyIsPublished` | backend/app/services/model_import_coordinator.py:444-575 | with every commit's outcome known, READY holds exactly for published jobs |
| `ImportRuns.NamedDirectoriesStay` | backend/app/services/model_import_coordinator.py:311-325 | no step removes a store directory that an asset names |
| `ImportRuns.RecoveryLeavesNothingBehind` | backend/app/services/model_import_coordinator.py:260-346 | over every run: a pass begun with a cut-off after every claim of a dead worker leaves none of its jobs active, whatever happens meanwhile |
| `ImportRuns.CancellationIsRequested` | backend/app/services/model_import_coordinator.py:196-234 | a job is canceled only after somebody asked for it |
| `ImportRuns.EndsAreFinal` | backend/app/services/model_import_coordinator.py:507-541 | with every commit's outcome known, READY, FAILED and CANCELED are final |
| `ImportRuns.LostCommitFailsAPublishedJob` | backend/app/services/model_import_coordinator.py:571-575 | a commit that took effect but was reported as failed always leaves a published job FAILED |
| `ImportRuns.LostCommitInARun` | backend/app/services/model_import_coordinator.py:571-575 | a run from the empty system that ends with a published job marked FAILED |
| `Safetensors.SweepDecidesTiling` | workers/model_importer/src/openllmops_model_importer/validation.py:248-254 | on a sorted list the cursor sweep accepts exactly the tilings of the data section, empty tensors included |
| `Safetensors.TilingIsOrderFree` | workers/model_importer/src/openllmops_model_importer/validation.py:249 | tiling does not depend on the order of the tensors |
| `Safetensors.Sweep` | workers/model_importer/src/openllmops_model_importer/validation.py:248-254 | sorting and sweeping decide tiling for any list |
| `Safetensors.CheckTensor` | workers/model_importer/src/openllmops_model_importer/validation.py:218-245 | a tensor passes exactly when shape, type and offsets are valid and agree to the bit |
| `Safetensors.TensorsHaveTheirBytes` | workers/model_importer/src/openllmops_model_importer/validation.py:33-55 | the entry of a tensor is well formed if and only if it is complete, lies in the data and has the bytes of its elements, by literal sizes of each type |
| `Safetensors.MetadataIsNoTensor` | workers/model_importer/src/openllmops_model_importer/validation.py:206-217 | an entry under the metadata key is no tensor and must be an object |
| `Safetensors.ElementsOfAShape` | workers/model_importer/src/openllmops_model_importer/validation.py:218-233 | a scalar has one element, and one dimension more multiplies |
| `Safetensors.ReadTensors` | workers/model_importer/src/openllmops_model_importer/validation.py:206-246 | one pass decides well-formedness and the parameter bound, and gives ranges, names, types and parameter count |
| `Safetensors.FilesAreReadable` | workers/model_importer/src/openllmops_model_importer/validation.py:167-205 | exactly which files have a readable header, and that all after it is data |
| `Safetensors.ValidateSafetensors` | workers/model_importer/src/openllmops_model_importer/validation.py:167-259 | a file is accepted exactly when it is readable, well-formed, countable and tiled |
| `Safetensors.AcceptedFilesConserveData` | workers/model_importer/src/openllmops_model_importer/validation.py:234-254 | every data byte has exactly one tensor, and shapes times type bits make up 8 times the data size |
| `ShardIndex.ParsesExactlyShardNames` | workers/model_importer/src/openllmops_model_importer/validation.py:66 | the parser accepts exactly the names of the shard pattern |
| `ShardIndex.ParsesShardNames` | workers/model_importer/src/openllmops_model_importer/validation.py:262-271 | a shard name is read back as the two numbers it was built from |
| `ShardIndex.PaddedNamesAreRead` | workers/model_importer/src/openllmops_model_importer/validation.py:267-271 | the name of the k-th of n shards, in decimal with leading zeros, is read as k of n, for all k and n |
| `ShardIndex.OnlyDecimalIsRead` | workers/model_importer/src/openllmops_model_importer/validation.py:267-271 | conversely only the decimal digits of a number after zeros are read as it |
| `ShardIndex.CountingDecidesTheSequence` | workers/model_importer/src/openllmops_model_importer/validation.py:267-276 | comparing counts and number sets decides that the shards are numbered 1..N, each once |
| `ShardIndex.ValidateShardSequence` | workers/model_importer/src/openllmops_model_importer/validation.py:262-277 | accepted exactly when the names are a complete sequence 1..N for some N |
| `ShardIndex.PaddedNamesAreComplete` | workers/model_importer/src/openllmops_model_importer/validation.py:262-277 | for every N the padded names 1..N are a complete sequence, and not with one missing or one too many |
| `ShardIndex.MissingShardIsMissed` | workers/model_importer/src/openllmops_model_importer/validation.py:262-277 | names that all say "of n" without the k-th are no complete sequence |
| `ShardIndex.ValidateIndexTensorMapping` | workers/model_importer/src/openllmops_model_importer/validation.py:331-359 | accepted exactly when for every tensor and shard, the index says the shard holds it if and only if it does |
| `ShardIndex.TotalInAnyOrder` | workers/model_importer/src/openllmops_model_importer/validation.py:412-424 | the total parameter count does not depend on the order of the shards |
| `ShardIndex.SelectShards` | workers/model_importer/src/openllmops_model_importer/validation.py:297-328 | the referenced shards are a complete sequence and exactly the weight files present |
| `ShardIndex.ReadShards` | workers/model_importer/src/openllmops_model_importer/validation.py:412-424 | all shards are acceptable and their parameters sum up within the bound |
| `ShardIndex.ValidateWeights` | workers/model_importer/src/openllmops_model_importer/validation.py:280-425 | weights are accepted exactly when they are one complete file or a complete consistent set of shards |
| `ShardIndex.OneFileIsAModel` | workers/model_importer/src/openllmops_model_importer/validation.py:280-330 | `model.safetensors` alone is a model exactly when it is acceptable, and never beside an index or another weight file |
| `ShardIndex.ShardsAreAModel` | workers/model_importer/src/openllmops_model_importer/validation.py:280-425 | for every N, files with the padded names 1..N are a model exactly when each is acceptable, the parameters can be counted, and the index names for every tensor the one shard that holds it and nothing else |
| `ShardIndex.ModelsAreComplete` | workers/model_importer/src/openllmops_model_importer/validation.py:280-330 | only the single file by itself, or a complete sequence of shards that are just the files the index names, is a model; one shard short of any number is none |
| `JsonlIngest.FormatIsTheOnlyOneShown` | backend/app/services/dataset_files.py:94-145 | a training record has a format exactly when it shows that one alone, with valid content |
| `JsonlIngest.LinesOfText` | backend/app/services/dataset_files.py:174-198 | the physical lines make up the text |
| `JsonlIngest.Source.ReadLine` | backend/app/services/dataset_files.py:177 | a bounded read gives at most the limit, up to the next line feed |
| `JsonlIngest.Source.Drain` | backend/app/services/dataset_files.py:187-194 | draining consumes exactly the rest of the line, or gives up at the byte limit |
| `JsonlIngest.Source.NextLine` | backend/app/services/dataset_files.py:177-196 | one physical line is consumed exactly once and is overlong exactly when it exceeds the limit |
| `JsonlIngest.ExamineLine` | backend/app/services/dataset_files.py:184-273 | errors are reported exactly when the file so far is not clean; counts, fields, ids and format are those of its lines |
| `JsonlIngest.AgreementIsCheap` | backend/app/services/dataset_files.py:258-273 | comparing with the first format, or the ids seen, decides agreement with all earlier records |
| `JsonlIngest.ValidateAndStoreJsonl` | backend/app/services/dataset_files.py:148-294 | accepted exactly when the data set is acceptable; the stored bytes are the input |
| `JsonlIngest.VerifyTrainingDataset` | backend/app/services/training_control.py:294-354 | the check at scheduling time decides its specification |
| `JsonlIngest.FingerprintJsonl` | backend/app/services/evaluation_control.py:183-217 | digest, record count and size of a file within the limits, nothing otherwise |
| `JsonlIngest.AcceptedTrainingSetsVerify` | backend/app/services/training_control.py:294-354 | an accepted training set passes the check when it is scheduled exactly if the file is unchanged |
| `JsonlIngest.AcceptedEvaluationSetsMatch` | backend/app/services/evaluation_control.py:285-304 | an accepted evaluation set matches its row exactly if the file is unchanged |
| `JsonlIngest.AcceptedUploadsConserve` | backend/app/services/dataset_files.py:284-294 | size, digest and record count of an accepted upload are those of its lines, each counted once |
| `JsonlIngest.FormatsAreThese` | backend/app/services/dataset_files.py:94-145 | exactly which records have which format, field by field |
| `JsonlIngest.TrainingSetsAreAccepted` | backend/app/services/dataset_files.py:148-294 | a training set is accepted exactly when it has at most 5 GiB and 1 to 10,000,000 lines, none blank or over 16 MiB, all records of one format, and at most 256 field names of at most 128 characters |
| `JsonlIngest.EvaluationSetsAreAccepted` | backend/app/services/dataset_files.py:148-294 | an evaluation set is accepted exactly when it has at most 256 MiB, no line over 1 MiB, 1 to 200,000 samples with different ids, and at most 256 field names of at most 128 characters |
| `JsonlIngest.ErrorsAreReported` | backend/app/services/dataset_files.py:66-70 | errors are reported one by one, up to twenty |
| `JsonlIngest.ScheduledSetsAreVerified` | backend/app/services/training_control.py:294-354 | a training set passes exactly when it has 1 byte to 5 GiB, all lines are records of one format, and size, lines, bytes and format are those of its row |
| `JsonlIngest.LinesEndAtLineFeeds` | backend/app/services/dataset_files.py:174-198 | lines are cut right after each line feed and nowhere else |
| `EvaluationReport.AggregateResults` | evaluation/src/openllmops_eval/metrics.py:65-100 | aggregation equals its specification; an empty list is refused |
| `EvaluationReport.DecimalRoundingIsSane` | evaluation/src/openllmops_eval/metrics.py:61-62 | what is assumed of rounding holds of rounding to decimals |
| `EvaluationReport.CompareReports` | evaluation/src/openllmops_eval/metrics.py:103-145 | comparison equals its specification |
| `EvaluationReport.CategoriesSumUp` | evaluation/src/openllmops_eval/metrics.py:72-93 | every score is counted under exactly one category |
| `EvaluationReport.CountsAreSound` | evaluation/src/openllmops_eval/metrics.py:76-93 | correct plus invalid never exceeds total, in each category and overall |
| `EvaluationReport.ReportsCountScores` | evaluation/src/openllmops_eval/metrics.py:65-100 | total, correct and invalid are the numbers of scores, of correct ones and of those without a valid answer, and the accuracy is that share |
| `EvaluationReport.MetricsCountScores` | evaluation/src/openllmops_eval/metrics.py:76-93 | the same within each category |
| `EvaluationReport.IdsAreSorted` | evaluation/src/openllmops_eval/metrics.py:94-100 | a report has the mean latency and every id once for each of its scores, in order |
| `EvaluationReport.CategoriesAreSorted` | evaluation/src/openllmops_eval/metrics.py:72-93 | a report has one entry for each category that occurs, in order |
| `EvaluationReport.ComparisonsAreOfReports` | evaluation/src/openllmops_eval/metrics.py:103-145 | percentages, changes, relative changes and the reason why two reports are not comparable |
| `EvaluationReport.ChangesAreOfSharedCategories` | evaluation/src/openllmops_eval/metrics.py:114-133 | a comparison has one change for each category that both reports have, in order, each the difference of the two percentages |
| `EvaluationReport.SameSamples` | evaluation/src/openllmops_eval/metrics.py:99 | score lists over the same samples, in any order, have the same ids and category sizes |
| `ReportChecks.BoundedDecides` | agent/openllmops_agent/evaluation_runtime.py:470-496 | the tree traversal accepts exactly the trees within the limits and counts each node once |
| `ReportChecks.PairNodes` | agent/openllmops_agent/evaluation_runtime.py:470-496 | a pair report with k categories and n samples has 34 + 17k + 2n nodes |
| `ReportChecks.MetricSummary` | agent/openllmops_agent/evaluation_runtime.py:531-639 | a model's report is accepted exactly when it fits, and is returned with normalised names |
| `ReportChecks.ComparisonSummary` | agent/openllmops_agent/evaluation_runtime.py:642-745 | a comparison is accepted exactly when it follows from the two summaries |
| `ReportChecks.LoadPairReport` | agent/openllmops_agent/evaluation_runtime.py:748-809 | the agent accepts a pair report exactly when file size, tree, summaries and comparison fit the run it scheduled, and passes on normalised metadata |
| `ReportChecks.SummariesFollowFromCounts` | agent/openllmops_agent/evaluation_runtime.py:531-639 | a summary is accepted exactly when all of it follows from its counts: kinds of digest, name and template, ranges, accuracies, distinct ids and categories, and counts that add up |
| `ReportChecks.ComparisonsAreRecomputed` | agent/openllmops_agent/evaluation_runtime.py:642-745 | a comparison is accepted exactly when it says what comparing the two summaries gives, for the same categories with the same numbers of answers |
| `ReportChecks.PairsAreOfTheRun` | agent/openllmops_agent/evaluation_runtime.py:748-809 | a pair is accepted for a run exactly when both reports and the comparison are, under the fixed names, with the scheduled templates, digest and number of records and the same samples |
| `ReportChecks.TreesAreBounded` | agent/openllmops_agent/evaluation_runtime.py:470-496 | a tree is accepted exactly when it has at most 600,000 values, 32 levels deep |
| `ReportChecks.PairsAreWritten` | evaluation/src/openllmops_eval/orchestrator.py:221-270 | the written file holds the two reports and the comparison under their names |
| `JsonText.RenderedSize` | evaluation/src/openllmops_eval/orchestrator.py:267-269 | the size computed for a JSON value is that of its text in UTF-8, indented, with escapes |
| `JsonText.EscapesAreThese` | evaluation/src/openllmops_eval/orchestrator.py:267-269 | exactly which characters are written with a backslash, and how |
| `JsonText.CharactersTakeTheFewestBytes` | evaluation/src/openllmops_eval/orchestrator.py:267-269 | a character takes the fewest bytes of UTF-8 that hold its code |
| `JsonText.AnObjectIsWritten` | evaluation/src/openllmops_eval/orchestrator.py:267-269 | an object is written one member a line, with a colon and a space after each name |
| `ReportSize.PairSize` | evaluation/src/openllmops_eval/orchestrator.py:267-269 | the file of a pair holds both id lists, and what else it holds is bounded by 2,480 bytes a category row and 14,100 in all |
| `ReportAgreement.ProducedPairsAreAccepted` | agent/openllmops_agent/evaluation_runtime.py:748-809 | any two score lists over the same samples give a pair report, within the node budget, that the agent accepts if and only if its file is within 128 MiB |
| `ReportAgreement.NormalReportIsStable` | agent/openllmops_agent/evaluation_runtime.py:531-639 | what the check returns passes it again unchanged |
| `ReportAgreement.AgentImpliesControl` | backend/app/schemas/evaluation.py:138-186 | whatever the agent accepts, the control plane accepts |
| `ReportAgreement.EveryEvaluationIsAccepted` | evaluation/src/openllmops_eval/orchestrator.py:221-270 | whatever two models answer on an accepted sample list, the agent accepts the report if and only if its file is within 128 MiB, and then the control plane does |
| `ReportAgreement.EverySampleIsScored` | evaluation/src/openllmops_eval/orchestrator.py:221-270 | every sample is scored on its own answer, in order |
| `ReportAgreement.ModerateIdsAreAccepted` | agent/openllmops_agent/evaluation_runtime.py:18-24 | ids of up to 49,000,000 bytes as written are always accepted; two lists of more than 128 MiB never |
| `MergedEvaluations.MergedSamplesFit` | agent/openllmops_agent/evaluation_runtime.py:336-392 | what the merge accepts is a sample list the report theorems are about, with ids within 32 MiB |
| `MergedEvaluations.MergedEvaluationsAreAccepted` | agent/openllmops_agent/evaluation_runtime.py:349-351 | a merge whose ids hold at most 15 million quotation marks and backslashes gives a report the agent accepts |
| `MergedEvaluations.QuotedFileIsMerged` | agent/openllmops_agent/evaluation_runtime.py:336-392 | 173,857 ids of quotation marks and backslashes are within every limit of the merge |
| `MergedEvaluations.QuotedIdsAreRefused` | agent/openllmops_agent/evaluation_runtime.py:763-768 | the report over these ids is refused for its size, whatever the models answer |
| `MergeWitnesses.QuotedFileExists` | agent/openllmops_agent/evaluation_runtime.py:302-320 | a file of these rows, written out byte by byte, has 77,018,651 bytes |
| `MergeWitnesses.WorldEncodes` | agent/openllmops_agent/evaluation_runtime.py:372-381 | the lines of these rows are single lines that are read back as what was written |
| `MergeWitnesses.MergedReportIsRefused` | agent/openllmops_agent/evaluation_runtime.py:763-768 | that file is merged, and the report of every evaluation on it is refused |
| `MergeWitnesses.LongRowIsMergedNotLoaded` | evaluation/src/openllmops_eval/dataset.py:100-104 | a source line of exactly 1 MiB is merged into a line that no loader accepts |
| `DatasetMerge.MergedIdsSplitBack` | agent/openllmops_agent/evaluation_runtime.py:345 | a merged id gives back its source and its original id |
| `DatasetMerge.OrderDoesNotMatter` | agent/openllmops_agent/evaluation_runtime.py:292 | any permutation of the requested sources gives the same merged file and manifest |
| `DatasetMerge.MergeConservesRecords` | agent/openllmops_agent/evaluation_runtime.py:310-427 | one merged line per non-blank source line, distinct ids, and the total is the sum of the source counts |
| `DatasetMerge.MergedRowsHold` | agent/openllmops_agent/evaluation_runtime.py:336-392 | a merged row keeps all fields, with the source before id and category and the origin in its metadata |
| `DatasetMerge.LinesAreMerged` | agent/openllmops_agent/evaluation_runtime.py:321-392 | exactly when a line is merged and what it adds: limits on line, ids, categories and rows, new ids, and parts that can be taken |
| `DatasetMerge.SourcesAreMerged` | agent/openllmops_agent/evaluation_runtime.py:302-427 | exactly when a source is merged and what its manifest entry says |
| `DatasetMerge.RequestsAreResolvable` | agent/openllmops_agent/evaluation_runtime.py:274-300 | a request is taken up exactly with 1 to 16 sources under different names and different files, all of which are found |
| `DatasetMerge.WrittenLinesReadBack` | evaluation/src/openllmops_eval/dataset.py:100-102 | lines written one by one are read back one by one |
| `DatasetMerge.LoaderReadsTheMerge` | evaluation/src/openllmops_eval/dataset.py:93-121 | the loader accepts the merged file if and only if every merged line is within its limit and every row in order; then it returns the merged ids in order, and number and digest are those of the manifest, whose size and count are right |
| `DatasetMerge.LoadJsonl` | evaluation/src/openllmops_eval/dataset.py:93-121 | the loader equals its specification and returns the digest of the file |
| `DatasetMerge.LinesAreLoaded` | evaluation/src/openllmops_eval/dataset.py:93-121 | what one more line does to the loader: it ends it, does nothing when blank, or adds its id |
| `DatasetMerge.RowIsFitting` | agent/openllmops_agent/evaluation_runtime.py:336-392 | a row that is merged adds one canonical line under a new id, read back as that row, and one to the count |
| `DatasetMerge.MergeFile` | agent/openllmops_agent/evaluation_runtime.py:321-392 | one source is read line by line as its specification says |
| `DatasetMerge.PrepareEvaluationWorkspace` | agent/openllmops_agent/evaluation_runtime.py:274-453 | the merged file and its manifest equal their specification: sources, combined record count, digest kept line by line, and size |
| `NonceCache.NonceReplayCache.VerifyRequest` | agent/openllmops_agent/agent_contract.py:172-191 | a request is verified against the purged window and entered on success |
| `NonceCache.AcceptanceIsExact` | agent/openllmops_agent/agent_contract.py:128-191 | accepted exactly when in order and its nonce was not accepted within the retention time |
| `NonceCache.OneRequest` | agent/openllmops_agent/agent_contract.py:128-191 | what one request needs, nonce length, clock skew, signature and a nonce that is not remembered, and what the window holds afterwards |
| `NonceCache.AcceptedAtMostOnce` | agent/openllmops_agent/agent_contract.py:164-191 | with a clock that never goes back, a signed request is accepted at most once |
| `NonceCache.ClockGoingBackAllowsReplay` | agent/openllmops_agent/agent_contract.py:186-191 | a clock that goes back allows any request to be accepted twice |
| `SseParser.OpenAIStreamParser.Push` | frontend/src/api/sse.ts:46-51 | a chunk fires the callbacks of its complete lines up to the first error and keeps the tail |
| `SseParser.DataLinesFire` | frontend/src/api/sse.ts:20-44 | a `data:` line fires the usage and the token that its payload carries, nothing for the end mark, and an unreadable one is an error |
| `SseParser.OtherLinesFireNothing` | frontend/src/api/sse.ts:20-44 | a blank line, one without `data:` and one with nothing after it fire nothing |
| `SseParser.SpacesAreThese` | frontend/src/api/sse.ts:20-44 | white space is what the language trims |
| `SseParser.FinishingEndsTheLine` | frontend/src/api/sse.ts:52-55 | finishing is the same as receiving one more line feed |
| `SseParser.SplitOfConcat` | frontend/src/api/sse.ts:47-49 | splitting a text piecewise gives the lines of the whole |
| `SseParser.ChunksDoNotMatter` | frontend/src/api/sse.ts:20-56 | every way of cutting a text gives the same callbacks, up to and including the first error |

## Left out

- LeasesCoverContainersOverRuns: assumes that no `/start` reaches a stopping deployment and that metadata of a live
  training container can be read; `CoverageLimits` shows what happens otherwise.
- SettledClaimsFollowTheQueue: for runs in which no `/start` reaches a stopping deployment; `ClaimsFollowThePlaces` and
  `RestartLosesThePlaceInARun` cover the rest.
- RequestsAreQuiet: the routes that read a row without a lock are single steps here, so lost updates between two
  simultaneous requests are not modelled.
- CachingKeepsTheBound: the evicted entry is a parameter; which one the program evicts is not modelled, because the
  file is written with sorted keys and the insertion order does not survive a restart.
- RacesAreAllOrNothing: the other writer's lease is taken to be still there when the conflict is looked up, so a block
  always names a holder; owner names and other display fields are not modelled.
- SchedulingEnds: a user who starts workloads faster than they are claimed can keep the loop going, so no request is
  taken to arrive meanwhile.
- EndsAreFinal: for commits whose outcome is known; `LostCommitFailsAPublishedJob` covers the rest.
- ReadyIsPublished: for commits whose outcome is known, as above.
- NamedDirectoriesStay: an asset for a path under recovery is not registered by anyone else while the recovery pass
  holds that job.
- DispatchIsDurableOverRuns: writing the state file either completes or the process ends; a state file that cannot be
  parsed stops the agent and is not modelled.
- EndReportsAreTruthful: containers with the same name but without the management labels are not modelled, and within
  one command a container changes only through the calls of that command, except that one that is being quietened may
  vanish by itself.
- LoaderReadsTheMerge: what the loader asks of a row apart from its id (question, answers, choices) is a parameter.
- AcceptedEvaluationSetsMatch: acceptance by the agent's merge is not implied by acceptance of the upload (an empty
  category passes the row parser but not the merge).
- EveryEvaluationIsAccepted: the JSON type checks of the report are not modelled, since the report is typed here, and
  rounding is one function that keeps percentages within their range. The text of a number is a parameter of at most
  24 ASCII characters.
- MergedEvaluationsAreAccepted: the samples the loader makes are given by their ids and categories, since questions,
  choices and answers do not reach the report.
- PendingJobsHaveNoDirectories: the download tool's home directory is removed during recovery but its content is not
  modelled; downloads, hashing and free-space checks appear only as success or failure of the filling step.
- HTTP, authentication, the signature of answers, image and path policies, symbolic links, archives, metrics,
  dashboards, migrations, deployment scripts and the frontend views are not modelled.
- The concurrency limit of the import coordinator and the progress counters are not modelled.
- Row fields that no transition reads (error messages, health, endpoints, progress, metrics) are not modelled.
- Answer parsing and text normalisation of the scorer are parameters.
