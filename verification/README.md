# A verified model of the durable job, IP and result protocol

The repository runs jobs that come from a Portal: each job gets one proxy IP, a workflow is executed on
it, and a final result is delivered to the Portal. Everything that must survive a crash is in a handful
of SQLite tables; everything else is runners that perform one transaction after another. This project
models both and proves what the runners, the stores and the recovery code promise together.

## How it is built

* **Tables and stores.** `Schema` holds the rows and a `Database` with one field per table. Each
  `database.transaction(...)` is a function from tables to `Commit(tables, value)` or
  `Rollback(error)` (`JobTransactions`, `AllocationTransactions`, `ReservationTransactions`,
  `PoolTransactions`, `LedgerTransactions`, `RecoveryTransactions`). Beside it stands the store class
  (`JobStore`, `IpAllocator`, `IntakeReservationStore`, `ProxyPool`, `FinalResultStore`,
  `RecoveryStore`), written statement by statement, whose methods are proved to commit exactly that.
* **All transactions.** `Transactions` makes them one vocabulary. `Ownership` and `History` prove what
  any sequence of transactions, with any arguments, committed or rolled back, leaves true.
* **The system.** `SystemModel` is the runtime as a state machine: tables, one control point per job
  for its runner, the intake cycle, and a history of Portal sends and retry starts. Every step is at
  most one transaction, and a `Restart` may come between any two steps. `SystemInvariant` states what
  every job looks like in every reachable state, `SystemSteps` proves it inductive, `SystemTheorems`
  draws the consequences. `CrashResidues` says exactly which runs leave a reservation or an IP behind,
  and `ReachedStates` gives runs, action by action, that reach the states of the findings below.
* **The runners.** `FinalResultService`, `ExecutionWorker`, `RetryingExecutionRunner`,
  `FinalizingExecutionRunner`, `RecoveryService`, `FinalResultRecoveryRunner` and
  `PortalIntakeService` (with `IntakeRounds`) are classes over a `Runtime`, which owns the database and, as a ghost,
  the state of the machine. Each method performs store calls and takes the machine along; `Valid()` says
  that the machine's tables are the database and that its state is the run of its log (`IsRun`), so the
  theorems about runs hold of whatever these methods do. `StartsAtBoot()` says that the log began with empty tables;
  then every state is reachable, and what can only fail in unreachable ones does not fail. `IntakeExecutionHandler` is the per-job guard in front
  of them; in the machine it is the condition that only an idle job is admitted or resumed.
* **Side cores.** Canonical JSON, the resumable workflow engine with its job context and documents,
  OTP polling, and the cookie jar.

## Findings

Where the code does not do what its comments or its shape suggest, the lemma says so:

* A manual challenge whose context was lost in a restart is not "non-terminal"
  (src/runtime/finalizing-execution-runner.js:222-232): resuming it throws an error without code, which
  the retry policy calls NON_RETRYABLE, and it is finalized as FAILURE. It goes on iff the context survived
  (`SystemTheorems.LostChallengeIsFailed`); a run that gets there is `ReachedStates.AChallengeIsLost`.
* An abort between two workflow steps of one call leaves the completed step as the current one, and the context
  can never be resumed. This happens iff the first step that does not go through is an aborted one and comes
  after the step that was resumed at (`WorkflowEngines.WorkflowEngine.Execute`, last clause;
  `WorkflowEngines.AbortBeforeTheSecondStep`).
* A workflow step may be called `__proto__`; its completion is not remembered. Completed steps are resumed after
  as they should be iff none of them has that name (`WorkflowEngines.OnlyProtoIsForgotten`).
* The comment at src/portal/portal-intake-service.js:385-391 expects recovery to deal with orphaned
  reservations; nothing does. A reservation is orphaned iff a restart came while its intake cycle held it, and
  then for good (`CrashResidues.OrphansComeFromCrashes`, `ReachedStates.AReservationIsOrphaned`).
* A terminal job keeps its IP iff a restart came between its terminal transition and the release, apart from the
  moment of the release itself, and then for good: recovery passes over terminal jobs
  (`CrashResidues.KeptIpsComeFromCrashes`, `CrashResidues.StrandedIpsStay`, `ReachedStates.AnIpIsStranded`).
  Calling resumeDelivery for such a job would release it (`CrashResidues.ResumingByHandReleases`), but only the
  restart runner calls it, for pending and uncertain results.
* At most one remote effect per job holds as long as no boot declares idempotent replay; an uncertain
  result is sent again iff the boot that takes it up again does (`SystemTheorems.UncertainIsResentOnlyWithReplay`,
  `ReachedStates.ASendIsCutOff`).
* Two different cookies can share a jar key, and the earlier one is then lost. Among cookies that the parser
  returns, a key belongs to one iff there is no bar in its path, and none in its name but possibly the last
  character (`CookieJars.KeyIsUnambiguous`, for names and paths as they stand: what splitting at "=" and trimming
  exclude is outside); among cookies without a bar in domain and path the jar keeps them all apart
  (`CookieJars.KeyNamesTheCookie`, `CookieJars.LostToALaterCollision`).
* An upload that the target accepted, but whose answer is lost, is repeated by the next attempt; the target accepts
  a document twice only then (`WorkflowEngines.AcceptedOnceUnlessUnanswered`, `WorkflowEngines.LostAnswerIsRepeated`).

## Model

| member | source | states |
|---|---|---|
| `JobStates.PathsStartByRunning` | src/jobs/job-state.js:25-73 | nothing follows a terminal state, and every path from PENDING to a state past the start goes through RUNNING |
| `JobStates.EnteredFrom` | src/jobs/job-state.js:25-73 | from where each state can be entered |
| `JobStores.JobStore.CreateOrGet` | src/jobs/job-store.js:185-227 | returns the job of the application, or inserts a PENDING job with version 1 and an ACTIVE claim, or rolls both back; created iff no job had the application |
| `JobStores.JobStore.Transition` | src/jobs/job-store.js:229-317 | moves a job along the table of legal transitions at the expected version: state, step, failure code, start, end and version are set as asked, everything else stays; a terminal state releases the claim |
| `JobStores.JobStore.Increment` | src/jobs/job-store.js:319-370 | counts a retry on a job that is not terminal, at the expected version |
| `JobStores.JobStore.ListIncomplete` | src/jobs/job-store.js:173-182 | exactly the jobs that are not terminal, each once |
| `History.JobHistory` | src/jobs/job-store.js:185-370 | over any run: one job and one claim per application, claim active iff the job is not terminal, completedAt iff terminal, startedAt past RUNNING, version one plus the number of committed updates |
| `History.VersionDeterminesRow` | src/jobs/job-store.js:229-317 | versions never go down, and an unchanged version means an unchanged row, whatever ran in between |
| `History.ExpectedVersionSeesTheReadRow` | src/jobs/job-store.js:229-300 | a write with the version read earlier commits iff the row is still the one read and the transition is legal |
| `IpAllocators.IpAllocator.AcquireForJob` | src/network/ip-allocator.js:312-401 | reuses the job's live allocation or reserves the best selectable proxy, or rolls back |
| `IpAllocators.IpAllocator.ActivateForJob` | src/network/ip-allocator.js:403-449 | the live allocation and its proxy become ACTIVE together |
| `IpAllocators.IpAllocator.MarkRetryReserved` | src/network/ip-allocator.js:451-484 | the live allocation and its proxy become RETRY_RESERVED together and the failure is counted |
| `IpAllocators.IpAllocator.ReleaseForJob` | src/network/ip-allocator.js:486-642 | releases the live allocation for a reason that fits the job state, says when and why, and brings the proxy to the rest its flags ask for |
| `IpAllocators.IpAllocator.ReleaseLive` | src/network/ip-allocator.js:505-592 | the two-step release through RELEASING commits as one step, or restores everything |
| `AllocationTransactions.ReleasingIsTransient` | src/network/ip-allocator.js:505-580 | RELEASING is only an intermediate state of the release |
| `ProxyRows.SelectAvailable` | src/network/ip-allocator.js:92-108 | the first selectable proxy by fewest failures, most successes, id |
| `IntakeReservationStores.IntakeReservationStore.ReserveOne` | src/network/intake-reservation-store.js:262-318 | reserves the best proxy if fewer than the bound of slots are occupied |
| `IntakeReservationStores.IntakeReservationStore.BindToJob` | src/network/intake-reservation-store.js:320-424 | turns a held reservation into the live allocation of a job without one |
| `IntakeReservationStores.IntakeReservationStore.ReleaseReservation` | src/network/intake-reservation-store.js:426-517 | gives a held reservation back and brings its proxy to rest |
| `ProxyPools.ProxyPool.SyncFromConfig` | src/network/proxy-pool.js:282-415 | the last definition of every id is stored with health, counters and an owned status kept, missing proxies are disabled, or nothing happens |
| `PoolTransactions.DefinitionsAreStored` | src/network/proxy-pool.js:282-391 | a sequence of definitions leaves exactly the configured rows as the last definition of each says, and the others as they were |
| `ProxyPools.ProxyPool.RecordHealth` | src/network/proxy-pool.js:463-509 | counts a health result and keeps it as the health flag; the status follows flags only while nobody owns the proxy |
| `ProxyPools.ProxyPool.SetEnabled` | src/network/proxy-pool.js:511-531 | flips the flag; the status follows only while nobody owns the proxy |
| `Ownership.TransactionsKeepConsistent` | src/network/intake-reservation-store.js:262-517 | every transaction of all stores keeps proxies, live allocations and held reservations in agreement |
| `Ownership.RunsAreConsistent` | src/network/ip-allocator.js:312-593 | the agreement holds after any sequence of transactions |
| `Ownership.ProxyOwnershipIsABijection` | src/network/ip-allocator.js:312-593 | a proxy is owned iff exactly one live allocation or held reservation has it, with the same status, ip and port; RELEASING is never committed; two live allocations never share an endpoint |
| `Ownership.UnownedStatusFollowsFlags` | src/network/proxy-pool.js:107-280 | an unowned proxy is DISABLED iff not enabled, AVAILABLE iff enabled and healthy, COOLDOWN otherwise |
| `Ownership.SlotsAreOwnedProxies` | src/network/intake-reservation-store.js:65-84 | live allocations plus held reservations are as many as the owned proxies |
| `Ownership.BindKeepsSlots` | src/network/intake-reservation-store.js:320-424 | binding leaves the number of occupied slots unchanged |
| `Ownership.ReserveRespectsBound` | src/network/intake-reservation-store.js:262-318 | reserving never exceeds its bound |
| `Ownership.ConcurrencyIsBounded` | src/network/intake-reservation-store.js:65-84 | without direct acquisition, occupied slots never exceed the bound that all reservations use |
| `FinalResultStores.FinalResultStore.CreateOrGet` | src/results/final-result-store.js:305-419 | inserts a PENDING row with everything of the normalized result, or returns the row with the same digest and terminal state, or conflicts |
| `FinalResultStores.FinalResultStore.Begin` | src/results/final-result-store.js:421-515 | PENDING becomes IN_FLIGHT and counts an attempt; the other states refuse in their own ways |
| `FinalResultStores.FinalResultStore.MarkPendingAfterFailure` | src/results/final-result-store.js:580-637 | IN_FLIGHT goes back to PENDING with what is known about the request |
| `FinalResultStores.FinalResultStore.MarkAsUncertain` | src/results/final-result-store.js:639-680 | IN_FLIGHT becomes UNCERTAIN |
| `FinalResultStores.FinalResultStore.MarkInterruptedInFlightUncertain` | src/results/final-result-store.js:682-726 | after a restart IN_FLIGHT becomes UNCERTAIN and UNCERTAIN stays |
| `FinalResultStores.FinalResultStore.RequeueUncertain` | src/results/final-result-store.js:728-752 | UNCERTAIN goes back to PENDING |
| `FinalResultStores.FinalResultStore.MarkAsDelivered` | src/results/final-result-store.js:754-800 | IN_FLIGHT becomes DELIVERED with a valid HTTP status |
| `History.LedgerIsAppendOnly` | src/results/final-result-store.js:209-302 | over any run outcome, terminal state, payload and digest never change, attempts never shrink, and a DELIVERED row never changes |
| `History.AllocationIdentityIsPermanent` | src/network/ip-allocator.js:312-593 | over any run an allocation keeps job, proxy, ip and port, and a released one never changes |
| `RecoveryStores.RecoveryStore.Record` | src/recovery/recovery-store.js:282-392 | upserts the observation; the restart count grows once per boot |
| `CanonicalJson.CanonicalFormDecidesEquality` | src/results/final-result.js:386-421 | two data trees have the same canonical tree iff they are equal up to key order at every depth |
| `CanonicalJson.CanonicalizeIsIdempotent` | src/results/final-result.js:386-421 | canonicalizing a canonical tree changes nothing |
| `CanonicalJson.CanonicalizeOnlyReorders` | src/results/final-result.js:386-421 | the canonical tree carries the same data |
| `CanonicalJson.CanonicalizeTree` | src/results/final-result.js:386-421 | the loops compute the canonical tree |
| `ResultIdentity.SecondAttemptReusesOrConflicts` | src/results/final-result-store.js:334-362 | a second result for the job reuses the row iff outcome and payload are the same up to key order, and conflicts otherwise |
| `ResultIdentity.RecordedPayloadIsCanonical` | src/results/final-result.js:510-560 | the recorded payload is the canonical form of the given one and its digest is of that form |
| `RetryPolicy.ClassifyRetry` | src/recovery/retry-policy.js:120-269 | every decision is an iff on the error and the budget: a challenge, a shutdown or an abort, not retryable, budget used up, and otherwise a retry, the next one, with its delay; the code is that of the error or the one of the decision |
| `RetryPolicy.DelaysNeverShrink` | src/recovery/retry-policy.js:95-118 | later retries never wait less |
| `SystemInvariant.OtherJobsAreUntouched` | src/recovery/recovery-service.js:721-741 | a transaction for one job leaves job, allocation and result rows of all others alone |
| `SystemSteps.RunStepOk` | src/runtime/execution-worker.js:430-540 | the step that starts a run and activates the bound allocation keeps what the invariant says of the job |
| `SystemSteps.ResumeStepOk` | src/runtime/execution-worker.js:640-770 | the step that resumes a challenge keeps what the invariant says of the job, with and without its context |
| `SystemSteps.WorkflowFailedStepOk` | src/runtime/execution-worker.js:327-400 | the step after a failed workflow keeps what the invariant says of the job, manual challenge or not |
| `SystemSteps.FailureStepOk` | src/runtime/retrying-execution-runner.js:335-450 | every decision about a failure keeps what the invariant says of the job: retries are paid for, and failures are finalized only where the job can still fail |
| `SystemSteps.FinalizeStepOk` | src/results/final-result-service.js:402-457 | recording a result keeps what the invariant says of the job: the result names a state the job can still reach |
| `SystemSteps.DeliverStepOk` | src/results/final-result-service.js:184-303 | the checks before a send, the requeue and the begun delivery keep what the invariant says of the job and its sends |
| `SystemSteps.UndeliveredStepOk` | src/results/final-result-service.js:322-361 | the step after a failed send keeps what the invariant says of the sends: PENDING means none had an effect, unless replay was ever declared safe |
| `SystemSteps.TerminalizedViewOk` | src/results/final-result-service.js:109-151 | a delivered result can always be terminalized, and doing so keeps the invariant |
| `SystemSteps.FreeStepOk` | src/results/final-result-service.js:153-182 | releasing the IP keeps what the invariant says of the row: released means terminal, with the matching reason |
| `SystemSteps.RecoverStepOk` | src/recovery/recovery-service.js:622-719 | the first step of every recovery case keeps what the invariant says of the job |
| `SystemSteps.RestartOk` | src/recovery/recovery-service.js:721-741 | the invariant survives a crash between any two steps |
| `SystemSteps.IntakeOk` | src/portal/portal-intake-service.js:236-380 | every step of the intake cycle keeps the invariant |
| `SystemSteps.PerformOk` | src/runtime/intake-execution-handler.js:297-389 | a step of one runner keeps the invariant and leaves every other job as it is |
| `SystemSteps.RunsAreOk` | src/results/final-result-service.js:109-458 | the invariant holds after any sequence of actions |
| `SystemTheorems.RunsAreTransactionLogs` | src/results/final-result-service.js:184-372 | the durable state of a run is that of its sequence of transactions, at most one per step |
| `SystemTheorems.AtMostOneRemoteEffect` | src/results/final-result-service.js:184-372 | with no idempotent replay, over every run with crashes anywhere, at most one send per job is accepted, ambiguous or cut off; a PENDING result has none; attempts count the sends |
| `SystemTheorems.SendsAreHistory` | src/results/final-result-service.js:305-320 | a step opens one send or answers the open one; past sends are never rewritten |
| `SystemTheorems.UncertainIsResentOnlyWithReplay` | src/results/final-result-service.js:235-275 | an uncertain result is sent again iff the contract declares idempotent replay |
| `SystemTheorems.RecordedResultIsPermanent` | src/results/final-result-store.js:305-515 | a recorded outcome, payload and digest never change in any later state |
| `SystemTheorems.TerminalOnlyThroughAcknowledgement` | src/results/final-result-service.js:109-182 | a terminal job has a DELIVERED result with that terminal state and an accepted last send; a released allocation belongs to a terminal job, with the matching reason |
| `SystemTheorems.RecordedResultCanTerminalize` | src/results/final-result-service.js:109-182 | in every reachable state the job of a result is in the named terminal state or can legally move there |
| `SystemTheorems.RestartFinishesDeliveredJobs` | src/recovery/recovery-service.js:349-382 | restart recovery of a DELIVERED result terminalizes the job and releases the IP without another send |
| `SystemTheorems.OneAllocationForLife` | src/recovery/recovery-service.js:234-270 | a bound job keeps its one allocation row, proxy, ip and port through any run, live until it is terminal |
| `SystemTheorems.StartedJobsHaveAnAllocation` | src/network/intake-reservation-store.js:320-424 | every job past PENDING has exactly one allocation row |
| `SystemTheorems.StepCountsMoves` | src/runtime/retrying-execution-runner.js:335-496 | the history of retry starts counts exactly the RETRY_PENDING to RUNNING moves |
| `SystemTheorems.RetryBudgetSurvivesRestarts` | src/recovery/recovery-service.js:500-589 | those moves never exceed the retry count, nor that the budget, over any mix of retries and crashes |
| `SystemTheorems.JobsAreIndependent` | src/recovery/recovery-service.js:622-742 | handling one job never touches another job's rows or runner |
| `SystemTheorems.StartedRunsEnterRunning` | src/runtime/intake-execution-handler.js:311-389 | with one runner per job, a started run always activates its allocation and enters RUNNING |
| `SystemTheorems.ASecondRunWouldFailTheJob` | src/runtime/execution-worker.js:80-96 | a run on a RUNNING job would be finalized as FAILURE |
| `SystemTheorems.LostChallengeIsFailed` | src/runtime/execution-worker.js:690-702 | a resumed challenge runs iff its context survived, and goes to FAILURE otherwise |
| `CrashResidues.KeptIpsComeFromCrashes` | src/results/final-result-service.js:132-168 | in every reachable state a terminal job owns its IP iff its runner is about to release it, or some restart came between the terminal transition and the release |
| `CrashResidues.StrandedIpsStay` | src/recovery/recovery-service.js:622-742 | after such a restart the job keeps its IP in every later state, and has no runner |
| `CrashResidues.OtherRunsRelease` | src/results/final-result-service.js:132-182 | in a run without such a restart every terminal job whose runner is done has its IP released |
| `CrashResidues.ResumingByHandReleases` | src/results/final-result-service.js:374-400 | resuming the delivery of such a job, which nothing does, would release its IP without another send |
| `CrashResidues.OrphansComeFromCrashes` | src/portal/portal-intake-service.js:372-397 | in every reachable state a held reservation belongs to no cycle iff some restart came while its cycle held it |
| `CrashResidues.NothingLeaksInOneBoot` | src/portal/portal-intake-service.js:236-397 | within one boot, however runners, intake and pool interleave, what is held is held by the cycle in progress |
| `SystemTheorems.OrphanedReservationStaysHeld` | src/network/intake-reservation-store.js:426-517 | from any state with an orphaned reservation, it is held in every later state |
| `ReachedStates.AReservationIsOrphaned` | src/portal/portal-intake-service.js:236-397 | a run that orphans a reservation: serve, sync, health check, reserve, restart |
| `ReachedStates.AnIpIsStranded` | src/results/final-result-service.js:132-168 | a run that ends a job and leaves it its IP for good: acknowledged, terminal, restart |
| `ReachedStates.AChallengeIsLost` | src/runtime/execution-worker.js:690-702 | a run in which a challenge outlives its context: the resumed job is on its way to FAILURE |
| `ReachedStates.ASendIsCutOff` | src/results/final-result-service.js:235-275 | a run that cuts off a send: recovered as uncertain, sent a second time iff the new boot declares idempotent replay |
| `SystemTheorems.UniqueIndexesHold` | src/db/migrations.js:223-240 | the unique indexes hold in every reachable state |
| `SystemTheorems.SystemConcurrencyIsBounded` | src/network/intake-reservation-store.js:262-318 | in every reachable state occupied slots are the owned proxies and within the bound |
| `FinalResultServices.FinalResultService.FinalizeDeliveredRecord` | src/results/final-result-service.js:109-182 | the job reaches the state of its result, then its IP is released |
| `FinalResultServices.FinalizingTold` | src/results/final-result-service.js:109-182 | the job ends in the state of its result, with the failure code of the result, and its IP is released for that reason |
| `FinalResultServices.FinalizesWhenItCanFinish` | src/results/final-result-service.js:109-182 | both halves go through iff the job is in the state of its result or can legally move there, and the proxy of its IP is known |
| `FinalResultServices.ReachedCanFinish` | src/results/final-result-service.js:109-182 | that is so for every recorded result of every reachable state |
| `FinalResultServices.FinalResultService.PassGate` | src/results/final-result-service.js:206-275 | delivery goes on iff there is a contract and an ambiguous send may be repeated; an uncertain result is requeued; otherwise it says which of the two is missing |
| `FinalResultServices.FinalResultService.RecordAnswer` | src/results/final-result-service.js:305-361 | an acknowledgement is DELIVERED; any failure after the send is PENDING or UNCERTAIN by its certainty |
| `FinalResultServices.FinalResultService.DeliverRecord` | src/results/final-result-service.js:184-372 | succeeds iff the row was delivered or its send is validly acknowledged, and the job can be finished; in a process that began with empty tables iff the former; otherwise says why; ledger, sends, job and other jobs in every case |
| `FinalResultServices.DeliveryTold` | src/results/final-result-service.js:184-372 | what every delivery comes to, in plain terms of contract, IP, status, certainty and answer: when it reaches the Portal, when the row is DELIVERED, PENDING or UNCERTAIN, and the one send it adds |
| `FinalResultServices.FinalResultService.ResumeDelivery` | src/results/final-result-service.js:374-400 | the same for a recorded result that is taken up again, one that recovery reports or by hand; without a job or a result nothing happens |
| `FinalResultServices.FinalResultService.Finalize` | src/results/final-result-service.js:402-457 | a result is recorded before it is sent; without a row to deliver nothing changes; success iff there is one, it was or is acknowledged, and the job can be finished, which in a process that began with empty tables it always can; then delivered, terminal and released |
| `FinalResultServices.CapturingTold` | src/results/final-result-service.js:402-457 | a row to deliver is there iff there is a payload and no other result stands in the way, and a new row is the outcome, its code and the canonical payload |
| `ExecutionWorkers.ExecutionWorker.Start` | src/runtime/execution-worker.js:430-560 | a run starts iff the job is ready and has its IP; the same allocation is activated and the job is RUNNING |
| `ExecutionWorkers.ExecutionWorker.ExecuteRunningContext` | src/runtime/execution-worker.js:299-428 | the job changes only for a manual challenge; the context survives a failing workflow |
| `ExecutionWorkers.ExecutionWorker.Execute` | src/runtime/execution-worker.js:430-626 | one attempt, from start to outcome |
| `ExecutionWorkers.ExecutionWorker.ResumeManualChallenge` | src/runtime/execution-worker.js:640-771 | goes on iff job, context and IP are there, on the same allocation |
| `RetryingExecutionRunners.RetryingExecutionRunner.HandleFailure` | src/runtime/retrying-execution-runner.js:335-496 | for every error, a terminal failure, another attempt or an exception, as error, budget, job state, IP and interruption decide; a challenge, a shutdown and an abort change nothing; another attempt costs one retry and keeps the IP |
| `RetryingExecutionRunners.RetryingExecutionRunner.RunAttempts` | src/runtime/retrying-execution-runner.js:498-538 | terminates; every further attempt followed a retryable failure, cost one retry, and stayed within the budget; it ends with what the last attempt comes to |
| `FinalizingExecutionRunners.FinalizingExecutionRunner.FinalizeExecution` | src/runtime/finalizing-execution-runner.js:205-320 | completed workflows and terminal failures are finalized with their outcome, and row, sends and job are those of that finalization, failed or not; success is an iff; an execution whose last attempt ends with a shutdown, an abort or a challenge leaves ledger, sends, retry count, job state and IP to recovery |
| `FinalizingExecutionRunners.InterruptionsLeaveAlone` | src/runtime/retrying-execution-runner.js:370-383 | whatever the policy calls it: an attempt that ends with a shutdown code or an abort name gives up without an outcome, and leaves the job RUNNING on its IP |
| `RecoveryServices.RecoveryService.RecoverJob` | src/recovery/recovery-service.js:622-719 | succeeds iff a delivered result can be made final, which in a process that began with empty tables it always can; then the rows of the job are as the cases say, and nothing is sent |
| `RecoveryServices.RecoveryService.RecoverAll` | src/recovery/recovery-service.js:721-741 | recovers every incomplete job once; in a process that began with empty tables it never throws, and every job ends as the cases say of the rows it had before |
| `RecoveryPasses.RecoveryFollowsTheCases` | src/recovery/recovery-service.js:294-719 | case by case: an interrupted send is uncertain, a delivered result is made final, a job that stopped at an upload keeps its row and its IP and is blocked whatever its state and budget, a cut-off job costs one retry and waits for it, one without retries left is noted as exhausted, one without IP is blocked, others are only noted |
| `RecoveryPasses.PassFollowsTheCases` | src/recovery/recovery-service.js:721-741 | a pass over distinct jobs recovers each from the rows it had before the pass, and leaves the others |
| `RecoveryPasses.RecoveryTouchesOnly` | src/recovery/recovery-service.js:622-719 | recovering a job changes only its own rows and its own proxy |
| `RecoveryPasses.RecoverySettles` | src/recovery/recovery-service.js:294-589 | after its recovery a job has nothing left to recover in this boot |
| `RecoveryPasses.SettledStays` | src/recovery/recovery-service.js:294-589 | recovering such a job again changes nothing that counts |
| `RecoveryPasses.RecoveryIsIdempotent` | src/recovery/recovery-service.js:721-741 | a second recoverAll of the boot changes no job, retry count, version, delivery status, allocation, proxy or restart count |
| `RecoveryServices.ReachableRecoveryIsIdempotent` | src/recovery/recovery-store.js:309-333 | that holds from every reachable state |
| `FinalResultRecoveryRunners.FinalResultRecoveryRunner.CanAttempt` | src/runtime/final-result-recovery-runner.js:129-196 | an attempt is allowed iff there is a contract and the result is pending, or uncertain under idempotent replay |
| `FinalResultRecoveryRunners.FinalResultRecoveryRunner.RunOne` | src/runtime/final-result-recovery-runner.js:198-291 | delivered iff an attempt is allowed, the result was or is acknowledged, and the job can be finished; otherwise it says why; at most one send; a skip changes nothing |
| `FinalResultRecoveryRunners.FinalResultRecoveryRunner.RunAll` | src/runtime/final-result-recovery-runner.js:293-315 | one status per report, skipped exactly where no attempt is allowed; with the reports of recovery no other result is resumed, and in a process that began with empty tables a report ends delivered iff an attempt is allowed and its result was or is acknowledged |
| `IntakeExecutionHandlers.IntakeExecutionHandler.Admit` | src/runtime/intake-execution-handler.js:297-355 | admitted iff running and the job has no runner; one controller per job |
| `IntakeExecutionHandlers.IntakeExecutionHandler.CheckBatch` | src/runtime/intake-execution-handler.js:445-476 | a cycle passes iff its jobs are distinct and none is active; the first job in the way decides the refusal |
| `IntakeExecutionHandlers.IntakeExecutionHandler.HandleCycleResult` | src/runtime/intake-execution-handler.js:391-650 | all jobs of a cycle or none; in whatever order the overlapping tasks end and wherever stop() comes, the counters add up to the admitted jobs, and completed and challenged are the tasks that end so |
| `IntakeExecutionHandlers.CountsAreThoseOfTheEnds` | src/runtime/intake-execution-handler.js:138-192 | completed are the tasks that finalize their job, challenged those that throw a challenge, in any order of ends; without stop() aborted are the interrupted and failed the failing ones; with stop() first none failed |
| `IntakeExecutionHandlers.IntakeExecutionHandler.SettleAll` | src/runtime/intake-execution-handler.js:311-389 | tasks that end in any order leave exactly the runners that were there before; a task that ends after stop() is classified as such |
| `IntakeExecutionHandlers.StopOnlyAborts` | src/runtime/intake-execution-handler.js:138-192 | stop() turns failures into aborts and leaves completed workflows and challenges what they are |
| `IntakeExecutionHandlers.IntakeExecutionHandler.ResumeManualChallenge` | src/runtime/intake-execution-handler.js:652-773 | the same exclusivity for resumes, counted by outcome, also when stop() comes while it runs |
| `IntakeExecutionHandlers.OutcomesAddUp` | src/runtime/intake-execution-handler.js:538-586 | every outcome is counted under exactly one heading |
| `Capacity.CalculateEffectiveCapacity` | src/portal/capacity.js:16-62 | the largest number of jobs that fits headroom, cycle limit and healthy proxies |
| `PortalIntakeServices.PortalIntakeService.RunRound` | src/portal/portal-intake-service.js:236-397 | whatever a round meets, the slot it reserved is bound or given back; on sound tables and with fresh identifiers no slot is NoSlot, nothing pending is NoApplication, an empty response is NoContent, a known application is a duplicate, and an unknown one is taken, with a job of that application and user |
| `PortalIntakeServices.PortalIntakeService.TakeApplication` | src/portal/portal-intake-service.js:295-370 | a new application ends WAITING_FOR_IP with its own live RESERVED allocation; a known one gives the slot back and is a duplicate; on sound tables and with fresh identifiers nothing else can happen |
| `PortalIntakeServices.PortalIntakeService.RunCycle` | src/portal/portal-intake-service.js:165-413 | on return or throw the held reservations are those at entry; the capacity is the largest that fits; in a process that began with empty tables and with fresh identifiers every new application fetched becomes a job and is handed off in order, created and duplicates count exactly the new and known ones, and it ends below its capacity only without a slot, with nothing pending or with an empty response, or by throwing what a fetch or mapping throws |
| `IntakeRounds.ReservedThenFetched` | src/portal/portal-intake-service.js:236-397 | a reserved slot and what becomes of the fetch make the round |
| `IntakeRounds.NewIsUnknown` | src/portal/portal-intake-service.js:304-330 | after m applications another one is known iff there was a job for it before the cycle or an earlier fetch brought it |
| `IntakeRounds.OneMoreApplication` | src/portal/portal-intake-service.js:236-370 | a round with an application adds its job iff it is new, and keeps what the cycle has promised so far |
| `IntakeRounds.NewOnesAreHandedOff` | src/portal/portal-intake-service.js:350-370 | as many jobs are handed off as there are new applications |
| `WorkflowEngines.WorkflowEngine.FindResumeIndex` | src/workflow/engine.js:246-321 | the completed steps must be a prefix and the current step the next one |
| `WorkflowEngines.ResumesAfterPrefix` | src/workflow/engine.js:246-321 | after k completed steps, none named __proto__, resuming goes on at k iff the current step fits |
| `WorkflowEngines.ProtoStepIsForgotten` | src/jobs/job-context.js:310-341 | after a step named __proto__ resuming is possible only directly after it, and repeats it |
| `WorkflowEngines.OnlyProtoIsForgotten` | src/workflow/engine.js:246-321 | k completed steps are resumed after as they should be, whatever the current step, iff none of them is named __proto__ |
| `WorkflowEngines.StopIsTheFirst` | src/workflow/engine.js:476-820 | the step before which a run stops is the first that is aborted or fails |
| `WorkflowEngines.StepGoesThrough` | src/workflow/engine.js:500-820 | a step goes through iff its own operation succeeds, a preparation gets acceptable documents, and every document of an upload is marked or accepted |
| `WorkflowEngines.UploadsSucceedTogether` | src/workflow/engine.js:711-792 | the upload loop succeeds iff no document is aborted before and each is marked, repeated or accepted |
| `WorkflowEngines.WorkflowEngine.Execute` | src/workflow/engine.js:394-832 | completed steps are always a prefix; COMPLETED means all; a failed step is resumed at; the end is that of the first step that does not go through; resumability is lost iff that step is aborted and not the one resumed at; every upload step completed by the call has uploaded every document that the last preparation before it downloaded |
| `WorkflowEngines.AbortBeforeTheSecondStep` | src/workflow/engine.js:476-500 | a workflow of two steps, aborted before the second, can never be resumed |
| `WorkflowEngines.WorkflowEngine.RunStep` | src/workflow/engine.js:476-820 | a step completes once; a preparation leaves exactly the documents its downloads delivered, other steps leave them; an upload step completes with every prepared document uploaded and answered |
| `WorkflowEngines.WorkflowEngine.PrepareDocuments` | src/workflow/engine.js:625-664 | succeeds iff the downloads are acceptable, and leaves all of them as the documents, forgetting markers iff they differ from earlier ones |
| `WorkflowEngines.UploadsGoOn` | src/workflow/engine.js:711-792 | a completed upload step uploads every document of the last preparation before it |
| `WorkflowEngines.WorkflowEngine.UploadOne` | src/workflow/engine.js:711-792 | a document whose upload was answered is never uploaded again for the step; a lost answer leaves no marker |
| `WorkflowEngines.AcceptedOnceUnlessUnanswered` | src/workflow/engine.js:711-792 | over any number of executions the target accepts a document for a step at most once more than answers for it were lost |
| `WorkflowEngines.LostAnswerIsRepeated` | src/workflow/engine.js:736-779 | an upload whose answer was lost is repeated by the next attempt |
| `WorkflowEngines.NextStepStartsClean` | src/jobs/job-context.js:442-485 | markers of earlier steps never count for the next one |
| `JobContexts.UploadKeyIsInjective` | src/jobs/job-context.js:442-485 | the marker key names the step and the document, for valid step ids |
| `JobContexts.JobContext.SetDocuments` | src/jobs/job-context.js:402-440 | other documents forget earlier upload markers, the same ones keep them |
| `DocumentServices.DocumentService.Prepare` | src/documents/document-service.js:182-316 | succeeds iff there are one to maxCount sources, all deliver, contents differ and the total fits; otherwise the first source that spoils it decides the error |
| `DocumentServices.DistinctContentDistinctIds` | src/documents/document-service.js:283-300 | distinct contents have distinct document ids |
| `Otp.CreateWatch` | src/otp/otp-matcher.js:28-77 | the baseline is the fingerprints of the phone, each once |
| `Otp.BaselineIsNeverNew` | src/otp/otp-matcher.js:28-77 | a row seen before the request is never a candidate |
| `Otp.FindNewOtp` | src/otp/otp-matcher.js:79-171 | a match iff exactly one new fingerprint of the phone carries a code, and then its last row; several are refused |
| `Otp.IntervalsReachTimeout` | src/otp/otp-service.js:262-316 | n poll intervals reach the timeout iff n is at least the bound on fetches |
| `Otp.OtpService.WaitForOtp` | src/otp/otp-service.js:244-319 | at most ceil(timeout / interval) fetches, with at most an interval of sleep between them; the code is the only new one of its phone in the last fetch, and earlier fetches had none; a failed fetch, several codes, a cancellation and a timeout each end it only when they happen |
| `Otp.OtpService.Poll` | src/otp/otp-service.js:262-300 | a failed fetch iff the fetch fails, several matches iff it brings several new fingerprints, and otherwise the match |
| `CookieRules.DefaultPathMatchesItsRequest` | src/session/cookie-jar.js:46-66 | a cookie without Path comes back on the request that set it |
| `CookieRules.DefaultPathIsTheDirectory` | src/session/cookie-jar.js:46-66 | the default path is the prefix up to the right-most slash, or "/" with at most one slash, as section 5.1.4 of RFC 6265 says |
| `CookieRules.PathMatchingIsTransitive` | src/session/cookie-jar.js:24-44 | path matching is inherited by deeper paths |
| `CookieRules.PathMatchesWholeSegments` | src/session/cookie-jar.js:24-44 | path matching is by whole segments, as section 5.1.4 of RFC 6265 says |
| `CookieRules.ParseAttributes` | src/session/cookie-jar.js:102-247 | rejected iff the name is empty or a Domain does not cover the host; the last valid Max-Age wins over every Expires, the first valid Expires counts otherwise; the last Path, Domain and SameSite count |
| `CookieRules.MeaningIsRead` | src/session/cookie-jar.js:134-247 | a cookie is what its attributes say: the last numeric Max-Age or else the first date, the last Path or else the directory, the last Domain or else the host alone, Secure, HttpOnly and SameSite where given |
| `CookieRules.AppliesWhere` | src/session/cookie-jar.js:333-384 | a cookie applies iff https where it is secure, its own host or one its domain covers by whole labels, and its path by whole segments |
| `CookieRules.NormalizingDropsOneDot` | src/session/cookie-jar.js:1-6 | a domain loses one leading dot and its letter case |
| `CookieRules.DomainsMatchWholeLabels` | src/session/cookie-jar.js:10-22 | a domain covers itself and its subdomains, letter case aside |
| `CookieRules.AcceptedDomainsCoverTheHost` | src/session/cookie-jar.js:158-180 | an accepted Domain covers the host the cookie came from |
| `CookieRules.AcceptedDomainsHaveNoBar` | src/session/cookie-jar.js:158-180 | a host without a bar sets only cookies whose domain has none |
| `CookieRules.AcceptedIsReceivable` | src/session/cookie-jar.js:102-247 | a host without a bar sets only cookies with a bar-free domain, an absolute path and a name |
| `CookieJars.CookieJar.RemoveExpired` | src/session/cookie-jar.js:270-285 | exactly the expired cookies go, and the others keep their order |
| `CookieJars.CookieJar.SetCookie` | src/session/cookie-jar.js:287-320 | the last cookie set under a key is the one that counts, in the place of the key or at the end; an expired one deletes |
| `CookieJars.CookieJar.CookiesFor` | src/session/cookie-jar.js:333-400 | the cookies sent are exactly the last-set unexpired ones that apply, one per key, longest path first and in the order of the jar for one length; one per domain, path and name, as long as nothing set had a bar in domain or path |
| `CookieJars.SortIsStable` | src/session/cookie-jar.js:385-389 | cookies of equal path length keep their order |
| `CookieJars.KeysCanCollide` | src/session/cookie-jar.js:262-268 | on any request two lines with different names and Path attributes are accepted as cookies with the same key |
| `CookieJars.KeyNamesTheCookie` | src/session/cookie-jar.js:262-268 | without a bar in domain and path, keys agree iff domain, path and name do |
| `CookieJars.KeyIsUnambiguous` | src/session/cookie-jar.js:262-268 | among cookies with a bar-free domain, an absolute path and a name, a key belongs to one iff there is no bar in its path, and none in its name but possibly the last character |
| `CookieJars.LostToALaterCollision` | src/session/cookie-jar.js:287-320 | the last cookie of its domain, path and name is found under its key iff no later one came in under the same key |

## Left out

- Interleaving inside the runner classes: their methods run without other jobs in between; interleaved
  and crashed runs are those of `SystemModel`, where every transaction is a step of its own.
- `IntakeExecutionHandlers.IntakeExecutionHandler.HandleCycleResult`: manual resumes that start or end while
  the tasks of a cycle run.
- `JobStores.JobStore.ListIncomplete`: the order of the query, by creation time and id; creation times are not
  columns of the model, and nothing here depends on the order.
- `ExecutionWorkers.ExecutionWorker.ResumeManualChallenge`: the comparison of the stored context with the
  allocation; a context here has no identity of its own, and a job has one allocation for life.
- `CrashResidues.KeptIpsComeFromCrashes`: runs in which someone resumes a delivery that recovery did not report;
  nothing in the repository does.
- HTTP, proxies, HTML parsing, schema libraries and files: a send, fetch, step or upload has an outcome
  that is a parameter. A request known to be not sent, or rejected, is taken to have had no effect.
- SQL and SQLite: tables are maps, UNIQUE indexes are guards that roll back, LIMIT 1 takes the smallest
  id. Foreign keys and CHECK constraints are not modelled beyond the types of the columns, and a transaction fails
  only for what is in the tables.
- Identifiers, times, devices and SHA-256: ids are numbers that come in as parameters, times are numbers,
  and a digest is taken to determine its payload.
- `PortalIntakeServices.PortalIntakeService.RunCycle`: that new applications become jobs is stated for identifiers
  that nothing uses yet and no two rounds share, as random UUIDs are taken to be; clashing ones roll back and throw.
- Messages, labels, heartbeats, latency, cooldown times and update times: carried by the rows, but read
  by nothing that is modelled.
- `CanonicalJson.CanonicalizeTree`: numbers are reals, and the special enumeration order of
  integer-like keys is not modelled, because JSON equality does not depend on either.
- The limits and key patterns of normalizeJsonValue: only accepted trees are modelled; a rejected one is a
  missing payload.
- Changing maxRetries or the workflow between boots: they are parameters of a run.
- `SystemSteps.RunsAreOk`: any job that waits for its IP or its retry may be admitted while serving,
  which allows more than the handler does.
- closeTerminalJob and session shutdown: memory of terminal jobs that nothing reads any more.
- `CookieRules.ParseAttributes`: splitting the header line, trimming, and parsing numbers and dates.
- `CookieJars.CookieJar.SetCookie`: the header line comes in parsed up to its attributes; one reading of the clock
  per call, and a clock that never goes back.
- `CookieJars.KeyIsUnambiguous`: names without "=" and ";" and trimmed names and paths, which the header syntax
  leaves; they exclude some of the second readings of a key.
- `CookieJars.CookieJar.CookiesFor`: joining names and values into the header text.
- `WorkflowEngines.WorkflowEngine.Execute`: templates, routes and headers are part of the step's own
  success or failure.
- Dashboard, readiness and activation gates, configuration, logging, redaction, shutdown timers: projections
  and event-loop plumbing.
