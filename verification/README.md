# Eyeball executor and gateway: a verified model

This project models the stateful core of the eyeball repository and proves its
protocol properties: the execution lifecycle with its record store, rate
limiting and the toolkit semaphore, the gateway's task state, and four small
algorithms over graphs, streams and a process global. Run
`dafny verify dfyconfig.toml` to check everything.

## How the system is modelled

- **Execution store.** `ExecutionRecords.dfy` has the records and the transition
  check, `ExecutionStore.dfy` each store call as one atomic function on a store
  value, `StoreRuns.dfy` the invariant over all sequences of calls. The class
  in `StoreObject.dfy` updates its maps in place and refines those functions
  method by method. `CursorWalks.dfy` and `RecoveryScan.dfy` are the paged reads,
  interleaved with arbitrary writes.
- **Execution engine.** `ExecutionEngine.dfy` is a step machine. Each execute
  request, queued job, cancellation, recovery and reconciliation is a worker with
  a program counter; a step runs one worker from one await to the next. Clocks,
  adapters, credential providers, the usage gate, the webhook deliverer and the
  queue answer arbitrarily. A crash of a process drops its workers and its maps
  and keeps the store. A run is any sequence of actions of any number of
  processes. `EngineInvariants.dfy` states what every step keeps,
  `EngineSteps.dfy` proves it program point by program point,
  `EngineTheorems.dfy` draws the conclusions for all runs. `EngineMoves.dfy` says what
  one step may touch; on it rest `EngineRetention.dfy`, which follows the configured
  retention to the windows it makes, `EngineHistory.dfy`, which ties every row to
  its admission and follows a lost run to its end, `EngineWindows.dfy`, which says when
  a scope is free, `EngineEffects.dfy`, which ties what is recorded as done to the
  effect, and `EngineAnswers.dfy`, which ties an output to the adapter that gave it.
  These say what cannot happen. `EngineProgress.dfy`, `EngineRequests.dfy` and
  `EngineRecovery.dfy` say what does happen: what some turns of one worker achieve while
  all others do anything in between.
- **Rate limits.** `RateLimit.dfy` has the token bucket over exact reals and the
  aligned fixed window, for arbitrary timestamps, and `BucketAdmission.dfy` says which
  checks a bucket admits in terms of the run alone. `Semaphore.dfy` is the fair
  semaphore as a value and `SemaphoreObject.dfy` the limiter object with shared
  bucket objects and permits that remember theirs.
- **Gateway tasks.** `TaskMerge.dfy` interleaves starts, polls, cancellations,
  expiries and session changes that hold stale snapshots, while the executor's
  store is the store of `ExecutionStore.dfy` moving by any of its calls;
  `TaskOutcomes.dfy` says what a client may conclude from a task.
  `SessionStoreObject.dfy` is the session store and the save through its atomic
  update.
- **Algorithms.** `DeepFreeze.dfy` (in-place freeze of cyclic graphs),
  `JsonBoundary.dfy` (conversion to JSON with a path set), `SecretScan.dfy`
  (streamed overlapping windows), `ScopedFetch.dfy` (promise-chain lock around a
  global).

Three things that one might expect do not hold in full, and the model follows the code.

- The advice in `retryAfterMs` presumes a clock that is not behind an earlier check.
  `RateLimit.StaleClockBreaksAdvice` is an input; `RateLimit.AdviceIsRightIff` says
  exactly when a retry at the advised time is admitted for intervals below 2^52 ms, and
  `RateLimit.AdviceDeficit` for all of them.
- The deep freeze stops at objects that are already frozen.
  `DeepFreeze.ShallowFrozenShell` is an input; `DeepFreeze.FreezesEverythingIff` the
  exact condition.
- Streaming a large file can report a line that a scan of its whole text does not, when
  a buffer ends inside a word. `SecretScan.StreamingCanOverReport` is an input;
  `SecretScan.StreamingAgreesWithWholeText` the exact condition.

## Model

| member | source | states |
|---|---|---|
| ExecutionRecords.AcceptedTransition | apps/executor/src/store.ts:328-364 | a transition that the store accepts keeps every identity field, raises the rank pending < running < terminal, and never leaves a terminal record |
| ExecutionRecords.CancellationIsAccepted | apps/executor/src/store.ts:237-276 | the cancellation record built from any non-terminal record passes the transition check, so a cancel never throws |
| ExecutionRecords.TransitionIsAcceptedIff | apps/executor/src/store.ts:328-364 | exactly which record may replace which: same identity, no claim to be a replay, from pending to running, failed or cancelled, or from running to one of the three ends |
| ExecutionRecords.CancellationTells | apps/executor/src/store.ts:237-276 | a cancellation record is completed when it was cancelled, counts its latency from the start or else from the creation, never below zero, and tells whether the dispatch marker was set |
| StoreRuns.InsertIndex | apps/executor/src/store.ts:438-509 | allocation keeps the two idempotency maps mutually inverse and pointing at stored executions, also when an expired entry is taken over |
| StoreRuns.InspectPredictsAllocate | apps/executor/src/store.ts:388-509 | on the same state the preflight and the allocation give the same conflict and the same replay record; "available" means allocated unless the ID is a duplicate; the dangling-entry throw is unreachable |
| StoreRuns.TakenUntilExpiry | apps/executor/src/store.ts:388-509 | while the creation time of a request is before the expiry of its scope's entry the entry answers, as a replay or a conflict by its request hash, and nothing is written; from the expiry on the preflight says available and a fresh ID is allocated and takes the scope |
| StoreRuns.KeylessIsAlwaysNew | apps/executor/src/store.ts:388-509 | without an idempotency key a fresh ID is always allocated |
| StoreRuns.ReplayIsTheScopesExecution | apps/executor/src/store.ts:421-482 | a replay is the stored execution that the scope names, made for the same request hash |
| StoreRuns.ResolvedConnectionReachesIndex | apps/executor/src/store.ts:649-679 | recording a connection reaches the index entry that belongs to the execution, and no other entry changes |
| StoreRuns.SettleKeeps | apps/executor/src/store.ts:558-622 | settling an execution resolves all its waiters once and keeps rows, index and waiters valid |
| StoreRuns.WaitKeeps | apps/executor/src/store.ts:624-647 | a wait on a terminal execution is delivered at once, any other is queued; the whole store invariant is kept |
| StoreRuns.ApplyKeeps | apps/executor/src/store.ts:378-876 | every store call keeps the invariant and only advances the store: rows stay, markers are set once, terminal rows are frozen |
| StoreRuns.RunKeeps | apps/executor/src/store.ts:378-876 | the same over every sequence of calls |
| StoreRuns.TerminalAbsorbs | apps/executor/src/store.ts:328-364 | over every run identity fields never change, the rank never falls, and a terminal record and its dispatch marker stay exactly as they are |
| StoreRuns.WaitersResolve | apps/executor/src/store.ts:558-647 | a promise of waitForTerminal made at any time is resolved exactly once if and only if its execution becomes terminal, with that record up to the replayed flag |
| StoreObject.InMemoryExecutionStore.InspectAllocation | apps/executor/src/store.ts:388-419 | the object answers the preflight as the value-level store does and never throws |
| StoreObject.InMemoryExecutionStore.Allocate | apps/executor/src/store.ts:421-509 | the object, its maps updated in place, ends in the specified state with the specified answer, invariant kept |
| StoreObject.InMemoryExecutionStore.MarkReplayed | apps/executor/src/store.ts:547-556 | sets the replay observation once |
| StoreObject.InMemoryExecutionStore.Update | apps/executor/src/store.ts:558-581 | refines the specified transition, waiters resolved in the loop |
| StoreObject.InMemoryExecutionStore.CancelExecution | apps/executor/src/store.ts:583-622 | refines the specified cancellation and never throws |
| StoreObject.InMemoryExecutionStore.WaitForTerminal | apps/executor/src/store.ts:624-647 | refines the specified wait |
| StoreObject.InMemoryExecutionStore.SetResolvedConnection | apps/executor/src/store.ts:649-679 | refines the specified write to the row and to its index entry |
| StoreObject.InMemoryExecutionStore.SetResumeContext | apps/executor/src/store.ts:801-823 | refines the set-once write, with both immutability errors |
| StoreObject.InMemoryExecutionStore.SetWebhookEventId | apps/executor/src/store.ts:825-840 | refines the set-once write, with its error |
| StoreObject.InMemoryExecutionStore.MarkDispatchStarted | apps/executor/src/store.ts:842-853 | true for the one caller that finds the record running without a marker |
| StoreObject.InMemoryExecutionStore.MarkUsageFinalized | apps/executor/src/store.ts:855-864 | refines the set-once marker |
| StoreObject.InMemoryExecutionStore.MarkWebhookPublished | apps/executor/src/store.ts:866-876 | refines the set-once marker, refused without an event ID |
| CursorWalks.MatchesAreStable | apps/executor/src/store.ts:681-694 | writes never change whether a stored row matches a filter on tool and user |
| CursorWalks.PageOfFirstListing | apps/executor/src/store.ts:695-715 | a cursor made at a position of the first listing yields the next positions of it, however many newer rows there are |
| CursorWalks.WalkIsTheFirstListing | apps/executor/src/store.ts:681-715 | with any writes between pages a walk never fails, returns a prefix of the matches present at its first page, newest first, and when it ends exactly those, within one page more than there are matches |
| CursorWalks.ListingIsComplete | apps/executor/src/store.ts:681-694 | the listing holds exactly the matching rows, in strictly descending sequence |
| CursorWalks.ListedIff | apps/executor/src/store.ts:681-694 | a row is listed exactly when it is of the project and agrees with every field that the filter names |
| CursorWalks.PageShowsRecords | apps/executor/src/store.ts:695-715 | a first page shows the stored records at the first positions of the listing, each marked as replayed if it ever was, and has a cursor to the last of them exactly when the listing goes on |
| RecoveryScan.SortedSelectionIsScan | apps/executor/src/store.ts:750-785 | flattening the projects, selecting and sorting gives exactly the incomplete rows above the cursor, ascending |
| RecoveryScan.PageFacts | apps/executor/src/store.ts:750-799 | a page is the lowest candidates above its cursor; it has a next cursor only if it is full, and then every candidate it leaves lies beyond |
| RecoveryScan.ScanVisitsIncomplete | apps/executor/src/store.ts:750-799 | a scan interleaved with any writes visits rows in strictly ascending sequence, and when it ends it has visited every row that stayed incomplete throughout |
| RecoveryScan.ScanTerminates | apps/executor/src/store.ts:750-799 | once allocations stop, the scan ends within (total - cursor) / limit + 1 pages |
| EngineInvariants.StepKeeps | apps/executor/src/engine.ts:909-2297 | whatever meets the five obligations of a step carries the whole protocol invariant |
| EngineSteps.StepExecAllocate | apps/executor/src/engine.ts:1182-1345 | allocation, from a first attempt or a lost race, logs an admission only with the index entry it made |
| EngineSteps.StepRunMarkDispatch | apps/executor/src/engine.ts:2065-2085 | the step that asks for the dispatch marker reaches the adapter call only if it set the marker itself |
| EngineSteps.LostRunReconcilesWinner | apps/executor/src/engine.ts:2246-2275 | a failed run that finds a cancelled record after a conflict, a fence or an abort goes on to reconcile that record and releases nothing; any other failed run goes on to the release |
| EngineSteps.StepRunOuterCatch | apps/executor/src/engine.ts:2246-2275 | whichever way a failed run goes on, the protocol invariant is kept |
| EngineSteps.StepCancelStore | apps/executor/src/engine.ts:1371-1435 | a cancellation records whether the marker was set at that moment |
| EngineSteps.StepFailPersist | apps/executor/src/engine.ts:1794-1841 | failing an interrupted execution keeps the invariant although it acts on an earlier read |
| EngineSteps.StepReconRead | apps/executor/src/engine.ts:1719-1750 | what a reconciliation decides from its one read is the final side of its execution |
| EngineTheorems.RunInv | apps/executor/src/engine.ts:909-2297 | the invariant holds after every run of any number of processes and workers |
| EngineTheorems.AtMostOnceDispatch | apps/executor/src/engine.ts:2074-2092 | in every run the adapter is entered at most once per execution, only by the worker whose own marker call won before, and the marker is won at most once |
| EngineTheorems.SuccessWasDispatched | apps/executor/src/engine.ts:2124-2162 | a succeeded record is backed by exactly one entry into the adapter |
| EngineAnswers.SuccessIsAnAnswer | apps/executor/src/engine.ts:2066-2162 | in every run the output of a succeeded execution is the text that some step of the run gave to a worker inside the adapter of that execution |
| EngineProgress.AnswerIsRecorded | apps/executor/src/engine.ts:2124-2162 | a worker in its adapter is answered with a text; whatever the others do, after its next turn the execution has succeeded with exactly that text, or it was terminal before and is unchanged |
| EngineProgress.FailureIsRecorded | apps/executor/src/engine.ts:2190-2217 | a run that the outside world fails before or inside its adapter: two turns later the execution has failed with the error made of it, or it was terminal before and is unchanged |
| EngineProgress.DispatchSucceeds | apps/executor/src/engine.ts:2066-2162 | a run that finds its row running and unmarked while it is not aborted, and whose adapter does not fail, wins the marker, enters the adapter and records the answer in four turns, unless the execution becomes terminal meanwhile |
| EngineProgress.NewRunStarts | apps/executor/src/engine.ts:1967-2001 | a new run with a slot makes its pending row running, started when the slot was got |
| EngineProgress.CredentialLeadsToMarker | apps/executor/src/engine.ts:2007-2065 | a run whose credential resolves stores its connection in the row and goes on to its marker |
| EngineProgress.GivenUpRunReleases | apps/executor/src/engine.ts:2246-2285 | a run that gives up without having been cancelled releases its reservation exactly when it neither reached for the adapter, nor was fenced off, nor had settled its usage |
| EngineRequests.UsageReachesTheRow | apps/executor/src/engine.ts:1098-1188 | the report and the reservation that the usage gate answered are what the resume context of the admitted row holds |
| EngineRequests.UnusedReservationIsReleased | apps/executor/src/engine.ts:1189-1212 | a request with a reservation that is rejected, in conflict or replayed releases it in its next turn |
| EngineRequests.PreflightDecides | apps/executor/src/engine.ts:1067-1148 | under an open window the preflight, and the late one after usage was refused, goes on to replay the scope's execution if the request hash is the same and is in conflict if not; without an open window the first goes on to reserve usage and the late one ends |
| EngineRequests.ReplayIsObserved | apps/executor/src/engine.ts:1209-1251 | a replay leaves its execution marked at the time of the first replay, and goes on to the finished record, to the wait, or to its answer |
| EngineRequests.WaiterGoesOnIffFinished | apps/executor/src/engine.ts:1243-1251 | a request that waits goes on in its next turn, with the outcome, if the execution is finished by then, and stays if it is not |
| EngineTheorems.UnmarkedTerminalIsNeverDispatched | apps/executor/src/engine.ts:1561-1575 | a terminal execution without a marker was never dispatched and never will be, in any continuation |
| EngineTheorems.HonestCancellation | apps/executor/src/engine.ts:1371-1435 | a cancelled record that denies dispatch means no adapter entry before or after; one that admits it means that the marker was won before the cancel |
| EngineTheorems.TerminalRecordsStay | apps/executor/src/engine.ts:1483-2297 | over any continuation of any run identities stay, ranks never fall, terminal records are frozen |
| EngineTheorems.ReconciliationTakesOneSide | apps/executor/src/engine.ts:1719-1792 | all reconciliations of one execution, repeated, concurrent or after crashes, take the same side and use one webhook event ID |
| EngineEffects.FinalizedUsageWasSettled | apps/executor/src/engine.ts:1741-1776 | in every run a row whose usage is marked as finalized is finished, and if it has a dispatch marker and its resume context a report, the usage was reported; if it has no marker and its context a reservation, that was released |
| EngineEffects.PublishedWebhookWasEnqueued | apps/executor/src/engine.ts:1778-1790 | in every run a webhook that is marked as published was enqueued with the event ID of its row |
| EngineEffects.RowsAreRecoverable | apps/executor/src/engine.ts:1150-1188 | every stored row has a resume context of the version that recovery reads, and an event ID |
| EngineRecovery.ReconciliationSettles | apps/executor/src/engine.ts:1719-1791 | whatever the others do, five turns of a reconciliation that nothing fails leave its execution with usage finalized and webhook published, after it issued what was owed |
| EngineRecovery.ReconciliationStarts | apps/executor/src/engine.ts:1693-1717 | a worker that has to reconcile joins the reconciliation of its process or starts one with its own input |
| EngineRecovery.FinishedIsReconciled | apps/executor/src/engine.ts:1501-1523 | a starting job, a job whose run has thrown, a replay, and a recovery of a cancelled execution, each go on to reconcile the outcome that a finished row has |
| EngineRecovery.ReconciledFailureReleasesNothing | apps/executor/src/engine.ts:2218-2285 | a run whose recorded failure was reconciled is finished, or throws the credential provider's failure without releasing its reservation again |
| EngineRecovery.CancelTakesEffect | apps/executor/src/engine.ts:1371-1435 | a cancellation that finds its execution unfinished leaves it cancelled at its clock, with the right latency and the truth about the marker, and stops every run of it in the process |
| EngineRecovery.UndispatchedJobResumes | apps/executor/src/engine.ts:1483-1600 | a job that finds its execution unfinished and unmarked, with everything it needs, runs it with the usage that the resume context holds |
| EngineRecovery.InterruptedDispatchFails | apps/executor/src/engine.ts:1561-1575 | a job that finds its execution running with a marker leaves it failed as interrupted with unknown outcome, marker unchanged, or terminal as it found it |
| EngineRecovery.CandidatesHaveWorkLeft | apps/executor/src/store.ts:750-785 | in every run the scan looks for exactly the rows that are unfinished, unannounced, or owe usage that is not finalized |
| EngineRecovery.CompleteRowsAreDone | apps/executor/src/store.ts:750-785 | a row that the scan no longer looks for is finished, was announced, and had its usage reported or released, by its marker |
| EngineTheorems.ReleaseMeansNeverDispatched | apps/executor/src/engine.ts:1719-1768 | usage is reported only where the marker was won; a reconciliation releases a reservation only if the provider is never reached |
| EngineTheorems.NoUsageEffectAfterFinalizedRead | apps/executor/src/engine.ts:1727-1772 | a reconciliation that read after usage had been finalized issues no usage effect |
| EngineTheorems.DayIsPromised | apps/executor/src/engine.ts:706-709 | every window that is promised is at least a day long, whatever is configured |
| EngineTheorems.IdempotencySpacing | apps/executor/src/engine.ts:1870-1888 | for any clock, the i-th and j-th executions of one scope were created at least (j - i) spans apart, a span being a day or the retention that the promised windows respect, whichever is longer |
| EngineTheorems.DispatchesSpaced | apps/executor/src/engine.ts:1870-1888 | two dispatches under one scope are of different executions, created at least such a span apart |
| EngineRetention.ConfiguredRetention | apps/executor/src/engine.ts:706-709 | every window that an engine promises is at least as long as the configured retention |
| EngineRetention.WindowIsExact | apps/executor/src/engine.ts:1870-1888 | in every run each admission is that of a request that was made, under its scope, for exactly a day or the configured retention, whichever is longer, from its creation |
| EngineWindows.AdmittedIffNoOpenWindow | apps/executor/src/engine.ts:1182-1204 | in every run a request with a fresh ID is admitted if and only if the window of the last admission under its scope, if any, ended no later than its creation |
| EngineWindows.MajorIsBeforeTheDot | apps/executor/src/engine.ts:1881 | the catalog major is the text before the first dot, or all of it |
| EngineRetention.ConfiguredSpacing | apps/executor/src/engine.ts:1870-1888 | the spacing of creations with the configured retention, or a day if that is longer |
| EngineRetention.ConfiguredDispatches | apps/executor/src/engine.ts:1870-1888 | the provider sees at most one dispatch per scope per configured span of creation times |
| EngineHistory.AdmittedOnce | apps/executor/src/engine.ts:1182-1345 | in every run each stored execution has exactly one admission in the history, with its creation time and the scope that its row shows |
| EngineHistory.ScopeIsDispatchedOncePerSpan | apps/executor/src/engine.ts:1870-1888 | read off the stored rows alone: two dispatched executions whose rows show one idempotency scope were created at least a configured retention apart, or a day if that is longer |
| EngineHistory.LostRunReleasesNothing | apps/executor/src/engine.ts:2246-2285 | in every continuation a run that lost to a cancellation never releases its reservation |
| EngineMoves.AdvanceMoves | apps/executor/src/engine.ts:909-2297 | every step but an allocation, an abort and the start of a reconciliation moves one worker, logs at most one event, and adds or removes no row |
| RateLimit.InMemoryRateLimiter.CheckLimit | apps/executor/src/rate-limit.ts:107-119 | the limiter object stores and answers what the specification does, errors included |
| RateLimit.InMemoryRateLimiter.TakeToken | apps/executor/src/rate-limit.ts:121-169 | the in-place bucket update is the specified refill, charge and answer |
| RateLimit.InMemoryRateLimiter.ChargeWindow | apps/executor/src/rate-limit.ts:171-206 | the in-place window update is the specified one |
| RateLimit.TokenBucketBound | apps/executor/src/rate-limit.ts:121-169 | over any timestamps, n admissions satisfy n * (1 - epsilon) <= burst + limit / interval * D, D the advance of the highest clock seen, and the level stays between empty and full |
| BucketAdmission.FirstCheckFindsItFull | apps/executor/src/rate-limit.ts:126-161 | the first check of a key, and the first one after a change of its policy, is admitted with burst - 1 remaining, and is told when that token is back |
| BucketAdmission.BurstIsAdmitted | apps/executor/src/rate-limit.ts:126-147 | the first burst checks since then are all admitted, whatever their clocks |
| BucketAdmission.BurstAtOneClock | apps/executor/src/rate-limit.ts:126-151 | at one clock value exactly the first burst checks are admitted, and remaining counts down |
| BucketAdmission.DeniedOnlyWithoutRoom | apps/executor/src/rate-limit.ts:137-147 | a check is denied only if some stretch of checks ending with it has used up the burst plus its refill, to more than the epsilon |
| BucketAdmission.AdmittedOnlyWithRoom | apps/executor/src/rate-limit.ts:137-147 | a check is admitted only if every stretch of checks ending with it has room for it, up to the epsilon per admission |
| BucketAdmission.AdmittedIffRoom | apps/executor/src/rate-limit.ts:137-147 | for intervals below 2^52 ms and any timestamps: a check is admitted if and only if in every stretch of checks ending with it, since the bucket started, the admissions and this one are within burst + limit / interval * the advance of the clock |
| RateLimit.SplitRefill | apps/executor/src/rate-limit.ts:128-141 | refilling in two steps equals refilling once, under the cap |
| RateLimit.HonestRetryAdvice | apps/executor/src/rate-limit.ts:137-168 | after a denial at the highest clock so far, a check at or after the advised time is admitted, however many denied checks came in between and whatever their clocks |
| RateLimit.RetryLevel | apps/executor/src/rate-limit.ts:137-168 | with only denials in between, a check is admitted exactly when the denied bucket, refilled up to the clock of that check, is within the epsilon of a token |
| RateLimit.AdviceIsRightIff | apps/executor/src/rate-limit.ts:137-168 | over every run, with an interval below 2^52 ms and only denials in between, a retry at exactly the advised time is admitted if and only if no earlier check had seen a later clock than the denied one |
| RateLimit.AdviceDeficit | apps/executor/src/rate-limit.ts:137-168 | for every interval: the retry is admitted if and only if the lead of the bucket clock, in tokens, is at most the overshoot of the rounded-up advice plus the epsilon |
| RateLimit.StaleClockBreaksAdvice | apps/executor/src/rate-limit.ts:137-168 | a concrete run with a backward clock in which the advised retry is denied |
| RateLimit.SlowRefillForgives | apps/executor/src/rate-limit.ts:137-168 | a concrete run with a very long interval in which a backward clock is forgiven by the epsilon |
| RateLimit.BucketAnswerIsHonest | apps/executor/src/rate-limit.ts:149-168 | remaining counts the checks that would still pass, and resetAt is when the bucket is full |
| RateLimit.QuotaNeverReopens | apps/executor/src/rate-limit.ts:171-206 | for any timestamps the charged window never moves back, it is the window of the highest clock seen, and each aligned window admits at most limit calls |
| RateLimit.QuotaAdmitsIff | apps/executor/src/rate-limit.ts:171-206 | a check is charged to the aligned window that holds the highest clock seen, is admitted if and only if fewer than limit checks were admitted in it, and is told how many are left |
| RateLimit.WindowAnswerIsHonest | apps/executor/src/rate-limit.ts:186-206 | remaining counts the checks that would still pass in the window, and retrying as advised passes, even after a backward clock |
| Semaphore.SemaphoreSafety | apps/executor/src/rate-limit.ts:315-376 | in every run a bucket is mapped iff a permit of it is out, active is the number of permits out and at most the limit, somebody waits only at the limit, and nobody is overtaken |
| Semaphore.GrantedIffFree | apps/executor/src/rate-limit.ts:315-355 | in every run a well-formed call is granted if and only if fewer permits than the limit are out; otherwise tryAcquire gets nothing and acquire queues last; a refused call changes nothing |
| Semaphore.DoubleReleaseIsNoOp | apps/executor/src/rate-limit.ts:357-375 | releasing a permit again changes nothing |
| Semaphore.StepMovesUp | apps/executor/src/rate-limit.ts:357-375 | one call moves a waiter up by exactly one place per effective release of its bucket |
| Semaphore.WaiterIsServed | apps/executor/src/rate-limit.ts:329-375 | a waiter with k tickets ahead gets its permit with the (k + 1)-th effective release, not earlier, whatever else is called |
| Semaphore.RunKeeps | apps/executor/src/rate-limit.ts:315-376 | the semaphore invariant holds after every run |
| SemaphoreObject.InMemoryToolkitConcurrencyLimiter.State | apps/executor/src/rate-limit.ts:338-355 | the bucket object of a key, made on first use, or the error and no change |
| SemaphoreObject.InMemoryToolkitConcurrencyLimiter.TryAcquire | apps/executor/src/rate-limit.ts:320-327 | the object ends in the specified state with the specified answer, invariant kept |
| SemaphoreObject.InMemoryToolkitConcurrencyLimiter.Acquire | apps/executor/src/rate-limit.ts:329-336 | the promise is resolved at once or queued last, as specified |
| SemaphoreObject.InMemoryToolkitConcurrencyLimiter.Release | apps/executor/src/rate-limit.ts:357-375 | the permit acts on the bucket object it was issued from, which is still the mapped one, as specified |
| TaskMerge.PrefersHigherRank | apps/mcp-gateway/src/protocol.ts:611-621 | the merge takes the candidate exactly when it is strictly further along |
| TaskMerge.MergeIsFirstFurthest | apps/mcp-gateway/src/protocol.ts:611-621 | whatever the order of saves, the merged task is the first of the observations that got furthest |
| TaskMerge.SaveEffect | apps/mcp-gateway/src/protocol.ts:1585-1608 | a save touches one task of one session of its own binding, returns what is stored, and never loses the task |
| TaskMerge.NextKeeps | apps/mcp-gateway/src/protocol.ts:1034-1081 | whatever starts, polls, cancels, expiries and the execution store do, no stored or in-flight task is ahead of its execution, terminal tasks tell its outcome, and status, progress and the messages of unfinished tasks match the execution status |
| TaskMerge.RunKeeps | apps/mcp-gateway/src/protocol.ts:1378-1451 | the same over every interleaving |
| TaskMerge.StepIsMonotone | apps/mcp-gateway/src/protocol.ts:1585-1608 | in one step a stored task stays as it is, or moves strictly up with exactly one save that reports a change |
| TaskMerge.TaskIsMonotone | apps/mcp-gateway/src/protocol.ts:1585-1608 | while a task stays stored its rank never falls, a terminal task is never touched, and changes are reported at most once per rank increase |
| TaskMerge.TerminalTasksAgree | apps/mcp-gateway/src/protocol.ts:554-621 | any two terminal tasks ever stored for one execution, in any sessions, have the same status and message |
| TaskMerge.TerminalSaveWins | apps/mcp-gateway/src/protocol.ts:1325-1340 | after a save of a terminal candidate the stored task has the outcome of the execution |
| TaskMerge.TerminalSaveDecides | apps/mcp-gateway/src/protocol.ts:1585-1608 | in every interleaving, after a terminal candidate has been saved and while the task stays stored, it has the outcome that its execution then had and still has |
| TaskMerge.PollFinishesTask | apps/mcp-gateway/src/protocol.ts:1378-1420 | a poll that reads a finished execution leaves the stored task terminal with its outcome |
| TaskOutcomes.TasksAreTruthful | apps/mcp-gateway/src/protocol.ts:554-608 | in every interleaving a stored or in-flight task is completed only if its execution succeeded, failed only with the error of its failed execution, cancelled only with what the record says about dispatch, and otherwise tells a stage, queued or running, that was reached |
| TaskOutcomes.BeginObserves | apps/mcp-gateway/src/protocol.ts:1034-1081 | a started task tells the phase of its execution: status, progress 0, 1 or 2, and message |
| TaskOutcomes.RefreshObserves | apps/mcp-gateway/src/protocol.ts:1378-1451 | a poll observes exactly the phase of an execution that has moved on, and nothing of one that has not |
| TaskOutcomes.PollIsTold | apps/mcp-gateway/src/protocol.ts:1378-1451 | what a poll saw is what the stored task tells from the moment its request is saved, however late the save and whatever happens before and after |
| TaskOutcomes.CancelIsTold | apps/mcp-gateway/src/protocol.ts:1300-1342 | after tasks/cancel of an unfinished task and its save, however late, the stored task says cancelled with the truth about dispatch, unless the execution had ended otherwise, and then tells that end |
| SessionStoreObject.InMemorySessionStore.Get | apps/mcp-gateway/src/session-store.ts:64-67 | a copy of the session or nothing |
| SessionStoreObject.InMemorySessionStore.Set | apps/mcp-gateway/src/session-store.ts:69-71 | replaces one session |
| SessionStoreObject.InMemorySessionStore.Update | apps/mcp-gateway/src/session-store.ts:73-87 | the atomic read-modify-write: absent stays absent, no result deletes |
| SessionStoreObject.InMemorySessionStore.Delete | apps/mcp-gateway/src/session-store.ts:89-91 | removes one session and tells whether it was there |
| SessionStoreObject.McpTasks.SaveTask | apps/mcp-gateway/src/protocol.ts:1585-1608 | the save through the atomic update is the specified one, its changed flag included, and its second error is unreachable |
| SessionStoreObject.McpTasks.ExpireTask | apps/mcp-gateway/src/protocol.ts:1404-1409 | removes one task of one session of the same binding; every other session and task stays |
| DeepFreeze.DeepFreeze | packages/catalog/src/immutable.ts:1-11 | ends on every object graph; what is frozen afterwards is what was frozen before plus what the argument reaches through objects that were not |
| DeepFreeze.ClosedBarrierHidesNothing | packages/catalog/src/immutable.ts:1-11 | if the initially frozen objects are closed under children, that is exactly the reachable objects |
| DeepFreeze.FreezesEverythingIff | packages/catalog/src/immutable.ts:2-4 | everything reachable is frozen if and only if no frozen object hides a child that is neither frozen nor reachable some other way |
| DeepFreeze.ShallowFrozenShell | packages/catalog/src/immutable.ts:2-4 | a frozen shell around an unfrozen object, which stays unfrozen |
| DeepFreeze.FreezesCycle | packages/catalog/src/immutable.ts:6-10 | two objects that hold each other are both frozen |
| JsonBoundary.ToJsonValue | packages/bridge/src/shim.ts:194-246 | the walk with its shared path set returns the finite unfolding and restores the set, or finds a real cycle or invalid date; it ends on every finite graph |
| JsonBoundary.ToJson | packages/bridge/src/shim.ts:194-246 | success if and only if no cycle and no invalid date is reachable; the result is the only finite unfolding; a circularity error is never a false alarm |
| JsonBoundary.UnfoldingIsUnique | packages/bridge/src/shim.ts:194-246 | a value has at most one unfolding |
| JsonBoundary.UnfoldingHasNoCycle | packages/bridge/src/shim.ts:217-235 | what has a finite unfolding reaches no cycle |
| JsonBoundary.UnfoldingHasNoInvalidDate | packages/bridge/src/shim.ts:214-216 | what has an unfolding reaches no invalid date |
| JsonBoundary.NormalizePieceOutput | packages/bridge/src/shim.ts:249-265 | the same exactness for the data or body of a response with numeric status, or the value itself |
| JsonBoundary.ResponseStandsFor | packages/bridge/src/shim.ts:249-265 | a record with a numeric status stands for its data if it has one, else for its body if it has one; without a numeric status, or with neither, it stands for itself |
| SecretScan.LineNumber | scripts/secret-scan.ts:111-117 | the counting loop gives the one-based line of a position |
| SecretScan.ScanText | scripts/secret-scan.ts:136-150 | one finding per line and rule, in the order of the matches |
| SecretScan.ScanLargeText | scripts/secret-scan.ts:220-259 | the streaming loop reports the de-duplicated findings of its overlapping windows, or nothing if it reads a NUL byte |
| SecretScan.CarryOver | scripts/secret-scan.ts:249-254 | the carried tail and the line on which it starts |
| SecretScan.StretchInOneWindow | scripts/secret-scan.ts:230-255 | for any positive read sizes every stretch of at most 64 KiB lies wholly in one window |
| SecretScan.EndReached | scripts/secret-scan.ts:230-250 | every byte of the file is read, unless it grew after its size was taken |
| SecretScan.LineShift | scripts/secret-scan.ts:240-244 | the line in a window plus the line of the window start is the line in the file |
| SecretScan.ReportsAreFileLines | scripts/secret-scan.ts:236-248 | the reported findings are exactly the matches of the windows on their lines of the file, each line and rule once |
| SecretScan.ShortMatchIsReported | scripts/secret-scan.ts:220-259 | a match of at most 64 KiB that every scanned window holding it finds is reported on its line |
| SecretScan.ShortOccurrenceIsReported | scripts/secret-scan.ts:220-259 | for rules that look at one character on each side, an occurrence that fits the overlap with its context is never missed |
| SecretScan.StreamingAgreesWithWholeText | scripts/secret-scan.ts:211-259 | for such rules, streaming and whole-text scans report the same lines and rules if and only if what a window sees at its own cut edges is reported for that line anyway and lines with only longer occurrences show one to some window |
| SecretScan.ShortLinesAgreeIff | scripts/secret-scan.ts:211-259 | where every line with an occurrence has one that fits the overlap, the cut edges of the windows alone decide |
| SecretScan.OpenEndedAgreesIff | scripts/secret-scan.ts:211-259 | for rules that still match a long token cut off at an end, the cut edges alone decide, however long the tokens are |
| SecretScan.ShortRulesAgreeIff | scripts/secret-scan.ts:211-259 | for rules of short tokens the cut edges of the windows alone decide |
| SecretScan.AwsAgreesIff | scripts/secret-scan.ts:87-90 | streaming agrees with whole-text scans on access keys if and only if no window edge cuts a longer word into one |
| SecretScan.AwsReportsOccurrences | scripts/secret-scan.ts:87-90 | the access-key rule, word boundaries included, is such a rule |
| SecretScan.StreamingCanOverReport | scripts/secret-scan.ts:220-259 | a concrete file larger than the buffer, read in full buffers, for which streaming reports an access key and a whole-text scan does not |
| SecretScan.WebhookSecretIsOpenEnded | scripts/secret-scan.ts:78-81 | the webhook-secret rule still matches where a long token is cut off |
| ScopedFetch.LockIsExclusiveAndRestores | packages/bridge/src/transport.ts:80-107 | in every interleaving at most one call is inside, it sees its own routed fetch, and with nobody inside the global is the original |
| ScopedFetch.EntryInCallOrder | packages/bridge/src/transport.ts:84-95 | the k-th entry is that of the k-th call |
| ScopedFetch.OldestUnfinishedMoves | packages/bridge/src/transport.ts:84-107 | the only call that can move is the oldest unfinished one, and it always can |
| ScopedFetch.EverybodyGetsThrough | packages/bridge/src/transport.ts:84-107 | from every reachable state enters and leaves alone finish all calls and restore the original |
| ScopedFetch.GlobalFetch.WithScopedGlobalFetch | packages/bridge/src/transport.ts:84-92 | a call links itself behind the latest one |
| ScopedFetch.GlobalFetch.EnterBoundary | packages/bridge/src/transport.ts:93-97 | entering saves and replaces the global |
| ScopedFetch.GlobalFetch.LeaveBoundary | packages/bridge/src/transport.ts:98-106 | leaving restores the global and releases, whether the operation succeeded or failed |

## Left out

- Engine claims that the code does not make over a whole run are not stated: a
  reservation can be released by an aborted run before dispatch and the job run
  again later, and a record that says an interrupted execution was not dispatched
  acts on an earlier read.
- EngineTheorems.NoUsageEffectAfterFinalizedRead: speaks of reconciliations that read after usage was finalized; two that both read before it may each issue the same effect, as in the code.
- EngineTheorems.ReconciliationTakesOneSide: the webhook event ID is any value chosen when the row gets it, because its derivation by hashing is not modelled; that it is the same for all reconciliations follows from the set-once field.
- EngineEffects.RowsAreRecoverable: runs start from an empty store, so a row written by an older release without a resume context occurs in none, and the steps that reconstruct one are modelled but not taken.
- EngineEffects.FinalizedUsageWasSettled: the record that accompanies a usage report or a webhook is not part of its event.
- TaskMerge.TerminalTasksAgree: polling timers, waiters of `tasks/result` and the number of notifications are not modelled, since the code promises nothing about them across awaits.
- SecretScan.ScanLargeText: bytes and characters are one sequence, so only ASCII files are covered; a multi-byte character split by a read is not modelled.
- SecretScan.StreamingAgreesWithWholeText: the condition is for finders whose reported lines are those of occurrences that depend on the token and one character on each side; the regular-expression engine itself, entropy and fixture filters are not modelled, except for the access-key rule.
- JsonBoundary.ToJsonValue: getters, proxies, sparse array holes and a property named `__proto__` are not modelled; the final fallback to `String(value)` is unreachable and has no counterpart.
- RateLimit.TokenBucketBound: arithmetic is over exact reals instead of floating point; the epsilon is kept.
- ScopedFetch.LockIsExclusiveAndRestores: code outside the boundary that overwrites the global meanwhile is not modelled.
- SemaphoreObject.InMemoryToolkitConcurrencyLimiter.Release: permits and promises are named by number, and the few statements that both paths of `acquire` and `release` share are methods of their own.
- The concurrency permit, rate-limit check, schema validation and credential checks of a run are arbitrary successes or failures of its steps; hand-over between runs is the semaphore's own model.
- Stored rows and sessions are immutable values that are replaced whole where the source assigns to one of their fields.
- Timestamps are integers; unparsable dates do not occur.
- Hashes, digests and grants are uninterpreted values; cursors are pairs of a tag and an ID instead of base64 text.
- Per-project maps are flattened to pair keys with one insertion order; the empty project map that a rejected first call leaves behind is not kept.
- Detail reads, `get`, required scopes and trace parents carry no further state.
- The Postgres stores, the HTTP and SSE routes, staged files, sweeps, search scoring, telemetry and the generated catalog are not part of this model.
