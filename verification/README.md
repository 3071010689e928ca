# A model of the code-execution backend

This project models the parts of the backend on which its answers depend, and proves what they keep.

- **The leased job protocol.** Run jobs are rows of one table, changed only by guarded updates, and announced
  by messages on a Redis stream. `JobRows` holds one row and its updates, each split into its WHERE clause
  and its SET clause; `JobStore` is the table as a class whose methods are those statements. `Protocol` is
  the whole system as a state machine: workers step by step through `processRun`, lease renewals, the
  expiry sweep, the dispatcher, the clock, crashes, and statements that commit although their caller sees an
  error. In it the queue is an adversary that may hand any job to any worker at any time, so the safety results
  cover duplicated, trimmed, reordered and lost messages. `ProtocolSafety` and `LifecycleTight` hold the
  results about runs; `WorkerPool` is `processRun` as a program that calls the `JobStore` methods, proved to
  take only actions of that machine, interleaved with any actions of the others. `SharedNames` is the machine with two processes under one name.
- **Messages.** `RedisQueue` is the stream with its consumer group (XADD with MAXLEN, XREADGROUP, XACK) and the
  queue on top of it; `PendingSweep` and `PendingRecovery` are XAUTOCLAIM and the sweep over stale pending
  messages, `SweepTrimming` says what MAXLEN does to a sweep and which messages it conserves, and `SweepReach` how
  far it gets; `RecoveryService` has the bulk expiry and the dispatcher, `JobService` the creation of jobs.
  `Liveness` shows that no job is ever stuck.
- **Output comparison.** `Comparator` and `FloatComparator`.
- **Bounded execution and verdicts.** `BoundedOutput`, `Process`, `Classifier`, `Sandbox`, `ExecutionService`
  and `Judge`.

## Reading notes

- Time is an integer number of microseconds, the resolution of the database's timestamps. Each statement reads
  the clock once. `attempt_count` is unbounded here; it never passes `max(1, max_attempts)`, so its 32 bits suffice.
- Histories that the program does not store (who claimed which attempt, when each worker wrote a lease, every
  finished execution, when a job was last dispatched) are ordinary fields of `Protocol.State`. No action reads them.
- Worker names are taken to be unique. The name contains `INSTANCE_ID`, by default a random UUID
  (backend/internal/config/config.go:180-183). `SharedNameBreaksFencing` is a run that shows
  that uniqueness is needed.
- There is one dispatcher, as in a deployment with one API process. Its marks are required to succeed only where a
  lemma says so (`MarksSucceed`).

## Where the code and its documentation or tests part ways

- `CreateExecution` leaves `max_attempts` at 0 and `Create` writes it, so the column default of 5 never applies and
  such a job gets one attempt (`DefaultJobGetsOneAttempt`). The test at
  backend/internal/integration/recovery_test.go:53-62 expects a second one; `AttemptIsReachedIff`
  says when there is one.
- Stream trimming: any MAXLEN that the configuration accepts leaves every job a schedule that serves it
  (`NoJobIsStuck`), but with a small one the query's choice matters. The messages of one dispatch call all survive
  that call if and only if MAXLEN is off or at least their number (`CallSurvivesIff`), and for every choice of rows
  all eligible jobs get served if and only if MAXLEN is off or at least the size of the first batch, that is
  min(100, eligible jobs) (`AllAreServedIff`, `EveryScheduleServesIff`). The default is 10000.
- `normalize` is not idempotent (`NormalizeIsNotIdempotent`); `NormalizeIdempotentIff` says exactly when it is.
- A sweep can end before the idle messages it is meant for. It visits a message that is idle and on the stream if
  and only if the message lies within `Reach` of the pending list as it was at the start (`IdleMessageIsVisitedIff`).
  What can stop it before is ten times the batch size of neighbouring entries with no such message among them
  (`IdleMessageCanBeMissed`), or as few as the batch size of pending entries whose messages were trimmed away
  (`TrimmedEntriesStopSweep`); twice ten times the batch size, less one, always do (`IdleMessageIsVisited`), and two
  less than twice can be passed (`LongerStretchCanBePassed`).
- A sweep can lose a message that it decided to keep: with a full stream, each message that it adds pushes the oldest
  one out, which may be pending (`PendingMessageCanBeTrimmed`). `SweepConserves` counts such losses exactly,
  `TrimmedIff` says which messages are pushed out, and `RoomyStreamsLoseNothing` when none of them is pending.
- The sweep looks every message up in the executions table and acknowledges what it does not find there; for a
  submission, whose id is never there, `SweepConservation` says that each visited message is lost.
- A run that the parent's cancellation killed can be classified as SUCCESS (`CancelledRunCanSucceed`); `SuccessIff`
  has the exact condition with such cancellations included. Shutting the pool down is such a cancellation, so
  `processRun` can store a part of the output as a COMPLETED job (`ShutdownCanTruncateOutput`).
- `Judge` asks of a compilation only that there is no error and the exit code is 0. That holds if it succeeded, but
  also if its timer stopped it, and if its output was cut off and no error of its own won the select; such a
  compilation goes on to the tests (`NoErrorIff`, `CompilationErrorIff`, `CutOffCompilationsAreJudged`).
- `Judge` adds to `PassedTestCases` without resetting it, so a second judgement of one submission counts on.

## Model

| member | source | states |
|---|---|---|
| Protocol.RunInv | backend/internal/jobs/postgres_store.go:116-256 | every state of every run satisfies the joint invariant: rows, one claimant per attempt, owner = claimant of the current attempt with lease = its last write + 30s, executions and results of one attempt, distinct undispatched batch |
| ProtocolSafety.RowsAreConsistent | backend/internal/jobs/postgres_store.go:116-236 | in every reachable state CLAIMED/RUNNING iff worker_id iff lease_expires_at is set, COMPLETED iff completed_at and results are, DEAD_LETTERED iff dead_lettered_at is and then attempts >= max; a queued job that was tried has attempts left; leases lie at most 30s and retries at most 2s ahead |
| ProtocolSafety.Fencing | backend/internal/worker/pool.go:97-241 | a Complete or FailJob that takes effect is by the last claimant of the row's current attempt, and a worker past its claim settles exactly the attempt it claimed |
| ProtocolSafety.SettlesIffAttemptIsCurrent | backend/internal/jobs/postgres_store.go:161-236 | for a worker in processRun, the guard by worker name admits a completion, a failure or a recorded panic iff a guard by attempt number would |
| ProtocolSafety.LostAttemptNeverSettles | backend/internal/jobs/postgres_store.go:161-236 | once an attempt was taken from a worker, no later Complete or FailJob of that processRun takes effect, in any interleaving |
| SharedNames.SharedNameBreaksFencing | backend/internal/worker/pool.go:68-72 | for two processes under one worker name there is a run in which the first, still holding its expired first attempt, completes the second attempt, under which nothing was executed |
| ProtocolSafety.LifecycleBound | backend/internal/jobs/postgres_store.go:116-236 | over every run attempt_count <= max(1, max_attempts) and a job changes status at most three times that often |
| LifecycleTight.LifecycleBoundIsReached | backend/internal/jobs/postgres_store.go:116-236 | for every max_attempts some run of the protocol makes exactly that many status changes |
| ProtocolSafety.DefaultJobGetsOneAttempt | backend/internal/jobs/service.go:46-58 | a job with max_attempts at most 1, such as the 0 that CreateExecution stores, is claimed at most once and is never queued again after it |
| LifecycleTight.AttemptIsReachedIff | backend/internal/jobs/postgres_store.go:116-236 | some run brings a job to its n-th attempt iff n <= max(1, max_attempts); ReleaseRequeuesIffAttemptsRemain is the same for one release |
| ProtocolSafety.TerminalRowsAreFrozen | backend/internal/jobs/postgres_store.go:116-256 | a COMPLETED or DEAD_LETTERED row never changes again in any run, except for last_dispatched_at |
| ProtocolSafety.AtMostOneCompletion | backend/internal/jobs/postgres_store.go:161-191 | under arbitrary duplicate delivery at most one Complete of a job takes effect in a run |
| ProtocolSafety.CompletedJobIsOneAttempt | backend/internal/worker/pool.go:193-226 | a completed job stores one result per input, each the outcome of that input in the single attempt by the one worker that claimed it, and no execution of that attempt says otherwise |
| ProtocolSafety.RetryDelayIsHonoured | backend/internal/jobs/postgres_store.go:193-213 | after FailJob at time t with backoff b requeues a job, no worker's claim succeeds before t + b in any run |
| ProtocolSafety.PunctualWorkerKeepsJob | backend/internal/worker/pool.go:175-191 | a worker that writes its lease at least every 30s while it works on a job stays the row's owner under its own attempt, whatever the others do |
| ProtocolSafety.PunctualJobIsUntouched | backend/internal/jobs/postgres_store.go:238-256 | then no other worker's statement and no sweep hits that row |
| ProtocolSafety.PunctualWorkerExcludesOthers | backend/internal/worker/pool.go:133-191 | beside a worker that renews in time, another one is past its claim of the job only under an earlier attempt that it has lost, having been late itself |
| ProtocolSafety.MutualExclusion | backend/internal/worker/pool.go:133-191 | so if the workers on a job renew in time, no two of them are ever past their claim of it at once |
| ProtocolSafety.SweepTakesExactlyLateJobs | backend/internal/recovery/service.go:50-71 | the sweep takes a held job iff its owner's last lease write is more than 30s old |
| ProtocolSafety.DispatchesAreFarApart | backend/internal/recovery/service.go:90-133 | with marks that succeed, two dispatches of one job are more than 5s apart, although query, send and mark are separate steps |
| ProtocolSafety.DispatchRate | backend/internal/recovery/service.go:90-133 | a window of T seconds holds at most floor(T/5) + 1 dispatches of one job |
| WorkerPool.System.ProcessRun | backend/internal/worker/pool.go:133-241 | processRun, its statements run by the store, failing before or after they commit, with any interference between them, only takes protocol actions, ends idle, and acknowledges a message only if its job is settled for good |
| JobStore.PostgresJobStore.Claim | backend/internal/jobs/postgres_store.go:116-141 | exactly the queued row whose retry time has come is claimed, everything else is left and reported as an invalid state |
| JobStore.PostgresJobStore.MarkRunning | backend/internal/jobs/postgres_store.go:143-159 | the CLAIMED row of this worker becomes RUNNING, or nothing changes |
| JobStore.PostgresJobStore.Complete | backend/internal/jobs/postgres_store.go:161-191 | the RUNNING row of this worker is completed with its results, or nothing changes |
| JobStore.PostgresJobStore.FailJob | backend/internal/jobs/postgres_store.go:193-236 | the held row of this worker is requeued with its backoff or dead-lettered, or nothing changes |
| JobStore.PostgresJobStore.RenewLease | backend/internal/jobs/postgres_store.go:238-256 | the lease of this worker's held row is extended, or nothing changes |
| JobStore.PostgresJobStore.Create | backend/internal/jobs/postgres_store.go:29-58 | a fresh QUEUED row is inserted; a wrong status or a taken id changes nothing |
| JobStore.ExpireAllInAnyOrder | backend/internal/recovery/service.go:52-71 | the multi-row expiry equals expiring the rows one at a time in any order, even with repetitions |
| RecoveryService.Service.RecoverAbandonedJobs | backend/internal/recovery/service.go:50-88 | visiting the rows in any order releases exactly those that are held with an expired lease |
| RecoveryService.Service.SelectDispatchable | backend/internal/recovery/service.go:93-117 | the query returns distinct eligible ids, min(100, number of eligible) of them |
| RecoveryService.Service.DispatchDelayedJobs | backend/internal/recovery/service.go:90-133 | one message per selected job is added in order and exactly those rows are marked whose marker can be written (all of them by AllMarkersWritten, if none fails); a closed queue leaves both as they are |
| JobService.Service.CreateExecution | backend/internal/jobs/service.go:29-66 | an accepted request has a stored job and an undelivered message; if the message is refused the stored job is due for dispatch at once |
| Liveness.Coverage | backend/internal/recovery/service.go:90-133 | successive calls at one clock reading pick disjoint jobs, and n calls cover exactly min(100 n, N) of N eligible ones, whichever rows LIMIT picks |
| Liveness.CallSurvivesIff | backend/internal/queue/redis_queue.go:42-60 | every message of a dispatch call is still on the stream after it iff MAXLEN is off or at least their number |
| Liveness.AllAreServedIff | backend/internal/recovery/service.go:90-133 | for every table, stream and choice of rows, one call per hundred eligible jobs serves all of them iff MAXLEN is off or at least min(100, eligible jobs) |
| Liveness.AllAreServedAtOnceIff | backend/internal/recovery/service.go:90-133 | after those calls all of them are served at the same time iff MAXLEN is off or at least the number of eligible jobs |
| Liveness.EveryScheduleServesIff | backend/internal/recovery/service.go:50-133 | from every reachable state, after one lease duration, the sweep and those calls, every unsettled job was dead-lettered or served (queued, with an undelivered message and a Claim that would succeed), whichever rows the query picks, iff MAXLEN is off or at least the first batch |
| Liveness.LegalPicksExist | backend/internal/recovery/service.go:93-117 | such sequences of query results exist for every table and every number of calls |
| Liveness.NoJobIsStuck | backend/internal/recovery/service.go:50-133 | every run, with any stream and any MAXLEN, can be continued by the clock, the sweep and the dispatcher alone to a state in which a given unsettled job is dead-lettered or served by the stream that these steps produce |
| Liveness.ScheduleIsARun | backend/internal/recovery/service.go:50-133 | waiting, sweeping and any legal dispatch calls continue a given run step by step, with the rows and the stream that the calls should leave |
| RedisQueue.Queue.Enqueue | backend/internal/queue/redis_queue.go:42-60 | an open queue appends the message and trims to MAXLEN, a closed one changes nothing |
| RedisQueue.Queue.Consume | backend/internal/queue/redis_queue.go:62-108 | the first new message with a job id is returned; exactly it and the malformed ones before it become pending; none is delivered twice or skipped |
| PendingRecovery.Recovery.RunRecovery | backend/internal/jobs/pending_recovery.go:66-137 | the nested loops terminate and compute Sweep |
| PendingRecovery.SweepVisitsOnce | backend/internal/jobs/pending_recovery.go:73-136 | messages are visited in strictly increasing id order, so at most once, and each was pending and idle when the sweep began |
| SweepTrimming.TrimmingComesLast | backend/internal/jobs/pending_recovery.go:66-137 | a sweep with MAXLEN visits and acknowledges exactly what it would without, and leaves that stream trimmed once |
| SweepTrimming.QueueKeepsStreamFitting | backend/internal/queue/redis_queue.go:42-60 | whatever was on the stream, it is within MAXLEN once a message is added, and nothing pending lies beyond |
| SweepTrimming.SweepConserves | backend/internal/jobs/pending_recovery.go:91-130 | whatever each read of a job finds, also if it fails or the rows change meanwhile, and on full streams too, the outstanding messages of a job drop by exactly its visited ones that are acknowledged and not replaced and its pending ones that are trimmed away |
| SweepTrimming.TrimmedIff | backend/internal/queue/redis_queue.go:42-60 | a sweep trims the message at position k away iff it adds one at all and k is below the length plus the added ones minus MAXLEN |
| SweepTrimming.RoomyStreamsLoseNothing | backend/internal/queue/redis_queue.go:42-60 | no pending message is trimmed away if the entries beyond MAXLEN minus the number of pending ones are not pending |
| SweepTrimming.PendingMessageCanBeTrimmed | backend/internal/jobs/pending_recovery.go:123-130 | on a full stream the message of a CLAIMED job is lost when that of a QUEUED job is replaced |
| SweepTrimming.SweepConservation | backend/internal/jobs/pending_recovery.go:91-130 | apart from those trimmed away they are unchanged for a job that stays QUEUED, CLAIMED or DEAD_LETTERED and drop by exactly the visited number for COMPLETED, RUNNING and unknown ones |
| SweepReach.NothingIsVisitedIff | backend/internal/jobs/pending_recovery.go:76-135 | the sweep visits nothing iff every idle message has ten times the batch size of entries before it or the batch size of trimmed ones |
| SweepReach.SweepVisitsReach | backend/internal/jobs/pending_recovery.go:73-136 | the sweep over the changing pending list visits exactly the idle messages that one pass over the initial list reaches, entries without a message and full streams included |
| SweepReach.IdleMessageIsVisitedIff | backend/internal/jobs/pending_recovery.go:73-136 | a message that is idle and on the stream is visited iff its position is within that reach |
| SweepReach.IdleMessageIsVisited | backend/internal/jobs/pending_recovery.go:132-135 | it is visited if before it no ten times count neighbouring entries, and no neighbouring entries with count trimmed ones, are without such a message, and missed if twice ten times count less one are (for count 1: ten) |
| SweepReach.IdleMessageCanBeMissed | backend/internal/jobs/pending_recovery.go:132-135 | for every count, one idle message behind ten times count others is missed, and nothing is visited |
| SweepReach.TrimmedEntriesStopSweep | backend/internal/jobs/pending_recovery.go:132-135 | so is one behind count entries whose messages were trimmed away |
| SweepReach.LoweredMaxLenStopsSweep | backend/internal/jobs/pending_recovery.go:76-135 | with MAXLEN lowered below the length of the stream, a sweep can push out and then drop an idle message within its reach |
| SweepReach.LongerStretchCanBePassed | backend/internal/jobs/pending_recovery.go:132-135 | for every count above 1, an idle message behind twice ten times count less two others can be visited |
| SweepReach.SmallBacklogIsSwept | backend/internal/jobs/pending_recovery.go:132-135 | with nothing trimmed away and fewer than ten times count messages that are not idle, every idle message is visited |
| Comparator.WhitespaceCompareIff | backend/internal/judge/comparator.go:47-72 | outputs compare equal iff at every line index the lines without line ending and trailing blanks agree, lines past the end being empty |
| Comparator.SplitAfterReplace | backend/internal/judge/comparator.go:58-59 | replacing CRLF before splitting strips one CR from every line but the last |
| Comparator.SplitJoin | backend/internal/judge/comparator.go:59-71 | splitting undoes joining on newline-free lines |
| Comparator.JoinInjective | backend/internal/judge/comparator.go:66-71 | joining loses nothing about lists of lines without trailing empty ones |
| Comparator.NormalizeShortens | backend/internal/judge/comparator.go:57-72 | normalize never lengthens its input |
| Comparator.NormalizeAgain | backend/internal/judge/comparator.go:57-72 | a normalized text is a fixed point iff it contains no CRLF |
| Comparator.NormalizeIdempotentIff | backend/internal/judge/comparator.go:57-72 | normalizing s twice equals normalizing it once iff no line of s that keeps a CR at its end has a non-empty line after it |
| Comparator.NormalizeIdempotentOnCleanText | backend/internal/judge/comparator.go:57-72 | it does whenever every CR of s is followed directly by LF |
| Comparator.NormalizeIsNotIdempotent | backend/internal/judge/comparator.go:57-72 | it does not for CR CR LF x |
| Comparator.WhitespaceComparator.NormalizeOutput | backend/internal/judge/comparator.go:57-72 | the loops compute Normalize |
| Comparator.WhitespaceComparator.Compare | backend/internal/judge/comparator.go:51-55 | true iff the outputs agree line by line as above |
| FloatComparator.FloatComparator.Compare | backend/internal/judge/comparator.go:79-105 | true iff there are equally many tokens and each pair are numbers within epsilon or the same text |
| FloatComparator.AgreeReflexiveIff | backend/internal/judge/comparator.go:79-105 | every output agrees with itself iff epsilon is not negative |
| FloatComparator.AgreeComposes | backend/internal/judge/comparator.go:79-105 | the elementary laws of the tolerance, with AgreeSymmetric and AgreeMonotone: epsilons add up over two comparisons, also with mixed tokens, the order does not matter, and a larger epsilon accepts more |
| BoundedOutput.ChunkingIsInvisible | backend/internal/platform/process/bounded_writer.go:25-57 | after any writes the buffer is the first maxSize bytes of their concatenation, exceeded iff there were more, and cancel was called once iff exceeded |
| BoundedOutput.BoundedWriter.Write | backend/internal/platform/process/bounded_writer.go:25-57 | every write reports all of its bytes as taken and changes the state as Append does |
| Process.RunProcess | backend/internal/platform/process/process.go:33-117 | under every schedule of writes, exit, timer and cancellation the result is that of the state machine |
| Process.CauseImpliesExceeded | backend/internal/platform/process/process.go:93-98 | a cancellation for the output limit implies that a writer exceeded it |
| Process.SuccessIff | backend/internal/sandbox/classifier/result.go:13-87 | SUCCESS iff no limit was exceeded and the exit with 0 won the select, or the parent's cancellation did |
| Process.SuccessMeansCompleteOutput | backend/internal/platform/process/process.go:76-116 | without a parent cancellation, SUCCESS iff the process exited 0 before the timer won and wrote no more than the limits, and then the result is everything it wrote |
| Process.StatusTable | backend/internal/sandbox/classifier/result.go:13-87 | the status of every way a started command can end: time limit iff the timer won, output limit iff a writer exceeded and neither timer nor platform error came first, internal error iff waiting failed otherwise, runtime or memory error iff a bad exit within the limits |
| Process.JudgeLimitsAgree | backend/internal/judge/engine.go:194-202 | Judge and classifier agree on timeouts, and on the output limit except where the classifier reports a platform error instead |
| Process.NoErrorIff | backend/internal/platform/process/process.go:76-116 | a result has no error and exit code 0 iff it is classified as SUCCESS, or is a timeout, or passed the output limit without an error |
| Process.NoErrorByBranch | backend/internal/platform/process/process.go:76-109 | in terms of the select: no error and exit code 0 iff the timer, the cancellation or an exit with 0 won it |
| Process.CancelledRunCanSucceed | backend/internal/platform/process/process.go:84-91 | a killed run with part of its output that is classified as SUCCESS |
| Process.JudgeAgreesWithClassifier | backend/internal/judge/engine.go:194-207 | on every result RunProcess can return, Judge's clean-run test agrees with the classifier's SUCCESS |
| Judge.Judge | backend/internal/judge/engine.go:59-235 | every fetched submission ends COMPLETED with a verdict, ACCEPTED iff every test runs cleanly and compares equal, passed tests grow by the index of the first failure, all containers started are destroyed, at most two live at once, at most k + 1 starts for k tests entered |
| Judge.RunTests | backend/internal/judge/engine.go:166-220 | the loop stops at the first failure with its verdict, one container at a time |
| Judge.CompilationErrorIff | backend/internal/judge/engine.go:136-151 | a compilation that ran is answered with COMPILATION_ERROR iff it did not succeed and was neither stopped by its timer nor cut off at its output limit without an error; otherwise the tests decide |
| Judge.CutOffCompilationsAreJudged | backend/internal/judge/engine.go:142-151 | RunProcess can return both kinds of cut-off result, and the verdict is then the one given when there is nothing to compile |
| ExecutionService.Execute | backend/internal/execution/service.go:29-87 | SUCCESS, COMPILATION_ERROR and COMPILATION_TIMEOUT are returned in exactly the stated cases, platform failures are errors, and the container is destroyed on every path |
| ExecutionService.SuccessIsCompleteOutput | backend/internal/execution/service.go:77-87 | if the run is not cancelled from outside, the answer is SUCCESS iff the run was reached and exited with 0 in time and within its limits, and then it carries everything the program wrote |
| ExecutionService.ShutdownCanTruncateOutput | backend/internal/execution/service.go:77-87 | a cancelled run can be answered with SUCCESS and a part of the output |

## Left out

- HTTP and WebSocket handlers, configuration, migrations, the AI analyzer, logging and the frontend: no part of job safety or verdicts.
- Docker commands, seccomp, signals and the language executors: foreign calls; their outcomes are arbitrary.
- JSON encoding, pub/sub updates and the worker heartbeat table: they play no part in job safety.
- MemoryJobStore: unused, has no CLAIMED state and does not implement the store interface.
- FindQueued and the two obsolete recovery methods of the store: nothing calls them.
- Panics: a panic in processRun is an action of the protocol; Judge and Execute are modelled without panics.
- PendingRecovery.Recovery.RunRecovery: has the stream to itself while it runs; workers that read or acknowledge and calls that add messages between its rounds are not modelled. Its Redis calls succeed, unless the queue is closed for the whole sweep.
- SweepTrimming.SweepConserves: needs StreamFits, that nothing pending lies beyond the newest MAXLEN entries. A queue keeps its stream within MAXLEN (QueueKeepsStreamFitting), so this can fail only after MAXLEN was lowered and before the next message is added; LoweredMaxLenStopsSweep is such a sweep.
- SweepReach.SweepVisitsReach: needs StreamFits likewise.
- RedisQueue.Queue.Consume: returns None where the original blocks for further messages, and leaves out errors from Redis.
- RecoveryService.Service.DispatchDelayedJobs: one clock reading for the call, and Enqueue fails only on a closed queue; Protocol has each step at its own time and with failures of each.
- ProtocolSafety.DispatchRate: is about one recovery service, because two can both select a job before either marks it.
- FloatComparator.FloatComparator.Compare: numbers are reals and the parser is any function; NaN, infinities and rounding are not modelled.
- BoundedOutput.BoundedWriter.Write: sizes are unbounded integers; the 64-bit sums of the original do not overflow for buffers that fit in memory. The mutex is not modelled, a write is one step.
- Process.RunProcess: cmd.Wait may return any error with any exit code other than 0, more than the operating system would produce.
- Removing the workspace directory: file-system effects are not modelled.
- Registering comparators: the program registers the exact and the whitespace comparator, and Judge itself picks the float one; the model has these three and treats every other mode as exact, as the registry does.
