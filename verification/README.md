# Background jobs, AI calls and uploads, verified

The service runs its AI work inside the API process: a `JobRunner` admits, delays, times out and
drains jobs; each job owns a database row whose status the client polls; inside a job, Gemini calls
are retried against the job's deadline. Around that sit the upload path (body cap, spooling, a
concurrent batch store), a repair of trailing commas in model output, and some exact arithmetic.
This project models those parts in Dafny and proves what their code and documentation promise of
them, over every run, interleaving, oracle or input. Where a promise fails in general, the project
names the input and proves the exact condition under which it holds.

How the files build on each other:

- `Wrappers`, `Messages`: shared datatypes.
- `Scheduler` is the job runner as a timed step relation: one step is the code between two awaits,
  including CPython 3.12's FIFO semaphore, the ready list, and `close()`. `SchedulerInvariant`,
  `SchedulerSteps`, `SchedulerMoves` and `SchedulerFates` prove what each step keeps and may change;
  `SchedulerRuns`, `SchedulerEvents` and `SchedulerProgress` state the claims over all runs, and
  `SchedulerWitnesses` gives the run that ends without an event.
  `JobRunner` is the same runner as an object with the class's fields; each of its methods is proved
  equal to a step of `Scheduler`.
- `Rows` and `Repositories` are the review and training-plan rows: the writes, the services'
  enqueue, retry and staleness checks, the sweep, and the task functions, as an object over both
  tables (the two tables follow the same protocol). `Requests` adds the handlers that write a row and
  submit its job, and `Replays` proves that handlers and tasks are runs of `Product`.
- `Product` joins runner, requests, task functions, shielded writes, checks, orderly exits and crashes
  into one step relation. `ProductInvariant`, `ProductSteps`, `ProductClocks` and `ProductMessages` prove
  its invariants. The claims are in `ProductRuns` and `ProductClaims` (who holds a row), in
  `ProductCauses` (why a row failed with the message it has), in `ProductDetached` and `ProductExit` (writes that outlive their job, and what an exit cuts off), in
  `ProductTimes`, `ProductProgress` and `ProductChecks` (time and staleness), and in `ProductCompletion`.
  `ProductWitnesses` and `ProductRedeploy` give the runs that show where they end.
- `RetryLoop` and `RetryClaims` are the retry loop and its claims; `Settings` the startup validators;
  `Budget` what validated settings buy a job; `ReviewPasses` the two Gemini passes of a review.
- `TrailingCommas` and `JsonText` are the comma repair, on arbitrary text and on printed JSON.
- `UploadCounts`, `BatchUpload`, `BodyLimit`, `Spooling`, `StorageKeys`, `FrameSampling` and `Scores`
  are the upload path and the arithmetic.

What is assumed, everywhere:

- The event loop is ideal: ready callbacks run before the clock moves, the clock never passes an
  armed timer, and code between two awaits is atomic. `asyncio.Semaphore`, `asyncio.timeout`,
  `asyncio.wait` and `shield` behave as CPython 3.12 documents and implements them.
- A handler's check-then-write is one step, row writes succeed and take at most `cleanup`, a request
  submits at most `gap` after writing its row, building a task's service does not raise, and rows are
  not deleted under a live job. A cancellation may land anywhere else, also inside the unshielded
  failure write of a task and after the completing write has committed.
- Times, delays and scores are exact reals, or exact tenths.
- A process ends by a hard kill at any moment, or by an exit once `close()` has returned, which cuts off
  whatever request or write is still under way; the next one starts on the rows that are left.
- The claims over joint runs of rows and jobs take a stuck threshold that covers `gap`, the job timeout
  and `cleanup`; `ThresholdIsTight` proves that this is exactly what they need.

Where the code and its own words differ, the code was followed:

- `_log_finished` says "exactly one event per submitted job" (app/core/jobs.py:257). A submit refused
  because the runner is closed logs none, and neither does a job that `close()` cancels inside its
  never-started write. `AJobCanLogNothing` is a run that ends so, `OneOwnerPerOutcome` says which final
  states have an empty log, and `LogsNothingIff` which jobs will: exactly those the cancel pass finds in
  that write.
- `STUCK_JOB_THRESHOLD_SEC` "must exceed JOB_TIMEOUT_SEC" (app/core/config.py:199-206). No validator
  checks it, and it is not enough: `ThresholdMustCoverTheJob` gives the exact bound.
- A row "must never be left processing with no job behind it" (app/api/reviews.py:60-61). The handlers
  keep that, and until the cancel pass of a shutdown there is always an unfinished job
  (`HeldByAnUnfinishedJob`). Apart from a hard kill it fails in two ways, and in no other
  (`StrandedOnlyBy`). A cancellation can land inside a task's unshielded failure write
  (app/jobs.py:133, app/jobs.py:154), which always strands the row: `FailureWriteCanBeLost`,
  `LostWriteStrands`. And `close()` waits for tasks, not for the shielded writes they started
  (app/core/jobs.py:293-308): the pass cuts a job off its never-started write, a second cancellation
  cuts a task off its own (`DetachedIff` says that nothing else does), and a process that exits while
  such a write is in flight (app/main.py:61-62) leaves the row to the next startup sweep, against
  app/core/jobs.py:235-237 and 281-283. `OrderlyExitCanStrand` is such a run; `ExitStrands` and
  `QuickWritesAreDetached` say exactly which rows an exit strands.
- `_strip_trailing_commas` drops commas that directly precede a closer; a comma that precedes a
  dropped one stays, so repairing twice can differ from repairing once (`RepairedTwice`).

## Model

| member | source | states |
|---|---|---|
| `SchedulerSteps.StepKeeps` | app/core/jobs.py:111-308 | every step of the runner, from any state that satisfies the invariant, leads to one that does: queue, counters, slots, tasks, histories, timers and shutdown stay consistent |
| `SchedulerMoves.StepEvolves` | app/core/jobs.py:150-308 | no step takes back a job's history, revives a finished job, reopens a closed runner, or lets a job enter `fn` once the cancel pass is done |
| `SchedulerMoves.StepLeaves` | app/core/jobs.py:162-196 | only the job whose coroutine a step resumes can enter `fn` or give up its place in line |
| `SchedulerRuns.SlotsConserved` | app/core/jobs.py:86-96 | in every reachable state free slots plus slots held or handed over are `max_concurrent`, `_waiting` counts exactly the jobs in phase 1, `_running_tasks` exactly those in phase 2, both within their limits, and busy is answered only when `_waiting` equals `max_queued` |
| `SchedulerRuns.AllHandedBack` | app/core/jobs.py:162-230 | once no job is live, whichever exit each took, both counts are zero, every slot is free and nobody is queued |
| `SchedulerRuns.WorkConserving` | app/core/jobs.py:164-167 | the clock never moves with a slot free and a job waiting for one |
| `SchedulerRuns.NoOvertaking` | app/core/jobs.py:164-167 | over any step a waiter that stays in line keeps everyone behind it behind it, except one whose own wait times out |
| `SchedulerRuns.FirstComeFirstServed` | app/core/jobs.py:164-167 | along any run in which a job waits, whoever was behind it is given no slot and does not enter `fn` |
| `SchedulerRuns.ClockNeverStuck` | app/core/jobs.py:150-308 | in every reachable state the loop has a step to take or time can pass, so the assumptions on the clock never freeze a run |
| `SchedulerProgress.TimeAlwaysPasses` | app/core/jobs.py:150-308 | every reachable state can be continued to any later time by nothing but the clock and the steps it waits for: no return of `fn`, no end of a write and no submission is needed |
| `SchedulerRuns.OneOwnerPerOutcome` | app/core/jobs.py:162-276 | a job enters `fn` or has `on_failure` called, never both, exactly one of them once done; it logs at most one event, and none exactly when `close()` cancelled it inside the never-started write; the logged outcome matches the message recorded |
| `SchedulerRuns.EverybodyLogsBeforePass` | app/core/jobs.py:250-268 | up to the cancel pass every finished job has logged exactly one event |
| `SchedulerRuns.LogsNothingIff` | app/core/jobs.py:180-189 | however the run goes on after the cancel pass, a job ends without an event if and only if the pass found it awaiting its never-started write |
| `SchedulerEvents.EventTellsHowFnEnded` | app/core/jobs.py:202-230 | over every run, however the `fn` of a job ends, the job is then done with one event that tells how it ended, and every job that entered and is done got there by an end of its `fn` |
| `SchedulerEvents.TasksAreTheUndiscarded` | app/core/jobs.py:147-148 | in every run `_tasks` is exactly the accepted jobs whose done callback has not run |
| `SchedulerWitnesses.AJobCanLogNothing` | app/core/jobs.py:257 | under any settings that let a job wait, some run ends with a job that was told it was busy and logged nothing |
| `SchedulerRuns.EntersWithinCap` | app/core/jobs.py:160-203 | a job that enters does so within `max_wait_sec` of submit, keeps at least the rest of `timeout_sec`, and is timed out once its deadline has passed |
| `SchedulerRuns.NobodyWaitsPastCap` | app/core/jobs.py:162-168 | in no state is a job in line later than `max_wait_sec` after its submit |
| `SchedulerRuns.NothingStartsAfterPass` | app/core/jobs.py:285-298 | after `close()`'s cancel pass no submit is accepted and no job enters `fn`, however the run goes on |
| `SchedulerRuns.PassReachesEveryJob` | app/core/jobs.py:288-304 | the pass misses nobody: a job not in `fn` is finished or its cancellation lands inside `_run`, jobs in `fn` are waited for, and after the grace period every live job has been cancelled |
| `SchedulerRuns.CloseReturnsInTime` | app/core/jobs.py:278-308 | `close()` is back within the grace period plus `CANCEL_DRAIN_SEC` in every run |
| `SchedulerProgress.CloseReturns` | app/core/jobs.py:278-308 | and it does come back: the clock and the steps it waits for are all that takes, whatever the jobs and their writes do |
| `JobRunners.JobRunner.constructor` | app/core/jobs.py:78-96 | a new runner satisfies the invariant with all slots free |
| `JobRunners.JobRunner.Submit` | app/core/jobs.py:111-148 | closed, busy or accepted, with the exact condition of each and the whole new state |
| `JobRunners.JobRunner.Start` | app/core/jobs.py:150-167 | the first step of `_run`: a slot and entry at once, or a place at the end of the line |
| `JobRunners.JobRunner.ResumeGranted` | app/core/jobs.py:164-203 | a waiter that was granted a slot enters `fn`, after waking further waiters while slots are free |
| `JobRunners.JobRunner.WaitTimeoutFires` | app/core/jobs.py:166-168 | the wait timeout takes the job out of the queue, remembering a slot already on its way |
| `JobRunners.JobRunner.ResumeUnwinding` | app/core/jobs.py:168-177 | a cancelled waiter gives its slot back, leaves the count and has its failure recorded: interrupted exactly when `close()` cancelled it, busy otherwise |
| `JobRunners.JobRunner.NeverStartedMarked` | app/core/jobs.py:173-189 | the never-started job ends and logs its one event, or none if its write was cut short |
| `JobRunners.JobRunner.RunTimeoutFires` | app/core/jobs.py:202-208 | the run deadline sends a cancellation into `fn` |
| `JobRunners.JobRunner.CancellationReachesFn` | app/core/jobs.py:202-208 | the cancellation is delivered once |
| `JobRunners.JobRunner.Finish` | app/core/jobs.py:202-230 | `fn` is over: the slot goes to the oldest waiter, and the one event says succeeded or failed as `fn` returned True or False, failed when it raised, timed out for a TimeoutError or the deadline's own cancellation, and cancelled for one by `close()` |
| `JobRunners.JobRunner.DiscardTask` | app/core/jobs.py:147-148 | the done callback drops the task |
| `JobRunners.JobRunner.BeginClose` | app/core/jobs.py:285-291 | `close()` refuses work from here on, and returns at once when there is none |
| `JobRunners.JobRunner.CancelUnstarted` | app/core/jobs.py:293-296 | the loop of the pass cancels every task not in `fn`, and only those, and empties the wait queue |
| `JobRunners.JobRunner.RunCancelPass` | app/core/jobs.py:293-308 | the whole pass: cancel, then wait for the running jobs, for the unfinished ones, or return |
| `JobRunners.JobRunner.EndGrace` | app/core/jobs.py:299-308 | after the grace period every job still in `fn` is cancelled |
| `JobRunners.JobRunner.EndDrain` | app/core/jobs.py:305-308 | `close()` returns within its bound |
| `Repositories.Repository.CreatePending` | app/repositories/ai.py:53-63 | a fresh processing row without a message, started and created now, or the unique violation and no change when the parent has one |
| `Repositories.Repository.MarkCompleted` | app/repositories/ai.py:65-96 | the row is completed without a message, all else as it was, or the assertion fails and nothing changes |
| `Repositories.Repository.MarkFailed` | app/repositories/ai.py:98-105 | the row is failed with the message, all else as it was, or the assertion fails and nothing changes |
| `Repositories.Repository.ResetForRetry` | app/repositories/ai.py:107-115 | the row is processing again, without its error, from now |
| `Repositories.Repository.Enqueue` | app/services/ai.py:709-732 | refused exactly to strangers, over a completed or processing row and for a session without media, with the error that comes first; otherwise one fresh pending row replaces the failed one, and each parent still has one row |
| `Repositories.Repository.Retry` | app/services/ai.py:861-870 | only the owner of a failed row can retry it; otherwise the error that comes first, and nothing changes |
| `Repositories.Repository.FailIfStale` | app/services/ai.py:872-882 | a read fails a stale row before showing it and touches no other |
| `Repositories.Repository.SweepTable` | app/jobs.py:171-183 | exactly the matching rows of the table are failed, and counted |
| `Repositories.Repository.SweepStuckJobs` | app/jobs.py:160-186 | both tables are swept in one pass |
| `Rows.StaleIff` | app/services/ai.py:667-684 | a read finds a row stale exactly when it is processing and its start, or its creation where it has no start, is more than the threshold ago; the age is the time since then |
| `Rows.ChecksAgree` | app/jobs.py:171-180 | the sweep fails exactly the rows with a start time that a read would fail, in the same way; the others only a read fails |
| `Repositories.Repository.ProcessTask` | app/jobs.py:114-157 | with no cancellation inside its own writes, the task settles its row once: completed without a message, failed with the text of an error it knows, as interrupted for any other error or a shutdown, or as timed out; and tells the runner which |
| `Requests.SubmitJob` | app/api/reviews.py:57-74 | after submission the row is processing, as it was, exactly when the runner was open and its line not full, and then it holds a live job for it; otherwise it is failed, as not enqueued when the runner was closed and as busy when it was full |
| `Requests.Create` | app/api/reviews.py:82-91 | insert then submit: one row for the parent, pending exactly when its job was accepted and otherwise failed with the reason; a refusal changes neither rows nor runner |
| `Requests.RetryRow` | app/api/reviews.py:101-110 | reset then submit, with the same guarantee |
| `Replays.CreateReplayed` | app/api/reviews.py:82-91 | a creation is a run of the joint step relation: the same rows and the same runner at the end |
| `Replays.RetryReplayed` | app/api/reviews.py:101-110 | so is a retry |
| `Replays.TaskReplayed` | app/jobs.py:114-157 | and so is each of a task's three ends: the same row, and the same answer to the runner |
| `ProductRuns.ActionKeeps` | app/jobs.py:94-186 | every action of requests, runner, tasks, shielded writes, checks and crashes keeps rows, jobs, clocks and messages consistent |
| `ProductRuns.RowHeldByOne` | app/api/reviews.py:57-74 | in every reachable state a row is processing exactly when it was stranded or has one holder: a request, an unfinished job, or the detached failure write of a job that is done; a failed row is held by nobody; a completed one at most by its own job |
| `ProductDetached.HeldByAnUnfinishedJob` | app/core/jobs.py:235-237 | a processing row that nothing stranded has a request or one job, and up to the cancel pass of a shutdown that job is unfinished; after it, it may be done with its failure write still in flight, and then the shutdown cancelled it |
| `ProductDetached.DetachedIff` | app/core/jobs.py:232-246 | over any run of a process a write in flight is detached from its job if and only if the cancel pass found the job in its never-started write, or a second cancellation reached the handler of the first |
| `ProductRuns.NoNewWriters` | app/core/jobs.py:111-148 | only a submission gives a row someone who can write it |
| `ProductRuns.CompletedStays` | app/repositories/ai.py:65-96 | a completed row nobody may write is never changed again, not even by a crash |
| `ProductClaims.StrandedOnlyBy` | app/jobs.py:130-134 | only a hard kill, a cancellation inside the unshielded failure write before it commits, or an exit with a request or a failure write under way strands a row |
| `ProductClaims.KillStrands` | app/services/ai.py:672-677 | a hard kill can come at any time; it changes no row and leaves exactly the processing ones with nobody behind them |
| `ProductClaims.LostWriteStrands` | app/jobs.py:130-134 | and such a cancellation always does: the row is processing with nobody behind it |
| `ProductClaims.NeverLeftBehind` | app/api/reviews.py:57-74 | on a run with none of these every processing row has exactly one request or job behind it, the job being unfinished or its failure write on its way |
| `ProductClaims.NothingLeftProcessing` | app/jobs.py:114-157 | once all requests, jobs and writes are over no row is processing |
| `ProductExit.ExitStrands` | app/main.py:58-62 | an exit after `close()` leaves processing, with nobody behind them, exactly the rows that were so, those a request holds, and those whose failure write is in flight |
| `ProductExit.QuickWritesAreDetached` | app/core/jobs.py:304-308 | when a failure write takes less than `CANCEL_DRAIN_SEC`, those are the detached writes alone, of jobs that are done and that the shutdown cancelled |
| `ProductRedeploy.OrderlyExitCanStrand` | app/core/jobs.py:281-308 | under any settings that admit a job, a run ends with `close()` back, every task done and nothing stranded, and the exit then strands a row |
| `ProductTimes.SettledInTime` | app/core/jobs.py:71-75 | a row that no kill or lost write stranded is settled by its own path within gap, job timeout and one failure write |
| `ProductTimes.NothingHeldUp` | app/api/reviews.py:57-74 | in every reachable state each write, refusal, submission and cancellation that is under way can take its next step |
| `ProductTimes.TimeNeverStuck` | app/core/jobs.py:150-308 | no joint run is locked in time: something due can be done, or the clock can move |
| `ProductProgress.JointTimePasses` | app/core/jobs.py:150-308 | every reachable state of rows and jobs can be continued to any later time by nothing but the clock and what it waits for |
| `ProductProgress.EveryRowSettles` | app/core/jobs.py:71-75 | some such run settles any given processing row that nothing stranded |
| `ProductClaims.CompletedChangesIff` | app/jobs.py:123-129 | a completed row is changed by exactly one thing, the failure write of a cancellation that landed after the completing write |
| `ProductCompletion.CompletedSurvivesIff` | app/jobs.py:119-129 | over a run that sees its job's writes to their end, a completed row is the same in every state if and only if no cancellation reaches the job between the completing write and the task's return |
| `ProductClaims.ChecksFailExactlyTheStranded` | app/jobs.py:160-186 | neither check ever matches a row with somebody behind it, and the first check past the threshold fails a stranded one |
| `ProductChecks.RetriedRowIsSpared` | app/repositories/ai.py:107-115 | a retried row is safe from both checks for a whole threshold, however old it was and whatever happens next |
| `ProductChecks.ReadsAddNothing` | app/services/ai.py:667-684 | one check is enough: any number of reads before a sweep leaves the rows the sweep alone would, and after it changes no row with a start time |
| `ProductClaims.MessagesAreTruthful` | app/jobs.py:64-66 | "busy" is told only to jobs that never entered `fn`, "took too long" only to jobs in `fn` whose deadline fired before `close()` began, and an unstarted job what `on_failure` recorded |
| `ProductClaims.ToldOnce` | app/jobs.py:123-134 | no job is told a second message |
| `ProductClaims.FailedRowsAreTold` | app/jobs.py:123-134 | whatever action fails a row, the row gets the message its own job was told, or the reason its own request was refused with, or, only when it was stranded, the message of the sweep |
| `ProductCauses.ToldExactlyWithReason` | app/jobs.py:59-66 | in every state of every run a job has been told a message exactly when the run gave the reason for it: the text of an error the task knows for that error, "interrupted" for any other error and for a shutdown, "took too long" for the deadline, "busy" for the wait cap |
| `ProductCauses.FailureHasItsCause` | app/jobs.py:114-157 | whatever action fails a row in whatever run, its message says why: its own job had that reason, or its request was refused, as busy or because `close()` had begun, or a check found it stranded |
| `ProductCauses.KnownErrorsReachTheRow` | app/jobs.py:131-134 | when a task has caught an error it knows, the failure write that follows puts exactly that error's text on its row |
| `ProductCauses.MessageOnlyWhileFailed` | app/repositories/ai.py:65-115 | in every reachable state a row shows an error message exactly while it is failed |
| `ProductWitnesses.FailureWriteCanBeLost` | app/jobs.py:130-134 | under any settings that admit a job, a run ends with its row processing, nobody behind it, and a timeout in the log |
| `ProductWitnesses.CompletedCanBeOverwritten` | app/jobs.py:119-129 | under the same settings, a run fails a row that had been completed, as timed out |
| `ProductWitnesses.ThresholdIsTight` | app/jobs.py:168-180 | sweep and read path spare every live row in every run if and only if the threshold covers gap, job timeout and one failure write |
| `RetryLoop.RetryableIffTransientLink` | app/services/ai.py:257-273 | an exception is retryable exactly when some link of its chain is transient; a cause hides the context, and a cause that is the exception itself ends the search |
| `RetryLoop.CauseHidesContext` | app/services/ai.py:270-273 | a cause that is set decides alone where the search goes on; without one the context does, and the exception itself as its cause ends it |
| `RetryLoop.TransientByStatus` | app/services/ai.py:265-267 | 429, 500, 502, 503 and 504 are transient, as the code, or as the status code where the code is missing, zero or false; no other status is, and a code that is not a number hides the status code |
| `RetryLoop.TransientByName` | app/services/ai.py:239-253 | transient by name are failed and timed out connects, reads and writes, and five more |
| `RetryLoop.GenerateContentWithRetry` | app/services/ai.py:318-362 | the loop, from attempt to attempt, computes the run its recursive specification describes |
| `RetryClaims.RetryTrace` | app/services/ai.py:318-362 | at most max(1, max_attempts) calls, all but the last failing retryably; the result is the last call's, the generic error means no call, the loop never falls off its end, and it gives up early only for want of time |
| `RetryClaims.AttemptsFitTheDeadline` | app/services/ai.py:320-334 | each attempt gets the longest timeout that fits: request_timeout, or exactly what is left to the deadline less margin when that is shorter, and at least min_attempt |
| `RetryClaims.NoDeadlineNoCut` | app/services/ai.py:318-362 | without a deadline every attempt gets request_timeout, and a retryable error is raised only after exactly max(1, max_attempts) calls |
| `RetryClaims.RunFollowsTheOracle` | app/services/ai.py:318-362 | the n-th call is the oracle's n-th try, the n-th sleep base·2^(n-1) plus its jitter exactly; an attempt is made only with min_attempt left before the margin, and a retryable error is raised early only when the sleep or the next attempt did not fit |
| `RetryClaims.SleepsFitTheDeadline` | app/services/ai.py:346-354 | each backoff sleep ends before deadline less min_attempt |
| `RetryClaims.ExitsByTheDeadline` | app/services/ai.py:318-362 | if attempts keep to their timeouts the call is over by deadline less the smaller of margin and min_attempt, or at once without a call when entered too late, and makes a call otherwise |
| `RetryClaims.BackoffSum` | app/services/ai.py:346-362 | m sleeps, fewer than the attempts, total between base·(2^m − 1) and a quarter more |
| `RetryClaims.NegativeSleepIff` | app/core/config.py:66-68 | the unvalidated base delay makes a run end in the ValueError of a negative sleep if and only if it is negative and there is more than one attempt |
| `Budget.BudgetIsExact` | app/core/config.py:239-260 | settings that pass the other checks are accepted if and only if the wait is below the timeout and every job entered within the wait cap can make an attempt on entry |
| `Budget.EnteredJobsCanAttempt` | app/core/jobs.py:160-203 | in every run with accepted settings, a Gemini call on entry makes an attempt of at least min_attempt that ends before the job does |
| `Budget.ReviewsEndWithTheJob` | app/services/ai.py:806-824 | both passes of a review are over by submit time plus job timeout |
| `Budget.ThresholdMustCoverTheJob` | app/core/config.py:199-206 | with accepted settings both checks spare live rows in every run if and only if the stuck threshold covers gap, timeout and one write |
| `Budget.DefaultsAreAccepted` | app/core/config.py:169-206 | the defaults leave a minute for gap and write, and a threshold equal to the timeout is accepted though too small |
| `Settings.RefusedByField` | app/core/config.py:84-198 | a setting is refused for its own value exactly when a count or a time that must be positive is not, or the margin or the grace is negative |
| `Settings.RefusedByRelation` | app/core/config.py:225-260 | each of the four relations between settings has its own refusal, the first that fails decides, and accepted settings are unchanged |
| `ReviewPasses.FitTips` | app/services/ai.py:826-839 | three tips: the first three given, padded with the filler |
| `ReviewPasses.ReviewMedia` | app/services/ai.py:790-839 | the review fails exactly when the scoring pass does, and the second pass can change its text only |
| `ReviewPasses.ReviewFailsWith` | app/services/ai.py:790-839 | no answer is AIGenerationFailed, an answer that does not parse is AIParseFailed, and nothing else fails a review |
| `ReviewPasses.ReviewIsMadeOf` | app/services/ai.py:806-839 | the scores are always the first pass's; the text is the second pass's exactly when that pass was wanted, the session is described and its answer parses; three tips are its first ones, padded; a second pass starts where the first ended and costs its time whatever comes of it |
| `ReviewPasses.BothPassesEndInTime` | app/services/ai.py:806-824 | both passes share the deadline and end by it |
| `TrailingCommas.Repair` | app/services/ai.py:192-221 | the loop computes its recursive specification |
| `TrailingCommas.KeptIsExact` | app/services/ai.py:211-220 | the kept positions are all positions but the commas outside strings whose next character that is not blank closes a container, in order |
| `TrailingCommas.BlankIsPythonSpace` | app/services/ai.py:212-215 | what is skipped before a closer is the whitespace `lstrip` strips |
| `TrailingCommas.OutputDropsExactlyThose` | app/services/ai.py:199-221 | the output is the input at exactly the kept positions |
| `TrailingCommas.StringsSurvive` | app/services/ai.py:199-210 | the lexer ends in the same state on output and input, and every string literal is as it was |
| `TrailingCommas.RepairedTwice` | app/services/ai.py:192-221 | repairing is idempotent on a text if and only if no comma outside strings is followed, blanks aside, by a dropped one |
| `TrailingCommas.TwoCommasTakeTwoRepairs` | app/services/ai.py:192-221 | `[1,,]` is the counterexample |
| `JsonText.RepairUndoesTrailingCommas` | app/services/ai.py:192-221 | for every JSON value in any layout, with trailing commas in any of its arrays and objects, the repair is the text printed without them, and the identity on a text that has none |
| `JsonText.ContainersAreEnclosed` | app/services/ai.py:192-198 | the texts it speaks of read as JSON: arrays stand in brackets and objects in braces |
| `JsonText.TwoNumbersPrinted` | app/services/ai.py:192-198 | and an array of two numbers with a comma too many is printed with exactly that |
| `JsonText.ParseRescues` | app/services/ai.py:449-460 | a response with trailing commas parses to what the response without them does, and a response without them is never judged differently |
| `UploadCounts.PhotoBoundsAreExact` | app/core/config.py:225-237 | startup refuses the photo bounds if and only if no upload with a photo could ever be accepted |
| `UploadCounts.CountsAreJudged` | app/services/media.py:103-152 | photos alone within their bounds or videos alone within theirs are accepted, and each refusal names the bound that is broken |
| `UploadCounts.OnlyTheFileCountBoundsTheRest` | app/services/media.py:103-111 | parts of unrecognised types are bounded by the file count alone |
| `BatchUpload.NothingLost` | app/services/media.py:209-218 | without an unexpected error every file is a success or a failure, and no success means every store failed |
| `BatchUpload.RowsAreTheStoredFiles` | app/services/media.py:209-218 | the rows are those of the stored files, no more and no fewer |
| `BatchUpload.RowsKeepOrder` | app/services/media.py:209-218 | the rows are those of the stored files, one each, in upload order |
| `BatchUpload.FailuresKeepOrder` | app/services/media.py:209-218 | the failures name the files that failed to store, one each, in upload order |
| `BatchUpload.EverySchedule` | app/services/media.py:198-206 | under every interleaving at most the configured number of stores is in flight, each result is its own file's, and the batch always completes, in two moves per file |
| `BatchUpload.ZeroNeverBegins` | app/services/media.py:200-206 | with a concurrency of 0 no store can ever begin |
| `BatchUpload.BatchSucceedsIff` | app/services/media.py:208-227 | exactly when a batch succeeds, and exactly when stored files are left without a row |
| `BatchUpload.RefusedBeforeTheStores` | app/services/media.py:188-196 | an unknown session, then a stranger, then the first file that is refused, with its reason |
| `BatchUpload.RefusedByTheStores` | app/services/media.py:198-227 | past that, each error has its exact condition on concurrency, results and insert |
| `BatchUpload.MediaService.StoreAll` | app/services/media.py:198-206 | whichever coroutine moves at each turn, the results are the outcomes in order and the bucket gains what they left |
| `BatchUpload.MediaService.Partition` | app/services/media.py:208-218 | in-order partition up to the first unexpected error; the objects that go are exactly those of failed stores before it whose delete works |
| `BatchUpload.MediaService.UploadBatch` | app/services/media.py:169-227 | the result depends on the lookups and per-file outcomes alone, whatever the schedule; the first error in phase order is the one raised and adds no row; rows and failures are in upload order, every new row points at an object that is there, and the bucket changes exactly by what the stores leave and the deletes take |
| `BatchUpload.MediaService.Upload` | app/services/media.py:154-167 | the batch of one always has the row it indexes when it succeeds |
| `BodyLimit.AppSeesABoundedPrefix` | app/core/middleware.py:48-59 | over all interleavings each message that arrives is passed on as it is, but a piece of the body that takes it past the limit becomes a disconnect; so the application reads a prefix of the body of at most the limit, and all of it within the limit |
| `BodyLimit.ClientSeesOneAnswer` | app/core/middleware.py:61-74 | the client sees the 413 alone exactly when the body passed the limit before the application had sent anything, and otherwise the application's messages, all and in order |
| `BodyLimit.RaisingAddsNothing` | app/core/middleware.py:71-74 | an application that raises is never answered with a 413: the client sees its messages, or nothing exactly where the 413 would have been |
| `BodyLimit.BodyRequestsAreBounded` | app/core/middleware.py:32-74 | the same however the length was declared; a declared length over the limit is refused unread, and a body within the limit passes untouched |
| `BodyLimit.WhoIsLimited` | app/core/middleware.py:32-47 | POST, PUT and PATCH over HTTP are limited and nothing else is; refused at once exactly with a declared length over the limit |
| `BodyLimit.LimitedExchange.LimitedReceive` | app/core/middleware.py:48-59 | one receive against the state, passing on the message or a disconnect |
| `BodyLimit.LimitedExchange.LimitedSend` | app/core/middleware.py:61-69 | one send, forwarded or dropped |
| `BodyLimit.LimitedExchange.Finish` | app/core/middleware.py:71-74 | the 413 exactly when the limit was passed and nothing was forwarded |
| `Spooling.Disk.SpoolUpload` | app/core/upload.py:62-85 | an accepted part is on disk in full and within the cap, under its own name or "upload"; a refused or broken one leaves no file and was read for at most the cap and one chunk; which of the three happens depends exactly on the size and the read that raises |
| `Spooling.UploadMedia` | app/api/media.py:101-138 | whichever way the route ends no spool is left, an error adds no row, and a success accounts for every part; it succeeds exactly when counts, spools and batch do, and otherwise with the first error in that order; it never ends, with its spools on disk, exactly when a valid upload meets a concurrency of 0 |
| `Spooling.WithinTheCapsNeverTrips` | app/core/config.py:272-281 | a batch within the file count and per-file cap, with framing within the slack, never trips the body cap |
| `Spooling.TripsIff` | app/core/config.py:272-281 | the body cap trips exactly on bodies larger than all files at their cap and one mebibyte of framing |
| `StorageKeys.KeyRoundTrip` | app/services/media.py:364-370 | a minted key behind any base URL is extracted exactly, query or not, if and only if the base neither contains the session's marker nor ends in the user id with both ids equal |
| `StorageKeys.BucketRoundTrip` | app/api/media.py:78-85 | the route's extraction is exact if and only if the bucket marker first occurs as the bucket segment |
| `StorageKeys.BothWaysAgree` | app/services/ai.py:903-909 | where both conditions hold the two extractions agree |
| `FrameSampling.ExtractPath` | app/core/frame_extractor.py:48-79 | the frames are the decodable ones of the sampled indices, in order, or the error that applies |
| `FrameSampling.DecodedAreTheReadable` | app/core/frame_extractor.py:60-72 | at most one frame per sample: every sample that can be read, in order, and nothing else |
| `FrameSampling.GapsDifferByAtMostOne` | app/core/frame_extractor.py:60-61 | neighbouring indices are total/count apart, or one more |
| `FrameSampling.SamplesSpanTheVideo` | app/core/frame_extractor.py:60-61 | the indices start at 0, stay below the total and reach to within one gap of it |
| `FrameSampling.DistinctIff` | app/core/frame_extractor.py:60-61 | no frame is sampled twice if and only if there are enough frames or one sample |
| `Scores.ScoresLandInRange` | app/services/ai.py:644-655 | a score is absent exactly when it was; below 0 it becomes 0, above 10 it becomes 10, and in between it moves by at most half a tenth |
| `Scores.OverallIsTheirMean` | app/services/ai.py:656-658 | the overall score is absent exactly when all are; otherwise it is a tenth nearest to the sum of the present ones over their number, and between any bounds on them |
| `Scores.MeanIsAverage` | app/services/ai.py:656-658 | the mean of one score is that score, and means weighted by their counts add up |
| `Scores.PresentKeepsEach` | app/services/ai.py:656 | every present score counts, as often as it is there |
| `Scores.NearestTenthExists` | app/services/ai.py:638-641 | there is a rounding to a nearest tenth, so the claims about all of them are not empty |
| `Scores.NormalisedStays` | app/services/ai.py:644-659 | normalising what was normalised changes nothing |

## Left out

- Repositories.Repository.MarkCompleted: does not model the narrative, tips, scores and model version it stores, because no claim depends on them.
- Repositories.Repository.ProcessTask: does not model a cancellation that lands inside the task's own writes; the joint step relation in `Product` does.
- Repositories.Repository.Enqueue: does not model another request between its delete and its insert, which are two commits in the service.
- A second `close()`, a request handler that is itself cancelled, and coroutines that never yield: one `close()` per runner, handlers run to their end.
- `on_failure` raising, row writes that fail, and rows deleted under a live job: see the assumptions above.
- The contents of completed rows (narrative, tips, scores, workouts) and of `updated_at`: the protocol concerns status, message and start time only.
- Ownership checks of plain reads, profile lookups, schemas, prompts, moderation, rate limits, logging, Sentry, JWT and media tokens: simple branching or library behaviour.
- Gemini, Supabase Storage, OpenCV, libmagic and Postgres: oracles that return a result or an error; what a PUT or an attempt comes to does not depend on the schedule.
- Markdown fences around a response (`_strip_json_fences`) and JSON decoding itself: the parser is an oracle.
- Binary floating point: exact reals and tenths; the HTTP timeout in whole milliseconds is the exact one.
- Cyclic exception chains other than a link to itself, and clock time outside attempts and sleeps, in the retry loop.
- The text of the Content-Length header: it is absent, not a number, or a number.
- `os.remove` failing while a spool is removed, and parts read in smaller pieces than a chunk.
- A second model of the training-plan side: it follows the review protocol on its own table, and its workout count check only adds one of the errors a task can end with.
