# Verification of the execution engine

A Dafny 4.11 model of the asynchronous execution engine, with proofs of what its queue protocol, its
retry life cycle, its rate limiter and its worker pool guarantee, and of two smaller cores it imports:
the flattening behind the response diff and the OpenAPI endpoint discovery. `dafny verify
dfyconfig.toml` checks everything.

## How it is built

**The engine as a step system.** `Engine` has one state, `World`: the Redis keys of the queue, the task
and scan rows, the clock, the loop of every worker and the stage of every payload run. A step is the
code between two awaits that reach Redis or the database: one Redis command or pipeline, or one database
session. Any step of any worker can happen next. Time is a clock that never steps back, the
random draw of a poll, the outcome of a request (a response, a 429 or an exception) and the answer of
the rate limiter are inputs of the steps. `IsRun` describes all runs from an empty system; the read and
the move of due payloads are two steps, of any interleaving. Two conditions on runs mark what the code
does not give by itself: `NeverCrowded`, no read meets more than fifty due payloads, and `MovesIntact`,
in addition every move finds all that its worker has read still due. A run with the second is called
intact below.

| modules | runs | what they prove |
|---|---|---|
| `DeadLetterReasons`, `Backoff` | all | that dead letters give their true reason, and that no retry is early |
| `Semaphore`, `Provenance`, `Tariffs`, `RetryBudget`, `RetryBounds` | all | permits, attempt numbers, and the retry bounds by workers and by copies |
| `ReachedBounds`, `RetryLimits` | all | that the bounds by workers are the least ones, and when the limit on retries is kept |
| `LateVerdict`, `VerdictRuns`, `VerdictFinality` | all | which steps leave a scan with a wrong verdict, and the verdict without them |
| `NoLoss` | `NeverCrowded` | nothing is lost |
| `Places`, `Conservation`, `IntactMoves`, `Accounting`, `Retries`, `ScanVerdict` | intact, exactly those that conserve tasks | one place for each task, and what follows: exact retry numbers, delays and verdicts |
| `PoolSizes` | by the number of workers | one worker at a time makes every run intact, two do not |
| `Reachability`, `EarlyVerdict`, `DuplicateRuns`, `CrowdedRuns` | single runs | that what these conditions exclude does happen |

**The queue.** `Payloads` routes payloads to levels, `TaskQueue` says what every command does to the
keys, `QueueRuns` follows the lists over runs of any length. `RedisQueue` and `WorkerEngine` are the
publisher, the consumer and the worker as objects whose methods are proved to perform these steps.

**The rate limiter.** `TokenBucket` holds the Lua script and the in-process bucket on values,
`RateBound` the bound over every window, `BucketRefinement` the likeness of the two buckets and
`ReportedBuckets` what 429 reports do to it, `TtlAdequacy` what a key loses by expiring, `SharedBuckets` a
bucket of either backend, `Admission` many callers that charge several shared buckets one after the other,
`RateLimiter` the objects with the polling loop, `Calls` that a whole call is a run of `Admission`. `ExactBucket` says
exactly when a bucket grants, `KeyExpiry` exactly when a key is gone.

**The pool.** `PoolPolicy` gives every list a pass of the autoscaler goes through, `WorkerPool` the
manager as an object that keeps this history.

**Diff and discovery.** `DiffEngine`, `FlatEntries` and `LatestLeaf` compare the flat entries of a JSON
body with its leaves; `CanonicalPaths` and `OpenApi` do the same for API paths, their segments and the list of
endpoints.

## Where the code does less than it seems to

- The pipeline that promotes due tasks is atomic, but it removes every due payload while only fifty were
  read. `Conservation.PromotionConservesIffFewDue`: with more than fifty due, tasks disappear from the
  queue; with at most fifty, none does. `CrowdedRuns.CrowdedPromotionLoses` are runs in which they do.
- The read and the move are two commands. `NoLoss.NoTaskDisappears`: no interleaving loses a task, but
  `DuplicateRuns.TwoWorkersDuplicate`: two workers can duplicate one; `IntactMoves.MoveConservesIff` and
  `IntactMoves.ConservedIffIntact` say exactly when, and `PoolSizes.PoolConservesIff` for which pools.
- A duplicated task can be executed more than `max_retries + 1` times. `RetryLimits.RetryLimitIff`: a pool
  keeps the limit if and only if it has at most one worker at a time or the task has no retries.
  `RetryBounds.CostsPerWorker` bounds the executions by the number of workers at a time, and
  `RetryLimits.LeastBounds` says that no smaller bound holds. `RetryLimits.RetryNumberIff` says when retries
  carry their own numbers.
- A failed save evaluates the scan before the retry is decided. `EarlyVerdict.FailedBeforeRetry` is a run
  in which the scan is FAILED too early; `VerdictFinality.VerdictIsFinalIff` says exactly when a verdict is
  early.
- Giving a task up writes FAILED without evaluating the scan again. With a duplicated task this can come
  after the verdict: in `DuplicateRuns.CompletedWithFailedTask` the scan stays COMPLETED with its only task
  FAILED. `VerdictRuns.UnsettledIffLateFailure`: with at most fifty due at each read, no other step leaves a
  wrong verdict; `LateVerdict.StepUnsettlesIff` is the exact condition for all runs.
- A 429 on an unused key empties the in-process bucket but leaves the one in Redis full
  (`BucketRefinement.UnusedKeyAfter429`). On a live key both slow down alike until the key expires
  (`ReportedBuckets.AlikeUntilExpiryIff`); the expiry drops the multiplier, which the in-process bucket keeps,
  so that a single 429 ends the likeness for good (`ReportedBuckets.AlikeForeverIff`,
  `ReportedBuckets.ExpiryForgetsTheReport`).
- The factor two in the time to live keeps the level: with at most one 429 after a grant the live key would be
  full at expiry (`TtlAdequacy.LevelIsFullIff`), with two it need not be (`TtlAdequacy.TwoReportsAreTooMany`).
  It does not keep the multiplier: the expiry shows in later answers as soon as the key was slowed down
  before the grant or after it (`TtlAdequacy.ExpiryIsInvisibleIff`).
- With a floor above five engines a deeper queue can ask for fewer (`PoolPolicy.DemandGrowsIffFloorIsLow`).
- An engine whose shutdown raises is stopped but stays in the list (`WorkerPool.WorkerPoolManager.StopIdle`).
- Flat keys are ambiguous for keys that are empty or hold dots or written indices
  (`FlatEntries.FlatteningIsExactIff`); a falsy scalar body takes no part in the diff
  (`FlatEntries.AllLeavesShowIff`); a truth value equals the number it converts to.

## Model

| member | source | states |
|---|---|---|
| Payloads.QueueOfIsTheMap | executor/task_queue/publisher.py:18-25 | P1 to P4, in letters of either case, are the levels critical, high, medium and low, and every other text is medium |
| Letters.UpperIsTheForm | executor/task_queue/publisher.py:18-25 | the upper case of a text is the one text that differs from it in case only and has no lower-case letter |
| Payloads.GroupingIsStable | executor/task_queue/publisher.py:48-51 | the group of a level reads exactly the positions of the batch that hold that level, in increasing order |
| Payloads.GroupsPartition | executor/task_queue/publisher.py:48-56 | the four groups of a batch together are the batch as a multiset |
| Payloads.GroupsKeepOccurrences | executor/task_queue/publisher.py:48-56 | the four groups together hold every task as often as the batch does |
| TaskQueue.PublishedBatch | executor/task_queue/publisher.py:45-59 | publishing a batch appends to each list exactly the members of its level, in order, and touches nothing else |
| QueueRuns.RunsKeepRouted | executor/task_queue/consumer.py:62-95 | through every run of publishes, retries, promotions and polls a payload only sits in the list of its own level |
| QueueRuns.ListsAreFifo | executor/task_queue/consumer.py:51-56 | over every run, what was taken from a list followed by what is left equals what was there followed by what was pushed |
| QueueRuns.FirstPollsTake | executor/task_queue/consumer.py:23-56 | as long as a list has not been emptied, every poll that puts it first takes one payload from it |
| QueueRuns.BoundedWaiting | executor/task_queue/consumer.py:23-56 | the payload at index i of a list is the (i+1)-st taken from it, no later than the (i+1)-st poll that puts the list first, whatever is pushed, promoted or polled meanwhile |
| TaskQueue.PollOrderIsFair | executor/task_queue/consumer.py:23-56 | every random draw offers all four lists once; a poll is empty only when all are; the list put first is served first |
| TaskQueue.FirstReadyExact | executor/task_queue/consumer.py:51-57 | the list served is the first one of the order that is not empty: all before it are empty, and there is no other such list |
| TaskQueue.OrderIsByPriority | executor/task_queue/consumer.py:23-41 | the order of a draw r is critical first for r below 0.60, high from there below 0.85, medium below 0.95 and low beyond, then the others by priority |
| TaskQueue.PollServes | executor/task_queue/consumer.py:23-57 | so a poll takes the head of the list its draw has chosen, or of the highest-priority list when that one is empty, and is empty only when all are |
| TaskQueue.PollTakesOneHead | executor/task_queue/consumer.py:51-57 | a poll changes nothing or takes the head of exactly one list |
| TaskQueue.DueReadIsComplete | executor/task_queue/consumer.py:76-80 | the read of due payloads sees all of them exactly when at most fifty are due |
| TaskQueue.PromotionExact | executor/task_queue/consumer.py:71-98 | of d due payloads a promotion appends min(d, 50), each to its own list in read order, and removes all d; the others keep their scores; the waiting multiset is kept if and only if d is at most 50 |
| Conservation.PromotionConservesIffFewDue | executor/task_queue/consumer.py:71-98 | in the whole system: a promotion keeps every task in its one place if and only if at most fifty are due |
| Conservation.UnreadIsLost | executor/task_queue/consumer.py:78-97 | a task that was due but not among the fifty read is in no place afterwards, although its row exists |
| CrowdedRuns.CrowdedPromotionLoses | executor/task_queue/consumer.py:71-98 | and it happens: for every n above fifty a run with n delayed tasks, all due, after which all but fifty of them are in no place |
| RedisQueue.Redis.BLPop | executor/task_queue/consumer.py:51-57 | takes the head of list i of the given order, where that list is not empty and all before it are, and changes nothing else; answers nothing when all are empty |
| RedisQueue.Redis.DueMembers | executor/task_queue/consumer.py:78-80 | answers the due members of least score in score order, at most fifty |
| RedisQueue.Group | executor/task_queue/publisher.py:48-51 | the grouping loop gives every level its stable sub-sequence of the batch |
| RedisQueue.PushGroups | executor/task_queue/publisher.py:53-56 | the pipeline appends every group to its own list and changes nothing else |
| RedisQueue.QueuePublisher.PublishBatch | executor/task_queue/publisher.py:41-62 | performs the batch step and answers how many payloads were published, zero for an empty batch |
| RedisQueue.QueueConsumer.MoveDue | executor/task_queue/consumer.py:82-98 | the push-and-remove half of a promotion, with what an earlier read answered; nothing is sent for an empty read |
| RedisQueue.QueueConsumer.ProcessDelayedTasks | executor/task_queue/consumer.py:71-100 | one undisturbed promotion at one instant |
| RedisQueue.QueueConsumer.Consume | executor/task_queue/consumer.py:43-60 | a promotion followed by one poll; for each range of the draw, the head comes from the chosen list or else from the first non-empty one by priority |
| RedisQueue.QueuePublisher.ScheduleDelayed | executor/task_queue/publisher.py:64-81 | the payload gets the score now plus delay, and nothing else changes |
| RedisQueue.QueueConsumer.SendToDlq | executor/task_queue/consumer.py:104-114 | the dead letters grow by exactly one at the end, that payload with that reason |
| Conservation.StepConserves | executor/workers/engine.py:103-173 | every step other than a separate move, a promotion in one step included, keeps each submitted task in exactly one place if it reads at most fifty due |
| Conservation.SubmissionIs | executor/api/routes.py:37-91 | a submission gives every payload a queued row without attempts and a place at the end of its list in order, starts a scan that is pending or paused, and touches nothing else |
| NoLoss.TwoMoversDuplicate | executor/task_queue/consumer.py:76-98 | two workers that each hold a payload of the same task put it into the lists twice, in any state |
| IntactMoves.MoveConservesIff | executor/task_queue/consumer.py:76-98 | with the read and the move as two steps, a move keeps every task in its one place if and only if all that was read is still due when it is moved |
| IntactMoves.ConservedIffIntact | executor/task_queue/consumer.py:71-102 | of the runs that never meet more than fifty due payloads, exactly the intact ones, in which every move finds what it has read, keep every task in one place throughout |
| PoolSizes.OneWorkerIsIntact | executor/task_queue/consumer.py:71-102 | a run with one worker at a time and at most fifty due at each read is intact, so all that holds of intact runs holds with one worker |
| PoolSizes.PoolConservesIff | executor/task_queue/consumer.py:71-102 | all runs with at most k workers at a time and at most fifty due at each read keep every task in one place if and only if k is at most one |
| IntactMoves.TasksAreConserved | executor/workers/engine.py:103-173 | in every intact run each submitted task is always in exactly one of: a list, the delayed set, a payload run, the dead letters, finished |
| DuplicateRuns.TwoWorkersDuplicate | executor/task_queue/consumer.py:76-98 | a run without more than fifty due in which two workers read one payload before either moves it, and the task is then twice in a list |
| Accounting.StepAgrees | executor/workers/engine.py:103-173 | every step, except a move that does not find what it has read, keeps status and attempts of each row in agreement with the place of its task |
| Accounting.RowsMatchPlaces | executor/workers/engine.py:103-352 | in every intact run: a listed task is QUEUED on attempt 0 and RETRYING later, a delayed one RETRYING, a dead one FAILED; attempts equals the payload attempt while waiting and one more at the end; dead-lettering only at the last attempt or after a rate-limit timeout |
| Provenance.AttemptsStayWithinCap | executor/workers/engine.py:340-352 | over every run, whatever the interleaving: no payload anywhere has an attempt number above max_retries, and one is dead-lettered for too many retries only at the last |
| DeadLetterReasons.ReasonsAreTrue | executor/workers/engine.py:103-352 | over every run, whatever the interleaving: each dead letter was appended by a run that was burying its payload; it names the rate limit if and only if the limiter had refused that run, and exhausted retries if and only if the request of that run had failed at an attempt number not below max_retries |
| DeadLetterReasons.BurialStays | executor/task_queue/consumer.py:104-114 | and every burial is in the list from then on, at the place it was given, with its reason |
| RetryBounds.ExecutionsAreCounted | executor/workers/engine.py:280-352 | over every run, whatever the interleaving, the executions of a task are the attempts its row counts plus those not yet saved |
| RetryBounds.CostsPerWorker | executor/workers/engine.py:103-173 | over every run with at most k workers at a time, however many come and go, a task is executed at most 1 + k + ... + k^max_retries times, rescheduled at most 1 + ... + k^(max_retries-1) times, delayed by at most backoff * (1 + 2k + ... + (2k)^(max_retries-1)) and costs at most eight steps for each of these executions, so retries terminate whatever the interleaving |
| RetryBounds.CostsPerCopy | executor/workers/engine.py:340-352 | over every run executions, retries and total delay of a task are at most those of one task times one plus the number of copies that moves pushed beyond what was still due |
| RetryLimits.LeastBounds | executor/workers/engine.py:340-352 | these bounds are the least ones: for every k and every max_retries some number bounds executions, retries or delay in all runs if and only if it is at least that |
| RetryLimits.RetryLimitIff | executor/workers/engine.py:340-352 | the limit itself: in all runs with at most k workers at a time a task with max_retries m is executed at most m + 1 times if and only if k is at most one or m is zero, and rescheduled at most m times, and delayed by at most the m delays, if and only if k or m is at most one |
| RetryLimits.RetryNumberIff | executor/workers/engine.py:342-348 | in all such runs with at most fifty due at each read the i-th retry carries attempt number i if and only if k or m is at most one |
| ReachedBounds.WorthIsReached | executor/workers/engine.py:103-173 | the runs behind it: for every k and m a run from an empty system, never with more than fifty due, in which all k workers read each retry before one moves it, and which costs the whole bound |
| RetryLimits.TwoWorkersReachBound | executor/workers/engine.py:340-352 | the smallest of them: two workers execute a task three times that may be retried once |
| RetryBounds.ExecutionsAreBounded | executor/workers/engine.py:340-352 | in every intact run, a task is executed at most max_retries + 1 times and rescheduled at most max_retries times |
| RetryBounds.RetriesTerminate | executor/workers/engine.py:103-173 | in every intact run a task costs at most 8 * (max_retries + 1) steps of work |
| RetryBounds.TotalDelayIsBounded | executor/workers/engine.py:342-348 | in every intact run the total delay of a task is at most backoff * (2^max_retries - 1) |
| Retries.RunsAreBalanced | executor/workers/engine.py:280-352 | in every intact run retries scheduled match the attempts that failed, and executions those counted or not yet saved |
| Retries.WorkIsPaidByExecutions | executor/workers/engine.py:103-173 | the steps worked on a task plus the work left in its runs are at most eight for each execution |
| Engine.RetryDelayIsPower | executor/workers/engine.py:344-348 | the delay before attempt k is backoff * 2^(k-1) |
| Backoff.NoRetryIsEarly | executor/workers/engine.py:342-348 | over every run, whatever the interleaving: a poll that takes attempt k of a task, k at least one, comes at least backoff * 2^(k-1) after a step that scheduled this attempt |
| Retries.BackoffClosedForm | executor/workers/engine.py:344-348 | the first k delays add up to backoff * (2^k - 1) |
| Retries.DelaysIncrease | executor/workers/engine.py:344-348 | later retries wait strictly longer |
| Retries.RetryNumberInRun | executor/workers/engine.py:342-348 | in every intact run, the k-th retry scheduled for a task carries attempt number k |
| Retries.TotalDelayIsClosedForm | executor/workers/engine.py:342-348 | in every intact run the delays given to one task add up to the closed form for the retries it had |
| NoLoss.StepIsLossless | executor/task_queue/consumer.py:71-102 | every step that reads at most fifty due keeps all submitted tasks somewhere, with the due-read and the move as separate steps of different workers |
| NoLoss.RunsAreLossless | executor/task_queue/consumer.py:71-102 | the invariant behind it: whoever is about to move has read all that its removal will remove |
| NoLoss.NoTaskDisappears | executor/task_queue/consumer.py:76-98 | in every reachable state of every interleaving with at most fifty due at each read, exactly the submitted tasks are somewhere |
| LateVerdict.StepUnsettlesIff | executor/workers/engine.py:239-352 | call a scan settled when a task of it is active, a payload of it waits or is worked on, or its verdict is right; a step ends this if and only if a run gives a task up and writes FAILED over another status, in a scan that is not FAILED with no other task active and nothing to come, or a promotion removes unread all that was to come of a scan whose verdict is wrong |
| VerdictRuns.QuietVerdict | executor/workers/engine.py:239-258 | over every run, whatever the interleaving, with no such step before: once nothing of a scan is active or to come it is COMPLETED exactly when all its tasks are SUCCESS and FAILED exactly when one is FAILED |
| VerdictRuns.UnsettledIffLateFailure | executor/workers/engine.py:349-352 | in every run with at most fifty due at each read a step unsettles a scan if and only if it is a late failure: FAILED written over the SUCCESS of a copy, in a COMPLETED scan with nothing else to come |
| VerdictRuns.VerdictUnlessLateFailure | executor/workers/engine.py:239-352 | so in every such interleaving the verdict at quiescence is right unless a late failure came before |
| VerdictRuns.LateFailuresHappen | executor/workers/engine.py:349-352 | a run with a late failure, quiet at its end with a wrong verdict |
| DuplicateRuns.CompletedWithFailedTask | executor/workers/engine.py:239-352 | that run in full: two workers, max_retries 1, at the end everything is over, the scan is COMPLETED and its only task FAILED after three attempts |
| ScanVerdict.ScansSettle | executor/workers/engine.py:239-258 | in every intact run, a scan with tasks has an active one, awaits an evaluation, or carries the right verdict |
| ScanVerdict.VerdictAtQuiescence | executor/workers/engine.py:239-258 | in every intact run the verdict is right once no task of a scan is active and no evaluation of it is pending, without a condition on what came before |
| VerdictFinality.VerdictHasSeen | executor/workers/engine.py:253-258 | over every run, whatever the interleaving: whenever an evaluation writes a verdict, each task of the scan is finished, dead-lettered, or a run stands between its FAILED save and its retry decision; for COMPLETED every one is finished |
| VerdictFinality.VerdictIsFinalIff | executor/workers/engine.py:239-258 | when a verdict is early: in an intact run the rows an evaluation has seen when it writes a verdict stay the same in every intact continuation if and only if no run is about to reschedule a task of the scan |
| VerdictFinality.RestIsForever | executor/workers/engine.py:103-173 | over every run, whatever the interleaving, the row of a task of which no payload waits and no run will write changes no more |
| ScanVerdict.OverIsForever | executor/workers/engine.py:103-173 | in every intact run, the row of a task that has succeeded or been dead-lettered never changes again |
| ScanVerdict.InactiveIsSettledOrRetries | executor/workers/engine.py:340-352 | an inactive task is on its way to a retry if and only if it is not settled for good |
| ScanVerdict.SettledIsForever | executor/workers/engine.py:340-352 | in every intact run the row of a settled task never changes again |
| ScanVerdict.RetryReactivates | executor/workers/engine.py:342-345 | a run on its way to a retry makes its task RETRYING within its next two steps, so a verdict that saw it was early |
| EarlyVerdict.FailedBeforeRetry | executor/workers/engine.py:335-345 | a concrete run in which the scan is FAILED while its only task is RETRYING with its retry still to come |
| Semaphore.PermitsAreConserved | executor/workers/engine.py:67-85 | in every reachable state free permits, payload runs and the permit held by the loop add up to the concurrency of the worker |
| Semaphore.ConcurrencyIsLimited | executor/workers/engine.py:37-85 | no worker ever has more payload runs than its concurrency |
| WorkerEngine.UninterruptedRun | executor/workers/engine.py:103-173 | what a payload run nobody interrupts comes to: rows, scan, store and permits for each of the outcomes |
| WorkerEngine.Worker.constructor | executor/workers/engine.py:28-41 | a new worker has all permits, no payload runs and is not running |
| WorkerEngine.Worker.IsIdle | executor/workers/engine.py:43-49 | idle exactly without payload runs and beyond the threshold; asking a busy worker renews its last active time |
| WorkerEngine.Worker.Stop | executor/workers/engine.py:87-93 | the worker is no longer running |
| WorkerEngine.Worker.Turn | executor/workers/engine.py:67-85 | one turn of the loop: the permit is given back when the worker has stopped or the poll is empty, and goes to the payload run otherwise |
| WorkerEngine.Worker.MarkTaskProcessing | executor/workers/engine.py:175-183 | the row, if there is one, becomes PROCESSING |
| WorkerEngine.Worker.EvaluateScanCompletion | executor/workers/engine.py:239-258 | the scan row after one evaluation over the rows of all its tasks: COMPLETED when all are SUCCESS, FAILED when all are SUCCESS or FAILED and not all SUCCESS, unchanged when one is in another state, or there is none, or no such scan |
| WorkerEngine.Worker.SaveResponse | executor/workers/engine.py:280-335 | the row gets the status and one more attempt, then its scan is evaluated; without a row nothing happens |
| WorkerEngine.Worker.HandleRetry | executor/workers/engine.py:340-352 | below max_retries the task becomes RETRYING and is delayed by backoff * 2^attempt with one more attempt; otherwise it becomes FAILED and is dead-lettered with exhausted retries |
| WorkerEngine.Worker.ProcessPayload | executor/workers/engine.py:103-173 | does exactly what the step system does with a run nobody interrupts, releases its permit once on every path and forgets the run |
| TokenBucket.TtlCoversRefill | executor/rate_limiter/limiter.py:36-39 | within the time to live a bucket refills at least twice its capacity |
| TokenBucket.RefillComposes | executor/rate_limiter/limiter.py:29-44 | refilling on the way changes nothing: a denied poll neither gains nor loses tokens |
| RateBound.HappensKeepsValid | executor/rate_limiter/limiter.py:12-45 | every acquire, 429 report and expiry keeps 0 <= tokens <= capacity and 0.1 <= multiplier <= 1 |
| RateBound.RedisRateBound | executor/rate_limiter/limiter.py:12-45 | for the script: from an unused key and after any history, whatever happens next grants at most capacity + rate * forward clock movement |
| RateBound.LocalRateBound | executor/rate_limiter/limiter.py:62-84 | the same bound and invariants for the in-process bucket |
| BucketRefinement.TryKeepsTwins | executor/rate_limiter/limiter.py:24-78 | one acquire is answered alike by both buckets and keeps them related |
| BucketRefinement.BucketsAnswerAlike | executor/rate_limiter/limiter.py:24-78 | on every run of acquires without a 429 both buckets give the same answers, although the key in Redis expires |
| ExactBucket.GrantedIffWithinBound | executor/rate_limiter/limiter.py:62-78 | without a 429 the in-process bucket is the greedy policy of its bound: an acquire is granted if and only if no stretch of time that ends with it, the tokens of this acquire included, would be given more than capacity + rate * its length |
| ExactBucket.ScriptGrantsIffWithinBound | executor/rate_limiter/limiter.py:12-45 | the same for the script on the key that expires |
| BucketRefinement.UnusedKeyAfter429 | executor/rate_limiter/limiter.py:80-84 | after a 429 on an unused key the in-process bucket denies what the script grants |
| BucketRefinement.FirstAcquireAfter429Iff | executor/rate_limiter/limiter.py:24-34 | an acquire at the very instant of a 429 is answered alike by two related buckets, for every request, if and only if the key is live in Redis or the in-process entry would be full even at half the rate |
| ReportedBuckets.AlikeUntilExpiryIff | executor/rate_limiter/limiter.py:12-84 | all runs of acquires and 429s in which the key does not expire are answered alike by two related buckets if and only if the key is live or the in-process entry would be full even at a tenth of the rate |
| ReportedBuckets.FreshMatchesIff | executor/rate_limiter/limiter.py:24-78 | a key that replaces an expired one answers all later acquires like an in-process entry if and only if that entry is full and has not been slowed down |
| ReportedBuckets.AlikeForeverIff | executor/rate_limiter/limiter.py:12-84 | after any run of acquires and 429s two related buckets answer everything alike that is acquired later if and only if no 429 was reported, because expiry drops the multiplier in Redis and nothing drops it in process |
| ReportedBuckets.ReportThenExpiry | executor/rate_limiter/limiter.py:36-44 | for every capacity and rate: one grant, one 429, the expiry, and two more grants of the capacity one refill apart: Redis gives both, the in-process bucket denies the second |
| ReportedBuckets.ExpiryForgetsTheReport | executor/rate_limiter/limiter.py:36-44 | the same with one token, one a second, and acquires at 0, 2 and 3 |
| TtlAdequacy.LevelIsFull | executor/rate_limiter/limiter.py:36-44 | the level at expiry: if after a grant acquires are only denied and the multiplier is halved at most once, the live key would be full when its time to live is over |
| TtlAdequacy.LevelIsFullIff | executor/rate_limiter/limiter.py:36-44 | with at most n halvings after a grant the level at expiry is full for all buckets, grants and denied acquires if and only if n is at most one |
| TtlAdequacy.ExpiryIsInvisibleIff | executor/rate_limiter/limiter.py:12-45 | the answers: after a grant and any run, the expiring key answers every later acquire like one that never expires if and only if its multiplier was 1 at the grant and no 429 came after it |
| TtlAdequacy.TwoReportsAreTooMany | executor/rate_limiter/limiter.py:161-171 | with two halvings the expired key gives a full token where the live one holds half of one |
| KeyExpiry.KeyIsGoneIff | executor/rate_limiter/limiter.py:36-44 | after a grant at t, whatever is denied or reported until then, the key is gone at u if and only if u >= t + 2 * ceil(capacity / (rate * m)), m the multiplier at the grant |
| Admission.AdmissionIsOnePass | executor/rate_limiter/limiter.py:117-147 | every admission was charged exactly once to each of its buckets in one and the same pass |
| Admission.BucketsForAre | executor/rate_limiter/limiter.py:120-133 | a call asks the global bucket first, that of its domain if it has a rate other than zero, and that of its scan last, at rates overall, domain and 100 |
| Admission.AdmissionsAreBounded | executor/rate_limiter/limiter.py:117-159 | for either backend: over every window of length T the charges to a bucket, and so the admissions, are at most rate * (1 + T), for the global, the domain and the scan bucket (rate 100), although failed passes are not refunded |
| Admission.GlobalIsChargedMost | executor/rate_limiter/limiter.py:127-141 | no scan or domain bucket is ever charged more often than the global one |
| Admission.EnabledIsReady | executor/rate_limiter/limiter.py:117-147 | in every reachable state the script never meets a rate or multiplier it cannot divide by |
| RateLimiter.CallEndsAtFirstFullPass | executor/rate_limiter/limiter.py:135-147 | a call answers True exactly when one pass begun in time charges every bucket of its list, each once and no other, at the time of its ask; False when the time is up; every pass before has charged the buckets before the first that denies, and kept the charges |
| RateLimiter.PassIsPass | executor/rate_limiter/limiter.py:137-143 | a pass asks the buckets one by one up to the first that denies: each of them is left as one ask of it alone would leave it, with that answer, and every other bucket as it was |
| Calls.CallIsAdmission | executor/rate_limiter/limiter.py:117-147 | a whole call is a run of the shared system by this caller alone: it arrives, charges its buckets while the clock moves on, and ends with a charge that admits it if and only if it is answered True, otherwise with giving up; the backend is left as the run leaves it |
| RateLimiter.AskIsCharge | executor/rate_limiter/limiter.py:149-159 | one ask of the loop, of either backend, is one charging step of the shared system |
| RateLimiter.RedisBuckets.EvalSha | executor/rate_limiter/limiter.py:12-45 | one run of the script, written out: a missing or expired key starts full at full rate; it grants exactly when the refilled tokens suffice and takes them; a grant sets the expiry to twice the refill time in full seconds at the slowed rate, a denial keeps that of a live key and gives a missing key none; other keys stay |
| RateLimiter.RedisBuckets.HSetMultiplier | executor/rate_limiter/limiter.py:161-175 | the new multiplier on a live key leaves its level and expiry alone; a missing key becomes one without either |
| RateLimiter.LocalTokenBucket.Acquire | executor/rate_limiter/limiter.py:62-78 | the in-process acquire, written out: an unused entry starts full, an old one refills at its slowed rate; it grants exactly when the tokens suffice and takes them; other entries stay |
| RateLimiter.LocalTokenBucket.Report429 | executor/rate_limiter/limiter.py:80-84 | halves the multiplier down to a tenth and leaves level and time alone; an unused entry becomes an empty one |
| RateLimiter.Limiter.Report429 | executor/rate_limiter/limiter.py:161-179 | a 429 halves the multiplier of the domain bucket in the backend in use and leaves the other alone |
| RateLimiter.Limiter.AcquireOne | executor/rate_limiter/limiter.py:149-159 | asks the backend in use, and leaves the other alone |
| RateLimiter.Limiter.Acquire | executor/rate_limiter/limiter.py:117-147 | the polling loop over the buckets of the call: exactly the passes that CallEndsAtFirstFullPass and Calls.CallIsAdmission speak of |
| PoolPolicy.CleanupDropsLeadingIdle | executor/worker_manager/manager.py:120-130 | a cleanup drops exactly the first min(idle, size - floor) engines of the idle snapshot, fewer if a stop raises, and keeps all others in order |
| PoolPolicy.WithoutKeepsOrder | executor/worker_manager/manager.py:120-130 | what is left of a list are exactly the engines that are not gone, in the order they had |
| PoolPolicy.CleanupEndsAt | executor/worker_manager/manager.py:124-130 | none of the engines dropped raises; the cleanup is broken off exactly when the floor allows one more and the next idle engine raises |
| PoolPolicy.CleanupStaysInBounds | executor/worker_manager/manager.py:124-130 | every list in the middle of a cleanup is within the bounds |
| PoolPolicy.PassReachesTarget | executor/worker_manager/manager.py:63-82 | a pass that raises nothing ends with max(engines left by the cleanup, min(desired, max_workers)) engines |
| PoolPolicy.BrokenPassAddsNothing | executor/worker_manager/manager.py:63-87 | a pass that raises creates no engine; without a queue depth the list stays as it is |
| PoolPolicy.PassStaysInBounds | executor/worker_manager/manager.py:63-82 | every list in the middle of a pass is between min(min_workers, max_workers) and max_workers |
| PoolPolicy.PoolStaysInBounds | executor/worker_manager/manager.py:63-130 | so is every list of every run of passes, whatever the depths, the idle snapshots and the exceptions |
| PoolPolicy.DemandGrowsIffFloorIsLow | executor/worker_manager/manager.py:91-108 | a deeper queue never asks for fewer engines if and only if min_workers is at most 5 |
| PoolPolicy.DemandIs | executor/worker_manager/manager.py:91-108 | the demand is min_workers below ten tasks, then 5, 10, 50 and 100 from ten, a hundred, a thousand and ten thousand on |
| WorkerPool.WorkerPoolManager.constructor | executor/worker_manager/manager.py:14-23 | a new pool has no engines and is not running |
| WorkerPool.WorkerPoolManager.GetTotalQueueDepth | executor/worker_manager/manager.py:47-61 | the sum of the lengths of the four lists |
| WorkerPool.WorkerPoolManager.ScaleUp | executor/worker_manager/manager.py:110-118 | appends as many new engines as asked for and the ceiling allows, one by one |
| WorkerPool.WorkerPoolManager.Start | executor/worker_manager/manager.py:25-34 | starts min_workers engines up to the ceiling; an empty pool is within its bounds afterwards |
| WorkerPool.WorkerPoolManager.IdleSnapshot | executor/worker_manager/manager.py:122 | exactly the engines without tasks whose last activity is longer ago than the threshold, in list order; asking stops none |
| WorkerPool.WorkerPoolManager.StopIdle | executor/worker_manager/manager.py:124-130 | goes through the lists of the cleanup on values; the dropped engines are stopped, and so is the one that breaks it off, which was running, raises at its shutdown and stays in the list |
| WorkerPool.WorkerPoolManager.CleanupIdleWorkers | executor/worker_manager/manager.py:120-130 | snapshot and stops together, down to the floor |
| WorkerPool.WorkerPoolManager.MonitorPass | executor/worker_manager/manager.py:63-87 | one pass goes through exactly the lists of the pass on values; a failed depth read or stop ends it early |
| WorkerPool.WorkerPoolManager.Stop | executor/worker_manager/manager.py:36-45 | every engine is stopped and the list is empty |
| DiffEngine.PrintingIsInjective | modules_unzipped/TLL-alpha/TLL-alpha-b4d22e2ae8d804a9767ba8bf13dcac18cf77be8e/diff_engine.py:34-44 | different paths print to different flat keys when keys are not empty and cannot be mistaken for printed steps |
| DiffEngine.DecimalReadsBack | modules_unzipped/TLL-alpha/TLL-alpha-b4d22e2ae8d804a9767ba8bf13dcac18cf77be8e/diff_engine.py:40-42 | an index is written in the decimal digits that read as it, without leading zeros |
| DiffEngine.FlattenJson | modules_unzipped/TLL-alpha/TLL-alpha-b4d22e2ae8d804a9767ba8bf13dcac18cf77be8e/diff_engine.py:29-45 | the recursion over the body computes the flat entries, the later of two equal keys staying |
| FlatEntries.EntryHasLeaf | modules_unzipped/TLL-alpha/TLL-alpha-b4d22e2ae8d804a9767ba8bf13dcac18cf77be8e/diff_engine.py:29-45 | every flat entry is that of a leaf, whatever the keys are |
| FlatEntries.LeafHasEntry | modules_unzipped/TLL-alpha/TLL-alpha-b4d22e2ae8d804a9767ba8bf13dcac18cf77be8e/diff_engine.py:29-45 | every leaf keeps its own entry and value when printing is unambiguous |
| FlatEntries.FlatteningIsExact | modules_unzipped/TLL-alpha/TLL-alpha-b4d22e2ae8d804a9767ba8bf13dcac18cf77be8e/diff_engine.py:29-45 | one flat entry per leaf, with its value |
| FlatEntries.FlatteningIsExactIff | modules_unzipped/TLL-alpha/TLL-alpha-b4d22e2ae8d804a9767ba8bf13dcac18cf77be8e/diff_engine.py:29-45 | for all bodies with keys over an alphabet there is one entry per leaf if and only if no key is empty and the alphabet has no dot and not both brackets with a digit |
| LatestLeaf.EveryLeafHasKey | modules_unzipped/TLL-alpha/TLL-alpha-b4d22e2ae8d804a9767ba8bf13dcac18cf77be8e/diff_engine.py:29-45 | whatever the keys are, every leaf has an entry under its printed path |
| LatestLeaf.LatestLeafStays | modules_unzipped/TLL-alpha/TLL-alpha-b4d22e2ae8d804a9767ba8bf13dcac18cf77be8e/diff_engine.py:35-45 | and that entry shows the latest leaf of the body, read from front to back, of all that print to the key |
| FlatEntries.DotLosesALeaf | modules_unzipped/TLL-alpha/TLL-alpha-b4d22e2ae8d804a9767ba8bf13dcac18cf77be8e/diff_engine.py:37-38 | with a dot in keys there is a body that loses a leaf |
| FlatEntries.IndexLosesALeaf | modules_unzipped/TLL-alpha/TLL-alpha-b4d22e2ae8d804a9767ba8bf13dcac18cf77be8e/diff_engine.py:40-42 | with brackets and a digit in keys there is a body that loses a leaf |
| FlatEntries.EmptyKeyLosesALeaf | modules_unzipped/TLL-alpha/TLL-alpha-b4d22e2ae8d804a9767ba8bf13dcac18cf77be8e/diff_engine.py:37-38 | with an empty key there is a body that loses a leaf |
| FlatEntries.CollectChanges | modules_unzipped/TLL-alpha/TLL-alpha-b4d22e2ae8d804a9767ba8bf13dcac18cf77be8e/diff_engine.py:99-102 | the loop over the common keys collects exactly those with different values, with both values |
| FlatEntries.SameByKind | modules_unzipped/TLL-alpha/TLL-alpha-b4d22e2ae8d804a9767ba8bf13dcac18cf77be8e/diff_engine.py:99-102 | what different means, by kind: texts by their characters, numbers and truth values by the amount they stand for, null from everything else, and no text equals a number or a truth value |
| FlatEntries.ChangedIffDiffer | modules_unzipped/TLL-alpha/TLL-alpha-b4d22e2ae8d804a9767ba8bf13dcac18cf77be8e/diff_engine.py:94-102 | a key is among the changes if and only if both bodies have it with values that differ in this sense |
| FlatEntries.FalsyAre | modules_unzipped/TLL-alpha/TLL-alpha-b4d22e2ae8d804a9767ba8bf13dcac18cf77be8e/diff_engine.py:88-89 | the falsy bodies are null, false, zero, the empty text, the empty list and the empty object |
| FlatEntries.FieldDiff | modules_unzipped/TLL-alpha/TLL-alpha-b4d22e2ae8d804a9767ba8bf13dcac18cf77be8e/diff_engine.py:73-104 | added keys are those of the second body only, removed ones those of the first only, leaked ones the common keys; a key is changed if and only if both bodies have it with different values |
| FlatEntries.ReportedWhere | modules_unzipped/TLL-alpha/TLL-alpha-b4d22e2ae8d804a9767ba8bf13dcac18cf77be8e/diff_engine.py:91-102 | a leaf only the second body shows is added, one only the first shows is removed, one of both is leaked, and changed exactly when its values differ, with that of the first body first |
| FlatEntries.ShownIsInDiff | modules_unzipped/TLL-alpha/TLL-alpha-b4d22e2ae8d804a9767ba8bf13dcac18cf77be8e/diff_engine.py:88-92 | a body takes part in the diff at exactly the printed paths of its leaves, with their values |
| FlatEntries.NothingReportedIff | modules_unzipped/TLL-alpha/TLL-alpha-b4d22e2ae8d804a9767ba8bf13dcac18cf77be8e/diff_engine.py:73-104 | no added, removed or changed field if and only if both bodies show leaves at the same paths, with values that do not differ in the sense of SameByKind |
| FlatEntries.AllLeavesShowIff | modules_unzipped/TLL-alpha/TLL-alpha-b4d22e2ae8d804a9767ba8bf13dcac18cf77be8e/diff_engine.py:88-89 | all leaves of a body take part in the diff if and only if it is not a falsy scalar |
| CanonicalPaths.NormalizeRendersSegments | modules_unzipped/endpoint_discovery/endpoint_discovery/parser.py:74-94 | the canonical path is the rendering of the segments of the path; it starts with a slash, has no double slash and ends in one only when it is one |
| CanonicalPaths.SegmentsAre | modules_unzipped/endpoint_discovery/endpoint_discovery/parser.py:74-94 | the segments of two paths joined by a slash are those of the one and then those of the other, and a text without slashes is one segment unless it is empty |
| CanonicalPaths.SameFormIffSameSegments | modules_unzipped/endpoint_discovery/endpoint_discovery/parser.py:74-94 | two paths have one canonical form if and only if they have the same segments |
| CanonicalPaths.CanonicalIffFixed | modules_unzipped/endpoint_discovery/endpoint_discovery/parser.py:74-94 | the canonical paths are exactly the fixed points, and normalizing is idempotent |
| OpenApi.ListedKeys | modules_unzipped/endpoint_discovery/endpoint_discovery/parser.py:225-248 | the keys seen are those seen before and those of the well-formed entries taken |
| OpenApi.TakenIsOutcome | modules_unzipped/endpoint_discovery/endpoint_discovery/parser.py:205-248 | one more entry leads from the outcome of some entries to that of one more, and keeps the seen keys those of the list |
| OpenApi.ListedIsFirst | modules_unzipped/endpoint_discovery/endpoint_discovery/parser.py:225-247 | every listed endpoint is the first well-formed entry of its method and canonical path, in spec order |
| OpenApi.FirstIsListed | modules_unzipped/endpoint_discovery/endpoint_discovery/parser.py:225-247 | every first occurrence is listed, at the place the first occurrences before it leave |
| OpenApi.ListedOnce | modules_unzipped/endpoint_discovery/endpoint_discovery/parser.py:225-229 | no two listed endpoints have the same method and canonical path |
| OpenApi.EveryEntryIsAccountedFor | modules_unzipped/endpoint_discovery/endpoint_discovery/parser.py:205-248 | every entry is listed or reported once as rejected, never both |
| OpenApi.ReportIsAt | modules_unzipped/endpoint_discovery/endpoint_discovery/parser.py:205-248 | the reports come entry by entry: a fault, a duplicate if an earlier entry or an earlier parse has its method and path, or its remarks |
| OpenApi.SecondPassListsNothing | modules_unzipped/endpoint_discovery/endpoint_discovery/parser.py:225-229 | a second parse of the same parser lists nothing more |
| OpenApi.SameEndpointIff | modules_unzipped/endpoint_discovery/endpoint_discovery/parser.py:210-226 | two operations are one endpoint if and only if their methods agree up to case and their paths have the same segments |
| OpenApi.EntryIs | modules_unzipped/endpoint_discovery/endpoint_discovery/parser.py:205-245 | an operation is rejected for its method exactly when that is not one of the eight, in either case, for its details exactly when they are no object, and otherwise listed with its upper-case method, canonical path and the authentication its own or the global requirements ask for |
| OpenApi.RemarksAre | modules_unzipped/endpoint_discovery/endpoint_discovery/parser.py:231-235 | its remarks are the missing responses first, then each reference that cannot be followed, in order |
| OpenApi.EntryIsAt | modules_unzipped/endpoint_discovery/endpoint_discovery/parser.py:205-248 | the entries of a specification are those of its paths and their operations, in order |
| OpenApi.OpenAPIParser.constructor | modules_unzipped/endpoint_discovery/endpoint_discovery/parser.py:22-26 | a new parser has an empty list, no errors and no keys |
| OpenApi.OpenAPIParser.AddOperation | modules_unzipped/endpoint_discovery/endpoint_discovery/parser.py:212-248 | one turn of the inner loop, with each of its reports; when reading the details raises only the remarks stay |
| OpenApi.OpenAPIParser.ParsePath | modules_unzipped/endpoint_discovery/endpoint_discovery/parser.py:205-248 | one turn of the outer loop: the entries of one path are taken in order, up to one whose reading raises |
| OpenApi.OpenAPIParser.ParsePaths | modules_unzipped/endpoint_discovery/endpoint_discovery/parser.py:205-248 | the outer loop takes the entries of all paths in order, up to one whose reading raises |
| OpenApi.OpenAPIParser.Parse | modules_unzipped/endpoint_discovery/endpoint_discovery/parser.py:187-260 | the nested loops list the first occurrences of all entries and report the others; the seen keys are those of the list throughout, also when reading an entry raises, and the total is the number of different keys |

## Left out

- IntactMoves.TasksAreConserved: for the runs in which it holds; IntactMoves.ConservedIffIntact says that there are no others with at most fifty due, NoLoss and RetryBounds say what remains.
- Accounting.RowsMatchPlaces: for intact runs; a second copy of a task rewrites its row while the first is elsewhere.
- Retries.RetryNumberInRun: for intact runs; RetryLimits.RetryNumberIff says for which pools it holds of all.
- ScanVerdict.OverIsForever: for intact runs; DuplicateRuns.CompletedWithFailedTask rewrites the row of a finished task.
- WorkerEngine.Worker.ProcessPayload: the sections of one run are not interleaved with others here; Engine and its runs do that.
- WorkerEngine.Worker.Stop: does not model waiting for the payload runs, the heartbeat or the HTTP client.
- WorkerEngine.Worker.SaveResponse: does not model the response row, `finished_at` or the published events.
- RedisQueue.QueueConsumer.Consume: does not model how long the poll blocks; an empty answer is a time-out.
- RedisQueue.QueueConsumer.ProcessDelayedTasks: no other client acts between the read and the move here; Engine lets them.
- RedisQueue.QueuePublisher.ScheduleDelayed: reading the clock and adding to the sorted set are one step.
- RedisQueue.Redis.DueMembers: which of two members with equal scores comes first is left open, where Redis orders them by their text.
- RateLimiter.Limiter.Acquire: the backend is chosen at construction; the switch to the in-process bucket when a script call fails at run time is not modelled. Rates are positive, as the script divides by them.
- RateLimiter.Limiter.AcquireOne: the same.
- RateLimiter.Limiter.Report429: nothing comes between the read and the write of the multiplier here; RateBound and Admission let it.
- Calls.CallIsAdmission: for one token, which is what the engine asks for; no other caller moves in between, which RateLimiter.AskIsCharge does not ask for.
- KeyExpiry.KeyIsGoneIff: a 429 report is one step here.
- ExactBucket.GrantedIffWithinBound: for runs without a 429; with one the bucket grants less (RateBound.LocalRateBound).
- ReportedBuckets.AlikeForeverIff: the read and the write of the multiplier by a 429 report are one step here; RateBound and Admission separate them.
- Admission.AdmissionsAreBounded: asks for one token at a time, as the engine does; clocks of all callers agree, and one backend serves the whole run.
- WorkerPool.WorkerPoolManager.MonitorPass: what engines do while the pass awaits their shutdown is not interleaved; the four list lengths are read at one instant, and the start of a new engine in the background is left to the engine.
- WorkerPool.WorkerPoolManager.GetTotalQueueDepth: reads the four lengths at one instant.
- OpenApi.OpenAPIParser.AddOperation: reading the body and the parameters of the operation is an input.
- OpenApi.OpenAPIParser.Parse: reading the body and the parameters of an operation is an input (what it reports, whether it raises, what it yields); loading files, URLs and YAML is left out; only ASCII letters have an upper case.
- FlatEntries.FieldDiff: fields are sets, as the order of the lists is arbitrary in the source; a number that is not a number is not modelled.
- Submitting a scan is one step: the rows are created and the batch is published together (executor/api/routes.py:37-91).
- Failures of Redis and of the database, which the code logs and swallows: the store is fault-free.
- HTTP execution, heartbeats, metrics, server-sent events, the API apart from submission, and the front end.
- Rounding of floating-point numbers, the probabilities of the weighted poll, and skew between the clocks of hosts.
- The legacy copy of the queue under executor/queue, the similarity ratio, the extraction of identifiers, issue classification and reporting.
- The crawler, the role swapper, the mutation engine and the copilot.
