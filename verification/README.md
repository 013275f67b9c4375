# Batch inference engine: a verified model of its runtime core

The repository runs batches of prompts against a rate-limited inference provider. Everything
happens on one asyncio event loop: a weighted round-robin scheduler feeds a pool of workers,
which pass an adaptive concurrency gate and a token bucket before each provider call, retry
429 answers (section 4 of RFC 6585) no sooner than Retry-After allows (section 10.2.3 of
RFC 9110), and record results and costs on the job.

This project models that core in Dafny and proves what it is for: no prompt is lost, repeated
or overwritten, no wake-up is lost and no permit idles, the caps and the rate limit hold, no
retry comes before its time, no job starves, shares are exactly proportional, and the books
balance, for every input and every interleaving. All work ends, refusals at the token bucket
included, exactly as long as that bucket can hold a token.

## How the model is built

* Each component has a specification on values (`SchedulerSpec`, `LimiterSpec`,
  `TokenBucketSpec`, `EngineSpec`) and a class with the source's fields and loops, updated in
  place (`Scheduler`, `Limiter`, `TokenBucket`, `Store`, `Engine`). Every method of a class is
  proved to do exactly what the specification says. The theorems are about the
  specifications.
* `EngineSpec` is a state machine. A step is a stretch of engine code that runs without
  suspending; any enabled step may come next. Provider answers, how much time passes, the end of
  the grace period and the order of tasks are chosen by the environment; a worker asleep
  after a 429 or a refusal of the token bucket goes on when its time has come, or later. A worker that pops nothing releases its permit and ends in the
  same step: the lock of the condition variable is never held across a suspension, so
  nothing can come between.
* A worker between `release` and `acquire` is a separate state, so the model admits every
  interleaving of the event loop and a few more.
* The fields `prompts`, `items`, `dequeued`, `dropped` and `lost` of a job are history that only
  the specification reads.
* The object `Engine.BatchEngine` is valid only in states that some run of the machine leads to, so
  every theorem about reachable states is a theorem about the object.
* Times, factors and costs are reals; the one rounding that matters, to eight decimal places
  with ties to even, is explicit. Dictionaries whose order matters are sequences in insertion
  order. `int()` truncates towards zero.
* The fingerprint is an arbitrary function of priority, ids and prompts, and the jitter an
  arbitrary sequence of draws. Job ids are parameters; a new one is unused and not empty. The
  clock counts from the start of the engine and does not go back.
* `Usable` lists what the engine relies on but does not check: a pool, a concurrency maximum and
  an adaptive minimum of at least one, `increase_after` of at least one, a non-zero
  `chars_per_token`, and a decrease factor below 1 + 1/maximum.

| file | content |
|---|---|
| `Models.dfy` | shared data types |
| `SchedulerSpec.dfy`, `Scheduler.dfy` | weighted round-robin with credits, and the scheduler object |
| `SchedulerRuns.dfy`, `Fairness.dfy`, `Shares.dfy`, `Priorities.dfy` | conservation over histories, waiting and draining bounds, exact shares, what a priority is worth |
| `LimiterSpec.dfy`, `Limiter.dfy` | the gate with a moving limit, and the limiter object |
| `TokenBucket.dfy` | the token bucket, as values and as an object |
| `Retry.dfy` | the retry loop and its total sleep |
| `Accounting.dfy` | ids, dead letters, tokens, cost |
| `EngineSpec.dfy` | the engine as a state machine |
| `EnginePool.dfy`, `EnginePermits.dfy`, `EngineLiveness.dfy` | permits, wake-ups, workers, no idle permit, termination |
| `EngineRate.dfy`, `EngineRefusals.dfy` | the token bucket inside the engine: calls in a span of time, refusals |
| `EngineJobs.dfy`, `EngineBooks.dfy`, `EngineStore.dfy`, `EngineLedger.dfy` | the invariants of jobs, results, admission and keys, and 429 counts |
| `EngineTheorems.dfy`, `EngineCalls.dfy`, `EngineFairness.dfy` | what holds over whole runs |
| `Store.dfy`, `Engine.dfy` | job records, the job store and the engine as objects |

## Where the code differs from what it says

* `app/scheduler.py:48-49`: adding a job id that still has items queued overwrites them and leaves
  the pending count too high by as many. Exactly then (`AddCountsExactlyWhenIdle`, and
  `ReaddExample`); the engine uses fresh ids.
* `app/ratelimit.py:76-77` says the limit always stays within its bounds. `record_throttle` has no
  upper clamp; it holds exactly when the factor is below 1 + 1/maximum
  (`ThrottleBoundedExactly`); with a factor of two a limit of three becomes six under a maximum of
  four (`OvershootExample`).
* `app/ratelimit.py:126-128` says raising the limit needs no notification, because the release that
  follows wakes a waiter. For the engine that holds: its worker comes straight back after the
  release, so no permit idles beside a sleeper (`NoPermitIdles`). It rests on that return and
  not on the limiter: callers that release and stay away, as `async with` allows
  (app/ratelimit.py:106-111), can leave a task asleep beside a free permit, exactly when the
  limit rises with every permit spoken for and somebody asleep (`IdlePermitExactly`,
  `IdlePermitExample`).
* `app/engine.py:145-148` passes the request rate as the bucket size when no burst is set. A rate
  strictly between 0 and 1 then makes a bucket that never holds a whole token
  (`EngineBucketServesExactly`, `SlowBucketExample`): the engine never answers a prompt
  (`SmallBucketAnswersNothing`), and its workers are refused without end
  (`SmallBucketNeverRests`).
* `app/engine.py:416`: a job is finalised when a prompt finishes, so a job submitted without prompts
  stays running until it is cancelled or the engine shuts down (`QuiescenceIsCompletion`,
  `EmptyBatchNeverFinishes`, `EmptyBatchExample`).
* A full round of pops restores every credit literally exactly when the round had already
  started; from an untouched round the credits end spent, which is the same point of the cycle
  (`OneRound`).

## Model

| member | source | states |
|---|---|---|
| `SchedulerSpec.AddCountsExactlyWhenIdle` | app/scheduler.py:46-49 | After an add, `_pending` equals the items queued if and only if the id had nothing queued; otherwise it is too high by exactly what was overwritten |
| `SchedulerSpec.ReaddExample` | app/scheduler.py:48-49 | A job of one item added twice: one item queued, two counted |
| `SchedulerSpec.AddFresh` | app/scheduler.py:46-49 | A fresh job goes last, with full credit; every other job keeps its items and the round invariant survives; what its weight is worth is `SharesByPriority` |
| `SchedulerSpec.RemoveEffect` | app/scheduler.py:51-58 | Removal drops that job's items and no others, takes exactly their number off the count, and keeps the round invariant |
| `SchedulerSpec.UndrainedEffect` | app/scheduler.py:62-66 | Dropping drained queues changes no job's items; nothing is left exactly when nothing is pending |
| `SchedulerSpec.NewRoundEffect` | app/scheduler.py:68-71 | Starting a round keeps all items and the round invariant, and somebody has credit afterwards |
| `SchedulerSpec.ServeValid` | app/scheduler.py:73-77 | Serving the first ready queue keeps the invariant: zero credit before some queue, anything at it, full weight after it |
| `SchedulerSpec.PopServesTheRound` | app/scheduler.py:60-88 | The service loop always finds a queue when something is pending, so the fallback after it is unreachable |
| `SchedulerSpec.PopEffect` | app/scheduler.py:60-88 | `pop` returns nothing exactly when nothing is pending; otherwise it removes the first item of one job, leaves all other jobs alone, lowers the count by one and keeps the invariant |
| `Scheduler.FairScheduler.Add` | app/scheduler.py:46-49 | The in-place update is the specified one, including overwriting a known id in place |
| `Scheduler.FairScheduler.Remove` | app/scheduler.py:51-58 | Returns how many items were dropped; the new state is the specified one, also for an unknown id |
| `Scheduler.FairScheduler.DropDrained` | app/scheduler.py:62-64 | The deletion loop leaves exactly the queues with items, in order |
| `Scheduler.FairScheduler.StartRound` | app/scheduler.py:68-71 | Credits are reset to the weights exactly when nobody has any |
| `Scheduler.FairScheduler.ServeReady` | app/scheduler.py:73-77 | The loop serves the first queue with credit and items, or changes nothing |
| `Scheduler.FairScheduler.ServeAfterReset` | app/scheduler.py:79-88 | The fallback resets all credits and serves the first queue with items |
| `Scheduler.FairScheduler.Pop` | app/scheduler.py:60-88 | The whole `pop`, loops and fallback included, computes the specified result and state |
| `Scheduler.FairScheduler.JobPending` | app/scheduler.py:98-100 | The number of items waiting for the job, zero if it is unknown |
| `SchedulerRuns.ApplyKeeps` | app/scheduler.py:46-88 | Every add, remove and pop keeps the invariant and accounts for each job's items |
| `SchedulerRuns.ConservationFrom` | app/scheduler.py:46-88 | From any valid state: items queued and submitted are those served, then dropped, then still queued, in order |
| `SchedulerRuns.Conservation` | app/scheduler.py:41-88 | Over any history with fresh ids: added = served + removed + queued as sequences, served items are a prefix of the submitted ones, `_pending` is exact, `pop` is empty-handed exactly when nothing is queued |
| `Fairness.RankBound` | app/scheduler.py:8-13 | A job's waiting rank lies between zero and the weights of the others |
| `Fairness.PopElsewhere` | app/scheduler.py:60-77 | A pop that serves another job lowers the rank by at least one, whatever drains meanwhile |
| `Fairness.WaitingTime` | app/scheduler.py:8-13 | No starvation over every history: while a job with items is unserved, at most its rank plus the weights arriving meanwhile were popped |
| `Fairness.PopDrains` | app/scheduler.py:60-77 | A ranking function for draining a job strictly falls at every pop |
| `Fairness.DrainsWithin` | app/scheduler.py:51-77 | Once that many pops happened, whatever others were removed, the job is drained |
| `Fairness.DrainBound` | app/scheduler.py:8-13 | A job whose items fit in t turns of its weight drains within t times the total weight in pops, however large the others |
| `Shares.CreditChain` | app/scheduler.py:68-77 | Credit vectors of valid states form a chain, so the sum of the credits fixes each of them |
| `Shares.SpendCredit` | app/scheduler.py:73-77 | Within a round, n pops spend n credits, and each queue gave out exactly the items its missing credit paid for |
| `Shares.OneRound` | app/scheduler.py:60-77 | From any point of a round, total-weight many pops serve each job exactly its weight and return to the same point; the credits are literally restored if and only if the round had started |
| `Shares.ProportionalService` | tests/test_scheduler.py:26-39 | n times the total weight in pops serve every job exactly n times its weight, for all n, all weights and all starting points, while no queue runs dry |
| `Shares.ServiceInOrder` | app/scheduler.py:60-77 | Read off the pops' results: the job's first n times weight items, in order |
| `Shares.WaitIsExact` | app/scheduler.py:60-77 | The waiting rank is attained: while no queue runs dry the job is first served by pop number rank + 1 |
| `Priorities.ApplyKeepsRanks` | app/scheduler.py:26-49 | Every operation keeps each queue's weight, and a fresh one weighs four, two or one, for high, normal and low |
| `Priorities.SharesByPriority` | app/scheduler.py:8-13 | After any history, over n cycles of pops without anybody running dry, high, normal and low jobs are served exactly 4n, 2n and n items each |
| `Priorities.HighAndLow` | tests/test_scheduler.py:26-39 | The repository's own case: twenty pops of a fresh high and low pair serve sixteen and four |
| `LimiterSpec.NotifyEffect` | app/ratelimit.py:101-104 | A notification wakes exactly one sleeper if there is one, keeps the queue and its order, and un-notifies nobody |
| `LimiterSpec.NotifyInOrder` | app/ratelimit.py:101-104 | The sleeper woken is the one waiting longest: everybody before it had been notified already |
| `LimiterSpec.LeaveEffect` | app/ratelimit.py:95-99 | A resuming task leaves the waiters, and nobody else does |
| `LimiterSpec.OrderIsKept` | app/ratelimit.py:95-104 | No step lets a waiting task overtake another |
| `LimiterSpec.NewcomersGoLast` | app/ratelimit.py:95-99 | A task that must wait waits behind everybody already waiting |
| `LimiterSpec.ThrottleInBounds` | app/ratelimit.py:113-121 | With a sound factor a throttle stays within the bounds |
| `LimiterSpec.ThrottleBoundedExactly` | app/ratelimit.py:113-121 | Throttling respects the maximum from every limit if and only if factor times maximum is below maximum + 1 |
| `LimiterSpec.OvershootExample` | app/ratelimit.py:121 | A configured limiter whose throttle takes the limit from three to six under a maximum of four |
| `LimiterSpec.ThrottleIsRoundedDown` | app/ratelimit.py:113-121 | One throttle gives exactly the product rounded down, or the floor where that is higher |
| `LimiterSpec.ThrottleLosesNoMore` | app/ratelimit.py:113-121 | One throttle loses less than one beyond limit times (1 - factor), whatever the factor |
| `LimiterSpec.HistoryInBounds` | app/ratelimit.py:76-84 | Over any history of throttles and successes the limit stays within its bounds, and below the maximum the streak is short of `increase_after` |
| `LimiterSpec.SuccessesInARow` | app/ratelimit.py:123-133 | k successes in a row give exactly min(max, limit + (streak + k) div increase_after) |
| `LimiterSpec.ThrottlesInARow` | app/ratelimit.py:113-121 | k throttles in a row give at most max(min, limit times factor^k), for every factor |
| `LimiterSpec.StrictDescent` | app/ratelimit.py:113-121 | With a factor below one every throttle strictly lowers a limit above the floor |
| `LimiterSpec.ThrottledToTheFloor` | app/ratelimit.py:113-121 | As many throttles as the distance to the floor end exactly on it |
| `LimiterSpec.IdlePermitExactly` | app/ratelimit.py:95-133 | The limiter on its own, whatever its callers do, under every sound factor: every step keeps permits from idling beside sleepers, except, and exactly then, a raise of the limit with every permit spoken for and somebody asleep |
| `LimiterSpec.IdlePermitExample` | app/ratelimit.py:106-133 | Callers of the bare limiter that release and stay away: six steps end with a sleeper beside an idle permit |
| `Limiter.AdaptiveConcurrencyLimiter.constructor` | app/ratelimit.py:68-85 | The clamped bounds and the initial limit |
| `Limiter.AdaptiveConcurrencyLimiter.Acquire` | app/ratelimit.py:95-99 | Takes a permit exactly when one is free, else joins the waiters last |
| `Limiter.AdaptiveConcurrencyLimiter.Resume` | app/ratelimit.py:95-99 | A woken task re-checks the limit: it enters or waits again at the end |
| `Limiter.AdaptiveConcurrencyLimiter.Release` | app/ratelimit.py:101-104 | Frees the permit and notifies the first sleeper not yet notified |
| `Limiter.AdaptiveConcurrencyLimiter.RecordThrottle` | app/ratelimit.py:113-121 | Resets the streak and shrinks the limit, down to the floor |
| `Limiter.AdaptiveConcurrencyLimiter.RecordSuccess` | app/ratelimit.py:123-133 | Extends the streak or raises the limit and restarts it |
| `TokenBucketSpec.LevelInBounds` | app/ratelimit.py:22-52 | Along every run with a monotone clock the level stays between zero and the capacity |
| `TokenBucketSpec.WindowBound` | app/ratelimit.py:22-52 | The tokens granted in any interval [s, t] are at most capacity + rate times (t - s), lazy first refill included |
| `TokenBucketSpec.AccruedIsRateTimesTime` | app/ratelimit.py:39 | What accrues is the rate times the time |
| `TokenBucketSpec.TokensAreConserved` | app/ratelimit.py:32-52 | Along every run the final level, the tokens granted and those that found no room equal the first level plus rate times elapsed time |
| `TokenBucketSpec.NothingSpilled` | app/ratelimit.py:39 | Where the bucket never reaches its capacity no token is lost, so the account is exact without spill |
| `TokenBucketSpec.PassTakesTheAmount` | app/ratelimit.py:44-49 | A pass is granted exactly when the level covers the amount, and then takes exactly the amount; a refusal takes nothing |
| `TokenBucketSpec.BurstExactly` | app/ratelimit.py:44-49 | k visits of one amount at one moment are all granted if and only if k times the amount is within the level |
| `TokenBucketSpec.NewBucket` | app/ratelimit.py:22-27 | A new bucket is full, of the size given, or of the least size that is at least one and the rate |
| `TokenBucketSpec.SleepIsExact` | app/ratelimit.py:50-52 | The computed wait is the least after which the level reaches the amount, and then it is exactly that |
| `TokenBucketSpec.RefusalsOnlyRefill` | app/ratelimit.py:32-52 | Any number of refused passes in between leave the level what one refill would make it |
| `TokenBucketSpec.SleeperIsServedOrOvertaken` | app/ratelimit.py:41-52 | Progress under contention: a sleep ends with the sleeper's own grant, or somebody else was granted during it |
| `TokenBucketSpec.TooLargeNeverGranted` | app/ratelimit.py:41-52 | An amount above the capacity is never granted, at any time |
| `TokenBucketSpec.SecondPassSuffices` | app/ratelimit.py:41-52 | Alone at the bucket, an amount within the capacity is granted by the second pass, on the first exactly when the level suffices |
| `TokenBucketSpec.TooLargeSleepsOn` | app/ratelimit.py:41-52 | An amount above the capacity is still asleep after any number of passes |
| `TokenBucketSpec.EngineBucketServesExactly` | app/engine.py:145-148 | With limiting on, a call can pass the engine's bucket if and only if burst-or-rate is at least one |
| `TokenBucketSpec.SlowBucketExample` | app/engine.py:145-148 | Half a call per second without a burst: no pass is ever granted |
| `TokenBucket.TokenBucket.constructor` | app/ratelimit.py:22-27 | A full bucket, with the default size when none is given |
| `TokenBucket.TokenBucket.RefillAt` | app/ratelimit.py:32-39 | The first call only sets the clock; later ones add what accrued, up to the capacity |
| `TokenBucket.TokenBucket.TryTake` | app/ratelimit.py:44-51 | One pass under the lock: grant and take the amount, or refuse with the wait; what a pass is worth is `PassTakesTheAmount` and `TokensAreConserved` |
| `TokenBucket.TokenBucket.Acquire` | app/ratelimit.py:41-52 | Alone at the bucket, for every amount and any number of sleeps with any overrun: at once when limiting is off, otherwise the specified passes, sleeps and outcome |
| `Retry.InferWithRetry` | app/engine.py:81-110 | At most max_retries + 1 calls; stops at the first answer that is not a 429 or when calls run out; the sleeps are exactly the specified delays, one per retry |
| `Retry.OutcomeIsDetermined` | app/engine.py:81-110 | Answers and jitter draws fix outcome, attempts and sleeps |
| `Retry.SucceedsExactly` | app/engine.py:96-110 | Success if and only if the first answer other than a 429 comes within the calls and is a completion; exhausted if and only if all allowed calls get 429, after exactly max_retries sleeps |
| `Retry.DelayHonoursHint` | app/engine.py:102-108 | Each delay is the server's hint or the capped doubling of the base plus the drawn jitter, and no less than either |
| `Retry.ExponentialDoubles` | app/engine.py:75 | The exponential part starts at the base and doubles with every retry |
| `Retry.Crossing` | app/engine.py:72-78 | With a positive base there is a retry at which the doubling reaches the cap and before which it is strictly below |
| `Retry.CappedTotalClosedForm` | app/engine.py:72-78 | For every policy the exponential parts sum to a closed form: geometric up to the retry that reaches the cap and then linear, the other way round for a negative base, and linear without a base |
| `Retry.TotalSleep` | app/engine.py:96-110 | For every policy, total sleep is at most that closed form (nothing if base or cap is negative) plus retries times jitter plus the hints |
| `Accounting.GeneratedIdsDiffer` | app/engine.py:222-225 | Prompts without ids, or with empty ones, get pairwise different ids |
| `Accounting.ItemsOfBatch` | app/engine.py:222-225 | One item per prompt, in order and with its text, under the caller's id if it is not empty, else under prompt- and the position counted from one |
| `Accounting.DeadLetterInOrder` | app/models.py:183-189 | The dead letters are exactly the failed results, in submission order |
| `Accounting.DeadLetterCount` | app/models.py:187-189 | There are as many as results that failed |
| `Accounting.EstimateIsLeastFit` | app/engine.py:338-339 | The estimate is the least number of tokens, at least one, that holds the text |
| `Accounting.Round8Close` | app/engine.py:377 | Rounding to eight places moves a cost by at most half a unit |
| `Accounting.Round8IsNearest` | app/engine.py:377 | A listed cost is a whole number of units of the eighth place, the nearest one, the even one on a tie |
| `Accounting.PriceIsLinear` | app/engine.py:365-368 | Cost is additive in the token counts; a thousand input tokens cost the input rate, a thousand output tokens the output rate |
| `Accounting.RoundingDrift` | app/engine.py:363-385 | Listed costs and exact costs differ in total by at most half a unit of the eighth place per success |
| `EnginePool.SpawnKeepsPool` | app/engine.py:301-311 | After `_ensure_workers` at least one and at most pool-size workers live, and permits and sleepers are as before; the exact number is `WorkersMatchTheWork` |
| `EnginePool.TakePermitKeepsPool` | app/engine.py:313-331 | A task going through the gate, whether it blocks, ends or gets busy, leaves the pool invariant intact and no wake-up lost |
| `EnginePool.ReleaseKeepsPool` | app/engine.py:329-331 | Giving a permit back keeps permits accounted for and wakes a sleeper |
| `EnginePool.StepKeepsPool` | app/engine.py:301-331 | Every step keeps: permits in use are the busy workers, waiters are the sleeping ones, no lost wake-up, pending work has a live worker |
| `EnginePool.PoolSafety` | app/engine.py:301-331 | The same along every run, with permits at most min(pool size, global maximum) |
| `EnginePool.PermitsRiseOnlyBelowLimit` | app/ratelimit.py:95-104 | Permits in use rise only below the limit, by one, when a worker starts or wakes; never while at or above it, even after the limit dropped |
| `LimiterSpec.ThrottleLowers` | app/ratelimit.py:113-121 | With a sound factor a throttle never raises the limit, also with a factor below zero or slightly above one |
| `EnginePermits.StepKeepsCovered` | app/ratelimit.py:95-133 | Every step keeps the permits held, promised and about to be asked for at or above the limit while anybody sleeps |
| `EngineRate.OpeningComes` | app/engine.py:333-336 | A bucket that can hold a token opens at some time from any moment on |
| `EngineRate.CallsAreGrants` | app/engine.py:333-336 | The calls of a run are exactly the grants of the bucket to the passes of the run |
| `EngineRate.CallsWithinRate` | app/engine.py:333-336 | Calls in a span of time are bounded by burst plus rate times the span, also for a bucket that holds nothing |
| `EngineRate.CallsAtOnceExactly` | app/engine.py:333-336 | Any number of workers standing at the bucket can start their calls at one moment if and only if the level has a token for each |
| `EngineRate.StepKeepsRate` | app/engine.py:145-148 | Every step keeps the bucket in bounds and, if it cannot hold a token, every job unanswered |
| `EngineRefusals.RefusedIsRipe` | app/ratelimit.py:50-52 | A worker refused now gets its token at the end of its sleep or at any later time, if nobody passes first, and would be refused at every moment before |
| `EngineRefusals.RipeStays` | app/ratelimit.py:41-52 | Refusing one worker takes nothing from another whose sleep was computed before |
| `EngineRefusals.RefusalsBounded` | app/ratelimit.py:41-52 | In every interleaving the refusals number at most the workers not yet due a token plus the pool size for each call let through: between two passes nobody is refused twice |
| `EngineRefusals.RefusedForEver` | app/ratelimit.py:44-52 | At a bucket too small for a token a worker can be refused any number of times |
| `EngineLiveness.WorkerStepCosts` | app/engine.py:313-418 | An explicit measure strictly falls at every step that brings a worker on |
| `EngineLiveness.WorkIsBounded` | app/engine.py:313-418 | In every interleaving the steps that bring workers on number at most the measure plus what accepted submits bring in; refusals at the bucket are bounded by `AllWorkEnds` |
| `EngineLiveness.QuiescentMeansNoWorkers` | app/engine.py:313-331 | If no worker can be brought on, however long one waits, and the bucket can hold a token, none is left, nothing is pending, no permit is held and nobody waits |
| `EngineJobs.PoppedIsNext` | app/engine.py:317-324 | What a worker pops is the next prompt of its job that was not handed out yet |
| `EngineJobs.CompletedCovers` | app/engine.py:416-418 | A completed job has a result at every position and nothing queued or in flight |
| `EngineJobs.StepKeepsJobs` | app/engine.py:341-418 | Every step keeps each job's prompts split between queue, workers, results and interrupted ones, and its state in step with them |
| `EngineBooks.StepKeepsBooks` | app/engine.py:363-402 | Every step keeps each result with its prompt, counters, tokens and cost equal to the sums over the results, and each job's fingerprint that of its payload |
| `EngineBooks.CostWithinRounding` | app/engine.py:363-385 | Job cost and listed costs agree up to half a unit of the eighth place per success |
| `EngineStore.StepKeepsStore` | app/engine.py:184-235 | Every step keeps the active set equal to the running jobs, the admission limits, and the key index in agreement with a scan |
| `EngineStore.LookupIsScan` | app/store.py:42-44 | The index finds exactly the one job carrying the key |
| `EngineStore.StepGrows` | app/engine.py:398-424 | No step changes a job's items, key or fingerprint, overwrites a result, or leaves a final state |
| `EngineStore.FinishKeepsStore` | app/engine.py:286-290 | After the last loop of shutdown every job is finished and none is active |
| `EngineLedger.StepKeepsLedger` | app/engine.py:348-353 | Every step keeps the jobs' retries summing to the retry counter, and each job's retries, spent and still possible, within the budget of the items handed out |
| `EngineTheorems.StepKeepsInv` | app/engine.py:176-424 | All invariants together are inductive over every step |
| `EngineTheorems.RunKeepsInv` | app/engine.py:176-424 | They hold along every run, and jobs only grow |
| `EngineTheorems.ConcurrencyIsBounded` | app/engine.py:301-331 | In every reachable state permits in use are the busy workers and at most min(pool size, global maximum); at most pool-size workers live; the limit is between min(adaptive minimum, global maximum) and the global maximum |
| `EngineTheorems.StartsWideOpen` | app/engine.py:138-144 | The engine starts with the limit at the global maximum and no permit taken |
| `EngineTheorems.LimiterIsWired` | app/engine.py:138-144 | Enough throttles in a row bring the limit to min(adaptive minimum, global maximum) exactly; successes raise it by one per `increase_after`, up to the global maximum |
| `EngineTheorems.FreshWorkerIsAwake` | app/engine.py:333-336 | A worker that has just got an item is at its first attempt and may ask for its token at once |
| `EngineTheorems.NothingIsStranded` | app/ratelimit.py:95-133 | Before the engine stops, pending work has a live worker, a sleeper implies a held permit or a notified one, and while a worker lives some worker can move if the bucket can hold a token |
| `EngineTheorems.NoPermitIdles` | app/ratelimit.py:123-133 | Although limit increases never notify: while somebody sleeps every permit is held, promised to a woken task or about to be taken by a worker on its way in; with none on its way, no permit idles |
| `EngineTheorems.ProviderRateIsKept` | app/engine.py:333-336 | Over every interleaving, the provider calls started between any two times are at most the burst plus the rate times the span |
| `EngineTheorems.BurstIsAvailable` | app/engine.py:145-148 | Before the first call, the workers at the bucket can all start at once if and only if they are no more than the burst, or the rate where none is set |
| `EngineTheorems.SmallBucketAnswersNothing` | app/engine.py:145-148 | If the bucket cannot hold a token, no prompt is answered in any reachable state |
| `EngineTheorems.TotalWorkIsBounded` | app/engine.py:313-418 | From the start, steps that bring workers on never outnumber what the accepted submits brought in |
| `EngineTheorems.AllWorkEnds` | app/engine.py:313-418 | Termination: with a bucket that can hold a token, from every reachable state all steps workers take, refusals included, number at most a bound fixed by the state and by what accepted submits bring in, in every interleaving and for every provider |
| `EngineTheorems.EveryRunEnds` | app/engine.py:313-418 | The same from the start, in terms of what was accepted alone |
| `EngineTheorems.SmallBucketNeverRests` | app/engine.py:145-148 | Without room for a token the bound fails: a worker at the bucket is refused as often as one likes |
| `EngineTheorems.QuiescenceIsCompletion` | app/engine.py:313-418 | With a bucket that can hold a token: when no worker can move there is no worker, permit, sleeper or pending item, and every job not cancelled is completed if and only if it had prompts |
| `EngineTheorems.EmptyBatchNeverFinishes` | app/engine.py:416-418 | A running job without prompts stays running exactly until it is cancelled or shutdown finishes |
| `EngineTheorems.EmptyBatchExample` | app/engine.py:416-418 | Under any settings that admit it, a state is reachable in which all workers are gone, nothing is pending and a job without prompts still runs |
| `EngineTheorems.EveryPromptInOnePlace` | app/engine.py:222-228 | In every reachable state each prompt is in exactly one place: not handed out, with a worker, answered, or interrupted; what waits is the tail of the batch in order; completed = succeeded + failed = number of results; a running job is not complete |
| `EngineTheorems.NoPromptTwice` | app/engine.py:398-402 | No two workers hold the same prompt and none holds an answered one |
| `EngineTheorems.CompletedIsComplete` | app/engine.py:416-418 | A completed job has a result for every prompt, each under its own id and prompt, and nothing elsewhere |
| `EngineTheorems.CancelDropsOnlyTheQueue` | app/engine.py:243-254 | Cancel drops exactly what is queued; workers, results and all other jobs keep theirs |
| `EngineTheorems.TerminalIsFinal` | app/engine.py:243-254 | Completed and cancelled are absorbing along every run, also while late answers land, and no result is ever overwritten |
| `EngineTheorems.ShutdownLeavesNothingRunning` | app/engine.py:272-291 | After shutdown no job runs, none is active, no worker lives, no permit is held |
| `EngineTheorems.AdmissionBounds` | app/engine.py:201-211 | Active jobs and pending items stay within their limits in every reachable state; the active set is the running jobs |
| `EngineTheorems.VerdictIsExact` | app/engine.py:184-211 | In every reachable state a request whose key has no job is accepted if and only if the engine serves, fewer jobs run than allowed and the items queued leave room for it; each refusal has its exact condition |
| `EngineTheorems.WorkersMatchTheWork` | app/engine.py:301-311 | After an accepted submit the live workers number exactly max(live before, min(pool size, max(1, items queued))); old ones are untouched, new ones ready |
| `EngineTheorems.OneJobPerKey` | app/engine.py:188-200 | Once a key has a job, every later request with it, however many steps later and however loaded the engine, gets that job if its payload has the same fingerprint, so always if priority and prompts are the same, and a conflict otherwise; no other job ever carries the key |
| `EngineTheorems.AcceptedTakesItsKey` | app/engine.py:213-228 | An accepted request's key had no job and now has this one: running, with the request's priority, prompts and fingerprint and nothing done; all its items are queued and all other jobs are as before |
| `EngineTheorems.BooksBalance` | app/models.py:160-197 | In every reachable state counters and tokens are sums over the results, dead letters number the failed, and cost agrees with the listed costs up to rounding |
| `EngineTheorems.ReplayIsTheFailedPrompts` | app/engine.py:256-265 | A replay carries exactly the failed prompts in submission order under the same ids, without a key, at the given priority or the job's own; there is none if and only if nothing failed |
| `EngineCalls.WorkerFollowsTheLoop` | app/engine.py:341-402 | The interleaved engine refines the sequential retry loop: from picking up a prompt, a worker stays busy exactly while answers are 429s within the budget; answers, draws and sleeps are those of a run of the loop; the recorded result is a success if and only if the last answer is a completion, with its output, the number of calls and the least token counts, and else a failure with the answer's message and no cost |
| `EngineCalls.ResultTells` | app/engine.py:359-396 | What a final answer is booked as: a completion as a success with output, calls, least token counts and nearest cost; an error or last 429 as a failure with its message, no attempts, tokens or cost |
| `EngineCalls.SuccessIsCompletion` | app/engine.py:379-396 | Over every run from the start, a job's succeeded are exactly its prompts whose final answer was a completion, its failed the others that ended, and its results both together |
| `EngineCalls.BackoffIsKept` | app/engine.py:102-108 | After a 429 within the budget the worker starts no call before the server's hint is over, nor before the base doubled per retry, capped and with its draw, is, in any interleaving |
| `EngineCalls.LimitFollowsTheAnswers` | app/engine.py:348-362 | Along every run limit and streak are the control law applied to the answers in order, and nothing else moves them; the retry counter counts its decreases |
| `EngineCalls.EveryAnswerIsCounted` | app/engine.py:388-396 | Along every run the rate-limited and exhausted counters together grow by the number of 429 answers received |
| `EngineCalls.LedgerBalances` | app/engine.py:348-353 | For every run from the start: 429 answers received = rate-limited + exhausted; the jobs' retries sum to the retry counter and to the limiter's throttles; each job retries at most max_retries times the items handed out |
| `EngineFairness.RunIsHistory` | app/engine.py:176-331 | A run of the engine is a history of scheduler operations with ids never used before |
| `EngineFairness.NoJobStarves` | app/scheduler.py:8-13 | In every interleaving, once more items were popped than the other jobs weigh, arrivals included, a job with prompts waiting has fewer of them waiting, unless cancelled |
| `EngineFairness.JobDrains` | app/scheduler.py:8-13 | Without new jobs, n rounds' worth of pops leave nothing waiting of a job whose prompts fit in n turns of its weight, whoever else is cancelled |
| `EngineFairness.PriorityShares` | app/scheduler.py:8-13 | Over every run of the engine that takes n cycles of items without arrivals, cancels or dry queues, each job hands out exactly 4n, 2n or n items, as its priority says |
| `Store.JobRecord.constructor` | app/engine.py:214-221 | A new running job with empty books |
| `Store.JobRecord.Finish` | app/engine.py:379-418 | Books one result; reports whether it completed a running job |
| `Store.JobRecord.DeadLetters` | app/models.py:183-189 | The loops collect exactly the dead letters |
| `Store.InMemoryJobStore.Create` | app/store.py:31-34 | Stores the job last and indexes a non-empty key; records stay distinct |
| `Store.InMemoryJobStore.FindByKey` | app/store.py:42-44 | The job of the key, if the index and the store have it |
| `Engine.BatchEngine.constructor` | app/engine.py:116-152 | The object starts valid, in the initial state of the machine |
| `Engine.BatchEngine.Guarantees` | app/engine.py:113-153 | The theorems read on the object's fields: permits and admission within bounds, the active set is the running jobs, counters match results, completed jobs have every result, nothing runs after shutdown |
| `Engine.BatchEngine.DropFinished` | app/engine.py:308 | The list keeps exactly the live workers, in order |
| `Engine.BatchEngine.StartWorkers` | app/engine.py:301-311 | The object starts the workers of the specification, whose exact number is `WorkersMatchTheWork` |
| `Engine.BatchEngine.Submit` | app/engine.py:176-235 | The verdict, exact by `VerdictIsExact`, and the new state are those of the submit step; on any other verdict than acceptance the engine, the scheduler and the store are unchanged, the list of workers included |
| `Engine.BatchEngine.ReplayFailed` | app/engine.py:256-270 | Nothing for an unknown job or one without failures; otherwise the submit step of the replay request |
| `Engine.BatchEngine.PopAndProcess` | app/engine.py:316-344 | Pops, then ends, skips a cancelled job or gets busy, as the machine does |
| `Engine.BatchEngine.Start` | app/engine.py:313-331 | A ready worker enters the gate: the start step |
| `Engine.BatchEngine.Wake` | app/engine.py:313-331 | A notified worker re-checks the gate: the wake step |
| `Engine.BatchEngine.Ask` | app/engine.py:333-336 | A worker asks the bucket: its call starts exactly when the bucket grants a token or there is no limit, otherwise it sleeps for the computed wait |
| `Engine.BatchEngine.Reply` | app/engine.py:348-418 | Success, exhausted or other failure, and retry: the reply step in all cases; what it books is `ResultTells` and `SuccessIsCompletion` |
| `Engine.BatchEngine.BackOff` | app/engine.py:102-108 | A retried 429: counted, throttled, asleep for the longer of backoff and hint |
| `Engine.BatchEngine.Record` | app/engine.py:398-424 | Books the result, finalises a job whose last prompt it was, releases the permit |
| `Engine.BatchEngine.Cancel` | app/engine.py:243-254 | Nothing for an unknown job, false for a finished one, true when cancelled; the cancel step |
| `Engine.BatchEngine.GraceOver` | app/engine.py:276-283 | The loop asks every live worker to stop, and only listed ones |
| `Engine.BatchEngine.Kill` | app/engine.py:282-284 | A cancelled worker leaves the waiters or gives its permit back |
| `Engine.BatchEngine.FinishShutdown` | app/engine.py:286-290 | The loop over all jobs cancels exactly the unfinished ones |

## Left out

- `Accounting.EstimateIsLeastFit`: a zero `chars_per_token`, which makes every success fail, is outside the model.
- `EngineLedger.StepKeepsLedger`: counts the metrics of the 429 ledger only; other metrics, gauges, histograms and logs would add easy members.
- `EngineLiveness.WorkIsBounded`: does not count refused passes at the token bucket; `AllWorkEnds` does.
- `TokenBucket.TokenBucket.Acquire`: gives up after a given number of sleeps, of any length of list; the loop of the source need not end.
- What task cancellation does inside the condition variable, a second concurrent shutdown, and lock fairness belong to asyncio.
- Hashing and JSON inside the request fingerprint: it is an arbitrary function of the payload, so distinct payloads with one fingerprint are not excluded.
- Timestamps, durations, percentages and the progress snapshot are presentation.
- The HTTP layer, uploads, streaming, configuration reading, the mock and real providers, UI and deployment files.
- `ordered_results` sorts the keys it finds; the model walks the positions of the batch, which every reachable job's keys stay within.
