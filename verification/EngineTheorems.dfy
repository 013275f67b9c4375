/**
 What holds of the engine over whole runs, from start to shutdown.
 */
module EngineTheorems {
  import opened Models
  import opened Accounting
  import opened EngineSpec
  import opened EnginePool
  import opened EnginePermits
  import opened EngineRate
  import opened EngineRefusals
  import opened EngineLiveness
  import opened EngineJobs
  import opened EngineBooks
  import opened EngineStore
  import opened EngineLedger
  import S = SchedulerSpec
  import G = LimiterSpec
  import B = TokenBucketSpec
  import R = Retry

  /** Once stopped, no worker is left. */
  predicate StoppedOk(s: State) {
    s.phase == Stopped ==> forall t :: 0 <= t < |s.tasks| ==> s.tasks[t].Done?
  }

  ghost predicate Inv(c: Settings, s: State) {
    && PoolInv(c, s) && AttemptsOk(c, s) && JobsInv(s) && BooksInv(c, s) && StoreInv(c, s) && LedgerInv(c, s)
    && Covered(s) && RateInv(c, s) && StoppedOk(s)
  }

  lemma InitInv(c: Settings)
    requires Usable(c)
    ensures Inv(c, Init(c))
  {
    InitPool(c);
    InitJobs(c);
    assert RetryTotal([], map[]) == 0;
  }

  lemma StepKeepsInv(c: Settings, s: State, step: Step)
    requires Usable(c) && Inv(c, s) && Enabled(s, step)
    ensures Inv(c, Next(c, s, step)) && Grows(s, Next(c, s, step))
  {
    StepKeepsPool(c, s, step);
    StepKeepsCovered(c, s, step);
    StepKeepsRate(c, s, step);
    StepKeepsAttempts(c, s, step);
    StepKeepsJobs(c, s, step);
    StepKeepsBooks(c, s, step);
    StepKeepsStore(c, s, step);
    StepKeepsLedger(c, s, step);
    StepGrows(c, s, step);
    StepKeepsStopped(c, s, step);
  }

  lemma StepKeepsStopped(c: Settings, s: State, step: Step)
    requires Usable(c) && StoppedOk(s) && Enabled(s, step)
    ensures StoppedOk(Next(c, s, step))
  {
    match step
    case Start(t) => TakePermitFrame(s, t);
    case Wake(t) => TakePermitFrame(Unwait(s, t), t);
    case _ =>
  }

  /** Every run keeps the invariant, and jobs only ever grow along it. */
  lemma {:induction false} RunKeepsInv(c: Settings, s: State, steps: seq<Step>)
    requires Usable(c) && Inv(c, s) && Runnable(c, s, steps)
    ensures Inv(c, Run(c, s, steps)) && Grows(s, Run(c, s, steps))
    decreases |steps|
  {
    if steps != [] {
      var next := Next(c, s, steps[0]);
      StepKeepsInv(c, s, steps[0]);
      RunKeepsInv(c, next, steps[1..]);
      GrowsTrans(s, next, Run(c, s, steps));
    } else {
      SameJobsGrow(s, s);
    }
  }

  /** A state some run from the start leads to. */
  ghost predicate Reachable(c: Settings, s: State)
    requires c.charsPerToken != 0.0
  {
    exists steps :: Runnable(c, Init(c), steps) && Run(c, Init(c), steps) == s
  }

  lemma StartIsReachable(c: Settings)
    requires c.charsPerToken != 0.0
    ensures Reachable(c, Init(c))
  {
    assert Runnable(c, Init(c), []) && Run(c, Init(c), []) == Init(c);
  }

  lemma {:induction false} RunSnoc(c: Settings, s: State, steps: seq<Step>, step: Step)
    requires c.charsPerToken != 0.0 && Runnable(c, s, steps) && Enabled(Run(c, s, steps), step)
    ensures Runnable(c, s, steps + [step]) && Run(c, s, steps + [step]) == Next(c, Run(c, s, steps), step)
    decreases |steps|
  {
    if steps == [] {
      assert [] + [step] == [step] && [step][1..] == [];
    } else {
      assert (steps + [step])[1..] == steps[1..] + [step];
      RunSnoc(c, Next(c, s, steps[0]), steps[1..], step);
    }
  }

  lemma ReachableNext(c: Settings, s: State, step: Step)
    requires c.charsPerToken != 0.0 && Reachable(c, s) && Enabled(s, step)
    ensures Reachable(c, Next(c, s, step))
  {
    var steps :| Runnable(c, Init(c), steps) && Run(c, Init(c), steps) == s;
    RunSnoc(c, Init(c), steps, step);
  }

  lemma StepFromReachable(c: Settings, s: State, step: Step)
    requires Usable(c) && Reachable(c, s) && Enabled(s, step)
    ensures AttemptsOk(c, s) && Grows(s, Next(c, s, step))
  {
    ReachableInv(c, s);
    StepKeepsInv(c, s, step);
  }

  lemma ReachableInv(c: Settings, s: State)
    requires Usable(c) && Reachable(c, s)
    ensures Inv(c, s)
  {
    InitInv(c);
    var steps :| Runnable(c, Init(c), steps) && Run(c, Init(c), steps) == s;
    RunKeepsInv(c, Init(c), steps);
  }

  lemma ReachablePool(c: Settings, s: State)
    requires Usable(c) && Reachable(c, s)
    ensures PoolInv(c, s) && AttemptsOk(c, s)
  {
    ReachableInv(c, s);
  }

  lemma ReachableRate(c: Settings, s: State)
    requires Usable(c) && Reachable(c, s)
    ensures RateInv(c, s) && Covered(s)
  {
    ReachableInv(c, s);
  }

  lemma ReachableJobs(c: Settings, s: State)
    requires Usable(c) && Reachable(c, s)
    ensures JobsInv(s)
  {
    ReachableInv(c, s);
  }

  lemma ReachableBooks(c: Settings, s: State)
    requires Usable(c) && Reachable(c, s)
    ensures BooksInv(c, s)
  {
    ReachableInv(c, s);
  }

  lemma ReachableStore(c: Settings, s: State)
    requires Usable(c) && Reachable(c, s)
    ensures StoreInv(c, s) && SchedOk(s)
  {
    ReachableInv(c, s);
  }

  /** What a run from a reachable state leads to, for the store. */
  lemma RunFromReachable(c: Settings, s: State, steps: seq<Step>)
    requires Usable(c) && Reachable(c, s) && Runnable(c, s, steps)
    ensures KeysOk(s) && KeysOk(Run(c, s, steps)) && Grows(s, Run(c, s, steps))
  {
    ReachableInv(c, s);
    RunKeepsInv(c, s, steps);
  }

  // ---------------------------------------------------------------- permits and workers

  /** Permits in use are the busy workers and respect both caps; the pool is bounded. */
  lemma ConcurrencyIsBounded(c: Settings, s: State)
    requires Usable(c) && Reachable(c, s)
    ensures s.gate.inUse == Sum(Holding, s.tasks) <= Min(c.workerPoolSize, c.globalMaxConcurrency)
    ensures Sum(Live, s.tasks) <= c.workerPoolSize
    ensures 1 <= Min(c.adaptiveMinConcurrency, c.globalMaxConcurrency) <= s.gate.limit <= c.globalMaxConcurrency
  {
    ReachablePool(c, s);
    UsableGate(c);
    SumLe(Holding, Live, s.tasks);
  }

  /** The engine starts with all permits of the global maximum, none of them taken. */
  lemma StartsWideOpen(c: Settings)
    requires Usable(c)
    ensures Init(c).gate == G.Gate(c.globalMaxConcurrency, 0, 0, [])
  {
  }

  /**
   The limiter works to the configured bounds: enough throttles in a row bring it to the
   smaller of adaptive minimum and global maximum, enough successes back to the maximum.
   */
  lemma LimiterIsWired(c: Settings, g: G.Gate, k: nat)
    requires Usable(c) && G.InBounds(GateParams(c), g)
    ensures c.decreaseFactor < 1.0 && k >= c.globalMaxConcurrency ==>
              G.AdjustAll(GateParams(c), g, G.Repeat(G.Throttled, k)).limit
              == Min(c.adaptiveMinConcurrency, c.globalMaxConcurrency)
    ensures G.AdjustAll(GateParams(c), g, G.Repeat(G.Succeeded, k)).limit
            == Min(c.globalMaxConcurrency, g.limit + (g.streak + k) / c.increaseAfter)
  {
    if c.decreaseFactor < 1.0 && k >= c.globalMaxConcurrency { G.ThrottledToTheFloor(GateParams(c), g, k); }
    G.SuccessesInARow(GateParams(c), g, k);
  }

  /** If the worker has an item, it is at its first attempt, at the bucket, and not asleep. */
  predicate Awake(s: State, t: nat) {
    && t < |s.tasks|
    && (s.tasks[t].Busy? ==> s.tasks[t].phase == AtBucket && s.tasks[t].attempt == 1 && s.tasks[t].due <= s.clock)
  }

  /** A worker that has just got an item may ask for its token at once. */
  lemma FreshWorkerIsAwake(c: Settings, s: State, t: nat, step: Step)
    requires Usable(c) && Reachable(c, s) && Enabled(s, step) && (step == Start(t) || step == Wake(t))
    ensures Awake(Next(c, s, step), t)
  {
    assert s.clock >= 0.0 by { ReachableRate(c, s); }
    if step == Start(t) { FreshItem(s, t); } else { FreshItem(Unwait(s, t), t); }
  }

  lemma FreshItem(s: State, t: nat)
    requires t < |s.tasks| && !s.tasks[t].Busy? && s.clock >= 0.0
    ensures Awake(TakePermit(s, t), t)
  {
  }

  /** Before the engine stops, pending work has a live worker and nobody sleeps for ever. */
  lemma NothingIsStranded(c: Settings, s: State)
    requires Usable(c) && Reachable(c, s) && Working(s)
    ensures s.sched.pending > 0 ==> exists t :: 0 <= t < |s.tasks| && !s.tasks[t].Done?
    ensures G.AnyAsleep(s.gate.waiters) ==>
              (exists t :: 0 <= t < |s.tasks| && s.tasks[t].Busy?) || G.AnyNotified(s.gate.waiters)
    ensures Sum(Live, s.tasks) > 0 && Serves(c) ==> !Quiescent(s)
  {
    ReachablePool(c, s);
    if Sum(Live, s.tasks) > 0 {
      var t := SumPositive(Live, s.tasks);
      assert !s.tasks[t].Done?;
      if Serves(c) && Quiescent(s) {
        WorkersKnown(c, s);
        ReachableRate(c, s);
        QuiescentMeansNoWorkers(c, s);
      }
    }
    if s.gate.inUse > 0 { var t := SumPositive(Holding, s.tasks); assert s.tasks[t].Busy?; }
  }

  /**
   No permit idles beside a sleeper, although raising the limit notifies nobody: while
   somebody sleeps, every permit is held, promised to a woken task, or about to be taken by a
   worker on its way in.
   */
  lemma NoPermitIdles(c: Settings, s: State)
    requires Usable(c) && Reachable(c, s) && Working(s)
    ensures G.AnyAsleep(s.gate.waiters) ==> Claims(s) >= s.gate.limit
    ensures (forall t :: 0 <= t < |s.tasks| ==> !s.tasks[t].Ready?) ==> G.WorkConserving(s.gate)
  {
    ReachableRate(c, s);
    if Sum(Arriving, s.tasks) > 0 { var t := SumPositive(Arriving, s.tasks); }
  }

  /**
   The provider's rate limit: whatever the interleaving, the calls started between any two
   times are at most the burst plus the rate times the span.
   */
  lemma ProviderRateIsKept(c: Settings, s: State, steps: seq<Step>, from: real, to: real)
    requires Usable(c) && Reachable(c, s) && Runnable(c, s, steps) && c.rps > 0.0 && from <= to
    ensures CallsBetween(c, s, steps, from, to) as real
            <= MaxReal(0.0, if c.burst != 0.0 then c.burst else c.rps) + B.Accrued(c.rps, to - from)
  {
    ReachableRate(c, s);
    CallsWithinRate(c, s, steps, from, to);
  }

  /**
   The whole burst is there: before the first call, the workers standing at the bucket can all
   start at once exactly if they are no more than the burst, or the rate where none is set.
   */
  lemma BurstIsAvailable(c: Settings, s: State, ts: seq<nat>)
    requires Usable(c) && Reachable(c, s) && c.rps > 0.0 && Asking(s, ts) && ts != [] && s.bucket.last == None
    ensures Runnable(c, s, Admits(ts)) <==> |ts| as real <= (if c.burst != 0.0 then c.burst else c.rps)
  {
    ReachableRate(c, s);
    CallsAtOnceExactly(c, s, ts);
  }

  /** With a bucket too small for one token no prompt is ever answered. */
  lemma SmallBucketAnswersNothing(c: Settings, s: State, id: JobId)
    requires Usable(c) && Reachable(c, s) && !Serves(c) && id in s.jobs
    ensures s.jobs[id].completed == 0 && s.jobs[id].results == map[] && s.jobs[id].state != Completed
  {
    ReachableRate(c, s);
    assert |s.jobs[id].results| == s.jobs[id].completed by {
      ReachableJobs(c, s);
      assert JobAt(s, id);
    }
  }

  lemma WorkersKnown(c: Settings, s: State)
    requires Usable(c) && Reachable(c, s)
    ensures JobsKnown(s)
  {
    ReachableJobs(c, s);
    forall t | 0 <= t < |s.tasks| && s.tasks[t].Busy? ensures s.tasks[t].job in s.jobs { assert TaskOk(s, s.tasks[t]); }
  }

  /** From the start, worker steps never outnumber what the accepted submits brought in. */
  lemma TotalWorkIsBounded(c: Settings, steps: seq<Step>)
    requires Usable(c) && Runnable(c, Init(c), steps)
    ensures WorkerSteps(steps) <= TotalIntake(c, Init(c), steps)
  {
    InitInv(c);
    WorkIsBounded(c, Init(c), steps);
  }

  lemma {:induction false} AdmissionsAreWork(steps: seq<Step>)
    ensures Admissions(steps) <= WorkerSteps(steps)
  {
    if steps != [] { AdmissionsAreWork(steps[1..]); }
  }

  /**
   All work ends: from any reachable state, in every interleaving and however the provider
   answers, the steps workers take, refusals at the bucket included, number at most a bound
   fixed by the state and by what accepted submits bring in. The bucket must be able to hold
   a token; otherwise workers are refused for ever (`RefusedForEver`).
   */
  lemma AllWorkEnds(c: Settings, s: State, steps: seq<Step>)
    requires Usable(c) && Serves(c) && Reachable(c, s) && Runnable(c, s, steps)
    ensures var work := Measure(c, s) + TotalIntake(c, s, steps);
            WorkerSteps(steps) + Refusals(steps) <= work + c.workerPoolSize * (work + 1)
  {
    var w, work := c.workerPoolSize, Measure(c, s) + TotalIntake(c, s, steps);
    ReachablePool(c, s);
    ReachableRate(c, s);
    WorkIsBounded(c, s, steps);
    RefusalsBounded(c, s, steps);
    UnripeNonNegative(c, s);
    AdmissionsAreWork(steps);
    MulLe(Admissions(steps), work, w);
    OneMorePass(w, work);
  }

  /** The same for whole runs from the start, bounded by what was accepted. */
  lemma EveryRunEnds(c: Settings, steps: seq<Step>)
    requires Usable(c) && Serves(c) && Runnable(c, Init(c), steps)
    ensures var work := TotalIntake(c, Init(c), steps);
            WorkerSteps(steps) + Refusals(steps) <= work + c.workerPoolSize * (work + 1)
  {
    StartIsReachable(c);
    AllWorkEnds(c, Init(c), steps);
    assert Measure(c, Init(c)) == 0;
  }

  /** At a bucket that cannot hold a token the bound fails: refusals go on as long as one likes. */
  lemma SmallBucketNeverRests(c: Settings, s: State, t: nat, n: nat)
    requires Usable(c) && !Serves(c) && Reachable(c, s) && BusyIn(s, t, AtBucket)
    ensures exists steps :: Runnable(c, s, steps) && Refusals(steps) == n
  {
    ReachableRate(c, s);
    var steps := RefusedForEver(c, s, t, n);
  }

  /**
   When no worker can move, all is done: no worker, no permit, no sleeper, nothing pending,
   and every job is finished, except those submitted with no prompts at all. The bucket must
   be able to hold a token: without that nothing is ever answered.
   */
  lemma QuiescenceIsCompletion(c: Settings, s: State)
    requires Usable(c) && Reachable(c, s) && Working(s) && Quiescent(s) && Serves(c)
    ensures Sum(Live, s.tasks) == 0 && s.gate.inUse == 0 && s.gate.waiters == [] && s.sched.pending == 0
    ensures forall id :: id in s.jobs && s.jobs[id].state != Cancelled ==>
              (s.jobs[id].state == Completed <==> s.jobs[id].total > 0)
              && (s.jobs[id].state == Running <==> s.jobs[id].total == 0)
  {
    ReachablePool(c, s);
    WorkersKnown(c, s);
    ReachableRate(c, s);
    QuiescentMeansNoWorkers(c, s);
    if Sum(Live, s.tasks) > 0 { var t := SumPositive(Live, s.tasks); }
    S.PopEffect(s.sched);
    ReachableJobs(c, s);
    forall id | id in s.jobs && s.jobs[id].state != Cancelled
      ensures (s.jobs[id].state == Completed <==> s.jobs[id].total > 0)
              && (s.jobs[id].state == Running <==> s.jobs[id].total == 0)
    {
      DrainedJob(s, id);
    }
  }

  /** A job with nothing queued and nobody working on it has all its answers. */
  lemma DrainedJob(s: State, id: JobId)
    requires JobsInv(s) && Working(s) && id in s.jobs && s.jobs[id].state != Cancelled
    requires S.ItemsOf(s.sched.queues, id) == [] && forall t :: 0 <= t < |s.tasks| ==> s.tasks[t].Done?
    ensures s.jobs[id].total > 0 ==> s.jobs[id].state == Completed
    ensures s.jobs[id].total == 0 ==> s.jobs[id].state == Running
  {
    assert JobAt(s, id);
    assert InFlight(s.tasks, id) == {};
    DrainedPlace(s.jobs[id], s.phase);
  }

  lemma DrainedPlace(job: Job, phase: Phase)
    requires PlaceOk(job, [], {}, phase) && job.state != Cancelled && (phase == Serving || phase == Draining)
    ensures job.total > 0 ==> job.state == Completed
    ensures job.total == 0 ==> job.state == Running
  {
    assert job.dequeued == job.total;
    assert job.lost == {};
    assert job.results.Keys == Range(job.total);
    assert |job.results.Keys| == |job.results|;
  }

  /** A running job without prompts stays so until it is cancelled or the engine shuts down. */
  lemma EmptyBatchNeverFinishes(c: Settings, s: State, id: JobId, step: Step)
    requires Usable(c) && Reachable(c, s) && id in s.jobs && s.jobs[id].total == 0 && s.jobs[id].state == Running
    requires Enabled(s, step)
    ensures id in Next(c, s, step).jobs
    ensures Next(c, s, step).jobs[id].state == Running <==> step != Cancel(id) && step != FinishShutdown
  {
    forall t | 0 <= t < |s.tasks| ensures !Carries(s.tasks[t], id) {
      ReachableJobs(c, s);
      if s.tasks[t].Busy? { HeldItem(s, t); }
    }
    StepOnEmpty(c, s, id, step);
  }

  /** An accepted batch of no prompts: its worker has come and gone, and the job still runs. */
  lemma EmptyBatchExample(c: Settings)
    requires Usable(c) && c.maxActiveJobs >= 1 && c.maxQueueSize >= 0
    ensures exists s :: Reachable(c, s) && Sum(Live, s.tasks) == 0 && s.sched.pending == 0
                        && "a" in s.jobs && s.jobs["a"].state == Running && s.jobs["a"].total == 0
  {
    var req := Request([], Normal, None);
    var s1 := Next(c, Init(c), Submit(req, "a"));
    StartIsReachable(c);
    ReachableNext(c, Init(c), Submit(req, "a"));
    assert s1.tasks == [Ready] by {
      assert Readies(1) == [Ready];
      assert Sum(Live, []) == 0;
      assert SpawnCount(c, 0, 0) == 1;
    }
    UsableGate(c);
    var s2 := Next(c, s1, Start(0));
    ReachableNext(c, s1, Start(0));
    assert s1.sched.queues == [S.Queue("a", 2, [], 2)];
    assert S.Undrained(s1.sched.queues) == [];
    assert s2.tasks == [Done];
  }

  lemma StepOnEmpty(c: Settings, s: State, id: JobId, step: Step)
    requires Usable(c) && id in s.jobs && s.jobs[id].state == Running
    requires Enabled(s, step) && forall t :: 0 <= t < |s.tasks| ==> !Carries(s.tasks[t], id)
    ensures id in Next(c, s, step).jobs
    ensures Next(c, s, step).jobs[id].state == Running <==> step != Cancel(id) && step != FinishShutdown
  {
    match step
    case Start(t) => TakePermitFrame(s, t);
    case Wake(t) => TakePermitFrame(Unwait(s, t), t);
    case Reply(t, outcome) => AnswerOthers(c, s, t, outcome, id);
    case _ =>
  }

  lemma AnswerOthers(c: Settings, s: State, t: nat, outcome: Outcome, id: JobId)
    requires Usable(c) && Enabled(s, Reply(t, outcome)) && id in s.jobs && id != s.tasks[t].job
    ensures id in Answer(c, s, t, outcome).jobs && Answer(c, s, t, outcome).jobs[id] == s.jobs[id]
  {
  }

  // ---------------------------------------------------------------- jobs

  /** The positions of a job's prompts still waiting in the scheduler. */
  function Queued(s: State, id: JobId): set<nat> {
    set i | 0 <= i < |S.ItemsOf(s.sched.queues, id)| :: S.ItemsOf(s.sched.queues, id)[i].index
  }

  /** The positions not handed out yet: a tail of the batch. */
  function Rest(job: Job): set<nat> {
    set k | k in Range(job.total) && k >= job.dequeued
  }

  /** Every position below `n` is in exactly one of the four sets, and nothing else is. */
  ghost predicate Divided(n: nat, a: set<nat>, b: set<nat>, c: set<nat>, d: set<nat>) {
    && (forall k: nat :: k < n <==> k in a || k in b || k in c || k in d)
    && a !! b && a !! c && a !! d && b !! c && b !! d && c !! d
  }

  /**
   Each prompt of a job is at all times in exactly one place: not handed out, with a worker,
   answered, or interrupted by a shutdown. Those not handed out wait in the scheduler, in
   order, unless a cancel dropped them; a running job has something left to do.
   */
  lemma EveryPromptInOnePlace(c: Settings, s: State, id: JobId)
    requires Usable(c) && Reachable(c, s) && id in s.jobs
    ensures var job := s.jobs[id];
            && Divided(job.total, Rest(job), InFlight(s.tasks, id), job.results.Keys, job.lost)
            && Queued(s, id) == (if job.dropped then {} else Rest(job))
            && job.dequeued <= |job.items| == job.total
            && S.ItemsOf(s.sched.queues, id) == (if job.dropped then [] else job.items[job.dequeued..])
            && job.completed == job.succeeded + job.failed == |job.results|
            && (job.dropped ==> job.state == Cancelled)
            && (job.state == Running ==> job.completed < job.total || job.total == 0)
            && (Working(s) ==> job.lost == {})
  {
    assert s.jobs[id].completed == s.jobs[id].succeeded + s.jobs[id].failed by {
      ReachableBooks(c, s);
      assert BooksOk(c, s.jobs[id]);
    }
    assert PlaceOk(s.jobs[id], S.ItemsOf(s.sched.queues, id), InFlight(s.tasks, id), s.phase) by {
      ReachableJobs(c, s);
      assert JobAt(s, id);
    }
    PlacesJoin(s.jobs[id], InFlight(s.tasks, id));
    QueuedTail(s.jobs[id], S.ItemsOf(s.sched.queues, id));
  }

  lemma PlacesJoin(job: Job, flying: set<nat>)
    requires Partition(job, flying) && job.dequeued <= job.total
    ensures Divided(job.total, Rest(job), flying, job.results.Keys, job.lost)
  {
  }

  lemma QueuedTail(job: Job, queue: seq<WorkItem>)
    requires ShapeOk(job) && QueueTail(job, queue)
    ensures (set i | 0 <= i < |queue| :: queue[i].index) == if job.dropped then {} else Rest(job)
  {
    var queued := set i | 0 <= i < |queue| :: queue[i].index;
    if !job.dropped {
      forall k: nat ensures k in queued <==> k in Rest(job) {
        if job.dequeued <= k < job.total {
          assert queue[k - job.dequeued] == job.items[k];
          assert queue[k - job.dequeued].index == k;
        }
      }
    }
  }

  /** No two workers ever hold the same prompt, and none holds one already answered. */
  lemma NoPromptTwice(c: Settings, s: State, t: nat, u: nat)
    requires Usable(c) && Reachable(c, s) && t < u < |s.tasks| && s.tasks[t].Busy? && s.tasks[u].Busy?
    ensures s.tasks[t].job == s.tasks[u].job ==> s.tasks[t].item.index != s.tasks[u].item.index
    ensures s.tasks[t].job in s.jobs && s.tasks[t].item.index !in s.jobs[s.tasks[t].job].results
  {
    ReachableJobs(c, s);
    assert Apart(s.tasks[t], s.tasks[u]);
    HeldItem(s, t);
  }

  /** A completed job has an answer for every prompt, and nothing left anywhere else. */
  lemma CompletedIsComplete(c: Settings, s: State, id: JobId)
    requires Usable(c) && Reachable(c, s) && id in s.jobs && s.jobs[id].state == Completed
    ensures var job := s.jobs[id];
            && job.results.Keys == Range(job.total) && job.completed == job.total > 0
            && InFlight(s.tasks, id) == {} && S.ItemsOf(s.sched.queues, id) == []
            && |job.items| == job.total
            && forall k :: 0 <= k < job.total ==>
                 job.results[k].id == job.items[k].id && job.results[k].prompt == job.items[k].prompt
  {
    ReachableJobs(c, s);
    assert JobAt(s, id);
    CompletedCovers(s, id);
    ReachableBooks(c, s);
    assert BooksOk(c, s.jobs[id]);
    var job := s.jobs[id];
    forall k | 0 <= k < job.total
      ensures job.results[k].id == job.items[k].id && job.results[k].prompt == job.items[k].prompt
    {
      assert k in job.results && ResultFits(c, job.results[k], job.items[k]);
    }
  }

  /** Cancelling drops what is queued and nothing else: workers and results keep theirs. */
  lemma CancelDropsOnlyTheQueue(c: Settings, s: State, id: JobId)
    requires Usable(c) && Reachable(c, s) && id in s.jobs && s.jobs[id].state == Running
    ensures var s' := Next(c, s, Cancel(id));
            && S.ItemsOf(s'.sched.queues, id) == []
            && s'.sched.pending == s.sched.pending - (s.jobs[id].total - s.jobs[id].dequeued)
            && InFlight(s'.tasks, id) == InFlight(s.tasks, id)
            && s'.jobs[id] == s.jobs[id].(state := Cancelled, dropped := true)
            && (forall j :: j != id ==> S.ItemsOf(s'.sched.queues, j) == S.ItemsOf(s.sched.queues, j))
            && (forall j :: j in s.jobs && j != id ==> s'.jobs[j] == s.jobs[j])
  {
    assert |S.ItemsOf(s.sched.queues, id)| == s.jobs[id].total - s.jobs[id].dequeued by {
      ReachableJobs(c, s);
      assert JobAt(s, id);
    }
    assert SchedOk(s) by { ReachableStore(c, s); }
    CancelCore(s, id);
  }

  lemma CancelCore(s: State, id: JobId)
    requires SchedOk(s) && id in s.jobs && s.jobs[id].state == Running
    ensures var s' := CancelJob(s, id);
            && S.ItemsOf(s'.sched.queues, id) == []
            && s'.sched.pending == s.sched.pending - |S.ItemsOf(s.sched.queues, id)|
            && (forall j :: j != id ==> S.ItemsOf(s'.sched.queues, j) == S.ItemsOf(s.sched.queues, j))
  {
    S.RemoveEffect(s.sched.queues, id);
  }

  /** Completed and cancelled are final, answers are never overwritten, along every run. */
  lemma TerminalIsFinal(c: Settings, s: State, steps: seq<Step>, id: JobId)
    requires Usable(c) && Reachable(c, s) && Runnable(c, s, steps) && id in s.jobs
    ensures var s' := Run(c, s, steps);
            && id in s'.jobs
            && (Finished(s.jobs[id].state) ==> s'.jobs[id].state == s.jobs[id].state)
            && (forall k :: k in s.jobs[id].results ==>
                  k in s'.jobs[id].results && s'.jobs[id].results[k] == s.jobs[id].results[k])
            && s'.jobs[id].items == s.jobs[id].items
  {
    RunFromReachable(c, s, steps);
    assert JobGrows(s.jobs[id], Run(c, s, steps).jobs[id]);
  }

  /** After shutdown no job runs, no worker lives, no permit is held. */
  lemma ShutdownLeavesNothingRunning(c: Settings, s: State)
    requires Usable(c) && Reachable(c, s) && s.phase == Stopped
    ensures s.active == {} && forall id :: id in s.jobs ==> Finished(s.jobs[id].state)
    ensures s.gate.inUse == 0 && Sum(Live, s.tasks) == 0
  {
    ReachableInv(c, s);
    forall id | id in s.jobs ensures Finished(s.jobs[id].state) { assert JobAt(s, id); }
    if Sum(Holding, s.tasks) > 0 { var t := SumPositive(Holding, s.tasks); }
    if Sum(Live, s.tasks) > 0 { var t := SumPositive(Live, s.tasks); }
  }

  // ---------------------------------------------------------------- admission and idempotency

  /** Admission limits hold in every reachable state, and the active set is the running jobs. */
  lemma AdmissionBounds(c: Settings, s: State)
    requires Usable(c) && Reachable(c, s)
    ensures |s.active| <= Max(0, c.maxActiveJobs) && s.sched.pending <= Max(0, c.maxQueueSize)
    ensures s.sched.pending == S.TotalItems(s.sched.queues)
    ensures s.active == set id | id in s.jobs && s.jobs[id].state == Running
  {
    ReachableStore(c, s);
  }

  /** The request carries the payload the job was made from. */
  predicate SamePayload(req: Request, job: Job) {
    req.priority == job.priority && req.prompts == job.prompts
  }

  /** What a request with the key of the job `id` is told. */
  function KeyVerdict(c: Settings, s: State, id: JobId, req: Request): Verdict
    requires id in s.jobs
  {
    if s.phase != Serving then ShuttingDown
    else if Fingerprint(c, req) == c.hash(s.jobs[id].priority, s.jobs[id].prompts) then Reused(id)
    else Conflict
  }

  /**
   Exactly-once submit: once a key has a job, every later request with that key, however many
   steps later and however loaded the engine, gets that same job if its payload has the
   fingerprint of the job's payload, so always if it is the same payload, and a conflict
   otherwise, until the engine stops accepting. No other job ever carries the key.
   */
  lemma OneJobPerKey(c: Settings, s: State, steps: seq<Step>, key: string, id: JobId, req: Request)
    requires Usable(c) && Reachable(c, s) && Runnable(c, s, steps) && key != ""
    requires Lookup(s, key) == Some(id) && req.key == Some(key)
    ensures var s' := Run(c, s, steps);
            && Lookup(s', key) == Some(id)
            && (forall j :: j in s'.jobs && s'.jobs[j].key == Some(key) ==> j == id)
            && Judge(c, s', req) == KeyVerdict(c, s', id, req)
            && s'.jobs[id].prompts == s.jobs[id].prompts && s'.jobs[id].priority == s.jobs[id].priority
            && (SamePayload(req, s.jobs[id]) && s'.phase == Serving ==> Judge(c, s', req) == Reused(id))
  {
    RunFromReachable(c, s, steps);
    assert Signed(c, s.jobs[id]) by {
      ReachableBooks(c, s);
      assert BooksOk(c, s.jobs[id]);
    }
    KeyOutlives(c, s, Run(c, s, steps), key, id, req);
  }

  lemma KeyOutlives(c: Settings, s: State, s': State, key: string, id: JobId, req: Request)
    requires KeysOk(s) && KeysOk(s') && Grows(s, s') && key != ""
    requires Lookup(s, key) == Some(id) && req.key == Some(key) && Signed(c, s.jobs[id])
    ensures Lookup(s', key) == Some(id)
    ensures forall j :: j in s'.jobs && s'.jobs[j].key == Some(key) ==> j == id
    ensures s'.jobs[id].prompts == s.jobs[id].prompts && s'.jobs[id].priority == s.jobs[id].priority
    ensures Judge(c, s', req) == KeyVerdict(c, s', id, req)
  {
    assert JobGrows(s.jobs[id], s'.jobs[id]);
    LookupIsScan(s', key);
  }

  /** A running job for the request, with nothing done yet. */
  predicate Fresh(c: Settings, job: Job, req: Request) {
    && job.state == Running && job.priority == req.priority && job.prompts == req.prompts && job.key == req.key
    && job.total == |req.prompts| && job.fingerprint == c.hash(req.priority, req.prompts)
    && job.completed == job.succeeded == job.failed == job.retries == 0 && job.results == map[]
    && job.inputTokens == job.outputTokens == 0 && job.cost == 0.0
  }

  /**
   The exact verdict on a request whose key, if any, has no job, in every reachable state: by
   the phase, the number of running jobs and the number of items queued.
   */
  lemma VerdictIsExact(c: Settings, s: State, req: Request)
    requires Usable(c) && Reachable(c, s)
    requires forall id :: id in s.jobs && Keyed(req.key) ==> s.jobs[id].key != req.key
    ensures var running, queued := |set id | id in s.jobs && s.jobs[id].state == Running|, S.TotalItems(s.sched.queues);
            var room, fits := running < c.maxActiveJobs, queued + |req.prompts| <= c.maxQueueSize;
            && (Judge(c, s, req) == ShuttingDown <==> s.phase != Serving)
            && (Judge(c, s, req) == Overloaded <==> s.phase == Serving && !room)
            && (Judge(c, s, req) == QueueFull <==> s.phase == Serving && room && !fits)
            && (Judge(c, s, req) == Accepted <==> s.phase == Serving && room && fits)
  {
    AdmissionBounds(c, s);
    ReachableStore(c, s);
    if Keyed(req.key) { LookupIsScan(s, req.key.value); }
  }

  /**
   After an accepted submit there are exactly as many live workers as before, or, if that is
   more, as many as there are items queued, but at least one and at most the pool size. The
   workers that were there are untouched and the new ones ready.
   */
  lemma WorkersMatchTheWork(c: Settings, s: State, req: Request, id: JobId)
    requires Usable(c) && Reachable(c, s) && Enabled(s, Submit(req, id)) && Judge(c, s, req) == Accepted
    ensures var s' := Next(c, s, Submit(req, id));
            && Sum(Live, s'.tasks)
               == Max(Sum(Live, s.tasks), Min(c.workerPoolSize, Max(1, S.TotalItems(s.sched.queues) + |req.prompts|)))
            && s.tasks <= s'.tasks && forall t :: |s.tasks| <= t < |s'.tasks| ==> s'.tasks[t] == Ready
  {
    AdmissionBounds(c, s);
    assert SchedOk(s) by { ReachableStore(c, s); }
    RegisterKeepsSched(c, s, req, id);
    SpawnsExactly(c, Register(c, s, req, id));
  }

  lemma SpawnsExactly(c: Settings, s: State)
    ensures var s' := EnsureWorkers(c, s);
            && Sum(Live, s'.tasks) == Max(Sum(Live, s.tasks), Min(c.workerPoolSize, Max(1, s.sched.pending)))
            && s.tasks <= s'.tasks && forall t :: |s.tasks| <= t < |s'.tasks| ==> s'.tasks[t] == Ready
  {
    var n := SpawnCount(c, Sum(Live, s.tasks), s.sched.pending);
    SumAppend(Live, s.tasks, Readies(n));
    SumReadies(Live, n);
  }

  /** An accepted request becomes the job of its key. */
  lemma AcceptedTakesItsKey(c: Settings, s: State, req: Request, id: JobId)
    requires Usable(c) && Reachable(c, s) && Enabled(s, Submit(req, id)) && Judge(c, s, req) == Accepted
    ensures var s' := Next(c, s, Submit(req, id));
            && id in s'.jobs && Fresh(c, s'.jobs[id], req)
            && S.ItemsOf(s'.sched.queues, id) == WorkItems(req.prompts)
            && (Keyed(req.key) ==> Lookup(s, req.key.value) == None && Lookup(s', req.key.value) == Some(id))
            && s'.jobs == s.jobs[id := s'.jobs[id]]
  {
    ReachableStore(c, s);
    RegisterKeepsSched(c, s, req, id);
    if Keyed(req.key) { AcceptedKeyIsNew(c, s, req); }
  }

  // ---------------------------------------------------------------- the books

  /** Retries in any reachable state: the jobs' add up to the counters, each job's fit its budget. */
  lemma RetriesAddUp(c: Settings, s: State)
    requires Usable(c) && Reachable(c, s)
    ensures RetryTotal(s.order, s.jobs) == s.counters.retries == s.counters.rateLimited
    ensures forall id :: id in s.jobs ==> 0 <= s.jobs[id].retries <= R.Allowed(c.maxRetries) * s.jobs[id].dequeued
  {
    ReachableInv(c, s);
    forall id | id in s.jobs ensures 0 <= s.jobs[id].retries <= R.Allowed(c.maxRetries) * s.jobs[id].dequeued {
      assert RetriesFit(c, s, id);
    }
  }

  /**
   The books of a job: its counters and token totals are sums over its results, and its cost
   is what the results list, up to half a unit of the eighth place per success.
   */
  lemma BooksBalance(c: Settings, s: State, id: JobId)
    requires Usable(c) && Reachable(c, s) && id in s.jobs
    ensures var job := s.jobs[id];
            var slack := job.succeeded as real * HALF_ULP;
            && TotalsOk(c, job) && |job.results| == job.completed == job.succeeded + job.failed
            && |DeadLetter(job.results, job.total)| == job.failed
            && -slack <= TallyReal(job.results, job.total, ListedCost) - job.cost <= slack
  {
    ReachableBooks(c, s);
    assert BooksOk(c, s.jobs[id]);
    assert |s.jobs[id].results| == s.jobs[id].completed by {
      ReachableJobs(c, s);
      assert JobAt(s, id);
    }
    CostWithinRounding(c, s, id);
    DeadLetterCount(s.jobs[id].results, s.jobs[id].total);
  }

  // ---------------------------------------------------------------- dead letters and replay

  predicate SamePrompt(a: WorkItem, b: WorkItem) {
    a.id == b.id && a.prompt == b.prompt
  }

  /**
   A replay carries exactly the failed prompts of the job, in submission order, under the
   same ids; there are as many as the job counts failed.
   */
  lemma ReplayIsTheFailedPrompts(c: Settings, s: State, id: JobId, priority: Option<Priority>)
    requires Usable(c) && Reachable(c, s) && id in s.jobs
    ensures var job := s.jobs[id];
            var failed := FailedAt(job.results, job.total);
            var again := ReplayRequest(job, priority);
            && (again.None? <==> job.failed == 0)
            && |failed| == job.failed
            && (again.Some? ==>
                  var items := WorkItems(again.value.prompts);
                  && again.value.key == None
                  && again.value.priority == (if priority.Some? then priority.value else job.priority)
                  && |items| == job.failed
                  && forall i :: 0 <= i < |items| ==>
                       failed[i] < |job.items| && SamePrompt(items[i], job.items[failed[i]]))
  {
    ReachableBooks(c, s);
    var job := s.jobs[id];
    assert BooksOk(c, job);
    DeadLetterInOrder(job.results, job.total);
    DeadLetterCount(job.results, job.total);
    if ReplayRequest(job, priority).Some? { ReplayItems(c, job, priority); }
  }

  lemma ReplayItems(c: Settings, job: Job, priority: Option<Priority>)
    requires ResultsFit(c, job) && Named(job) && ReplayRequest(job, priority).Some?
    requires |DeadLetter(job.results, job.total)| == |FailedAt(job.results, job.total)|
    requires forall i :: 0 <= i < |DeadLetter(job.results, job.total)| ==>
               DeadLetter(job.results, job.total)[i] == job.results[FailedAt(job.results, job.total)[i]]
    ensures var items := WorkItems(ReplayRequest(job, priority).value.prompts);
            var failed := FailedAt(job.results, job.total);
            && |items| == |failed|
            && forall i :: 0 <= i < |items| ==> failed[i] < |job.items| && SamePrompt(items[i], job.items[failed[i]])
  {
    var items := WorkItems(ReplayRequest(job, priority).value.prompts);
    var failed, dead := FailedAt(job.results, job.total), DeadLetter(job.results, job.total);
    forall i | 0 <= i < |items| ensures failed[i] < |job.items| && SamePrompt(items[i], job.items[failed[i]]) {
      var k: nat := failed[i];
      assert dead[i] == job.results[k];
      assert ResultFits(c, job.results[k], job.items[k]);
    }
  }
}
