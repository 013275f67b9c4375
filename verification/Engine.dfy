/**
 The engine object. Each method is one stretch of its code between suspensions and is proved
 to do exactly what the corresponding step of the state machine does.
 */
module Engine {
  import opened Models
  import opened Accounting
  import opened EngineSpec
  import opened Scheduler
  import opened Limiter
  import opened Store
  import opened TokenBucket
  import S = SchedulerSpec
  import G = LimiterSpec
  import B = TokenBucketSpec
  import R = Retry
  import P = EnginePool
  import T = EngineTheorems

  // ---------------------------------------------------------------- the list of workers

  /** The list holds every live task, in order, and perhaps some that are done. */
  predicate Listed(workers: seq<nat>, tasks: seq<Task>) {
    && (forall i :: 0 <= i < |workers| ==> workers[i] < |tasks|)
    && (forall i, j :: 0 <= i < j < |workers| ==> workers[i] < workers[j])
    && (forall t: nat :: t < |tasks| && !tasks[t].Done? ==> t in workers)
  }

  /** The live tasks below `n`. */
  function LiveBelow(tasks: seq<Task>, n: nat): (ws: seq<nat>)
    requires n <= |tasks|
    ensures forall i :: 0 <= i < |ws| ==> ws[i] < n && !tasks[ws[i]].Done?
    ensures forall i, j :: 0 <= i < j < |ws| ==> ws[i] < ws[j]
    ensures forall t: nat :: t < n && !tasks[t].Done? ==> t in ws
    ensures |ws| == Sum(Live, tasks[..n])
  {
    if n == 0 then []
    else
      P.SumAppend(Live, tasks[..n - 1], [tasks[n - 1]]);
      assert Sum(Live, [tasks[n - 1]]) == Live(tasks[n - 1]);
      assert tasks[..n] == tasks[..n - 1] + [tasks[n - 1]];
      LiveBelow(tasks, n - 1) + (if tasks[n - 1].Done? then [] else [n - 1])
  }

  /** Two increasing lists with the same members are the same list. */
  lemma {:induction false} SameIncreasing(a: seq<nat>, b: seq<nat>)
    requires forall i, j :: 0 <= i < j < |a| ==> a[i] < a[j]
    requires forall i, j :: 0 <= i < j < |b| ==> b[i] < b[j]
    requires forall x :: x in a <==> x in b
    ensures a == b
    decreases |a|
  {
    if a == [] {
      assert b == [] by { assert forall i :: 0 <= i < |b| ==> b[i] in b; }
    } else {
      assert a[0] in b;
      assert b[0] in a;
      assert a[0] == b[0];
      var a', b' := a[1..], b[1..];
      forall x ensures x in a' <==> x in b' {
        if x in a' { var i :| 0 <= i < |a'| && a'[i] == x; assert a[i + 1] == x && x > a[0]; assert x in b; }
        if x in b' { var i :| 0 <= i < |b'| && b'[i] == x; assert b[i + 1] == x && x > b[0]; assert x in a; }
      }
      SameIncreasing(a', b');
    }
  }

  lemma ListedUpdate(workers: seq<nat>, tasks: seq<Task>, t: nat, x: Task)
    requires Listed(workers, tasks) && t < |tasks| && !tasks[t].Done?
    ensures Listed(workers, tasks[t := x])
  {
  }

  lemma ListedSnoc(workers: seq<nat>, tasks: seq<Task>)
    requires Listed(workers, tasks)
    ensures Listed(workers + [|tasks|], tasks + [Ready])
  {
    var ws, ts := workers + [|tasks|], tasks + [Ready];
    forall t: nat | t < |ts| && !ts[t].Done? ensures t in ws {
      if t < |tasks| { assert t in workers; } else { assert ws[|workers|] == t; }
    }
  }

  /** Cancelling one job at shutdown, and a list of them one after the other. */
  function InterruptOne(s: State, id: JobId): State
    requires id in s.jobs
  {
    s.(jobs := s.jobs[id := EngineSpec.Interrupt(s.jobs[id])],
       active := if Unfinished(s.jobs[id].state) then s.active - {id} else s.active)
  }

  function InterruptThese(s: State, ids: seq<JobId>): (r: State)
    requires forall id :: id in ids ==> id in s.jobs
    ensures r.jobs.Keys == s.jobs.Keys
    decreases |ids|
  {
    if ids == [] then s
    else
      assert forall id :: id in ids[..|ids| - 1] ==> id in ids;
      assert ids[|ids| - 1] in ids;
      InterruptOne(InterruptThese(s, ids[..|ids| - 1]), ids[|ids| - 1])
  }

  lemma {:induction false} InterruptEffect(s: State, ids: seq<JobId>)
    requires forall id :: id in ids ==> id in s.jobs
    ensures var r := InterruptThese(s, ids);
            && r == s.(jobs := r.jobs, active := r.active)
            && (forall id :: id in s.jobs ==>
                  r.jobs[id] == if id in ids then EngineSpec.Interrupt(s.jobs[id]) else s.jobs[id])
            && (forall id :: id in r.active <==>
                  id in s.active && !(id in ids && Unfinished(s.jobs[id].state)))
    decreases |ids|
  {
    if ids != [] {
      var rest, last := ids[..|ids| - 1], ids[|ids| - 1];
      assert ids == rest + [last];
      InterruptEffect(s, rest);
    }
  }

  /** Going through all jobs in order is interrupting all of them. */
  lemma InterruptedAll(s: State)
    requires forall id :: id in s.jobs <==> id in s.order
    ensures InterruptThese(s, s.order).(phase := Stopped) == InterruptAll(s)
  {
    InterruptEffect(s, s.order);
    var r := InterruptThese(s, s.order);
    assert r.jobs == InterruptAll(s).jobs;
    assert r.active == InterruptAll(s).active;
  }

  /** The limit check and then what follows from it is taking a permit. */
  lemma GateInTwo(s: State, mid: State, s': State, t: nat, entered: bool)
    requires t < |s.tasks| && entered == G.MayEnter(s.gate) && mid == s.(gate := G.Pass(s.gate, t))
    requires s' == if entered then Fetch(mid, t) else mid.(tasks := mid.tasks[t := Asleep])
    ensures s' == TakePermit(s, t)
  {
  }

  function RetryOnJob(s: State, id: JobId): State
    requires id in s.jobs
  {
    s.(jobs := s.jobs[id := s.jobs[id].(retries := s.jobs[id].retries + 1)])
  }

  function RetryOnCounters(s: State): State {
    s.(counters := s.counters.(retries := s.counters.retries + 1, rateLimited := s.counters.rateLimited + 1))
  }

  /** The bookkeeping of a retried 429. */
  function RetryNoted(s: State, id: JobId): State
    requires id in s.jobs
  {
    RetryOnCounters(RetryOnJob(s, id))
  }

  /** Counting a retry and then throttling is the retry of the machine. */
  lemma RetryInTwo(c: Settings, s: State, id: JobId, noted: State, s': State, t: nat, hint: real, due: real)
    requires t < |s.tasks| && s.tasks[t].Busy? && s.tasks[t].job == id && id in s.jobs && s.tasks[t].attempt >= 1
    requires noted == RetryNoted(s, id)
    requires due == RetryDue(c, s, s.tasks[t].attempt, hint)
    requires s' == noted.(gate := G.Throttle(GateParams(c), noted.gate),
                          tasks := noted.tasks[t := noted.tasks[t].(phase := BackingOff, due := due)])
    ensures s' == EngineSpec.Retry(c, s, t, hint)
  {
  }

  /** Storing the popped scheduler before or after handling the item is the same. */
  lemma FetchReadsOnly(s: State, mid: State, t: nat, p: S.Popped)
    requires t < |s.tasks| && mid == s.(sched := p.sched)
    ensures FetchFrom(mid, t, p) == FetchFrom(s, t, p)
  {
  }

  class BatchEngine {
    const settings: Settings
    const scheduler: FairScheduler
    const limiter: AdaptiveConcurrencyLimiter
    const store: InMemoryJobStore
    var active: set<JobId>
    var workers: seq<nat>
    var tasks: seq<Task>
    var phase: Phase
    var counters: Counters
    const rateLimiter: TokenBucket
    /** The event loop's clock, counted from the start of the engine. */
    var clock: real

    /** The object's parts fit together; holds within its methods too. */
    ghost predicate Wired()
      reads this, store
    {
      && settings.charsPerToken != 0.0 && limiter.params == GateParams(settings)
      && store.Valid() && Listed(workers, tasks)
    }

    ghost function View(): State
      reads this, scheduler, limiter, store, store.jobs.Values, rateLimiter
    {
      State(scheduler.View(), limiter.View(), store.Jobs(), store.order, store.byKey, active, tasks, phase, counters,
            rateLimiter.View(), clock)
    }

    /** Between calls the object is in a state of the machine that some run leads to. */
    ghost predicate Valid()
      reads this, scheduler, limiter, store, store.jobs.Values, rateLimiter
    {
      Wired() && T.Reachable(settings, View())
    }

    /** So everything proved of reachable states holds of the object itself. */
    lemma Guarantees()
      requires Valid() && Usable(settings)
      ensures limiter.inUse <= Min(settings.workerPoolSize, settings.globalMaxConcurrency)
      ensures |active| <= Max(0, settings.maxActiveJobs) && scheduler.pending <= Max(0, settings.maxQueueSize)
      ensures forall id :: id in active <==> id in store.jobs && store.jobs[id].state == Running
      ensures forall id :: id in store.jobs ==>
                var job := store.jobs[id];
                && job.completed == job.succeeded + job.failed == |job.results|
                && (job.state == Completed ==> forall k: nat :: k < job.total ==> k in job.results)
      ensures phase == Stopped ==> forall id :: id in store.jobs ==> Finished(store.jobs[id].state)
    {
      T.ConcurrencyIsBounded(settings, View());
      T.AdmissionBounds(settings, View());
      forall id | id in store.jobs
        ensures var job := store.jobs[id];
                && job.completed == job.succeeded + job.failed == |job.results|
                && (job.state == Completed ==> forall k: nat :: k < job.total ==> k in job.results)
      {
        JobGuarantees(id);
      }
      if phase == Stopped { T.ShutdownLeavesNothingRunning(settings, View()); }
      assert forall id :: id in store.jobs ==> View().jobs[id] == store.jobs[id].View();
    }

    lemma JobGuarantees(id: JobId)
      requires Valid() && Usable(settings) && id in store.jobs
      ensures var job := store.jobs[id];
              && job.completed == job.succeeded + job.failed == |job.results|
              && (job.state == Completed ==> forall k: nat :: k < job.total ==> k in job.results)
    {
      assert View().jobs[id] == store.jobs[id].View();
      T.EveryPromptInOnePlace(settings, View(), id);
      if store.jobs[id].state == Completed { T.CompletedIsComplete(settings, View(), id); }
    }

    constructor (c: Settings)
      requires c.charsPerToken != 0.0
      ensures Valid() && View() == Init(c) && settings == c
      ensures fresh(scheduler) && fresh(limiter) && fresh(store) && fresh(rateLimiter)
    {
      settings := c;
      scheduler := new FairScheduler();
      limiter := new AdaptiveConcurrencyLimiter(c.globalMaxConcurrency, c.adaptiveMinConcurrency,
                                                Some(c.globalMaxConcurrency), c.decreaseFactor, c.increaseAfter);
      store := new InMemoryJobStore();
      rateLimiter := new TokenBucket(c.rps, Some(if c.burst != 0.0 then c.burst else c.rps));
      active, workers, tasks, phase, counters, clock := {}, [], [], Serving, Counters(0, 0, 0), 0.0;
      new;
      T.StartIsReachable(c);
    }

    // -------------------------------------------------------------- submit

    /** Drop finished workers from the list. */
    method DropFinished()
      requires Wired()
      modifies this`workers
      ensures Wired() && |workers| == Sum(Live, tasks)
    {
      var live: seq<nat> := [];
      for i := 0 to |workers|
        invariant forall k :: 0 <= k < |live| ==> live[k] < |tasks| && !tasks[live[k]].Done?
        invariant forall k :: 0 <= k < |live| && i < |workers| ==> live[k] < workers[i]
        invariant forall j, k :: 0 <= j < k < |live| ==> live[j] < live[k]
        invariant forall m :: 0 <= m < i && !tasks[workers[m]].Done? ==> workers[m] in live
      {
        if !tasks[workers[i]].Done? {
          live := live + [workers[i]];
        }
      }
      SameIncreasing(live, LiveBelow(tasks, |tasks|));
      assert tasks[..|tasks|] == tasks;
      workers := live;
    }

    method Spawn(count: nat)
      requires Wired()
      modifies this`workers, this`tasks
      ensures Wired() && tasks == old(tasks) + Readies(count)
    {
      for n := 0 to count
        invariant tasks == old(tasks) + Readies(n)
        invariant Listed(workers, tasks)
      {
        ReadiesSnoc(n);
        ListedSnoc(workers, tasks);
        workers := workers + [|tasks|];
        tasks := tasks + [Ready];
      }
    }

    /** Start as many workers as are missing. */
    method StartWorkers()
      requires Wired()
      modifies this`workers, this`tasks
      ensures Wired() && View() == EnsureWorkers(settings, old(View()))
    {
      DropFinished();
      var wanted := if scheduler.pending >= 1 then scheduler.pending else 1;
      var target := if settings.workerPoolSize <= wanted then settings.workerPoolSize else wanted;
      Spawn(if target - |workers| >= 0 then target - |workers| else 0);
    }

    /** Create the job's record and index its key. */
    method CreateJob(req: Request, id: JobId)
      requires Wired() && id !in store.jobs
      modifies store
      ensures Wired()
      ensures var s := old(View());
              View() == s.(jobs := s.jobs[id := NewJob(settings, req)], order := s.order + [id],
                           byKey := if Keyed(req.key) then s.byKey[req.key.value := id] else s.byKey)
    {
      var job := new JobRecord(settings, req);
      store.Create(id, job);
    }

    /** Create the job, mark it active, queue its items. */
    method Enlist(req: Request, id: JobId)
      requires Wired() && id !in store.jobs
      modifies this`active, scheduler, store
      ensures Wired() && View() == Register(settings, old(View()), req, id)
    {
      CreateJob(req, id);
      active := active + {id};
      scheduler.Add(id, WorkItems(req.prompts), req.priority);
    }

    method Submit(req: Request, id: JobId) returns (verdict: Verdict)
      requires Valid() && Enabled(View(), EngineSpec.Submit(req, id))
      modifies this, scheduler, store
      ensures Valid() && verdict == Judge(settings, old(View()), req)
      ensures View() == Next(settings, old(View()), EngineSpec.Submit(req, id))
      ensures verdict != Accepted ==> unchanged(this) && unchanged(scheduler) && unchanged(store)
    {
      T.ReachableNext(settings, View(), EngineSpec.Submit(req, id));
      if phase != Serving {
        return ShuttingDown;
      }
      if req.key.Some? && req.key.value != "" {
        var existing := store.FindByKey(req.key.value);
        if existing.Some? {
          if store.jobs[existing.value].fingerprint != settings.hash(req.priority, req.prompts) {
            return Conflict;
          }
          return Reused(existing.value);
        }
      }
      if |active| >= settings.maxActiveJobs {
        return Overloaded;
      }
      if scheduler.pending + |req.prompts| > settings.maxQueueSize {
        return QueueFull;
      }
      Enlist(req, id);
      StartWorkers();
      verdict := Accepted;
    }

    /** Submit the failed prompts of a job again, as a new job; nothing when there are none. */
    method ReplayFailed(source: JobId, priority: Option<Priority>, id: JobId)
      returns (verdict: Option<Verdict>)
      requires Valid() && id !in store.jobs && id != ""
      modifies this, scheduler, store
      ensures Valid()
      ensures var s := old(View());
              var again := if source in s.jobs then ReplayRequest(s.jobs[source], priority) else None;
              if again.None? then verdict == None && View() == s
              else verdict == Some(Judge(settings, s, again.value))
                   && View() == Next(settings, s, EngineSpec.Submit(again.value, id))
    {
      if source !in store.jobs {
        return None;
      }
      var job := store.jobs[source];
      var failed := job.DeadLetters();
      if failed == [] {
        return None;
      }
      var prompts := seq(|failed|, i requires 0 <= i < |failed| => PromptItem(Some(failed[i].id), failed[i].prompt));
      var req := Request(prompts, if priority.Some? then priority.value else job.priority, None);
      assert Some(req) == ReplayRequest(job.View(), priority);
      var answer := Submit(req, id);
      return Some(answer);
    }

    // -------------------------------------------------------------- workers

    /** Give the permit back, waking one sleeper. */
    method LeaveGate(t: nat, x: Task)
      requires Wired() && t < |tasks| && !tasks[t].Done?
      modifies this`tasks, limiter
      ensures Wired()
      ensures View() == var s := old(View()); s.(tasks := s.tasks[t := x], gate := G.Release(s.gate))
    {
      ListedUpdate(workers, tasks, t, x);
      tasks := tasks[t := x];
      limiter.Release();
    }

    /** Hand the worker its item. */
    method Dispatch(t: nat, id: JobId, item: WorkItem)
      requires Wired() && t < |tasks| && !tasks[t].Done? && id in store.jobs
      modifies this`tasks, {store.jobs[id]}`dequeued
      ensures Wired()
      ensures var s, job := old(View()), old(View()).jobs[id];
              View() == s.(jobs := s.jobs[id := job.(dequeued := job.dequeued + 1)],
                           tasks := s.tasks[t := Busy(id, item, 1, AtBucket, 0.0)])
    {
      HandOut(id);
      SetTask(t, Busy(id, item, 1, AtBucket, 0.0));
    }

    method HandOut(id: JobId)
      requires Wired() && id in store.jobs
      modifies {store.jobs[id]}`dequeued
      ensures Wired()
      ensures var s, job := old(View()), old(View()).jobs[id];
              View() == s.(jobs := s.jobs[id := job.(dequeued := job.dequeued + 1)])
    {
      var job := store.jobs[id];
      job.HandOut();
      store.OneChanged(id);
    }

    method SetTask(t: nat, x: Task)
      requires Wired() && t < |tasks| && !tasks[t].Done?
      modifies this`tasks
      ensures Wired() && View() == var s := old(View()); s.(tasks := s.tasks[t := x])
    {
      ListedUpdate(workers, tasks, t, x);
      tasks := tasks[t := x];
    }

    method PopItem() returns (got: Option<(JobId, WorkItem)>)
      requires Wired()
      modifies scheduler
      ensures Wired() && View() == old(View()).(sched := scheduler.View())
      ensures S.Popped(scheduler.View(), got) == S.Pop(old(View()).sched)
    {
      got := scheduler.Pop();
    }

    /** What a worker holding a permit does with what it popped. */
    method Process(t: nat, got: Option<(JobId, WorkItem)>)
      requires Wired() && t < |tasks| && !tasks[t].Done?
      modifies this`tasks, limiter, store.jobs.Values`dequeued
      ensures Wired() && View() == FetchFrom(old(View()), t, S.Popped(old(View()).sched, got))
    {
      match got {
        case None => LeaveGate(t, Done);
        case Some(pair) => ProcessItem(t, pair.0, pair.1);
      }
    }

    /** Skip an item of a job cancelled since, or start on it. */
    method ProcessItem(t: nat, id: JobId, item: WorkItem)
      requires Wired() && t < |tasks| && !tasks[t].Done?
      modifies this`tasks, limiter, store.jobs.Values`dequeued
      ensures Wired() && View() == FetchFrom(old(View()), t, S.Popped(old(View()).sched, Some((id, item))))
    {
      if id !in store.jobs || store.jobs[id].state == Cancelled {
        LeaveGate(t, Ready);
      } else {
        Dispatch(t, id, item);
      }
    }

    /** A worker holding a permit pops an item; on an empty scheduler it releases and ends. */
    method PopAndProcess(t: nat)
      requires Wired() && t < |tasks| && !tasks[t].Done?
      modifies this`tasks, scheduler, limiter, store.jobs.Values`dequeued
      ensures Wired() && View() == Fetch(old(View()), t)
    {
      ghost var s := View();
      ghost var p := S.Pop(s.sched);
      var got := PopItem();
      ghost var mid := View();
      Process(t, got);
      FetchReadsOnly(s, mid, t, p);
    }

    /** The worker is past the limit check, or must sleep. */
    method Proceed(t: nat, entered: bool)
      requires Wired() && t < |tasks| && !tasks[t].Done?
      modifies this`tasks, scheduler, limiter, store.jobs.Values`dequeued
      ensures Wired() && View() == if entered then Fetch(old(View()), t) else var s := old(View()); s.(tasks := s.tasks[t := Asleep])
    {
      if entered {
        PopAndProcess(t);
      } else {
        SetTask(t, Asleep);
      }
    }

    method EnterGate(t: nat)
      requires Wired() && t < |tasks| && !tasks[t].Done?
      modifies this`tasks, scheduler, limiter, store.jobs.Values`dequeued
      ensures Wired() && View() == TakePermit(old(View()), t)
    {
      ghost var s := View();
      var entered := PassGate(t);
      ghost var mid := View();
      Proceed(t, entered);
      GateInTwo(s, mid, View(), t, entered);
    }

    /** The limit check on entering `acquire`. */
    method PassGate(t: nat) returns (entered: bool)
      requires Wired()
      modifies limiter
      ensures Wired() && entered == G.MayEnter(old(View()).gate)
      ensures View() == var s := old(View()); s.(gate := G.Pass(s.gate, t))
    {
      entered := limiter.Acquire(t);
    }

    /** The limit check on waking up. */
    method RepassGate(t: nat) returns (entered: bool)
      requires Wired()
      modifies limiter
      ensures Wired() && entered == G.MayEnter(old(View()).gate)
      ensures View() == var s := Unwait(old(View()), t); s.(gate := G.Pass(s.gate, t))
    {
      entered := limiter.Resume(t);
    }

    method ReenterGate(t: nat)
      requires Wired() && t < |tasks| && !tasks[t].Done?
      modifies this`tasks, scheduler, limiter, store.jobs.Values`dequeued
      ensures Wired() && View() == TakePermit(Unwait(old(View()), t), t)
    {
      ghost var s := Unwait(View(), t);
      var entered := RepassGate(t);
      ghost var mid := View();
      Proceed(t, entered);
      GateInTwo(s, mid, View(), t, entered);
    }

    /** A ready worker enters the limiter: it goes to sleep or goes on to pop. */
    method Start(t: nat)
      requires Valid() && Enabled(View(), EngineSpec.Start(t))
      modifies this`tasks, scheduler, limiter, store.jobs.Values`dequeued
      ensures Valid() && View() == Next(settings, old(View()), EngineSpec.Start(t))
    {
      T.ReachableNext(settings, View(), EngineSpec.Start(t));
      EnterGate(t);
    }

    /** A notified worker wakes and checks the limit again. */
    method Wake(t: nat)
      requires Valid() && Enabled(View(), EngineSpec.Wake(t))
      modifies this`tasks, scheduler, limiter, store.jobs.Values`dequeued
      ensures Valid() && View() == Next(settings, old(View()), EngineSpec.Wake(t))
    {
      T.ReachableNext(settings, View(), EngineSpec.Wake(t));
      ReenterGate(t);
    }

    /** A pass at the bucket: true when the call may go; otherwise `wait` is the time to sleep. */
    method PassBucket() returns (open: bool, wait: real)
      requires Wired()
      modifies rateLimiter
      ensures Wired() && open == Opens(old(View()).bucket, clock)
      ensures View() == var s := old(View()); s.(bucket := AfterPass(s.bucket, s.clock))
      ensures !open ==> rateLimiter.rate > 0.0 && wait == B.Sleep(old(View()).bucket, OneToken(clock))
    {
      if rateLimiter.rate <= 0.0 {
        return true, 0.0;
      }
      open, wait := rateLimiter.TryTake(clock, 1.0);
    }

    /** A worker asks the token bucket: its call starts, or it sleeps as long as the tokens take. */
    method Ask(t: nat) returns (open: bool)
      requires Valid() && BusyIn(View(), t, AtBucket) && tasks[t].due <= clock
      modifies this`tasks, rateLimiter
      ensures Valid() && open == Opens(old(View()).bucket, clock)
      ensures View() == Next(settings, old(View()), if open then EngineSpec.Admit(t) else EngineSpec.Refuse(t))
    {
      T.ReachableNext(settings, View(), if Opens(View().bucket, clock) then EngineSpec.Admit(t) else EngineSpec.Refuse(t));
      var wait;
      open, wait := PassBucket();
      SetTask(t, if open then tasks[t].(phase := Calling) else tasks[t].(due := clock + wait));
    }

    /** Time passes. */
    method Wait(until: real)
      requires Valid() && clock <= until
      modifies this`clock
      ensures Valid() && View() == Next(settings, old(View()), EngineSpec.Wait(until))
    {
      T.ReachableNext(settings, View(), EngineSpec.Wait(until));
      clock := until;
    }

    /** The backoff sleep is over: on to the next attempt. */
    method Continue(t: nat)
      requires Valid() && Enabled(View(), EngineSpec.Continue(t))
      modifies this`tasks
      ensures Valid() && View() == Next(settings, old(View()), EngineSpec.Continue(t))
    {
      T.ReachableNext(settings, View(), EngineSpec.Continue(t));
      SetTask(t, tasks[t].(phase := AtBucket, attempt := tasks[t].attempt + 1));
    }

    /** The job's part of a finished prompt. */
    method FinishPrompt(id: JobId, index: nat, r: InferenceResult)
      requires Wired() && id in store.jobs
      modifies this`active, store.jobs[id]
      ensures Wired()
      ensures var s := old(View());
              var job := Credit(settings, s.jobs[id], index, r);
              View() == s.(jobs := s.jobs[id := job],
                           active := if job.state == Completed && s.jobs[id].state == Running then s.active - {id} else s.active)
    {
      var job := store.jobs[id];
      var done := job.Finish(settings, index, r);
      if done {
        active := active - {id};
      }
      store.OneChanged(id);
    }

    /** Record a result, finalise a job whose last prompt it was, release the permit. */
    method Record(t: nat, r: InferenceResult)
      requires Wired() && t < |tasks| && tasks[t].Busy? && tasks[t].job in store.jobs
      modifies this`tasks, this`active, limiter, store.jobs[tasks[t].job]
      ensures Wired() && View() == Settle(settings, old(View()), t, r)
    {
      FinishPrompt(tasks[t].job, tasks[t].item.index, r);
      LeaveGate(t, Ready);
    }

    method NoteRetry(id: JobId)
      requires Wired() && id in store.jobs
      modifies this`counters, {store.jobs[id]}`retries
      ensures Wired() && View() == RetryNoted(old(View()), id)
    {
      CountRetry(id);
      BumpCounters();
    }

    method CountRetry(id: JobId)
      requires Wired() && id in store.jobs
      modifies {store.jobs[id]}`retries
      ensures Wired() && View() == RetryOnJob(old(View()), id)
    {
      var job := store.jobs[id];
      job.AddRetry();
      store.OneChanged(id);
    }

    method BumpCounters()
      requires Wired()
      modifies this`counters
      ensures Wired() && View() == RetryOnCounters(old(View()))
    {
      counters := counters.(retries := counters.retries + 1, rateLimited := counters.rateLimited + 1);
    }

    /** The limiter hears of a throttle or a success. */
    method Adjust(e: G.Event)
      requires Wired()
      modifies limiter
      ensures Wired() && View() == old(View()).(gate := G.Adjust(GateParams(settings), old(View()).gate, e))
    {
      match e {
        case Throttled => limiter.RecordThrottle();
        case Succeeded => limiter.RecordSuccess();
      }
    }

    method Count(now: Counters)
      requires Wired()
      modifies this`counters
      ensures Wired() && View() == old(View()).(counters := now)
    {
      counters := now;
    }

    /** The limiter hears of the 429 and the worker goes to sleep. */
    method Throttle(t: nat, due: real)
      requires Wired() && t < |tasks| && tasks[t].Busy?
      modifies this`tasks, limiter
      ensures Wired()
      ensures var s := old(View());
              View() == s.(gate := G.Throttle(GateParams(settings), s.gate),
                           tasks := s.tasks[t := s.tasks[t].(phase := BackingOff, due := due)])
    {
      Adjust(G.Throttled);
      SetTask(t, tasks[t].(phase := BackingOff, due := due));
    }

    /** A 429 within the budget: count it, throttle the limiter, sleep as the policy and the server say. */
    method BackOff(t: nat, hint: real)
      requires Wired() && t < |tasks| && tasks[t].Busy? && tasks[t].job in store.jobs && tasks[t].attempt >= 1
      modifies this`tasks, this`counters, limiter, {store.jobs[tasks[t].job]}`retries
      ensures Wired() && View() == EngineSpec.Retry(settings, old(View()), t, hint)
    {
      ghost var s := View();
      var due := clock + R.Delay(RetryPolicy(settings), tasks[t].attempt, settings.draw(counters.retries), hint);
      var id := tasks[t].job;
      NoteRetry(id);
      ghost var noted := View();
      Throttle(t, due);
      RetryInTwo(settings, s, id, noted, View(), t, hint, due);
    }

    /** The call came back with an output. */
    method Succeed(t: nat, output: string)
      requires Wired() && t < |tasks| && tasks[t].Busy? && tasks[t].job in store.jobs && tasks[t].attempt >= 1
      modifies this`tasks, this`active, limiter, store.jobs[tasks[t].job]
      ensures Wired() && View() == Answer(settings, old(View()), t, Completion(output))
    {
      var r := SuccessResult(settings, tasks[t].item, output, tasks[t].attempt);
      Adjust(G.Succeeded);
      Record(t, r);
    }

    /** A 429 with no attempt left. */
    method Exhaust(t: nat, hint: real, reason: string)
      requires Wired() && t < |tasks| && tasks[t].Busy? && tasks[t].job in store.jobs && tasks[t].attempt >= 1
      requires tasks[t].attempt > settings.maxRetries
      modifies this`tasks, this`active, this`counters, limiter, store.jobs[tasks[t].job]
      ensures Wired() && View() == Answer(settings, old(View()), t, RateLimited(hint, reason))
    {
      ghost var s := View();
      Count(counters.(exhausted := counters.exhausted + 1));
      assert View() == Noted(settings, s, RateLimited(hint, reason));
      Record(t, FailureResult(tasks[t].item, reason));
    }

    /** The provider answered. */
    method Reply(t: nat, outcome: Outcome)
      requires Valid() && Enabled(View(), EngineSpec.Reply(t, outcome))
      modifies this`tasks, this`active, this`counters, limiter, store.jobs[tasks[t].job]
      ensures Valid() && View() == Next(settings, old(View()), EngineSpec.Reply(t, outcome))
    {
      T.ReachableNext(settings, View(), EngineSpec.Reply(t, outcome));
      match outcome {
        case Completion(output) => Succeed(t, output);
        case RateLimited(hint, reason) =>
          if tasks[t].attempt > settings.maxRetries {
            Exhaust(t, hint, reason);
          } else {
            BackOff(t, hint);
          }
        case Fault(message) => Record(t, FailureResult(tasks[t].item, message));
      }
    }

    // -------------------------------------------------------------- cancel and shutdown

    /** None for an unknown job, false for one already finished, true when it was cancelled. */
    method Cancel(id: JobId) returns (outcome: Option<bool>)
      requires Valid()
      modifies this`active, scheduler, store.jobs.Values
      ensures Valid() && View() == Next(settings, old(View()), EngineSpec.Cancel(id))
      ensures outcome == if id !in old(View()).jobs then None else Some(!Finished(old(View()).jobs[id].state))
    {
      T.ReachableNext(settings, View(), EngineSpec.Cancel(id));
      if id !in store.jobs {
        return None;
      }
      var job := store.jobs[id];
      if job.state == Completed || job.state == Failed || job.state == Cancelled {
        return Some(false);
      }
      Drop(id);
      return Some(true);
    }

    /** Take the job's items off the scheduler and finish it. */
    method Drop(id: JobId)
      requires Wired() && id in store.jobs && !Finished(store.jobs[id].state)
      modifies this`active, scheduler, store.jobs[id]
      ensures Wired() && View() == CancelJob(old(View()), id)
    {
      var removed := scheduler.Remove(id);
      MarkCancelled(id);
    }

    method MarkCancelled(id: JobId)
      requires Wired() && id in store.jobs
      modifies this`active, store.jobs[id]
      ensures Wired()
      ensures var s, job := old(View()), old(View()).jobs[id];
              View() == s.(jobs := s.jobs[id := job.(state := Cancelled, dropped := true)], active := s.active - {id})
    {
      CancelRecord(id);
      Deactivate(id);
    }

    method Deactivate(id: JobId)
      requires Wired()
      modifies this`active
      ensures Wired() && View() == var s := old(View()); s.(active := s.active - {id})
    {
      active := active - {id};
    }

    method CancelRecord(id: JobId)
      requires Wired() && id in store.jobs
      modifies {store.jobs[id]}`state, {store.jobs[id]}`dropped
      ensures Wired()
      ensures var s, job := old(View()), old(View()).jobs[id];
              View() == s.(jobs := s.jobs[id := job.(state := Cancelled, dropped := true)])
    {
      var job := store.jobs[id];
      job.Cancel();
      store.OneChanged(id);
    }

    method MoveTo(next: Phase)
      requires Wired()
      modifies this`phase
      ensures Wired() && View() == old(View()).(phase := next)
    {
      phase := next;
    }

    /** `shutdown` up to its wait: no more submits. */
    method BeginShutdown()
      requires Valid() && phase == Serving
      modifies this`phase
      ensures Valid() && View() == Next(settings, old(View()), EngineSpec.BeginShutdown)
    {
      T.ReachableNext(settings, View(), EngineSpec.BeginShutdown);
      MoveTo(Draining);
    }

    /** The grace period is over: every worker on the list is asked to stop, so every live one is. */
    method GraceOver() returns (asked: set<nat>)
      requires Valid() && phase == Draining
      modifies this`phase
      ensures Valid() && View() == Next(settings, old(View()), EngineSpec.GraceOver)
      ensures forall t: nat :: t < |tasks| && !tasks[t].Done? ==> t in asked
      ensures forall t :: t in asked ==> t in workers
    {
      T.ReachableNext(settings, View(), EngineSpec.GraceOver);
      asked := {};
      for i := 0 to |workers|
        invariant forall k :: 0 <= k < i ==> workers[k] in asked
        invariant forall t :: t in asked ==> t in workers
      {
        asked := asked + {workers[i]};
      }
      MoveTo(Stopping);
    }

    /** A worker interrupted with an item in hand. */
    method Interrupted(id: JobId, index: nat)
      requires Wired() && id in store.jobs
      modifies {store.jobs[id]}`lost
      ensures Wired()
      ensures var s, job := old(View()), old(View()).jobs[id];
              View() == s.(jobs := s.jobs[id := job.(lost := job.lost + {index})])
    {
      var job := store.jobs[id];
      job.Lose(index);
      store.OneChanged(id);
    }

    /** A cancelled worker unwinds. */
    method Kill(t: nat)
      requires Valid() && Enabled(View(), EngineSpec.Kill(t))
      modifies this`tasks, limiter, store.jobs.Values`lost
      ensures Valid() && View() == Next(settings, old(View()), EngineSpec.Kill(t))
    {
      T.ReachableNext(settings, View(), EngineSpec.Kill(t));
      match tasks[t] {
        case Asleep => KillAsleep(t);
        case Busy(id, item, _, _, _) => KillBusy(t, id, item.index);
        case Ready => SetTask(t, Done);
      }
    }

    /** A cancelled sleeper leaves the waiters. */
    method KillAsleep(t: nat)
      requires Wired() && t < |tasks| && tasks[t].Asleep?
      modifies this`tasks, limiter
      ensures Wired() && View() == KillTask(old(View()), t)
    {
      SetTask(t, Done);
      limiter.Forget(t);
    }

    /** A cancelled worker with an item in hand gives its permit back. */
    method KillBusy(t: nat, id: JobId, index: nat)
      requires Wired() && t < |tasks| && tasks[t].Busy? && tasks[t].job == id && tasks[t].item.index == index
      modifies this`tasks, limiter, store.jobs.Values`lost
      ensures Wired() && View() == KillTask(old(View()), t)
    {
      if id in store.jobs {
        Interrupted(id, index);
      }
      LeaveGate(t, Done);
    }

    /** Cancel one job if it is unfinished. */
    method Interrupt(id: JobId)
      requires Wired() && id in store.jobs
      modifies this`active, {store.jobs[id]}`state
      ensures Wired()
      ensures View() == InterruptOne(old(View()), id)
    {
      var job := store.jobs[id];
      if job.state == Pending || job.state == Running {
        job.state := Cancelled;
        active := active - {id};
      }
      store.OneChanged(id);
    }

    /** The loop over all jobs at the end of `shutdown`. */
    method InterruptListed(ids: seq<JobId>)
      requires Wired() && forall id :: id in ids ==> id in store.jobs
      modifies this`active, store.jobs.Values`state
      ensures Wired() && View() == InterruptThese(old(View()), ids)
    {
      for i := 0 to |ids|
        invariant Wired()
        invariant View() == InterruptThese(old(View()), ids[..i])
      {
        assert ids[i] in ids;
        assert ids[..i + 1][..i] == ids[..i];
        Interrupt(ids[i]);
      }
      assert ids[..|ids|] == ids;
    }

    /** The end of `shutdown`: every unfinished job is cancelled. */
    method FinishShutdown()
      requires Valid() && Enabled(View(), EngineSpec.FinishShutdown)
      modifies this`active, this`phase, store.jobs.Values`state
      ensures Valid() && View() == Next(settings, old(View()), EngineSpec.FinishShutdown)
    {
      T.ReachableNext(settings, View(), EngineSpec.FinishShutdown);
      ghost var s := View();
      InterruptListed(store.order);
      MoveTo(Stopped);
      assert View() == InterruptAll(s) by { InterruptedAll(s); }
    }
  }

  lemma {:induction false} ReadiesSnoc(n: nat)
    ensures Readies(n) + [Ready] == Readies(n + 1)
  {
  }
}
