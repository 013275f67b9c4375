/**
 The worker pool and the gate in every reachable state: permits are accounted for, no wake-up
 is lost, and pending work always has a live worker.
 */
module EnginePool {
  import opened Models
  import opened EngineSpec
  import S = SchedulerSpec
  import Accounting
  import R = SchedulerRuns
  import G = LimiterSpec

  // ---------------------------------------------------------------- sums

  lemma {:induction false} SumUpdate(f: Task -> nat, ts: seq<Task>, i: nat, x: Task)
    requires i < |ts|
    ensures Sum(f, ts[i := x]) == Sum(f, ts) - f(ts[i]) + f(x)
  {
    if i == 0 {
      assert ts[0 := x][1..] == ts[1..];
    } else {
      assert ts[i := x][1..] == ts[1..][i - 1 := x];
      SumUpdate(f, ts[1..], i - 1, x);
    }
  }

  lemma {:induction false} SumAppend(f: Task -> nat, a: seq<Task>, b: seq<Task>)
    ensures Sum(f, a + b) == Sum(f, a) + Sum(f, b)
  {
    if a == [] {
      assert a + b == b;
    } else {
      assert (a + b)[1..] == a[1..] + b;
      SumAppend(f, a[1..], b);
    }
  }

  lemma {:induction false} SumReadies(f: Task -> nat, n: nat)
    ensures Sum(f, Readies(n)) == n * f(Ready)
  {
    if n > 0 {
      assert Readies(n)[1..] == Readies(n - 1);
      SumReadies(f, n - 1);
    }
  }

  lemma {:induction false} SumMember(f: Task -> nat, ts: seq<Task>, i: nat)
    requires i < |ts|
    ensures f(ts[i]) <= Sum(f, ts)
  {
    if i > 0 { SumMember(f, ts[1..], i - 1); }
  }

  lemma {:induction false} SumPositive(f: Task -> nat, ts: seq<Task>) returns (i: nat)
    requires Sum(f, ts) > 0
    ensures i < |ts| && f(ts[i]) > 0
  {
    if f(ts[0]) > 0 { i := 0; } else { var j := SumPositive(f, ts[1..]); i := j + 1; }
  }

  lemma {:induction false} SumLe(f: Task -> nat, g: Task -> nat, ts: seq<Task>)
    requires forall t: Task :: f(t) <= g(t)
    ensures Sum(f, ts) <= Sum(g, ts)
  {
    if ts != [] { SumLe(f, g, ts[1..]); }
  }

  // ---------------------------------------------------------------- invariant

  predicate QueuesKnown(s: State) {
    forall i :: 0 <= i < |s.sched.queues| ==> s.sched.queues[i].id in s.jobs
  }

  predicate SchedOk(s: State) {
    S.Valid(s.sched) && QueuesKnown(s)
  }

  /** The permits in use are those of the busy workers, and within the configured maximum. */
  predicate PermitsOk(c: Settings, s: State) {
    && G.InBounds(GateParams(c), s.gate)
    && s.gate.inUse == Sum(Holding, s.tasks) <= c.globalMaxConcurrency
  }

  /** The waiters of the condition variable are exactly the sleeping workers, each once. */
  ghost predicate WaitersOk(s: State) {
    && G.Distinct(s.gate.waiters)
    && forall t: nat :: G.Waits(s.gate.waiters, t) <==> t < |s.tasks| && s.tasks[t].Asleep?
  }

  /** If somebody sleeps un-notified, a permit is held or somebody else has been notified. */
  predicate NoLostWakeup(s: State) {
    Working(s) && G.AnyAsleep(s.gate.waiters) ==> s.gate.inUse > 0 || G.AnyNotified(s.gate.waiters)
  }

  /** The pool is bounded, and while the engine works, pending items have a live worker. */
  predicate PoolOk(c: Settings, s: State) {
    && Sum(Live, s.tasks) <= c.workerPoolSize
    && (Working(s) && s.sched.pending > 0 ==> Sum(Live, s.tasks) >= 1)
  }

  ghost predicate PoolInv(c: Settings, s: State) {
    SchedOk(s) && PermitsOk(c, s) && WaitersOk(s) && NoLostWakeup(s) && PoolOk(c, s)
  }

  lemma UsableGate(c: Settings)
    requires Usable(c)
    ensures G.Sound(GateParams(c)) && GateParams(c).minimum >= 1
    ensures GateParams(c).maximum == c.globalMaxConcurrency
  {
  }

  lemma InitPool(c: Settings)
    requires Usable(c)
    ensures PoolInv(c, Init(c))
  {
    UsableGate(c);
    assert Sum(Holding, []) == 0 && Sum(Live, []) == 0;
  }

  // ---------------------------------------------------------------- submit and cancel

  lemma SpawnKeepsPool(c: Settings, s: State)
    requires Usable(c) && Sum(Live, s.tasks) <= c.workerPoolSize
    ensures var s' := EnsureWorkers(c, s);
            && 1 <= Sum(Live, s'.tasks) <= c.workerPoolSize
            && Sum(Holding, s'.tasks) == Sum(Holding, s.tasks)
            && forall t: nat :: (t < |s'.tasks| && s'.tasks[t].Asleep?) <==> (t < |s.tasks| && s.tasks[t].Asleep?)
  {
    var n := SpawnCount(c, Sum(Live, s.tasks), s.sched.pending);
    SumAppend(Live, s.tasks, Readies(n));
    SumAppend(Holding, s.tasks, Readies(n));
    SumReadies(Live, n);
    SumReadies(Holding, n);
  }

  lemma RegisterKeepsSched(c: Settings, s: State, req: Request, id: JobId)
    requires SchedOk(s) && id !in s.jobs
    ensures SchedOk(Register(c, s, req, id))
    ensures Register(c, s, req, id).sched.pending == s.sched.pending + |req.prompts|
    ensures forall j :: S.ItemsOf(Register(c, s, req, id).sched.queues, j)
                        == if j == id then Accounting.WorkItems(req.prompts) else S.ItemsOf(s.sched.queues, j)
    ensures S.ItemsOf(s.sched.queues, id) == []
  {
    assert !S.Has(s.sched.queues, id);
    S.NothingQueued(s.sched.queues, id);
    S.AddFresh(s.sched, id, Accounting.WorkItems(req.prompts), req.priority);
  }


  lemma SubmitKeepsPool(c: Settings, s: State, req: Request, id: JobId)
    requires Usable(c) && PoolInv(c, s) && Enabled(s, Submit(req, id))
    ensures PoolInv(c, Next(c, s, Submit(req, id)))
  {
    if Judge(c, s, req) == Accepted {
      RegisterKeepsSched(c, s, req, id);
      SpawnKeepsPool(c, Register(c, s, req, id));
    }
  }

  lemma CancelKeepsSched(s: State, id: JobId)
    requires SchedOk(s)
    ensures SchedOk(CancelJob(s, id))
    ensures CancelJob(s, id).sched.pending <= s.sched.pending
    ensures CancelJob(s, id) != s ==>
              forall j :: S.ItemsOf(CancelJob(s, id).sched.queues, j)
                          == if j == id then [] else S.ItemsOf(s.sched.queues, j)
  {
    S.RemoveEffect(s.sched.queues, id);
    var s' := CancelJob(s, id);
    if s' != s {
      forall i | 0 <= i < |s'.sched.queues| ensures s'.sched.queues[i].id in s'.jobs {
        assert s'.sched.queues[i] in s.sched.queues;
      }
    }
  }

  // ---------------------------------------------------------------- taking a permit

  /** The gate and the waiters once task `t` has been taken off its future. */
  ghost predicate Detached(s: State, t: nat) {
    && t < |s.tasks| && (s.tasks[t].Ready? || s.tasks[t].Asleep?)
    && G.Distinct(s.gate.waiters) && !G.Waits(s.gate.waiters, t)
    && forall u: nat :: u != t ==> (G.Waits(s.gate.waiters, u) <==> u < |s.tasks| && s.tasks[u].Asleep?)
  }

  lemma UnwaitDetaches(s: State, t: nat)
    requires WaitersOk(s) && t < |s.tasks| && s.tasks[t].Asleep?
    ensures Detached(Unwait(s, t), t)
  {
    G.LeaveEffect(s.gate.waiters, t);
    var ws, left := s.gate.waiters, G.Leave(s.gate.waiters, t);
    forall u: nat ensures G.Waits(left, u) <==> u != t && G.Waits(ws, u) {
      if G.Waits(left, u) {
        var i :| 0 <= i < |left| && left[i].task == u;
        assert left[i] in ws;
        var k :| 0 <= k < |ws| && ws[k] == left[i];
      }
      if u != t && G.Waits(ws, u) {
        var i :| 0 <= i < |ws| && ws[i].task == u;
        assert ws[i] in left;
        var k :| 0 <= k < |left| && left[k] == ws[i];
      }
    }
  }

  /** The three ways a pop can go, on a scheduler in good order. */
  lemma FetchSched(s: State, t: nat)
    requires SchedOk(s) && t < |s.tasks|
    ensures SchedOk(Fetch(s, t))
    ensures Fetch(s, t).sched.pending == s.sched.pending - (if s.sched.pending > 0 then 1 else 0)
    ensures Fetch(s, t).tasks[t].Done? ==> s.sched.pending == 0
    ensures Fetch(s, t).sched == S.Pop(s.sched).sched
  {
    S.PopEffect(s.sched);
    R.PopKeepsIds(s.sched, s.jobs.Keys);
  }

  lemma FetchPermits(c: Settings, s: State, t: nat, p: S.Popped)
    requires Usable(c) && t < |s.tasks| && !s.tasks[t].Busy? && !s.tasks[t].Done?
    requires G.InBounds(GateParams(c), s.gate)
    requires s.gate.inUse == Sum(Holding, s.tasks) + 1 <= c.globalMaxConcurrency
    ensures var s' := FetchFrom(s, t, p);
            && PermitsOk(c, s')
            && Sum(Live, s'.tasks) == Sum(Live, s.tasks) - (if s'.tasks[t].Done? then 1 else 0)
            && (G.AnyAsleep(s'.gate.waiters) ==> s'.gate.inUse > 0 || G.AnyNotified(s'.gate.waiters))
  {
    var s' := FetchFrom(s, t, p);
    SumUpdate(Holding, s.tasks, t, s'.tasks[t]);
    SumUpdate(Live, s.tasks, t, s'.tasks[t]);
    assert s'.tasks == s.tasks[t := s'.tasks[t]];
    G.NotifyEffect(s.gate.waiters);
    AsleepBefore(s.gate.waiters);
  }

  lemma AsleepBefore(ws: seq<G.Waiter>)
    ensures G.AnyAsleep(G.Notify(ws)) ==> G.AnyAsleep(ws)
  {
    G.NotifyEffect(ws);
  }

  lemma FetchWaiters(s: State, t: nat, p: S.Popped)
    requires Detached(s, t)
    ensures WaitersOk(FetchFrom(s, t, p))
  {
    G.NotifyKeepsTasks(s.gate.waiters);
    var s' := FetchFrom(s, t, p);
    assert s'.tasks == s.tasks[t := s'.tasks[t]] && !s'.tasks[t].Asleep?;
  }

  lemma BlockWaiters(s: State, t: nat)
    requires Detached(s, t) && !G.MayEnter(s.gate)
    ensures WaitersOk(TakePermit(s, t))
  {
    var ws, ws' := s.gate.waiters, s.gate.waiters + [G.Waiter(t, false)];
    forall u: nat ensures G.Waits(ws', u) <==> u == t || G.Waits(ws, u) {
      if G.Waits(ws, u) {
        var i :| 0 <= i < |ws| && ws[i].task == u;
        assert ws'[i].task == u;
      }
      assert ws'[|ws|].task == t;
    }
    forall i, j | 0 <= i < j < |ws'| ensures ws'[i].task != ws'[j].task {
      if j == |ws| { assert ws[i].task != t; }
    }
  }

  /** Whatever the wake-up state before, a task that goes through the gate leaves no wake-up lost. */
  lemma TakePermitKeepsPool(c: Settings, s: State, t: nat)
    requires Usable(c) && SchedOk(s) && PermitsOk(c, s) && PoolOk(c, s) && Detached(s, t) && Working(s)
    ensures PoolInv(c, TakePermit(s, t))
  {
    UsableGate(c);
    if G.MayEnter(s.gate) {
      var e := s.(gate := G.Enter(s.gate));
      FetchSched(e, t);
      FetchPermits(c, e, t, S.Pop(e.sched));
      FetchWaiters(e, t, S.Pop(e.sched));
      SumMember(Live, s.tasks, t);
    } else {
      SumUpdate(Holding, s.tasks, t, Asleep);
      SumUpdate(Live, s.tasks, t, Asleep);
      BlockWaiters(s, t);
    }
  }

  /** `s'` differs from `s` in one task and, of the jobs, only in how much was handed out. */
  ghost predicate OnlyFetched(s: State, s': State, t: nat)
    requires t < |s.tasks|
  {
    && s'.jobs.Keys == s.jobs.Keys
    && (forall id :: id in s.jobs ==>
          && s'.jobs[id] == s.jobs[id].(dequeued := s'.jobs[id].dequeued)
          && s.jobs[id].dequeued <= s'.jobs[id].dequeued)
    && s' == s.(sched := s'.sched, gate := s'.gate, jobs := s'.jobs, tasks := s'.tasks)
    && |s'.tasks| == |s.tasks| && s'.tasks == s.tasks[t := s'.tasks[t]]
  }

  lemma FetchFrame(s: State, t: nat, p: S.Popped)
    requires t < |s.tasks|
    ensures OnlyFetched(s, FetchFrom(s, t, p), t)
  {
  }

  lemma TakePermitFrame(s: State, t: nat)
    requires t < |s.tasks|
    ensures OnlyFetched(s, TakePermit(s, t), t)
  {
    if G.MayEnter(s.gate) {
      var e := s.(gate := G.Enter(s.gate));
      FetchFrame(e, t, S.Pop(e.sched));
    }
  }

  // ---------------------------------------------------------------- busy workers

  /** A change to one busy worker that keeps it busy, and to nothing the pool looks at. */
  lemma StayBusy(c: Settings, s: State, t: nat, x: Task)
    requires PoolInv(c, s) && t < |s.tasks| && s.tasks[t].Busy? && x.Busy?
    ensures PoolInv(c, s.(tasks := s.tasks[t := x]))
  {
    SumUpdate(Holding, s.tasks, t, x);
    SumUpdate(Live, s.tasks, t, x);
  }

  /** Moving the limit keeps every permit. */
  lemma AdjustKeepsPool(c: Settings, s: State, e: G.Event)
    requires Usable(c) && PoolInv(c, s)
    ensures PoolInv(c, s.(gate := G.Adjust(GateParams(c), s.gate, e)))
  {
    UsableGate(c);
    if e.Throttled? { G.ThrottleInBounds(GateParams(c), s.gate); }
  }

  /** A busy worker gives its permit back. */
  lemma ReleaseKeepsPool(c: Settings, s: State, t: nat, x: Task)
    requires Usable(c) && PoolInv(c, s) && t < |s.tasks| && s.tasks[t].Busy?
    requires x.Ready? || (x.Done? && !Working(s))
    ensures PoolInv(c, s.(tasks := s.tasks[t := x], gate := G.Release(s.gate)))
  {
    SumUpdate(Holding, s.tasks, t, x);
    SumUpdate(Live, s.tasks, t, x);
    G.NotifyEffect(s.gate.waiters);
    G.NotifyKeepsTasks(s.gate.waiters);
    AsleepBefore(s.gate.waiters);
  }

  lemma SettleKeepsPool(c: Settings, s: State, t: nat, r: InferenceResult)
    requires Usable(c) && PoolInv(c, s) && t < |s.tasks| && s.tasks[t].Busy? && s.tasks[t].job in s.jobs
    ensures PoolInv(c, Settle(c, s, t, r))
  {
    ReleaseKeepsPool(c, s, t, Ready);
  }

  lemma RetryKeepsPool(c: Settings, s: State, t: nat, hint: real)
    requires Usable(c) && PoolInv(c, s) && t < |s.tasks| && s.tasks[t].Busy? && s.tasks[t].job in s.jobs
    requires s.tasks[t].attempt >= 1
    ensures PoolInv(c, Retry(c, s, t, hint))
  {
    AdjustKeepsPool(c, s, G.Throttled);
    StayBusy(c, s.(gate := G.Throttle(GateParams(c), s.gate)), t, Retry(c, s, t, hint).tasks[t]);
  }

  lemma AnswerKeepsPool(c: Settings, s: State, t: nat, outcome: Outcome)
    requires Usable(c) && PoolInv(c, s) && Enabled(s, Reply(t, outcome))
    ensures PoolInv(c, Answer(c, s, t, outcome))
  {
    var r := ResultOf(c, s.tasks[t].item, s.tasks[t].attempt, outcome);
    if r.None? {
      RetryKeepsPool(c, s, t, outcome.retryAfter);
    } else {
      AdjustKeepsPool(c, s, G.Succeeded);
      SettleKeepsPool(c, Noted(c, s, outcome), t, r.value);
    }
  }

  lemma KillKeepsPool(c: Settings, s: State, t: nat)
    requires Usable(c) && PoolInv(c, s) && Enabled(s, Kill(t))
    ensures PoolInv(c, KillTask(s, t))
  {
    match s.tasks[t]
    case Asleep =>
      UnwaitDetaches(s, t);
      SumUpdate(Holding, s.tasks, t, Done);
      SumUpdate(Live, s.tasks, t, Done);
    case Busy(id, item, _, _, _) =>
      ReleaseKeepsPool(c, s, t, Done);
    case Ready =>
      SumUpdate(Holding, s.tasks, t, Done);
      SumUpdate(Live, s.tasks, t, Done);
  }

  // ---------------------------------------------------------------- every step

  lemma StepKeepsPool(c: Settings, s: State, step: Step)
    requires Usable(c) && PoolInv(c, s) && Enabled(s, step)
    ensures PoolInv(c, Next(c, s, step))
  {
    match step
    case Submit(req, id) => SubmitKeepsPool(c, s, req, id);
    case Cancel(id) => CancelKeepsSched(s, id);
    case Start(t) => TakePermitKeepsPool(c, s, t);
    case Wake(t) =>
      UnwaitDetaches(s, t);
      TakePermitKeepsPool(c, Unwait(s, t), t);
    case Admit(t) => StayBusy(c, s, t, Next(c, s, step).tasks[t]);
    case Refuse(t) => StayBusy(c, s, t, Next(c, s, step).tasks[t]);
    case Reply(t, outcome) => AnswerKeepsPool(c, s, t, outcome);
    case Continue(t) => StayBusy(c, s, t, Next(c, s, step).tasks[t]);
    case Kill(t) => KillKeepsPool(c, s, t);
    case _ => QuietStepKeepsPool(c, s, step);
  }

  /** Time passes, or the engine goes down one phase. */
  lemma QuietStepKeepsPool(c: Settings, s: State, step: Step)
    requires Usable(c) && PoolInv(c, s) && Enabled(s, step)
    requires step.Wait? || step.BeginShutdown? || step.GraceOver? || step.FinishShutdown?
    ensures PoolInv(c, Next(c, s, step))
  {
  }

  /**
   In every reachable state: permits in use equal busy workers and respect both caps, pending
   work has a live worker, and no wake-up is lost.
   */
  lemma {:induction false} PoolSafety(c: Settings, s: State, steps: seq<Step>)
    requires Usable(c) && PoolInv(c, s) && Runnable(c, s, steps)
    ensures PoolInv(c, Run(c, s, steps))
    ensures Run(c, s, steps).gate.inUse <= Min(c.workerPoolSize, c.globalMaxConcurrency)
    decreases |steps|
  {
    if steps != [] {
      StepKeepsPool(c, s, steps[0]);
      PoolSafety(c, Next(c, s, steps[0]), steps[1..]);
    } else {
      SumLe(Holding, Live, s.tasks);
    }
  }

  lemma TakePermitRises(s: State, t: nat)
    requires t < |s.tasks|
    ensures TakePermit(s, t).gate.inUse > s.gate.inUse ==>
              s.gate.inUse < s.gate.limit && TakePermit(s, t).gate.inUse == s.gate.inUse + 1
  {
  }

  /** The permits in use never rise while they are at or above the limit. */
  lemma PermitsRiseOnlyBelowLimit(c: Settings, s: State, step: Step)
    requires Usable(c) && Enabled(s, step)
    ensures Next(c, s, step).gate.inUse > s.gate.inUse ==>
              && s.gate.inUse < s.gate.limit && (step.Start? || step.Wake?)
              && Next(c, s, step).gate.inUse == s.gate.inUse + 1
  {
    match step
    case Start(t) => TakePermitRises(s, t);
    case Wake(t) => TakePermitRises(Unwait(s, t), t);
    case _ =>
  }
}
