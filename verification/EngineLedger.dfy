/**
 The ledger of rate limiting: every 429 seen is either a retry or an exhausted budget, the
 retries of the jobs add up to the counters, and no job retries more than its budget.
 */
module EngineLedger {
  import opened Models
  import opened EngineSpec
  import opened EnginePool
  import opened EngineLiveness
  import opened EngineJobs
  import S = SchedulerSpec
  import G = LimiterSpec
  import R = Retry

  /** Every job appears exactly once in the insertion order. */
  ghost predicate OrderOk(s: State) {
    && (forall i, j :: 0 <= i < j < |s.order| ==> s.order[i] != s.order[j])
    && (forall id :: id in s.order <==> id in s.jobs)
  }

  function RetryTotal(order: seq<JobId>, jobs: map<JobId, Job>): int {
    if order == [] then 0 else (if order[0] in jobs then jobs[order[0]].retries else 0) + RetryTotal(order[1..], jobs)
  }

  predicate CountersOk(s: State) {
    s.counters.rateLimited == s.counters.retries == RetryTotal(s.order, s.jobs)
  }

  /** The retries a worker has not used yet on the item it carries for a job. */
  function Unspent(budget: nat, id: JobId): Task -> nat {
    (t: Task) =>
      if Carries(t, id) then Max(0, budget - (t.attempt - 1) - (if t.phase == BackingOff then 1 else 0)) else 0
  }

  /** A job's retries, with those its workers may still make, fit the budget of the items handed out. */
  predicate RetriesFit(c: Settings, s: State, id: JobId)
    requires id in s.jobs
  {
    0 <= s.jobs[id].retries
    && s.jobs[id].retries + Sum(Unspent(R.Allowed(c.maxRetries), id), s.tasks) <= R.Allowed(c.maxRetries) * s.jobs[id].dequeued
  }

  ghost predicate LedgerInv(c: Settings, s: State) {
    OrderOk(s) && CountersOk(s) && forall id :: id in s.jobs ==> RetriesFit(c, s, id)
  }

  // ---------------------------------------------------------------- totals

  lemma {:induction false} TotalSame(order: seq<JobId>, a: map<JobId, Job>, b: map<JobId, Job>)
    requires a.Keys == b.Keys && forall id :: id in a ==> a[id].retries == b[id].retries
    ensures RetryTotal(order, a) == RetryTotal(order, b)
  {
    if order != [] { TotalSame(order[1..], a, b); }
  }

  lemma {:induction false} TotalAbsent(order: seq<JobId>, jobs: map<JobId, Job>, id: JobId, job: Job)
    requires id !in order
    ensures RetryTotal(order, jobs[id := job]) == RetryTotal(order, jobs)
  {
    if order != [] {
      assert order[0] in order;
      assert id !in order[1..];
      TotalAbsent(order[1..], jobs, id, job);
    }
  }

  lemma {:induction false} TotalUpdate(order: seq<JobId>, jobs: map<JobId, Job>, id: JobId, job: Job)
    requires id in order && id in jobs && forall i, j :: 0 <= i < j < |order| ==> order[i] != order[j]
    ensures RetryTotal(order, jobs[id := job]) == RetryTotal(order, jobs) - jobs[id].retries + job.retries
  {
    var rest := order[1..];
    assert forall i :: 0 <= i < |rest| ==> rest[i] == order[i + 1];
    if order[0] == id {
      assert id !in rest;
      TotalAbsent(rest, jobs, id, job);
    } else {
      TotalUpdate(rest, jobs, id, job);
    }
  }

  lemma {:induction false} TotalAppend(order: seq<JobId>, jobs: map<JobId, Job>, id: JobId)
    requires id in jobs
    ensures RetryTotal(order + [id], jobs) == RetryTotal(order, jobs) + jobs[id].retries
  {
    if order != [] {
      assert (order + [id])[1..] == order[1..] + [id];
      TotalAppend(order[1..], jobs, id);
    } else {
      assert [id][1..] == [];
    }
  }

  lemma {:induction false} NobodyCarries(budget: nat, id: JobId, ts: seq<Task>)
    requires forall t :: 0 <= t < |ts| ==> !Carries(ts[t], id)
    ensures Sum(Unspent(budget, id), ts) == 0
  {
    if ts != [] {
      assert !Carries(ts[0], id);
      assert forall t :: 0 <= t < |ts[1..]| ==> ts[1..][t] == ts[t + 1];
      NobodyCarries(budget, id, ts[1..]);
    }
  }

  // ---------------------------------------------------------------- steps

  /** One task changed, without more retries to come than before; retries and hand-outs as before. */
  lemma TaskChangeKeepsLedger(c: Settings, s: State, s': State, t: nat, x: Task)
    requires LedgerInv(c, s) && t < |s.tasks| && s'.tasks == s.tasks[t := x]
    requires s'.jobs.Keys == s.jobs.Keys && s'.order == s.order
    requires s'.counters.rateLimited == s.counters.rateLimited && s'.counters.retries == s.counters.retries
    requires forall id :: id in s.jobs ==>
               s'.jobs[id].retries == s.jobs[id].retries && s'.jobs[id].dequeued == s.jobs[id].dequeued
    requires forall id :: Unspent(R.Allowed(c.maxRetries), id)(x) <= Unspent(R.Allowed(c.maxRetries), id)(s.tasks[t])
    ensures LedgerInv(c, s')
  {
    TotalSame(s.order, s.jobs, s'.jobs);
    forall id | id in s'.jobs ensures RetriesFit(c, s', id) {
      assert RetriesFit(c, s, id);
      SumUpdate(Unspent(R.Allowed(c.maxRetries), id), s.tasks, t, x);
    }
  }

  lemma SameLedger(c: Settings, s: State, s': State)
    requires LedgerInv(c, s) && s'.tasks == s.tasks && s'.order == s.order && s'.counters == s.counters
    requires s'.jobs.Keys == s.jobs.Keys
    requires forall id :: id in s.jobs ==>
               s'.jobs[id].retries == s.jobs[id].retries && s'.jobs[id].dequeued == s.jobs[id].dequeued
    ensures LedgerInv(c, s')
  {
    TotalSame(s.order, s.jobs, s'.jobs);
    forall id | id in s'.jobs ensures RetriesFit(c, s', id) { assert RetriesFit(c, s, id); }
  }

  lemma RegisterKeepsLedger(c: Settings, s: State, req: Request, id: JobId)
    requires JobsInv(s) && LedgerInv(c, s) && id !in s.jobs
    ensures LedgerInv(c, Register(c, s, req, id))
  {
    var s' := Register(c, s, req, id);
    TotalAbsent(s.order, s.jobs, id, NewJob(c, req));
    TotalAppend(s.order, s'.jobs, id);
    forall t | 0 <= t < |s.tasks| ensures !Carries(s.tasks[t], id) { assert TaskOk(s, s.tasks[t]); }
    NobodyCarries(R.Allowed(c.maxRetries), id, s.tasks);
    forall j | j in s'.jobs ensures RetriesFit(c, s', j) {
      if j != id { assert RetriesFit(c, s, j); }
    }
  }

  lemma SpawnKeepsLedger(c: Settings, s: State, n: nat)
    requires LedgerInv(c, s)
    ensures LedgerInv(c, s.(tasks := s.tasks + Readies(n)))
  {
    var s' := s.(tasks := s.tasks + Readies(n));
    forall j | j in s'.jobs ensures RetriesFit(c, s', j) {
      assert RetriesFit(c, s, j);
      SumAppend(Unspent(R.Allowed(c.maxRetries), j), s.tasks, Readies(n));
      SumReadies(Unspent(R.Allowed(c.maxRetries), j), n);
    }
  }

  lemma SubmitKeepsLedger(c: Settings, s: State, req: Request, id: JobId)
    requires JobsInv(s) && LedgerInv(c, s) && id !in s.jobs
    ensures LedgerInv(c, EnsureWorkers(c, Register(c, s, req, id)))
  {
    RegisterKeepsLedger(c, s, req, id);
    var s1 := Register(c, s, req, id);
    SpawnKeepsLedger(c, s1, SpawnCount(c, Sum(Live, s1.tasks), s1.sched.pending));
  }

  lemma MoreHandedOut(b: nat, d: nat)
    ensures b * (d + 1) == b * d + b
  {
  }

  /** A worker takes an item: its whole budget is reserved. */
  lemma GotKeepsLedger(c: Settings, s: State, s': State, t: nat, id: JobId, item: WorkItem)
    requires LedgerInv(c, s) && id in s.jobs && t < |s.tasks| && !s.tasks[t].Busy?
    requires s'.tasks == s.tasks[t := Busy(id, item, 1, AtBucket, 0.0)] && s'.order == s.order && s'.counters == s.counters
    requires s'.jobs == s.jobs[id := s.jobs[id].(dequeued := s.jobs[id].dequeued + 1)]
    ensures LedgerInv(c, s')
  {
    TotalSame(s.order, s.jobs, s'.jobs);
    forall j | j in s'.jobs ensures RetriesFit(c, s', j) {
      assert RetriesFit(c, s, j);
      SumUpdate(Unspent(R.Allowed(c.maxRetries), j), s.tasks, t, Busy(id, item, 1, AtBucket, 0.0));
      MoreHandedOut(R.Allowed(c.maxRetries), s.jobs[j].dequeued);
    }
  }

  lemma FetchKeepsLedger(c: Settings, s: State, t: nat, p: S.Popped)
    requires LedgerInv(c, s) && t < |s.tasks| && !s.tasks[t].Busy?
    ensures LedgerInv(c, FetchFrom(s, t, p))
  {
    var s' := FetchFrom(s, t, p);
    if s'.tasks[t].Busy? {
      GotKeepsLedger(c, s, s', t, s'.tasks[t].job, s'.tasks[t].item);
    } else {
      TaskChangeKeepsLedger(c, s, s', t, s'.tasks[t]);
    }
  }

  lemma TakePermitKeepsLedger(c: Settings, s: State, t: nat)
    requires LedgerInv(c, s) && t < |s.tasks| && !s.tasks[t].Busy?
    ensures LedgerInv(c, TakePermit(s, t))
  {
    if G.MayEnter(s.gate) {
      var e := s.(gate := G.Enter(s.gate));
      SameLedger(c, s, e);
      FetchKeepsLedger(c, e, t, S.Pop(e.sched));
    } else {
      TaskChangeKeepsLedger(c, s, TakePermit(s, t), t, Asleep);
    }
  }

  lemma SettleKeepsLedger(c: Settings, s: State, t: nat, r: InferenceResult)
    requires LedgerInv(c, s) && t < |s.tasks| && s.tasks[t].Busy? && s.tasks[t].job in s.jobs
    ensures LedgerInv(c, Settle(c, s, t, r))
  {
    TaskChangeKeepsLedger(c, s, Settle(c, s, t, r), t, Ready);
  }

  lemma RetryKeepsLedger(c: Settings, s: State, t: nat, hint: real)
    requires LedgerInv(c, s) && t < |s.tasks| && s.tasks[t].Busy? && s.tasks[t].job in s.jobs
    requires s.tasks[t].phase == Calling && 1 <= s.tasks[t].attempt <= c.maxRetries
    ensures LedgerInv(c, Retry(c, s, t, hint))
  {
    var s', id := Retry(c, s, t, hint), s.tasks[t].job;
    TotalUpdate(s.order, s.jobs, id, s'.jobs[id]);
    forall j | j in s'.jobs ensures RetriesFit(c, s', j) {
      assert RetriesFit(c, s, j);
      RetryFits(c, s, s', t, j);
    }
  }

  /** A retry takes one unit from what its worker had left. */
  lemma RetryFits(c: Settings, s: State, s': State, t: nat, j: JobId)
    requires t < |s.tasks| && |s'.tasks| == |s.tasks| && s'.tasks == s.tasks[t := s'.tasks[t]]
    requires s.tasks[t].Busy? && s.tasks[t].phase == Calling && 1 <= s.tasks[t].attempt <= c.maxRetries
    requires s'.tasks[t].Busy? && s'.tasks[t] == s.tasks[t].(phase := BackingOff, due := s'.tasks[t].due)
    requires j in s.jobs && j in s'.jobs && RetriesFit(c, s, j) && s'.jobs[j].dequeued == s.jobs[j].dequeued
    requires s'.jobs[j].retries == s.jobs[j].retries + (if s.tasks[t].job == j then 1 else 0)
    ensures RetriesFit(c, s', j)
  {
    SumUpdate(Unspent(R.Allowed(c.maxRetries), j), s.tasks, t, s'.tasks[t]);
  }

  lemma NotedKeepsLedger(c: Settings, s: State, outcome: Outcome)
    requires LedgerInv(c, s)
    ensures LedgerInv(c, Noted(c, s, outcome))
  {
    var s' := Noted(c, s, outcome);
    forall j | j in s'.jobs ensures RetriesFit(c, s', j) { assert RetriesFit(c, s, j); }
  }

  lemma AnswerKeepsLedger(c: Settings, s: State, t: nat, outcome: Outcome)
    requires Usable(c) && LedgerInv(c, s) && AttemptsOk(c, s) && Enabled(s, Reply(t, outcome))
    ensures LedgerInv(c, Answer(c, s, t, outcome))
  {
    assert AttemptOk(c, s.tasks[t]);
    var r := ResultOf(c, s.tasks[t].item, s.tasks[t].attempt, outcome);
    if r.None? {
      RetryKeepsLedger(c, s, t, outcome.retryAfter);
    } else {
      NotedKeepsLedger(c, s, outcome);
      SettleKeepsLedger(c, Noted(c, s, outcome), t, r.value);
    }
  }

  lemma KillKeepsLedger(c: Settings, s: State, t: nat)
    requires LedgerInv(c, s) && t < |s.tasks|
    ensures LedgerInv(c, KillTask(s, t))
  {
    TaskChangeKeepsLedger(c, s, KillTask(s, t), t, Done);
  }

  lemma CallStepKeepsLedger(c: Settings, s: State, step: Step)
    requires Usable(c) && LedgerInv(c, s) && AttemptsOk(c, s) && Enabled(s, step)
    requires step.Admit? || step.Refuse? || step.Continue?
    ensures LedgerInv(c, Next(c, s, step))
  {
    assert AttemptOk(c, s.tasks[step.t]);
    var s' := Next(c, s, step);
    TaskChangeKeepsLedger(c, s, s', step.t, s'.tasks[step.t]);
  }

  lemma WakeKeepsLedger(c: Settings, s: State, t: nat)
    requires LedgerInv(c, s) && t < |s.tasks| && !s.tasks[t].Busy?
    ensures LedgerInv(c, TakePermit(Unwait(s, t), t))
  {
    SameLedger(c, s, Unwait(s, t));
    TakePermitKeepsLedger(c, Unwait(s, t), t);
  }

  lemma CancelKeepsLedger(c: Settings, s: State, id: JobId)
    requires LedgerInv(c, s)
    ensures LedgerInv(c, CancelJob(s, id))
  {
    SameLedger(c, s, CancelJob(s, id));
  }

  lemma FinishKeepsLedger(c: Settings, s: State)
    requires LedgerInv(c, s)
    ensures LedgerInv(c, InterruptAll(s))
  {
    SameLedger(c, s, InterruptAll(s));
  }

  lemma StepKeepsLedger(c: Settings, s: State, step: Step)
    requires Usable(c) && JobsInv(s) && LedgerInv(c, s) && AttemptsOk(c, s) && Enabled(s, step)
    ensures LedgerInv(c, Next(c, s, step))
  {
    match step
    case Submit(req, id) =>
      if Judge(c, s, req) == Accepted { SubmitKeepsLedger(c, s, req, id); }
    case Start(t) => TakePermitKeepsLedger(c, s, t);
    case Wake(t) => WakeKeepsLedger(c, s, t);
    case Admit(t) => CallStepKeepsLedger(c, s, step);
    case Refuse(t) => CallStepKeepsLedger(c, s, step);
    case Continue(t) => CallStepKeepsLedger(c, s, step);
    case Reply(t, outcome) => AnswerKeepsLedger(c, s, t, outcome);
    case Kill(t) => KillKeepsLedger(c, s, t);
    case Cancel(id) => CancelKeepsLedger(c, s, id);
    case FinishShutdown => FinishKeepsLedger(c, s);
    case _ => SameLedger(c, s, Next(c, s, step));
  }
}
