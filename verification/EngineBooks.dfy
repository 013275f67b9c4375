/**
 The books of every job: each result belongs to its prompt, and the counters, token totals and
 cost are the sums over the results.
 */
module EngineBooks {
  import opened Models
  import opened Accounting
  import opened EngineSpec
  import opened EnginePool
  import opened EngineJobs

  predicate ResultFits(c: Settings, r: InferenceResult, item: WorkItem) {
    r.id == item.id && r.prompt == item.prompt && Priced(r, c.costIn, c.costOut)
  }

  predicate ResultsFit(c: Settings, job: Job) {
    forall k :: k in job.results ==> k < |job.items| && ResultFits(c, job.results[k], job.items[k])
  }

  predicate TotalsOk(c: Settings, job: Job) {
    && job.completed == job.succeeded + job.failed
    && job.succeeded == Tally(job.results, job.total, Success)
    && job.failed == Tally(job.results, job.total, Failure)
    && job.inputTokens == Tally(job.results, job.total, InputTokens)
    && job.outputTokens == Tally(job.results, job.total, OutputTokens)
    && job.cost == TallyReal(job.results, job.total, ExactPrice(c.costIn, c.costOut))
  }

  /** Every item has an id to show. */
  predicate Named(job: Job) {
    forall k :: 0 <= k < |job.items| ==> job.items[k].id != ""
  }

  /** The items are those of the prompts submitted, and the fingerprint is that of the payload. */
  predicate Signed(c: Settings, job: Job) {
    job.items == WorkItems(job.prompts) && job.fingerprint == c.hash(job.priority, job.prompts)
  }

  predicate BooksOk(c: Settings, job: Job) {
    ResultsFit(c, job) && TotalsOk(c, job) && Named(job) && Signed(c, job)
  }

  predicate BooksInv(c: Settings, s: State) {
    forall id :: id in s.jobs ==> BooksOk(c, s.jobs[id])
  }

  lemma {:induction false} EmptyTally(n: nat, f: InferenceResult -> int)
    ensures Tally(map[], n, f) == 0
  {
    if n > 0 { EmptyTally(n - 1, f); }
  }

  lemma {:induction false} EmptyTallyReal(n: nat, f: InferenceResult -> real)
    ensures TallyReal(map[], n, f) == 0.0
  {
    if n > 0 { EmptyTallyReal(n - 1, f); }
  }

  lemma NewBooks(c: Settings, req: Request)
    ensures BooksOk(c, NewJob(c, req))
  {
    var n := |req.prompts|;
    EmptyTally(n, Success);
    EmptyTally(n, Failure);
    EmptyTally(n, InputTokens);
    EmptyTally(n, OutputTokens);
    EmptyTallyReal(n, ExactPrice(c.costIn, c.costOut));
  }

  lemma CreditTotals(c: Settings, job: Job, index: nat, r: InferenceResult)
    requires TotalsOk(c, job) && index !in job.results && index < job.total
    ensures TotalsOk(c, Credit(c, job, index, r))
  {
    TallyInsert(job.results, job.total, Success, index, r);
    TallyInsert(job.results, job.total, Failure, index, r);
    TallyInsert(job.results, job.total, InputTokens, index, r);
    TallyInsert(job.results, job.total, OutputTokens, index, r);
    TallyRealInsert(job.results, job.total, ExactPrice(c.costIn, c.costOut), index, r);
    assert ExactPrice(c.costIn, c.costOut)(r)
           == if r.success then Price(r.inputTokens, r.outputTokens, c.costIn, c.costOut) else 0.0;
  }

  /** The item a busy worker holds is one of its job's, not answered yet. */
  lemma HeldItem(s: State, t: nat)
    requires JobsInv(s) && t < |s.tasks| && s.tasks[t].Busy?
    ensures var id, item := s.tasks[t].job, s.tasks[t].item;
            && id in s.jobs && item.index < s.jobs[id].dequeued <= s.jobs[id].total == |s.jobs[id].items|
            && item == s.jobs[id].items[item.index] && item.index !in s.jobs[id].results
  {
    assert TaskOk(s, s.tasks[t]);
    FlyingMember(s.tasks, t);
    assert JobAt(s, s.tasks[t].job);
  }

  lemma SettleKeepsBooks(c: Settings, s: State, t: nat, r: InferenceResult)
    requires JobsInv(s) && BooksInv(c, s) && t < |s.tasks| && s.tasks[t].Busy? && s.tasks[t].job in s.jobs
    requires ResultFits(c, r, s.tasks[t].item)
    ensures BooksInv(c, Settle(c, s, t, r))
  {
    HeldItem(s, t);
    var id, item := s.tasks[t].job, s.tasks[t].item;
    assert BooksOk(c, s.jobs[id]);
    CreditBooks(c, s.jobs[id], item, r);
    var s' := Settle(c, s, t, r);
    forall j | j in s'.jobs ensures BooksOk(c, s'.jobs[j]) {
      if j != id { assert BooksOk(c, s.jobs[j]); }
    }
  }

  lemma CreditBooks(c: Settings, job: Job, item: WorkItem, r: InferenceResult)
    requires BooksOk(c, job) && item.index !in job.results && item.index < job.total == |job.items|
    requires item == job.items[item.index] && ResultFits(c, r, item)
    ensures BooksOk(c, Credit(c, job, item.index, r))
  {
    CreditTotals(c, job, item.index, r);
    assert ResultsFit(c, Credit(c, job, item.index, r));
  }

  lemma SettleAfterKeepsBooks(c: Settings, s: State, s1: State, t: nat, r: InferenceResult)
    requires JobsInv(s) && BooksInv(c, s) && t < |s.tasks| && s.tasks[t].Busy? && s.tasks[t].job in s.jobs
    requires s1 == s.(gate := s1.gate, counters := s1.counters) && ResultFits(c, r, s.tasks[t].item)
    ensures BooksInv(c, Settle(c, s1, t, r))
  {
    SameJobsView(s, s1);
    SettleKeepsBooks(c, s1, t, r);
  }

  lemma AnswerKeepsBooks(c: Settings, s: State, t: nat, outcome: Outcome)
    requires Usable(c) && JobsInv(s) && BooksInv(c, s) && Enabled(s, Reply(t, outcome))
    ensures BooksInv(c, Answer(c, s, t, outcome))
  {
    var item, attempt := s.tasks[t].item, s.tasks[t].attempt;
    var r := ResultOf(c, item, attempt, outcome);
    if r.None? {
      RetryKeepsBooks(c, s, t, outcome.retryAfter);
    } else {
      ResultMatchesItem(c, item, attempt, outcome);
      SettleAfterKeepsBooks(c, s, Noted(c, s, outcome), t, r.value);
    }
  }

  lemma RetryKeepsBooks(c: Settings, s: State, t: nat, hint: real)
    requires BooksInv(c, s) && t < |s.tasks| && s.tasks[t].Busy? && s.tasks[t].job in s.jobs && s.tasks[t].attempt >= 1
    ensures BooksInv(c, Retry(c, s, t, hint))
  {
    BooksCarryOver(c, s, Retry(c, s, t, hint));
  }

  lemma ResultMatchesItem(c: Settings, item: WorkItem, attempt: nat, outcome: Outcome)
    requires c.charsPerToken != 0.0 && ResultOf(c, item, attempt, outcome).Some?
    ensures ResultFits(c, ResultOf(c, item, attempt, outcome).value, item)
  {
  }

  /** The fields of a job that the books are about. */
  predicate SameBooks(a: Job, b: Job) {
    && b.results == a.results && b.items == a.items && b.total == a.total && b.completed == a.completed
    && b.succeeded == a.succeeded && b.failed == a.failed
    && b.inputTokens == a.inputTokens && b.outputTokens == a.outputTokens && b.cost == a.cost
    && b.prompts == a.prompts && b.priority == a.priority && b.fingerprint == a.fingerprint
  }

  lemma BooksCarryOver(c: Settings, s: State, s': State)
    requires BooksInv(c, s) && s'.jobs.Keys == s.jobs.Keys
    requires forall id :: id in s.jobs ==> SameBooks(s.jobs[id], s'.jobs[id])
    ensures BooksInv(c, s')
  {
    forall id | id in s'.jobs ensures BooksOk(c, s'.jobs[id]) { assert BooksOk(c, s.jobs[id]) && SameBooks(s.jobs[id], s'.jobs[id]); }
  }

  lemma SubmitKeepsBooks(c: Settings, s: State, req: Request, id: JobId)
    requires BooksInv(c, s) && id !in s.jobs
    ensures BooksInv(c, EnsureWorkers(c, Register(c, s, req, id)))
  {
    NewBooks(c, req);
    var s' := EnsureWorkers(c, Register(c, s, req, id));
    forall j | j in s'.jobs ensures BooksOk(c, s'.jobs[j]) {
      if j != id { assert BooksOk(c, s.jobs[j]); }
    }
  }

  lemma TakePermitKeepsBooks(c: Settings, s: State, t: nat)
    requires BooksInv(c, s) && t < |s.tasks|
    ensures BooksInv(c, TakePermit(s, t))
  {
    TakePermitFrame(s, t);
    BooksCarryOver(c, s, TakePermit(s, t));
  }

  lemma WakeKeepsBooks(c: Settings, s: State, t: nat)
    requires BooksInv(c, s) && t < |s.tasks|
    ensures BooksInv(c, TakePermit(Unwait(s, t), t))
  {
    SameJobsKeepBooks(c, s, Unwait(s, t));
    TakePermitKeepsBooks(c, Unwait(s, t), t);
  }

  lemma CancelKeepsBooks(c: Settings, s: State, id: JobId)
    requires BooksInv(c, s)
    ensures BooksInv(c, CancelJob(s, id))
  {
    BooksCarryOver(c, s, CancelJob(s, id));
  }

  lemma KillKeepsBooks(c: Settings, s: State, t: nat)
    requires BooksInv(c, s) && t < |s.tasks|
    ensures BooksInv(c, KillTask(s, t))
  {
    BooksCarryOver(c, s, KillTask(s, t));
  }

  lemma FinishKeepsBooks(c: Settings, s: State)
    requires BooksInv(c, s)
    ensures BooksInv(c, InterruptAll(s))
  {
    BooksCarryOver(c, s, InterruptAll(s));
  }

  lemma SameJobsKeepBooks(c: Settings, s: State, s': State)
    requires BooksInv(c, s) && s'.jobs == s.jobs
    ensures BooksInv(c, s')
  {
  }

  /** The steps that leave all jobs alone. */
  lemma QuietStep(c: Settings, s: State, step: Step)
    requires Usable(c) && Enabled(s, step)
    requires step.Admit? || step.Refuse? || step.Continue? || step.Wait? || step.BeginShutdown? || step.GraceOver?
    ensures Next(c, s, step).jobs == s.jobs
  {
  }

  lemma StepKeepsBooks(c: Settings, s: State, step: Step)
    requires Usable(c) && JobsInv(s) && BooksInv(c, s) && Enabled(s, step)
    ensures BooksInv(c, Next(c, s, step))
  {
    match step
    case Submit(req, id) =>
      if Judge(c, s, req) == Accepted { SubmitKeepsBooks(c, s, req, id); }
    case Start(t) => TakePermitKeepsBooks(c, s, t);
    case Wake(t) => WakeKeepsBooks(c, s, t);
    case Reply(t, outcome) => AnswerKeepsBooks(c, s, t, outcome);
    case Cancel(id) => CancelKeepsBooks(c, s, id);
    case Kill(t) => KillKeepsBooks(c, s, t);
    case FinishShutdown => FinishKeepsBooks(c, s);
    case _ =>
      QuietStep(c, s, step);
      SameJobsKeepBooks(c, s, Next(c, s, step));
  }

  /** The listed costs of a job add up to its cost, up to half a unit of the eighth place per success. */
  lemma CostWithinRounding(c: Settings, s: State, id: JobId)
    requires BooksInv(c, s) && id in s.jobs
    ensures var job := s.jobs[id];
            var slack := job.succeeded as real * HALF_ULP;
            -slack <= TallyReal(job.results, job.total, ListedCost) - job.cost <= slack
  {
    var job := s.jobs[id];
    assert BooksOk(c, job);
    forall k | k in job.results ensures Priced(job.results[k], c.costIn, c.costOut) {
      assert ResultFits(c, job.results[k], job.items[k]);
    }
    RoundingDrift(job.results, job.total, c.costIn, c.costOut);
  }
}
