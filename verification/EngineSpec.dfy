/**
 The batch engine as a state machine. All tasks share one event loop, so a step is a stretch
 of code that runs without suspending; any task may run next. The provider's answers, the
 moments sleeps end and the order of tasks are left to the environment.
 */
module EngineSpec {
  import opened Models
  import opened Accounting
  import S = SchedulerSpec
  import G = LimiterSpec
  import B = TokenBucketSpec
  import R = Retry

  /**
   The configuration, and two arbitrary functions: `hash` is the fingerprint of a submission's
   payload, `draw(k)` the jitter drawn for retry number `k`.
   */
  datatype Settings = Settings(
    workerPoolSize: int, maxQueueSize: int, maxActiveJobs: int, maxRetries: int,
    globalMaxConcurrency: int, adaptiveMinConcurrency: int, decreaseFactor: real, increaseAfter: int,
    charsPerToken: real, costIn: real, costOut: real, rps: real, burst: real,
    backoffBase: real, backoffMax: real, jitter: real,
    hash: (Priority, seq<PromptItem>) -> string, draw: int -> real)

  function GateParams(c: Settings): G.Params {
    G.MakeParams(c.globalMaxConcurrency, c.adaptiveMinConcurrency, Some(c.globalMaxConcurrency),
                 c.decreaseFactor, c.increaseAfter)
  }

  function RetryPolicy(c: Settings): R.Policy {
    R.Policy(c.maxRetries, c.backoffBase, c.backoffMax, c.jitter)
  }

  /** What the engine relies on but does not check. */
  predicate Usable(c: Settings) {
    && c.workerPoolSize >= 1 && c.globalMaxConcurrency >= 1 && c.adaptiveMinConcurrency >= 1
    && c.charsPerToken != 0.0 && G.Sound(GateParams(c))
  }

  /**
   A job's live record. The last five fields are history kept for the specification: the
   prompts as submitted, the items made of them, how many were handed to workers, whether the
   rest was dropped by a cancel, and which were interrupted by a shutdown.
   */
  datatype Job = Job(
    state: JobState, priority: Priority, total: nat, completed: int, succeeded: int, failed: int, retries: int,
    inputTokens: int, outputTokens: int, cost: real, key: Option<string>, fingerprint: string, results: Results,
    prompts: seq<PromptItem>, items: seq<WorkItem>, dequeued: nat, dropped: bool, lost: set<nat>)

  /** Where a call stands: before the token bucket, at the provider, or sleeping after a 429. */
  datatype CallPhase = AtBucket | Calling | BackingOff

  /**
   A worker task; only a busy one holds a permit. At the bucket and after a 429 it sleeps until
   the time `due`.
   */
  datatype Task =
    | Ready
    | Asleep
    | Busy(job: JobId, item: WorkItem, attempt: nat, phase: CallPhase, due: real)
    | Done

  datatype Phase = Serving | Draining | Stopping | Stopped

  /** The metrics of the 429 ledger. */
  datatype Counters = Counters(retries: int, rateLimited: int, exhausted: int)

  /**
   `order` is the insertion order of the job map. `tasks` lists every worker ever created.
   `clock` is the event loop's, counted from the start of the engine.
   */
  datatype State = State(
    sched: S.Sched, gate: G.Gate, jobs: map<JobId, Job>, order: seq<JobId>, byKey: map<string, JobId>,
    active: set<JobId>, tasks: seq<Task>, phase: Phase, counters: Counters, bucket: B.Bucket,
    clock: real)

  datatype Request = Request(prompts: seq<PromptItem>, priority: Priority, key: Option<string>)

  function Fingerprint(c: Settings, req: Request): string {
    c.hash(req.priority, req.prompts)
  }

  function Init(c: Settings): State {
    State(S.EMPTY, G.MakeGate(c.globalMaxConcurrency, GateParams(c)), map[], [], map[], {}, [], Serving,
          Counters(0, 0, 0), B.EngineBucket(c.rps, c.burst), 0.0)
  }

  // ---------------------------------------------------------------- sums over tasks

  function Sum(f: Task -> nat, ts: seq<Task>): nat {
    if ts == [] then 0 else f(ts[0]) + Sum(f, ts[1..])
  }

  function Live(t: Task): nat {
    if t.Done? then 0 else 1
  }

  function Holding(t: Task): nat {
    if t.Busy? then 1 else 0
  }

  // ---------------------------------------------------------------- submitting

  predicate Keyed(key: Option<string>) {
    key.Some? && key.value != ""
  }

  function Lookup(s: State, key: string): Option<JobId> {
    if key in s.byKey && s.byKey[key] != "" && s.byKey[key] in s.jobs then Some(s.byKey[key]) else None
  }

  datatype Verdict = ShuttingDown | Reused(id: JobId) | Conflict | Overloaded | QueueFull | Accepted

  function Judge(c: Settings, s: State, req: Request): Verdict {
    if s.phase != Serving then ShuttingDown
    else if Keyed(req.key) && Lookup(s, req.key.value).Some? then
      var id := Lookup(s, req.key.value).value;
      if s.jobs[id].fingerprint != Fingerprint(c, req) then Conflict else Reused(id)
    else if |s.active| >= c.maxActiveJobs then Overloaded
    else if s.sched.pending + |req.prompts| > c.maxQueueSize then QueueFull
    else Accepted
  }

  function NewJob(c: Settings, req: Request): Job {
    Job(Running, req.priority, |req.prompts|, 0, 0, 0, 0, 0, 0, 0.0, req.key, Fingerprint(c, req), map[],
        req.prompts, WorkItems(req.prompts), 0, false, {})
  }

  /** How many workers to start: up to the pool size, but no more than there is work for. */
  function SpawnCount(c: Settings, live: nat, pending: int): nat {
    Max(0, Min(c.workerPoolSize, Max(1, pending)) - live)
  }

  function Readies(n: nat): (ts: seq<Task>)
    ensures |ts| == n && forall i :: 0 <= i < n ==> ts[i] == Ready
  {
    if n == 0 then [] else [Ready] + Readies(n - 1)
  }

  function EnsureWorkers(c: Settings, s: State): State {
    s.(tasks := s.tasks + Readies(SpawnCount(c, Sum(Live, s.tasks), s.sched.pending)))
  }

  function Register(c: Settings, s: State, req: Request, id: JobId): State {
    s.(jobs := s.jobs[id := NewJob(c, req)],
       order := s.order + [id],
       byKey := if Keyed(req.key) then s.byKey[req.key.value := id] else s.byKey,
       active := s.active + {id},
       sched := S.AddJob(s.sched, id, WorkItems(req.prompts), req.priority))
  }

  /** What replaying the failed prompts of a job submits: nothing if none failed. */
  function ReplayRequest(job: Job, priority: Option<Priority>): Option<Request> {
    var failed := DeadLetter(job.results, job.total);
    if failed == [] then None
    else
      var prompts := seq(|failed|, i requires 0 <= i < |failed| => PromptItem(Some(failed[i].id), failed[i].prompt));
      Some(Request(prompts, if priority.Some? then priority.value else job.priority, None))
  }

  // ---------------------------------------------------------------- workers

  /** What a worker with a permit does with what it popped: exit, skip a cancelled job, or get busy. */
  function FetchFrom(s: State, t: nat, p: S.Popped): State
    requires t < |s.tasks|
  {
    if p.got.None? then
      s.(sched := p.sched, gate := G.Release(s.gate), tasks := s.tasks[t := Done])
    else
      var (id, item) := p.got.value;
      if id !in s.jobs || s.jobs[id].state == Cancelled then
        s.(sched := p.sched, gate := G.Release(s.gate), tasks := s.tasks[t := Ready])
      else
        s.(sched := p.sched,
           jobs := s.jobs[id := s.jobs[id].(dequeued := s.jobs[id].dequeued + 1)],
           tasks := s.tasks[t := Busy(id, item, 1, AtBucket, 0.0)])
  }

  function Fetch(s: State, t: nat): State
    requires t < |s.tasks|
  {
    FetchFrom(s, t, S.Pop(s.sched))
  }

  function TakePermit(s: State, t: nat): State
    requires t < |s.tasks|
  {
    if G.MayEnter(s.gate) then Fetch(s.(gate := G.Enter(s.gate)), t)
    else s.(gate := G.Block(s.gate, t), tasks := s.tasks[t := Asleep])
  }

  function Unwait(s: State, t: nat): State {
    s.(gate := s.gate.(waiters := G.Leave(s.gate.waiters, t)))
  }

  function SuccessResult(c: Settings, item: WorkItem, output: string, attempts: nat): InferenceResult
    requires c.charsPerToken != 0.0
  {
    var i, o := EstimateTokens(item.prompt, c.charsPerToken), EstimateTokens(output, c.charsPerToken);
    InferenceResult(item.id, item.prompt, true, Some(output), None, attempts, i, o,
                    Round8(Price(i, o, c.costIn, c.costOut)))
  }

  function FailureResult(item: WorkItem, message: string): InferenceResult {
    InferenceResult(item.id, item.prompt, false, None, Some(message), 0, 0, 0, 0.0)
  }

  /** The job's counters and results after one more prompt is finished. */
  function Credit(c: Settings, job: Job, index: nat, r: InferenceResult): Job {
    var price := if r.success then Price(r.inputTokens, r.outputTokens, c.costIn, c.costOut) else 0.0;
    var more := job.(
      completed := job.completed + 1,
      succeeded := job.succeeded + (if r.success then 1 else 0),
      failed := job.failed + (if r.success then 0 else 1),
      inputTokens := job.inputTokens + r.inputTokens,
      outputTokens := job.outputTokens + r.outputTokens,
      cost := job.cost + price,
      results := job.results[index := r]);
    if more.completed >= more.total && more.state == Running then more.(state := Completed) else more
  }

  /** Record a result, finalise the job if it was the last, release the permit. */
  function Settle(c: Settings, s: State, t: nat, r: InferenceResult): State
    requires t < |s.tasks| && s.tasks[t].Busy? && s.tasks[t].job in s.jobs
  {
    var id, item := s.tasks[t].job, s.tasks[t].item;
    var job := Credit(c, s.jobs[id], item.index, r);
    s.(jobs := s.jobs[id := job],
       active := if job.state == Completed && s.jobs[id].state == Running then s.active - {id} else s.active,
       tasks := s.tasks[t := Ready],
       gate := G.Release(s.gate))
  }

  /** When a worker that got a 429 now may ask again. */
  function RetryDue(c: Settings, s: State, attempt: nat, hint: real): real
    requires attempt >= 1
  {
    s.clock + R.Delay(RetryPolicy(c), attempt, c.draw(s.counters.retries), hint)
  }

  /** A 429 within the budget: count it, throttle the gate, sleep. */
  function Retry(c: Settings, s: State, t: nat, hint: real): State
    requires t < |s.tasks| && s.tasks[t].Busy? && s.tasks[t].job in s.jobs && s.tasks[t].attempt >= 1
  {
    var id := s.tasks[t].job;
    s.(jobs := s.jobs[id := s.jobs[id].(retries := s.jobs[id].retries + 1)],
       counters := s.counters.(retries := s.counters.retries + 1, rateLimited := s.counters.rateLimited + 1),
       gate := G.Throttle(GateParams(c), s.gate),
       tasks := s.tasks[t := s.tasks[t].(phase := BackingOff, due := RetryDue(c, s, s.tasks[t].attempt, hint))])
  }

  /** The result an answer settles, or none when it is a 429 to be retried. */
  function ResultOf(c: Settings, item: WorkItem, attempt: nat, outcome: Outcome): Option<InferenceResult>
    requires c.charsPerToken != 0.0
  {
    match outcome
    case Completion(output) => Some(SuccessResult(c, item, output, attempt))
    case RateLimited(_, reason) => if attempt > c.maxRetries then Some(FailureResult(item, reason)) else None
    case Fault(message) => Some(FailureResult(item, message))
  }

  /** A final answer's mark on the gate and the counters. */
  function Noted(c: Settings, s: State, outcome: Outcome): State {
    match outcome
    case Completion(_) => s.(gate := G.Succeed(GateParams(c), s.gate))
    case RateLimited(_, _) => s.(counters := s.counters.(exhausted := s.counters.exhausted + 1))
    case Fault(_) => s
  }

  function Answer(c: Settings, s: State, t: nat, outcome: Outcome): State
    requires t < |s.tasks| && s.tasks[t].Busy? && s.tasks[t].job in s.jobs && s.tasks[t].attempt >= 1
    requires c.charsPerToken != 0.0
  {
    var r := ResultOf(c, s.tasks[t].item, s.tasks[t].attempt, outcome);
    if r.None? then Retry(c, s, t, outcome.retryAfter) else Settle(c, Noted(c, s, outcome), t, r.value)
  }

  // ---------------------------------------------------------------- the token bucket

  function OneToken(now: real): B.Visit {
    B.Visit(now, 1.0)
  }

  /** A pass at the bucket at time `now` lets the call through; without a rate every pass does. */
  predicate Opens(b: B.Bucket, now: real) {
    b.rate <= 0.0 || B.Grants(b, OneToken(now))
  }

  function AfterPass(b: B.Bucket, now: real): B.Bucket {
    if b.rate <= 0.0 then b else B.Pass(b, OneToken(now))
  }

  /** When a worker refused now may ask again. */
  function RefusedUntil(b: B.Bucket, now: real): real
    requires !Opens(b, now)
  {
    now + B.Sleep(b, OneToken(now))
  }

  // ---------------------------------------------------------------- cancelling and stopping

  predicate Finished(state: JobState) {
    state == Completed || state == Failed || state == Cancelled
  }

  function CancelJob(s: State, id: JobId): State {
    if id !in s.jobs || Finished(s.jobs[id].state) then s
    else s.(sched := S.RemoveJob(s.sched, id),
            jobs := s.jobs[id := s.jobs[id].(state := Cancelled, dropped := true)],
            active := s.active - {id})
  }

  /** A cancelled task unwinds: a waiter leaves the queue, a holder gives its permit back. */
  function KillTask(s: State, t: nat): State
    requires t < |s.tasks|
  {
    var gone := s.(tasks := s.tasks[t := Done]);
    match s.tasks[t]
    case Asleep => Unwait(gone, t)
    case Busy(id, item, _, _, _) =>
      gone.(gate := G.Release(s.gate),
            jobs := if id in s.jobs then s.jobs[id := s.jobs[id].(lost := s.jobs[id].lost + {item.index})] else s.jobs)
    case _ => gone
  }

  predicate Unfinished(state: JobState) {
    state == Pending || state == Running
  }

  function Interrupt(job: Job): Job {
    if Unfinished(job.state) then job.(state := Cancelled) else job
  }

  function InterruptAll(s: State): State {
    s.(jobs := (map id | id in s.jobs :: Interrupt(s.jobs[id])),
       active := (set id | id in s.active && !(id in s.jobs && Unfinished(s.jobs[id].state))),
       phase := Stopped)
  }

  // ---------------------------------------------------------------- steps

  datatype Step =
    | Submit(req: Request, id: JobId)
    | Cancel(id: JobId)
    | Start(t: nat)
    | Wake(t: nat)
    | Admit(t: nat)
    | Refuse(t: nat)
    | Reply(t: nat, outcome: Outcome)
    | Continue(t: nat)
    | Wait(until: real)
    | BeginShutdown
    | GraceOver
    | Kill(t: nat)
    | FinishShutdown

  predicate Working(s: State) {
    s.phase == Serving || s.phase == Draining
  }

  predicate BusyIn(s: State, t: nat, phase: CallPhase) {
    Working(s) && t < |s.tasks| && s.tasks[t].Busy? && s.tasks[t].phase == phase
  }

  /**
   When a step may happen. A submit brings an id never used before, a sleeping worker goes on
   when its sleep is over, and the clock never goes back.
   */
  predicate Enabled(s: State, step: Step) {
    match step
    case Submit(_, id) => id !in s.jobs && id != ""
    case Cancel(_) => true
    case Start(t) => Working(s) && t < |s.tasks| && s.tasks[t].Ready?
    case Wake(t) => Working(s) && t < |s.tasks| && s.tasks[t].Asleep? && G.Woken(s.gate.waiters, t)
    case Admit(t) => BusyIn(s, t, AtBucket) && s.tasks[t].due <= s.clock && Opens(s.bucket, s.clock)
    case Refuse(t) => BusyIn(s, t, AtBucket) && s.tasks[t].due <= s.clock && !Opens(s.bucket, s.clock)
    case Reply(t, _) => BusyIn(s, t, Calling) && s.tasks[t].job in s.jobs && s.tasks[t].attempt >= 1
    case Continue(t) => BusyIn(s, t, BackingOff) && s.tasks[t].due <= s.clock
    case Wait(until) => s.clock <= until
    case BeginShutdown => s.phase == Serving
    case GraceOver => s.phase == Draining
    case Kill(t) => s.phase == Stopping && t < |s.tasks| && !s.tasks[t].Done?
    case FinishShutdown => s.phase == Stopping && forall t :: 0 <= t < |s.tasks| ==> s.tasks[t].Done?
  }

  /**
   The steps that bring a worker on. A worker also takes a step when the bucket refuses it, but
   that only sends it back to sleep.
   */
  predicate WorkerStep(step: Step) {
    step.Start? || step.Wake? || step.Admit? || step.Reply? || step.Continue?
  }

  function Next(c: Settings, s: State, step: Step): State
    requires Enabled(s, step) && c.charsPerToken != 0.0
  {
    match step
    case Submit(req, id) =>
      if Judge(c, s, req) == Accepted then EnsureWorkers(c, Register(c, s, req, id)) else s
    case Cancel(id) => CancelJob(s, id)
    case Start(t) => TakePermit(s, t)
    case Wake(t) => TakePermit(Unwait(s, t), t)
    case Admit(t) =>
      s.(tasks := s.tasks[t := s.tasks[t].(phase := Calling)], bucket := AfterPass(s.bucket, s.clock))
    case Refuse(t) =>
      s.(tasks := s.tasks[t := s.tasks[t].(due := RefusedUntil(s.bucket, s.clock))],
         bucket := AfterPass(s.bucket, s.clock))
    case Wait(until) => s.(clock := until)
    case Reply(t, outcome) => Answer(c, s, t, outcome)
    case Continue(t) =>
      s.(tasks := s.tasks[t := s.tasks[t].(phase := AtBucket, attempt := s.tasks[t].attempt + 1)])
    case BeginShutdown => s.(phase := Draining)
    case GraceOver => s.(phase := Stopping)
    case Kill(t) => KillTask(s, t)
    case FinishShutdown => InterruptAll(s)
  }

  predicate Runnable(c: Settings, s: State, steps: seq<Step>)
    requires c.charsPerToken != 0.0
    decreases |steps|
  {
    steps == [] || (Enabled(s, steps[0]) && Runnable(c, Next(c, s, steps[0]), steps[1..]))
  }

  function Run(c: Settings, s: State, steps: seq<Step>): State
    requires c.charsPerToken != 0.0 && Runnable(c, s, steps)
    decreases |steps|
  {
    if steps == [] then s else Run(c, Next(c, s, steps[0]), steps[1..])
  }
}
