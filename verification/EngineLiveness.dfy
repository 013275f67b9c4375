/**
 Termination and completeness of the pool's work: worker steps cannot go on for ever, and when
 none is possible everything is done.
 */
module EngineLiveness {
  import opened Models
  import opened EngineSpec
  import opened EnginePool
  import opened EngineRate
  import S = SchedulerSpec
  import G = LimiterSpec
  import R = Retry

  predicate AttemptOk(c: Settings, t: Task) {
    t.Busy? ==> 1 <= t.attempt <= R.MaxCalls(c.maxRetries) && (t.phase == BackingOff ==> t.attempt < R.MaxCalls(c.maxRetries))
  }

  /** Every worker is within its retry budget. */
  predicate AttemptsOk(c: Settings, s: State) {
    forall t :: 0 <= t < |s.tasks| ==> AttemptOk(c, s.tasks[t])
  }

  lemma AnswerTask(c: Settings, s: State, t: nat, outcome: Outcome)
    requires Usable(c) && Enabled(s, Reply(t, outcome)) && AttemptOk(c, s.tasks[t])
    ensures Answer(c, s, t, outcome).tasks == s.tasks[t := Answer(c, s, t, outcome).tasks[t]]
    ensures AttemptOk(c, Answer(c, s, t, outcome).tasks[t])
  {
  }

  /** The task a step runs is the only one it changes, and it stays within its budget. */
  lemma StepTask(c: Settings, s: State, step: Step)
    requires Usable(c) && Enabled(s, step) && (WorkerStep(step) || step.Refuse? || step.Kill?)
    requires AttemptsOk(c, s)
    ensures step.t < |s.tasks| && |Next(c, s, step).tasks| == |s.tasks|
    ensures Next(c, s, step).tasks == s.tasks[step.t := Next(c, s, step).tasks[step.t]]
    ensures AttemptOk(c, Next(c, s, step).tasks[step.t])
  {
    assert AttemptOk(c, s.tasks[step.t]);
    match step
    case Start(t) => TakePermitTask(c, s, t);
    case Wake(t) => TakePermitTask(c, Unwait(s, t), t);
    case Reply(t, outcome) => AnswerTask(c, s, t, outcome);
    case _ =>
  }

  lemma TakePermitTask(c: Settings, s: State, t: nat)
    requires t < |s.tasks|
    ensures |TakePermit(s, t).tasks| == |s.tasks|
    ensures TakePermit(s, t).tasks == s.tasks[t := TakePermit(s, t).tasks[t]]
    ensures AttemptOk(c, TakePermit(s, t).tasks[t])
  {
    TakePermitFrame(s, t);
  }

  lemma StepKeepsAttempts(c: Settings, s: State, step: Step)
    requires Usable(c) && AttemptsOk(c, s) && Enabled(s, step)
    ensures AttemptsOk(c, Next(c, s, step))
  {
    if WorkerStep(step) || step.Refuse? || step.Kill? {
      StepTask(c, s, step);
    } else if step.Submit? && Judge(c, s, step.req) == Accepted {
      var s' := Next(c, s, step);
      forall t | 0 <= t < |s'.tasks| ensures AttemptOk(c, s'.tasks[t]) {
        if t < |s.tasks| { assert AttemptOk(c, s.tasks[t]); }
      }
    }
  }

  // ---------------------------------------------------------------- the measure

  function PhaseWeight(p: CallPhase): nat {
    match p
    case AtBucket => 2
    case Calling => 1
    case BackingOff => 0
  }

  /** The steps a worker may still take with what it has in hand. */
  function TaskWeight(calls: nat, t: Task): nat {
    match t
    case Done => 0
    case Asleep => 1
    case Ready => 2
    case Busy(_, _, attempt, phase, _) => 4 + 3 * Max(0, calls - attempt) + PhaseWeight(phase)
  }

  function Weight(calls: nat): Task -> nat {
    (t: Task) => TaskWeight(calls, t)
  }

  function PerItem(calls: nat): nat {
    3 * calls + 3
  }

  /** Bounds the worker steps still possible without a new submit. */
  function Measure(c: Settings, s: State): int {
    PerItem(R.MaxCalls(c.maxRetries)) * s.sched.pending + Sum(Weight(R.MaxCalls(c.maxRetries)), s.tasks) + G.NotifiedCount(s.gate.waiters)
  }

  lemma MeasureNonNegative(c: Settings, s: State)
    requires S.Valid(s.sched)
    ensures Measure(c, s) >= 0
  {
    assert PerItem(R.MaxCalls(c.maxRetries)) * s.sched.pending >= 0;
  }

  lemma ItemCost(k: int, pending: int)
    ensures k * (pending - 1) == k * pending - k
  {
  }

  lemma NotifyAddsOne(ws: seq<G.Waiter>)
    ensures G.NotifiedCount(G.Notify(ws)) <= G.NotifiedCount(ws) + 1
  {
    G.NotifyEffect(ws);
  }

  lemma FetchCosts(c: Settings, s: State, t: nat, p: S.Popped)
    requires t < |s.tasks| && p.sched.pending == s.sched.pending - (if p.got.Some? then 1 else 0)
    ensures var calls := R.MaxCalls(c.maxRetries); var s' := FetchFrom(s, t, p);
            Measure(c, s') <= Measure(c, s) - TaskWeight(calls, s.tasks[t]) + (if p.got.None? then 1 else 0)
  {
    var s' := FetchFrom(s, t, p);
    SumUpdate(Weight(R.MaxCalls(c.maxRetries)), s.tasks, t, s'.tasks[t]);
    assert s'.tasks == s.tasks[t := s'.tasks[t]];
    NotifyAddsOne(s.gate.waiters);
    ItemCost(PerItem(R.MaxCalls(c.maxRetries)), s.sched.pending);
  }

  /** Going through the gate costs a ready worker, or a woken one's notification, at least one unit. */
  lemma TakePermitCosts(c: Settings, s: State, t: nat)
    requires SchedOk(s) && t < |s.tasks| && (s.tasks[t].Ready? || s.tasks[t].Asleep?)
    ensures Measure(c, TakePermit(s, t)) <= Measure(c, s) - (if s.tasks[t].Ready? then 1 else 0)
  {
    if G.MayEnter(s.gate) {
      S.PopEffect(s.sched);
      FetchCosts(c, s.(gate := G.Enter(s.gate)), t, S.Pop(s.sched));
    } else {
      SumUpdate(Weight(R.MaxCalls(c.maxRetries)), s.tasks, t, Asleep);
      G.CountSnoc(s.gate.waiters, G.Waiter(t, false));
    }
  }

  lemma SettleCosts(c: Settings, s: State, t: nat, r: InferenceResult)
    requires t < |s.tasks| && s.tasks[t].Busy? && s.tasks[t].job in s.jobs
    ensures Measure(c, Settle(c, s, t, r)) < Measure(c, s)
  {
    SumUpdate(Weight(R.MaxCalls(c.maxRetries)), s.tasks, t, Ready);
    NotifyAddsOne(s.gate.waiters);
  }

  /** Every worker step uses up at least one unit of the measure. */
  lemma WorkerStepCosts(c: Settings, s: State, step: Step)
    requires Usable(c) && PoolInv(c, s) && AttemptsOk(c, s) && Enabled(s, step) && WorkerStep(step)
    ensures Measure(c, Next(c, s, step)) < Measure(c, s)
  {
    var w := Weight(R.MaxCalls(c.maxRetries));
    match step
    case Start(t) => TakePermitCosts(c, s, t);
    case Wake(t) =>
      G.LeaveCount(s.gate.waiters, t);
      TakePermitCosts(c, Unwait(s, t), t);
    case Admit(t) => SumUpdate(w, s.tasks, t, s.tasks[t].(phase := Calling));
    case Continue(t) =>
      assert AttemptOk(c, s.tasks[t]);
      SumUpdate(w, s.tasks, t, s.tasks[t].(phase := AtBucket, attempt := s.tasks[t].attempt + 1));
    case Reply(t, outcome) => AnswerCosts(c, s, t, outcome);
  }

  lemma AnswerCosts(c: Settings, s: State, t: nat, outcome: Outcome)
    requires Usable(c) && AttemptsOk(c, s) && Enabled(s, Reply(t, outcome))
    ensures Measure(c, Answer(c, s, t, outcome)) < Measure(c, s)
  {
    var r := ResultOf(c, s.tasks[t].item, s.tasks[t].attempt, outcome);
    if r.None? {
      SumUpdate(Weight(R.MaxCalls(c.maxRetries)), s.tasks, t, Answer(c, s, t, outcome).tasks[t]);
    } else {
      SettleCosts(c, Noted(c, s, outcome), t, r.value);
    }
  }

  /** The work one step brings in: an accepted submit's items and the workers it may start. */
  function Intake(c: Settings, s: State, step: Step): nat {
    if step.Submit? && Judge(c, s, step.req) == Accepted
    then PerItem(R.MaxCalls(c.maxRetries)) * |step.req.prompts| + 2 * Max(0, c.workerPoolSize) else 0
  }

  lemma SubmitIntake(c: Settings, s: State, req: Request, id: JobId)
    requires Usable(c) && SchedOk(s) && id !in s.jobs
    ensures Measure(c, EnsureWorkers(c, Register(c, s, req, id)))
            <= Measure(c, s) + PerItem(R.MaxCalls(c.maxRetries)) * |req.prompts| + 2 * Max(0, c.workerPoolSize)
  {
    var s1 := Register(c, s, req, id);
    RegisterKeepsSched(c, s, req, id);
    var n := SpawnCount(c, Sum(Live, s1.tasks), s1.sched.pending);
    SumAppend(Weight(R.MaxCalls(c.maxRetries)), s1.tasks, Readies(n));
    SumReadies(Weight(R.MaxCalls(c.maxRetries)), n);
    AddItems(PerItem(R.MaxCalls(c.maxRetries)), s.sched.pending, |req.prompts|);
  }

  lemma AddItems(k: int, p: int, m: int)
    ensures k * (p + m) == k * p + k * m
  {
  }

  lemma OtherStepsCostNothing(c: Settings, s: State, step: Step)
    requires Usable(c) && PoolInv(c, s) && Enabled(s, step) && !WorkerStep(step) && !step.Submit?
    ensures Measure(c, Next(c, s, step)) <= Measure(c, s)
  {
    match step
    case Cancel(id) => CancelCosts(c, s, id);
    case Refuse(t) => SumUpdate(Weight(R.MaxCalls(c.maxRetries)), s.tasks, t, Next(c, s, step).tasks[t]);
    case Kill(t) => KillCosts(c, s, t);
    case _ =>
  }

  lemma CancelCosts(c: Settings, s: State, id: JobId)
    requires SchedOk(s)
    ensures Measure(c, CancelJob(s, id)) <= Measure(c, s)
  {
    CancelKeepsSched(s, id);
    MulLe(CancelJob(s, id).sched.pending, s.sched.pending, PerItem(R.MaxCalls(c.maxRetries)));
  }

  lemma KillCosts(c: Settings, s: State, t: nat)
    requires WaitersOk(s) && t < |s.tasks| && !s.tasks[t].Done?
    ensures Measure(c, KillTask(s, t)) <= Measure(c, s)
  {
    SumUpdate(Weight(R.MaxCalls(c.maxRetries)), s.tasks, t, Done);
    NotifyAddsOne(s.gate.waiters);
    G.LeaveCount(s.gate.waiters, t);
  }

  function WorkerSteps(steps: seq<Step>): nat {
    if steps == [] then 0 else (if WorkerStep(steps[0]) then 1 else 0) + WorkerSteps(steps[1..])
  }

  function TotalIntake(c: Settings, s: State, steps: seq<Step>): nat
    requires c.charsPerToken != 0.0 && Runnable(c, s, steps)
    decreases |steps|
  {
    if steps == [] then 0 else Intake(c, s, steps[0]) + TotalIntake(c, Next(c, s, steps[0]), steps[1..])
  }

  /**
   Every run is bounded by its work: however tasks, cancels and shutdowns interleave, the
   steps that bring a worker on number at most the measure of the start plus what accepted
   submits brought in.
   */
  lemma {:induction false} WorkIsBounded(c: Settings, s: State, steps: seq<Step>)
    requires Usable(c) && PoolInv(c, s) && AttemptsOk(c, s) && Runnable(c, s, steps)
    ensures WorkerSteps(steps) <= Measure(c, s) + TotalIntake(c, s, steps)
    decreases |steps|
  {
    MeasureNonNegative(c, s);
    if steps != [] {
      var step := steps[0];
      StepKeepsPool(c, s, step);
      StepKeepsAttempts(c, s, step);
      WorkIsBounded(c, Next(c, s, step), steps[1..]);
      if WorkerStep(step) { WorkerStepCosts(c, s, step); }
      else if step.Submit? { if Judge(c, s, step.req) == Accepted { SubmitIntake(c, s, step.req, step.id); } }
      else { OtherStepsCostNothing(c, s, step); }
    }
  }

  // ---------------------------------------------------------------- quiescence

  /** No worker can be brought on, however long one waits. */
  ghost predicate Quiescent(s: State) {
    forall step, until :: WorkerStep(step) && s.clock <= until ==> !Enabled(s.(clock := until), step)
  }

  /** The workers' jobs are in the store. */
  predicate JobsKnown(s: State) {
    forall t :: 0 <= t < |s.tasks| && s.tasks[t].Busy? ==> s.tasks[t].job in s.jobs
  }

  /** A busy worker can go on, now or when its sleep is over. */
  lemma BusyCanMove(c: Settings, s: State, t: nat)
    requires BucketInv(c, s) && Serves(c) && AttemptsOk(c, s) && JobsKnown(s) && Working(s)
    requires t < |s.tasks| && s.tasks[t].Busy?
    ensures !Quiescent(s)
  {
    assert AttemptOk(c, s.tasks[t]);
    var later := MaxReal(s.clock, s.tasks[t].due);
    match s.tasks[t].phase
    case AtBucket =>
      var now := OpeningComes(c, s.bucket, later);
      assert Enabled(s.(clock := now), Admit(t));
    case Calling => assert Enabled(s.(clock := s.clock), Reply(t, Fault("")));
    case BackingOff => assert Enabled(s.(clock := later), Continue(t));
  }

  /** A working engine whose workers cannot move has none left: nobody is stuck holding or awaiting a permit. */
  lemma QuiescentMeansNoWorkers(c: Settings, s: State)
    requires PoolInv(c, s) && BucketInv(c, s) && Serves(c) && AttemptsOk(c, s) && JobsKnown(s)
    requires Working(s) && Quiescent(s)
    ensures forall t :: 0 <= t < |s.tasks| ==> s.tasks[t].Done?
    ensures s.sched.pending == 0 && s.gate.inUse == 0 && s.gate.waiters == []
  {
    forall t: nat | t < |s.tasks| ensures !s.tasks[t].Busy? && !s.tasks[t].Ready? {
      if s.tasks[t].Busy? { BusyCanMove(c, s, t); }
      assert !Enabled(s.(clock := s.clock), Start(t));
    }
    if Sum(Holding, s.tasks) > 0 { var t := SumPositive(Holding, s.tasks); }
    if s.gate.waiters != [] { SomebodyCouldWake(c, s); }
    assert forall t: nat :: !G.Waits(s.gate.waiters, t);
    if Sum(Live, s.tasks) > 0 { var t := SumPositive(Live, s.tasks); }
  }

  lemma SomebodyCouldWake(c: Settings, s: State)
    requires PoolInv(c, s) && Working(s) && s.gate.waiters != [] && s.gate.inUse == 0
    ensures !Quiescent(s)
  {
    var ws := s.gate.waiters;
    if !ws[0].notified { assert G.AnyAsleep(ws); } else { assert G.AnyNotified(ws); }
    var i :| 0 <= i < |ws| && ws[i].notified;
    assert ws[i] == G.Waiter(ws[i].task, true);
    assert G.Waits(ws, ws[i].task);
    assert WorkerStep(Wake(ws[i].task)) && Enabled(s.(clock := s.clock), Wake(ws[i].task));
  }
}
