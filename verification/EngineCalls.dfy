/**
 What the provider's answers do to a run: each worker handles its prompt as the retry loop
 would on its own, and the limit of the gate is the control law applied to the answers.
 */
module EngineCalls {
  import opened Models
  import opened Accounting
  import opened EngineSpec
  import opened EnginePool
  import opened EngineRate
  import opened EngineLiveness
  import opened EngineStore
  import opened EngineLedger
  import opened EngineTheorems
  import R = Retry
  import G = LimiterSpec

  // ---------------------------------------------------------------- one worker's calls

  /** The step runs worker `t`. */
  predicate Runs(step: Step, t: nat) {
    (WorkerStep(step) || step.Refuse? || step.Kill?) && step.t == t
  }

  /** An answer, the jitter drawn for it and, if it is retried, the sleep it brings. */
  datatype Said = Said(outcome: Outcome, draw: real, sleep: Option<real>)

  /** What a worker hears in a step: the sleep is read off the state after it. */
  function HeardNow(c: Settings, s: State, step: Step, t: nat): seq<Said>
    requires c.charsPerToken != 0.0 && Enabled(s, step)
  {
    if !step.Reply? || step.t != t then []
    else
      var after := Next(c, s, step).tasks[t];
      [Said(step.outcome, c.draw(s.counters.retries), if after.Busy? then Some(after.due - s.clock) else None)]
  }

  /** All a worker hears along a run. */
  function Heard(c: Settings, s: State, steps: seq<Step>, t: nat): seq<Said>
    requires c.charsPerToken != 0.0 && Runnable(c, s, steps)
    decreases |steps|
  {
    if steps == [] then [] else HeardNow(c, s, steps[0], t) + Heard(c, Next(c, s, steps[0]), steps[1..], t)
  }

  /** A 429 within the budget, followed by the sleep the policy prescribes. */
  predicate RetriedAt(c: Settings, said: Said, attempt: nat) {
    && said.outcome.RateLimited? && 1 <= attempt <= c.maxRetries
    && said.sleep == Some(R.Delay(RetryPolicy(c), attempt, said.draw, said.outcome.retryAfter))
  }

  predicate Retried(c: Settings, heard: seq<Said>) {
    forall i :: 0 <= i < |heard| ==> RetriedAt(c, heard[i], i + 1)
  }

  /** The worker is still at its item, `heard` being the answers so far. */
  predicate InCall(c: Settings, task: Task, id: JobId, item: WorkItem, heard: seq<Said>) {
    && task.Busy? && task.job == id && task.item == item && Retried(c, heard)
    && task.attempt == |heard| + (if task.phase == BackingOff then 0 else 1)
  }

  /** The last answer heard was final, and the job holds the result it stands for. */
  predicate Recorded(c: Settings, s: State, id: JobId, item: WorkItem, heard: seq<Said>)
    requires c.charsPerToken != 0.0
  {
    && |heard| >= 1 && Retried(c, heard[..|heard| - 1]) && heard[|heard| - 1].sleep == None
    && id in s.jobs && item.index in s.jobs[id].results
    && ResultOf(c, item, |heard|, heard[|heard| - 1].outcome) == Some(s.jobs[id].results[item.index])
  }

  predicate Follows(c: Settings, s: State, t: nat, id: JobId, item: WorkItem, heard: seq<Said>)
    requires c.charsPerToken != 0.0
  {
    t < |s.tasks| && if s.tasks[t].Busy? then InCall(c, s.tasks[t], id, item, heard) else Recorded(c, s, id, item, heard)
  }

  /** A step of somebody else leaves the worker where it is. */
  lemma Untouched(c: Settings, s: State, step: Step, t: nat)
    requires Usable(c) && AttemptsOk(c, s) && Enabled(s, step) && t < |s.tasks| && !Runs(step, t)
    ensures t < |Next(c, s, step).tasks| && Next(c, s, step).tasks[t] == s.tasks[t]
  {
    if WorkerStep(step) || step.Refuse? || step.Kill? {
      StepTask(c, s, step);
    }
  }

  lemma AnswerFollows(c: Settings, s: State, t: nat, outcome: Outcome, heard: seq<Said>, said: Said)
    requires Usable(c) && Enabled(s, Reply(t, outcome))
    requires InCall(c, s.tasks[t], s.tasks[t].job, s.tasks[t].item, heard)
    requires HeardNow(c, s, Reply(t, outcome), t) == [said]
    ensures Follows(c, Answer(c, s, t, outcome), t, s.tasks[t].job, s.tasks[t].item, heard + [said])
  {
    var all := heard + [said];
    assert all[..|all| - 1] == heard;
    if Answer(c, s, t, outcome).tasks[t].Busy? { assert RetriedAt(c, said, s.tasks[t].attempt); }
  }

  lemma OwnStepFollows(c: Settings, s: State, step: Step, t: nat, id: JobId, item: WorkItem, heard: seq<Said>)
    requires Usable(c) && Enabled(s, step) && Follows(c, s, t, id, item, heard)
    requires Runs(step, t) && (step.Admit? || step.Refuse? || step.Reply? || step.Continue?)
    ensures Follows(c, Next(c, s, step), t, id, item, heard + HeardNow(c, s, step, t))
  {
    if step.Reply? {
      AnswerFollows(c, s, t, step.outcome, heard, HeardNow(c, s, step, t)[0]);
    } else {
      assert heard + [] == heard;
    }
  }

  lemma OthersKeepFollowing(c: Settings, s: State, s': State, t: nat, id: JobId, item: WorkItem, heard: seq<Said>)
    requires c.charsPerToken != 0.0 && Follows(c, s, t, id, item, heard) && Grows(s, s')
    requires t < |s'.tasks| && s'.tasks[t] == s.tasks[t]
    ensures Follows(c, s', t, id, item, heard)
  {
    if !s.tasks[t].Busy? { assert JobGrows(s.jobs[id], s'.jobs[id]); }
  }

  lemma StepFollows(
    c: Settings, s: State, step: Step, s': State, t: nat, id: JobId, item: WorkItem, heard: seq<Said>)
    requires Usable(c) && Reachable(c, s) && Enabled(s, step) && Follows(c, s, t, id, item, heard)
    requires step != Start(t) && step != Wake(t) && step != Kill(t) && s' == Next(c, s, step)
    ensures Reachable(c, s') && Follows(c, s', t, id, item, heard + HeardNow(c, s, step, t))
  {
    ReachableNext(c, s, step);
    if Runs(step, t) {
      OwnStepFollows(c, s, step, t, id, item, heard);
    } else {
      assert heard + [] == heard;
      StepFromReachable(c, s, step);
      Untouched(c, s, step, t);
      OthersKeepFollowing(c, s, s', t, id, item, heard);
    }
  }

  /** The run does not let the worker go for another item, nor interrupt it. */
  predicate OneItem(steps: seq<Step>, t: nat) {
    forall i :: 0 <= i < |steps| ==> steps[i] != Start(t) && steps[i] != Wake(t) && steps[i] != Kill(t)
  }

  lemma {:induction false} RunFollows(
    c: Settings, s: State, steps: seq<Step>, t: nat, id: JobId, item: WorkItem, heard: seq<Said>)
    requires Usable(c) && Reachable(c, s) && Runnable(c, s, steps) && OneItem(steps, t)
    requires Follows(c, s, t, id, item, heard)
    ensures Follows(c, Run(c, s, steps), t, id, item, heard + Heard(c, s, steps, t))
    decreases |steps|
  {
    if steps == [] {
      assert heard + [] == heard;
    } else {
      var step, rest, next := steps[0], steps[1..], Next(c, s, steps[0]);
      var now := heard + HeardNow(c, s, step, t);
      StepFollows(c, s, step, next, t, id, item, heard);
      OneItemTail(steps, t);
      RunFollows(c, next, rest, t, id, item, now);
      Regroup(heard, HeardNow(c, s, step, t), Heard(c, next, rest, t));
    }
  }

  lemma OneItemTail(steps: seq<Step>, t: nat)
    requires steps != [] && OneItem(steps, t)
    ensures OneItem(steps[1..], t)
  {
    assert forall i :: 0 <= i < |steps[1..]| ==> steps[1..][i] == steps[i + 1];
  }

  lemma Regroup(a: seq<Said>, b: seq<Said>, d: seq<Said>)
    ensures (a + b) + d == a + (b + d)
  {
  }

  /** What an answer that is not a completion complains of. */
  function Complaint(answer: Outcome): string
    requires !answer.Completion?
  {
    if answer.RateLimited? then answer.reason else answer.message
  }

  /**
   The result tells the answer: a completion is a success with its output, the number of
   calls, the least token counts that hold prompt and output, and the nearest listed cost;
   anything else is a failure with its complaint and no cost.
   */
  ghost predicate Tells(c: Settings, item: WorkItem, calls: nat, answer: Outcome, r: InferenceResult) {
    && r.id == item.id && r.prompt == item.prompt
    && (r.success <==> answer.Completion?)
    && (answer.Completion? ==>
          && r.output == Some(answer.output) && r.error == None && r.attempts == calls
          && LeastFit(r.inputTokens, item.prompt, c.charsPerToken)
          && LeastFit(r.outputTokens, answer.output, c.charsPerToken)
          && ListedFor(r.cost, Price(r.inputTokens, r.outputTokens, c.costIn, c.costOut)))
    && (!answer.Completion? ==>
          && r.output == None && r.error == Some(Complaint(answer))
          && r.attempts == 0 && r.inputTokens == 0 && r.outputTokens == 0 && r.cost == 0.0)
  }

  lemma ResultTells(c: Settings, item: WorkItem, calls: nat, answer: Outcome)
    requires c.charsPerToken != 0.0 && ResultOf(c, item, calls, answer).Some?
    ensures Tells(c, item, calls, answer, ResultOf(c, item, calls, answer).value)
  {
    if answer.Completion? {
      var i, o := EstimateTokens(item.prompt, c.charsPerToken), EstimateTokens(answer.output, c.charsPerToken);
      EstimateIsLeastFit(item.prompt, c.charsPerToken);
      EstimateIsLeastFit(answer.output, c.charsPerToken);
      RoundedIsListed(Price(i, o, c.costIn, c.costOut));
    }
  }

  /** The loop's view of what a worker heard. */
  predicate Agrees(heard: seq<Said>, answers: nat -> Outcome, draws: nat -> real) {
    forall i: nat :: i < |heard| ==> answers(i) == heard[i].outcome && draws(i) == heard[i].draw
  }

  /** The sleeps a worker took. */
  function Sleeps(heard: seq<Said>): seq<real> {
    seq(|heard|, i requires 0 <= i < |heard| => if heard[i].sleep.Some? then heard[i].sleep.value else 0.0)
  }

  /** Answers the loop would stop at, after the ones it would retry. */
  lemma StopsTheLoop(c: Settings, item: WorkItem, heard: seq<Said>, answers: nat -> Outcome, draws: nat -> real)
    requires c.charsPerToken != 0.0 && |heard| >= 1 && Agrees(heard, answers, draws)
    requires Retried(c, heard[..|heard| - 1]) && ResultOf(c, item, |heard|, heard[|heard| - 1].outcome).Some?
    ensures R.Outcomes(RetryPolicy(c), answers, draws, heard[|heard| - 1].outcome, |heard|,
                       Sleeps(heard[..|heard| - 1]))
    ensures !Retried(c, heard)
  {
    var n := |heard| - 1;
    forall i: nat | i < n ensures answers(i).RateLimited? && i + 1 <= c.maxRetries && RetriedAt(c, heard[i], i + 1) {
      assert heard[..n][i] == heard[i];
      assert RetriedAt(c, heard[..n][i], i + 1);
    }
    if n > 0 { assert RetriedAt(c, heard[n - 1], n); }
  }

  /**
   Where a worker stands that picked up an item and heard `heard` since: still at it exactly
   if all answers were 429s within the budget; otherwise answers, draws and sleeps are those
   of a whole run of the loop, and what the job has recorded tells its last answer.
   */
  ghost predicate LoopFollowed(c: Settings, s: State, t: nat, id: JobId, item: WorkItem, heard: seq<Said>,
                               answers: nat -> Outcome, draws: nat -> real)
    requires c.charsPerToken != 0.0
  {
    && t < |s.tasks|
    && (s.tasks[t].Busy? <==> Retried(c, heard))
    && (s.tasks[t].Busy? ==> s.tasks[t].job == id && s.tasks[t].item == item)
    && (!s.tasks[t].Busy? ==>
          var n := |heard|;
          && n >= 1 && heard[n - 1].sleep == None
          && R.Outcomes(RetryPolicy(c), answers, draws, heard[n - 1].outcome, n, Sleeps(heard[..n - 1]))
          && id in s.jobs && item.index in s.jobs[id].results
          && Tells(c, item, n, heard[n - 1].outcome, s.jobs[id].results[item.index]))
  }

  /**
   The interleaved engine refines the sequential retry loop. From the moment a worker picks up
   a prompt, however the other workers, submits and cancels interleave, it stays busy exactly
   while the answers are 429s within the budget; and when it is done, answers, draws and the
   sleeps it took are those of a whole run of the loop, and the recorded result tells the
   loop's last answer.
   */
  lemma WorkerFollowsTheLoop(c: Settings, s: State, steps: seq<Step>, t: nat,
                             answers: nat -> Outcome, draws: nat -> real)
    requires Usable(c) && Reachable(c, s) && Runnable(c, s, steps) && OneItem(steps, t)
    requires t < |s.tasks| && s.tasks[t].Busy? && s.tasks[t].attempt == 1 && s.tasks[t].phase == AtBucket
    requires Agrees(Heard(c, s, steps, t), answers, draws)
    ensures LoopFollowed(c, Run(c, s, steps), t, s.tasks[t].job, s.tasks[t].item, Heard(c, s, steps, t), answers, draws)
  {
    var heard := Heard(c, s, steps, t);
    RunFollows(c, s, steps, t, s.tasks[t].job, s.tasks[t].item, []);
    assert [] + heard == heard;
    FollowedToTheEnd(c, Run(c, s, steps), t, s.tasks[t].job, s.tasks[t].item, heard, answers, draws);
  }

  lemma FollowedToTheEnd(c: Settings, s: State, t: nat, id: JobId, item: WorkItem, heard: seq<Said>,
                         answers: nat -> Outcome, draws: nat -> real)
    requires c.charsPerToken != 0.0 && Follows(c, s, t, id, item, heard) && Agrees(heard, answers, draws)
    ensures LoopFollowed(c, s, t, id, item, heard, answers, draws)
  {
    if !s.tasks[t].Busy? {
      StopsTheLoop(c, item, heard, answers, draws);
      ResultTells(c, item, |heard|, heard[|heard| - 1].outcome);
    }
  }

  // ---------------------------------------------------------------- the backoff is kept

  /** Worker `t` cannot start a call before the time `u`: that time has come, or it sleeps till then, or it is gone. */
  predicate Held(s: State, t: nat, u: real) {
    && t < |s.tasks|
    && (u <= s.clock || s.tasks[t].Done? || (s.tasks[t].Busy? && s.tasks[t].phase == BackingOff && s.tasks[t].due >= u))
  }

  lemma StepHolds(c: Settings, s: State, step: Step, t: nat, u: real)
    requires Usable(c) && AttemptsOk(c, s) && Enabled(s, step) && Held(s, t, u)
    ensures Held(Next(c, s, step), t, u)
    ensures step == Admit(t) ==> u <= s.clock
  {
    assert Next(c, s, step).clock >= s.clock by {
      if !step.Admit? && !step.Refuse? { OtherStepsKeepBucket(c, s, step); }
    }
    if Runs(step, t) {
      StepTask(c, s, step);
    } else {
      Untouched(c, s, step, t);
    }
  }

  /** The times at which worker `t` starts calls along a run. */
  function CallTimes(c: Settings, s: State, steps: seq<Step>, t: nat): seq<real>
    requires c.charsPerToken != 0.0 && Runnable(c, s, steps)
    decreases |steps|
  {
    if steps == [] then []
    else (if steps[0] == Admit(t) then [s.clock] else []) + CallTimes(c, Next(c, s, steps[0]), steps[1..], t)
  }

  lemma {:induction false} RunHolds(c: Settings, s: State, steps: seq<Step>, t: nat, u: real)
    requires Usable(c) && Reachable(c, s) && Runnable(c, s, steps) && Held(s, t, u)
    ensures forall i :: 0 <= i < |CallTimes(c, s, steps, t)| ==> CallTimes(c, s, steps, t)[i] >= u
    decreases |steps|
  {
    if steps != [] {
      StepFromReachable(c, s, steps[0]);
      StepHolds(c, s, steps[0], t, u);
      ReachableNext(c, s, steps[0]);
      RunHolds(c, Next(c, s, steps[0]), steps[1..], t, u);
    }
  }

  /** `x` doubled `k` times. */
  function Doubled(x: real, k: nat): real {
    if k == 0 then x else 2.0 * Doubled(x, k - 1)
  }

  lemma {:induction false} DoubledIsExponential(c: Settings, k: nat)
    ensures R.Exponential(RetryPolicy(c), k) == Doubled(c.backoffBase, k)
  {
    R.ExponentialDoubles(RetryPolicy(c), k);
    if k > 0 {
      DoubledIsExponential(c, k - 1);
      R.ExponentialDoubles(RetryPolicy(c), k - 1);
    }
  }

  /**
   A worker that got a 429 within the budget starts no call before the whole backoff is over:
   not before the server's hint, nor before the capped exponential, in any interleaving.
   */
  lemma BackoffIsKept(c: Settings, s: State, t: nat, hint: real, reason: string, steps: seq<Step>)
    requires Usable(c) && Reachable(c, s) && Enabled(s, Reply(t, RateLimited(hint, reason)))
    requires s.tasks[t].attempt <= c.maxRetries
    requires Runnable(c, Next(c, s, Reply(t, RateLimited(hint, reason))), steps)
    ensures var times := CallTimes(c, Next(c, s, Reply(t, RateLimited(hint, reason))), steps, t);
            forall i :: 0 <= i < |times| ==>
              && times[i] >= s.clock + hint
              && times[i] >= s.clock + MinReal(Doubled(c.backoffBase, s.tasks[t].attempt - 1), c.backoffMax)
                             + c.draw(s.counters.retries)
  {
    DoubledIsExponential(c, s.tasks[t].attempt - 1);
    var step := Reply(t, RateLimited(hint, reason));
    var next := Next(c, s, step);
    ReachableNext(c, s, step);
    RunHolds(c, next, steps, t, next.tasks[t].due);
  }

  // ---------------------------------------------------------------- the gate

  /** What the control law hears of a step. */
  function EventsNow(c: Settings, s: State, step: Step): seq<G.Event>
    requires Enabled(s, step)
  {
    if !step.Reply? then []
    else match step.outcome
      case Completion(_) => [G.Succeeded]
      case RateLimited(_, _) => if s.tasks[step.t].attempt <= c.maxRetries then [G.Throttled] else []
      case Fault(_) => []
  }

  function Events(c: Settings, s: State, steps: seq<Step>): seq<G.Event>
    requires c.charsPerToken != 0.0 && Runnable(c, s, steps)
    decreases |steps|
  {
    if steps == [] then [] else EventsNow(c, s, steps[0]) + Events(c, Next(c, s, steps[0]), steps[1..])
  }

  function Throttles(es: seq<G.Event>): nat {
    if es == [] then 0 else (if es[0].Throttled? then 1 else 0) + Throttles(es[1..])
  }

  predicate SameLaw(a: G.Gate, b: G.Gate) {
    a.limit == b.limit && a.streak == b.streak
  }

  /** The control law looks at the limit and the streak only. */
  lemma {:induction false} LawIgnoresWaiters(p: G.Params, a: G.Gate, b: G.Gate, es: seq<G.Event>)
    requires SameLaw(a, b)
    ensures SameLaw(G.AdjustAll(p, a, es), G.AdjustAll(p, b, es))
    decreases |es|
  {
    if es != [] {
      LawIgnoresWaiters(p, G.Adjust(p, a, es[0]), G.Adjust(p, b, es[0]), es[1..]);
    }
  }

  lemma StepLaw(c: Settings, s: State, step: Step)
    requires Usable(c) && Enabled(s, step)
    ensures |EventsNow(c, s, step)| <= 1
    ensures var es := EventsNow(c, s, step);
            && SameLaw(Next(c, s, step).gate, if es == [] then s.gate else G.Adjust(GateParams(c), s.gate, es[0]))
            && Next(c, s, step).counters.retries == s.counters.retries + Throttles(es)
  {
    var es := EventsNow(c, s, step);
    if es != [] { assert es[1..] == []; }
  }

  /**
   Along every run the limit and the streak are the control law applied to the answers in the
   order they came, and the retry counter counts its decreases: nothing else moves them.
   */
  lemma {:induction false} LimitFollowsTheAnswers(c: Settings, s: State, steps: seq<Step>)
    requires Usable(c) && Runnable(c, s, steps)
    ensures SameLaw(Run(c, s, steps).gate, G.AdjustAll(GateParams(c), s.gate, Events(c, s, steps)))
    ensures Run(c, s, steps).counters.retries == s.counters.retries + Throttles(Events(c, s, steps))
    decreases |steps|
  {
    if steps != [] {
      var next, p := Next(c, s, steps[0]), GateParams(c);
      var now, rest := EventsNow(c, s, steps[0]), Events(c, next, steps[1..]);
      StepLaw(c, s, steps[0]);
      LimitFollowsTheAnswers(c, next, steps[1..]);
      if now == [] {
        assert now + rest == rest;
        LawIgnoresWaiters(p, next.gate, s.gate, rest);
      } else {
        assert (now + rest)[1..] == rest && now[1..] == [];
        LawIgnoresWaiters(p, next.gate, G.Adjust(p, s.gate, now[0]), rest);
      }
    }
  }

  // ---------------------------------------------------------------- every final answer is booked

  /** How a step ends a prompt of the job, if it does: well with a completion, badly with an error or a last 429. */
  function Ending(c: Settings, s: State, step: Step, id: JobId): Option<bool>
    requires Enabled(s, step)
  {
    if !step.Reply? || s.tasks[step.t].job != id then None
    else match step.outcome
      case Completion(_) => Some(true)
      case RateLimited(_, _) => if s.tasks[step.t].attempt > c.maxRetries then Some(false) else None
      case Fault(_) => Some(false)
  }

  /** The prompts of the job that end well, or badly, along a run. */
  function Endings(c: Settings, s: State, steps: seq<Step>, id: JobId, well: bool): nat
    requires c.charsPerToken != 0.0 && Runnable(c, s, steps)
    decreases |steps|
  {
    if steps == [] then 0
    else (if Ending(c, s, steps[0], id) == Some(well) then 1 else 0)
         + Endings(c, Next(c, s, steps[0]), steps[1..], id, well)
  }

  /** What the job has booked as succeeded, or failed; nothing before it exists. */
  function Booked(s: State, id: JobId, well: bool): int {
    if id !in s.jobs then 0 else if well then s.jobs[id].succeeded else s.jobs[id].failed
  }

  lemma AnswerBooks(c: Settings, s: State, t: nat, outcome: Outcome, id: JobId, well: bool)
    requires Usable(c) && Enabled(s, Reply(t, outcome))
    ensures Booked(Answer(c, s, t, outcome), id, well)
            == Booked(s, id, well) + (if Ending(c, s, Reply(t, outcome), id) == Some(well) then 1 else 0)
  {
  }

  lemma StepBooks(c: Settings, s: State, step: Step, id: JobId, well: bool)
    requires Usable(c) && Enabled(s, step)
    ensures Booked(Next(c, s, step), id, well)
            == Booked(s, id, well) + (if Ending(c, s, step, id) == Some(well) then 1 else 0)
  {
    match step
    case Start(t) => TakePermitFrame(s, t);
    case Wake(t) => TakePermitFrame(Unwait(s, t), t);
    case Reply(t, outcome) => AnswerBooks(c, s, t, outcome, id, well);
    case _ =>
  }

  /** Along every run a job books exactly the prompts that end, each as it ended. */
  lemma {:induction false} EndingsAreBooked(c: Settings, s: State, steps: seq<Step>, id: JobId, well: bool)
    requires Usable(c) && Runnable(c, s, steps)
    ensures Booked(Run(c, s, steps), id, well) == Booked(s, id, well) + Endings(c, s, steps, id, well)
    decreases |steps|
  {
    if steps != [] {
      StepBooks(c, s, steps[0], id, well);
      EndingsAreBooked(c, Next(c, s, steps[0]), steps[1..], id, well);
    }
  }

  /** From the start: succeeded are the prompts whose final answer was a completion, failed the others that ended. */
  lemma SuccessIsCompletion(c: Settings, steps: seq<Step>, id: JobId)
    requires Usable(c) && Runnable(c, Init(c), steps) && id in Run(c, Init(c), steps).jobs
    ensures var job := Run(c, Init(c), steps).jobs[id];
            && job.succeeded == Endings(c, Init(c), steps, id, true)
            && job.failed == Endings(c, Init(c), steps, id, false)
            && |job.results| == Endings(c, Init(c), steps, id, true) + Endings(c, Init(c), steps, id, false)
  {
    var s := Run(c, Init(c), steps);
    EndingsAreBooked(c, Init(c), steps, id, true);
    EndingsAreBooked(c, Init(c), steps, id, false);
    assert Reachable(c, s);
    BooksBalance(c, s, id);
  }

  // ---------------------------------------------------------------- the ledger

  /** The 429 answers of a run. */
  function RateLimitedAnswers(steps: seq<Step>): nat {
    if steps == [] then 0
    else (if steps[0].Reply? && steps[0].outcome.RateLimited? then 1 else 0) + RateLimitedAnswers(steps[1..])
  }

  /** Along every run the two counters together grow by the number of 429 answers. */
  lemma {:induction false} EveryAnswerIsCounted(c: Settings, s: State, steps: seq<Step>)
    requires Usable(c) && Runnable(c, s, steps)
    ensures var n, n' := s.counters, Run(c, s, steps).counters;
            n'.rateLimited + n'.exhausted == n.rateLimited + n.exhausted + RateLimitedAnswers(steps)
    decreases |steps|
  {
    if steps != [] {
      var next := Next(c, s, steps[0]);
      AnswerIsCounted(c, s, steps[0]);
      EveryAnswerIsCounted(c, next, steps[1..]);
    }
  }

  lemma AnswerIsCounted(c: Settings, s: State, step: Step)
    requires Usable(c) && Enabled(s, step)
    ensures var n, n' := s.counters, Next(c, s, step).counters;
            n'.rateLimited + n'.exhausted
            == n.rateLimited + n.exhausted + (if step.Reply? && step.outcome.RateLimited? then 1 else 0)
  {
    match step
    case Start(t) => TakePermitFrame(s, t);
    case Wake(t) => TakePermitFrame(Unwait(s, t), t);
    case _ =>
  }

  /**
   The ledger of a whole run from the start: the 429 answers received are the rate-limited and
   the exhausted ones counted; the retries of the jobs, the retry counter and the throttles of
   the limiter agree; and no job retries beyond its budget for the prompts handed out.
   */
  lemma LedgerBalances(c: Settings, steps: seq<Step>)
    requires Usable(c) && Runnable(c, Init(c), steps)
    ensures var s := Run(c, Init(c), steps);
            && RateLimitedAnswers(steps) == s.counters.rateLimited + s.counters.exhausted
            && RetryTotal(s.order, s.jobs) == s.counters.retries == s.counters.rateLimited
            && s.counters.retries == Throttles(Events(c, Init(c), steps))
            && forall id :: id in s.jobs ==> 0 <= s.jobs[id].retries <= R.Allowed(c.maxRetries) * s.jobs[id].dequeued
  {
    EveryAnswerIsCounted(c, Init(c), steps);
    LimitFollowsTheAnswers(c, Init(c), steps);
    assert Reachable(c, Run(c, Init(c), steps));
    RetriesAddUp(c, Run(c, Init(c), steps));
  }
}
