/**
 Workers sent back to sleep at the token bucket. A refused worker sleeps until the tokens it
 needs will be there; it is refused again only if somebody else got past the bucket meanwhile.
 */
module EngineRefusals {
  import opened Models
  import opened EngineSpec
  import opened EnginePool
  import opened EngineRate
  import B = TokenBucketSpec

  /** Whoever asks at the time `u` or later, with nobody before it, gets its token. */
  ghost predicate Ripe(b: B.Bucket, u: real) {
    forall now :: u <= now && B.After(b, now) ==> Opens(b, now)
  }

  /** A worker refused now is ripe when its sleep is over, and would be refused at any moment before. */
  lemma RefusedIsRipe(c: Settings, b: B.Bucket, now: real)
    requires BucketOk(c, b) && Serves(c) && B.After(b, now) && !Opens(b, now)
    ensures Ripe(AfterPass(b, now), RefusedUntil(b, now))
    ensures forall early :: now <= early < RefusedUntil(b, now) ==> !Opens(AfterPass(b, now), early)
  {
    forall early | now <= early < RefusedUntil(b, now) ensures !Opens(AfterPass(b, now), early) {
      B.SleepIsExact(b, OneToken(now), early - now);
    }
    forall later | RefusedUntil(b, now) <= later && B.After(AfterPass(b, now), later)
      ensures Opens(AfterPass(b, now), later)
    {
      B.SleepIsExact(b, OneToken(now), B.Sleep(b, OneToken(now)));
      B.SleepIsExact(b, OneToken(now), later - now);
    }
  }

  /** The refusal of one worker leaves the others as ripe as they were. */
  lemma RipeStays(c: Settings, b: B.Bucket, u: real, now: real)
    requires BucketOk(c, b) && Serves(c) && B.After(b, now) && !Opens(b, now) && Ripe(b, u)
    ensures Ripe(AfterPass(b, now), u)
  {
    forall later | u <= later && B.After(AfterPass(b, now), later) ensures Opens(AfterPass(b, now), later) {
      B.RefillTwice(b, now, later);
      assert Opens(b, later);
    }
  }

  ghost function RipeTask(b: B.Bucket): Task -> nat {
    (t: Task) => if t.Busy? && t.phase == AtBucket && Ripe(b, t.due) then 1 else 0
  }

  /** The workers at the bucket that will not be refused unless somebody else passes first. */
  ghost function RipeCount(s: State): nat {
    Sum(RipeTask(s.bucket), s.tasks)
  }

  lemma RipeAreLive(s: State)
    ensures RipeCount(s) <= Sum(Live, s.tasks)
  {
    SumLe(RipeTask(s.bucket), Live, s.tasks);
  }

  /** A refusal makes one more worker ripe. */
  lemma RefuseRipens(c: Settings, s: State, t: nat)
    requires c.charsPerToken != 0.0 && BucketInv(c, s) && Serves(c) && Enabled(s, Refuse(t))
    ensures RipeCount(Next(c, s, Refuse(t))) >= RipeCount(s) + 1
  {
    var s' := Next(c, s, Refuse(t));
    var f, f' := RipeTask(s.bucket), RipeTask(s'.bucket);
    var aside := s.tasks[t := Ready];
    assert !Ripe(s.bucket, s.tasks[t].due);
    SumUpdate(f, s.tasks, t, Ready);
    forall x: Task ensures f(x) <= f'(x) {
      if x.Busy? && Ripe(s.bucket, x.due) { RipeStays(c, s.bucket, x.due, s.clock); }
    }
    SumLe(f, f', aside);
    RefusedIsRipe(c, s.bucket, s.clock);
    SumUpdate(f', aside, t, s'.tasks[t]);
    assert aside[t := s'.tasks[t]] == s'.tasks;
  }

  /** One worker that was not at the bucket moved, and the bucket is as it was. */
  lemma RipeKept(s: State, s': State, t: nat)
    requires t < |s.tasks| && |s'.tasks| == |s.tasks| && s'.tasks == s.tasks[t := s'.tasks[t]] && s'.bucket == s.bucket
    requires !(s.tasks[t].Busy? && s.tasks[t].phase == AtBucket)
    ensures RipeCount(s') >= RipeCount(s)
  {
    SumUpdate(RipeTask(s.bucket), s.tasks, t, s'.tasks[t]);
  }

  lemma TakePermitKeepsRipe(s: State, t: nat)
    requires t < |s.tasks| && !s.tasks[t].Busy?
    ensures RipeCount(TakePermit(s, t)) >= RipeCount(s)
  {
    TakePermitFrame(s, t);
    RipeKept(s, TakePermit(s, t), t);
  }

  lemma AnswerKeepsRipe(c: Settings, s: State, t: nat, outcome: Outcome)
    requires c.charsPerToken != 0.0 && Enabled(s, Reply(t, outcome))
    ensures RipeCount(Answer(c, s, t, outcome)) >= RipeCount(s)
  {
    AnswerKeepsBucket(c, s, t, outcome);
    RipeKept(s, Answer(c, s, t, outcome), t);
  }

  lemma SpawnKeepsRipe(s: State, s': State, n: nat)
    requires s'.tasks == s.tasks + Readies(n) && s'.bucket == s.bucket
    ensures RipeCount(s') >= RipeCount(s)
  {
    SumAppend(RipeTask(s.bucket), s.tasks, Readies(n));
  }

  /** While the engine works, ripe workers stay ripe until somebody passes the bucket. */
  lemma OtherStepsKeepRipe(c: Settings, s: State, step: Step)
    requires Usable(c) && Enabled(s, step) && !step.Admit? && !step.Refuse? && !step.Kill?
    ensures RipeCount(Next(c, s, step)) >= RipeCount(s)
  {
    match step
    case Submit(req, id) =>
      if Judge(c, s, req) == Accepted {
        var s1 := Register(c, s, req, id);
        SpawnKeepsRipe(s, EnsureWorkers(c, s1), SpawnCount(c, Sum(Live, s1.tasks), s1.sched.pending));
      }
    case Start(t) => TakePermitKeepsRipe(s, t);
    case Wake(t) => TakePermitKeepsRipe(Unwait(s, t), t);
    case Reply(t, outcome) => AnswerKeepsRipe(c, s, t, outcome);
    case Continue(t) => RipeKept(s, Next(c, s, step), t);
    case _ =>
  }

  // ---------------------------------------------------------------- the bound

  function Refusals(steps: seq<Step>): nat {
    if steps == [] then 0 else (if steps[0].Refuse? then 1 else 0) + Refusals(steps[1..])
  }

  function Admissions(steps: seq<Step>): nat {
    if steps == [] then 0 else (if steps[0].Admit? then 1 else 0) + Admissions(steps[1..])
  }

  /** The refusals possible before somebody passes the bucket. */
  ghost function Unripe(c: Settings, s: State): int {
    if Working(s) then c.workerPoolSize - RipeCount(s) else 0
  }

  lemma UnripeNonNegative(c: Settings, s: State)
    requires PoolInv(c, s)
    ensures 0 <= Unripe(c, s) && (Working(s) ==> Unripe(c, s) <= c.workerPoolSize)
  {
    RipeAreLive(s);
  }

  /** A refusal uses up one, a pass brings in at most as many as there are workers. */
  lemma StepRipens(c: Settings, s: State, step: Step)
    requires Usable(c) && Enabled(s, step) && PoolInv(c, s) && PoolInv(c, Next(c, s, step))
    requires BucketInv(c, s) && Serves(c)
    ensures Unripe(c, Next(c, s, step)) + (if step.Refuse? then 1 else 0)
            <= Unripe(c, s) + (if step.Admit? then c.workerPoolSize else 0)
  {
    var s' := Next(c, s, step);
    UnripeNonNegative(c, s);
    UnripeNonNegative(c, s');
    if Working(s') {
      StillWorking(c, s, step);
      if step.Refuse? { RefuseRipens(c, s, step.t); }
      else if !step.Admit? { OtherStepsKeepRipe(c, s, step); }
    }
  }

  /** An engine that works afterwards worked before, and killed nobody. */
  lemma StillWorking(c: Settings, s: State, step: Step)
    requires Usable(c) && Enabled(s, step) && Working(Next(c, s, step))
    ensures Working(s) && !step.Kill?
  {
    match step
    case Start(t) => TakePermitFrame(s, t);
    case Wake(t) => TakePermitFrame(Unwait(s, t), t);
    case _ =>
  }

  lemma OneMorePass(w: int, n: nat)
    ensures w * (n + 1) == w * n + w
  {
  }

  /** Between two passes at the bucket no worker is refused twice. */
  lemma {:induction false} RefusalsBounded(c: Settings, s: State, steps: seq<Step>)
    requires Usable(c) && PoolInv(c, s) && BucketInv(c, s) && Serves(c) && Runnable(c, s, steps)
    ensures Refusals(steps) <= Unripe(c, s) + c.workerPoolSize * Admissions(steps)
    decreases |steps|
  {
    UnripeNonNegative(c, s);
    if steps != [] {
      var step, next := steps[0], Next(c, s, steps[0]);
      StepKeepsPool(c, s, step);
      StepKeepsBucket(c, s, step);
      StepRipens(c, s, step);
      RefusalsBounded(c, next, steps[1..]);
      OneMorePass(c.workerPoolSize, Admissions(steps[1..]));
    }
  }

  // ---------------------------------------------------------------- without a token

  /** At a bucket too small for one token a worker is refused as often as one likes. */
  lemma {:induction false} RefusedForEver(c: Settings, s: State, t: nat, n: nat) returns (steps: seq<Step>)
    requires c.charsPerToken != 0.0 && BucketInv(c, s) && !Serves(c) && BusyIn(s, t, AtBucket)
    ensures Runnable(c, s, steps) && Refusals(steps) == n
    decreases n
  {
    if n == 0 {
      steps := [];
    } else {
      var later := Wait(MaxReal(s.clock, s.tasks[t].due));
      var s1 := Next(c, s, later);
      StepKeepsBucket(c, s, later);
      NeverOpens(c, s1.bucket, s1.clock);
      StepKeepsBucket(c, s1, Refuse(t));
      var rest := RefusedForEver(c, Next(c, s1, Refuse(t)), t, n - 1);
      var again := [Refuse(t)] + rest;
      steps := [later] + again;
      assert again[1..] == rest && steps[1..] == again;
      assert Runnable(c, s1, again);
    }
  }
}
