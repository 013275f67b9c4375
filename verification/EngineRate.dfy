/**
 The token bucket inside the engine: how many provider calls a span of time can see, and when
 a worker at the bucket gets past it at all.
 */
module EngineRate {
  import opened Models
  import opened EngineSpec
  import opened EnginePool
  import B = TokenBucketSpec

  /** The bucket can hold the token a call takes, or there is no limit. */
  predicate Serves(c: Settings) {
    c.rps <= 0.0 || B.EngineCapacity(c.rps, c.burst) >= 1.0
  }

  predicate BucketOk(c: Settings, b: B.Bucket) {
    && b.rate == c.rps && b.capacity == B.EngineCapacity(c.rps, c.burst)
    && b.tokens <= b.capacity && (b.last.None? ==> b.tokens == b.capacity)
    && (c.rps > 0.0 && b.capacity >= 0.0 ==> B.Ok(b))
  }

  lemma PassKeepsBucket(c: Settings, b: B.Bucket, now: real)
    requires BucketOk(c, b) && B.After(b, now)
    ensures BucketOk(c, AfterPass(b, now))
  {
    if c.rps > 0.0 && b.capacity >= 0.0 { B.PassKeeps(b, OneToken(now)); }
  }

  /** The bucket is in order and was not used later than now. */
  predicate BucketInv(c: Settings, s: State) {
    BucketOk(c, s.bucket) && B.After(s.bucket, s.clock)
  }

  /** Only a pass touches the bucket, and only waiting moves the clock. */
  lemma OtherStepsKeepBucket(c: Settings, s: State, step: Step)
    requires c.charsPerToken != 0.0 && Enabled(s, step) && !step.Admit? && !step.Refuse?
    ensures Next(c, s, step).bucket == s.bucket && Next(c, s, step).clock >= s.clock
  {
    match step
    case Start(t) => TakePermitFrame(s, t);
    case Wake(t) => TakePermitFrame(Unwait(s, t), t);
    case Reply(t, outcome) => AnswerKeepsBucket(c, s, t, outcome);
    case _ =>
  }

  lemma AnswerKeepsBucket(c: Settings, s: State, t: nat, outcome: Outcome)
    requires c.charsPerToken != 0.0 && Enabled(s, Reply(t, outcome))
    ensures Answer(c, s, t, outcome).bucket == s.bucket && Answer(c, s, t, outcome).clock == s.clock
  {
  }

  lemma StepKeepsBucket(c: Settings, s: State, step: Step)
    requires c.charsPerToken != 0.0 && BucketInv(c, s) && Enabled(s, step)
    ensures BucketInv(c, Next(c, s, step))
  {
    if step.Admit? || step.Refuse? {
      PassKeepsBucket(c, s.bucket, s.clock);
    } else {
      OtherStepsKeepBucket(c, s, step);
    }
  }

  /** A bucket that serves opens at some time from now on. */
  lemma OpeningComes(c: Settings, b: B.Bucket, from: real) returns (now: real)
    requires BucketOk(c, b) && Serves(c) && B.After(b, from)
    ensures from <= now && Opens(b, now)
  {
    now := from;
    if c.rps > 0.0 && !B.Grants(b, OneToken(now)) {
      var wait := B.Sleep(b, OneToken(now));
      B.SleepIsExact(b, OneToken(now), wait);
      B.RefillTwice(b, now, now + wait);
      now := now + wait;
    }
  }

  lemma NeverOpens(c: Settings, b: B.Bucket, now: real)
    requires BucketOk(c, b) && !Serves(c)
    ensures !Opens(b, now)
  {
  }

  // ---------------------------------------------------------------- calls in a span of time

  /** The passes at the bucket along a run. */
  function Visits(c: Settings, s: State, steps: seq<Step>): seq<B.Visit>
    requires c.charsPerToken != 0.0 && Runnable(c, s, steps)
    decreases |steps|
  {
    if steps == [] then []
    else (if steps[0].Admit? || steps[0].Refuse? then [OneToken(s.clock)] else [])
         + Visits(c, Next(c, s, steps[0]), steps[1..])
  }

  /** The provider calls started between two times. */
  function CallsBetween(c: Settings, s: State, steps: seq<Step>, from: real, to: real): nat
    requires c.charsPerToken != 0.0 && Runnable(c, s, steps)
    decreases |steps|
  {
    if steps == [] then 0
    else (if steps[0].Admit? && from <= s.clock <= to then 1 else 0)
         + CallsBetween(c, Next(c, s, steps[0]), steps[1..], from, to)
  }

  /** With a rate set, the run's calls are the bucket's grants. */
  lemma {:induction false} CallsAreGrants(c: Settings, s: State, steps: seq<Step>, from: real, to: real)
    requires c.charsPerToken != 0.0 && Runnable(c, s, steps) && BucketInv(c, s) && c.rps > 0.0
    ensures Run(c, s, steps).bucket == B.PassAll(s.bucket, Visits(c, s, steps))
    ensures B.Timely(s.bucket, Visits(c, s, steps))
    ensures B.Granted(s.bucket, Visits(c, s, steps), from, to) == CallsBetween(c, s, steps, from, to) as real
    decreases |steps|
  {
    if steps != [] {
      var step, next := steps[0], Next(c, s, steps[0]);
      StepKeepsBucket(c, s, step);
      CallsAreGrants(c, next, steps[1..], from, to);
      var later := Visits(c, next, steps[1..]);
      if step.Admit? || step.Refuse? {
        assert next.bucket == B.Pass(s.bucket, OneToken(s.clock));
        assert ([OneToken(s.clock)] + later)[1..] == later;
      } else {
        OtherStepsKeepBucket(c, s, step);
        assert [] + later == later;
      }
    }
  }

  /** A bucket that cannot hold a token lets no call through, in any run. */
  lemma {:induction false} NoCallPasses(c: Settings, s: State, steps: seq<Step>, from: real, to: real)
    requires c.charsPerToken != 0.0 && BucketInv(c, s) && !Serves(c) && Runnable(c, s, steps)
    ensures CallsBetween(c, s, steps, from, to) == 0
    decreases |steps|
  {
    if steps != [] {
      NeverOpens(c, s.bucket, s.clock);
      StepKeepsBucket(c, s, steps[0]);
      NoCallPasses(c, Next(c, s, steps[0]), steps[1..], from, to);
    }
  }

  /**
   The rate limit of the engine: however the workers interleave, the provider calls started
   between any two times are at most the burst plus the rate times the span.
   */
  lemma CallsWithinRate(c: Settings, s: State, steps: seq<Step>, from: real, to: real)
    requires c.charsPerToken != 0.0 && BucketInv(c, s) && Runnable(c, s, steps) && c.rps > 0.0 && from <= to
    ensures CallsBetween(c, s, steps, from, to) as real
            <= MaxReal(0.0, B.EngineCapacity(c.rps, c.burst)) + B.Accrued(c.rps, to - from)
  {
    if Serves(c) {
      CallsAreGrants(c, s, steps, from, to);
      B.WindowBound(s.bucket, Visits(c, s, steps), from, to);
    } else {
      NoCallPasses(c, s, steps, from, to);
      B.AccruedNonNegative(c.rps, to - from);
    }
  }

  // ---------------------------------------------------------------- calls at one moment

  /** Workers that stand at the bucket, awake, each once. */
  predicate Asking(s: State, ts: seq<nat>) {
    && (forall i :: 0 <= i < |ts| ==> BusyIn(s, ts[i], AtBucket) && s.tasks[ts[i]].due <= s.clock)
    && (forall i, j :: 0 <= i < j < |ts| ==> ts[i] != ts[j])
  }

  function Admits(ts: seq<nat>): seq<Step> {
    if ts == [] then [] else [Admit(ts[0])] + Admits(ts[1..])
  }

  lemma OpensAtLevel(c: Settings, b: B.Bucket, now: real)
    requires BucketOk(c, b) && c.rps > 0.0
    ensures Opens(b, now) <==> B.Level(b, now) >= 1.0
    ensures Opens(b, now) ==> B.Level(AfterPass(b, now), now) == B.Level(b, now) - 1.0
  {
    B.PassTakesTheAmount(b, OneToken(now));
  }

  /** The workers at the bucket can all start their calls now exactly if the level has a token for each. */
  lemma {:induction false} CallsAtOnceExactly(c: Settings, s: State, ts: seq<nat>)
    requires c.charsPerToken != 0.0 && BucketInv(c, s) && c.rps > 0.0 && Asking(s, ts) && ts != []
    ensures Runnable(c, s, Admits(ts)) <==> |ts| as real <= B.Level(s.bucket, s.clock)
    decreases |ts|
  {
    var rest := ts[1..];
    assert BusyIn(s, ts[0], AtBucket) && s.tasks[ts[0]].due <= s.clock;
    OpensAtLevel(c, s.bucket, s.clock);
    assert Admits(ts)[0] == Admit(ts[0]) && Admits(ts)[1..] == Admits(rest);
    if Opens(s.bucket, s.clock) {
      var next := Next(c, s, Admit(ts[0]));
      PassKeepsBucket(c, s.bucket, s.clock);
      assert Asking(next, rest) by {
        forall i | 0 <= i < |rest| ensures BusyIn(next, rest[i], AtBucket) && next.tasks[rest[i]].due <= next.clock {
          assert rest[i] == ts[i + 1] && BusyIn(s, ts[i + 1], AtBucket) && ts[0] != ts[i + 1];
        }
      }
      if rest != [] { CallsAtOnceExactly(c, next, rest); }
      assert Runnable(c, s, Admits(ts)) <==> Runnable(c, next, Admits(rest));
    } else {
      assert !Runnable(c, s, Admits(ts));
    }
  }

  // ---------------------------------------------------------------- a bucket that never opens

  /** Nobody has got past the bucket. */
  predicate Untried(s: State) {
    && (forall t :: 0 <= t < |s.tasks| && s.tasks[t].Busy? ==> s.tasks[t].phase == AtBucket)
    && (forall id :: id in s.jobs ==> s.jobs[id].completed == 0 && s.jobs[id].state != Completed)
  }

  predicate RateInv(c: Settings, s: State) {
    BucketInv(c, s) && s.clock >= 0.0 && (!Serves(c) ==> Untried(s))
  }

  lemma FetchKeepsUntried(s: State, t: nat)
    requires Untried(s) && t < |s.tasks|
    ensures Untried(TakePermit(s, t))
  {
    TakePermitFrame(s, t);
    var s' := TakePermit(s, t);
    assert s'.tasks[t].Busy? ==> s'.tasks[t].phase == AtBucket;
  }

  lemma StepKeepsUntried(c: Settings, s: State, step: Step)
    requires Usable(c) && BucketOk(c, s.bucket) && !Serves(c) && Untried(s) && Enabled(s, step)
    ensures Untried(Next(c, s, step))
  {
    match step
    case Start(t) => FetchKeepsUntried(s, t);
    case Wake(t) => FetchKeepsUntried(Unwait(s, t), t);
    case Admit(_) => NeverOpens(c, s.bucket, s.clock);
    case _ =>
  }

  lemma StepKeepsRate(c: Settings, s: State, step: Step)
    requires Usable(c) && RateInv(c, s) && Enabled(s, step)
    ensures RateInv(c, Next(c, s, step))
  {
    StepKeepsBucket(c, s, step);
    if !step.Admit? && !step.Refuse? { OtherStepsKeepBucket(c, s, step); }
    if !Serves(c) { StepKeepsUntried(c, s, step); }
  }
}
