/**
 Retrying rate-limited calls with capped exponential backoff and jitter, never sleeping less
 than the server's hint.
 */
module Retry {
  import opened Models

  datatype Policy = Policy(maxRetries: int, base: real, cap: real, jitter: real)

  function Pow2(k: nat): (r: real)
    ensures r >= 1.0
  {
    if k == 0 then 1.0 else 2.0 * Pow2(k - 1)
  }

  function Exponential(p: Policy, k: nat): real {
    p.base * Pow2(k)
  }

  /** The exponential part of the backoff before retry number `attempt` (from 1). */
  function Capped(p: Policy, attempt: nat): real
    requires attempt >= 1
  {
    MinReal(Exponential(p, attempt - 1), p.cap)
  }

  function Backoff(p: Policy, attempt: nat, draw: real): real
    requires attempt >= 1
  {
    Capped(p, attempt) + draw
  }

  function Delay(p: Policy, attempt: nat, draw: real, hint: real): real
    requires attempt >= 1
  {
    MaxReal(Backoff(p, attempt, draw), hint)
  }

  /** The retries one prompt may cost; a negative setting allows none. */
  function Allowed(maxRetries: int): nat {
    Max(0, maxRetries)
  }

  /** The most calls one prompt may cost. */
  function MaxCalls(maxRetries: int): nat {
    Allowed(maxRetries) + 1
  }

  /**
   What the loop may do against a provider whose call number `i` (from 0) answers `answers(i)`:
   it stops at the first answer that is not a 429, or when the calls are used up.
   */
  ghost predicate Outcomes(p: Policy, answers: nat -> Outcome, draws: nat -> real,
                           last: Outcome, attempts: nat, delays: seq<real>)
  {
    && 1 <= attempts <= MaxCalls(p.maxRetries)
    && last == answers(attempts - 1)
    && (forall i: nat :: i < attempts - 1 ==> answers(i).RateLimited?)
    && (last.RateLimited? ==> attempts == MaxCalls(p.maxRetries))
    && |delays| == attempts - 1
    && (forall i: nat :: i < |delays| ==> delays[i] == Delay(p, i + 1, draws(i), answers(i).retryAfter))
  }

  method InferWithRetry(p: Policy, answers: nat -> Outcome, draws: nat -> real)
    returns (last: Outcome, attempts: nat, delays: seq<real>)
    ensures Outcomes(p, answers, draws, last, attempts, delays)
  {
    attempts, delays := 0, [];
    while true
      invariant attempts <= Allowed(p.maxRetries)
      invariant forall i: nat :: i < attempts ==> answers(i).RateLimited?
      invariant |delays| == attempts
      invariant forall i: nat :: i < |delays| ==> delays[i] == Delay(p, i + 1, draws(i), answers(i).retryAfter)
      decreases MaxCalls(p.maxRetries) - attempts
    {
      attempts := attempts + 1;
      last := answers(attempts - 1);
      match last {
        case RateLimited(retryAfter, _) =>
          if attempts > p.maxRetries {
            return;
          }
          var backoff := Backoff(p, attempts, draws(attempts - 1));
          var delay := if backoff >= retryAfter then backoff else retryAfter;
          delays := delays + [delay];
        case _ =>
          return;
      }
    }
  }

  /** The contract leaves nothing open: answers and draws fix the outcome. */
  lemma OutcomeIsDetermined(p: Policy, answers: nat -> Outcome, draws: nat -> real,
                            l1: Outcome, a1: nat, d1: seq<real>, l2: Outcome, a2: nat, d2: seq<real>)
    requires Outcomes(p, answers, draws, l1, a1, d1) && Outcomes(p, answers, draws, l2, a2, d2)
    ensures l1 == l2 && a1 == a2 && d1 == d2
  {
    assert a1 == a2;
  }

  /** A prompt succeeds exactly when its first answer other than a 429 comes in time and is a completion. */
  lemma SucceedsExactly(p: Policy, answers: nat -> Outcome, draws: nat -> real,
                        last: Outcome, attempts: nat, delays: seq<real>)
    requires Outcomes(p, answers, draws, last, attempts, delays)
    ensures last.Completion? <==>
            exists k: nat :: k < MaxCalls(p.maxRetries) && answers(k).Completion? && forall i: nat :: i < k ==> answers(i).RateLimited?
    ensures last.RateLimited? <==> forall i: nat :: i < MaxCalls(p.maxRetries) ==> answers(i).RateLimited?
    ensures last.RateLimited? ==> |delays| == Allowed(p.maxRetries)
  {
    assert last == answers(attempts - 1);
    if last.RateLimited? {
      forall i: nat | i < MaxCalls(p.maxRetries) ensures answers(i).RateLimited? {
        if i == attempts - 1 { assert answers(i) == last; }
      }
    }
  }

  /** A sleep is the server's hint or the capped doubling of the base with its jitter, and no shorter than either. */
  lemma DelayHonoursHint(p: Policy, answers: nat -> Outcome, draws: nat -> real,
                         last: Outcome, attempts: nat, delays: seq<real>, i: nat)
    requires Outcomes(p, answers, draws, last, attempts, delays) && i < |delays|
    ensures answers(i).RateLimited?
    ensures var backoff := MinReal(Exponential(p, i), p.cap) + draws(i);
            && delays[i] >= answers(i).retryAfter && delays[i] >= backoff
            && (delays[i] == answers(i).retryAfter || delays[i] == backoff)
  {
    assert delays[i] == Delay(p, i + 1, draws(i), answers(i).retryAfter);
  }

  /** The backoff starts at the base and doubles from one retry to the next. */
  lemma ExponentialDoubles(p: Policy, k: nat)
    ensures Exponential(p, 0) == p.base
    ensures Exponential(p, k + 1) == Exponential(p, k) + Exponential(p, k)
  {
    assert Pow2(k + 1) == 2.0 * Pow2(k);
  }

  // ---------------------------------------------------------------- total sleep

  function Total(xs: seq<real>): real {
    if xs == [] then 0.0 else Total(xs[..|xs| - 1]) + xs[|xs| - 1]
  }

  /** The exponential parts of the first `k` delays together. */
  function CappedTotal(p: Policy, k: nat): real {
    if k == 0 then 0.0 else CappedTotal(p, k - 1) + Capped(p, k)
  }

  function HintTotal(answers: nat -> Outcome, k: nat): real {
    if k == 0 then 0.0
    else HintTotal(answers, k - 1)
         + (if answers(k - 1).RateLimited? then MaxReal(0.0, answers(k - 1).retryAfter) else 0.0)
  }

  /** The doubling first reaches the cap at retry `c`, counted from zero. */
  predicate Crosses(p: Policy, c: nat) {
    Exponential(p, c) >= p.cap && (c > 0 ==> Exponential(p, c - 1) < p.cap)
  }

  lemma {:induction false} Pow2Grows(k: nat)
    ensures Pow2(k) >= k as real
  {
    if k > 0 { Pow2Grows(k - 1); }
  }

  /** Doubling a positive base passes every bound: before retry number cap / base. */
  lemma BelowCapIsEarly(p: Policy, k: nat)
    requires p.base > 0.0 && Exponential(p, k) < p.cap
    ensures k <= (p.cap / p.base).Floor
  {
    Pow2Grows(k);
    MulLeReal(k as real, Pow2(k), p.base);
    var q := p.cap / p.base;
    assert q * p.base == p.cap;
    if k as real > q { MulLeReal(q, k as real, p.base); }
  }

  /** The first retry, from `k` on, at which the doubling has reached the cap. */
  function Crossing(p: Policy, k: nat): (c: nat)
    requires p.base > 0.0 && (k > 0 ==> Exponential(p, k - 1) < p.cap)
    ensures Crosses(p, c)
    decreases (p.cap / p.base).Floor + 1 - k
  {
    if Exponential(p, k) >= p.cap then k else BelowCapIsEarly(p, k); Crossing(p, k + 1)
  }

  /** The sum of the first `k` doublings. */
  function Geometric(p: Policy, k: nat): real {
    p.base * (Pow2(k) - 1.0)
  }

  function Times(n: nat, x: real): real {
    n as real * x
  }

  lemma OneMore(n: nat, x: real)
    ensures Times(n + 1, x) == Times(n, x) + x
  {
  }

  lemma OneMoreDoubling(p: Policy, k: nat)
    ensures Geometric(p, k + 1) == Geometric(p, k) + Exponential(p, k)
  {
    assert Pow2(k + 1) == 2.0 * Pow2(k);
  }

  lemma {:induction false} Doubling(p: Policy, i: nat, j: nat)
    requires p.base >= 0.0 && i <= j
    ensures 0.0 <= Exponential(p, i) <= Exponential(p, j)
    decreases j
  {
    assert Exponential(p, i) >= 0.0;
    if i < j {
      Doubling(p, i, j - 1);
      assert Pow2(j) == 2.0 * Pow2(j - 1);
      assert Exponential(p, j) == Exponential(p, j - 1) + Exponential(p, j - 1);
    }
  }

  /** The same policy with the signs of base and cap turned. */
  function Mirrored(p: Policy): Policy {
    p.(base := -p.base, cap := -p.cap)
  }

  /**
   The capped exponentials of `k` retries in closed form. With a positive base: geometric up to
   the cap, then linear. With a negative one the other way round, and with none nothing to
   double.
   */
  function ClosedForm(p: Policy, k: nat): real {
    if p.base == 0.0 then Times(k, MinReal(0.0, p.cap))
    else if p.base > 0.0 then
      var c := Crossing(p, 0);
      if k <= c then Geometric(p, k) else Geometric(p, c) + Times(k - c, p.cap)
    else
      var c := Crossing(Mirrored(p), 0);
      if k <= c then Times(k, p.cap) else Times(c, p.cap) + Geometric(p, k) - Geometric(p, c)
  }

  lemma {:induction false} CappedTotalClosedForm(p: Policy, k: nat)
    ensures CappedTotal(p, k) == ClosedForm(p, k)
    decreases k
  {
    if k > 0 {
      CappedTotalClosedForm(p, k - 1);
      if p.base == 0.0 {
        assert Exponential(p, k - 1) == 0.0;
        OneMore(k - 1, MinReal(0.0, p.cap));
      } else if p.base > 0.0 {
        OneMoreCapped(p, Crossing(p, 0), k - 1);
      } else {
        OneMoreNegative(p, Crossing(Mirrored(p), 0), k - 1);
      }
    }
  }

  lemma OneMoreCapped(p: Policy, c: nat, k: nat)
    requires p.base >= 0.0 && Crosses(p, c)
    ensures k < c ==> Capped(p, k + 1) == Geometric(p, k + 1) - Geometric(p, k)
    ensures k >= c ==> Capped(p, k + 1) == p.cap && Times(k + 1 - c, p.cap) == Times(k - c, p.cap) + p.cap
  {
    if k < c {
      Doubling(p, k, c - 1);
      OneMoreDoubling(p, k);
    } else {
      Doubling(p, c, k);
      OneMore(k - c, p.cap);
    }
  }

  lemma OneMoreNegative(p: Policy, c: nat, k: nat)
    requires p.base < 0.0 && Crosses(Mirrored(p), c)
    ensures k < c ==> Capped(p, k + 1) == p.cap && Times(k + 1, p.cap) == Times(k, p.cap) + p.cap
    ensures k >= c ==> Capped(p, k + 1) == Geometric(p, k + 1) - Geometric(p, k)
  {
    assert Exponential(Mirrored(p), k) == -Exponential(p, k);
    if k < c {
      Doubling(Mirrored(p), k, c - 1);
      OneMore(k, p.cap);
    } else {
      Doubling(Mirrored(p), c, k);
      OneMoreDoubling(p, k);
    }
  }

  /** The exponential part of all the sleeping, where a negative one costs no time. */
  function Ceiling(p: Policy, k: nat): real {
    if p.base < 0.0 || p.cap < 0.0 then 0.0 else ClosedForm(p, k)
  }

  /** With a negative base or cap no retry has a positive exponential part. */
  lemma {:induction false} NegativeTotal(p: Policy, k: nat)
    requires (p.base < 0.0 || p.cap < 0.0) && k >= 1
    ensures Capped(p, k) <= 0.0
  {
    if p.base < 0.0 { MulLeReal(p.base, 0.0, Pow2(k - 1)); }
  }

  function PositiveTotal(p: Policy, k: nat): real {
    if k == 0 then 0.0 else PositiveTotal(p, k - 1) + MaxReal(0.0, Capped(p, k))
  }

  lemma {:induction false} PositiveTotalIsCeiling(p: Policy, k: nat)
    ensures PositiveTotal(p, k) == Ceiling(p, k)
    decreases k
  {
    CappedTotalClosedForm(p, k);
    if k > 0 {
      PositiveTotalIsCeiling(p, k - 1);
      CappedTotalClosedForm(p, k - 1);
      if p.base < 0.0 || p.cap < 0.0 { NegativeTotal(p, k); } else { Doubling(p, k - 1, k - 1); }
    } else {
      assert CappedTotal(p, 0) == 0.0;
    }
  }

  lemma {:induction false} PrefixTotal(p: Policy, answers: nat -> Outcome, draws: nat -> real, delays: seq<real>)
    requires forall k: nat :: draws(k) <= MaxReal(0.0, p.jitter)
    requires forall i: nat :: i < |delays| ==> answers(i).RateLimited?
    requires forall i: nat :: i < |delays| ==> delays[i] == Delay(p, i + 1, draws(i), answers(i).retryAfter)
    ensures Total(delays) <= PositiveTotal(p, |delays|) + Times(|delays|, MaxReal(0.0, p.jitter)) + HintTotal(answers, |delays|)
    decreases |delays|
  {
    if delays != [] {
      var k := |delays| - 1;
      PrefixTotal(p, answers, draws, delays[..k]);
      assert delays[k] == Delay(p, k + 1, draws(k), answers(k).retryAfter);
      assert draws(k) <= MaxReal(0.0, p.jitter);
      OneMore(k, MaxReal(0.0, p.jitter));
    }
  }

  /**
   All the sleeping one prompt can cost: the capped exponentials, one jitter per retry, and
   the hints.
   */
  lemma TotalSleep(p: Policy, answers: nat -> Outcome, draws: nat -> real,
                   last: Outcome, attempts: nat, delays: seq<real>)
    requires Outcomes(p, answers, draws, last, attempts, delays)
    requires forall k: nat :: draws(k) <= MaxReal(0.0, p.jitter)
    ensures var k := attempts - 1;
            Total(delays) <= Ceiling(p, k) + Times(k, MaxReal(0.0, p.jitter)) + HintTotal(answers, k)
  {
    PositiveTotalIsCeiling(p, attempts - 1);
    PrefixTotal(p, answers, draws, delays);
  }
}
