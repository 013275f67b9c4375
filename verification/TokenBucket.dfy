/**
 The token bucket in front of the provider. One pass of the `acquire` loop refills the bucket
 for the time elapsed and either takes the tokens or computes how long to sleep.
 */
module TokenBucketSpec {
  import opened Models

  /** `last` is unset until the first refill. */
  datatype Bucket = Bucket(rate: real, capacity: real, tokens: real, last: Option<real>)

  /** One pass of an acquirer: when it happens and how much it asks for. */
  datatype Visit = Visit(now: real, amount: real)

  function MakeBucket(rate: real, capacity: Option<real>): Bucket {
    var size := if capacity.Some? then capacity.value else MaxReal(rate, 1.0);
    Bucket(rate, size, size, None)
  }

  /** The tokens that arrive over a span of time. */
  function Accrued(rate: real, span: real): real {
    span * rate
  }

  function Refill(b: Bucket, now: real): Bucket {
    if b.last.None? then b.(last := Some(now))
    else b.(last := Some(now), tokens := MinReal(b.capacity, b.tokens + Accrued(b.rate, now - b.last.value)))
  }

  predicate Grants(b: Bucket, v: Visit) {
    Refill(b, v.now).tokens >= v.amount
  }

  function Pass(b: Bucket, v: Visit): Bucket {
    var r := Refill(b, v.now);
    if r.tokens >= v.amount then r.(tokens := r.tokens - v.amount) else r
  }

  /** The sleep computed by a pass that was refused. */
  function Sleep(b: Bucket, v: Visit): real
    requires b.rate > 0.0
  {
    (v.amount - Refill(b, v.now).tokens) / b.rate
  }

  function PassAll(b: Bucket, vs: seq<Visit>): Bucket
    decreases |vs|
  {
    if vs == [] then b else PassAll(Pass(b, vs[0]), vs[1..])
  }

  // ---------------------------------------------------------------- runs

  predicate Ok(b: Bucket) {
    b.rate > 0.0 && 0.0 <= b.tokens <= b.capacity
  }

  predicate After(b: Bucket, now: real) {
    b.last.Some? ==> b.last.value <= now
  }

  /** The clock never goes back, and nobody asks for a negative amount. */
  predicate Timely(b: Bucket, vs: seq<Visit>)
    decreases |vs|
  {
    vs == [] || (After(b, vs[0].now) && vs[0].amount >= 0.0 && Timely(Pass(b, vs[0]), vs[1..]))
  }

  /** The tokens granted to visits between the times `s` and `t`. */
  function Granted(b: Bucket, vs: seq<Visit>, s: real, t: real): real
    decreases |vs|
  {
    if vs == [] then 0.0
    else (if s <= vs[0].now <= t && Grants(b, vs[0]) then vs[0].amount else 0.0)
         + Granted(Pass(b, vs[0]), vs[1..], s, t)
  }

  predicate NoneGranted(b: Bucket, vs: seq<Visit>)
    decreases |vs|
  {
    vs == [] || (!Grants(b, vs[0]) && NoneGranted(Pass(b, vs[0]), vs[1..]))
  }

  lemma AccruedNonNegative(rate: real, span: real)
    requires rate >= 0.0 && span >= 0.0
    ensures Accrued(rate, span) >= 0.0
  {
  }

  lemma AccruedAdds(rate: real, a: real, b: real)
    ensures Accrued(rate, a) + Accrued(rate, b) == Accrued(rate, a + b)
  {
  }

  lemma PassKeeps(b: Bucket, v: Visit)
    requires Ok(b) && After(b, v.now) && v.amount >= 0.0
    ensures Ok(Pass(b, v)) && Ok(Refill(b, v.now)) && Pass(b, v).last == Some(v.now)
  {
    if b.last.Some? { AccruedNonNegative(b.rate, v.now - b.last.value); }
  }

  /** The level stays between zero and the capacity along every run. */
  lemma {:induction false} LevelInBounds(b: Bucket, vs: seq<Visit>)
    requires Ok(b) && Timely(b, vs)
    ensures Ok(PassAll(b, vs)) && PassAll(b, vs).rate == b.rate && PassAll(b, vs).capacity == b.capacity
    decreases |vs|
  {
    if vs != [] {
      PassKeeps(b, vs[0]);
      LevelInBounds(Pass(b, vs[0]), vs[1..]);
    }
  }

  /** What can still be granted up to time `t`. */
  function Supply(b: Bucket, t: real): real
    requires b.last.Some?
  {
    if b.last.value <= t then b.tokens + Accrued(b.rate, t - b.last.value) else 0.0
  }

  lemma {:induction false} GrantedWithinSupply(b: Bucket, vs: seq<Visit>, s: real, t: real)
    requires Ok(b) && Timely(b, vs) && b.last.Some?
    ensures Granted(b, vs, s, t) <= Supply(b, t)
    decreases |vs|
  {
    if b.last.value <= t { AccruedNonNegative(b.rate, t - b.last.value); }
    if vs != [] {
      var v, b' := vs[0], Pass(b, vs[0]);
      PassKeeps(b, v);
      GrantedWithinSupply(b', vs[1..], s, t);
      if v.now <= t {
        AccruedAdds(b.rate, v.now - b.last.value, t - v.now);
      }
    }
  }

  /**
   Conformance: in any run with a clock that never goes back, the tokens granted between any
   two times are at most the capacity plus the rate times the span.
   */
  lemma {:induction false} WindowBound(b: Bucket, vs: seq<Visit>, s: real, t: real)
    requires Ok(b) && Timely(b, vs) && s <= t
    ensures Granted(b, vs, s, t) <= b.capacity + Accrued(b.rate, t - s)
    decreases |vs|
  {
    AccruedNonNegative(b.rate, t - s);
    if vs != [] {
      var v, b' := vs[0], Pass(b, vs[0]);
      PassKeeps(b, v);
      if s <= v.now <= t {
        GrantedWithinSupply(b', vs[1..], s, t);
        AccruedNonNegative(b.rate, v.now - s);
        AccruedAdds(b.rate, v.now - s, t - v.now);
      } else {
        WindowBound(b', vs[1..], s, t);
      }
    }
  }

  // ---------------------------------------------------------------- nothing is lost

  /** All the tokens granted along a run. */
  function Taken(b: Bucket, vs: seq<Visit>): real
    decreases |vs|
  {
    if vs == [] then 0.0 else (if Grants(b, vs[0]) then vs[0].amount else 0.0) + Taken(Pass(b, vs[0]), vs[1..])
  }

  /** The tokens that arrive when the bucket has no room for them. */
  function Overflow(b: Bucket, now: real): real {
    if b.last.None? then 0.0 else MaxReal(0.0, b.tokens + Accrued(b.rate, now - b.last.value) - b.capacity)
  }

  function Spilled(b: Bucket, vs: seq<Visit>): real
    decreases |vs|
  {
    if vs == [] then 0.0 else Overflow(b, vs[0].now) + Spilled(Pass(b, vs[0]), vs[1..])
  }

  function EndTime(start: real, vs: seq<Visit>): real {
    if vs == [] then start else vs[|vs| - 1].now
  }

  /**
   The bucket's account is exact: along every run the level at the end, what was granted and
   what found no room make up the level at the start and the rate times the time between.
   */
  lemma {:induction false} TokensAreConserved(b: Bucket, vs: seq<Visit>)
    requires b.last.Some?
    ensures PassAll(b, vs).tokens + Taken(b, vs) + Spilled(b, vs)
            == b.tokens + Accrued(b.rate, EndTime(b.last.value, vs) - b.last.value)
    ensures PassAll(b, vs).last == Some(EndTime(b.last.value, vs))
    decreases |vs|
  {
    if vs != [] {
      var v, next := vs[0], Pass(b, vs[0]);
      TokensAreConserved(next, vs[1..]);
      assert EndTime(b.last.value, vs) == EndTime(v.now, vs[1..]);
      AccruedAdds(b.rate, v.now - b.last.value, EndTime(v.now, vs[1..]) - v.now);
    } else {
      assert Accrued(b.rate, 0.0) == 0.0;
    }
  }

  /** What accrues is the rate times the time. */
  lemma AccruedIsRateTimesTime(rate: real, span: real)
    ensures Accrued(rate, 1.0) == rate && Accrued(rate, 0.0) == 0.0
    ensures Accrued(rate, span) == rate * span
  {
  }

  /** The bucket never reaches its capacity along the run. */
  predicate RoomThroughout(b: Bucket, vs: seq<Visit>)
    decreases |vs|
  {
    vs == [] || (Overflow(b, vs[0].now) == 0.0 && RoomThroughout(Pass(b, vs[0]), vs[1..]))
  }

  lemma {:induction false} NothingSpilled(b: Bucket, vs: seq<Visit>)
    requires RoomThroughout(b, vs)
    ensures Spilled(b, vs) == 0.0
    decreases |vs|
  {
    if vs != [] { NothingSpilled(Pass(b, vs[0]), vs[1..]); }
  }

  predicate AllGranted(b: Bucket, vs: seq<Visit>)
    decreases |vs|
  {
    vs == [] || (Grants(b, vs[0]) && AllGranted(Pass(b, vs[0]), vs[1..]))
  }

  /** Many visits of one amount at one moment. */
  function AtOnce(now: real, amount: real, k: nat): (vs: seq<Visit>)
    ensures |vs| == k
  {
    if k == 0 then [] else [Visit(now, amount)] + AtOnce(now, amount, k - 1)
  }

  /** The level of the bucket at a moment. */
  function Level(b: Bucket, now: real): real {
    if b.last.None? then b.tokens else MinReal(b.capacity, b.tokens + Accrued(b.rate, now - b.last.value))
  }

  /** A grant takes exactly the amount; a refusal takes nothing. */
  lemma PassTakesTheAmount(b: Bucket, v: Visit)
    requires b.tokens <= b.capacity && v.amount >= 0.0
    ensures Level(Pass(b, v), v.now) == Level(b, v.now) - (if Level(b, v.now) >= v.amount then v.amount else 0.0)
    ensures Grants(b, v) <==> Level(b, v.now) >= v.amount
    ensures Pass(b, v).tokens <= Pass(b, v).capacity
  {
    assert Accrued(b.rate, v.now - v.now) == 0.0;
  }

  /** The whole level is there for the taking: `k` visits at once are all granted exactly if it covers them. */
  lemma {:induction false} BurstExactly(b: Bucket, now: real, amount: real, k: nat)
    requires b.tokens <= b.capacity && amount >= 0.0 && Level(b, now) >= 0.0
    ensures AllGranted(b, AtOnce(now, amount, k)) <==> k as real * amount <= Level(b, now)
    decreases k
  {
    if k > 0 {
      var v := Visit(now, amount);
      assert AtOnce(now, amount, k)[1..] == AtOnce(now, amount, k - 1);
      PassTakesTheAmount(b, v);
      OneLess(k, amount);
      if Level(b, now) >= amount { BurstExactly(Pass(b, v), now, amount, k - 1); }
    }
  }

  lemma OneLess(k: nat, x: real)
    requires k >= 1 && x >= 0.0
    ensures k as real * x == x + (k - 1) as real * x && (k - 1) as real * x >= 0.0
  {
    assert k as real == 1.0 + (k - 1) as real;
  }

  /** A new bucket is full; its size is the one given, or the least that is at least one and the rate. */
  lemma NewBucket(rate: real, size: Option<real>)
    ensures var b := MakeBucket(rate, size);
            && b.rate == rate && b.tokens == b.capacity && b.last == None
            && (size.Some? ==> b.capacity == size.value)
            && (size.None? ==> b.capacity >= 1.0 && b.capacity >= rate && (b.capacity == 1.0 || b.capacity == rate))
  {
  }

  // ---------------------------------------------------------------- progress

  /** Waiting `x / rate` accrues exactly `x`; less accrues less, more accrues more. */
  lemma AccruedInverse(rate: real, x: real, span: real)
    requires rate > 0.0
    ensures Accrued(rate, x / rate) == x
    ensures Accrued(rate, span) >= x <==> span >= x / rate
    ensures x > 0.0 <==> x / rate > 0.0
  {
    var y := x / rate;
    assert y * rate == x;
    if span < y { assert (y - span) * rate > 0.0; assert span * rate == y * rate - (y - span) * rate; }
    if span >= y { assert (span - y) * rate >= 0.0; assert span * rate == y * rate + (span - y) * rate; }
    if y > 0.0 { assert y * rate > 0.0; }
    if y <= 0.0 { assert (-y) * rate >= 0.0; assert y * rate == -((-y) * rate); }
  }

  /** The computed sleep ends exactly when the tokens reach the amount asked for. */
  lemma SleepIsExact(b: Bucket, v: Visit, d: real)
    requires Ok(b) && After(b, v.now) && 0.0 <= v.amount <= b.capacity && d >= 0.0
    requires !Grants(b, v)
    ensures Sleep(b, v) > 0.0
    ensures Refill(Pass(b, v), v.now + d).tokens >= v.amount <==> d >= Sleep(b, v)
    ensures d == Sleep(b, v) ==> Refill(Pass(b, v), v.now + d).tokens == v.amount
  {
    PassKeeps(b, v);
    var missing := v.amount - Refill(b, v.now).tokens;
    AccruedInverse(b.rate, missing, d);
    AccruedNonNegative(b.rate, d);
  }

  /** Refused visits only refill: the level is what one refill from the start would give. */
  lemma {:induction false} RefusalsOnlyRefill(b: Bucket, vs: seq<Visit>, now: real)
    requires Ok(b) && Timely(b, vs) && NoneGranted(b, vs) && b.last.Some?
    requires After(PassAll(b, vs), now)
    ensures b.last.value <= now
    ensures Refill(PassAll(b, vs), now) == Refill(b, now)
    decreases |vs|
  {
    if vs != [] {
      var v, b' := vs[0], Pass(b, vs[0]);
      PassKeeps(b, v);
      RefusalsOnlyRefill(b', vs[1..], now);
      RefillTwice(b, v.now, now);
    }
  }

  lemma RefillTwice(b: Bucket, t: real, now: real)
    requires Ok(b) && b.last.Some? && b.last.value <= t <= now
    ensures Refill(Refill(b, t), now) == Refill(b, now)
  {
    AccruedNonNegative(b.rate, t - b.last.value);
    AccruedNonNegative(b.rate, now - t);
    AccruedAdds(b.rate, t - b.last.value, now - t);
  }

  /**
   Progress under contention: an acquirer whose sleep is over is granted its tokens, unless
   somebody else was granted some during that sleep.
   */
  lemma SleeperIsServedOrOvertaken(b: Bucket, v: Visit, others: seq<Visit>, wake: real)
    requires Ok(b) && After(b, v.now) && 0.0 <= v.amount <= b.capacity && !Grants(b, v)
    requires Timely(Pass(b, v), others) && After(PassAll(Pass(b, v), others), wake)
    requires wake >= v.now + Sleep(b, v)
    ensures Grants(PassAll(Pass(b, v), others), Visit(wake, v.amount)) || !NoneGranted(Pass(b, v), others)
  {
    PassKeeps(b, v);
    if NoneGranted(Pass(b, v), others) {
      RefusalsOnlyRefill(Pass(b, v), others, wake);
      SleepIsExact(b, v, wake - v.now);
    }
  }

  /** A request above the capacity is never granted, however long one waits. */
  lemma {:induction false} TooLargeNeverGranted(b: Bucket, vs: seq<Visit>)
    requires b.tokens <= b.capacity
    requires forall i :: 0 <= i < |vs| ==> vs[i].amount > b.capacity
    ensures NoneGranted(b, vs)
    decreases |vs|
  {
    if vs != [] {
      assert vs[0].amount > b.capacity;
      assert forall i :: 0 <= i < |vs[1..]| ==> vs[1..][i] == vs[i + 1];
      TooLargeNeverGranted(Pass(b, vs[0]), vs[1..]);
    }
  }

  /** How an `acquire` alone at the bucket went: the bucket it leaves, and when it ended or last slept. */
  datatype Trial = Trial(bucket: Bucket, granted: bool, passes: nat, finish: real)

  /** `acquire` alone at the bucket, with as many sleeps as there are delays by which they overrun. */
  function Attempt(b: Bucket, start: real, n: real, lates: seq<real>): Trial
    requires b.rate > 0.0
    decreases |lates|
  {
    var v := Visit(start, n);
    if Grants(b, v) || lates == [] then Trial(Pass(b, v), Grants(b, v), 1, start)
    else
      var r := Attempt(Pass(b, v), start + Sleep(b, v) + lates[0], n, lates[1..]);
      r.(passes := r.passes + 1)
  }

  /** Alone at the bucket, an amount within the capacity is granted by the second pass. */
  lemma SecondPassSuffices(b: Bucket, start: real, n: real, lates: seq<real>)
    requires Ok(b) && After(b, start) && 0.0 <= n <= b.capacity && lates != [] && lates[0] >= 0.0
    ensures var r := Attempt(b, start, n, lates);
            && r.granted && Ok(r.bucket)
            && r.passes == (if Grants(b, Visit(start, n)) then 1 else 2)
            && r.finish == (if Grants(b, Visit(start, n)) then start else start + Sleep(b, Visit(start, n)) + lates[0])
  {
    var v := Visit(start, n);
    PassKeeps(b, v);
    if !Grants(b, v) {
      var wake := start + Sleep(b, v) + lates[0];
      SleepIsExact(b, v, Sleep(b, v) + lates[0]);
      PassKeeps(Pass(b, v), Visit(wake, n));
    }
  }

  /** An amount above the capacity sleeps on for ever, however often it wakes. */
  lemma {:induction false} TooLargeSleepsOn(b: Bucket, start: real, n: real, lates: seq<real>)
    requires b.rate > 0.0 && b.tokens <= b.capacity < n
    ensures var r := Attempt(b, start, n, lates);
            !r.granted && r.passes == |lates| + 1
    decreases |lates|
  {
    var v := Visit(start, n);
    if lates != [] { TooLargeSleepsOn(Pass(b, v), start + Sleep(b, v) + lates[0], n, lates[1..]); }
  }

  /** The engine's bucket: its size is the burst, or the rate itself when no burst is set. */
  function EngineBucket(rps: real, burst: real): Bucket {
    MakeBucket(rps, Some(EngineCapacity(rps, burst)))
  }

  predicate UnitVisits(vs: seq<Visit>) {
    forall i :: 0 <= i < |vs| ==> vs[i].amount == 1.0
  }

  /** The size of the engine's bucket. */
  function EngineCapacity(rps: real, burst: real): real {
    if burst != 0.0 then burst else rps
  }

  /**
   With limiting on, calls through the engine's bucket can get past it exactly when its size
   is at least one token: a rate below one per second without a burst blocks every call for
   ever.
   */
  lemma EngineBucketServesExactly(rps: real, burst: real)
    requires rps > 0.0
    ensures (exists vs :: UnitVisits(vs) && !NoneGranted(EngineBucket(rps, burst), vs))
            <==> (if burst != 0.0 then burst else rps) >= 1.0
  {
    var b := EngineBucket(rps, burst);
    if b.capacity >= 1.0 {
      var vs := [Visit(0.0, 1.0)];
      assert Grants(b, vs[0]);
      assert UnitVisits(vs) && !NoneGranted(b, vs);
    } else {
      forall vs | UnitVisits(vs) ensures NoneGranted(b, vs) { TooLargeNeverGranted(b, vs); }
    }
  }

  /** One call every two seconds and no burst: no call ever. */
  lemma SlowBucketExample(vs: seq<Visit>)
    requires UnitVisits(vs)
    ensures NoneGranted(EngineBucket(0.5, 0.0), vs)
  {
    TooLargeNeverGranted(EngineBucket(0.5, 0.0), vs);
  }
}

module TokenBucket {
  import opened Models
  import opened TokenBucketSpec

  class TokenBucket {
    const rate: real
    const capacity: real
    var tokens: real
    var last: Option<real>

    ghost function View(): Bucket
      reads this
    {
      Bucket(rate, capacity, tokens, last)
    }

    constructor (ratePerSec: real, size: Option<real>)
      ensures View() == MakeBucket(ratePerSec, size)
    {
      rate := ratePerSec;
      var full := if size.Some? then size.value else if ratePerSec >= 1.0 then ratePerSec else 1.0;
      capacity := full;
      tokens := full;
      last := None;
    }

    method RefillAt(now: real)
      modifies this
      ensures View() == Refill(old(View()), now)
    {
      if last == None {
        last := Some(now);
        return;
      }
      var elapsed := now - last.value;
      last := Some(now);
      var level := tokens + elapsed * rate;
      tokens := if capacity <= level then capacity else level;
    }

    /** One pass of the loop in `acquire`, under the lock. */
    method TryTake(now: real, n: real) returns (granted: bool, wait: real)
      requires rate > 0.0
      modifies this
      ensures granted == Grants(old(View()), Visit(now, n))
      ensures View() == Pass(old(View()), Visit(now, n))
      ensures !granted ==> wait == Sleep(old(View()), Visit(now, n))
    {
      RefillAt(now);
      if tokens >= n {
        tokens := tokens - n;
        return true, 0.0;
      }
      var deficit := n - tokens;
      return false, deficit / rate;
    }

    /**
     `acquire` with nobody else at the bucket. The loop of the source need not end; this one
     gives up after as many sleeps as there are entries in `lates`, by how much each overruns.
     */
    method Acquire(start: real, n: real, lates: seq<real>) returns (granted: bool, passes: nat, finish: real)
      modifies this
      ensures rate <= 0.0 ==> granted && passes == 0 && finish == start && View() == old(View())
      ensures rate > 0.0 ==> Trial(View(), granted, passes, finish) == Attempt(old(View()), start, n, lates)
    {
      granted, passes, finish := true, 0, start;
      if rate <= 0.0 {
        return;
      }
      while true
        invariant rate > 0.0 && passes <= |lates|
        invariant Attempt(old(View()), start, n, lates)
                  == var r := Attempt(View(), finish, n, lates[passes..]); r.(passes := r.passes + passes)
        decreases |lates| - passes
      {
        var wait;
        granted, wait := TryTake(finish, n);
        passes := passes + 1;
        if granted || passes > |lates| {
          return;
        }
        assert lates[passes - 1..][1..] == lates[passes..];
        finish := finish + wait + lates[passes - 1];
      }
    }
  }
}
