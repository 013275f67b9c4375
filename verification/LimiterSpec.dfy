/**
 The adaptive concurrency gate: a semaphore with a moving limit, a condition variable with
 first-in first-out waiters, and additive increase / multiplicative decrease of the limit.
 */
module LimiterSpec {
  import opened Models

  /** The clamped bounds of the limit, and the control law that moves it. */
  datatype Params = Params(minimum: int, maximum: int, factor: real, increaseAfter: int)

  /** A task waiting on the condition variable; `notified` once its future has been resolved. */
  datatype Waiter = Waiter(task: nat, notified: bool)

  datatype Gate = Gate(limit: int, inUse: int, streak: int, waiters: seq<Waiter>)

  // ---------------------------------------------------------------- operations

  /** Conversion to an integer drops the fraction, towards zero. */
  function Truncate(x: real): int {
    if x >= 0.0 then x.Floor else -((-x).Floor)
  }

  function MakeParams(initial: int, minimum: int, maximum: Option<int>, factor: real, after: int): Params {
    var top := if maximum.Some? then maximum.value else initial;
    Params(Min(minimum, top), top, factor, after)
  }

  function MakeGate(initial: int, p: Params): Gate {
    Gate(Max(p.minimum, Min(initial, p.maximum)), 0, 0, [])
  }

  predicate MayEnter(g: Gate) {
    g.inUse < g.limit
  }

  function Enter(g: Gate): Gate {
    g.(inUse := g.inUse + 1)
  }

  function Block(g: Gate, task: nat): Gate {
    g.(waiters := g.waiters + [Waiter(task, false)])
  }

  /** A task resumes from its wait: its future leaves the queue. */
  function Leave(ws: seq<Waiter>, task: nat): seq<Waiter> {
    if ws == [] then []
    else if ws[0].task == task then ws[1..]
    else [ws[0]] + Leave(ws[1..], task)
  }

  /** Resolve the first future that is not resolved yet. */
  function Notify(ws: seq<Waiter>): seq<Waiter> {
    if ws == [] then []
    else if !ws[0].notified then [ws[0].(notified := true)] + ws[1..]
    else [ws[0]] + Notify(ws[1..])
  }

  function Release(g: Gate): Gate {
    g.(inUse := g.inUse - 1, waiters := Notify(g.waiters))
  }

  function Scaled(limit: int, factor: real): real {
    limit as real * factor
  }

  /** The limit times the factor, as an integer. */
  function Shrunk(limit: int, factor: real): int {
    Truncate(Scaled(limit, factor))
  }

  function Throttle(p: Params, g: Gate): Gate {
    g.(streak := 0, limit := Max(p.minimum, Shrunk(g.limit, p.factor)))
  }

  predicate Raises(p: Params, g: Gate) {
    g.streak + 1 >= p.increaseAfter && g.limit < p.maximum
  }

  function Succeed(p: Params, g: Gate): Gate {
    if Raises(p, g) then g.(limit := g.limit + 1, streak := 0) else g.(streak := g.streak + 1)
  }

  // ---------------------------------------------------------------- the waiters

  predicate Distinct(ws: seq<Waiter>) {
    forall i, j :: 0 <= i < j < |ws| ==> ws[i].task != ws[j].task
  }

  predicate Waits(ws: seq<Waiter>, task: nat) {
    exists i :: 0 <= i < |ws| && ws[i].task == task
  }

  predicate Woken(ws: seq<Waiter>, task: nat) {
    Waiter(task, true) in ws
  }

  function NotifiedCount(ws: seq<Waiter>): nat {
    if ws == [] then 0 else (if ws[0].notified then 1 else 0) + NotifiedCount(ws[1..])
  }

  predicate AnyNotified(ws: seq<Waiter>) {
    exists i :: 0 <= i < |ws| && ws[i].notified
  }

  predicate AnyAsleep(ws: seq<Waiter>) {
    exists i :: 0 <= i < |ws| && !ws[i].notified
  }

  lemma {:induction false} NotifyEffect(ws: seq<Waiter>)
    ensures |Notify(ws)| == |ws|
    ensures forall i :: 0 <= i < |ws| ==> Notify(ws)[i].task == ws[i].task
    ensures forall i :: 0 <= i < |ws| ==> ws[i].notified ==> Notify(ws)[i].notified
    ensures NotifiedCount(Notify(ws)) == NotifiedCount(ws) + (if AnyAsleep(ws) then 1 else 0)
    ensures AnyAsleep(ws) ==> AnyNotified(Notify(ws))
    ensures !AnyAsleep(ws) ==> Notify(ws) == ws
  {
    if ws != [] {
      var rest := ws[1..];
      assert forall i :: 0 <= i < |rest| ==> rest[i] == ws[i + 1];
      if !ws[0].notified {
        assert Notify(ws)[0].notified && Notify(ws)[1..] == rest;
      } else {
        NotifyEffect(rest);
        assert Notify(ws) == [ws[0]] + Notify(rest) && Notify(ws)[1..] == Notify(rest);
        assert Notify(ws)[0].notified;
        if AnyAsleep(ws) {
          var i :| 0 <= i < |ws| && !ws[i].notified;
          assert rest[i - 1] == ws[i];
        }
      }
    }
  }

  /** The one newly notified is the first that was not: everybody before it had been notified already. */
  lemma {:induction false} NotifyInOrder(ws: seq<Waiter>, k: nat, i: nat)
    requires k < i < |ws| == |Notify(ws)| && Notify(ws)[i].notified && !ws[i].notified
    ensures ws[k].notified
  {
    if ws[0].notified && k > 0 {
      NotifyEffect(ws[1..]);
      assert Notify(ws)[i] == Notify(ws[1..])[i - 1];
      NotifyInOrder(ws[1..], k - 1, i - 1);
    }
  }

  lemma NotifyKeepsTasks(ws: seq<Waiter>)
    ensures Distinct(ws) ==> Distinct(Notify(ws))
    ensures forall t: nat :: Waits(Notify(ws), t) <==> Waits(ws, t)
  {
    NotifyEffect(ws);
    forall t: nat ensures Waits(Notify(ws), t) <==> Waits(ws, t) {
      if Waits(ws, t) {
        var i :| 0 <= i < |ws| && ws[i].task == t;
        assert Notify(ws)[i].task == t;
      }
      if Waits(Notify(ws), t) {
        var i :| 0 <= i < |ws| && Notify(ws)[i].task == t;
        assert ws[i].task == t;
      }
    }
  }

  lemma DistinctTail(ws: seq<Waiter>)
    requires Distinct(ws) && ws != []
    ensures Distinct(ws[1..])
    ensures forall w :: w in ws[1..] ==> w.task != ws[0].task
  {
    assert forall i :: 0 <= i < |ws[1..]| ==> ws[1..][i] == ws[i + 1];
    forall w | w in ws[1..] ensures w.task != ws[0].task {
      var i :| 0 <= i < |ws[1..]| && ws[1..][i] == w;
      assert ws[i + 1] == w;
    }
  }

  lemma {:induction false} LeaveEffect(ws: seq<Waiter>, task: nat)
    requires Distinct(ws)
    ensures Distinct(Leave(ws, task))
    ensures forall w :: w in Leave(ws, task) <==> w in ws && w.task != task
    decreases |ws|
  {
    if ws != [] {
      DistinctTail(ws);
      assert ws == [ws[0]] + ws[1..];
      if ws[0].task != task {
        LeaveEffect(ws[1..], task);
        var left := Leave(ws[1..], task);
        var all := [ws[0]] + left;
        forall i, j | 0 <= i < j < |all| ensures all[i].task != all[j].task {
          if i == 0 { assert all[j] in left; } else { assert left[i - 1].task != left[j - 1].task; }
        }
      }
    }
  }

  lemma {:induction false} LeaveCount(ws: seq<Waiter>, task: nat)
    requires Distinct(ws)
    ensures NotifiedCount(Leave(ws, task)) == NotifiedCount(ws) - (if Woken(ws, task) then 1 else 0)
    decreases |ws|
  {
    if ws != [] {
      DistinctTail(ws);
      assert ws == [ws[0]] + ws[1..];
      if ws[0].task != task {
        LeaveCount(ws[1..], task);
        assert Leave(ws, task)[1..] == Leave(ws[1..], task);
      }
    }
  }

  lemma {:induction false} CountPositive(ws: seq<Waiter>)
    ensures NotifiedCount(ws) > 0 <==> AnyNotified(ws)
    ensures NotifiedCount(ws) <= |ws|
  {
    if ws != [] {
      CountPositive(ws[1..]);
      assert forall i :: 0 <= i < |ws[1..]| ==> ws[1..][i] == ws[i + 1];
      if ws[0].notified { assert AnyNotified(ws); }
      if AnyNotified(ws[1..]) {
        var i :| 0 <= i < |ws[1..]| && ws[1..][i].notified;
        assert ws[i + 1].notified;
      }
      if AnyNotified(ws) && !ws[0].notified {
        var i :| 0 <= i < |ws| && ws[i].notified;
        assert ws[1..][i - 1].notified;
      }
    }
  }

  lemma {:induction false} CountSnoc(ws: seq<Waiter>, w: Waiter)
    ensures NotifiedCount(ws + [w]) == NotifiedCount(ws) + (if w.notified then 1 else 0)
  {
    if ws != [] {
      assert (ws + [w])[1..] == ws[1..] + [w];
      CountSnoc(ws[1..], w);
    } else {
      assert [w][1..] == [];
    }
  }

  // ---------------------------------------------------------------- the limit over histories

  datatype Event = Throttled | Succeeded

  function Adjust(p: Params, g: Gate, e: Event): Gate {
    match e
    case Throttled => Throttle(p, g)
    case Succeeded => Succeed(p, g)
  }

  function AdjustAll(p: Params, g: Gate, es: seq<Event>): Gate
    decreases |es|
  {
    if es == [] then g else AdjustAll(p, Adjust(p, g, es[0]), es[1..])
  }

  predicate Configured(p: Params) {
    0 <= p.minimum <= p.maximum && 1 <= p.maximum && p.increaseAfter >= 1
  }

  /** The factors under which throttling never overshoots the maximum. */
  predicate Sound(p: Params) {
    Configured(p) && p.factor * p.maximum as real < p.maximum as real + 1.0
  }

  predicate InBounds(p: Params, g: Gate) {
    && p.minimum <= g.limit <= p.maximum
    && 0 <= g.streak && (g.limit < p.maximum ==> g.streak < p.increaseAfter)
  }

  lemma ShrunkAtMost(limit: int, f: real, n: nat)
    requires limit as real * f < n as real + 1.0
    ensures Shrunk(limit, f) <= n
  {
    var x := limit as real * f;
    if x >= 0.0 { assert x.Floor as real <= x; }
  }

  lemma ThrottleInBounds(p: Params, g: Gate)
    requires Sound(p) && 0 <= g.limit <= p.maximum
    ensures p.minimum <= Throttle(p, g).limit <= p.maximum
  {
    ProductBelow(g.limit as real, p.maximum as real, p.factor);
    ShrunkAtMost(g.limit, p.factor, p.maximum);
  }

  lemma ProductBelow(l: real, m: real, f: real)
    requires 0.0 <= l <= m && f * m < m + 1.0
    ensures l * f < m + 1.0
  {
    if f >= 0.0 { MulLeReal(l, m, f); } else { MulLeReal(f, 0.0, l); }
  }

  /**
   Throttling has no upper clamp; it stays below the maximum from every limit exactly when
   the factor is less than 1 + 1/maximum.
   */
  lemma ThrottleBoundedExactly(p: Params)
    requires Configured(p)
    ensures (forall g: Gate :: p.minimum <= g.limit <= p.maximum ==> Throttle(p, g).limit <= p.maximum)
            <==> p.factor * p.maximum as real < p.maximum as real + 1.0
  {
    if p.factor * p.maximum as real < p.maximum as real + 1.0 {
      forall g: Gate | p.minimum <= g.limit <= p.maximum ensures Throttle(p, g).limit <= p.maximum {
        ThrottleInBounds(p, g);
      }
    } else {
      var g := Gate(p.maximum, 0, 0, []);
      assert Throttle(p, g).limit > p.maximum;
    }
  }

  /** A decrease factor of two with a maximum of four: a throttle takes the limit from three to six. */
  lemma OvershootExample(g: Gate)
    requires g.limit == 3
    ensures Configured(Params(1, 4, 2.0, 1))
    ensures Throttle(Params(1, 4, 2.0, 1), g).limit == 6
  {
    assert Scaled(3, 2.0) == 6.0;
  }

  /** Over any history of throttles and successes the limit and the streak stay in bounds. */
  lemma {:induction false} HistoryInBounds(p: Params, g: Gate, es: seq<Event>)
    requires Sound(p) && InBounds(p, g)
    ensures InBounds(p, AdjustAll(p, g, es))
    decreases |es|
  {
    if es != [] {
      if es[0].Throttled? { ThrottleInBounds(p, g); }
      HistoryInBounds(p, Adjust(p, g, es[0]), es[1..]);
    }
  }

  function Repeat(e: Event, k: nat): (es: seq<Event>)
    ensures |es| == k
  {
    if k == 0 then [] else [e] + Repeat(e, k - 1)
  }

  lemma DivUnique(a: int, d: int, q: int, r: int)
    requires d >= 1 && a == d * q + r && 0 <= r < d
    ensures a / d == q
  {
    var q' := a / d;
    assert a == d * q' + a % d;
    if q' > q {
      assert d * (q + 1) == d * q + d;
      MulLe(q + 1, q', d);
    } else if q' < q {
      assert d * (q' + 1) == d * q' + d;
      MulLe(q' + 1, q, d);
    }
  }

  lemma AddOneTurn(x: nat, d: int)
    requires d >= 1
    ensures (d + x) / d == 1 + x / d
  {
    var q := x / d;
    assert x == d * q + x % d;
    assert d * (q + 1) == d * q + d;
    DivUnique(d + x, d, q + 1, x % d);
  }

  /** Additive increase in closed form: `k` successes in a row. */
  lemma {:induction false} SuccessesInARow(p: Params, g: Gate, k: nat)
    requires Configured(p) && InBounds(p, g)
    ensures (g.streak + k) / p.increaseAfter >= 0
    ensures AdjustAll(p, g, Repeat(Succeeded, k)).limit
            == Min(p.maximum, g.limit + (g.streak + k) / p.increaseAfter)
    decreases k
  {
    var d := p.increaseAfter;
    assert (g.streak + k) / d >= 0;
    if k == 0 {
      if g.limit < p.maximum { DivUnique(g.streak, d, 0, g.streak); }
    } else {
      assert Repeat(Succeeded, k)[1..] == Repeat(Succeeded, k - 1);
      SuccessesInARow(p, Succeed(p, g), k - 1);
      if Raises(p, g) { AddOneTurn(k - 1, d); }
    }
  }

  function Power(x: real, k: nat): real {
    if k == 0 then 1.0 else x * Power(x, k - 1)
  }

  lemma {:induction false} PowerNonNegative(x: real, k: nat)
    requires x >= 0.0
    ensures Power(x, k) >= 0.0
  {
    if k > 0 { PowerNonNegative(x, k - 1); MulLeReal(0.0, x, Power(x, k - 1)); }
  }

  lemma {:induction false} PowerAtMostOne(x: real, k: nat)
    requires 0.0 <= x <= 1.0
    ensures Power(x, k) <= 1.0
  {
    if k > 0 {
      PowerNonNegative(x, k - 1);
      PowerAtMostOne(x, k - 1);
      MulLeReal(x, 1.0, Power(x, k - 1));
      assert x * Power(x, k - 1) <= Power(x, k - 1);
    }
  }

  /** Rounding the product down keeps it between zero and the product. */
  lemma ShrinkBy(limit: int, f: real)
    requires limit >= 0 && f >= 0.0
    ensures 0 <= Shrunk(limit, f)
    ensures Shrunk(limit, f) as real <= Scaled(limit, f)
    ensures f <= 1.0 ==> Shrunk(limit, f) <= limit
    ensures f < 1.0 && limit > 0 ==> Shrunk(limit, f) < limit
  {
    var l := limit as real;
    MulLeReal(0.0, f, l);
    assert l * f >= 0.0;
    if f <= 1.0 { MulLeReal(f, 1.0, l); assert l * f <= l; }
    if f < 1.0 && limit > 0 { StrictlyLess(l, f); }
  }

  lemma StrictlyLess(x: real, f: real)
    requires x > 0.0 && f < 1.0
    ensures x * f < x
  {
    assert x * (1.0 - f) > 0.0;
    assert x * (1.0 - f) == x - x * f;
  }

  /** A factor below zero throttles to the floor at once. */
  lemma NegativeFactor(p: Params, limit: int)
    requires Configured(p) && p.factor < 0.0 && limit >= 0
    ensures Shrunk(limit, p.factor) <= 0
  {
    MulLeReal(p.factor, 0.0, limit as real);
  }

  /** Throttling never raises the limit, also with a factor slightly above one. */
  lemma ThrottleLowers(p: Params, g: Gate)
    requires Sound(p) && p.minimum <= g.limit <= p.maximum
    ensures Throttle(p, g).limit <= g.limit
  {
    if p.factor < 0.0 {
      NegativeFactor(p, g.limit);
    } else if p.factor <= 1.0 {
      ShrinkBy(g.limit, p.factor);
    } else {
      GrowsByLessThanOne(g.limit as real, p.maximum as real, p.factor);
      ShrunkAtMost(g.limit, p.factor, g.limit);
    }
  }

  lemma GrowsByLessThanOne(l: real, m: real, f: real)
    requires 0.0 <= l <= m && f >= 1.0 && f * m < m + 1.0
    ensures l * f < l + 1.0
  {
    var over := f - 1.0;
    MulLeReal(l, m, over);
    assert l * f == l + l * over;
    assert f * m == m + m * over;
  }

  /** One throttle takes the limit to the product rounded down, or to the floor if that is higher. */
  lemma ThrottleIsRoundedDown(p: Params, g: Gate)
    requires Configured(p) && p.factor >= 0.0 && g.limit >= p.minimum
    ensures var limit' := Throttle(p, g).limit;
            && limit' >= p.minimum
            && (limit' as real <= g.limit as real * p.factor || limit' == p.minimum)
            && g.limit as real * p.factor < limit' as real + 1.0
  {
    MulLeReal(0.0, p.factor, g.limit as real);
  }

  /** So one throttle loses less than one beyond the share it is meant to give up, whatever the factor. */
  lemma ThrottleLosesNoMore(p: Params, g: Gate)
    requires Configured(p) && g.limit >= p.minimum
    ensures g.limit as real - Throttle(p, g).limit as real < g.limit as real * (1.0 - p.factor) + 1.0
  {
    var l := g.limit as real;
    assert l * (1.0 - p.factor) == l - l * p.factor;
    if p.factor >= 0.0 { ThrottleIsRoundedDown(p, g); } else { MulLeReal(p.factor, 0.0, l); }
  }

  /** Multiplicative decrease in closed form: `k` throttles in a row, with any factor. */
  lemma {:induction false} ThrottlesInARow(p: Params, g: Gate, k: nat)
    requires Configured(p) && g.limit >= p.minimum
    ensures AdjustAll(p, g, Repeat(Throttled, k)).limit as real
            <= MaxReal(p.minimum as real, Scaled(g.limit, Power(p.factor, k)))
    decreases k
  {
    if k > 0 {
      assert Repeat(Throttled, k)[1..] == Repeat(Throttled, k - 1);
      if p.factor < 0.0 {
        StaysOnTheFloor(p, g, k);
      } else {
        ThrottlesInARow(p, Throttle(p, g), k - 1);
        OneMorePower(p, g.limit, Throttle(p, g).limit, k);
      }
    }
  }

  lemma OneMorePower(p: Params, limit: int, limit': int, k: nat)
    requires Configured(p) && 0.0 <= p.factor && limit >= p.minimum && k >= 1
    requires limit' == Max(p.minimum, Shrunk(limit, p.factor))
    ensures MaxReal(p.minimum as real, Scaled(limit', Power(p.factor, k - 1)))
            <= MaxReal(p.minimum as real, Scaled(limit, Power(p.factor, k)))
  {
    PowerNonNegative(p.factor, k - 1);
    if p.factor <= 1.0 { PowerAtMostOne(p.factor, k - 1); }
    OneMoreFactor(p, limit, limit', Power(p.factor, k - 1), Power(p.factor, k));
  }

  lemma {:induction false} StaysOnTheFloor(p: Params, g: Gate, k: nat)
    requires Configured(p) && p.factor < 0.0 && g.limit >= p.minimum && k > 0
    ensures AdjustAll(p, g, Repeat(Throttled, k)).limit == p.minimum
    decreases k
  {
    assert Repeat(Throttled, k)[1..] == Repeat(Throttled, k - 1);
    NegativeFactor(p, g.limit);
    if k > 1 { StaysOnTheFloor(p, Throttle(p, g), k - 1); }
  }

  lemma OneMoreFactor(p: Params, limit: int, limit': int, rest: real, all: real)
    requires Configured(p) && 0.0 <= p.factor && limit >= p.minimum && 0.0 <= rest && (p.factor <= 1.0 ==> rest <= 1.0)
    requires all == p.factor * rest && limit' == Max(p.minimum, Shrunk(limit, p.factor))
    ensures MaxReal(p.minimum as real, Scaled(limit', rest))
            <= MaxReal(p.minimum as real, Scaled(limit, all))
  {
    ShrinkBy(limit, p.factor);
    if limit' == p.minimum && p.factor <= 1.0 {
      ScaledAtMost(p.minimum, rest);
    } else {
      if limit' == p.minimum { GrownAtLeast(p.minimum as real, limit as real, p.factor); }
      ScaleChain(limit', limit, p.factor, rest, all);
    }
  }

  lemma ScaledAtMost(limit: int, f: real)
    requires limit >= 0 && f <= 1.0
    ensures Scaled(limit, f) <= limit as real
  {
    MulLeReal(f, 1.0, limit as real);
  }

  lemma GrownAtLeast(low: real, limit: real, f: real)
    requires 0.0 <= low <= limit && f >= 1.0
    ensures low <= limit * f
  {
    MulLeReal(1.0, f, limit);
  }

  lemma ScaleChain(limit': int, limit: int, f: real, rest: real, all: real)
    requires limit' as real <= Scaled(limit, f) && rest >= 0.0 && all == f * rest
    ensures Scaled(limit', rest) <= Scaled(limit, all)
  {
    MulLeReal(limit' as real, Scaled(limit, f), rest);
    Regroup(limit as real, f, rest);
  }

  lemma Regroup(x: real, y: real, z: real)
    ensures (x * y) * z == x * (y * z)
  {
  }

  /** With a factor below one every throttle strictly lowers a limit above the floor. */
  lemma StrictDescent(p: Params, g: Gate)
    requires Configured(p) && p.factor < 1.0 && g.limit > p.minimum
    ensures p.minimum <= Throttle(p, g).limit < g.limit
  {
    if p.factor < 0.0 { NegativeFactor(p, g.limit); } else { ShrinkBy(g.limit, p.factor); }
  }

  /** So a run of throttles as long as the distance to the floor ends exactly on it. */
  lemma {:induction false} ThrottledToTheFloor(p: Params, g: Gate, k: nat)
    requires Configured(p) && p.factor < 1.0 && p.minimum <= g.limit <= p.minimum + k
    ensures AdjustAll(p, g, Repeat(Throttled, k)).limit == p.minimum
    decreases k
  {
    if k > 0 {
      assert Repeat(Throttled, k)[1..] == Repeat(Throttled, k - 1);
      if p.factor < 0.0 { NegativeFactor(p, g.limit); } else { ShrinkBy(g.limit, p.factor); }
      ThrottledToTheFloor(p, Throttle(p, g), k - 1);
    }
  }

  // ---------------------------------------------------------------- idle permits

  /** What a task, or the control law, does to the gate in one step. */
  datatype GateOp = Arrive(task: nat) | Wake(task: nat) | Free | Moved(event: Event)

  function Pass(g: Gate, task: nat): Gate {
    if MayEnter(g) then Enter(g) else Block(g, task)
  }

  function GateStep(p: Params, g: Gate, op: GateOp): Gate {
    match op
    case Arrive(t) => Pass(g, t)
    case Wake(t) => Pass(g.(waiters := Leave(g.waiters, t)), t)
    case Free => Release(g)
    case Moved(e) => Adjust(p, g, e)
  }

  predicate Possible(g: Gate, op: GateOp) {
    match op
    case Arrive(t) => !Waits(g.waiters, t)
    case Wake(t) => Woken(g.waiters, t)
    case Free => g.inUse > 0
    case Moved(_) => true
  }

  /** Nobody sleeps beside a permit that is neither held nor promised to a woken task. */
  predicate WorkConserving(g: Gate) {
    g.inUse + NotifiedCount(g.waiters) >= g.limit || !AnyAsleep(g.waiters)
  }

  /**
   The gate on its own: every step keeps permits from idling, except one. Raising the limit
   wakes nobody, so it breaks the property exactly when all permits were spoken for and
   somebody is asleep. A caller that comes back after its release repairs it at once.
   */
  lemma IdlePermitExactly(p: Params, g: Gate, op: GateOp)
    requires Sound(p) && p.minimum <= g.limit <= p.maximum
    requires Possible(g, op) && Distinct(g.waiters) && WorkConserving(g)
    ensures WorkConserving(GateStep(p, g, op)) <==>
            !(op == Moved(Succeeded) && Raises(p, g) && AnyAsleep(g.waiters)
              && g.inUse + NotifiedCount(g.waiters) == g.limit)
  {
    match op
    case Arrive(t) =>
      CountSnoc(g.waiters, Waiter(t, false));
    case Wake(t) =>
      LeaveEffect(g.waiters, t);
      LeaveCount(g.waiters, t);
      var left := Leave(g.waiters, t);
      CountSnoc(left, Waiter(t, false));
      if AnyAsleep(left) {
        var i :| 0 <= i < |left| && !left[i].notified;
        assert left[i] in g.waiters;
        assert AnyAsleep(g.waiters);
      }
    case Free =>
      NotifyEffect(g.waiters);
    case Moved(e) =>
      if e.Throttled? { ThrottleLowers(p, g); }
  }

  /** Task `a` waits, and `b` waits behind it. */
  predicate Ahead(ws: seq<Waiter>, a: nat, b: nat) {
    exists i, j :: 0 <= i < j < |ws| && ws[i].task == a && ws[j].task == b
  }

  lemma {:induction false} LeaveKeepsOrder(ws: seq<Waiter>, t: nat, i: nat, j: nat)
    requires i < j < |ws| && ws[i].task != t && ws[j].task != t
    ensures Ahead(Leave(ws, t), ws[i].task, ws[j].task)
    decreases |ws|
  {
    var left, rest := Leave(ws, t), ws[1..];
    assert forall k :: 0 <= k < |rest| ==> rest[k] == ws[k + 1];
    if ws[0].task == t {
      assert left[i - 1].task == ws[i].task && left[j - 1].task == ws[j].task;
    } else if i > 0 {
      LeaveKeepsOrder(rest, t, i - 1, j - 1);
      var x, y :| 0 <= x < y < |Leave(rest, t)| && Leave(rest, t)[x].task == ws[i].task && Leave(rest, t)[y].task == ws[j].task;
      assert left[x + 1] == Leave(rest, t)[x] && left[y + 1] == Leave(rest, t)[y];
    } else {
      LeaveKeeps(rest, t, j - 1);
      var y :| 0 <= y < |Leave(rest, t)| && Leave(rest, t)[y] == ws[j];
      assert left[0] == ws[0] && left[y + 1] == ws[j];
    }
  }

  lemma {:induction false} LeaveKeeps(ws: seq<Waiter>, t: nat, j: nat)
    requires j < |ws| && ws[j].task != t
    ensures ws[j] in Leave(ws, t)
    decreases |ws|
  {
    if ws[0].task == t {
      assert ws[1..][j - 1] == ws[j];
    } else if j > 0 {
      LeaveKeeps(ws[1..], t, j - 1);
    }
  }

  /** First come, first woken: nobody overtakes, and whoever arrives or blocks again goes to the end. */
  lemma OrderIsKept(p: Params, g: Gate, op: GateOp, a: nat, b: nat)
    requires Possible(g, op) && op != Wake(a) && op != Wake(b)
    requires Ahead(g.waiters, a, b)
    ensures Ahead(GateStep(p, g, op).waiters, a, b)
  {
    var i, j :| 0 <= i < j < |g.waiters| && g.waiters[i].task == a && g.waiters[j].task == b;
    match op
    case Arrive(t) =>
      var ws := g.waiters + [Waiter(t, false)];
      assert ws[i].task == a && ws[j].task == b;
    case Wake(t) =>
      LeaveKeepsOrder(g.waiters, t, i, j);
      var left := Leave(g.waiters, t);
      var x, y :| 0 <= x < y < |left| && left[x].task == a && left[y].task == b;
      var ws := left + [Waiter(t, false)];
      assert ws[x].task == a && ws[y].task == b;
    case Free =>
      NotifyEffect(g.waiters);
      assert Notify(g.waiters)[i].task == a && Notify(g.waiters)[j].task == b;
    case Moved(_) =>
  }

  /** A task that must wait waits behind everybody already waiting. */
  lemma NewcomersGoLast(p: Params, g: Gate, t: nat, a: nat)
    requires Waits(g.waiters, a) && !MayEnter(g)
    ensures Ahead(GateStep(p, g, Arrive(t)).waiters, a, t)
  {
    var i :| 0 <= i < |g.waiters| && g.waiters[i].task == a;
    var ws := g.waiters + [Waiter(t, false)];
    assert ws[i].task == a && ws[|g.waiters|].task == t;
  }

  function GateRun(p: Params, g: Gate, ops: seq<GateOp>): Gate
    decreases |ops|
  {
    if ops == [] then g else GateRun(p, GateStep(p, g, ops[0]), ops[1..])
  }

  /** Six steps of callers that release and stay away: one task sleeps while a permit lies idle. */
  lemma IdlePermitExample()
    ensures var p := Params(1, 2, 0.5, 1);
            var ops := [Arrive(0), Moved(Throttled), Arrive(1), Arrive(2), Moved(Succeeded), Free];
            var g := GateRun(p, MakeGate(2, p), ops);
            !WorkConserving(g) && AnyAsleep(g.waiters) && MayEnter(g) && g.inUse + NotifiedCount(g.waiters) < g.limit
  {
    var p := Params(1, 2, 0.5, 1);
    var g0 := MakeGate(2, p);
    var g1 := GateStep(p, g0, Arrive(0));
    var g2 := GateStep(p, g1, Moved(Throttled));
    assert g2 == Gate(1, 1, 0, []);
    var g3 := GateStep(p, g2, Arrive(1));
    var g4 := GateStep(p, g3, Arrive(2));
    var g5 := GateStep(p, g4, Moved(Succeeded));
    var g6 := GateStep(p, g5, Free);
    assert g6.waiters == [Waiter(1, true), Waiter(2, false)];
    assert NotifiedCount([Waiter(2, false)]) == 0;
    var ops := [Arrive(0), Moved(Throttled), Arrive(1), Arrive(2), Moved(Succeeded), Free];
    assert ops[1..] == [Moved(Throttled), Arrive(1), Arrive(2), Moved(Succeeded), Free];
    assert ops[1..][1..] == [Arrive(1), Arrive(2), Moved(Succeeded), Free];
    assert ops[1..][1..][1..] == [Arrive(2), Moved(Succeeded), Free];
    assert ops[1..][1..][1..][1..] == [Moved(Succeeded), Free];
    assert [Moved(Succeeded), Free][1..] == [Free];
    assert GateRun(p, g5, [Free]) == g6;
    assert GateRun(p, g4, [Moved(Succeeded), Free]) == g6;
    assert GateRun(p, g3, [Arrive(2), Moved(Succeeded), Free]) == g6;
    assert !g6.waiters[1].notified;
  }
}
