/**
 The limiter object. `acquire` is a loop around a wait on the condition variable; its two
 methods here are the stretches between suspensions: entering it, and resuming from a wait.
 */
module Limiter {
  import opened Models
  import opened LimiterSpec

  lemma {:induction false} NotifyAt(ws: seq<Waiter>, i: nat)
    requires i <= |ws| && forall k :: 0 <= k < i ==> ws[k].notified
    ensures Notify(ws) == ws[..i] + Notify(ws[i..])
  {
    if i > 0 {
      assert forall k :: 0 <= k < |ws[1..]| ==> ws[1..][k] == ws[k + 1];
      NotifyAt(ws[1..], i - 1);
      assert ws[1..][i - 1..] == ws[i..];
      assert ws[..i] == [ws[0]] + ws[1..][..i - 1];
    } else {
      assert ws[0..] == ws;
    }
  }

  lemma {:induction false} LeaveAt(ws: seq<Waiter>, task: nat, i: nat)
    requires i <= |ws| && forall k :: 0 <= k < i ==> ws[k].task != task
    ensures Leave(ws, task) == ws[..i] + Leave(ws[i..], task)
  {
    if i > 0 {
      assert forall k :: 0 <= k < |ws[1..]| ==> ws[1..][k] == ws[k + 1];
      LeaveAt(ws[1..], task, i - 1);
      assert ws[1..][i - 1..] == ws[i..];
      assert ws[..i] == [ws[0]] + ws[1..][..i - 1];
    } else {
      assert ws[0..] == ws;
    }
  }

  class AdaptiveConcurrencyLimiter {
    const params: Params
    var limit: int
    var inUse: int
    var streak: int
    var waiters: seq<Waiter>

    ghost function View(): Gate
      reads this
    {
      Gate(limit, inUse, streak, waiters)
    }

    constructor (initial: int, minimum: int, maximum: Option<int>, factor: real, increaseAfter: int)
      ensures params == MakeParams(initial, minimum, maximum, factor, increaseAfter)
      ensures View() == MakeGate(initial, params)
    {
      var top := if maximum.Some? then maximum.value else initial;
      var floor := if minimum <= top then minimum else top;
      params := Params(floor, top, factor, increaseAfter);
      var start := if initial <= top then initial else top;
      limit := if floor >= start then floor else start;
      inUse, streak, waiters := 0, 0, [];
    }

    /** `acquire`, up to its first suspension. */
    method Acquire(task: nat) returns (entered: bool)
      modifies this`inUse, this`waiters
      ensures entered == MayEnter(old(View()))
      ensures View() == Pass(old(View()), task)
    {
      entered := inUse < limit;
      if entered {
        inUse := inUse + 1;
      } else {
        waiters := waiters + [Waiter(task, false)];
      }
    }

    /** A waiting task's future leaves the queue. */
    method Forget(task: nat)
      modifies this`waiters
      ensures waiters == Leave(old(waiters), task)
    {
      var i := 0;
      while i < |waiters| && waiters[i].task != task
        invariant i <= |waiters|
        invariant forall k :: 0 <= k < i ==> waiters[k].task != task
      {
        i := i + 1;
      }
      LeaveAt(waiters, task, i);
      if i < |waiters| {
        assert waiters[i..][1..] == waiters[i + 1..];
        waiters := waiters[..i] + waiters[i + 1..];
      }
    }

    /** `acquire`, from waking up to the next suspension: the limit is checked again. */
    method Resume(task: nat) returns (entered: bool)
      modifies this`inUse, this`waiters
      ensures entered == MayEnter(old(View()))
      ensures View() == Pass(old(View()).(waiters := Leave(old(waiters), task)), task)
    {
      Forget(task);
      entered := Acquire(task);
    }

    method Release()
      modifies this`inUse, this`waiters
      ensures View() == LimiterSpec.Release(old(View()))
    {
      inUse := inUse - 1;
      var i := 0;
      while i < |waiters| && waiters[i].notified
        invariant i <= |waiters|
        invariant forall k :: 0 <= k < i ==> waiters[k].notified
      {
        i := i + 1;
      }
      NotifyAt(waiters, i);
      if i < |waiters| {
        assert Notify(waiters[i..]) == [waiters[i].(notified := true)] + waiters[i..][1..];
        waiters := waiters[i := waiters[i].(notified := true)];
      }
    }

    method RecordThrottle()
      modifies this`limit, this`streak
      ensures View() == Throttle(params, old(View()))
    {
      streak := 0;
      var shrunk := Truncate(limit as real * params.factor);
      limit := if params.minimum >= shrunk then params.minimum else shrunk;
    }

    method RecordSuccess()
      modifies this`limit, this`streak
      ensures View() == Succeed(params, old(View()))
    {
      streak := streak + 1;
      if streak >= params.increaseAfter && limit < params.maximum {
        limit := limit + 1;
        streak := 0;
      }
    }
  }
}
