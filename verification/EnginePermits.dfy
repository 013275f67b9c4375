/**
 No permit idles beside a sleeper: raising the limit notifies nobody, but the worker whose
 success raised it releases, comes straight back and takes the extra permit itself.
 */
module EnginePermits {
  import opened Models
  import opened EngineSpec
  import opened EnginePool
  import S = SchedulerSpec
  import G = LimiterSpec

  /** A worker on its way into the gate. */
  function Arriving(t: Task): nat {
    if t.Ready? then 1 else 0
  }

  /** The permits held, promised to woken tasks, or about to be asked for. */
  function Claims(s: State): int {
    s.gate.inUse + G.NotifiedCount(s.gate.waiters) + Sum(Arriving, s.tasks)
  }

  /** While somebody sleeps, every permit is spoken for. */
  predicate Covered(s: State) {
    Working(s) && G.AnyAsleep(s.gate.waiters) ==> Claims(s) >= s.gate.limit
  }

  lemma NotifyCovers(ws: seq<G.Waiter>)
    ensures G.AnyAsleep(G.Notify(ws)) ==>
              G.AnyAsleep(ws) && G.NotifiedCount(G.Notify(ws)) == G.NotifiedCount(ws) + 1
  {
    G.NotifyEffect(ws);
    AsleepBefore(ws);
  }

  /** A task that has just entered pops: it keeps its permit, or hands it to a sleeper. */
  lemma FetchCovers(s: State, t: nat, p: S.Popped)
    requires t < |s.tasks| && (G.AnyAsleep(s.gate.waiters) ==> Claims(s) - Arriving(s.tasks[t]) >= s.gate.limit)
    ensures Covered(FetchFrom(s, t, p))
  {
    var s' := FetchFrom(s, t, p);
    assert s'.tasks == s.tasks[t := s'.tasks[t]];
    SumUpdate(Arriving, s.tasks, t, s'.tasks[t]);
    NotifyCovers(s.gate.waiters);
  }

  /** Going through the gate, by a task whose claim, if it woke, has just been taken off the count. */
  lemma TakePermitCovers(s: State, t: nat)
    requires t < |s.tasks| && (s.tasks[t].Ready? || s.tasks[t].Asleep?)
    requires G.AnyAsleep(s.gate.waiters) ==> Claims(s) + (if s.tasks[t].Asleep? then 1 else 0) >= s.gate.limit
    ensures Covered(TakePermit(s, t))
  {
    if G.MayEnter(s.gate) {
      var e := s.(gate := G.Enter(s.gate));
      FetchCovers(e, t, S.Pop(e.sched));
    } else {
      SumUpdate(Arriving, s.tasks, t, Asleep);
    }
  }

  lemma WakeCovers(s: State, t: nat)
    requires WaitersOk(s) && Covered(s) && Enabled(s, Wake(t))
    ensures Covered(TakePermit(Unwait(s, t), t))
  {
    var ws := s.gate.waiters;
    G.LeaveCount(ws, t);
    G.LeaveEffect(ws, t);
    if G.AnyAsleep(G.Leave(ws, t)) {
      var i :| 0 <= i < |G.Leave(ws, t)| && !G.Leave(ws, t)[i].notified;
      assert G.Leave(ws, t)[i] in ws;
      var k :| 0 <= k < |ws| && ws[k] == G.Leave(ws, t)[i];
    }
    TakePermitCovers(Unwait(s, t), t);
  }

  /** An answer that ends a call: one permit released and one worker arriving cover one more permit. */
  lemma SettleCovers(c: Settings, s: State, t: nat, r: InferenceResult)
    requires t < |s.tasks| && s.tasks[t].Busy? && s.tasks[t].job in s.jobs
    requires Working(s) && G.AnyAsleep(s.gate.waiters) ==> Claims(s) + 1 >= s.gate.limit
    ensures Covered(Settle(c, s, t, r))
  {
    SumUpdate(Arriving, s.tasks, t, Ready);
    NotifyCovers(s.gate.waiters);
  }

  lemma AnswerCovers(c: Settings, s: State, t: nat, outcome: Outcome)
    requires Usable(c) && PermitsOk(c, s) && Covered(s) && Enabled(s, Reply(t, outcome))
    ensures Covered(Answer(c, s, t, outcome))
  {
    var r := ResultOf(c, s.tasks[t].item, s.tasks[t].attempt, outcome);
    if r.None? {
      G.ThrottleLowers(GateParams(c), s.gate);
      SumUpdate(Arriving, s.tasks, t, Answer(c, s, t, outcome).tasks[t]);
    } else {
      SettleCovers(c, Noted(c, s, outcome), t, r.value);
    }
  }

  lemma SpawnCovers(s: State, s': State, n: nat)
    requires Covered(s) && s'.gate == s.gate && s'.phase == s.phase && s'.tasks == s.tasks + Readies(n)
    ensures Covered(s')
  {
    SumAppend(Arriving, s.tasks, Readies(n));
  }

  lemma StepKeepsCovered(c: Settings, s: State, step: Step)
    requires Usable(c) && PoolInv(c, s) && Covered(s) && Enabled(s, step)
    ensures Covered(Next(c, s, step))
  {
    match step
    case Submit(req, id) =>
      if Judge(c, s, req) == Accepted {
        var s1 := Register(c, s, req, id);
        SpawnCovers(s, EnsureWorkers(c, s1), SpawnCount(c, Sum(Live, s1.tasks), s1.sched.pending));
      }
    case Start(t) => TakePermitCovers(s, t);
    case Wake(t) => WakeCovers(s, t);
    case Admit(t) => SumUpdate(Arriving, s.tasks, t, Next(c, s, step).tasks[t]);
    case Refuse(t) => SumUpdate(Arriving, s.tasks, t, Next(c, s, step).tasks[t]);
    case Continue(t) => SumUpdate(Arriving, s.tasks, t, Next(c, s, step).tasks[t]);
    case Reply(t, outcome) => AnswerCovers(c, s, t, outcome);
    case _ =>
  }
}
