/**
 The scheduler inside the engine: a run of the engine is a history of scheduler operations, so
 no job starves and every job drains on time, in every interleaving.
 */
module EngineFairness {
  import opened Models
  import opened Accounting
  import opened EngineSpec
  import opened EnginePool
  import opened EngineStore
  import opened EngineTheorems
  import G = LimiterSpec
  import S = SchedulerSpec
  import H = SchedulerRuns
  import F = Fairness
  import Sh = Shares
  import P = Priorities

  /** What a step does to the scheduler. */
  function OpsNow(c: Settings, s: State, step: Step): seq<H.Op>
    requires Enabled(s, step)
  {
    match step
    case Submit(req, id) =>
      if Judge(c, s, req) == Accepted then [H.Add(id, WorkItems(req.prompts), req.priority)] else []
    case Cancel(id) => if id in s.jobs && !Finished(s.jobs[id].state) then [H.Remove(id)] else []
    case Start(_) => if G.MayEnter(s.gate) then [H.PopNext] else []
    case Wake(_) => if G.MayEnter(s.gate) then [H.PopNext] else []
    case _ => []
  }

  function Ops(c: Settings, s: State, steps: seq<Step>): seq<H.Op>
    requires c.charsPerToken != 0.0 && Runnable(c, s, steps)
    decreases |steps|
  {
    if steps == [] then [] else OpsNow(c, s, steps[0]) + Ops(c, Next(c, s, steps[0]), steps[1..])
  }

  /** Going through the gate pops exactly when the task may enter. */
  lemma TakePermitPops(s: State, t: nat)
    requires t < |s.tasks|
    ensures TakePermit(s, t).sched == (if G.MayEnter(s.gate) then S.Pop(s.sched).sched else s.sched)
    ensures TakePermit(s, t).jobs.Keys == s.jobs.Keys
  {
    TakePermitFrame(s, t);
  }

  lemma AnswerLeavesSched(c: Settings, s: State, t: nat, outcome: Outcome)
    requires c.charsPerToken != 0.0 && Enabled(s, Reply(t, outcome))
    ensures Answer(c, s, t, outcome).sched == s.sched && Answer(c, s, t, outcome).jobs.Keys == s.jobs.Keys
  {
  }

  lemma StepOps(c: Settings, s: State, step: Step)
    requires Usable(c) && Enabled(s, step)
    ensures var ops, s' := OpsNow(c, s, step), Next(c, s, step);
            && |ops| <= 1
            && s'.sched == (if ops == [] then s.sched else H.Apply(s.sched, ops[0]))
            && s'.jobs.Keys == (if ops != [] && ops[0].Add? then s.jobs.Keys + {ops[0].id} else s.jobs.Keys)
  {
    match step
    case Start(t) => TakePermitPops(s, t);
    case Wake(t) => TakePermitPops(Unwait(s, t), t);
    case Reply(t, outcome) => AnswerLeavesSched(c, s, t, outcome);
    case _ =>
  }

  /** A run of the engine is a history of its scheduler, with ids never used before. */
  lemma {:induction false} RunIsHistory(c: Settings, s: State, steps: seq<Step>)
    requires Usable(c) && Runnable(c, s, steps)
    ensures Run(c, s, steps).sched == H.Run(s.sched, Ops(c, s, steps))
    ensures H.FreshAdds(s.jobs.Keys, Ops(c, s, steps))
    decreases |steps|
  {
    if steps != [] {
      var next := Next(c, s, steps[0]);
      var now, rest := OpsNow(c, s, steps[0]), Ops(c, next, steps[1..]);
      StepOps(c, s, steps[0]);
      RunIsHistory(c, next, steps[1..]);
      if now == [] {
        assert now + rest == rest;
      } else {
        assert (now + rest)[1..] == rest;
      }
    }
  }

  /** The run does not cancel the job. */
  predicate NeverCancelled(steps: seq<Step>, id: JobId) {
    forall i :: 0 <= i < |steps| ==> steps[i] != Cancel(id)
  }

  lemma {:induction false} NeverRemovedBy(c: Settings, s: State, steps: seq<Step>, id: JobId)
    requires c.charsPerToken != 0.0 && Runnable(c, s, steps) && NeverCancelled(steps, id)
    ensures F.NeverRemoved(Ops(c, s, steps), id)
    decreases |steps|
  {
    if steps != [] {
      assert steps[0] != Cancel(id);
      assert forall i :: 0 <= i < |steps[1..]| ==> steps[1..][i] == steps[i + 1];
      NeverRemovedBy(c, Next(c, s, steps[0]), steps[1..], id);
    }
  }

  /**
   No job starves: in every interleaving, once more items have been popped than the other jobs
   weigh, those arriving meanwhile included, a job with prompts waiting has fewer of them
   waiting, unless it was cancelled.
   */
  lemma NoJobStarves(c: Settings, s: State, steps: seq<Step>, id: JobId)
    requires Usable(c) && Reachable(c, s) && Runnable(c, s, steps) && NeverCancelled(steps, id)
    requires S.ItemsOf(s.sched.queues, id) != []
    requires F.Pops(Ops(c, s, steps)) > F.OtherWeight(s.sched.queues, id) + F.ArrivingWeight(Ops(c, s, steps))
    ensures |S.ItemsOf(Run(c, s, steps).sched.queues, id)| < |S.ItemsOf(s.sched.queues, id)|
  {
    var ops := Ops(c, s, steps);
    ReachableStore(c, s);
    RunIsHistory(c, s, steps);
    NeverRemovedBy(c, s, steps, id);
    if H.Served(s.sched, ops, id) == [] {
      F.WaitingTime(s.sched, s.jobs.Keys, ops, id);
    }
    ServedLeaves(s.sched, s.jobs.Keys, ops, id);
  }

  /** What is served is gone from the queue, and nothing else goes. */
  lemma ServedLeaves(s: S.Sched, used: set<JobId>, ops: seq<H.Op>, id: JobId)
    requires S.Valid(s) && H.QueuesUsed(s, used) && H.FreshAdds(used, ops) && F.NeverRemoved(ops, id)
    requires S.ItemsOf(s.queues, id) != []
    ensures S.ItemsOf(s.queues, id) == H.Served(s, ops, id) + S.ItemsOf(H.Run(s, ops).queues, id)
  {
    F.ItemsMeanQueue(s.queues, id);
    H.ConservationFrom(s, used, ops, id);
    NothingDropped(s, ops, id);
    var served, left := H.Served(s, ops, id), S.ItemsOf(H.Run(s, ops).queues, id);
    assert served + [] == served;
    assert S.ItemsOf(s.queues, id) + [] == S.ItemsOf(s.queues, id);
  }

  lemma {:induction false} NothingDropped(s: S.Sched, ops: seq<H.Op>, id: JobId)
    requires F.NeverRemoved(ops, id)
    ensures H.Dropped(s, ops, id) == []
    decreases |ops|
  {
    if ops != [] {
      assert ops[0] != H.Remove(id);
      assert forall i :: 0 <= i < |ops[1..]| ==> ops[1..][i] == ops[i + 1];
      NothingDropped(H.Apply(s, ops[0]), ops[1..], id);
    }
  }

  /**
   A job drains on time: without new jobs, once `n` rounds' worth of items have been popped, a
   job whose waiting prompts fit in `n` turns of its weight has none waiting, however large
   the others are and whichever of them are cancelled.
   */
  lemma JobDrains(c: Settings, s: State, steps: seq<Step>, id: JobId, n: nat)
    requires Usable(c) && Reachable(c, s) && Runnable(c, s, steps) && NeverCancelled(steps, id)
    requires S.Has(s.sched.queues, id)
    requires forall i :: 0 <= i < |Ops(c, s, steps)| ==> !Ops(c, s, steps)[i].Add?
    requires |S.ItemsOf(s.sched.queues, id)| <= n * F.WeightIn(s.sched.queues, id)
    requires F.Pops(Ops(c, s, steps)) >= n * F.SumWeight(s.sched.queues)
    ensures S.ItemsOf(Run(c, s, steps).sched.queues, id) == []
  {
    ReachableStore(c, s);
    RunIsHistory(c, s, steps);
    NeverRemovedBy(c, s, steps, id);
    F.DrainBound(s.sched, Ops(c, s, steps), id, n);
  }

  // ---------------------------------------------------------------- what a priority is worth

  function PriorityOf(s: State): map<JobId, Priority> {
    map id | id in s.jobs :: s.jobs[id].priority
  }

  lemma StepKeepsRanks(c: Settings, s: State, step: Step)
    requires Usable(c) && Reachable(c, s) && Enabled(s, step) && P.AllRanked(s.sched.queues, PriorityOf(s))
    ensures P.AllRanked(Next(c, s, step).sched.queues, PriorityOf(Next(c, s, step)))
  {
    var s', ops, known := Next(c, s, step), OpsNow(c, s, step), PriorityOf(s);
    StepOps(c, s, step);
    StepFromReachable(c, s, step);
    assert SchedOk(s) by { ReachableStore(c, s); }
    PrioritiesStay(s, s', if ops != [] && ops[0].Add? then Some(ops[0].id) else None,
                   if ops != [] && ops[0].Add? then ops[0].priority else Normal);
    if ops != [] { P.ApplyKeepsRanks(s.sched, known, ops[0]); }
  }

  /** A step that grows the jobs, by one at most, keeps every priority. */
  lemma PrioritiesStay(s: State, s': State, fresh': Option<JobId>, p: Priority)
    requires Grows(s, s')
    requires s'.jobs.Keys == if fresh'.Some? then s.jobs.Keys + {fresh'.value} else s.jobs.Keys
    requires fresh'.Some? ==> fresh'.value !in s.jobs && s'.jobs[fresh'.value].priority == p
    ensures PriorityOf(s') == if fresh'.Some? then PriorityOf(s)[fresh'.value := p] else PriorityOf(s)
  {
    forall id | id in s.jobs ensures s'.jobs[id].priority == s.jobs[id].priority {
      assert JobGrows(s.jobs[id], s'.jobs[id]);
    }
  }

  lemma {:induction false} RunKeepsRanks(c: Settings, s: State, steps: seq<Step>)
    requires Usable(c) && Reachable(c, s) && Runnable(c, s, steps) && P.AllRanked(s.sched.queues, PriorityOf(s))
    ensures P.AllRanked(Run(c, s, steps).sched.queues, PriorityOf(Run(c, s, steps)))
    decreases |steps|
  {
    if steps != [] {
      StepKeepsRanks(c, s, steps[0]);
      ReachableNext(c, s, steps[0]);
      RunKeepsRanks(c, Next(c, s, steps[0]), steps[1..]);
    }
  }

  lemma ReachableRanks(c: Settings, s: State)
    requires Usable(c) && Reachable(c, s)
    ensures P.AllRanked(s.sched.queues, PriorityOf(s))
  {
    StartIsReachable(c);
    var steps :| Runnable(c, Init(c), steps) && Run(c, Init(c), steps) == s;
    RunKeepsRanks(c, Init(c), steps);
  }

  /**
   What a priority is worth in the engine: over every run that takes `n` cycles of items from
   the scheduler, without arrivals and cancels and with nobody running dry, each job hands
   out exactly four, two or one items a cycle, as its priority says.
   */
  lemma PriorityShares(c: Settings, s: State, steps: seq<Step>, n: nat, i: nat)
    requires Usable(c) && Reachable(c, s) && Runnable(c, s, steps) && i < |s.sched.queues|
    requires P.EnoughFor(s.sched.queues, PriorityOf(s), n)
    requires n * P.Cycle(s.sched.queues, PriorityOf(s)) >= 0
    requires Ops(c, s, steps) == Sh.PopTimes(n * P.Cycle(s.sched.queues, PriorityOf(s)))
    ensures var id := s.sched.queues[i].id;
            && id in s.jobs
            && P.Due(s.jobs[id].priority,
                     |S.ItemsOf(s.sched.queues, id)| - |S.ItemsOf(Run(c, s, steps).sched.queues, id)|, n)
  {
    ReachableStore(c, s);
    ReachableRanks(c, s);
    RunIsHistory(c, s, steps);
    Sh.OwnItems(s.sched.queues, i);
    P.SharesFrom(s.sched, PriorityOf(s), n, i);
  }
}
