/**
 How long a job can wait, and how soon it drains, under weighted round-robin.
 */
module Fairness {
  import opened Models
  import opened SchedulerSpec
  import opened SchedulerRuns

  // ---------------------------------------------------------------- sums over the queues

  function SumCredit(qs: seq<Queue>): int {
    if qs == [] then 0 else qs[0].credit + SumCredit(qs[1..])
  }

  function SumWeight(qs: seq<Queue>): int {
    if qs == [] then 0 else qs[0].weight + SumWeight(qs[1..])
  }

  function CreditOf(qs: seq<Queue>, id: JobId): int {
    if qs == [] then 0 else if qs[0].id == id then qs[0].credit else CreditOf(qs[1..], id)
  }

  function WeightIn(qs: seq<Queue>, id: JobId): int {
    if qs == [] then 0 else if qs[0].id == id then qs[0].weight else WeightIn(qs[1..], id)
  }

  /** Credit still held by the queues standing before the job. */
  function CreditAhead(qs: seq<Queue>, id: JobId): int {
    if qs == [] || qs[0].id == id then 0 else qs[0].credit + CreditAhead(qs[1..], id)
  }

  function WeightAhead(qs: seq<Queue>, id: JobId): int {
    if qs == [] || qs[0].id == id then 0 else qs[0].weight + WeightAhead(qs[1..], id)
  }

  function OtherWeight(qs: seq<Queue>, id: JobId): int {
    SumWeight(qs) - WeightIn(qs, id)
  }

  /**
   The number of pops that can still go to others before the job is served: in a round where
   it has credit, what stands ahead of it; otherwise the rest of this round and then, in the
   next, the weights ahead of it.
   */
  function Rank(qs: seq<Queue>, id: JobId): int {
    if CreditOf(qs, id) > 0 then CreditAhead(qs, id) else SumCredit(qs) + WeightAhead(qs, id)
  }

  lemma {:induction false} HasTail(qs: seq<Queue>, id: JobId)
    requires Has(qs, id) && qs[0].id != id
    ensures Has(qs[1..], id)
  {
    var i :| 0 <= i < |qs| && qs[i].id == id;
    assert qs[1..][i - 1].id == id;
  }

  lemma {:induction false} Bounds(qs: seq<Queue>, id: JobId)
    requires ValidQueues(qs)
    ensures 0 <= SumCredit(qs) <= SumWeight(qs)
    ensures 0 <= CreditAhead(qs, id) <= WeightAhead(qs, id) <= OtherWeight(qs, id)
    ensures 0 <= CreditOf(qs, id) <= WeightIn(qs, id)
    ensures Has(qs, id) ==> WeightIn(qs, id) >= 1
  {
    if qs != [] {
      ValidTail(qs);
      Bounds(qs[1..], id);
      assert QueueOk(qs[0]);
      if Has(qs, id) && qs[0].id != id { HasTail(qs, id); }
    }
  }

  /** A job that has been served this round, or has no credit, has nobody ahead of it with credit. */
  lemma {:induction false} SpentAhead(qs: seq<Queue>, id: JobId)
    requires ValidQueues(qs) && Has(qs, id) && CreditOf(qs, id) < WeightIn(qs, id)
    ensures CreditAhead(qs, id) == 0
    ensures CreditOf(qs, id) == 0 ==> SumCredit(qs) + WeightAhead(qs, id) <= OtherWeight(qs, id)
  {
    ValidTail(qs);
    assert QueueOk(qs[0]);
    if qs[0].id == id {
      Bounds(qs[1..], id);
    } else {
      HasTail(qs, id);
      SpentAhead(qs[1..], id);
      var i :| 0 <= i < |qs| && qs[i].id == id;
      assert InTurn(qs[0], qs[i]);
      OwnCredit(qs, i);
    }
  }

  lemma {:induction false} OwnCredit(qs: seq<Queue>, i: nat)
    requires ValidQueues(qs) && i < |qs|
    ensures CreditOf(qs, qs[i].id) == qs[i].credit && WeightIn(qs, qs[i].id) == qs[i].weight
    ensures (forall k :: 0 <= k < i ==> qs[k].credit == 0) ==> CreditAhead(qs, qs[i].id) == 0
  {
    if i > 0 {
      ValidTail(qs);
      assert InTurn(qs[0], qs[i]);
      OwnCredit(qs[1..], i - 1);
    }
  }

  /** The waiting rank never exceeds the sum of the other jobs' weights. */
  lemma RankBound(qs: seq<Queue>, id: JobId)
    requires ValidQueues(qs) && Has(qs, id)
    ensures 0 <= Rank(qs, id) <= OtherWeight(qs, id)
    ensures 0 < CreditOf(qs, id) < WeightIn(qs, id) ==> Rank(qs, id) == 0
  {
    Bounds(qs, id);
    if CreditOf(qs, id) < WeightIn(qs, id) { SpentAhead(qs, id); }
  }

  // ---------------------------------------------------------------- fewer queues

  /** Losing other queues never puts a job further back. */
  predicate NoWorse(before: seq<Queue>, after: seq<Queue>, id: JobId) {
    && Has(after, id)
    && CreditOf(after, id) == CreditOf(before, id) && WeightIn(after, id) == WeightIn(before, id)
    && CreditAhead(after, id) <= CreditAhead(before, id)
    && WeightAhead(after, id) <= WeightAhead(before, id)
    && SumCredit(after) <= SumCredit(before) && SumWeight(after) <= SumWeight(before)
  }

  lemma HasCons(q: Queue, rest: seq<Queue>, id: JobId)
    ensures Has([q] + rest, id) <==> q.id == id || Has(rest, id)
  {
    var qs := [q] + rest;
    if Has(rest, id) {
      var i :| 0 <= i < |rest| && rest[i].id == id;
      assert qs[i + 1].id == id;
    }
    if q.id == id { assert qs[0].id == id; }
    if Has(qs, id) && q.id != id { HasTail(qs, id); }
  }

  lemma {:induction false} ItemsMeanQueue(qs: seq<Queue>, id: JobId)
    requires ItemsOf(qs, id) != []
    ensures Has(qs, id)
  {
    if !Has(qs, id) { NothingQueued(qs, id); }
  }

  lemma {:induction false} UndrainedNoWorse(qs: seq<Queue>, id: JobId)
    requires ValidQueues(qs)
    ensures ItemsOf(qs, id) != [] ==> NoWorse(qs, Undrained(qs), id)
    ensures SumCredit(Undrained(qs)) <= SumCredit(qs) && SumWeight(Undrained(qs)) <= SumWeight(qs)
  {
    if qs != [] {
      ValidTail(qs);
      UndrainedNoWorse(qs[1..], id);
      assert QueueOk(qs[0]);
      var rest := Undrained(qs[1..]);
      if qs[0].items != [] {
        assert Undrained(qs) == [qs[0]] + rest && Undrained(qs)[1..] == rest;
        HasCons(qs[0], rest, id);
      } else {
        assert Undrained(qs) == rest;
      }
    }
  }

  lemma {:induction false} WithoutNoWorse(qs: seq<Queue>, gone: JobId, id: JobId)
    requires ValidQueues(qs)
    ensures gone != id && Has(qs, id) ==> NoWorse(qs, Without(qs, gone), id)
    ensures SumCredit(Without(qs, gone)) <= SumCredit(qs) && SumWeight(Without(qs, gone)) <= SumWeight(qs)
  {
    if qs != [] {
      ValidTail(qs);
      assert QueueOk(qs[0]);
      if Has(qs, id) && qs[0].id != id { HasTail(qs, id); }
      if qs[0].id != gone {
        WithoutNoWorse(qs[1..], gone, id);
        var rest := Without(qs[1..], gone);
        assert Without(qs, gone) == [qs[0]] + rest && Without(qs, gone)[1..] == rest;
        HasCons(qs[0], rest, id);
      }
    }
  }

  // ---------------------------------------------------------------- a new round

  lemma {:induction false} ResetSums(qs: seq<Queue>, id: JobId)
    ensures SumCredit(ResetCredits(qs)) == SumWeight(qs) == SumWeight(ResetCredits(qs))
    ensures CreditOf(ResetCredits(qs), id) == WeightIn(qs, id) == WeightIn(ResetCredits(qs), id)
    ensures CreditAhead(ResetCredits(qs), id) == WeightAhead(qs, id) == WeightAhead(ResetCredits(qs), id)
    ensures Has(ResetCredits(qs), id) <==> Has(qs, id)
  {
    if qs != [] {
      ResetSums(qs[1..], id);
      assert ResetCredits(qs)[1..] == ResetCredits(qs[1..]);
      assert [qs[0]] + qs[1..] == qs;
      HasCons(qs[0], qs[1..], id);
      HasCons(ResetCredits(qs)[0], ResetCredits(qs[1..]), id);
    }
  }

  lemma {:induction false} NoCreditMeansZero(qs: seq<Queue>)
    requires ValidQueues(qs)
    ensures !AnyCredit(qs) <==> SumCredit(qs) == 0
  {
    if qs != [] {
      ValidTail(qs);
      NoCreditMeansZero(qs[1..]);
      Bounds(qs[1..], qs[0].id);
      assert QueueOk(qs[0]);
      if AnyCredit(qs[1..]) {
        var i :| 0 <= i < |qs[1..]| && qs[1..][i].credit > 0;
        assert qs[i + 1].credit > 0;
      } else if SumCredit(qs) == 0 {
        forall i | 0 <= i < |qs| ensures qs[i].credit <= 0 {
          if i > 0 { assert qs[1..][i - 1] == qs[i]; }
        }
      } else {
        assert qs[0].credit > 0;
      }
    }
  }

  /** Starting a round leaves a waiting job's rank, and the credit it counts on, as they were. */
  lemma NewRoundRank(qs: seq<Queue>, id: JobId)
    requires ValidQueues(qs) && Has(qs, id)
    ensures Has(NewRound(qs), id)
    ensures Rank(NewRound(qs), id) == Rank(qs, id) && Turn(NewRound(qs), id) == Turn(qs, id)
    ensures SumWeight(NewRound(qs)) == SumWeight(qs) && WeightIn(NewRound(qs), id) == WeightIn(qs, id)
  {
    Bounds(qs, id);
    if !AnyCredit(qs) {
      NoCreditMeansZero(qs);
      ResetSums(qs, id);
      var i :| 0 <= i < |qs| && qs[i].id == id;
      OwnCredit(qs, i);
    }
  }

  /** The items a job may take in its current or next turn. */
  function Turn(qs: seq<Queue>, id: JobId): int {
    if CreditOf(qs, id) == 0 then WeightIn(qs, id) else CreditOf(qs, id)
  }

  // ---------------------------------------------------------------- one service

  lemma {:induction false} ServeSums(qs: seq<Queue>, i: nat, id: JobId)
    requires ValidQueues(qs) && i < |qs| && qs[i].items != []
    ensures var r := qs[i := Take(qs[i])];
            && SumCredit(r) == SumCredit(qs) - 1 && SumWeight(r) == SumWeight(qs)
            && WeightIn(r, id) == WeightIn(qs, id) && WeightAhead(r, id) == WeightAhead(qs, id)
            && CreditOf(r, id) == CreditOf(qs, id) - (if qs[i].id == id then 1 else 0)
            && (Has(r, id) <==> Has(qs, id))
    ensures var r := qs[i := Take(qs[i])];
            (forall k :: 0 <= k < i ==> qs[k].credit == 0) && CreditOf(qs, id) > 0 ==>
              CreditAhead(r, id) == CreditAhead(qs, id) - (if qs[i].id == id then 0 else 1)
  {
    var r := qs[i := Take(qs[i])];
    ValidTail(qs);
    assert r == [r[0]] + r[1..] && qs == [qs[0]] + qs[1..];
    HasCons(r[0], r[1..], id);
    HasCons(qs[0], qs[1..], id);
    if i == 0 {
      assert r[1..] == qs[1..];
    } else {
      assert InTurn(qs[0], qs[i]);
      ServeSums(qs[1..], i - 1, id);
      assert r[1..] == qs[1..][i - 1 := Take(qs[i])];
    }
  }

  /** A pop that serves somebody else brings the job at least one place closer. */
  lemma PopElsewhere(s: Sched, id: JobId)
    requires Valid(s) && ItemsOf(s.queues, id) != []
    requires Pop(s).got.Some? && Pop(s).got.value.0 != id
    ensures Has(Pop(s).sched.queues, id)
    ensures Rank(Pop(s).sched.queues, id) <= Rank(s.queues, id) - 1
    ensures Turn(Pop(s).sched.queues, id) == Turn(s.queues, id)
    ensures OtherWeight(Pop(s).sched.queues, id) <= OtherWeight(s.queues, id)
    ensures WeightIn(Pop(s).sched.queues, id) == WeightIn(s.queues, id)
  {
    RoundRank(s, id);
    var qs := Round(s);
    PopServesTheRound(s);
    ServeValid(qs);
    ServeSums(qs, FirstReady(qs), id);
  }

  lemma RoundRank(s: Sched, id: JobId)
    requires Valid(s) && ItemsOf(s.queues, id) != []
    ensures Undrained(s.queues) != [] && Has(Round(s), id)
    ensures Rank(Round(s), id) <= Rank(s.queues, id)
    ensures Turn(Round(s), id) == Turn(s.queues, id)
    ensures OtherWeight(Round(s), id) <= OtherWeight(s.queues, id)
    ensures WeightIn(Round(s), id) == WeightIn(s.queues, id)
  {
    UndrainedEffect(s.queues);
    UndrainedNoWorse(s.queues, id);
    NewRoundRank(Undrained(s.queues), id);
  }

  // ---------------------------------------------------------------- no starvation

  function Pops(ops: seq<Op>): nat {
    if ops == [] then 0 else (if ops[0].PopNext? then 1 else 0) + Pops(ops[1..])
  }

  /** The summed weights of the jobs that arrive during a run. */
  function ArrivingWeight(ops: seq<Op>): nat {
    if ops == [] then 0 else (if ops[0].Add? then WeightOf(ops[0].priority) else 0) + ArrivingWeight(ops[1..])
  }

  predicate NeverRemoved(ops: seq<Op>, id: JobId) {
    forall i :: 0 <= i < |ops| ==> ops[i] != Remove(id)
  }

  lemma {:induction false} AppendSums(qs: seq<Queue>, q: Queue, id: JobId)
    requires Has(qs, id)
    ensures SumCredit(qs + [q]) == SumCredit(qs) + q.credit && SumWeight(qs + [q]) == SumWeight(qs) + q.weight
    ensures CreditOf(qs + [q], id) == CreditOf(qs, id) && WeightIn(qs + [q], id) == WeightIn(qs, id)
    ensures CreditAhead(qs + [q], id) == CreditAhead(qs, id) && WeightAhead(qs + [q], id) == WeightAhead(qs, id)
  {
    assert (qs + [q])[1..] == qs[1..] + [q];
    if qs[0].id != id {
      HasTail(qs, id);
      AppendSums(qs[1..], q, id);
    } else {
      AppendTotals(qs[1..], q);
    }
  }

  lemma {:induction false} AppendTotals(qs: seq<Queue>, q: Queue)
    ensures SumCredit(qs + [q]) == SumCredit(qs) + q.credit && SumWeight(qs + [q]) == SumWeight(qs) + q.weight
  {
    if qs != [] {
      assert (qs + [q])[1..] == qs[1..] + [q];
      AppendTotals(qs[1..], q);
    } else {
      assert [q][1..] == [];
    }
  }

  /**
   No starvation, over every history with fresh ids: while a job with items has not been
   served, the pops that went elsewhere number at most its rank plus the weights that
   arrived meanwhile.
   */
  lemma {:induction false} WaitingTime(s: Sched, used: set<JobId>, ops: seq<Op>, id: JobId)
    requires Valid(s) && QueuesUsed(s, used) && FreshAdds(used, ops) && NeverRemoved(ops, id)
    requires ItemsOf(s.queues, id) != [] && Served(s, ops, id) == []
    ensures Pops(ops) <= Rank(s.queues, id) + ArrivingWeight(ops)
    ensures Rank(s.queues, id) <= OtherWeight(s.queues, id)
    decreases |ops|
  {
    ItemsMeanQueue(s.queues, id);
    RankBound(s.queues, id);
    if ops != [] {
      var op, next := ops[0], Apply(s, ops[0]);
      assert id in used;
      assert ops[0] != Remove(id) && forall i :: 0 <= i < |ops[1..]| ==> ops[1..][i] == ops[i + 1];
      OpWaits(s, used, op, id);
      WaitingTime(next, if op.Add? then used + {op.id} else used, ops[1..], id);
    }
  }

  /** One operation that does not serve the waiting job: a pop brings it closer, an arrival may set it back. */
  lemma OpWaits(s: Sched, used: set<JobId>, op: Op, id: JobId)
    requires Valid(s) && QueuesUsed(s, used) && (op.Add? ==> op.id !in used)
    requires id in used && op != Remove(id) && ItemsOf(s.queues, id) != [] && ServedNow(s, op, id) == []
    ensures var next := Apply(s, op);
            && Valid(next) && QueuesUsed(next, if op.Add? then used + {op.id} else used)
            && ItemsOf(next.queues, id) != []
            && Rank(next.queues, id) + (if op.PopNext? then 1 else 0)
               <= Rank(s.queues, id) + (if op.Add? then WeightOf(op.priority) else 0)
  {
    ApplyKeeps(s, used, op);
    assert Accounted(s, op, id);
    ItemsMeanQueue(s.queues, id);
    match op
    case Add(other, items, p) =>
      AddFresh(s, other, items, p);
      AppendSums(s.queues, Queue(other, WeightOf(p), items, WeightOf(p)), id);
    case Remove(other) => WithoutNoWorse(s.queues, other, id);
    case PopNext =>
      PopEffect(s);
      PopElsewhere(s, id);
  }

  // ---------------------------------------------------------------- draining

  /** Turns of `w` items each that `m` items need. */
  function Turns(m: int, w: int): nat
    requires w >= 1
    decreases if m > 0 then m else 0
  {
    if m <= 0 then 0 else 1 + Turns(m - w, w)
  }

  /** Pops needed for `m` items: waiting once, serving them, and waiting again between turns. */
  function Budget(rank: int, m: nat, others: int, turn: int, w: int): int
    requires w >= 1
  {
    if m == 0 then 0 else rank + m + others * Turns(m - turn, w)
  }

  lemma BudgetMonotone(rank: int, rank': int, m: nat, others: int, others': int, turn: int, w: int)
    requires w >= 1 && rank' <= rank && others' <= others
    ensures Budget(rank', m, others', turn, w) <= Budget(rank, m, others, turn, w)
    ensures rank' < rank && m > 0 ==> Budget(rank', m, others', turn, w) < Budget(rank, m, others, turn, w)
  {
    MulLe(others', others, Turns(m - turn, w));
  }

  lemma BudgetServed(rank: int, rank': int, m: nat, others: int, others': int, turn: int, turn': int, w: int)
    requires w >= 1 && m >= 1 && turn >= 1 && 0 <= rank && 0 <= others' <= others
    requires turn > 1 ==> rank' == 0 && turn' == turn - 1
    requires turn == 1 ==> rank' <= others' && turn' == w
    ensures Budget(rank', m - 1, others', turn', w) < Budget(rank, m, others, turn, w)
  {
    var turns := Turns(m - turn, w);
    MulLe(others', others, turns);
    MulLe(0, others, turns);
    if turn == 1 && m > 1 {
      assert others' * turns == others' + others' * Turns(m - 1 - w, w);
    }
  }

  lemma BudgetFits(rank: int, m: nat, others: nat, turn: int, w: int, t: nat)
    requires w >= 1 && m <= t * w && rank <= others
    requires turn == w || (1 <= turn && rank == 0)
    ensures Budget(rank, m, others, turn, w) <= t * (others + w)
  {
    assert t * (others + w) == t * others + t * w;
    MulLe(0, others, t);
    if m > 0 {
      if turn == w {
        assert t > 0 && (t - 1) * w == t * w - w;
        TurnsBound(m - turn, w, t - 1);
        MulLe(Turns(m - turn, w), t - 1, others);
        assert others + others * (t - 1) == t * others;
      } else {
        TurnsBound(m - turn, w, t);
        MulLe(Turns(m - turn, w), t, others);
      }
    }
  }

  lemma {:induction false} TurnsBound(m: int, w: int, t: nat)
    requires w >= 1 && m <= t * w
    ensures Turns(m, w) <= t
    decreases t
  {
    if m > 0 && t > 0 {
      assert (t - 1) * w == t * w - w;
      TurnsBound(m - w, w, t - 1);
    }
  }

  /** An upper bound on the pops until a job's queue is empty, if nothing arrives. */
  function DrainRank(qs: seq<Queue>, id: JobId): int
    requires ValidQueues(qs) && Has(qs, id)
  {
    Bounds(qs, id);
    Budget(Rank(qs, id), |ItemsOf(qs, id)|, OtherWeight(qs, id), Turn(qs, id), WeightIn(qs, id))
  }

  lemma PopDrains(s: Sched, id: JobId)
    requires Valid(s) && ItemsOf(s.queues, id) != []
    ensures Has(s.queues, id) && Valid(Pop(s).sched) && Has(Pop(s).sched.queues, id)
    ensures DrainRank(Pop(s).sched.queues, id) < DrainRank(s.queues, id)
  {
    ItemsMeanQueue(s.queues, id);
    PopEffect(s);
    Bounds(s.queues, id);
    RankBound(s.queues, id);
    var after := Pop(s).sched.queues;
    var m, w, turn := |ItemsOf(s.queues, id)|, WeightIn(s.queues, id), Turn(s.queues, id);
    if Pop(s).got.value.0 != id {
      PopElsewhere(s, id);
      BudgetMonotone(Rank(s.queues, id), Rank(after, id), m,
                     OtherWeight(s.queues, id), OtherWeight(after, id), turn, w);
    } else {
      PopServesSelf(s, id);
      Bounds(after, id);
      RankBound(after, id);
      BudgetServed(Rank(s.queues, id), Rank(after, id), m, OtherWeight(s.queues, id),
                   OtherWeight(after, id), turn, Turn(after, id), w);
    }
  }

  /** Serving the job itself uses up one item of its turn; until the turn ends nobody is ahead of it. */
  lemma PopServesSelf(s: Sched, id: JobId)
    requires Valid(s) && ItemsOf(s.queues, id) != []
    requires Pop(s).got.Some? && Pop(s).got.value.0 == id
    ensures Has(Pop(s).sched.queues, id)
    ensures OtherWeight(Pop(s).sched.queues, id) <= OtherWeight(s.queues, id)
    ensures WeightIn(Pop(s).sched.queues, id) == WeightIn(s.queues, id)
    ensures Turn(s.queues, id) > 1 ==>
              Turn(Pop(s).sched.queues, id) == Turn(s.queues, id) - 1 && Rank(Pop(s).sched.queues, id) == 0
    ensures Turn(s.queues, id) == 1 ==> Turn(Pop(s).sched.queues, id) == WeightIn(s.queues, id)
  {
    RoundRank(s, id);
    var qs := Round(s);
    var i := FirstReady(qs);
    PopServesTheRound(s);
    ServeValid(qs);
    ServeSums(qs, i, id);
    OwnCredit(qs, i);
  }

  lemma RemoveKeepsDrain(s: Sched, other: JobId, id: JobId)
    requires Valid(s) && Has(s.queues, id) && other != id
    ensures Valid(RemoveJob(s, other)) && Has(RemoveJob(s, other).queues, id)
    ensures DrainRank(RemoveJob(s, other).queues, id) <= DrainRank(s.queues, id)
  {
    RemoveEffect(s.queues, other);
    WithoutNoWorse(s.queues, other, id);
    Bounds(s.queues, id);
    BudgetMonotone(Rank(s.queues, id), Rank(Without(s.queues, other), id), |ItemsOf(s.queues, id)|,
                   OtherWeight(s.queues, id), OtherWeight(Without(s.queues, other), id),
                   Turn(s.queues, id), WeightIn(s.queues, id));
  }

  lemma {:induction false} DrainsWithin(s: Sched, ops: seq<Op>, id: JobId)
    requires Valid(s) && Has(s.queues, id) && NeverRemoved(ops, id)
    requires forall i :: 0 <= i < |ops| ==> !ops[i].Add?
    requires Pops(ops) >= DrainRank(s.queues, id)
    ensures ItemsOf(Run(s, ops).queues, id) == []
    decreases |ops|
  {
    RankBound(s.queues, id);
    Bounds(s.queues, id);
    if ItemsOf(s.queues, id) == [] {
      StaysEmpty(s, ops, id);
    } else {
      MulLe(0, OtherWeight(s.queues, id), Turns(|ItemsOf(s.queues, id)| - Turn(s.queues, id), WeightIn(s.queues, id)));
      assert ops != [];
      assert ops[0] != Remove(id) && !ops[0].Add? && forall i :: 0 <= i < |ops[1..]| ==> ops[1..][i] == ops[i + 1];
      match ops[0]
      case Remove(other) =>
        RemoveKeepsDrain(s, other, id);
        DrainsWithin(Apply(s, ops[0]), ops[1..], id);
      case PopNext =>
        PopDrains(s, id);
        DrainsWithin(Apply(s, ops[0]), ops[1..], id);
    }
  }

  lemma {:induction false} StaysEmpty(s: Sched, ops: seq<Op>, id: JobId)
    requires Valid(s) && ItemsOf(s.queues, id) == []
    requires forall i :: 0 <= i < |ops| ==> !ops[i].Add?
    ensures ItemsOf(Run(s, ops).queues, id) == []
    decreases |ops|
  {
    if ops != [] {
      var used := set i | 0 <= i < |s.queues| :: s.queues[i].id;
      ApplyKeeps(s, used, ops[0]);
      assert Accounted(s, ops[0], id);
      assert !ops[0].Add? && forall i :: 0 <= i < |ops[1..]| ==> ops[1..][i] == ops[i + 1];
      StaysEmpty(Apply(s, ops[0]), ops[1..], id);
    }
  }

  /**
   A job whose items fit in `t` turns of its weight is drained within `t` rounds, whatever
   the others hold and whichever of them drain or are removed.
   */
  lemma DrainBound(s: Sched, ops: seq<Op>, id: JobId, t: nat)
    requires Valid(s) && Has(s.queues, id) && NeverRemoved(ops, id)
    requires forall i :: 0 <= i < |ops| ==> !ops[i].Add?
    requires |ItemsOf(s.queues, id)| <= t * WeightIn(s.queues, id)
    requires Pops(ops) >= t * SumWeight(s.queues)
    ensures ItemsOf(Run(s, ops).queues, id) == []
  {
    Bounds(s.queues, id);
    RankBound(s.queues, id);
    BudgetFits(Rank(s.queues, id), |ItemsOf(s.queues, id)|, OtherWeight(s.queues, id),
               Turn(s.queues, id), WeightIn(s.queues, id), t);
    DrainsWithin(s, ops, id);
  }
}
