/**
 What a priority is worth: whatever else happened before, a high job is served four times and
 a normal one twice as often as a low one.
 */
module Priorities {
  import opened Models
  import opened SchedulerSpec
  import opened SchedulerRuns
  import opened Fairness
  import opened Shares

  /** `got` is what a priority is due where a low job gets `unit`. */
  predicate Due(p: Priority, got: int, unit: int) {
    match p
    case High => got == 4 * unit
    case Normal => got == 2 * unit
    case Low => got == unit
  }

  /** The job has more waiting than it is due. */
  ghost predicate NotDry(p: Priority, waiting: int, unit: int) {
    forall got :: Due(p, got, unit) ==> waiting > got
  }

  predicate Ranked(q: Queue, known: map<JobId, Priority>) {
    q.id in known && Due(known[q.id], q.weight, 1)
  }

  /** Every queue has the weight of the priority its job came with. */
  predicate AllRanked(qs: seq<Queue>, known: map<JobId, Priority>) {
    forall i :: 0 <= i < |qs| ==> Ranked(qs[i], known)
  }

  /** The priorities known after a history. */
  function Known(known: map<JobId, Priority>, ops: seq<Op>): map<JobId, Priority>
    decreases |ops|
  {
    if ops == [] then known else Known(if ops[0].Add? then known[ops[0].id := ops[0].priority] else known, ops[1..])
  }

  lemma PopKeepsRanks(s: Sched, known: map<JobId, Priority>)
    requires Valid(s) && AllRanked(s.queues, known)
    ensures AllRanked(Pop(s).sched.queues, known)
  {
    UndrainedEffect(s.queues);
    var live := Undrained(s.queues);
    if live != [] {
      PopServesTheRound(s);
      var r := Pop(s).sched.queues;
      forall i | 0 <= i < |r| ensures Ranked(r[i], known) {
        assert live[i] in s.queues && r[i].id == live[i].id && r[i].weight == live[i].weight;
      }
    }
  }

  /** Every operation keeps the weights; a fresh job comes with the weight of its priority. */
  lemma ApplyKeepsRanks(s: Sched, known: map<JobId, Priority>, op: Op)
    requires Valid(s) && AllRanked(s.queues, known) && (op.Add? ==> op.id !in known)
    ensures AllRanked(Apply(s, op).queues, if op.Add? then known[op.id := op.priority] else known)
  {
    match op
    case Add(id, items, p) =>
      assert !Has(s.queues, id) by {
        forall i | 0 <= i < |s.queues| ensures s.queues[i].id != id { assert Ranked(s.queues[i], known); }
      }
      AddFresh(s, id, items, p);
      assert forall i :: 0 <= i < |s.queues| ==> Ranked(s.queues[i], known);
    case Remove(id) =>
      RemoveEffect(s.queues, id);
      var left := Without(s.queues, id);
      forall i | 0 <= i < |left| ensures Ranked(left[i], known) { assert left[i] in s.queues; }
    case PopNext => PopKeepsRanks(s, known);
  }

  lemma {:induction false} RunKeepsRanks(s: Sched, known: map<JobId, Priority>, ops: seq<Op>)
    requires Valid(s) && AllRanked(s.queues, known) && FreshAdds(known.Keys, ops)
    ensures Valid(Run(s, ops)) && AllRanked(Run(s, ops).queues, Known(known, ops))
    decreases |ops|
  {
    if ops != [] {
      var op := ops[0];
      var known' := if op.Add? then known[op.id := op.priority] else known;
      assert QueuesUsed(s, known.Keys) by { assert forall i :: 0 <= i < |s.queues| ==> Ranked(s.queues[i], known); }
      ApplyKeeps(s, known.Keys, op);
      ApplyKeepsRanks(s, known, op);
      assert known'.Keys == if op.Add? then known.Keys + {op.id} else known.Keys;
      RunKeepsRanks(Apply(s, op), known', ops[1..]);
    }
  }

  // ---------------------------------------------------------------- shares

  /** How many queued jobs have a priority. */
  function Heads(qs: seq<Queue>, known: map<JobId, Priority>, p: Priority): nat {
    if qs == [] then 0
    else (if qs[0].id in known && known[qs[0].id] == p then 1 else 0) + Heads(qs[1..], known, p)
  }

  /** The pops in which every low job gets one item. */
  function Cycle(qs: seq<Queue>, known: map<JobId, Priority>): nat {
    4 * Heads(qs, known, High) + 2 * Heads(qs, known, Normal) + Heads(qs, known, Low)
  }

  lemma {:induction false} CycleIsWeight(qs: seq<Queue>, known: map<JobId, Priority>)
    requires AllRanked(qs, known)
    ensures Cycle(qs, known) == SumWeight(qs)
  {
    if qs != [] {
      assert Ranked(qs[0], known);
      assert forall i :: 0 <= i < |qs[1..]| ==> qs[1..][i] == qs[i + 1];
      CycleIsWeight(qs[1..], known);
    }
  }

  lemma DueScales(p: Priority, w: int, n: int)
    requires Due(p, w, 1)
    ensures Due(p, n * w, n)
  {
  }

  ghost predicate EnoughFor(qs: seq<Queue>, known: map<JobId, Priority>, n: nat) {
    forall i :: 0 <= i < |qs| ==> qs[i].id in known && NotDry(known[qs[i].id], |qs[i].items|, n)
  }

  lemma EnoughInWeights(qs: seq<Queue>, known: map<JobId, Priority>, n: nat)
    requires AllRanked(qs, known) && EnoughFor(qs, known, n)
    ensures forall i :: 0 <= i < |qs| ==> |qs[i].items| > n * qs[i].weight
  {
    forall i | 0 <= i < |qs| ensures |qs[i].items| > n * qs[i].weight {
      assert Ranked(qs[i], known);
      DueScales(known[qs[i].id], qs[i].weight, n);
      assert NotDry(known[qs[i].id], |qs[i].items|, n);
    }
  }

  /**
   From any valid state whose weights are those of the priorities, `n` cycles serve each job,
   in order, exactly what its priority is due: four, two or one items a cycle.
   */
  lemma SharesFrom(s: Sched, known: map<JobId, Priority>, n: nat, i: nat)
    requires Valid(s) && AllRanked(s.queues, known) && i < |s.queues| && EnoughFor(s.queues, known, n)
    ensures n * Cycle(s.queues, known) >= 0 && s.queues[i].id in known
    ensures var q, served := s.queues[i], Served(s, PopTimes(n * Cycle(s.queues, known)), s.queues[i].id);
            && Due(known[q.id], |served|, n)
            && served <= q.items && q.items == served + ItemsOf(After(s, n * Cycle(s.queues, known)).queues, q.id)
  {
    var q := s.queues[i];
    assert Ranked(q, known);
    CycleIsWeight(s.queues, known);
    EnoughInWeights(s.queues, known, n);
    DueScales(known[q.id], q.weight, n);
    ServedAndLeft(s, n, i, n * Cycle(s.queues, known), n * q.weight);
  }

  /** The first `k` items served, the others left. */
  lemma ServedAndLeft(s: Sched, n: nat, i: nat, pops: int, k: int)
    requires Valid(s) && i < |s.queues| && pops == n * SumWeight(s.queues) && k == n * s.queues[i].weight
    requires forall j :: 0 <= j < |s.queues| ==> |s.queues[j].items| > n * s.queues[j].weight
    ensures pops >= 0 && 0 <= k <= |s.queues[i].items|
    ensures var q, served := s.queues[i], Served(s, PopTimes(pops), s.queues[i].id);
            && |served| == k && served <= q.items && q.items == served + ItemsOf(After(s, pops).queues, q.id)
  {
    ServiceInOrder(s, n, i);
    LeftAfterRounds(s, n, i);
    var items := s.queues[i].items;
    assert items == items[..k] + items[k..];
  }

  lemma LeftAfterRounds(s: Sched, n: nat, i: nat)
    requires Valid(s) && i < |s.queues|
    requires forall k :: 0 <= k < |s.queues| ==> |s.queues[k].items| > n * s.queues[k].weight
    ensures n * SumWeight(s.queues) >= 0 && 0 <= n * s.queues[i].weight <= |s.queues[i].items|
    ensures ItemsOf(After(s, n * SumWeight(s.queues)).queues, s.queues[i].id)
            == s.queues[i].items[n * s.queues[i].weight..]
  {
    ProportionalService(s, n);
    var last := After(s, n * SumWeight(s.queues)).queues;
    assert Gave(s.queues[i], last[i], n);
    OwnItems(last, i);
  }

  /**
   What a priority is worth, over every history of adds, removals and pops: as long as nobody
   runs dry, high, normal and low jobs are served in the ratio four to two to one, exactly.
   */
  lemma SharesByPriority(ops: seq<Op>, n: nat, i: nat)
    requires FreshAdds({}, ops)
    requires var s := Run(EMPTY, ops); i < |s.queues| && EnoughFor(s.queues, Known(map[], ops), n)
    ensures var s, known := Run(EMPTY, ops), Known(map[], ops);
            && n * Cycle(s.queues, known) >= 0 && s.queues[i].id in known
            && Due(known[s.queues[i].id], |Served(s, PopTimes(n * Cycle(s.queues, known)), s.queues[i].id)|, n)
  {
    var none: map<JobId, Priority> := map[];
    assert none.Keys == {};
    RunKeepsRanks(EMPTY, none, ops);
    SharesFrom(Run(EMPTY, ops), Known(map[], ops), n, i);
  }

  /** A fresh high and a fresh low job: twenty pops serve sixteen and four. */
  lemma HighAndLow(hi: seq<WorkItem>, lo: seq<WorkItem>)
    requires |hi| > 16 && |lo| > 4
    ensures var s := Run(EMPTY, [Add("hi", hi, High), Add("lo", lo, Low)]);
            |Served(s, PopTimes(20), "hi")| == 16 && |Served(s, PopTimes(20), "lo")| == 4
  {
    var first, second := Add("hi", hi, High), Add("lo", lo, Low);
    var ops := [first, second];
    assert ops[1..] == [second] && [second][1..] == [];
    var s1 := Apply(EMPTY, first);
    AddFresh(EMPTY, "hi", hi, High);
    AddFresh(s1, "lo", lo, Low);
    var s := Run(EMPTY, ops);
    assert s == Apply(s1, second) by {
      assert Run(s1, [second]) == Run(Apply(s1, second), [second][1..]);
    }
    assert s.queues[0].id == "hi" && s.queues[0].items == hi && s.queues[1].id == "lo" && s.queues[1].items == lo;
    assert |s.queues| == 2;
    assert FreshAdds({}, ops) by { assert FreshAdds({"hi"}, [second]); }
    var known := Known(map[], ops);
    assert known == map["hi" := High, "lo" := Low] by {
      assert Known(map["hi" := High], [second]) == Known(map["hi" := High, "lo" := Low], [second][1..]);
    }
    PairCycle(s.queues, known);
    SharesByPriority(ops, 4, 0);
    SharesByPriority(ops, 4, 1);
  }

  lemma PairCycle(qs: seq<Queue>, known: map<JobId, Priority>)
    requires |qs| == 2 && qs[0].id in known && qs[1].id in known
    requires known[qs[0].id] == High && known[qs[1].id] == Low
    ensures Cycle(qs, known) == 5
  {
    assert qs[1..] == [qs[1]] && [qs[1]][1..] == [];
    assert Heads([qs[1]], known, High) == 0 && Heads([qs[1]], known, Low) == 1 && Heads([qs[1]], known, Normal) == 0;
  }
}
