/**
 Exact shares: while no queue runs dry, a full round's worth of pops serves every job exactly
 its weight, from wherever in the round it starts.
 */
module Shares {
  import opened Models
  import opened SchedulerSpec
  import opened SchedulerRuns
  import opened Fairness

  function PopTimes(n: nat): (ops: seq<Op>)
    ensures |ops| == n && forall i :: 0 <= i < n ==> ops[i] == PopNext
  {
    if n == 0 then [] else [PopNext] + PopTimes(n - 1)
  }

  function After(s: Sched, n: nat): Sched {
    Run(s, PopTimes(n))
  }

  lemma {:induction false} AfterSplit(s: Sched, m: nat, n: nat)
    ensures After(s, m + n) == After(After(s, m), n)
    decreases m
  {
    if m > 0 {
      assert PopTimes(m)[1..] == PopTimes(m - 1) && PopTimes(m + n)[1..] == PopTimes(m - 1 + n);
      AfterSplit(Pop(s).sched, m - 1, n);
    }
  }

  predicate SameJobs(a: seq<Queue>, b: seq<Queue>) {
    |a| == |b| && forall i :: 0 <= i < |a| ==> a[i].id == b[i].id && a[i].weight == b[i].weight
  }

  predicate SameCredits(a: seq<Queue>, b: seq<Queue>) {
    |a| == |b| && forall i :: 0 <= i < |a| ==> a[i].credit == b[i].credit
  }

  lemma {:induction false} SameWeight(a: seq<Queue>, b: seq<Queue>)
    requires SameJobs(a, b)
    ensures SumWeight(a) == SumWeight(b)
  {
    if a != [] {
      assert forall i :: 0 <= i < |a[1..]| ==> a[1..][i] == a[i + 1] && b[1..][i] == b[i + 1];
      assert a[0].weight == b[0].weight;
      SameWeight(a[1..], b[1..]);
    }
  }

  /** A queue list is at its full credit when the sum says so. */
  lemma {:induction false} FullWhenSumIsWeight(qs: seq<Queue>)
    requires ValidQueues(qs)
    ensures SumCredit(qs) == SumWeight(qs) <==> forall i :: 0 <= i < |qs| ==> qs[i].credit == qs[i].weight
  {
    if qs != [] {
      ValidTail(qs);
      FullWhenSumIsWeight(qs[1..]);
      Bounds(qs[1..], qs[0].id);
      assert QueueOk(qs[0]);
      assert forall i :: 0 <= i < |qs[1..]| ==> qs[1..][i] == qs[i + 1];
      if forall i :: 0 <= i < |qs| ==> qs[i].credit == qs[i].weight {
        assert qs[0].credit == qs[0].weight;
      }
      if SumCredit(qs) == SumWeight(qs) {
        forall i | 0 <= i < |qs| ensures qs[i].credit == qs[i].weight {
          if i > 0 { assert qs[1..][i - 1] == qs[i]; }
        }
      }
    }
  }

  /**
   Credit vectors that satisfy the round invariant form a chain: the one with the larger sum
   is larger everywhere. So the sum of the credits fixes each of them.
   */
  lemma {:induction false} CreditChain(a: seq<Queue>, b: seq<Queue>)
    requires ValidQueues(a) && ValidQueues(b) && SameJobs(a, b)
    requires SumCredit(a) >= SumCredit(b)
    ensures forall i :: 0 <= i < |a| ==> a[i].credit >= b[i].credit
  {
    if a != [] {
      ValidTail(a);
      ValidTail(b);
      assert forall i :: 0 <= i < |a[1..]| ==> a[1..][i] == a[i + 1] && b[1..][i] == b[i + 1];
      assert QueueOk(a[0]) && QueueOk(b[0]) && a[0].weight == b[0].weight;
      SameWeight(a[1..], b[1..]);
      Bounds(a[1..], a[0].id);
      if b[0].credit > 0 {
        assert SumCredit(b[1..]) == SumWeight(b[1..]) by {
          forall i | 0 <= i < |b[1..]| ensures b[1..][i].credit == b[1..][i].weight {
            assert InTurn(b[0], b[i + 1]);
          }
          FullWhenSumIsWeight(b[1..]);
        }
        assert a[0].credit >= b[0].credit;
      }
      if a[0].credit > 0 {
        forall i | 0 < i < |a| ensures a[i].credit >= b[i].credit {
          assert InTurn(a[0], a[i]) && QueueOk(b[i]);
        }
      } else {
        CreditChain(a[1..], b[1..]);
        forall i | 0 < i < |a| ensures a[i].credit >= b[i].credit {
          assert a[1..][i - 1].credit >= b[1..][i - 1].credit;
        }
      }
    }
  }

  lemma {:induction false} NothingDrained(qs: seq<Queue>)
    requires forall i :: 0 <= i < |qs| ==> qs[i].items != []
    ensures Undrained(qs) == qs
  {
    if qs != [] {
      assert forall i :: 0 <= i < |qs[1..]| ==> qs[1..][i] == qs[i + 1];
      NothingDrained(qs[1..]);
    }
  }

  /** The queue has given out exactly the items its missing credit pays for. */
  predicate Paid(a: Queue, b: Queue) {
    && a.id == b.id && a.weight == b.weight
    && 0 <= a.credit - b.credit <= |a.items|
    && b.items == a.items[a.credit - b.credit..]
  }

  predicate PaidFor(before: seq<Queue>, after: seq<Queue>) {
    |before| == |after| && forall i :: 0 <= i < |before| ==> Paid(before[i], after[i])
  }

  lemma PaidForTrans(a: seq<Queue>, b: seq<Queue>, c: seq<Queue>)
    requires PaidFor(a, b) && PaidFor(b, c)
    ensures PaidFor(a, c)
  {
    forall i | 0 <= i < |a| ensures Paid(a[i], c[i]) {
      assert Paid(a[i], b[i]) && Paid(b[i], c[i]);
    }
  }

  /** The queues hold more than the credit they may still spend before the point `floor`. */
  predicate Stocked(qs: seq<Queue>, floor: seq<Queue>) {
    && ValidQueues(qs) && ValidQueues(floor) && SameJobs(qs, floor)
    && forall i :: 0 <= i < |floor| ==> |qs[i].items| > qs[i].credit - floor[i].credit
  }

  lemma PopFromStock(s: Sched)
    requires Valid(s) && s.queues != [] && AnyCredit(s.queues)
    requires forall i :: 0 <= i < |s.queues| ==> s.queues[i].items != []
    ensures var i := FirstReady(s.queues);
            && i < |s.queues| && s.queues[i].credit > 0
            && Pop(s).sched.queues == s.queues[i := Take(s.queues[i])]
            && SumCredit(Pop(s).sched.queues) == SumCredit(s.queues) - 1
            && Valid(Pop(s).sched)
  {
    NothingDrained(s.queues);
    PopServesTheRound(s);
    PopEffect(s);
    ServeSums(s.queues, FirstReady(s.queues), "");
  }

  lemma SpendOne(s: Sched, floor: seq<Queue>)
    requires Valid(s) && Stocked(s.queues, floor) && SumCredit(s.queues) > SumCredit(floor)
    ensures Valid(Pop(s).sched) && Stocked(Pop(s).sched.queues, floor)
    ensures PaidFor(s.queues, Pop(s).sched.queues)
    ensures SumCredit(Pop(s).sched.queues) == SumCredit(s.queues) - 1
  {
    var qs := s.queues;
    CreditChain(qs, floor);
    forall i | 0 <= i < |qs| ensures qs[i].items != [] { assert |qs[i].items| > qs[i].credit - floor[i].credit; }
    Bounds(floor, "");
    NoCreditMeansZero(qs);
    PopFromStock(s);
    TakeStocked(qs, FirstReady(qs), Pop(s).sched.queues, floor);
  }

  lemma TakeStocked(qs: seq<Queue>, i: nat, next: seq<Queue>, floor: seq<Queue>)
    requires Stocked(qs, floor) && i < |qs| && Ready(qs[i]) && next == qs[i := Take(qs[i])]
    requires ValidQueues(next)
    ensures Stocked(next, floor) && PaidFor(qs, next)
  {
    forall k | 0 <= k < |qs| ensures Paid(qs[k], next[k]) {
      assert qs[k].items[0..] == qs[k].items;
    }
  }

  /**
   Within one round: `n` pops spend `n` credits, and no credit falls below that of a later
   point of the same round (`floor`), so queues holding more than the difference never drain.
   */
  lemma {:induction false} SpendCredit(s: Sched, n: nat, floor: seq<Queue>)
    requires Valid(s) && Stocked(s.queues, floor) && SumCredit(s.queues) - n >= SumCredit(floor)
    ensures Valid(After(s, n)) && PaidFor(s.queues, After(s, n).queues)
    ensures SumCredit(After(s, n).queues) == SumCredit(s.queues) - n
    decreases n
  {
    if n > 0 {
      SpendOne(s, floor);
      SpendCredit(Pop(s).sched, n - 1, floor);
      assert PopTimes(n)[1..] == PopTimes(n - 1);
      PaidForTrans(s.queues, Pop(s).sched.queues, After(s, n).queues);
    }
  }

  function Broke(qs: seq<Queue>): (r: seq<Queue>)
    ensures |r| == |qs| && forall i :: 0 <= i < |qs| ==> r[i] == qs[i].(credit := 0)
  {
    seq(|qs|, i requires 0 <= i < |qs| => qs[i].(credit := 0))
  }

  lemma BrokeIsValid(qs: seq<Queue>)
    requires ValidQueues(qs)
    ensures ValidQueues(Broke(qs)) && SameJobs(qs, Broke(qs)) && SumCredit(Broke(qs)) == 0
  {
    var r := Broke(qs);
    forall i | 0 <= i < |r| ensures QueueOk(r[i]) { assert QueueOk(qs[i]); }
    forall i, j | 0 <= i < j < |r| ensures InTurn(r[i], r[j]) { assert InTurn(qs[i], qs[j]); }
    assert !AnyCredit(r);
    NoCreditMeansZero(r);
  }

  /** With no credit left, popping is popping from the start of the next round. */
  lemma NextRoundStarts(s: Sched, n: nat)
    requires Valid(s) && SumCredit(s.queues) == 0
    requires forall i :: 0 <= i < |s.queues| ==> s.queues[i].items != []
    ensures Valid(Sched(ResetCredits(s.queues), s.pending))
    ensures n > 0 ==> After(s, n) == After(Sched(ResetCredits(s.queues), s.pending), n)
  {
    var fresh' := Sched(ResetCredits(s.queues), s.pending);
    ResetEffect(s.queues);
    NoCreditMeansZero(s.queues);
    NothingDrained(s.queues);
    NothingDrained(fresh'.queues);
    if s.queues != [] {
      assert QueueOk(s.queues[0]) && fresh'.queues[0].credit > 0;
      assert Pop(s) == Pop(fresh');
    }
  }

  /** The queue has given out `k` times its weight. */
  predicate Gave(a: Queue, b: Queue, k: nat) {
    && a.id == b.id && a.weight == b.weight
    && 0 <= k * a.weight <= |a.items|
    && b.items == a.items[k * a.weight..]
  }

  predicate ServedTurns(before: seq<Queue>, after: seq<Queue>, k: nat) {
    |before| == |after| && forall i :: 0 <= i < |before| ==> Gave(before[i], after[i], k)
  }

  /**
   From any point of a round, as many pops as the weights sum to serve each job exactly its
   weight. The credits come back to the same point of the round; they are literally the same
   numbers unless the round had not started, when they end spent instead of untouched.
   */
  lemma OneRound(s: Sched)
    requires Valid(s)
    requires forall i :: 0 <= i < |s.queues| ==> |s.queues[i].items| > s.queues[i].weight
    ensures SumWeight(s.queues) >= 0
    ensures var r := After(s, SumWeight(s.queues));
            && Valid(r)
            && ServedTurns(s.queues, r.queues, 1)
            && SameCredits(NewRound(r.queues), NewRound(s.queues))
            && (s.queues != [] ==>
                  (SameCredits(r.queues, s.queues) <==> SumCredit(s.queues) < SumWeight(s.queues)))
  {
    Bounds(s.queues, "");
    FirstHalf(s);
    var credit, weight := SumCredit(s.queues), SumWeight(s.queues);
    var mid, last := After(s, credit).queues, After(s, weight).queues;
    if weight > credit {
      RestOfRound(s, credit, weight);
      SecondHalf(s.queues, mid, last);
    } else {
      RoundFromFull(s.queues, mid);
    }
  }

  /** The pops after the reset, up to the point of the round where they started. */
  lemma RestOfRound(s: Sched, credit: nat, weight: nat)
    requires Valid(s) && credit == SumCredit(s.queues) < SumWeight(s.queues) == weight
    requires var mid := After(s, credit);
             && Valid(mid) && PaidFor(s.queues, mid.queues) && SumCredit(mid.queues) == 0
             && (forall i :: 0 <= i < |mid.queues| ==> mid.queues[i].items != [])
             && Stocked(ResetCredits(mid.queues), s.queues)
    ensures Valid(After(s, weight))
    ensures PaidFor(ResetCredits(After(s, credit).queues), After(s, weight).queues)
    ensures SumCredit(After(s, weight).queues) == credit
  {
    var mid := After(s, credit);
    AfterSplit(s, credit, weight - credit);
    NextRoundStarts(mid, weight - credit);
    ResetSums(mid.queues, "");
    JobsOfPaid(s.queues, mid.queues);
    SpendCredit(Sched(ResetCredits(mid.queues), mid.pending), weight - credit, s.queues);
  }

  /** Spending what is left of a round: everybody ends without credit and can afford the rest. */
  lemma FirstHalf(s: Sched)
    requires Valid(s)
    requires forall i :: 0 <= i < |s.queues| ==> |s.queues[i].items| > s.queues[i].weight
    ensures SumCredit(s.queues) >= 0
    ensures var mid := After(s, SumCredit(s.queues));
            && Valid(mid) && PaidFor(s.queues, mid.queues) && SumCredit(mid.queues) == 0
            && (forall i :: 0 <= i < |mid.queues| ==> mid.queues[i].credit == 0 && mid.queues[i].items != [])
            && ValidQueues(ResetCredits(mid.queues)) && Stocked(ResetCredits(mid.queues), s.queues)
  {
    var qs := s.queues;
    Bounds(qs, "");
    BrokeIsValid(qs);
    forall i | 0 <= i < |qs| ensures |qs[i].items| > qs[i].credit - Broke(qs)[i].credit { assert QueueOk(qs[i]); }
    SpendCredit(s, SumCredit(qs), Broke(qs));
    var mid := After(s, SumCredit(qs)).queues;
    AllSpent(mid);
    ResetEffect(mid);
    forall i | 0 <= i < |qs|
      ensures mid[i].items != [] && |mid[i].items| > qs[i].weight - qs[i].credit
    {
      assert QueueOk(qs[i]) && Paid(qs[i], mid[i]);
    }
  }

  lemma AllSpent(qs: seq<Queue>)
    requires ValidQueues(qs) && SumCredit(qs) == 0
    ensures forall i :: 0 <= i < |qs| ==> qs[i].credit == 0
  {
    NoCreditMeansZero(qs);
    forall i | 0 <= i < |qs| ensures qs[i].credit == 0 { assert QueueOk(qs[i]); }
  }

  /** The round was entered part-way: the second half brings every credit back to where it was. */
  lemma SecondHalf(qs: seq<Queue>, mid: seq<Queue>, last: seq<Queue>)
    requires ValidQueues(qs) && ValidQueues(mid) && ValidQueues(last)
    requires PaidFor(qs, mid) && (forall i :: 0 <= i < |qs| ==> mid[i].credit == 0)
    requires PaidFor(ResetCredits(mid), last)
    requires SumCredit(last) == SumCredit(qs) < SumWeight(qs)
    ensures ServedTurns(qs, last, 1) && SameCredits(last, qs)
    ensures SameCredits(NewRound(last), NewRound(qs))
  {
    JobsOfPaid(qs, mid);
    JobsOfPaid(ResetCredits(mid), last);
    assert SameJobs(last, qs);
    SumFixesCredits(last, qs);
    forall i | 0 <= i < |qs| ensures Gave(qs[i], last[i], 1) {
      assert QueueOk(qs[i]);
      HalvesJoin(qs[i], mid[i], last[i]);
    }
    SameNewRound(last, qs);
  }

  lemma SumFixesCredits(a: seq<Queue>, b: seq<Queue>)
    requires ValidQueues(a) && ValidQueues(b) && SameJobs(a, b) && SumCredit(a) == SumCredit(b)
    ensures SameCredits(a, b)
  {
    CreditChain(a, b);
    CreditChain(b, a);
  }

  /** One queue's two halves: its old credit first, the rest of its weight after the reset. */
  lemma HalvesJoin(q: Queue, mid: Queue, last: Queue)
    requires QueueOk(q) && mid.credit == 0 && last.credit == q.credit
    requires Paid(q, mid) && Paid(mid.(credit := mid.weight), last)
    ensures Gave(q, last, 1)
  {
    assert mid.items == q.items[q.credit..];
    assert last.items == mid.items[q.weight - q.credit..];
    assert last.items == q.items[q.weight..];
  }

  lemma JobsOfPaid(a: seq<Queue>, b: seq<Queue>)
    requires PaidFor(a, b)
    ensures SameJobs(a, b) && SumWeight(a) == SumWeight(b)
  {
    forall i | 0 <= i < |a| ensures a[i].id == b[i].id && a[i].weight == b[i].weight { assert Paid(a[i], b[i]); }
    SameWeight(a, b);
  }

  lemma SameNewRound(a: seq<Queue>, b: seq<Queue>)
    requires SameJobs(a, b) && SameCredits(a, b)
    ensures SameCredits(NewRound(a), NewRound(b))
  {
    if AnyCredit(a) {
      var i :| 0 <= i < |a| && a[i].credit > 0;
      assert b[i].credit > 0;
    } else {
      forall i | 0 <= i < |b| ensures b[i].credit <= 0 { assert a[i].credit <= 0; }
      assert !AnyCredit(b);
    }
  }

  /** The round had not started: it is spent exactly, and the next one is due. */
  lemma RoundFromFull(qs: seq<Queue>, mid: seq<Queue>)
    requires ValidQueues(qs) && ValidQueues(mid)
    requires PaidFor(qs, mid) && (forall i :: 0 <= i < |qs| ==> mid[i].credit == 0)
    requires SumCredit(qs) == SumWeight(qs)
    ensures ServedTurns(qs, mid, 1)
    ensures SameCredits(NewRound(mid), NewRound(qs))
    ensures qs != [] ==> !SameCredits(mid, qs)
  {
    FullWhenSumIsWeight(qs);
    JobsOfPaid(qs, mid);
    forall i | 0 <= i < |qs| ensures Gave(qs[i], mid[i], 1) {
      assert QueueOk(qs[i]);
      SpentWhole(qs[i], mid[i]);
    }
    FullAndSpent(qs, mid);
  }

  lemma SpentWhole(q: Queue, mid: Queue)
    requires QueueOk(q) && q.credit == q.weight && mid.credit == 0 && Paid(q, mid)
    ensures Gave(q, mid, 1)
  {
  }

  lemma FullAndSpent(full: seq<Queue>, spent: seq<Queue>)
    requires ValidQueues(full) && SameJobs(full, spent)
    requires forall i :: 0 <= i < |full| ==> full[i].credit == full[i].weight && spent[i].credit == 0
    ensures SameCredits(NewRound(spent), NewRound(full))
    ensures full != [] ==> !SameCredits(spent, full)
  {
    assert !AnyCredit(spent);
    if full != [] {
      assert QueueOk(full[0]);
      assert full[0].credit > 0 && spent[0].credit == 0;
      assert AnyCredit(full);
    }
  }

  /** From one state to the other every job got `n` times its weight, at the same point of a round. */
  ghost predicate Rounds(s: Sched, r: Sched, n: nat) {
    && Valid(r)
    && ServedTurns(s.queues, r.queues, n)
    && SameCredits(NewRound(r.queues), NewRound(s.queues))
  }

  lemma RoundsAdd(s: Sched, one: Sched, r: Sched, n: nat)
    requires n >= 1 && Rounds(s, one, 1) && Rounds(one, r, n - 1)
    ensures Rounds(s, r, n)
  {
    TurnsAdd(s.queues, one.queues, r.queues, n);
  }

  lemma NoRounds(s: Sched)
    requires Valid(s)
    ensures Rounds(s, s, 0)
  {
    assert forall i :: 0 <= i < |s.queues| ==> Gave(s.queues[i], s.queues[i], 0);
  }

  /**
   Proportional service: `n` rounds' worth of pops give every job exactly `n` times its
   weight, in order, provided each holds more than that.
   */
  lemma {:induction false} ProportionalService(s: Sched, n: nat)
    requires Valid(s)
    requires forall i :: 0 <= i < |s.queues| ==> |s.queues[i].items| > n * s.queues[i].weight
    ensures SumWeight(s.queues) >= 0 && n * SumWeight(s.queues) >= 0
    ensures Rounds(s, After(s, n * SumWeight(s.queues)), n)
    decreases n
  {
    Bounds(s.queues, "");
    ManyIsProduct(n, SumWeight(s.queues));
    forall i | 0 <= i < |s.queues| ensures Deep(s.queues[i], n) {
      assert QueueOk(s.queues[i]);
      ManyIsProduct(n, s.queues[i].weight);
    }
    RoundsAfter(s, n, SumWeight(s.queues));
  }

  /** `n` times `w`, round by round. */
  function Many(n: nat, w: nat): nat {
    if n == 0 then 0 else w + Many(n - 1, w)
  }

  lemma {:induction false} ManyIsProduct(n: nat, w: nat)
    ensures Many(n, w) == n * w
  {
    if n > 0 { ManyIsProduct(n - 1, w); }
  }

  /** The queue holds more than `n` turns take. */
  predicate Deep(q: Queue, n: nat) {
    q.weight >= 0 && |q.items| > Many(n, q.weight)
  }

  lemma {:induction false} RoundsAfter(s: Sched, n: nat, w: nat)
    requires Valid(s) && w == SumWeight(s.queues) && forall i :: 0 <= i < |s.queues| ==> Deep(s.queues[i], n)
    ensures Rounds(s, After(s, Many(n, w)), n)
    decreases n
  {
    if n > 0 {
      var one := After(s, w);
      FirstOfRounds(s, one, n);
      RoundsAfter(one, n - 1, w);
      AfterSplit(s, w, Many(n - 1, w));
      RoundsAdd(s, one, After(s, Many(n, w)), n);
    } else {
      NoRounds(s);
    }
  }

  /** The first of `n` rounds leaves enough for the others. */
  lemma FirstOfRounds(s: Sched, one: Sched, n: nat)
    requires Valid(s) && n >= 1 && SumWeight(s.queues) >= 0 && one == After(s, SumWeight(s.queues))
    requires forall i :: 0 <= i < |s.queues| ==> Deep(s.queues[i], n)
    ensures Rounds(s, one, 1) && SumWeight(one.queues) == SumWeight(s.queues)
    ensures forall i :: 0 <= i < |one.queues| ==> Deep(one.queues[i], n - 1)
  {
    forall i | 0 <= i < |s.queues| ensures |s.queues[i].items| > s.queues[i].weight { assert Deep(s.queues[i], n); }
    OneRound(s);
    StockAfterTurn(s.queues, one.queues, n);
    SameWeight(s.queues, one.queues);
  }

  lemma StockAfterTurn(qs: seq<Queue>, one: seq<Queue>, n: nat)
    requires n >= 1 && ServedTurns(qs, one, 1) && forall i :: 0 <= i < |qs| ==> Deep(qs[i], n)
    ensures SameJobs(qs, one)
    ensures forall i :: 0 <= i < |one| ==> Deep(one[i], n - 1)
  {
    forall i | 0 <= i < |qs|
      ensures Deep(one[i], n - 1) && qs[i].id == one[i].id && qs[i].weight == one[i].weight
    {
      assert Gave(qs[i], one[i], 1) && Deep(qs[i], n);
    }
  }

  lemma TurnsAdd(a: seq<Queue>, b: seq<Queue>, c: seq<Queue>, n: nat)
    requires n >= 1 && ServedTurns(a, b, 1) && ServedTurns(b, c, n - 1)
    ensures ServedTurns(a, c, n)
  {
    forall i | 0 <= i < |a| ensures Gave(a[i], c[i], n) {
      assert Gave(a[i], b[i], 1) && Gave(b[i], c[i], n - 1);
      GaveAgain(a[i], b[i], c[i], n);
    }
  }

  lemma GaveAgain(a: Queue, b: Queue, c: Queue, n: nat)
    requires n >= 1 && Gave(a, b, 1) && Gave(b, c, n - 1)
    ensures Gave(a, c, n)
  {
    var w, rest := a.weight, (n - 1) * a.weight;
    assert n * w == w + rest;
    assert a.items[w..][rest..] == a.items[w + rest..];
  }

  lemma {:induction false} PopsAddNothing(used: set<JobId>, n: nat, id: JobId)
    ensures FreshAdds(used, PopTimes(n)) && Submitted(PopTimes(n), id) == []
    decreases n
  {
    if n > 0 {
      assert PopTimes(n)[1..] == PopTimes(n - 1);
      PopsAddNothing(used, n - 1, id);
    }
  }

  lemma {:induction false} PopsDropNothing(s: Sched, n: nat, id: JobId)
    ensures Dropped(s, PopTimes(n), id) == []
    decreases n
  {
    if n > 0 {
      assert PopTimes(n)[1..] == PopTimes(n - 1);
      PopsDropNothing(Pop(s).sched, n - 1, id);
    }
  }

  /** The same, read off what the pops return: the first `n` times weight items of the job, in order. */
  lemma ServiceInOrder(s: Sched, n: nat, i: nat)
    requires Valid(s) && i < |s.queues|
    requires forall k :: 0 <= k < |s.queues| ==> |s.queues[k].items| > n * s.queues[k].weight
    ensures n * SumWeight(s.queues) >= 0 && 0 <= n * s.queues[i].weight <= |s.queues[i].items|
    ensures Served(s, PopTimes(n * SumWeight(s.queues)), s.queues[i].id)
            == s.queues[i].items[..n * s.queues[i].weight]
  {
    var q := s.queues[i];
    ProportionalService(s, n);
    var pops := n * SumWeight(s.queues);
    var last := After(s, pops).queues;
    assert Gave(q, last[i], n);
    OwnItems(s.queues, i);
    OwnItems(last, i);
    ServedIsPrefix(s, pops, q.id, n * q.weight);
  }

  lemma ServedIsPrefix(s: Sched, n: nat, id: JobId, k: nat)
    requires Valid(s) && k <= |ItemsOf(s.queues, id)|
    requires ItemsOf(After(s, n).queues, id) == ItemsOf(s.queues, id)[k..]
    ensures Served(s, PopTimes(n), id) == ItemsOf(s.queues, id)[..k]
  {
    var used := set k | 0 <= k < |s.queues| :: s.queues[k].id;
    PopsAddNothing(used, n, id);
    PopsDropNothing(s, n, id);
    ConservationFrom(s, used, PopTimes(n), id);
    var items, served := ItemsOf(s.queues, id), Served(s, PopTimes(n), id);
    assert items + [] == items && served + [] == served;
    assert items == served + items[k..];
    assert |served| == k;
  }

  lemma {:induction false} OwnItems(qs: seq<Queue>, i: nat)
    requires ValidQueues(qs) && i < |qs|
    ensures ItemsOf(qs, qs[i].id) == qs[i].items
  {
    if i > 0 {
      ValidTail(qs);
      assert InTurn(qs[0], qs[i]);
      OwnItems(qs[1..], i - 1);
    }
  }

  // ---------------------------------------------------------------- the wait is exact

  /** One pop with every queue holding items: it serves the job exactly when its rank is zero. */
  lemma StepTowards(s: Sched, id: JobId)
    requires Valid(s) && Has(s.queues, id)
    requires forall i :: 0 <= i < |s.queues| ==> s.queues[i].items != []
    ensures Valid(Pop(s).sched) && Has(Pop(s).sched.queues, id) && Pop(s).got.Some?
    ensures Pop(s).got.value.0 == id <==> Rank(s.queues, id) == 0
    ensures Rank(s.queues, id) > 0 ==> Rank(Pop(s).sched.queues, id) == Rank(s.queues, id) - 1
    ensures |Pop(s).sched.queues| == |s.queues|
    ensures forall i :: 0 <= i < |s.queues| ==> |Pop(s).sched.queues[i].items| >= |s.queues[i].items| - 1
  {
    NothingDrained(s.queues);
    StepValid(s);
    RoundTowards(s.queues, id);
  }

  /** The pop takes the first ready queue of the round, and leaves a valid scheduler. */
  lemma StepValid(s: Sched)
    requires Valid(s) && s.queues != [] && Undrained(s.queues) == s.queues
    ensures Valid(Pop(s).sched)
    ensures var qs := NewRound(s.queues);
            FirstReady(qs) < |qs| == |s.queues| && Pop(s) == TakeAt(qs, s.pending, FirstReady(qs))
    ensures forall i :: 0 <= i < |s.queues| ==> NewRound(s.queues)[i].items == s.queues[i].items
  {
    PopServesTheRound(s);
    PopEffect(s);
  }

  lemma RoundTowards(live: seq<Queue>, id: JobId)
    requires ValidQueues(live) && Has(live, id) && FirstReady(NewRound(live)) < |NewRound(live)|
    requires forall i :: 0 <= i < |live| ==> live[i].items != []
    ensures var qs := NewRound(live); var i := FirstReady(qs); var r := qs[i := Take(qs[i])];
            && Has(r, id)
            && (qs[i].id == id <==> Rank(live, id) == 0)
            && (Rank(live, id) > 0 ==> Rank(r, id) == Rank(live, id) - 1)
  {
    NewRoundEffect(live);
    NewRoundRank(live, id);
    ServeTowards(NewRound(live), id);
  }

  /** Serving the first ready queue: it is the job's own exactly when nobody ranks before it. */
  lemma ServeTowards(qs: seq<Queue>, id: JobId)
    requires ValidQueues(qs) && Has(qs, id) && FirstReady(qs) < |qs|
    requires forall k :: 0 <= k < |qs| ==> qs[k].items != []
    ensures var i := FirstReady(qs); var r := qs[i := Take(qs[i])];
            && Has(r, id)
            && (qs[i].id == id <==> Rank(qs, id) == 0)
            && (Rank(qs, id) > 0 ==> Rank(r, id) == Rank(qs, id) - 1)
  {
    var i := FirstReady(qs);
    ServeValid(qs);
    ServeSums(qs, i, id);
    OwnCredit(qs, i);
    RankBound(qs, id);
    RankBound(qs[i := Take(qs[i])], id);
  }

  /**
   The waiting rank is attained: while no queue runs dry, the job's first item is handed out
   by pop number rank + 1 and by none before it.
   */
  lemma {:induction false} WaitIsExact(s: Sched, id: JobId)
    requires Valid(s) && Has(s.queues, id)
    requires forall i :: 0 <= i < |s.queues| ==> |s.queues[i].items| > Rank(s.queues, id)
    ensures Rank(s.queues, id) >= 0
    ensures Served(s, PopTimes(Rank(s.queues, id)), id) == []
    ensures |Served(s, PopTimes(Rank(s.queues, id) + 1), id)| == 1
    decreases Rank(s.queues, id)
  {
    var n := Rank(s.queues, id);
    RankBound(s.queues, id);
    forall i | 0 <= i < |s.queues| ensures s.queues[i].items != [] { assert |s.queues[i].items| > 0; }
    StepTowards(s, id);
    assert PopTimes(n + 1)[1..] == PopTimes(n);
    if n > 0 {
      assert PopTimes(n)[1..] == PopTimes(n - 1);
      WaitIsExact(Pop(s).sched, id);
    }
  }
}
