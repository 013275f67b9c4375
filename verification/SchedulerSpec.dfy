/**
 Weighted round-robin with credits, on values. A scheduler is the insertion-ordered list of
 its job queues together with the count of pending items.
 */
module SchedulerSpec {
  import opened Models

  datatype Queue = Queue(id: JobId, weight: int, items: seq<WorkItem>, credit: int)

  datatype Sched = Sched(queues: seq<Queue>, pending: int)

  const EMPTY := Sched([], 0)

  function WeightOf(p: Priority): (w: int)
    ensures 1 <= w <= 4
  {
    match p
    case High => 4
    case Normal => 2
    case Low => 1
  }

  // ---------------------------------------------------------------- views

  predicate Has(qs: seq<Queue>, id: JobId) {
    exists i :: 0 <= i < |qs| && qs[i].id == id
  }

  /** The items waiting for a job; empty when the job has no queue. */
  function ItemsOf(qs: seq<Queue>, id: JobId): seq<WorkItem> {
    if qs == [] then [] else if qs[0].id == id then qs[0].items else ItemsOf(qs[1..], id)
  }

  function TotalItems(qs: seq<Queue>): nat {
    if qs == [] then 0 else |qs[0].items| + TotalItems(qs[1..])
  }

  // ---------------------------------------------------------------- invariant

  predicate QueueOk(q: Queue) {
    q.weight >= 1 && 0 <= q.credit <= q.weight
  }

  /** `a` stands before `b`: different jobs, and while `a` has credit, `b` is untouched this round. */
  predicate InTurn(a: Queue, b: Queue) {
    a.id != b.id && (a.credit > 0 ==> b.credit == b.weight)
  }

  /**
   The round invariant: read in dictionary order, credits are zero up to some queue,
   anything at that queue, and the full weight after it.
   */
  predicate ValidQueues(qs: seq<Queue>) {
    && (forall i :: 0 <= i < |qs| ==> QueueOk(qs[i]))
    && (forall i, j :: 0 <= i < j < |qs| ==> InTurn(qs[i], qs[j]))
  }

  predicate Valid(s: Sched) {
    ValidQueues(s.queues) && s.pending == TotalItems(s.queues)
  }

  // ---------------------------------------------------------------- operations

  function Put(qs: seq<Queue>, q: Queue): seq<Queue> {
    if qs == [] then [q]
    else if qs[0].id == q.id then [q] + qs[1..]
    else [qs[0]] + Put(qs[1..], q)
  }

  /** Assigning to the dictionary: a known id keeps its place and loses its old queue. */
  function AddJob(s: Sched, id: JobId, items: seq<WorkItem>, p: Priority): Sched {
    Sched(Put(s.queues, Queue(id, WeightOf(p), items, WeightOf(p))), s.pending + |items|)
  }

  function Without(qs: seq<Queue>, id: JobId): seq<Queue> {
    if qs == [] then []
    else if qs[0].id == id then qs[1..]
    else [qs[0]] + Without(qs[1..], id)
  }

  function RemoveJob(s: Sched, id: JobId): Sched {
    Sched(Without(s.queues, id), s.pending - |ItemsOf(s.queues, id)|)
  }

  /** The queues that still hold items. */
  function Undrained(qs: seq<Queue>): seq<Queue> {
    if qs == [] then []
    else (if qs[0].items == [] then [] else [qs[0]]) + Undrained(qs[1..])
  }

  predicate AnyCredit(qs: seq<Queue>) {
    exists i :: 0 <= i < |qs| && qs[i].credit > 0
  }

  function ResetCredits(qs: seq<Queue>): (r: seq<Queue>)
    ensures |r| == |qs|
    ensures forall i :: 0 <= i < |qs| ==> r[i] == qs[i].(credit := qs[i].weight)
  {
    if qs == [] then [] else [qs[0].(credit := qs[0].weight)] + ResetCredits(qs[1..])
  }

  /** A new round starts when nobody has credit left. */
  function NewRound(qs: seq<Queue>): seq<Queue> {
    if AnyCredit(qs) then qs else ResetCredits(qs)
  }

  predicate Ready(q: Queue) {
    q.credit > 0 && q.items != []
  }

  function Take(q: Queue): Queue
    requires q.items != []
  {
    q.(credit := q.credit - 1, items := q.items[1..])
  }

  /** Index of the first queue with credit and items; |qs| when there is none. */
  function FirstReady(qs: seq<Queue>): (i: nat)
    ensures i <= |qs|
    ensures i < |qs| ==> Ready(qs[i])
    ensures forall k :: 0 <= k < i ==> !Ready(qs[k])
  {
    if qs == [] then 0 else if Ready(qs[0]) then 0 else 1 + FirstReady(qs[1..])
  }

  /** Index of the first queue with items; |qs| when there is none. */
  function FirstHolding(qs: seq<Queue>): (i: nat)
    ensures i <= |qs|
    ensures i < |qs| ==> qs[i].items != []
    ensures forall k :: 0 <= k < i ==> qs[k].items == []
  {
    if qs == [] then 0 else if qs[0].items != [] then 0 else 1 + FirstHolding(qs[1..])
  }

  datatype Popped = Popped(sched: Sched, got: Option<(JobId, WorkItem)>)

  function TakeAt(qs: seq<Queue>, pending: int, i: nat): Popped
    requires i < |qs| && qs[i].items != []
  {
    Popped(Sched(qs[i := Take(qs[i])], pending - 1), Some((qs[i].id, qs[i].items[0])))
  }

  /** The code after the service loop of `pop`: reset everybody once more and retry. */
  function Retry(qs: seq<Queue>, pending: int): Popped {
    var again := ResetCredits(qs);
    var i := FirstHolding(again);
    if i < |again| then TakeAt(again, pending, i) else Popped(Sched(again, pending), None)
  }

  function Pop(s: Sched): Popped {
    var live := Undrained(s.queues);
    if live == [] then Popped(Sched([], s.pending), None)
    else
      var qs := NewRound(live);
      var i := FirstReady(qs);
      if i < |qs| then TakeAt(qs, s.pending, i) else Retry(qs, s.pending)
  }

  // ---------------------------------------------------------------- adding

  lemma {:induction false} PutAppends(qs: seq<Queue>, q: Queue)
    requires !Has(qs, q.id)
    ensures Put(qs, q) == qs + [q]
  {
    if qs != [] {
      assert qs[0].id != q.id;
      assert !Has(qs[1..], q.id) by {
        forall i | 0 <= i < |qs[1..]| ensures qs[1..][i].id != q.id { assert qs[1..][i] == qs[i + 1]; }
      }
      PutAppends(qs[1..], q);
    }
  }

  lemma {:induction false} PutItems(qs: seq<Queue>, q: Queue, id: JobId)
    ensures ItemsOf(Put(qs, q), id) == if id == q.id then q.items else ItemsOf(qs, id)
  {
    if qs != [] && qs[0].id != q.id {
      PutItems(qs[1..], q, id);
      assert Put(qs, q)[1..] == Put(qs[1..], q);
    } else if qs != [] {
      assert Put(qs, q)[1..] == qs[1..];
    }
  }

  lemma {:induction false} PutTotal(qs: seq<Queue>, q: Queue)
    ensures TotalItems(Put(qs, q)) == TotalItems(qs) - |ItemsOf(qs, q.id)| + |q.items|
  {
    if qs != [] && qs[0].id != q.id {
      PutTotal(qs[1..], q);
      assert Put(qs, q)[1..] == Put(qs[1..], q);
    } else if qs != [] {
      assert Put(qs, q)[1..] == qs[1..];
    }
  }

  /**
   Adding keeps the pending count exact precisely when the id has nothing queued: re-adding
   a job with items waiting overwrites them and leaves the count too high.
   */
  lemma AddCountsExactlyWhenIdle(s: Sched, id: JobId, items: seq<WorkItem>, p: Priority)
    requires s.pending == TotalItems(s.queues)
    ensures AddJob(s, id, items, p).pending == TotalItems(AddJob(s, id, items, p).queues)
            <==> ItemsOf(s.queues, id) == []
    ensures AddJob(s, id, items, p).pending
            == TotalItems(AddJob(s, id, items, p).queues) + |ItemsOf(s.queues, id)|
  {
    PutTotal(s.queues, Queue(id, WeightOf(p), items, WeightOf(p)));
  }

  /** Adding a job of one item twice: one item is queued, two are counted. */
  lemma ReaddExample(item: WorkItem)
    ensures var s := AddJob(AddJob(EMPTY, "a", [item], Low), "a", [item], Low);
            s.pending == 2 && TotalItems(s.queues) == 1
  {
    var once := AddJob(EMPTY, "a", [item], Low);
    AddCountsExactlyWhenIdle(EMPTY, "a", [item], Low);
    AddCountsExactlyWhenIdle(once, "a", [item], Low);
    assert once.queues == [Queue("a", 1, [item], 1)];
    assert ItemsOf(once.queues, "a") == [item];
  }

  lemma AddFresh(s: Sched, id: JobId, items: seq<WorkItem>, p: Priority)
    requires Valid(s) && !Has(s.queues, id)
    ensures Valid(AddJob(s, id, items, p))
    ensures AddJob(s, id, items, p).queues == s.queues + [Queue(id, WeightOf(p), items, WeightOf(p))]
    ensures forall other :: ItemsOf(AddJob(s, id, items, p).queues, other)
                            == if other == id then items else ItemsOf(s.queues, other)
  {
    var q := Queue(id, WeightOf(p), items, WeightOf(p));
    PutAppends(s.queues, q);
    PutTotal(s.queues, q);
    NothingQueued(s.queues, id);
    forall other ensures ItemsOf(Put(s.queues, q), other)
                         == if other == id then items else ItemsOf(s.queues, other) {
      PutItems(s.queues, q, other);
    }
  }

  lemma {:induction false} NothingQueued(qs: seq<Queue>, id: JobId)
    requires !Has(qs, id)
    ensures ItemsOf(qs, id) == []
  {
    if qs != [] {
      assert qs[0].id != id;
      assert !Has(qs[1..], id) by {
        forall i | 0 <= i < |qs[1..]| ensures qs[1..][i].id != id { assert qs[1..][i] == qs[i + 1]; }
      }
      NothingQueued(qs[1..], id);
    }
  }

  // ---------------------------------------------------------------- dropping queues

  lemma {:induction false} ValidTail(qs: seq<Queue>)
    requires ValidQueues(qs) && qs != []
    ensures ValidQueues(qs[1..])
    ensures !Has(qs[1..], qs[0].id)
    ensures ItemsOf(qs[1..], qs[0].id) == []
  {
    assert forall i :: 0 <= i < |qs[1..]| ==> qs[1..][i] == qs[i + 1];
    forall i | 0 <= i < |qs[1..]| ensures qs[1..][i].id != qs[0].id { assert InTurn(qs[0], qs[i + 1]); }
    NothingQueued(qs[1..], qs[0].id);
  }

  /** Prepending a queue to a list drawn from its old tail keeps the invariant. */
  lemma ValidCons(q: Queue, tail: seq<Queue>, rest: seq<Queue>)
    requires ValidQueues([q] + tail) && ValidQueues(rest)
    requires forall x :: x in rest ==> x in tail
    ensures ValidQueues([q] + rest)
  {
    var qs := [q] + rest;
    forall i, j | 0 <= i < j < |qs| ensures InTurn(qs[i], qs[j]) {
      if i == 0 {
        assert rest[j - 1] in tail;
        var k :| 0 <= k < |tail| && tail[k] == rest[j - 1];
        assert ([q] + tail)[0] == q && ([q] + tail)[k + 1] == tail[k];
      } else {
        assert InTurn(rest[i - 1], rest[j - 1]);
      }
    }
    assert QueueOk(([q] + tail)[0]);
  }

  lemma {:induction false} RemoveEffect(qs: seq<Queue>, id: JobId)
    requires ValidQueues(qs)
    ensures ValidQueues(Without(qs, id)) && !Has(Without(qs, id), id)
    ensures forall q :: q in Without(qs, id) ==> q in qs
    ensures TotalItems(Without(qs, id)) == TotalItems(qs) - |ItemsOf(qs, id)|
    ensures forall other :: ItemsOf(Without(qs, id), other)
                            == if other == id then [] else ItemsOf(qs, other)
  {
    if qs != [] {
      ValidTail(qs);
      assert qs == [qs[0]] + qs[1..];
      if qs[0].id != id {
        RemoveEffect(qs[1..], id);
        var rest := Without(qs[1..], id);
        assert Without(qs, id) == [qs[0]] + rest && Without(qs, id)[1..] == rest;
        ValidCons(qs[0], qs[1..], rest);
        forall i | 0 <= i < |Without(qs, id)| ensures Without(qs, id)[i].id != id {
          if i > 0 { assert rest[i - 1] == Without(qs, id)[i]; }
        }
      }
    }
  }

  lemma {:induction false} UndrainedEffect(qs: seq<Queue>)
    requires ValidQueues(qs)
    ensures ValidQueues(Undrained(qs))
    ensures forall q :: q in Undrained(qs) ==> q in qs && q.items != []
    ensures TotalItems(Undrained(qs)) == TotalItems(qs)
    ensures forall id :: ItemsOf(Undrained(qs), id) == ItemsOf(qs, id)
    ensures Undrained(qs) == [] <==> TotalItems(qs) == 0
  {
    if qs != [] {
      ValidTail(qs);
      UndrainedEffect(qs[1..]);
      assert qs == [qs[0]] + qs[1..];
      var rest := Undrained(qs[1..]);
      if qs[0].items == [] {
        assert Undrained(qs) == rest;
      } else {
        assert Undrained(qs) == [qs[0]] + rest && Undrained(qs)[1..] == rest;
        ValidCons(qs[0], qs[1..], rest);
      }
    }
  }

  // ---------------------------------------------------------------- starting a round

  lemma {:induction false} ResetEffect(qs: seq<Queue>)
    requires ValidQueues(qs)
    ensures ValidQueues(ResetCredits(qs))
    ensures TotalItems(ResetCredits(qs)) == TotalItems(qs)
    ensures forall id :: ItemsOf(ResetCredits(qs), id) == ItemsOf(qs, id)
  {
    if qs != [] {
      ValidTail(qs);
      ResetEffect(qs[1..]);
      assert ResetCredits(qs)[1..] == ResetCredits(qs[1..]);
      var r := ResetCredits(qs);
      forall i, j | 0 <= i < j < |r| ensures InTurn(r[i], r[j]) { assert InTurn(qs[i], qs[j]); }
      forall i | 0 <= i < |r| ensures QueueOk(r[i]) { assert QueueOk(qs[i]); }
    }
  }

  lemma NewRoundEffect(qs: seq<Queue>)
    requires ValidQueues(qs)
    ensures ValidQueues(NewRound(qs))
    ensures TotalItems(NewRound(qs)) == TotalItems(qs)
    ensures forall id :: ItemsOf(NewRound(qs), id) == ItemsOf(qs, id)
    ensures qs != [] ==> AnyCredit(NewRound(qs))
  {
    if !AnyCredit(qs) {
      ResetEffect(qs);
      if qs != [] { assert QueueOk(qs[0]) && ResetCredits(qs)[0].credit > 0; }
    }
  }

  // ---------------------------------------------------------------- serving

  lemma {:induction false} ServeContents(qs: seq<Queue>, i: nat, id: JobId)
    requires ValidQueues(qs) && i < |qs| && qs[i].items != []
    ensures TotalItems(qs[i := Take(qs[i])]) == TotalItems(qs) - 1
    ensures ItemsOf(qs, qs[i].id) == qs[i].items
    ensures ItemsOf(qs[i := Take(qs[i])], id)
            == if id == qs[i].id then qs[i].items[1..] else ItemsOf(qs, id)
  {
    ValidTail(qs);
    if i == 0 {
      assert qs[0 := Take(qs[0])][1..] == qs[1..];
    } else {
      assert InTurn(qs[0], qs[i]);
      ServeContents(qs[1..], i - 1, id);
      assert qs[i := Take(qs[i])][1..] == qs[1..][i - 1 := Take(qs[i])];
    }
  }

  lemma ServeValid(qs: seq<Queue>)
    requires ValidQueues(qs) && FirstReady(qs) < |qs|
    requires forall k :: 0 <= k < |qs| ==> qs[k].items != []
    ensures var i := FirstReady(qs); ValidQueues(qs[i := Take(qs[i])])
    ensures forall k :: 0 <= k < FirstReady(qs) ==> qs[k].credit == 0
  {
    var i := FirstReady(qs);
    var r := qs[i := Take(qs[i])];
    forall k | 0 <= k < i ensures qs[k].credit == 0 { assert !Ready(qs[k]) && QueueOk(qs[k]); }
    forall a, b | 0 <= a < b < |r| ensures InTurn(r[a], r[b]) { assert InTurn(qs[a], qs[b]); }
    forall a | 0 <= a < |r| ensures QueueOk(r[a]) { assert QueueOk(qs[a]); }
  }

  /** The queues a pop serves from: drained ones dropped, a round started if needed. */
  function Round(s: Sched): seq<Queue> {
    NewRound(Undrained(s.queues))
  }

  /**
   With weights of at least one, the service loop always finds a queue: the code after it
   is unreachable.
   */
  lemma PopServesTheRound(s: Sched)
    requires ValidQueues(s.queues) && Undrained(s.queues) != []
    ensures ValidQueues(Round(s))
    ensures FirstReady(Round(s)) < |Round(s)|
    ensures Pop(s) == TakeAt(Round(s), s.pending, FirstReady(Round(s)))
    ensures forall k :: 0 <= k < |Round(s)| ==> Round(s)[k].items != []
  {
    UndrainedEffect(s.queues);
    var live := Undrained(s.queues);
    NewRoundEffect(live);
    forall k | 0 <= k < |Round(s)| ensures Round(s)[k].items != [] {
      assert live[k] in live;
    }
    var k :| 0 <= k < |Round(s)| && Round(s)[k].credit > 0;
    assert Ready(Round(s)[k]);
  }

  /** What one pop does to every job's items, to the count and to the invariant. */
  lemma PopEffect(s: Sched)
    requires Valid(s)
    ensures Valid(Pop(s).sched)
    ensures Pop(s).got == None <==> s.pending == 0
    ensures Pop(s).got == None ==>
              Pop(s).sched == EMPTY && forall id :: ItemsOf(s.queues, id) == []
    ensures Pop(s).got.Some? ==>
              var (job, item) := Pop(s).got.value;
              && Pop(s).sched.pending == s.pending - 1
              && ItemsOf(s.queues, job) == [item] + ItemsOf(Pop(s).sched.queues, job)
              && forall id :: id != job ==> ItemsOf(Pop(s).sched.queues, id) == ItemsOf(s.queues, id)
  {
    UndrainedEffect(s.queues);
    if Undrained(s.queues) != [] {
      PopServesTheRound(s);
      NewRoundEffect(Undrained(s.queues));
      var qs := Round(s);
      var i := FirstReady(qs);
      ServeValid(qs);
      forall id ensures ItemsOf(qs[i := Take(qs[i])], id)
                        == if id == qs[i].id then qs[i].items[1..] else ItemsOf(s.queues, id) {
        ServeContents(qs, i, id);
      }
      ServeContents(qs, i, qs[i].id);
      assert [qs[i].items[0]] + qs[i].items[1..] == qs[i].items;
    } else {
      forall id ensures ItemsOf(s.queues, id) == [] { assert ItemsOf(Undrained(s.queues), id) == []; }
    }
  }
}
