/**
 The scheduler object: the dictionary of queues and the pending counter, changed in place.
 The queues are kept in a sequence, in the dictionary's insertion order.
 */
module Scheduler {
  import opened Models
  import opened SchedulerSpec

  lemma {:induction false} UndrainedSnoc(qs: seq<Queue>, q: Queue)
    ensures Undrained(qs + [q]) == Undrained(qs) + (if q.items == [] then [] else [q])
  {
    if qs != [] {
      assert (qs + [q])[1..] == qs[1..] + [q];
      UndrainedSnoc(qs[1..], q);
    }
  }

  lemma {:induction false} AbsentHasNoItems(qs: seq<Queue>, id: JobId, i: nat)
    requires i <= |qs| && forall k :: 0 <= k < i ==> qs[k].id != id
    ensures ItemsOf(qs, id) == ItemsOf(qs[i..], id)
    ensures Without(qs, id) == qs[..i] + Without(qs[i..], id)
  {
    if i > 0 {
      assert qs[0].id != id;
      assert forall k :: 0 <= k < |qs[1..]| ==> qs[1..][k] == qs[k + 1];
      AbsentHasNoItems(qs[1..], id, i - 1);
      assert qs[1..][i - 1..] == qs[i..];
      var left := Without(qs[i..], id);
      assert qs[..i] == [qs[0]] + qs[1..][..i - 1];
      assert qs[..i] + left == [qs[0]] + (qs[1..][..i - 1] + left);
    } else {
      assert qs[0..] == qs && qs[..0] == [];
      assert [] + Without(qs, id) == Without(qs, id);
    }
  }

  /** Assigning to a dictionary entry: in its place if it is there, else at the end. */
  lemma {:induction false} PutAt(qs: seq<Queue>, q: Queue, i: nat)
    requires i <= |qs| && (i < |qs| ==> qs[i].id == q.id) && forall k :: 0 <= k < i ==> qs[k].id != q.id
    ensures Put(qs, q) == if i < |qs| then qs[i := q] else qs + [q]
  {
    if i > 0 {
      assert qs[0].id != q.id;
      assert forall k :: 0 <= k < |qs[1..]| ==> qs[1..][k] == qs[k + 1];
      PutAt(qs[1..], q, i - 1);
      if i < |qs| {
        assert qs[i := q] == [qs[0]] + qs[1..][i - 1 := q];
      } else {
        assert qs + [q] == [qs[0]] + (qs[1..] + [q]);
      }
    } else if qs != [] {
      assert qs[0 := q] == [q] + qs[1..];
    }
  }

  class FairScheduler {
    var queues: seq<Queue>
    var pending: int

    ghost function View(): Sched
      reads this
    {
      Sched(queues, pending)
    }

    constructor ()
      ensures View() == EMPTY
    {
      queues, pending := [], 0;
    }

    /** Position of a job's queue, or the number of queues. */
    method Find(id: JobId) returns (i: nat)
      ensures i <= |queues|
      ensures i < |queues| ==> queues[i].id == id
      ensures forall k :: 0 <= k < i ==> queues[k].id != id
    {
      i := 0;
      while i < |queues| && queues[i].id != id
        invariant i <= |queues|
        invariant forall k :: 0 <= k < i ==> queues[k].id != id
      {
        i := i + 1;
      }
    }

    method Add(id: JobId, items: seq<WorkItem>, priority: Priority)
      modifies this
      ensures View() == AddJob(old(View()), id, items, priority)
    {
      var weight := WeightOf(priority);
      var q := Queue(id, weight, items, weight);
      var i := Find(id);
      PutAt(queues, q, i);
      if i < |queues| {
        queues := queues[i := q];
      } else {
        queues := queues + [q];
      }
      pending := pending + |items|;
    }

    method Remove(id: JobId) returns (removed: nat)
      modifies this
      ensures removed == |ItemsOf(old(queues), id)|
      ensures View() == RemoveJob(old(View()), id)
    {
      var i := Find(id);
      AbsentHasNoItems(queues, id, i);
      if i == |queues| {
        return 0;
      }
      removed := |queues[i].items|;
      assert queues[i..][1..] == queues[i + 1..];
      queues := queues[..i] + queues[i + 1..];
      pending := pending - removed;
    }

    /** Delete the queues that have run out of items. */
    method DropDrained()
      modifies this`queues
      ensures queues == Undrained(old(queues))
    {
      var live := [];
      for i := 0 to |queues|
        invariant queues == old(queues)
        invariant live == Undrained(queues[..i])
      {
        UndrainedSnoc(queues[..i], queues[i]);
        assert queues[..i + 1] == queues[..i] + [queues[i]];
        if queues[i].items != [] {
          live := live + [queues[i]];
        }
      }
      assert queues[..|queues|] == queues;
      queues := live;
    }

    method ResetAll()
      modifies this`queues
      ensures queues == ResetCredits(old(queues))
    {
      for i := 0 to |queues|
        invariant |queues| == |old(queues)|
        invariant forall k :: 0 <= k < i ==> queues[k] == old(queues)[k].(credit := old(queues)[k].weight)
        invariant forall k :: i <= k < |queues| ==> queues[k] == old(queues)[k]
      {
        queues := queues[i := queues[i].(credit := queues[i].weight)];
      }
    }

    /** Charge the queue one credit, hand out its first item and count it off. */
    method ServeFrom(i: nat) returns (job: JobId, item: WorkItem)
      requires i < |queues| && queues[i].items != []
      modifies this
      ensures Popped(View(), Some((job, item))) == TakeAt(old(queues), old(pending), i)
    {
      job, item := queues[i].id, queues[i].items[0];
      queues := queues[i := queues[i].(credit := queues[i].credit - 1, items := queues[i].items[1..])];
      pending := pending - 1;
    }

    /** When nobody has credit left for this round, start a new one. */
    method StartRound()
      modifies this`queues
      ensures queues == NewRound(old(queues))
    {
      var credit := false;
      for i := 0 to |queues|
        invariant credit <==> exists k :: 0 <= k < i && queues[k].credit > 0
      {
        credit := credit || queues[i].credit > 0;
      }
      if !credit {
        ResetAll();
      }
    }

    /** The service loop: the first queue with credit and items. */
    method ServeReady() returns (got: Option<(JobId, WorkItem)>)
      modifies this
      ensures var i := FirstReady(old(queues));
              if i < |old(queues)| then Popped(View(), got) == TakeAt(old(queues), old(pending), i)
              else View() == old(View()) && got == None
    {
      var i := 0;
      while i < |queues|
        invariant i <= |queues|
        invariant forall k :: 0 <= k < i ==> !Ready(queues[k])
      {
        if queues[i].credit > 0 && queues[i].items != [] {
          assert i == FirstReady(queues);
          var job, item := ServeFrom(i);
          return Some((job, item));
        }
        i := i + 1;
      }
      return None;
    }

    /** The code after the service loop: reset everybody and serve any queue with items. */
    method ServeAfterReset() returns (got: Option<(JobId, WorkItem)>)
      modifies this
      ensures Popped(View(), got) == Retry(old(queues), old(pending))
    {
      ResetAll();
      var i := 0;
      while i < |queues|
        invariant i <= |queues|
        invariant forall k :: 0 <= k < i ==> queues[k].items == []
      {
        if queues[i].items != [] {
          assert i == FirstHolding(queues);
          var job, item := ServeFrom(i);
          return Some((job, item));
        }
        i := i + 1;
      }
      return None;
    }

    method Pop() returns (got: Option<(JobId, WorkItem)>)
      modifies this
      ensures Popped(View(), got) == SchedulerSpec.Pop(old(View()))
    {
      DropDrained();
      if queues == [] {
        return None;
      }
      StartRound();
      got := ServeReady();
      if got == None {
        got := ServeAfterReset();
      }
    }

    method JobPending(id: JobId) returns (n: nat)
      ensures n == |ItemsOf(queues, id)|
    {
      var i := Find(id);
      AbsentHasNoItems(queues, id, i);
      n := if i < |queues| then |queues[i].items| else 0;
    }
  }
}
