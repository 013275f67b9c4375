/**
 Histories of scheduler operations: what every sequence of adds, removals and pops keeps.
 */
module SchedulerRuns {
  import opened Models
  import opened SchedulerSpec

  datatype Op = Add(id: JobId, items: seq<WorkItem>, priority: Priority) | Remove(id: JobId) | PopNext

  function Apply(s: Sched, op: Op): Sched {
    match op
    case Add(id, items, p) => AddJob(s, id, items, p)
    case Remove(id) => RemoveJob(s, id)
    case PopNext => Pop(s).sched
  }

  function Run(s: Sched, ops: seq<Op>): Sched
    decreases |ops|
  {
    if ops == [] then s else Run(Apply(s, ops[0]), ops[1..])
  }

  /** Job ids are generated afresh: no id in `used` is added, and none is added twice. */
  predicate FreshAdds(used: set<JobId>, ops: seq<Op>)
    decreases |ops|
  {
    ops == [] ||
    if ops[0].Add? then ops[0].id !in used && FreshAdds(used + {ops[0].id}, ops[1..])
    else FreshAdds(used, ops[1..])
  }

  /** Everything submitted for a job, in order. */
  function Submitted(ops: seq<Op>, id: JobId): seq<WorkItem> {
    if ops == [] then []
    else (if ops[0].Add? && ops[0].id == id then ops[0].items else []) + Submitted(ops[1..], id)
  }

  /** The items one operation hands out for a job. */
  function ServedNow(s: Sched, op: Op, id: JobId): seq<WorkItem> {
    if op.PopNext? && Pop(s).got.Some? && Pop(s).got.value.0 == id then [Pop(s).got.value.1] else []
  }

  /** The items handed out for a job along a run, in the order of the pops. */
  function Served(s: Sched, ops: seq<Op>, id: JobId): seq<WorkItem>
    decreases |ops|
  {
    if ops == [] then [] else ServedNow(s, ops[0], id) + Served(Apply(s, ops[0]), ops[1..], id)
  }

  /** The items of a job thrown away by removals. */
  function Dropped(s: Sched, ops: seq<Op>, id: JobId): seq<WorkItem>
    decreases |ops|
  {
    if ops == [] then []
    else
      (if ops[0].Remove? && ops[0].id == id then ItemsOf(s.queues, id) else [])
      + Dropped(Apply(s, ops[0]), ops[1..], id)
  }

  /** Every queue belongs to an id already used. */
  predicate QueuesUsed(s: Sched, used: set<JobId>) {
    forall i :: 0 <= i < |s.queues| ==> s.queues[i].id in used
  }

  /** An operation's account of a job's items: what was there and came is served, dropped or still there. */
  predicate Accounted(s: Sched, op: Op, id: JobId) {
    (if op.Add? && op.id == id then op.items else []) + ItemsOf(s.queues, id)
    == ServedNow(s, op, id)
       + (if op.Remove? && op.id == id then ItemsOf(s.queues, id) else [])
       + ItemsOf(Apply(s, op).queues, id)
  }

  lemma ApplyKeeps(s: Sched, used: set<JobId>, op: Op)
    requires Valid(s) && QueuesUsed(s, used)
    requires op.Add? ==> op.id !in used
    ensures Valid(Apply(s, op))
    ensures QueuesUsed(Apply(s, op), if op.Add? then used + {op.id} else used)
    ensures forall id :: Accounted(s, op, id)
  {
    match op
    case Add(id, items, p) => AddKeeps(s, used, id, items, p);
    case Remove(id) => RemoveKeeps(s, used, id);
    case PopNext => PopKeeps(s, used);
  }

  lemma AddKeeps(s: Sched, used: set<JobId>, id: JobId, items: seq<WorkItem>, p: Priority)
    requires Valid(s) && QueuesUsed(s, used) && id !in used
    ensures Valid(AddJob(s, id, items, p)) && QueuesUsed(AddJob(s, id, items, p), used + {id})
    ensures forall j :: Accounted(s, Add(id, items, p), j)
  {
    assert !Has(s.queues, id);
    AddFresh(s, id, items, p);
    NothingQueued(s.queues, id);
  }

  lemma RemoveKeeps(s: Sched, used: set<JobId>, id: JobId)
    requires Valid(s) && QueuesUsed(s, used)
    ensures Valid(RemoveJob(s, id)) && QueuesUsed(RemoveJob(s, id), used)
    ensures forall j :: Accounted(s, Remove(id), j)
  {
    RemoveEffect(s.queues, id);
    var left := RemoveJob(s, id).queues;
    forall i | 0 <= i < |left| ensures left[i].id in used { assert left[i] in s.queues; }
  }

  lemma PopKeeps(s: Sched, used: set<JobId>)
    requires Valid(s) && QueuesUsed(s, used)
    ensures Valid(Pop(s).sched) && QueuesUsed(Pop(s).sched, used)
    ensures forall j :: Accounted(s, PopNext, j)
  {
    PopEffect(s);
    PopKeepsIds(s, used);
  }

  lemma PopKeepsIds(s: Sched, used: set<JobId>)
    requires Valid(s) && QueuesUsed(s, used)
    ensures QueuesUsed(Pop(s).sched, used)
  {
    UndrainedEffect(s.queues);
    var live := Undrained(s.queues);
    if live != [] {
      PopServesTheRound(s);
      var r := Pop(s).sched.queues;
      forall i | 0 <= i < |r| ensures r[i].id in used {
        assert live[i] in s.queues && r[i].id == live[i].id;
      }
    }
  }

  /**
   Conservation over every history with fresh ids: the invariant holds, and a job's
   submitted items are, in order, those served, then those dropped, then those queued.
   */
  lemma {:induction false} ConservationFrom(s: Sched, used: set<JobId>, ops: seq<Op>, id: JobId)
    requires Valid(s) && QueuesUsed(s, used) && FreshAdds(used, ops)
    ensures Valid(Run(s, ops))
    ensures id in used ==> Submitted(ops, id) == []
    ensures ItemsOf(s.queues, id) + Submitted(ops, id)
            == Served(s, ops, id) + Dropped(s, ops, id) + ItemsOf(Run(s, ops).queues, id)
    ensures Dropped(s, ops, id) == [] || ItemsOf(Run(s, ops).queues, id) == []
    decreases |ops|
  {
    if ops != [] {
      var op, next := ops[0], Apply(s, ops[0]);
      var used' := if op.Add? then used + {op.id} else used;
      ApplyKeeps(s, used, op);
      assert Accounted(s, op, id);
      ConservationFrom(next, used', ops[1..], id);
      if id !in used {
        assert !Has(s.queues, id);
        NothingQueued(s.queues, id);
      }
      var dropped := if op.Remove? && op.id == id then ItemsOf(s.queues, id) else [];
      var added := if op.Add? && op.id == id then op.items else [];
      if dropped != [] { RemoveEffect(s.queues, id); }
      Chain(ItemsOf(s.queues, id), added, Submitted(ops[1..], id), ServedNow(s, op, id), dropped,
            ItemsOf(next.queues, id), Served(next, ops[1..], id), Dropped(next, ops[1..], id),
            ItemsOf(Run(next, ops[1..]).queues, id));
    }
  }

  /** Gluing the first operation's account of a job to the account of the rest. */
  lemma Chain<T>(have: seq<T>, added: seq<T>, rest: seq<T>, now: seq<T>, dropped: seq<T>,
                 next: seq<T>, later: seq<T>, gone: seq<T>, left: seq<T>)
    requires added + have == now + dropped + next
    requires next + rest == later + gone + left
    requires added == [] || have == []
    requires dropped == [] || (next == [] && rest == [])
    ensures have + (added + rest) == (now + later) + (dropped + gone) + left
    ensures dropped == [] || (gone == [] && left == [])
  {
    assert have + (added + rest) == (added + have) + rest;
    if dropped == [] {
      assert (now + dropped + next) + rest == now + (next + rest);
      assert now + (later + gone + left) == (now + later) + (dropped + gone) + left;
    } else {
      assert |later| == 0 && |gone| == 0 && |left| == 0;
    }
  }

  lemma Conservation(ops: seq<Op>, id: JobId)
    requires FreshAdds({}, ops)
    ensures Valid(Run(EMPTY, ops))
    ensures Submitted(ops, id)
            == Served(EMPTY, ops, id) + Dropped(EMPTY, ops, id) + ItemsOf(Run(EMPTY, ops).queues, id)
    ensures Dropped(EMPTY, ops, id) == [] || ItemsOf(Run(EMPTY, ops).queues, id) == []
    ensures Served(EMPTY, ops, id) <= Submitted(ops, id)
    ensures Pop(Run(EMPTY, ops)).got == None <==> TotalItems(Run(EMPTY, ops).queues) == 0
  {
    ConservationFromIdle(EMPTY, ops, id);
    NothingPendingExactly(Run(EMPTY, ops));
  }

  lemma ConservationFromIdle(s: Sched, ops: seq<Op>, id: JobId)
    requires s.queues == [] && s.pending == 0 && FreshAdds({}, ops)
    ensures Valid(Run(s, ops))
    ensures Submitted(ops, id) == Served(s, ops, id) + Dropped(s, ops, id) + ItemsOf(Run(s, ops).queues, id)
    ensures Dropped(s, ops, id) == [] || ItemsOf(Run(s, ops).queues, id) == []
    ensures Served(s, ops, id) <= Submitted(ops, id)
  {
    ConservationFrom(s, {}, ops, id);
    FirstOfThree(Submitted(ops, id), Served(s, ops, id), Dropped(s, ops, id), ItemsOf(Run(s, ops).queues, id));
  }

  lemma NothingPendingExactly(s: Sched)
    requires Valid(s)
    ensures Pop(s).got == None <==> TotalItems(s.queues) == 0
  {
    PopEffect(s);
  }

  lemma FirstOfThree(all: seq<WorkItem>, a: seq<WorkItem>, b: seq<WorkItem>, c: seq<WorkItem>)
    requires [] + all == a + b + c
    ensures all == a + b + c && a <= all
  {
  }
}
