/**
 Every job in every reachable state: where each of its prompts is, what its counters say, and
 which state it is in.
 */
module EngineJobs {
  import opened Models
  import opened Accounting
  import opened EngineSpec
  import opened EnginePool
  import S = SchedulerSpec
  import G = LimiterSpec

  function Range(n: nat): (r: set<nat>)
    ensures forall k: nat :: k in r <==> k < n
    ensures |r| == n
  {
    if n == 0 then {} else Range(n - 1) + {n - 1}
  }

  lemma SubsetSize(a: set<nat>, b: set<nat>)
    requires a <= b
    ensures |a| <= |b| && (|a| == |b| ==> a == b)
  {
    assert b == a + (b - a);
  }

  predicate Carries(t: Task, id: JobId) {
    t.Busy? && t.job == id
  }

  /** The prompts of a job that workers are holding. */
  function InFlight(ts: seq<Task>, id: JobId): set<nat> {
    set t | 0 <= t < |ts| && Carries(ts[t], id) :: ts[t].item.index
  }

  // ---------------------------------------------------------------- invariant

  predicate ShapeOk(job: Job) {
    && |job.items| == job.total && job.dequeued <= job.total
    && forall k :: 0 <= k < job.total ==> job.items[k].index == k
  }

  /** What the scheduler still holds is the tail of the batch, or nothing once dropped. */
  predicate QueueTail(job: Job, queued: seq<WorkItem>)
    requires ShapeOk(job)
  {
    queued == if job.dropped then [] else job.items[job.dequeued..]
  }

  /** The prompts handed out are, each exactly once, in flight, answered or interrupted. */
  predicate Partition(job: Job, flying: set<nat>) {
    && (forall k :: k in flying ==> k < job.dequeued && k !in job.results && k !in job.lost)
    && (forall k :: k in job.results ==> k < job.dequeued && k !in job.lost)
    && (forall k :: k in job.lost ==> k < job.dequeued)
    && (forall k :: 0 <= k < job.dequeued ==> k in flying || k in job.results || k in job.lost)
  }

  predicate StateOk(job: Job, phase: Phase) {
    && (match job.state
        case Running => !job.dropped && (job.completed < job.total || job.total == 0) && phase != Stopped
        case Completed => !job.dropped && job.completed == job.total > 0
        case Cancelled => job.dropped || phase == Stopped
        case _ => false)
    && (job.lost != {} ==> phase == Stopping || phase == Stopped)
  }

  predicate PlaceOk(job: Job, queued: seq<WorkItem>, flying: set<nat>, phase: Phase) {
    && ShapeOk(job) && QueueTail(job, queued) && Partition(job, flying)
    && StateOk(job, phase) && job.completed == |job.results|
  }

  /** A busy worker holds an item of a known job, and no other worker holds the same one. */
  predicate TaskOk(s: State, t: Task) {
    t.Busy? ==> t.job in s.jobs && t.item.index < |s.jobs[t.job].items| && t.item == s.jobs[t.job].items[t.item.index]
  }

  predicate Apart(a: Task, b: Task) {
    a.Busy? && b.Busy? && a.job == b.job ==> a.item.index != b.item.index
  }

  predicate TasksOk(s: State) {
    && (forall t :: 0 <= t < |s.tasks| ==> TaskOk(s, s.tasks[t]))
    && (forall t, u :: 0 <= t < u < |s.tasks| ==> Apart(s.tasks[t], s.tasks[u]))
  }

  predicate JobAt(s: State, id: JobId)
    requires id in s.jobs
  {
    PlaceOk(s.jobs[id], S.ItemsOf(s.sched.queues, id), InFlight(s.tasks, id), s.phase)
  }

  predicate JobsInv(s: State) {
    TasksOk(s) && forall id :: id in s.jobs ==> JobAt(s, id)
  }

  // ---------------------------------------------------------------- in-flight sets

  lemma FlyingMember(ts: seq<Task>, t: nat)
    requires t < |ts| && ts[t].Busy?
    ensures ts[t].item.index in InFlight(ts, ts[t].job)
  {
    assert Carries(ts[t], ts[t].job);
  }

  /** Changing a task that does not carry the job, into one that does not either. */
  lemma FlyingSame(ts: seq<Task>, t: nat, x: Task, id: JobId)
    requires t < |ts| && !Carries(ts[t], id) && !Carries(x, id)
    ensures InFlight(ts[t := x], id) == InFlight(ts, id)
  {
    var r := ts[t := x];
    forall k | k in InFlight(ts, id) ensures k in InFlight(r, id) {
      var u :| 0 <= u < |ts| && Carries(ts[u], id) && ts[u].item.index == k;
      assert r[u] == ts[u];
    }
    forall k | k in InFlight(r, id) ensures k in InFlight(ts, id) {
      var u :| 0 <= u < |r| && Carries(r[u], id) && r[u].item.index == k;
      assert r[u] == ts[u];
    }
  }

  lemma FlyingKept(ts: seq<Task>, t: nat, x: Task, id: JobId)
    requires t < |ts| && ts[t].Busy? && x.Busy? && x.job == ts[t].job && x.item == ts[t].item
    ensures InFlight(ts[t := x], id) == InFlight(ts, id)
  {
    var r := ts[t := x];
    forall k | k in InFlight(ts, id) ensures k in InFlight(r, id) {
      var u :| 0 <= u < |ts| && Carries(ts[u], id) && ts[u].item.index == k;
      assert Carries(r[u], id) && r[u].item.index == k;
    }
    forall k | k in InFlight(r, id) ensures k in InFlight(ts, id) {
      var u :| 0 <= u < |r| && Carries(r[u], id) && r[u].item.index == k;
      assert Carries(ts[u], id) && ts[u].item.index == k;
    }
  }

  lemma FlyingAdd(ts: seq<Task>, t: nat, x: Task)
    requires t < |ts| && !ts[t].Busy? && x.Busy?
    ensures InFlight(ts[t := x], x.job) == InFlight(ts, x.job) + {x.item.index}
  {
    var r := ts[t := x];
    forall k | k in InFlight(ts, x.job) ensures k in InFlight(r, x.job) {
      var u :| 0 <= u < |ts| && Carries(ts[u], x.job) && ts[u].item.index == k;
      assert r[u] == ts[u];
    }
    assert r[t] == x && Carries(r[t], x.job);
    forall k | k in InFlight(r, x.job) ensures k in InFlight(ts, x.job) + {x.item.index} {
      var u :| 0 <= u < |r| && Carries(r[u], x.job) && r[u].item.index == k;
      if u != t { assert r[u] == ts[u]; }
    }
  }

  lemma FlyingDrop(ts: seq<Task>, t: nat, x: Task)
    requires t < |ts| && ts[t].Busy? && !x.Busy?
    requires forall a, b :: 0 <= a < b < |ts| ==> Apart(ts[a], ts[b])
    ensures InFlight(ts[t := x], ts[t].job) == InFlight(ts, ts[t].job) - {ts[t].item.index}
  {
    var r, id := ts[t := x], ts[t].job;
    forall k | k in InFlight(ts, id) && k != ts[t].item.index ensures k in InFlight(r, id) {
      var u :| 0 <= u < |ts| && Carries(ts[u], id) && ts[u].item.index == k;
      assert r[u] == ts[u];
    }
    forall k | k in InFlight(r, id) ensures k in InFlight(ts, id) && k != ts[t].item.index {
      var u :| 0 <= u < |r| && Carries(r[u], id) && r[u].item.index == k;
      assert r[u] == ts[u];
      if u < t { assert Apart(ts[u], ts[t]); } else { assert Apart(ts[t], ts[u]); }
    }
  }

  lemma FlyingSpawn(ts: seq<Task>, n: nat, id: JobId)
    ensures InFlight(ts + Readies(n), id) == InFlight(ts, id)
  {
    var r := ts + Readies(n);
    forall k | k in InFlight(ts, id) ensures k in InFlight(r, id) {
      var u :| 0 <= u < |ts| && Carries(ts[u], id) && ts[u].item.index == k;
      assert r[u] == ts[u];
    }
    forall k | k in InFlight(r, id) ensures k in InFlight(ts, id) {
      var u :| 0 <= u < |r| && Carries(r[u], id) && r[u].item.index == k;
      assert r[u] == ts[u];
    }
  }

  // ---------------------------------------------------------------- submit and cancel

  lemma InitJobs(c: Settings)
    ensures JobsInv(Init(c))
  {
  }

  lemma NewJobOk(c: Settings, req: Request)
    ensures PlaceOk(NewJob(c, req), WorkItems(req.prompts), {}, Serving)
  {
    assert NewJob(c, req).items[0..] == NewJob(c, req).items;
  }

  lemma SubmitKeepsJobs(c: Settings, s: State, req: Request, id: JobId)
    requires SchedOk(s) && JobsInv(s) && id !in s.jobs && Judge(c, s, req) == Accepted
    ensures JobsInv(EnsureWorkers(c, Register(c, s, req, id)))
  {
    RegisterKeepsSched(c, s, req, id);
    var s' := EnsureWorkers(c, Register(c, s, req, id));
    var n := SpawnCount(c, Sum(Live, s.tasks), Register(c, s, req, id).sched.pending);
    SpawnKeepsTasks(s, s', n);
    NewJobOk(c, req);
    assert InFlight(s.tasks, id) == {} by {
      forall t | 0 <= t < |s.tasks| ensures !Carries(s.tasks[t], id) { assert TaskOk(s, s.tasks[t]); }
    }
    forall j | j in s'.jobs ensures JobAt(s', j) {
      FlyingSpawn(s.tasks, n, j);
      if j != id { assert JobAt(s, j); }
    }
  }

  lemma SpawnKeepsTasks(s: State, s': State, n: nat)
    requires TasksOk(s) && s'.tasks == s.tasks + Readies(n)
    requires forall j :: j in s.jobs ==> j in s'.jobs && s'.jobs[j] == s.jobs[j]
    ensures TasksOk(s')
  {
    forall t | 0 <= t < |s'.tasks| ensures TaskOk(s', s'.tasks[t]) {
      if t < |s.tasks| { assert TaskOk(s, s.tasks[t]); }
    }
    forall t, u | 0 <= t < u < |s'.tasks| ensures Apart(s'.tasks[t], s'.tasks[u]) {
      if u < |s.tasks| { assert Apart(s.tasks[t], s.tasks[u]); }
    }
  }

  /** Steps that touch one job and leave its items alone keep every worker's item. */
  lemma JobUpdateKeepsTasks(s: State, id: JobId, job: Job)
    requires TasksOk(s) && id in s.jobs && job.items == s.jobs[id].items
    ensures TasksOk(s.(jobs := s.jobs[id := job]))
  {
    var s' := s.(jobs := s.jobs[id := job]);
    forall t | 0 <= t < |s'.tasks| ensures TaskOk(s', s'.tasks[t]) { assert TaskOk(s, s.tasks[t]); }
    forall t, u | 0 <= t < u < |s'.tasks| ensures Apart(s'.tasks[t], s'.tasks[u]) { assert Apart(s.tasks[t], s.tasks[u]); }
  }

  lemma CancelKeepsJobs(s: State, id: JobId)
    requires SchedOk(s) && JobsInv(s)
    ensures JobsInv(CancelJob(s, id))
  {
    if id in s.jobs && !Finished(s.jobs[id].state) {
      CancelKeepsSched(s, id);
      DropKeepsJobs(s, CancelJob(s, id), id);
    }
  }

  lemma DropKeepsJobs(s: State, s': State, id: JobId)
    requires JobsInv(s) && id in s.jobs && s'.tasks == s.tasks && s'.phase == s.phase
    requires s'.jobs == s.jobs[id := s.jobs[id].(state := Cancelled, dropped := true)]
    requires forall j :: S.ItemsOf(s'.sched.queues, j) == if j == id then [] else S.ItemsOf(s.sched.queues, j)
    ensures JobsInv(s')
  {
    JobUpdateKeepsTasks(s, id, s'.jobs[id]);
    assert TasksOk(s') by {
      forall t | 0 <= t < |s'.tasks| ensures TaskOk(s', s'.tasks[t]) { assert TaskOk(s.(jobs := s'.jobs), s'.tasks[t]); }
    }
    forall j | j in s'.jobs ensures JobAt(s', j) {
      assert JobAt(s, j);
      if j == id { DroppedOk(s.jobs[id], S.ItemsOf(s.sched.queues, id), InFlight(s.tasks, id), s.phase); }
    }
  }

  lemma DroppedOk(job: Job, queued: seq<WorkItem>, flying: set<nat>, phase: Phase)
    requires PlaceOk(job, queued, flying, phase)
    ensures PlaceOk(job.(state := Cancelled, dropped := true), [], flying, phase)
  {
  }

  // ---------------------------------------------------------------- taking an item

  lemma OneTaskChanged(s: State, t: nat, x: Task)
    requires TasksOk(s) && t < |s.tasks| && !x.Busy?
    ensures TasksOk(s.(tasks := s.tasks[t := x]))
  {
    var r := s.tasks[t := x];
    forall u | 0 <= u < |r| ensures TaskOk(s, r[u]) { assert TaskOk(s, s.tasks[u]); }
    forall a, b | 0 <= a < b < |r| ensures Apart(r[a], r[b]) { assert Apart(s.tasks[a], s.tasks[b]); }
  }

  /** A worker that stops carrying nothing changes nothing for the jobs. */
  lemma IdleTaskKeepsJobs(s: State, s': State, t: nat, x: Task)
    requires JobsInv(s) && t < |s.tasks| && !s.tasks[t].Busy? && !x.Busy?
    requires s'.tasks == s.tasks[t := x] && s'.jobs == s.jobs && s'.phase == s.phase
    requires forall j :: S.ItemsOf(s'.sched.queues, j) == S.ItemsOf(s.sched.queues, j)
    ensures JobsInv(s')
  {
    OneTaskChanged(s, t, x);
    assert TasksOk(s') by {
      forall u | 0 <= u < |s'.tasks| ensures TaskOk(s', s'.tasks[u]) { assert TaskOk(s.(tasks := s'.tasks), s'.tasks[u]); }
    }
    forall j | j in s'.jobs ensures JobAt(s', j) {
      assert JobAt(s, j);
      FlyingSame(s.tasks, t, x, j);
    }
  }

  /** The first item not handed out yet, and those after it. */
  predicate NextItem(job: Job, item: WorkItem, rest: seq<WorkItem>) {
    && !job.dropped && job.dequeued < job.total == |job.items|
    && item == job.items[job.dequeued] && item.index == job.dequeued && rest == job.items[job.dequeued + 1..]
  }

  /** The item a pop hands out is the next one of a running job. */
  lemma PoppedIsNext(s: State, id: JobId, item: WorkItem, rest: seq<WorkItem>)
    requires JobsInv(s) && Working(s) && id in s.jobs
    requires S.ItemsOf(s.sched.queues, id) == [item] + rest
    ensures s.jobs[id].state == Running && NextItem(s.jobs[id], item, rest)
  {
    assert JobAt(s, id);
    var job := s.jobs[id];
    assert job.items[job.dequeued..] == [item] + rest;
    assert job.items[job.dequeued..][0] == item;
    assert job.items[job.dequeued..][1..] == rest;
    if job.state == Completed { CompletedCovers(s, id); }
  }

  /** A completed job has all its results, nothing queued, nothing in flight. */
  lemma CompletedCovers(s: State, id: JobId)
    requires JobsInv(s) && id in s.jobs && s.jobs[id].completed == s.jobs[id].total
    ensures var job := s.jobs[id];
            && job.results.Keys == Range(job.total) && job.dequeued == job.total
            && InFlight(s.tasks, id) == {} && S.ItemsOf(s.sched.queues, id) == []
  {
    assert JobAt(s, id);
    var job := s.jobs[id];
    SubsetSize(job.results.Keys, Range(job.dequeued));
    assert |job.results.Keys| == |job.results|;
    SubsetSize(job.results.Keys, Range(job.total));
    assert job.dequeued == job.total;
  }

  lemma DequeueOk(job: Job, item: WorkItem, rest: seq<WorkItem>, flying: set<nat>, phase: Phase)
    requires PlaceOk(job, [item] + rest, flying, phase) && job.dequeued < job.total
    requires item.index == job.dequeued && rest == job.items[job.dequeued + 1..] && !job.dropped
    ensures job.dequeued !in flying
    ensures PlaceOk(job.(dequeued := job.dequeued + 1), rest, flying + {item.index}, phase)
  {
  }

  /** Worker `t` took the item `x.item`, the first of its job's, and the rest stayed. */
  predicate Handed(s: State, s': State, t: nat, x: Task, rest: seq<WorkItem>) {
    && t < |s.tasks| && !s.tasks[t].Busy? && x.Busy? && x.job in s.jobs && x.job in s'.jobs
    && S.ItemsOf(s.sched.queues, x.job) == [x.item] + rest && S.ItemsOf(s'.sched.queues, x.job) == rest
    && s'.jobs[x.job] == s.jobs[x.job].(dequeued := s.jobs[x.job].dequeued + 1)
    && s'.phase == s.phase && s'.tasks == s.tasks[t := x]
  }

  lemma GotKeepsJobs(s: State, s': State, t: nat, x: Task, rest: seq<WorkItem>)
    requires JobsInv(s) && Working(s) && Handed(s, s', t, x, rest) && s'.jobs == s.jobs[x.job := s'.jobs[x.job]]
    requires forall j :: j != x.job ==> S.ItemsOf(s'.sched.queues, j) == S.ItemsOf(s.sched.queues, j)
    ensures JobsInv(s')
  {
    HandedOut(s, s', t, x, rest);
    SameItems(s, s', x.job);
    assert TasksOk(s') by { GotKeepsTasks(s, s', t, x); }
    OtherJobsKept(s, s', t, x, x.job);
  }

  lemma SameItems(s: State, s': State, id: JobId)
    requires id in s.jobs && id in s'.jobs && s'.jobs == s.jobs[id := s'.jobs[id]] && s'.jobs[id].items == s.jobs[id].items
    ensures s'.jobs.Keys == s.jobs.Keys && forall j :: j in s.jobs ==> s'.jobs[j].items == s.jobs[j].items
    ensures forall j :: j in s.jobs && j != id ==> s'.jobs[j] == s.jobs[j]
  {
  }

  lemma HandedOut(s: State, s': State, t: nat, x: Task, rest: seq<WorkItem>)
    requires JobsInv(s) && Working(s) && Handed(s, s', t, x, rest)
    ensures JobAt(s', x.job)
    ensures x.item.index !in InFlight(s.tasks, x.job) && TaskOk(s, x)
  {
    assert JobAt(s, x.job);
    PoppedIsNext(s, x.job, x.item, rest);
    GotOwnJob(s, s', t, x, rest);
  }

  /** The job a worker took an item from. */
  lemma GotOwnJob(s: State, s': State, t: nat, x: Task, rest: seq<WorkItem>)
    requires Handed(s, s', t, x, rest)
    requires JobAt(s, x.job) && NextItem(s.jobs[x.job], x.item, rest)
    ensures JobAt(s', x.job)
    ensures x.item.index !in InFlight(s.tasks, x.job) && TaskOk(s, x)
  {
    DequeueOk(s.jobs[x.job], x.item, rest, InFlight(s.tasks, x.job), s.phase);
    FlyingAdd(s.tasks, t, x);
  }

  /** The jobs that neither the changed worker nor the changed record belongs to. */
  lemma OtherJobsKept(s: State, s': State, t: nat, x: Task, id: JobId)
    requires JobsInv(s) && s'.phase == s.phase && s'.jobs.Keys == s.jobs.Keys
    requires t < |s.tasks| && s'.tasks == s.tasks[t := x]
    requires forall j :: j != id ==> !Carries(s.tasks[t], j) && !Carries(x, j)
    requires forall j :: j in s.jobs && j != id ==> s'.jobs[j] == s.jobs[j]
    requires forall j :: j != id ==> S.ItemsOf(s'.sched.queues, j) == S.ItemsOf(s.sched.queues, j)
    ensures forall j :: j in s'.jobs && j != id ==> JobAt(s', j)
  {
    forall j | j in s'.jobs && j != id ensures JobAt(s', j) {
      assert JobAt(s, j);
      FlyingSame(s.tasks, t, x, j);
    }
  }

  lemma GotKeepsTasks(s: State, s': State, t: nat, x: Task)
    requires TasksOk(s) && t < |s.tasks| && !s.tasks[t].Busy? && x.Busy? && s'.tasks == s.tasks[t := x]
    requires x.item.index !in InFlight(s.tasks, x.job) && TaskOk(s, x)
    requires s'.jobs.Keys == s.jobs.Keys && forall j :: j in s.jobs ==> s'.jobs[j].items == s.jobs[j].items
    ensures TasksOk(s')
  {
    forall u | 0 <= u < |s'.tasks| ensures TaskOk(s', s'.tasks[u]) {
      assert TaskOk(s, s'.tasks[u]) by { if u != t { assert TaskOk(s, s.tasks[u]); } }
    }
    forall a, b | 0 <= a < b < |s'.tasks| ensures Apart(s'.tasks[a], s'.tasks[b]) {
      assert Apart(s.tasks[a], s.tasks[b]);
      if a == t && s.tasks[b].Busy? { FlyingMember(s.tasks, b); }
      if b == t && s.tasks[a].Busy? { FlyingMember(s.tasks, a); }
    }
  }

  lemma FetchKeepsJobs(s: State, t: nat)
    requires SchedOk(s) && JobsInv(s) && Working(s) && t < |s.tasks| && !s.tasks[t].Busy?
    ensures JobsInv(Fetch(s, t))
    ensures S.Pop(s.sched).got.Some? ==> Fetch(s, t).tasks[t].Busy?
  {
    S.PopEffect(s.sched);
    PopKeepsJobs(s, t, S.Pop(s.sched));
  }

  lemma PopKeepsJobs(s: State, t: nat, p: S.Popped)
    requires SchedOk(s) && JobsInv(s) && Working(s) && t < |s.tasks| && !s.tasks[t].Busy?
    requires p.got.None? ==> p.sched == S.EMPTY && forall id :: S.ItemsOf(s.sched.queues, id) == []
    requires p.got.Some? ==>
               var (job, item) := p.got.value;
               && S.ItemsOf(s.sched.queues, job) == [item] + S.ItemsOf(p.sched.queues, job)
               && (forall id :: id != job ==> S.ItemsOf(p.sched.queues, id) == S.ItemsOf(s.sched.queues, id))
    ensures JobsInv(FetchFrom(s, t, p))
    ensures p.got.Some? ==> FetchFrom(s, t, p).tasks[t].Busy?
  {
    if p.got.None? {
      NothingPopped(s, FetchFrom(s, t, p), t);
    } else {
      PoppedKeepsJobs(s, FetchFrom(s, t, p), t, p.got.value.0, p.got.value.1, p.sched);
    }
  }

  lemma PoppedKeepsJobs(s: State, s': State, t: nat, id: JobId, item: WorkItem, sched: S.Sched)
    requires SchedOk(s) && JobsInv(s) && Working(s) && t < |s.tasks| && !s.tasks[t].Busy?
    requires S.ItemsOf(s.sched.queues, id) == [item] + S.ItemsOf(sched.queues, id)
    requires forall j :: j != id ==> S.ItemsOf(sched.queues, j) == S.ItemsOf(s.sched.queues, j)
    requires id in s.jobs && s.jobs[id].state != Cancelled ==>
               && s'.jobs == s.jobs[id := s.jobs[id].(dequeued := s.jobs[id].dequeued + 1)]
               && s'.tasks == s.tasks[t := Busy(id, item, 1, AtBucket, 0.0)]
    requires s'.sched == sched && s'.phase == s.phase
    ensures JobsInv(s')
    ensures |s'.tasks| == |s.tasks| && s'.tasks[t].Busy?
  {
    PoppedIsKnown(s, id);
    assert s.jobs[id].state != Cancelled by { PoppedIsNext(s, id, item, S.ItemsOf(sched.queues, id)); }
    GotKeepsJobs(s, s', t, Busy(id, item, 1, AtBucket, 0.0), S.ItemsOf(sched.queues, id));
  }

  lemma NothingPopped(s: State, s': State, t: nat)
    requires JobsInv(s) && t < |s.tasks| && !s.tasks[t].Busy?
    requires s'.sched == S.EMPTY && forall id :: S.ItemsOf(s.sched.queues, id) == []
    requires s'.tasks == s.tasks[t := Done] && s'.jobs == s.jobs && s'.phase == s.phase
    ensures JobsInv(s')
  {
    IdleTaskKeepsJobs(s, s', t, Done);
  }

  lemma PoppedIsKnown(s: State, id: JobId)
    requires SchedOk(s) && S.ItemsOf(s.sched.queues, id) != []
    ensures id in s.jobs
  {
    if !S.Has(s.sched.queues, id) { S.NothingQueued(s.sched.queues, id); }
  }

  lemma TakePermitKeepsJobs(s: State, t: nat)
    requires SchedOk(s) && JobsInv(s) && Working(s) && t < |s.tasks| && !s.tasks[t].Busy?
    ensures JobsInv(TakePermit(s, t))
  {
    if G.MayEnter(s.gate) {
      var e := s.(gate := G.Enter(s.gate));
      assert JobsInv(e) by { SameJobsView(s, e); }
      FetchKeepsJobs(e, t);
    } else {
      IdleTaskKeepsJobs(s, TakePermit(s, t), t, Asleep);
    }
  }

  /** The jobs' invariant does not look at the gate, the counters or the key index. */
  lemma SameJobsView(s: State, s': State)
    requires JobsInv(s) && s'.jobs == s.jobs && s'.tasks == s.tasks && s'.phase == s.phase
    requires s'.sched == s.sched
    ensures JobsInv(s')
  {
    forall t | 0 <= t < |s'.tasks| ensures TaskOk(s', s'.tasks[t]) { assert TaskOk(s, s.tasks[t]); }
    forall j | j in s'.jobs ensures JobAt(s', j) { assert JobAt(s, j); }
  }

  // ---------------------------------------------------------------- finishing an item

  lemma CreditOk(c: Settings, job: Job, queued: seq<WorkItem>, flying: set<nat>, phase: Phase, index: nat, r: InferenceResult)
    requires PlaceOk(job, queued, flying, phase) && index in flying
    ensures PlaceOk(Credit(c, job, index, r), queued, flying - {index}, phase)
  {
    var after := Credit(c, job, index, r);
    assert |after.results| == |job.results| + 1;
    assert after.results.Keys <= Range(job.dequeued);
    SubsetSize(after.results.Keys, Range(job.dequeued));
    assert |after.results.Keys| == |after.results|;
  }

  lemma SettleKeepsJobs(c: Settings, s: State, t: nat, r: InferenceResult)
    requires JobsInv(s) && t < |s.tasks| && s.tasks[t].Busy? && s.tasks[t].job in s.jobs
    ensures JobsInv(Settle(c, s, t, r))
  {
    var id := s.tasks[t].job;
    SettledKeepsJobs(c, s, Settle(c, s, t, r), t, r, Credit(c, s.jobs[id], s.tasks[t].item.index, r));
  }

  lemma SettledKeepsJobs(c: Settings, s: State, s': State, t: nat, r: InferenceResult, job: Job)
    requires JobsInv(s) && t < |s.tasks| && s.tasks[t].Busy? && s.tasks[t].job in s.jobs
    requires job == Credit(c, s.jobs[s.tasks[t].job], s.tasks[t].item.index, r)
    requires s'.sched == s.sched && s'.phase == s.phase && s'.tasks == s.tasks[t := Ready]
    requires s'.jobs == s.jobs[s.tasks[t].job := job]
    ensures JobsInv(s')
  {
    var id := s.tasks[t].job;
    assert JobAt(s', id) by {
      assert JobAt(s, id);
      SettledPlace(c, s, s', t, r);
    }
    LetGo(s, s', t, Ready, id);
  }

  /** The job whose prompt was answered. */
  lemma SettledPlace(c: Settings, s: State, s': State, t: nat, r: InferenceResult)
    requires t < |s.tasks| && s.tasks[t].Busy? && s.tasks[t].job in s.jobs && JobAt(s, s.tasks[t].job)
    requires TasksOk(s) && s'.sched == s.sched && s'.phase == s.phase && s'.tasks == s.tasks[t := Ready]
    requires var id := s.tasks[t].job; id in s'.jobs && s'.jobs[id] == Credit(c, s.jobs[id], s.tasks[t].item.index, r)
    ensures JobAt(s', s.tasks[t].job)
  {
    var id, item := s.tasks[t].job, s.tasks[t].item;
    FlyingMember(s.tasks, t);
    CreditOk(c, s.jobs[id], S.ItemsOf(s.sched.queues, id), InFlight(s.tasks, id), s.phase, item.index, r);
    FlyingDrop(s.tasks, t, Ready);
  }

  /** One worker let go of its item and one job changed with it: the others are as before. */
  lemma LetGo(s: State, s': State, t: nat, x: Task, id: JobId)
    requires JobsInv(s) && t < |s.tasks| && Carries(s.tasks[t], id) && id in s.jobs && id in s'.jobs
    requires s'.tasks == s.tasks[t := x] && !x.Busy? && s'.sched == s.sched && s'.phase == s.phase
    requires s'.jobs == s.jobs[id := s'.jobs[id]] && s'.jobs[id].items == s.jobs[id].items && JobAt(s', id)
    ensures JobsInv(s')
  {
    SameItems(s, s', id);
    LetGoKeepsTasks(s, s', t, x);
    OtherJobsKept(s, s', t, x, id);
  }

  lemma LetGoKeepsTasks(s: State, s': State, t: nat, x: Task)
    requires TasksOk(s) && t < |s.tasks| && s'.tasks == s.tasks[t := x] && !x.Busy?
    requires s'.jobs.Keys == s.jobs.Keys && forall j :: j in s.jobs ==> s'.jobs[j].items == s.jobs[j].items
    ensures TasksOk(s')
  {
    forall u | 0 <= u < |s'.tasks| ensures TaskOk(s', s'.tasks[u]) { assert TaskOk(s, s.tasks[u]); }
    forall a, b | 0 <= a < b < |s'.tasks| ensures Apart(s'.tasks[a], s'.tasks[b]) { assert Apart(s.tasks[a], s.tasks[b]); }
  }

  /** A worker that keeps its item, and a job whose accounted fields stay as they were. */
  lemma StillBusyKeepsJobs(s: State, s': State, t: nat, x: Task)
    requires JobsInv(s) && t < |s.tasks| && s.tasks[t].Busy? && x.Busy?
    requires x.job == s.tasks[t].job && x.item == s.tasks[t].item && s'.tasks == s.tasks[t := x]
    requires s'.sched == s.sched && s'.phase == s.phase && s'.jobs.Keys == s.jobs.Keys
    requires forall j :: j in s.jobs ==> s'.jobs[j] == s.jobs[j].(retries := s'.jobs[j].retries)
    ensures JobsInv(s')
  {
    StillBusyKeepsTasks(s, s', t, x);
    forall j | j in s'.jobs ensures JobAt(s', j) {
      assert JobAt(s, j);
      FlyingKept(s.tasks, t, x, j);
    }
  }

  lemma StillBusyKeepsTasks(s: State, s': State, t: nat, x: Task)
    requires TasksOk(s) && t < |s.tasks| && s.tasks[t].Busy? && x.Busy?
    requires x.job == s.tasks[t].job && x.item == s.tasks[t].item && s'.tasks == s.tasks[t := x]
    requires s'.jobs.Keys == s.jobs.Keys
    requires forall j :: j in s.jobs ==> s'.jobs[j].items == s.jobs[j].items
    ensures TasksOk(s')
  {
    forall u | 0 <= u < |s'.tasks| ensures TaskOk(s', s'.tasks[u]) { assert TaskOk(s, s.tasks[u]); }
    forall a, b | 0 <= a < b < |s'.tasks| ensures Apart(s'.tasks[a], s'.tasks[b]) { assert Apart(s.tasks[a], s.tasks[b]); }
  }

  lemma RetryKeepsJobs(c: Settings, s: State, t: nat, hint: real)
    requires JobsInv(s) && t < |s.tasks| && s.tasks[t].Busy? && s.tasks[t].job in s.jobs && s.tasks[t].attempt >= 1
    ensures JobsInv(Retry(c, s, t, hint))
  {
    var s', id := Retry(c, s, t, hint), s.tasks[t].job;
    OnlyRetried(s, s', id, s.jobs[id].retries + 1);
    StillBusyKeepsJobs(s, s', t, s'.tasks[t]);
  }

  lemma OnlyRetried(s: State, s': State, id: JobId, retries: int)
    requires id in s.jobs && s'.jobs == s.jobs[id := s.jobs[id].(retries := retries)]
    ensures s'.jobs.Keys == s.jobs.Keys
    ensures forall j :: j in s.jobs ==> s'.jobs[j] == s.jobs[j].(retries := s'.jobs[j].retries)
  {
  }

  lemma SettleAfterKeepsJobs(c: Settings, s: State, s1: State, t: nat, r: InferenceResult)
    requires JobsInv(s) && t < |s.tasks| && s.tasks[t].Busy? && s.tasks[t].job in s.jobs
    requires s1 == s.(gate := s1.gate, counters := s1.counters)
    ensures JobsInv(Settle(c, s1, t, r))
  {
    SameJobsView(s, s1);
    SettleKeepsJobs(c, s1, t, r);
  }

  lemma AnswerKeepsJobs(c: Settings, s: State, t: nat, outcome: Outcome)
    requires Usable(c) && JobsInv(s) && Enabled(s, Reply(t, outcome))
    ensures JobsInv(Answer(c, s, t, outcome))
  {
    var r := ResultOf(c, s.tasks[t].item, s.tasks[t].attempt, outcome);
    if r.None? {
      RetryKeepsJobs(c, s, t, outcome.retryAfter);
    } else {
      SettleAfterKeepsJobs(c, s, Noted(c, s, outcome), t, r.value);
    }
  }

  // ---------------------------------------------------------------- shutdown

  lemma KillKeepsJobs(s: State, t: nat)
    requires JobsInv(s) && Enabled(s, Kill(t))
    ensures JobsInv(KillTask(s, t))
  {
    if s.tasks[t].Busy? {
      KillBusyKeepsJobs(s, t);
    } else {
      IdleTaskKeepsJobs(s, KillTask(s, t), t, Done);
    }
  }

  lemma KillBusyKeepsJobs(s: State, t: nat)
    requires JobsInv(s) && s.phase == Stopping && t < |s.tasks| && s.tasks[t].Busy?
    ensures JobsInv(KillTask(s, t))
  {
    var s', id := KillTask(s, t), s.tasks[t].job;
    assert TaskOk(s, s.tasks[t]);
    assert JobAt(s', id) by {
      assert JobAt(s, id);
      LostPlace(s, s', t);
    }
    LetGo(s, s', t, Done, id);
  }

  /** The job whose item was interrupted. */
  lemma LostPlace(s: State, s': State, t: nat)
    requires t < |s.tasks| && s.tasks[t].Busy? && s.tasks[t].job in s.jobs && JobAt(s, s.tasks[t].job)
    requires TasksOk(s) && s'.sched == s.sched && s.phase == s'.phase == Stopping && s'.tasks == s.tasks[t := Done]
    requires var id := s.tasks[t].job;
             id in s'.jobs && s'.jobs[id] == s.jobs[id].(lost := s.jobs[id].lost + {s.tasks[t].item.index})
    ensures JobAt(s', s.tasks[t].job)
  {
    var id, index := s.tasks[t].job, s.tasks[t].item.index;
    FlyingMember(s.tasks, t);
    LostOk(s.jobs[id], S.ItemsOf(s.sched.queues, id), InFlight(s.tasks, id), index);
    FlyingDrop(s.tasks, t, Done);
  }

  lemma LostOk(job: Job, queued: seq<WorkItem>, flying: set<nat>, index: nat)
    requires PlaceOk(job, queued, flying, Stopping) && index in flying
    ensures PlaceOk(job.(lost := job.lost + {index}), queued, flying - {index}, Stopping)
  {
  }

  lemma PhaseKeepsJobs(s: State, phase: Phase)
    requires JobsInv(s) && (s.phase == Serving || s.phase == Draining) && (phase == Draining || phase == Stopping)
    ensures JobsInv(s.(phase := phase))
  {
    var s' := s.(phase := phase);
    forall t | 0 <= t < |s'.tasks| ensures TaskOk(s', s'.tasks[t]) { assert TaskOk(s, s.tasks[t]); }
    forall j | j in s'.jobs ensures JobAt(s', j) { assert JobAt(s, j); }
  }

  lemma FinishKeepsJobs(s: State)
    requires JobsInv(s) && s.phase == Stopping && forall t :: 0 <= t < |s.tasks| ==> s.tasks[t].Done?
    ensures JobsInv(InterruptAll(s))
  {
    var s' := InterruptAll(s);
    assert TasksOk(s');
    forall j | j in s'.jobs ensures JobAt(s', j) { assert JobAt(s, j); }
  }

  // ---------------------------------------------------------------- every step

  /** A worker goes on with its call, or back to sleep; the bucket may change with it. */
  lemma CallKeepsJobs(s: State, s': State, t: nat)
    requires JobsInv(s) && t < |s.tasks| && s.tasks[t].Busy? && |s'.tasks| == |s.tasks| && s'.tasks[t].Busy?
    requires s'.tasks[t].job == s.tasks[t].job && s'.tasks[t].item == s.tasks[t].item
    requires s' == s.(tasks := s'.tasks, bucket := s'.bucket) && s'.tasks == s.tasks[t := s'.tasks[t]]
    ensures JobsInv(s')
  {
    StillBusyKeepsJobs(s, s', t, s'.tasks[t]);
  }

  lemma WakeKeepsJobs(s: State, t: nat)
    requires SchedOk(s) && JobsInv(s) && Working(s) && t < |s.tasks| && !s.tasks[t].Busy?
    ensures JobsInv(TakePermit(Unwait(s, t), t))
  {
    SameJobsView(s, Unwait(s, t));
    TakePermitKeepsJobs(Unwait(s, t), t);
  }

  lemma StepKeepsJobs(c: Settings, s: State, step: Step)
    requires Usable(c) && SchedOk(s) && JobsInv(s) && Enabled(s, step)
    ensures JobsInv(Next(c, s, step))
  {
    match step
    case Submit(req, id) =>
      if Judge(c, s, req) == Accepted { SubmitKeepsJobs(c, s, req, id); }
    case Cancel(id) => CancelKeepsJobs(s, id);
    case Start(t) => TakePermitKeepsJobs(s, t);
    case Wake(t) => WakeKeepsJobs(s, t);
    case Admit(t) => CallKeepsJobs(s, Next(c, s, step), t);
    case Refuse(t) => CallKeepsJobs(s, Next(c, s, step), t);
    case Reply(t, outcome) => AnswerKeepsJobs(c, s, t, outcome);
    case Continue(t) => CallKeepsJobs(s, Next(c, s, step), t);
    case Wait(until) => SameJobsView(s, s.(clock := until));
    case BeginShutdown => PhaseKeepsJobs(s, Draining);
    case GraceOver => PhaseKeepsJobs(s, Stopping);
    case Kill(t) => KillKeepsJobs(s, t);
    case FinishShutdown => FinishKeepsJobs(s);
  }
}
