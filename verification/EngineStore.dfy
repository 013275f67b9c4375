/**
 The store around the jobs: admission limits, the set of active jobs, the index of idempotency
 keys, and what never changes once it is there.
 */
module EngineStore {
  import opened Models
  import opened EngineSpec
  import opened EnginePool
  import opened EngineJobs
  import opened EngineBooks
  import G = LimiterSpec

  /** The active set is the set of running jobs. */
  predicate ActiveOk(s: State) {
    && (forall id :: id in s.active ==> id in s.jobs && s.jobs[id].state == Running)
    && (forall id :: id in s.jobs && s.jobs[id].state == Running ==> id in s.active)
  }

  predicate AdmissionOk(c: Settings, s: State) {
    |s.active| <= Max(0, c.maxActiveJobs) && s.sched.pending <= Max(0, c.maxQueueSize)
  }

  /** The key index agrees with a scan of all jobs. */
  predicate KeysOk(s: State) {
    && (forall k :: k in s.byKey ==> k != "" && s.byKey[k] in s.jobs && s.jobs[s.byKey[k]].key == Some(k))
    && (forall id :: id in s.jobs ==> id != "")
    && (forall id :: id in s.jobs && Keyed(s.jobs[id].key) ==>
          s.jobs[id].key.value in s.byKey && s.byKey[s.jobs[id].key.value] == id)
  }

  predicate StoreInv(c: Settings, s: State) {
    ActiveOk(s) && AdmissionOk(c, s) && KeysOk(s)
  }

  lemma SettleKeepsStore(c: Settings, s: State, t: nat, r: InferenceResult)
    requires StoreInv(c, s) && t < |s.tasks| && s.tasks[t].Busy? && s.tasks[t].job in s.jobs
    ensures StoreInv(c, Settle(c, s, t, r))
  {
    var id := s.tasks[t].job;
    SmallerActive(s.active, id);
  }

  lemma SmallerActive(a: set<JobId>, id: JobId)
    ensures |a - {id}| <= |a|
  {
    if id in a { assert a == (a - {id}) + {id}; } else { assert a - {id} == a; }
  }

  lemma AnswerKeepsStore(c: Settings, s: State, t: nat, outcome: Outcome)
    requires Usable(c) && StoreInv(c, s) && Enabled(s, Reply(t, outcome))
    ensures StoreInv(c, Answer(c, s, t, outcome))
  {
    var r := ResultOf(c, s.tasks[t].item, s.tasks[t].attempt, outcome);
    if r.None? {
      SameStore(c, s, Retry(c, s, t, outcome.retryAfter));
    } else {
      SettleKeepsStore(c, Noted(c, s, outcome), t, r.value);
    }
  }

  /** Steps that leave states, keys, the active set and the index alone, and add no pending items. */
  lemma SameStore(c: Settings, s: State, s': State)
    requires StoreInv(c, s) && s'.jobs.Keys == s.jobs.Keys && s'.active == s.active && s'.byKey == s.byKey
    requires forall id :: id in s.jobs ==> s'.jobs[id].state == s.jobs[id].state && s'.jobs[id].key == s.jobs[id].key
    requires s'.sched.pending <= s.sched.pending
    ensures StoreInv(c, s')
  {
  }

  lemma RegisterKeepsKeys(c: Settings, s: State, req: Request, id: JobId)
    requires KeysOk(s) && id !in s.jobs && id != "" && (Keyed(req.key) ==> req.key.value !in s.byKey)
    ensures KeysOk(Register(c, s, req, id))
  {
    var s' := Register(c, s, req, id);
    forall k | k in s'.byKey
      ensures k != "" && s'.byKey[k] in s'.jobs && s'.jobs[s'.byKey[k]].key == Some(k)
    {
      if !(Keyed(req.key) && k == req.key.value) { assert k in s.byKey; }
    }
  }

  lemma RegisterKeepsActive(c: Settings, s: State, req: Request, id: JobId)
    requires ActiveOk(s) && id !in s.jobs
    ensures ActiveOk(Register(c, s, req, id)) && |Register(c, s, req, id).active| == |s.active| + 1
  {
    assert id !in s.active;
  }

  /** A key accepted anew has no job yet. */
  lemma AcceptedKeyIsNew(c: Settings, s: State, req: Request)
    requires KeysOk(s) && Judge(c, s, req) == Accepted && Keyed(req.key)
    ensures req.key.value !in s.byKey
  {
    assert Lookup(s, req.key.value).None?;
  }

  lemma SubmitKeepsStore(c: Settings, s: State, req: Request, id: JobId)
    requires Usable(c) && SchedOk(s) && StoreInv(c, s) && Enabled(s, Submit(req, id)) && Judge(c, s, req) == Accepted
    ensures StoreInv(c, EnsureWorkers(c, Register(c, s, req, id)))
  {
    RegisterKeepsSched(c, s, req, id);
    if Keyed(req.key) { AcceptedKeyIsNew(c, s, req); }
    RegisterKeepsKeys(c, s, req, id);
    RegisterKeepsActive(c, s, req, id);
    SpawnKeepsStore(Register(c, s, req, id), EnsureWorkers(c, Register(c, s, req, id)));
  }

  lemma SpawnKeepsStore(s: State, s': State)
    requires ActiveOk(s) && KeysOk(s) && s' == s.(tasks := s'.tasks)
    ensures ActiveOk(s') && KeysOk(s')
  {
  }

  lemma TakePermitKeepsStore(c: Settings, s: State, t: nat)
    requires SchedOk(s) && StoreInv(c, s) && t < |s.tasks|
    ensures StoreInv(c, TakePermit(s, t))
  {
    TakePermitFrame(s, t);
    if G.MayEnter(s.gate) { FetchSched(s.(gate := G.Enter(s.gate)), t); }
    SameStore(c, s, TakePermit(s, t));
  }

  /** Shutting down finishes every job. */
  lemma FinishKeepsStore(c: Settings, s: State)
    requires JobsInv(s) && StoreInv(c, s)
    ensures StoreInv(c, InterruptAll(s)) && InterruptAll(s).active == {}
    ensures forall id :: id in InterruptAll(s).jobs ==> Finished(InterruptAll(s).jobs[id].state)
  {
    InterruptedFinished(s);
    NoneActive(s);
  }

  lemma NoneActive(s: State)
    requires ActiveOk(s)
    ensures InterruptAll(s).active == {}
  {
  }

  lemma InterruptedFinished(s: State)
    requires JobsInv(s)
    ensures var s' := InterruptAll(s);
            forall id :: id in s'.jobs ==> Finished(s'.jobs[id].state) && s'.jobs[id].key == s.jobs[id].key
  {
    forall id | id in s.jobs ensures Finished(EngineSpec.Interrupt(s.jobs[id]).state) {
      KnownState(s, id);
    }
  }

  lemma KnownState(s: State, id: JobId)
    requires JobsInv(s) && id in s.jobs
    ensures s.jobs[id].state == Running || s.jobs[id].state == Completed || s.jobs[id].state == Cancelled
  {
    assert JobAt(s, id);
  }

  lemma CancelKeepsStore(c: Settings, s: State, id: JobId)
    requires SchedOk(s) && StoreInv(c, s)
    ensures StoreInv(c, CancelJob(s, id))
  {
    CancelKeepsSched(s, id);
    SmallerActive(s.active, id);
  }

  lemma KillKeepsStore(c: Settings, s: State, t: nat)
    requires StoreInv(c, s) && t < |s.tasks|
    ensures StoreInv(c, KillTask(s, t))
  {
    SameStore(c, s, KillTask(s, t));
  }

  lemma WakeKeepsStore(c: Settings, s: State, t: nat)
    requires SchedOk(s) && StoreInv(c, s) && t < |s.tasks|
    ensures StoreInv(c, TakePermit(Unwait(s, t), t))
  {
    SameStore(c, s, Unwait(s, t));
    TakePermitKeepsStore(c, Unwait(s, t), t);
  }

  lemma StepKeepsStore(c: Settings, s: State, step: Step)
    requires Usable(c) && SchedOk(s) && JobsInv(s) && StoreInv(c, s) && Enabled(s, step)
    ensures StoreInv(c, Next(c, s, step))
  {
    match step
    case Submit(req, id) =>
      if Judge(c, s, req) == Accepted { SubmitKeepsStore(c, s, req, id); }
    case Cancel(id) => CancelKeepsStore(c, s, id);
    case Start(t) => TakePermitKeepsStore(c, s, t);
    case Wake(t) => WakeKeepsStore(c, s, t);
    case Reply(t, outcome) => AnswerKeepsStore(c, s, t, outcome);
    case Kill(t) => KillKeepsStore(c, s, t);
    case FinishShutdown => FinishKeepsStore(c, s);
    case _ => SameStore(c, s, Next(c, s, step));
  }

  // ---------------------------------------------------------------- idempotent submits

  /** The index answers exactly the one job carrying the key. */
  lemma LookupIsScan(s: State, key: string)
    requires KeysOk(s) && key != ""
    ensures forall id :: Lookup(s, key) == Some(id) <==> id in s.jobs && s.jobs[id].key == Some(key)
    ensures forall a, b :: a in s.jobs && b in s.jobs && s.jobs[a].key == Some(key) && s.jobs[b].key == Some(key) ==> a == b
  {
    forall id ensures Lookup(s, key) == Some(id) <==> id in s.jobs && s.jobs[id].key == Some(key) {
      if id in s.jobs && s.jobs[id].key == Some(key) { assert Keyed(s.jobs[id].key); }
    }
    forall a, b | a in s.jobs && b in s.jobs && s.jobs[a].key == Some(key) && s.jobs[b].key == Some(key)
      ensures a == b
    {
      assert Keyed(s.jobs[a].key) && Keyed(s.jobs[b].key);
    }
  }

  // ---------------------------------------------------------------- what stays

  /** `b` is a later record of the job `a`: its identity and its results stay, a final state is final. */
  predicate JobGrows(a: Job, b: Job) {
    && b.total == a.total && b.items == a.items && b.priority == a.priority && b.prompts == a.prompts
    && b.key == a.key && b.fingerprint == a.fingerprint
    && a.dequeued <= b.dequeued
    && (forall k :: k in a.results ==> k in b.results && b.results[k] == a.results[k])
    && (Finished(a.state) ==> b.state == a.state)
  }

  predicate Grows(s: State, s': State) {
    && (forall id :: id in s.jobs ==> id in s'.jobs && JobGrows(s.jobs[id], s'.jobs[id]))
    && (forall k :: k in s.byKey ==> k in s'.byKey && s'.byKey[k] == s.byKey[k])
    && (s.phase != Serving ==> s'.phase != Serving)
  }

  lemma GrowsTrans(a: State, b: State, d: State)
    requires Grows(a, b) && Grows(b, d)
    ensures Grows(a, d)
  {
    forall id | id in a.jobs ensures id in d.jobs && JobGrows(a.jobs[id], d.jobs[id]) {
      assert JobGrows(a.jobs[id], b.jobs[id]) && JobGrows(b.jobs[id], d.jobs[id]);
    }
  }

  lemma CreditGrows(c: Settings, job: Job, index: nat, r: InferenceResult)
    requires index !in job.results
    ensures JobGrows(job, Credit(c, job, index, r))
  {
  }

  lemma OneJobGrows(s: State, s': State, id: JobId)
    requires id in s.jobs && id in s'.jobs && s'.jobs == s.jobs[id := s'.jobs[id]] && JobGrows(s.jobs[id], s'.jobs[id])
    requires s'.byKey == s.byKey && s'.phase == s.phase
    ensures Grows(s, s')
  {
  }

  lemma SettleGrows(c: Settings, s: State, s1: State, t: nat, r: InferenceResult)
    requires JobsInv(s) && t < |s.tasks| && s.tasks[t].Busy? && s.tasks[t].job in s.jobs
    requires s1 == s.(gate := s1.gate, counters := s1.counters)
    ensures Grows(s, Settle(c, s1, t, r))
  {
    HeldItem(s, t);
    CreditGrows(c, s.jobs[s.tasks[t].job], s.tasks[t].item.index, r);
    OneJobGrows(s, Settle(c, s1, t, r), s.tasks[t].job);
  }

  lemma AnswerGrows(c: Settings, s: State, t: nat, outcome: Outcome)
    requires Usable(c) && JobsInv(s) && Enabled(s, Reply(t, outcome))
    ensures Grows(s, Answer(c, s, t, outcome))
  {
    var r := ResultOf(c, s.tasks[t].item, s.tasks[t].attempt, outcome);
    if r.Some? {
      NotedFrame(c, s, outcome);
      SettleGrows(c, s, Noted(c, s, outcome), t, r.value);
    } else {
      RetryGrows(c, s, t, outcome.retryAfter);
    }
  }

  lemma NotedFrame(c: Settings, s: State, outcome: Outcome)
    ensures Noted(c, s, outcome) == s.(gate := Noted(c, s, outcome).gate, counters := Noted(c, s, outcome).counters)
  {
  }

  lemma RetryGrows(c: Settings, s: State, t: nat, hint: real)
    requires t < |s.tasks| && s.tasks[t].Busy? && s.tasks[t].job in s.jobs && s.tasks[t].attempt >= 1
    ensures Grows(s, Retry(c, s, t, hint))
  {
    OneJobGrows(s, Retry(c, s, t, hint), s.tasks[t].job);
  }

  lemma TakePermitGrows(s: State, t: nat)
    requires t < |s.tasks|
    ensures Grows(s, TakePermit(s, t))
  {
    TakePermitFrame(s, t);
  }

  lemma SubmitGrows(c: Settings, s: State, req: Request, id: JobId)
    requires KeysOk(s) && id !in s.jobs && Judge(c, s, req) == Accepted
    ensures Grows(s, EnsureWorkers(c, Register(c, s, req, id)))
  {
    if Keyed(req.key) { AcceptedKeyIsNew(c, s, req); }
  }

  lemma CancelGrows(s: State, id: JobId)
    ensures Grows(s, CancelJob(s, id))
  {
  }

  lemma KillGrows(s: State, t: nat)
    requires t < |s.tasks|
    ensures Grows(s, KillTask(s, t))
  {
  }

  lemma FinishGrows(s: State)
    ensures Grows(s, InterruptAll(s))
  {
  }

  lemma SameJobsGrow(s: State, s': State)
    requires s'.jobs == s.jobs && s'.byKey == s.byKey && (s.phase != Serving ==> s'.phase != Serving)
    ensures Grows(s, s')
  {
  }

  lemma StepGrows(c: Settings, s: State, step: Step)
    requires Usable(c) && JobsInv(s) && KeysOk(s) && Enabled(s, step)
    ensures Grows(s, Next(c, s, step))
  {
    match step
    case Submit(req, id) =>
      if Judge(c, s, req) == Accepted { SubmitGrows(c, s, req, id); } else { SameJobsGrow(s, s); }
    case Cancel(id) => CancelGrows(s, id);
    case Start(t) => TakePermitGrows(s, t);
    case Wake(t) => TakePermitGrows(Unwait(s, t), t);
    case Reply(t, outcome) => AnswerGrows(c, s, t, outcome);
    case Kill(t) => KillGrows(s, t);
    case FinishShutdown => FinishGrows(s);
    case _ => SameJobsGrow(s, Next(c, s, step));
  }
}
