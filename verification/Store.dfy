/**
 Job records and the in-memory store: a dictionary of jobs and an index of idempotency keys,
 both changed in place.
 */
module Store {
  import opened Models
  import opened Accounting
  import EngineSpec

  class JobRecord {
    var state: JobState
    const priority: Priority
    const total: nat
    var completed: int
    var succeeded: int
    var failed: int
    var retries: int
    var inputTokens: int
    var outputTokens: int
    var cost: real
    const key: Option<string>
    const fingerprint: string
    var results: Results
    ghost const prompts: seq<PromptItem>
    ghost const items: seq<WorkItem>
    ghost var dequeued: nat
    ghost var dropped: bool
    ghost var lost: set<nat>

    ghost function View(): EngineSpec.Job
      reads this
    {
      EngineSpec.Job(state, priority, total, completed, succeeded, failed, retries, inputTokens, outputTokens,
                     cost, key, fingerprint, results, prompts, items, dequeued, dropped, lost)
    }

    constructor (c: EngineSpec.Settings, req: EngineSpec.Request)
      ensures View() == EngineSpec.NewJob(c, req)
    {
      state, priority, total := Running, req.priority, |req.prompts|;
      completed, succeeded, failed, retries, inputTokens, outputTokens, cost := 0, 0, 0, 0, 0, 0, 0.0;
      key, fingerprint, results := req.key, EngineSpec.Fingerprint(c, req), map[];
      prompts, items, dequeued, dropped, lost := req.prompts, WorkItems(req.prompts), 0, false, {};
    }

    /** One more retry. */
    method AddRetry()
      modifies this`retries
      ensures View() == old(View()).(retries := old(View()).retries + 1)
    {
      retries := retries + 1;
    }

    /** One more item handed to a worker. */
    method HandOut()
      modifies this`dequeued
      ensures View() == old(View()).(dequeued := old(View()).dequeued + 1)
    {
      dequeued := dequeued + 1;
    }

    /** An item interrupted in a worker's hands. */
    method Lose(index: nat)
      modifies this`lost
      ensures View() == old(View()).(lost := old(View()).lost + {index})
    {
      lost := lost + {index};
    }

    /** Cancelled, with what is still queued dropped. */
    method Cancel()
      modifies this`state, this`dropped
      ensures View() == old(View()).(state := Cancelled, dropped := true)
    {
      state := Cancelled;
      dropped := true;
    }

    /** Count a success with its tokens and price, or a failure. */
    method Count(c: EngineSpec.Settings, r: InferenceResult)
      modifies this`succeeded, this`failed, this`inputTokens, this`outputTokens, this`cost
      ensures succeeded == old(succeeded) + (if r.success then 1 else 0)
      ensures failed == old(failed) + (if r.success then 0 else 1)
      ensures inputTokens == old(inputTokens) + r.inputTokens && outputTokens == old(outputTokens) + r.outputTokens
      ensures cost == old(cost) + (if r.success then Price(r.inputTokens, r.outputTokens, c.costIn, c.costOut) else 0.0)
    {
      if r.success {
        succeeded := succeeded + 1;
        cost := cost + Price(r.inputTokens, r.outputTokens, c.costIn, c.costOut);
      } else {
        failed := failed + 1;
      }
      inputTokens := inputTokens + r.inputTokens;
      outputTokens := outputTokens + r.outputTokens;
    }

    /** Count a finished prompt and keep its result; the last one completes a running job. */
    method Finish(c: EngineSpec.Settings, index: nat, r: InferenceResult) returns (done: bool)
      modifies this
      ensures View() == EngineSpec.Credit(c, old(View()), index, r)
      ensures done == (state == Completed && old(state) == Running)
    {
      Count(c, r);
      completed := completed + 1;
      results := results[index := r];
      done := completed >= total && state == Running;
      if done {
        state := Completed;
      }
    }

    /** The failed results in submission order, as the loop over all results finds them. */
    method DeadLetters() returns (failures: seq<InferenceResult>)
      ensures failures == DeadLetter(results, total)
    {
      failures := [];
      var ordered: seq<InferenceResult> := [];
      for k := 0 to total
        invariant ordered == Ordered(results, k)
      {
        if k in results {
          ordered := ordered + [results[k]];
        }
      }
      for i := 0 to |ordered|
        invariant failures == Failures(ordered[..i])
      {
        assert ordered[..i + 1][..i] == ordered[..i];
        if !ordered[i].success {
          failures := failures + [ordered[i]];
        }
      }
      assert ordered[..|ordered|] == ordered;
    }
  }

  class InMemoryJobStore {
    var jobs: map<JobId, JobRecord>
    var order: seq<JobId>
    var byKey: map<string, JobId>

    /** Different ids have different records, and the order lists exactly the ids. */
    ghost predicate Valid()
      reads this
    {
      && (forall a, b :: a in jobs && b in jobs && a != b ==> jobs[a] != jobs[b])
      && (forall id :: id in jobs <==> id in order)
    }

    ghost function Jobs(): map<JobId, EngineSpec.Job>
      reads this, jobs.Values
    {
      map id | id in jobs :: jobs[id].View()
    }

    /** If only one record changed, only its entry of the view did. */
    twostate lemma OneChanged(id: JobId)
      requires old(Valid()) && unchanged(this) && id in jobs
      requires forall j :: j in jobs && j != id ==> unchanged(jobs[j])
      ensures Jobs() == old(Jobs())[id := jobs[id].View()]
    {
    }

    constructor ()
      ensures Valid() && jobs == map[] && order == [] && byKey == map[]
    {
      jobs, order, byKey := map[], [], map[];
    }

    /** A record not yet stored is different from every stored one. */
    lemma Distinct(id: JobId, job: JobRecord)
      requires Valid() && id !in jobs && job !in jobs.Values
      ensures var next := jobs[id := job];
              forall a, b :: a in next && b in next && a != b ==> next[a] != next[b]
      ensures forall a :: a in jobs[id := job] <==> a in order + [id]
    {
      assert forall a :: a in jobs ==> jobs[a] in jobs.Values;
    }

    method Create(id: JobId, job: JobRecord)
      requires Valid() && id !in jobs && job !in jobs.Values
      modifies this
      ensures Valid() && jobs == old(jobs)[id := job] && order == old(order) + [id]
      ensures Jobs() == old(Jobs())[id := job.View()]
      ensures byKey == if EngineSpec.Keyed(job.key) then old(byKey)[job.key.value := id] else old(byKey)
    {
      Distinct(id, job);
      Insert(id, job);
      if job.key.Some? && job.key.value != "" {
        byKey := byKey[job.key.value := id];
      }
    }

    method Insert(id: JobId, job: JobRecord)
      requires id !in jobs
      modifies this`jobs, this`order
      ensures jobs == old(jobs)[id := job] && order == old(order) + [id]
      ensures Jobs() == old(Jobs())[id := job.View()]
    {
      jobs := jobs[id := job];
      order := order + [id];
    }

    method FindByKey(key: string) returns (found: Option<JobId>)
      ensures found == if key in byKey && byKey[key] != "" && byKey[key] in jobs then Some(byKey[key]) else None
    {
      if key in byKey {
        var id := byKey[key];
        if id != "" && id in jobs {
          return Some(id);
        }
      }
      return None;
    }
  }
}
