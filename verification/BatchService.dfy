/** The in-memory job store, whose records are updated in place, and the service that submits and cancels jobs. */
module BatchService {
  import opened Wrappers
  import opened BatchStatus
  import opened BatchStore
  import opened BatchQueue

  /** `BatchJobRecord`; its `metadata` holds nothing but the usage. */
  class BatchJobRecord {
    const id: JobId
    const spec: JobSpec
    var status: Status
    var result: Option<string>
    var errorCode: Option<string>
    var errorMessage: Option<string>
    var requestCount: int
    var completedCount: int
    var failedCount: int
    var usage: Option<Usage>

    constructor (id: JobId, spec: JobSpec)
      ensures this.id == id && View() == NewJob(spec)
    {
      this.id := id;
      this.spec := spec;
      status := Queued;
      result := None;
      errorCode := None;
      errorMessage := None;
      requestCount := 1;
      completedCount := 0;
      failedCount := 0;
      usage := None;
    }

    ghost function View(): Job
      reads this
    {
      Job(spec, status, result, errorCode, errorMessage, requestCount, completedCount, failedCount, usage)
    }
  }

  class InMemoryBatchJobStore {
    var order: seq<JobId>
    var jobs: map<JobId, BatchJobRecord>

    /** Every job's record is filed under its own id, so no two ids share a record. */
    ghost predicate Valid()
      reads this, jobs.Values
    {
      && ValidStore(View())
      && (forall j :: j in jobs ==> jobs[j].id == j)
    }

    ghost function View(): Store
      reads this, jobs.Values
    {
      Store(order, map j | j in jobs :: jobs[j].View())
    }

    constructor ()
      ensures Valid() && View() == EMPTY_STORE && jobs == map[]
    {
      order := [];
      jobs := map[];
    }

    /** `id` is the random id that `create` draws. */
    method CreateJob(id: JobId, spec: JobSpec) returns (job: BatchJobRecord)
      requires Valid() && id !in jobs
      modifies this
      ensures Valid() && View() == Create(old(View()), id, spec)
      ensures fresh(job) && job.id == id && jobs == old(jobs)[id := job] && order == old(order) + [id]
    {
      ghost var before := View();
      CreateIsValid(before, id, spec);
      job := new BatchJobRecord(id, spec);
      jobs := jobs[id := job];
      order := order + [id];
      assert View() == Create(before, id, spec);
    }

    method Get(id: JobId) returns (job: BatchJobRecord?)
      requires Valid()
      ensures job != null <==> id in jobs
      ensures job != null ==> job == jobs[id]
    {
      if id in jobs {
        return jobs[id];
      }
      return null;
    }

    method TransitionTo(id: JobId, target: Status) returns (job: BatchJobRecord?)
      requires Valid()
      modifies jobs.Values
      ensures Valid() && jobs == old(jobs) && order == old(order)
      ensures View() == Transition(old(View()), id, target)
      ensures job != null <==> MayTransition(old(View()), id, target)
      ensures job != null ==> job == jobs[id]
    {
      if id !in jobs || !CanTransition(jobs[id].status, target) {
        return null;
      }
      job := jobs[id];
      job.status := target;
    }

    method MarkSuccess(id: JobId, result: string, usage: Usage) returns (job: BatchJobRecord?)
      requires Valid()
      modifies jobs.Values
      ensures Valid() && jobs == old(jobs) && order == old(order)
      ensures View() == MarkSucceeded(old(View()), id, result, usage)
      ensures job != null <==> MayMark(old(View()), id)
      ensures job != null ==> job == jobs[id]
    {
      if id !in jobs || jobs[id].status == Cancelled {
        return null;
      }
      job := jobs[id];
      job.status := Succeeded;
      job.result := Some(result);
      job.completedCount := 1;
      job.failedCount := 0;
      job.usage := Some(usage);
    }

    method MarkFailure(id: JobId, error: Error) returns (job: BatchJobRecord?)
      requires Valid()
      modifies jobs.Values
      ensures Valid() && jobs == old(jobs) && order == old(order)
      ensures View() == MarkFailed(old(View()), id, error)
      ensures job != null <==> MayMark(old(View()), id)
      ensures job != null ==> job == jobs[id]
    {
      if id !in jobs || jobs[id].status == Cancelled {
        return null;
      }
      job := jobs[id];
      job.status := Failed;
      job.errorCode := Some(error.code);
      job.errorMessage := Some(error.message);
      job.failedCount := 1;
    }

    /** The comprehension over the dictionary's values, then the slice. */
    method ListRecoverable(limit: int) returns (ids: seq<JobId>)
      requires Valid()
      ensures ids == Recoverable(View(), limit)
      ensures ListsOldestFirst(View(), ids)
      ensures limit >= 0 ==> |ids| <= limit
      ensures 0 <= |ids| < limit ==> forall j :: HasStatus(View(), j, Queued) ==> j in ids
    {
      ids := [];
      for i := 0 to |order|
        invariant ids == QueuedIds(order[..i], View().jobs)
      {
        assert order[..i + 1][..i] == order[..i];
        assert order[i] in View().order;
        if jobs[order[i]].status == Queued {
          ids := ids + [order[i]];
        }
      }
      assert order[..|order|] == order;
      ids := UpTo(ids, limit);
      RecoverableAreOldest(View(), limit);
    }
  }

  class BatchJobService {
    const store: InMemoryBatchJobStore
    const queue: InMemoryBatchQueue

    constructor (store: InMemoryBatchJobStore, queue: InMemoryBatchQueue)
      ensures this.store == store && this.queue == queue
    {
      this.store := store;
      this.queue := queue;
    }

    /** A streaming request is refused; otherwise the job exists and is returned even when its enqueue raised. */
    method Submit(id: JobId, spec: JobSpec, stream: bool) returns (job: Outcome<BatchJobRecord>)
      requires store.Valid() && id !in store.jobs
      modifies store, queue
      ensures store.Valid()
      ensures stream ==> job.Raise? && job.error.code == "batch_streaming_not_supported"
                         && store.View() == old(store.View()) && queue.jobIds == old(queue.jobIds)
      ensures !stream ==>
                && job.Ok? && id in store.jobs && job.value == store.jobs[id]
                && store.View() == Create(old(store.View()), id, spec)
                && queue.jobIds == (if queue.failEnqueue then old(queue.jobIds)
                                    else Enqueue(InMemoryList, old(queue.jobIds), id))
    {
      if stream {
        return Raise(Error("batch_streaming_not_supported", "Batch jobs do not support streaming requests"));
      }
      var created := store.CreateJob(id, spec);
      var enqueued := queue.EnqueueId(id);
      return Ok(created);
    }

    method GetJob(id: JobId) returns (job: Outcome<BatchJobRecord>)
      requires store.Valid()
      ensures job.Ok? <==> id in store.jobs
      ensures job.Ok? ==> job.value == store.jobs[id]
      ensures job.Raise? ==> job.error.code == "batch_job_not_found"
    {
      var found := store.Get(id);
      if found == null {
        return Raise(Error("batch_job_not_found", "Batch job not found"));
      }
      return Ok(found);
    }

    /** An existing job comes back in a terminal status: CANCELLED if it could still be cancelled, else the one it had. */
    method Cancel(id: JobId) returns (job: Outcome<BatchJobRecord>)
      requires store.Valid()
      modifies store.jobs.Values
      ensures store.Valid() && store.jobs == old(store.jobs)
      ensures job.Ok? <==> id in store.jobs
      ensures job.Ok? ==> job.value == store.jobs[id] && Terminal(job.value.status)
      ensures job.Ok? ==> job.value.status == if Terminal(old(store.jobs[id].status)) then old(store.jobs[id].status)
                                              else Cancelled
      ensures store.View() == Transition(old(store.View()), id, Cancelled)
    {
      job := GetJob(id);
      if job.Raise? || Terminal(job.value.status) {
        return;
      }
      var cancelled := store.TransitionTo(id, Cancelled);
      if cancelled != null {
        return Ok(cancelled);
      }
      job := GetJob(id);
    }
  }
}
