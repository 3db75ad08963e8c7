/** The recovery scanner's loop, proved against the queue that one uninterrupted scan should leave. */
module RecoveryScanner {
  import opened Wrappers
  import opened Filters
  import opened BatchStore
  import opened BatchQueue
  import opened BatchService
  import opened BatchRecovery

  /** How the loop extends what it has enqueued so far by its next id. */
  lemma MissingNext(ids: seq<JobId>, i: nat, queue: seq<JobId>)
    requires i < |ids| && Distinct(ids)
    ensures Missing(ids[..i + 1], queue) == Missing(ids[..i], queue) + (if ids[i] in queue then [] else [ids[i]])
    ensures ids[i] in queue + Missing(ids[..i], queue) <==> ids[i] in queue
  {
    assert ids[..i + 1] == ids[..i] + [ids[i]];
    MissingSplits(ids[..i], [ids[i]], queue);
    assert ids[i] !in ids[..i];
  }

  class BatchRecoveryScanner {
    const store: InMemoryBatchJobStore
    const queue: InMemoryBatchQueue

    constructor (store: InMemoryBatchJobStore, queue: InMemoryBatchQueue)
      ensures this.store == store && this.queue == queue
    {
      this.store := store;
      this.queue := queue;
    }

    /** The loop: enqueues the ids that the queue does not hold, and counts them. */
    method EnqueueMissing(ids: seq<JobId>) returns (requeued: Outcome<nat>)
      requires Distinct(ids)
      modifies queue
      ensures var missing := Missing(ids, old(queue.jobIds));
              && (requeued.Ok? <==> missing == [] || !queue.failEnqueue)
              && (requeued.Ok? ==> requeued.value == |missing|)
              && queue.jobIds == old(queue.jobIds) + (if requeued.Ok? then missing else [])
    {
      ghost var before := queue.jobIds;
      var count := 0;
      for i := 0 to |ids|
        invariant count == |Missing(ids[..i], before)|
        invariant queue.jobIds == before + Missing(ids[..i], before)
        invariant queue.failEnqueue ==> Missing(ids[..i], before) == []
      {
        MissingNext(ids, i, before);
        var found := queue.Contains(ids[i]);
        if found {
          continue;
        }
        var enqueued := queue.EnqueueId(ids[i]);
        if enqueued.Raise? {
          assert ids[i] in Missing(ids, before);
          assert |Missing(ids, before)| > 0;
          return Raise(enqueued.error);
        }
        count := count + 1;
      }
      assert ids[..|ids|] == ids;
      return Ok(count);
    }

    /** Enqueues exactly the recoverable jobs the queue lacks and returns their number; a failing enqueue escapes. */
    method ReenqueueMissing(limit: int) returns (requeued: Outcome<nat>)
      requires store.Valid()
      modifies queue
      ensures var missing := old(Missing(Recoverable(store.View(), limit), queue.jobIds));
              && (requeued.Ok? <==> missing == [] || !queue.failEnqueue)
              && (requeued.Ok? ==> requeued.value == |missing|
                                   && queue.jobIds == old(ScannedQueue(store.View(), queue.jobIds, limit)))
              && (requeued.Ok? ==> AddsOldestFirst(store.View(), old(queue.jobIds), queue.jobIds))
              && (requeued.Raise? ==> queue.jobIds == old(queue.jobIds))
    {
      RecoverableIds(store.View(), limit);
      ScanAddsOldestFirst(store.View(), queue.jobIds, limit);
      var ids := store.ListRecoverable(limit);
      requeued := EnqueueMissing(ids);
    }
  }
}
