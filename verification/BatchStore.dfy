/** The batch job store: its operations as functions on values, and the in-memory class that performs them. */
module BatchStore {
  import opened Wrappers
  import opened BatchStatus
  import opened Filters

  /** The number in a job's id: ids are "job_" and the hexadecimal digits of a random UUID. */
  type JobId = nat

  datatype Usage = Usage(promptTokens: int, completionTokens: int, totalTokens: int)

  /** What a job is created with and never changes. */
  datatype JobSpec = JobSpec(userId: string, projectId: string, apiKeyId: string, model: string, inputPayload: string)

  datatype Job = Job(
    spec: JobSpec,
    status: Status,
    result: Option<string>,
    errorCode: Option<string>,
    errorMessage: Option<string>,
    requestCount: int,
    completedCount: int,
    failedCount: int,
    usage: Option<Usage>)

  /** The dictionary of jobs, with the insertion order that iteration over it follows. */
  datatype Store = Store(order: seq<JobId>, jobs: map<JobId, Job>)

  const EMPTY_STORE := Store([], map[])

  function NewJob(spec: JobSpec): Job {
    Job(spec, Queued, None, None, None, 1, 0, 0, None)
  }

  ghost predicate ValidStore(store: Store) {
    && (forall i, k :: 0 <= i < k < |store.order| ==> store.order[i] != store.order[k])
    && (forall j :: j in store.order <==> j in store.jobs)
  }

  // ---- the operations -------------------------------------------------------

  function Create(store: Store, id: JobId, spec: JobSpec): Store {
    Store(store.order + [id], store.jobs[id := NewJob(spec)])
  }

  predicate HasStatus(store: Store, id: JobId, status: Status) {
    id in store.jobs && store.jobs[id].status == status
  }

  /** Whether `transition` finds the job and may move it; it returns None otherwise. */
  predicate MayTransition(store: Store, id: JobId, target: Status) {
    id in store.jobs && CanTransition(store.jobs[id].status, target)
  }

  function Transition(store: Store, id: JobId, target: Status): Store {
    if MayTransition(store, id, target)
    then store.(jobs := store.jobs[id := store.jobs[id].(status := target)])
    else store
  }

  /** The guard of `mark_succeeded` and `mark_failed`: only a missing or CANCELLED job is refused. */
  predicate MayMark(store: Store, id: JobId) {
    id in store.jobs && store.jobs[id].status != Cancelled
  }

  function MarkSucceeded(store: Store, id: JobId, result: string, usage: Usage): Store {
    if MayMark(store, id) then
      var job := store.jobs[id].(status := Succeeded, result := Some(result), completedCount := 1,
                                 failedCount := 0, usage := Some(usage));
      store.(jobs := store.jobs[id := job])
    else store
  }

  function MarkFailed(store: Store, id: JobId, error: Error): Store {
    if MayMark(store, id) then
      var job := store.jobs[id].(status := Failed, errorCode := Some(error.code),
                                 errorMessage := Some(error.message), failedCount := 1);
      store.(jobs := store.jobs[id := job])
    else store
  }

  /** The ids of the QUEUED jobs, oldest first. */
  function QueuedIds(order: seq<JobId>, jobs: map<JobId, Job>): (ids: seq<JobId>)
    ensures forall j :: j in ids <==> j in order && j in jobs && jobs[j].status == Queued
    ensures |ids| <= |order|
  {
    if order == [] then []
    else
      var rest := QueuedIds(order[..|order| - 1], jobs);
      var last := order[|order| - 1];
      assert order == order[..|order| - 1] + [last];
      if last in jobs && jobs[last].status == Queued then rest + [last] else rest
  }

  /** Python's `items[:limit]`: a negative limit counts from the end. */
  function UpTo<T>(items: seq<T>, limit: int): (prefix: seq<T>)
    ensures prefix <= items
    ensures limit >= 0 ==> |prefix| == if limit < |items| then limit else |items|
    ensures limit < 0 ==> |prefix| == if -limit < |items| then |items| + limit else 0
  {
    if 0 <= limit <= |items| then items[..limit]
    else if limit > |items| then items
    else if |items| + limit > 0 then items[..|items| + limit]
    else []
  }

  function Recoverable(store: Store, limit: int): seq<JobId> {
    UpTo(QueuedIds(store.order, store.jobs), limit)
  }

  /** `j` was created before `k`. */
  ghost predicate CreatedBefore(store: Store, j: JobId, k: JobId) {
    Ahead(store.order, j, k)
  }

  /** The listed ids are of QUEUED jobs in the order of their creation, and no QUEUED job is passed over for a younger. */
  ghost predicate ListsOldestFirst(store: Store, ids: seq<JobId>) {
    && (forall j :: j in ids ==> HasStatus(store, j, Queued))
    && (forall p, q :: 0 <= p < q < |ids| ==> CreatedBefore(store, ids[p], ids[q]))
    && (forall j, q :: HasStatus(store, j, Queued) && 0 <= q < |ids| && CreatedBefore(store, j, ids[q]) ==>
          Ahead(ids, j, ids[q]))
  }

  lemma {:induction false} QueuedIdsFilter(order: seq<JobId>, jobs: map<JobId, Job>, keep: JobId -> bool)
    requires forall j :: keep(j) <==> j in jobs && jobs[j].status == Queued
    ensures QueuedIds(order, jobs) == Filter(order, keep)
  {
    if order != [] {
      QueuedIdsFilter(order[..|order| - 1], jobs, keep);
    }
  }

  lemma {:induction false} QueuedIdsDistinct(order: seq<JobId>, jobs: map<JobId, Job>)
    requires Distinct(order)
    ensures Distinct(QueuedIds(order, jobs))
  {
    if order != [] {
      QueuedIdsDistinct(order[..|order| - 1], jobs);
    }
  }

  /** The oldest QUEUED jobs are listed, and all of them if there are no more than the limit. */
  lemma RecoverableAreOldest(store: Store, limit: int)
    requires ValidStore(store)
    ensures ListsOldestFirst(store, Recoverable(store, limit))
    ensures limit >= 0 ==> |Recoverable(store, limit)| <= limit
    ensures 0 <= |Recoverable(store, limit)| < limit ==>
              forall j :: HasStatus(store, j, Queued) ==> j in Recoverable(store, limit)
  {
    var keep := (j: JobId) => HasStatus(store, j, Queued);
    var all, ids := QueuedIds(store.order, store.jobs), Recoverable(store, limit);
    QueuedIdsFilter(store.order, store.jobs, keep);
    FilterIsOldestFirst(store.order, keep);
    QueuedIdsDistinct(store.order, store.jobs);
    assert ids == all[..|ids|];
    forall j, q | HasStatus(store, j, Queued) && 0 <= q < |ids| && CreatedBefore(store, j, ids[q])
      ensures Ahead(ids, j, ids[q])
    {
      PrefixKeepsAhead(all, j, q, |ids|);
    }
  }

  lemma CreateIsValid(store: Store, id: JobId, spec: JobSpec)
    requires ValidStore(store) && id !in store.jobs
    ensures ValidStore(Create(store, id, spec))
  {
  }

  // ---- what the guards alone guarantee ---------------------------------------

  /** Every operation leaves the other jobs as they were. */
  ghost predicate OnlyChanges(before: Store, after: Store, id: JobId) {
    && after.order == before.order
    && after.jobs.Keys == before.jobs.Keys
    && (forall j :: j in before.jobs && j != id ==> after.jobs[j] == before.jobs[j])
  }

  /** The status of `id` stays put or takes an allowed step. */
  ghost predicate StatusAllowed(before: Store, after: Store, id: JobId) {
    id in before.jobs && id in after.jobs ==>
      || after.jobs[id].status == before.jobs[id].status
      || CanTransition(before.jobs[id].status, after.jobs[id].status)
  }

  /** `transition` alone keeps every job on the state machine. */
  lemma TransitionIsAllowed(store: Store, id: JobId, target: Status)
    ensures OnlyChanges(store, Transition(store, id, target), id)
    ensures StatusAllowed(store, Transition(store, id, target), id)
    ensures id in store.jobs && Terminal(store.jobs[id].status) ==> Transition(store, id, target) == store
  {
  }

  /**
   * The marks do not: their guard refuses CANCELLED only. `mark_failed` would turn a SUCCEEDED job into a FAILED one,
   * and `mark_succeeded` would move a QUEUED or FAILED job to SUCCEEDED; each is safe exactly off those statuses.
   */
  lemma MarksAreAllowedIff(store: Store, id: JobId, result: string, usage: Usage, error: Error)
    requires id in store.jobs
    ensures OnlyChanges(store, MarkSucceeded(store, id, result, usage), id)
    ensures OnlyChanges(store, MarkFailed(store, id, error), id)
    ensures StatusAllowed(store, MarkSucceeded(store, id, result, usage), id)
            <==> store.jobs[id].status in {Running, Cancelled, Succeeded}
    ensures StatusAllowed(store, MarkFailed(store, id, error), id)
            <==> store.jobs[id].status != Succeeded
  {
  }
}
