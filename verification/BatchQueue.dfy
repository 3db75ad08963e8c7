/** The two batch queues: a Redis list, and the in-memory list that refuses an id it already holds. */
module BatchQueue {
  import opened Wrappers
  import opened BatchStore

  datatype QueueKind = RedisList | InMemoryList

  function Enqueue(kind: QueueKind, queue: seq<JobId>, id: JobId): (after: seq<JobId>)
    ensures queue <= after
    ensures forall j :: j in after <==> j in queue || j == id
  {
    if kind == InMemoryList && id in queue then queue else queue + [id]
  }

  function EnqueueAll(kind: QueueKind, queue: seq<JobId>, ids: seq<JobId>): seq<JobId> {
    if ids == [] then queue
    else Enqueue(kind, EnqueueAll(kind, queue, ids[..|ids| - 1]), ids[|ids| - 1])
  }

  /** The first occurrence of every id, in queue order. */
  function FirstOccurrences(queue: seq<JobId>): (firsts: seq<JobId>)
    ensures forall j :: j in firsts <==> j in queue
  {
    if queue == [] then []
    else
      var head := queue[..|queue| - 1];
      var last := queue[|queue| - 1];
      assert queue == head + [last];
      if last in head then FirstOccurrences(head) else FirstOccurrences(head) + [last]
  }

  /** Fed the same ids, the in-memory queue holds the first occurrences of what the Redis list holds. */
  lemma {:induction false} QueuesAgree(ids: seq<JobId>)
    ensures EnqueueAll(InMemoryList, [], ids) == FirstOccurrences(EnqueueAll(RedisList, [], ids))
  {
    if ids != [] {
      var head := ids[..|ids| - 1];
      QueuesAgree(head);
      var redis := EnqueueAll(RedisList, [], head);
      var longer := EnqueueAll(RedisList, [], ids);
      assert longer[..|longer| - 1] == redis && longer[|longer| - 1] == ids[|ids| - 1];
    }
  }

  /** `RedisBatchQueue`, over the Redis list kept under its queue key. */
  class RedisBatchQueue {
    var list: seq<JobId>

    constructor ()
      ensures list == []
    {
      list := [];
    }

    method EnqueueId(id: JobId)
      modifies this
      ensures list == Enqueue(RedisList, old(list), id)
    {
      list := list + [id];
    }

    method Dequeue() returns (id: Option<JobId>)
      modifies this
      ensures old(list) == [] ==> id == None && list == []
      ensures old(list) != [] ==> id == Some(old(list)[0]) && list == old(list)[1..]
    {
      if list == [] {
        return None;
      }
      id := Some(list[0]);
      list := list[1..];
    }

    method Contains(id: JobId) returns (found: bool)
      ensures found <==> id in list
    {
      var values := set value | value in list;
      found := id in values;
    }
  }

  /** `InMemoryBatchQueue`, with the switch its tests use to make every enqueue raise. */
  class InMemoryBatchQueue {
    var jobIds: seq<JobId>
    const failEnqueue: bool

    constructor (failEnqueue: bool)
      ensures jobIds == [] && this.failEnqueue == failEnqueue
    {
      jobIds := [];
      this.failEnqueue := failEnqueue;
    }

    method EnqueueId(id: JobId) returns (done: Outcome<()>)
      modifies this
      ensures done.Ok? <==> !failEnqueue
      ensures jobIds == if failEnqueue then old(jobIds) else Enqueue(InMemoryList, old(jobIds), id)
    {
      if failEnqueue {
        return Raise(Error("RuntimeError", "redis enqueue failed"));
      }
      if id !in jobIds {
        jobIds := jobIds + [id];
      }
      done := Ok(());
    }

    method Dequeue() returns (id: Option<JobId>)
      modifies this
      ensures old(jobIds) == [] ==> id == None && jobIds == []
      ensures old(jobIds) != [] ==> id == Some(old(jobIds)[0]) && jobIds == old(jobIds)[1..]
    {
      if jobIds == [] {
        return None;
      }
      id := Some(jobIds[0]);
      jobIds := jobIds[1..];
    }

    method Contains(id: JobId) returns (found: bool)
      ensures found <==> id in jobIds
    {
      found := id in jobIds;
    }
  }
}
