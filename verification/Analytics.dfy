/** The bounded analytics queue: collecting, draining, requeuing, and what becomes of every event over a run. */
module Analytics {
  import opened Numbers

  datatype Table = UsageEvents | InferenceEvents

  /** An event; `row` stands for the column values that `to_row` returns, which leave `critical` out. */
  datatype Event = Event(table: Table, row: string, critical: bool)

  /** The collector's queue and counters, and the events it has handed to the spool, in order. */
  datatype Collected = Collected(
    maxSize: int,
    queue: seq<Event>,
    spooled: seq<Event>,
    droppedNonCritical: nat,
    spooledCritical: nat)

  /** `asyncio.Queue.full`: a queue whose maximum is not positive is never full. */
  predicate Full(c: Collected) {
    c.maxSize > 0 && |c.queue| >= c.maxSize
  }

  function Collect(c: Collected, event: Event): Collected {
    if !Full(c) then c.(queue := c.queue + [event])
    else if event.critical then c.(spooled := c.spooled + [event], spooledCritical := c.spooledCritical + 1)
    else c.(droppedNonCritical := c.droppedNonCritical + 1)
  }

  /** How many events a batch takes. */
  function BatchLength(c: Collected, batchSize: int): nat {
    if batchSize <= 0 then 0 else if |c.queue| < batchSize then |c.queue| else batchSize
  }

  function Drain(c: Collected, batchSize: int): Collected {
    c.(queue := c.queue[BatchLength(c, batchSize)..])
  }

  /** One event put back: unlike a collected one, a critical event that finds no room is not counted as spooled. */
  function PutBack(c: Collected, event: Event): Collected {
    if !Full(c) then c.(queue := c.queue + [event])
    else if event.critical then c.(spooled := c.spooled + [event])
    else c.(droppedNonCritical := c.droppedNonCritical + 1)
  }

  function Requeue(c: Collected, events: seq<Event>): Collected {
    if events == [] then c else PutBack(Requeue(c, events[..|events| - 1]), events[|events| - 1])
  }

  class AnalyticsCollector {
    const maxSize: int
    var queue: seq<Event>
    var droppedNonCritical: nat
    var spooledCritical: nat
    var spooled: seq<Event>

    ghost function View(): Collected
      reads this
    {
      Collected(maxSize, queue, spooled, droppedNonCritical, spooledCritical)
    }

    constructor (maxSize: int)
      ensures View() == Collected(maxSize, [], [], 0, 0)
    {
      this.maxSize := maxSize;
      queue := [];
      droppedNonCritical := 0;
      spooledCritical := 0;
      spooled := [];
    }

    /** `put_nowait`: appends unless the queue is full. */
    method PutNowait(event: Event) returns (done: bool)
      modifies this`queue
      ensures done <==> !Full(old(View()))
      ensures queue == if done then old(queue) + [event] else old(queue)
    {
      if maxSize > 0 && |queue| >= maxSize {
        return false;
      }
      queue := queue + [event];
      return true;
    }

    method CollectEvent(event: Event) returns (queued: bool)
      modifies this
      ensures View() == Collect(old(View()), event) && (queued <==> !Full(old(View())))
      ensures queued <==> maxSize <= 0 || |old(queue)| < maxSize
      ensures queue == old(queue) + (if queued then [event] else [])
      ensures spooled == old(spooled) + (if !queued && event.critical then [event] else [])
    {
      queued := PutNowait(event);
      if !queued {
        if event.critical {
          spooledCritical := spooledCritical + 1;
          spooled := spooled + [event];
        } else {
          droppedNonCritical := droppedNonCritical + 1;
        }
      }
    }

    method DrainBatch(batchSize: int) returns (events: seq<Event>)
      modifies this
      ensures View() == Drain(old(View()), batchSize)
      ensures events == old(queue)[..BatchLength(old(View()), batchSize)]
      ensures events + queue == old(queue) && |events| == Max(0, Min(batchSize, |old(queue)|))
    {
      events := [];
      while |events| < batchSize && queue != []
        invariant |events| <= BatchLength(old(View()), batchSize)
        invariant events == old(queue)[..|events|] && queue == old(queue)[|events|..]
        invariant View() == old(View()).(queue := queue)
      {
        events := events + [queue[0]];
        queue := queue[1..];
      }
    }

    method RequeueFront(events: seq<Event>)
      modifies this
      ensures View() == Requeue(old(View()), events)
    {
      for i := 0 to |events|
        invariant View() == Requeue(old(View()), events[..i])
      {
        assert events[..i + 1][..i] == events[..i];
        var queued := PutNowait(events[i]);
        if !queued {
          if events[i].critical {
            spooled := spooled + [events[i]];
          } else {
            droppedNonCritical := droppedNonCritical + 1;
          }
        }
      }
      assert events[..|events|] == events;
    }
  }

  // ---- what requeuing does -----------------------------------------------------------------

  /** How many of `count` events the queue has room for. */
  function Room(c: Collected, count: nat): nat {
    if c.maxSize <= 0 || |c.queue| + count <= c.maxSize then count
    else if |c.queue| >= c.maxSize then 0
    else c.maxSize - |c.queue|
  }

  function Critical(events: seq<Event>): seq<Event> {
    if events == [] then []
    else Critical(events[..|events| - 1]) + if events[|events| - 1].critical then [events[|events| - 1]] else []
  }

  function NonCritical(events: seq<Event>): seq<Event> {
    if events == [] then []
    else NonCritical(events[..|events| - 1]) + if events[|events| - 1].critical then [] else [events[|events| - 1]]
  }

  /**
   * Despite its name `requeue_front` appends: first come the events queued since, then as many of the returned ones
   * as there is room for. Of the rest, the critical ones go to the spool and the others are dropped and counted.
   */
  lemma {:induction false} RequeueAppends(c: Collected, events: seq<Event>)
    ensures var room := Room(c, |events|);
            && 0 <= room <= |events|
            && Requeue(c, events) == c.(queue := c.queue + events[..room],
                                        spooled := c.spooled + Critical(events[room..]),
                                        droppedNonCritical := c.droppedNonCritical + |NonCritical(events[room..])|)
  {
    if events == [] {
      assert c.queue + [] == c.queue && c.spooled + [] == c.spooled;
    } else {
      var front, last := events[..|events| - 1], events[|events| - 1];
      RequeueAppends(c, front);
      if Room(c, |events|) == |events| {
        LastFits(c, front, last);
      } else {
        LastIsLeftOver(c, front, last);
      }
      assert events == front + [last];
    }
  }

  /** The claim of RequeueAppends, for the event after `front` when there is room for it. */
  lemma LastFits(c: Collected, front: seq<Event>, last: Event)
    requires Room(c, |front| + 1) == |front| + 1
    requires Requeue(c, front) == c.(queue := c.queue + front[..|front|],
                                     spooled := c.spooled + Critical(front[|front|..]),
                                     droppedNonCritical := c.droppedNonCritical + |NonCritical(front[|front|..])|)
    ensures Room(c, |front|) == |front|
    ensures PutBack(Requeue(c, front), last) == c.(queue := c.queue + (front + [last]))
  {
    assert front[..|front|] == front && front[|front|..] == [];
    assert c.queue + front + [last] == c.queue + (front + [last]);
    assert c.spooled + [] == c.spooled;
  }

  /** And when there is not. */
  lemma LastIsLeftOver(c: Collected, front: seq<Event>, last: Event)
    requires var room := Room(c, |front| + 1);
             room <= |front|
             && Requeue(c, front) == c.(queue := c.queue + front[..room],
                                        spooled := c.spooled + Critical(front[room..]),
                                        droppedNonCritical := c.droppedNonCritical + |NonCritical(front[room..])|)
    ensures var room := Room(c, |front| + 1); var rest := (front + [last])[room..];
            PutBack(Requeue(c, front), last) == c.(queue := c.queue + (front + [last])[..room],
                                                   spooled := c.spooled + Critical(rest),
                                                   droppedNonCritical := c.droppedNonCritical + |NonCritical(rest)|)
  {
    var room := Room(c, |front| + 1);
    var rest := (front + [last])[room..];
    assert (front + [last])[..room] == front[..room];
    assert rest[..|rest| - 1] == front[room..] && rest[|rest| - 1] == last;
    assert c.spooled + (Critical(front[room..]) + [last]) == c.spooled + Critical(front[room..]) + [last];
    assert c.spooled + (Critical(front[room..]) + []) == c.spooled + Critical(front[room..]);
  }
}
