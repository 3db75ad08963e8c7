/**
 * Runs of the analytics pipeline: requests collect events while any number of flushes are under way, each having
 * drained a batch that it later acknowledges or puts back.
 */
module AnalyticsRuns {
  import opened Analytics

  /**
   * The collector, the batch of every flush so far (emptied when the flush is over), and the bags of all events that
   * were collected, acknowledged by ClickHouse, and dropped.
   */
  datatype Pipeline = Pipeline(
    c: Collected,
    flights: seq<seq<Event>>,
    collected: multiset<Event>,
    acknowledged: multiset<Event>,
    dropped: multiset<Event>)

  datatype Action =
    | CollectEvent(event: Event)
    | StartFlush(batchSize: int)
    | Acknowledge(flight: nat)
    | FailFlush(flight: nat)

  predicate Enabled(p: Pipeline, a: Action) {
    match a
    case Acknowledge(f) => f < |p.flights|
    case FailFlush(f) => f < |p.flights|
    case _ => true
  }

  function Step(p: Pipeline, a: Action): Pipeline
    requires Enabled(p, a)
  {
    match a
    case CollectEvent(e) =>
      p.(c := Collect(p.c, e), collected := p.collected + multiset{e},
         dropped := if Full(p.c) && !e.critical then p.dropped + multiset{e} else p.dropped)
    case StartFlush(n) =>
      p.(c := Drain(p.c, n), flights := p.flights + [p.c.queue[..BatchLength(p.c, n)]])
    case Acknowledge(f) =>
      p.(flights := p.flights[f := []], acknowledged := p.acknowledged + multiset(p.flights[f]))
    case FailFlush(f) =>
      var rest := p.flights[f][Room(p.c, |p.flights[f]|)..];
      p.(c := Requeue(p.c, p.flights[f]), flights := p.flights[f := []], dropped := p.dropped + multiset(NonCritical(rest)))
  }

  ghost predicate Init(p: Pipeline) {
    && p.c == Collected(p.c.maxSize, [], [], 0, 0)
    && p.flights == [] && p.collected == multiset{} && p.acknowledged == multiset{} && p.dropped == multiset{}
  }

  ghost predicate Run(states: seq<Pipeline>, actions: seq<Action>) {
    && |states| == |actions| + 1
    && Init(states[0])
    && (forall i :: 0 <= i < |actions| ==> Enabled(states[i], actions[i]) && states[i + 1] == Step(states[i], actions[i]))
  }

  // ---- bags ------------------------------------------------------------------------------------

  function InFlight(flights: seq<seq<Event>>): multiset<Event> {
    if flights == [] then multiset{} else InFlight(flights[..|flights| - 1]) + multiset(flights[|flights| - 1])
  }

  lemma {:induction false} FlightEnds(flights: seq<seq<Event>>, f: nat)
    requires f < |flights|
    ensures InFlight(flights) == InFlight(flights[f := []]) + multiset(flights[f])
  {
    var front := flights[..|flights| - 1];
    if f < |front| {
      FlightEnds(front, f);
      assert flights[f := []][..|flights| - 1] == front[f := []];
    } else {
      assert flights[f := []][..|flights| - 1] == front;
    }
  }

  lemma SplitBag(events: seq<Event>, n: nat)
    requires n <= |events|
    ensures multiset(events) == multiset(events[..n]) + multiset(events[n..])
  {
    assert events == events[..n] + events[n..];
  }

  lemma {:induction false} CriticalityBag(events: seq<Event>)
    ensures multiset(events) == multiset(Critical(events)) + multiset(NonCritical(events))
    ensures forall e :: e in Critical(events) ==> e.critical
    ensures forall e :: e in NonCritical(events) ==> !e.critical
  {
    if events != [] {
      var front, last := events[..|events| - 1], events[|events| - 1];
      CriticalityBag(front);
      assert events == front + [last];
    }
  }

  // ---- conservation ---------------------------------------------------------------------------------

  ghost predicate Conserved(p: Pipeline) {
    p.collected == multiset(p.c.queue) + InFlight(p.flights) + p.acknowledged + multiset(p.c.spooled) + p.dropped
  }

  ghost predicate Sound(p: Pipeline) {
    && Conserved(p)
    && (p.c.maxSize > 0 ==> |p.c.queue| <= p.c.maxSize)
    && p.c.droppedNonCritical == |p.dropped|
    && (forall e :: e in p.dropped ==> !e.critical)
    && (forall e :: e in p.c.spooled ==> e.critical)
    && p.c.spooledCritical <= |p.c.spooled|
  }

  lemma StartKeepsSound(p: Pipeline, n: int)
    requires Sound(p)
    ensures Sound(Step(p, StartFlush(n)))
  {
    var t := Step(p, StartFlush(n));
    SplitBag(p.c.queue, BatchLength(p.c, n));
    assert t.flights[..|t.flights| - 1] == p.flights;
  }

  lemma FailKeepsSound(p: Pipeline, f: nat)
    requires Sound(p) && f < |p.flights|
    ensures Sound(Step(p, FailFlush(f)))
  {
    var events := p.flights[f];
    var room := Room(p.c, |events|);
    RequeueAppends(p.c, events);
    FlightEnds(p.flights, f);
    SplitBag(events, room);
    CriticalityBag(events[room..]);
  }

  lemma CollectKeepsSound(p: Pipeline, e: Event)
    requires Sound(p)
    ensures Sound(Step(p, CollectEvent(e)))
  {
  }

  lemma AcknowledgeKeepsSound(p: Pipeline, f: nat)
    requires Sound(p) && f < |p.flights|
    ensures Sound(Step(p, Acknowledge(f)))
  {
    FlightEnds(p.flights, f);
  }

  lemma StepKeepsSound(p: Pipeline, a: Action)
    requires Sound(p) && Enabled(p, a)
    ensures Sound(Step(p, a))
  {
    match a
    case CollectEvent(e) => CollectKeepsSound(p, e);
    case StartFlush(n) => StartKeepsSound(p, n);
    case Acknowledge(f) => AcknowledgeKeepsSound(p, f);
    case FailFlush(f) => FailKeepsSound(p, f);
  }

  /**
   * In every reachable state each collected event is in the queue, in the batch of a running flush, acknowledged,
   * handed to the spool, or dropped, exactly as often as it was collected; the queue is within its maximum; only
   * events that are not critical are dropped, and the counter is their exact number.
   */
  lemma {:induction false} EventsAreConserved(states: seq<Pipeline>, actions: seq<Action>, n: nat)
    requires Run(states, actions) && n <= |actions|
    ensures var p := states[n];
            && p.collected == multiset(p.c.queue) + InFlight(p.flights) + p.acknowledged + multiset(p.c.spooled) + p.dropped
            && (p.c.maxSize > 0 ==> |p.c.queue| <= p.c.maxSize)
            && p.c.droppedNonCritical == |p.dropped|
            && (forall e :: e in p.dropped ==> !e.critical)
            && (forall e :: e in p.c.spooled ==> e.critical)
            && p.c.spooledCritical <= |p.c.spooled|
  {
    RunIsSound(states, actions, n);
  }

  lemma {:induction false} RunIsSound(states: seq<Pipeline>, actions: seq<Action>, n: nat)
    requires Run(states, actions) && n <= |actions|
    ensures Sound(states[n])
  {
    if n > 0 {
      RunIsSound(states, actions, n - 1);
      StepKeepsSound(states[n - 1], actions[n - 1]);
    }
  }

  /** So no critical event is ever lost on the way to ClickHouse or the spool. */
  lemma CriticalEventsAreNotLost(states: seq<Pipeline>, actions: seq<Action>, n: nat, e: Event)
    requires Run(states, actions) && n <= |actions| && e.critical
    ensures var p := states[n];
            p.collected[e] == multiset(p.c.queue)[e] + InFlight(p.flights)[e] + p.acknowledged[e] + multiset(p.c.spooled)[e]
  {
    EventsAreConserved(states, actions, n);
  }

  /** The critical events among the first `n` actions that were collected while the queue was full. */
  ghost function CriticalRefusals(states: seq<Pipeline>, actions: seq<Action>, n: nat): nat
    requires n <= |actions| < |states|
  {
    if n == 0 then 0
    else
      var p, a := states[n - 1], actions[n - 1];
      CriticalRefusals(states, actions, n - 1) + if a.CollectEvent? && a.event.critical && Full(p.c) then 1 else 0
  }

  lemma RequeueKeepsCount(c: Collected, events: seq<Event>)
    ensures Requeue(c, events).spooledCritical == c.spooledCritical
  {
    RequeueAppends(c, events);
  }

  /** `spooled_critical` counts what collecting hands to the spool, and nothing of what requeuing does. */
  lemma {:induction false} SpooledCriticalCountsCollects(states: seq<Pipeline>, actions: seq<Action>, n: nat)
    requires Run(states, actions) && n <= |actions|
    ensures states[n].c.spooledCritical == CriticalRefusals(states, actions, n)
  {
    if n > 0 {
      SpooledCriticalCountsCollects(states, actions, n - 1);
      var p, a := states[n - 1], actions[n - 1];
      if a.FailFlush? {
        RequeueKeepsCount(p.c, p.flights[a.flight]);
      }
    }
  }

  // ---- order ----------------------------------------------------------------------------------------

  /** The events that collecting has put into the queue, in order. */
  ghost function Queued(states: seq<Pipeline>, actions: seq<Action>, n: nat): seq<Event>
    requires n <= |actions| < |states|
  {
    if n == 0 then []
    else
      var p, a := states[n - 1], actions[n - 1];
      Queued(states, actions, n - 1) + if a.CollectEvent? && !Full(p.c) then [a.event] else []
  }

  /** The batches that flushes have drained, one after the other. */
  ghost function Drained(states: seq<Pipeline>, actions: seq<Action>, n: nat): seq<Event>
    requires n <= |actions| < |states|
  {
    if n == 0 then []
    else
      var p, a := states[n - 1], actions[n - 1];
      Drained(states, actions, n - 1) + if a.StartFlush? then p.c.queue[..BatchLength(p.c, a.batchSize)] else []
  }

  lemma Regroup(a: seq<Event>, b: seq<Event>, c: seq<Event>)
    ensures (a + b) + c == a + (b + c)
  {
  }

  /** As long as no flush has failed, events leave the queue in the order in which they were collected. */
  lemma {:induction false} OrderIsKeptUntilAFlushFails(states: seq<Pipeline>, actions: seq<Action>, n: nat)
    requires Run(states, actions) && n <= |actions|
    requires forall i :: 0 <= i < n ==> !actions[i].FailFlush?
    ensures Drained(states, actions, n) + states[n].c.queue == Queued(states, actions, n)
  {
    if n > 0 {
      OrderIsKeptUntilAFlushFails(states, actions, n - 1);
      var p, a := states[n - 1], actions[n - 1];
      var before := Drained(states, actions, n - 1);
      match a
      case CollectEvent(e) =>
        Regroup(before, p.c.queue, [e]);
        assert before + [] == before;
      case StartFlush(size) =>
        var taken := BatchLength(p.c, size);
        Regroup(before, p.c.queue[..taken], p.c.queue[taken..]);
        assert p.c.queue[..taken] + p.c.queue[taken..] == p.c.queue;
      case Acknowledge(_) =>
        assert before + [] == before;
    }
  }

  /** Where the p-th event of a failed flush ends up, if there is room for it. */
  function PutBackAt(c: Collected, p: nat): nat {
    |c.queue| + p
  }

  /** Where the q-th event collected since the batch was drained ends up. */
  function KeptAt(q: nat): nat {
    q
  }

  /** The events collected since keep their places, and those put back get the places after them. */
  ghost predicate TakePlacesBehind(c: Collected, events: seq<Event>, queue: seq<Event>) {
    && |queue| == |c.queue| + |events|
    && (forall q: nat :: q < |c.queue| ==> queue[KeptAt(q)] == c.queue[q])
    && (forall p: nat :: p < |events| ==> queue[PutBackAt(c, p)] == events[p])
  }

  /** Every event put back, of which there are `room`, is ahead of every one collected since. */
  ghost predicate OlderComeFirst(c: Collected, room: nat) {
    forall p: nat, q: nat :: p < room && q < |c.queue| ==> PutBackAt(c, p) < KeptAt(q)
  }

  lemma AppendedTakePlacesBehind(c: Collected, events: seq<Event>)
    ensures TakePlacesBehind(c, events, c.queue + events)
  {
  }

  lemma OlderComeFirstIff(c: Collected, room: nat)
    ensures OlderComeFirst(c, room) <==> c.queue == [] || room == 0
  {
    if c.queue != [] && room != 0 {
      assert !(PutBackAt(c, 0) < KeptAt(0));
    }
  }

  lemma QueueShowsOrder(queue: seq<Event>, older: seq<Event>)
    requires queue != [] && older != [] ==> queue[0] != older[0]
    ensures queue + older == older + queue <==> queue == [] || older == []
  {
    if queue != [] && older != [] {
      assert (queue + older)[0] == queue[0] && (older + queue)[0] == older[0];
    } else {
      assert queue + older == older + queue;
    }
  }

  /**
   * A failed flush keeps the order - its events come before those collected since - exactly when nothing has been
   * collected since or there is no room to put anything back. Otherwise an older event ends up behind a younger one.
   * Unless the two sequences begin with equal events, the queue itself shows it.
   */
  lemma FailedFlushKeepsOrderIff(c: Collected, events: seq<Event>)
    ensures var room := Room(c, |events|); TakePlacesBehind(c, events[..room], Requeue(c, events).queue)
    ensures OlderComeFirst(c, Room(c, |events|)) <==> c.queue == [] || Room(c, |events|) == 0
    ensures c.queue == [] || events == [] || c.queue[0] != events[0] ==>
              (Requeue(c, events).queue == events[..Room(c, |events|)] + c.queue
               <==> c.queue == [] || Room(c, |events|) == 0)
  {
    var older := events[..Room(c, |events|)];
    RequeueAppends(c, events);
    AppendedTakePlacesBehind(c, older);
    OlderComeFirstIff(c, |older|);
    if c.queue == [] || older == [] || c.queue[0] != older[0] {
      QueueShowsOrder(c.queue, older);
    }
  }
}
