/** The ClickHouse flusher: one flush inserts a batch table by table, retrying the whole batch when an insert raises. */
module Flusher {
  import opened Wrappers
  import opened Numbers
  import opened Analytics

  /** The rows of the batch for one table, in batch order. */
  function RowsFor(events: seq<Event>, table: Table): seq<string> {
    if events == [] then []
    else
      RowsFor(events[..|events| - 1], table) +
      if events[|events| - 1].table == table then [events[|events| - 1].row] else []
  }

  /** The tables of the batch, in the order in which the batch first mentions them. */
  function TablesOf(events: seq<Event>): seq<Table> {
    if events == [] then []
    else
      var front, last := TablesOf(events[..|events| - 1]), events[|events| - 1];
      if last.table in front then front else front + [last.table]
  }

  lemma NextEvent(events: seq<Event>, i: nat)
    requires i < |events|
    ensures TablesOf(events[..i + 1])
         == TablesOf(events[..i]) + (if events[i].table in TablesOf(events[..i]) then [] else [events[i].table])
    ensures forall t :: RowsFor(events[..i + 1], t)
                     == RowsFor(events[..i], t) + (if events[i].table == t then [events[i].row] else [])
  {
    assert events[..i + 1][..i] == events[..i];
  }

  /** Every table that the batch mentions is there, once. */
  lemma {:induction false} TablesAreDistinct(events: seq<Event>)
    ensures forall t :: t in TablesOf(events) <==> exists i :: 0 <= i < |events| && events[i].table == t
    ensures forall i, k :: 0 <= i < k < |TablesOf(events)| ==> TablesOf(events)[i] != TablesOf(events)[k]
  {
    if events != [] {
      TablesAreDistinct(events[..|events| - 1]);
      assert forall i :: 0 <= i < |events| - 1 ==> events[..|events| - 1][i] == events[i];
    }
  }

  /** A table comes before those that the batch mentions later. */
  lemma {:induction false} TablesFollowMention(events: seq<Event>, i: nat, k: nat)
    requires i < k < |TablesOf(events)|
    ensures exists a :: 0 <= a < |events| && events[a].table == TablesOf(events)[i]
                        && forall b :: 0 <= b <= a ==> events[b].table != TablesOf(events)[k]
  {
    var front := events[..|events| - 1];
    TablesAreDistinct(front);
    if k < |TablesOf(front)| {
      TablesFollowMention(front, i, k);
      var a :| 0 <= a < |front| && front[a].table == TablesOf(front)[i]
               && forall b :: 0 <= b <= a ==> front[b].table != TablesOf(front)[k];
      assert forall b :: 0 <= b <= a ==> events[b] == front[b];
    } else {
      assert TablesOf(front)[i] in TablesOf(front);
      var a :| 0 <= a < |front| && front[a].table == TablesOf(front)[i];
      assert forall b :: 0 <= b <= a ==> events[b] == front[b];
    }
  }

  /** One `client.insert`. */
  datatype Insert = Insert(table: Table, rows: seq<string>)

  /** The inserts of one complete attempt. */
  function Inserts(events: seq<Event>): seq<Insert> {
    seq(|TablesOf(events)|, i requires 0 <= i < |TablesOf(events)| =>
      Insert(TablesOf(events)[i], RowsFor(events, TablesOf(events)[i])))
  }

  /** How an insert turns out; an insert that raises may still have been carried out. */
  datatype Fate = Inserted | Lost(lost: Error) | InsertedThenRaised(raised: Error)

  function FateAt(fates: seq<Fate>, i: nat): Fate {
    if i < |fates| then fates[i] else Inserted
  }

  function Later(fates: seq<Fate>, n: nat): seq<Fate> {
    if n < |fates| then fates[n..] else []
  }

  /** The next `n` inserts do not raise. */
  predicate CarriedOut(fates: seq<Fate>, n: nat) {
    forall i :: 0 <= i < n ==> FateAt(fates, i) == Inserted
  }

  /** The first of `n` inserts that raises leaves `through` of them carried out, itself among them unless it was lost. */
  predicate RaisesAfter(fates: seq<Fate>, n: nat, through: nat) {
    || (through < n && CarriedOut(fates, through) && FateAt(fates, through).Lost?)
    || (0 < through <= n && CarriedOut(fates, through - 1) && FateAt(fates, through - 1).InsertedThenRaised?)
  }

  /** How many inserts an attempt at `n` of them makes: all, or up to the first that raises. */
  function Made(fates: seq<Fate>, n: nat): nat {
    if n == 0 then 0 else if CarriedOut(fates, n - 1) then n else Made(fates, n - 1)
  }

  lemma {:induction false} MadeUpToRaise(fates: seq<Fate>, n: nat, i: nat)
    requires i < n && CarriedOut(fates, i) && !FateAt(fates, i).Inserted?
    ensures Made(fates, n) == i + 1 && !CarriedOut(fates, n)
  {
    if i < n - 1 {
      MadeUpToRaise(fates, n - 1, i);
    }
  }

  /** The fates to come after some attempts at `n` inserts each. */
  function FatesAfter(fates: seq<Fate>, n: nat, attempts: nat): seq<Fate> {
    if attempts == 0 then fates
    else
      var left := FatesAfter(fates, n, attempts - 1);
      Later(left, Made(left, n))
  }

  /** No insert of this attempt, counted from 0, raises. */
  predicate Completes(fates: seq<Fate>, n: nat, attempt: nat) {
    CarriedOut(FatesAfter(fates, n, attempt), n)
  }

  ghost predicate NoneCompletes(fates: seq<Fate>, n: nat, attempts: nat) {
    forall attempt: nat :: attempt < attempts ==> !Completes(fates, n, attempt)
  }

  /**
   * Attempts are made until one of them completes or there are `maxRetries`: none before the last completed, and the
   * outcome is good exactly if one of the first `maxRetries` completes, or none is allowed.
   */
  ghost predicate Retried(fates: seq<Fate>, n: nat, maxRetries: int, attempts: nat, ok: bool) {
    && (attempts > 0 ==> NoneCompletes(fates, n, attempts - 1))
    && (ok <==> maxRetries < 1 || exists attempt: nat :: attempt < maxRetries && Completes(fates, n, attempt))
  }

  /** Whatever the fates beyond those given, the next `n` inserts are carried out without a raise. */
  predicate BeginsInserted(fates: seq<Fate>, n: nat) {
    forall i :: 0 <= i < n && i < |fates| ==> fates[i] == Inserted
  }

  /** The client, with the fates of its inserts to come (those beyond are carried out) and a log of those carried out. */
  class ClickHouseClient {
    var fates: seq<Fate>
    ghost var log: seq<Insert>

    constructor (fates: seq<Fate>)
      ensures this.fates == fates && log == []
    {
      this.fates := fates;
      log := [];
    }

    method InsertRows(table: Table, rows: seq<string>) returns (done: Outcome<()>)
      modifies this
      ensures log == if FateAt(old(fates), 0).Lost? then old(log) else old(log) + [Insert(table, rows)]
      ensures done.Ok? <==> FateAt(old(fates), 0).Inserted?
      ensures fates == Later(old(fates), 1)
    {
      var fate := FateAt(fates, 0);
      fates := Later(fates, 1);
      match fate
      case Inserted =>
        log := log + [Insert(table, rows)];
        return Ok(());
      case Lost(e) =>
        return Raise(e);
      case InsertedThenRaised(e) =>
        log := log + [Insert(table, rows)];
        return Raise(e);
    }
  }

  /** What several attempts have inserted, each having got through the given number of tables. */
  function Written(inserts: seq<Insert>, attempts: seq<nat>): seq<Insert>
    requires forall i :: 0 <= i < |attempts| ==> attempts[i] <= |inserts|
  {
    if attempts == [] then []
    else Written(inserts, attempts[..|attempts| - 1]) + inserts[..attempts[|attempts| - 1]]
  }

  lemma WrittenNext(inserts: seq<Insert>, attempts: seq<nat>, through: nat)
    requires forall i :: 0 <= i < |attempts| ==> attempts[i] <= |inserts|
    requires through <= |inserts|
    ensures Written(inserts, attempts + [through]) == Written(inserts, attempts) + inserts[..through]
  {
    assert (attempts + [through])[..|attempts|] == attempts;
  }

  /** The attempts end with one that completes, or with the last one allowed. */
  lemma RetriesEnd(fates: seq<Fate>, inserts: seq<Insert>, maxRetries: int, attempts: seq<nat>, ok: bool)
    requires 0 < |attempts| <= maxRetries && NoneCompletes(fates, |inserts|, |attempts| - 1)
    requires forall i :: 0 <= i < |attempts| ==> attempts[i] <= |inserts|
    requires ok <==> Completes(fates, |inserts|, |attempts| - 1)
    requires ok ==> attempts[|attempts| - 1] == |inserts|
    requires !ok ==> |attempts| == maxRetries
    ensures Retried(fates, |inserts|, maxRetries, |attempts|, ok)
    ensures BeginsInserted(fates, |inserts|) ==> ok && |attempts| == 1 && Written(inserts, attempts) == inserts
  {
    if BeginsInserted(fates, |inserts|) {
      assert Completes(fates, |inserts|, 0);
      assert attempts[..0] == [] && inserts[..|inserts|] == inserts;
    }
  }

  /** Each attempt but the last is followed by a sleep. */
  function Sleeps(attempts: seq<nat>): nat {
    if attempts == [] then 0 else |attempts| - 1
  }

  /** What arrives during the first `n` sleeps. */
  function Arrived(arrivals: nat -> seq<Event>, n: nat): seq<Event> {
    if n == 0 then [] else Arrived(arrivals, n - 1) + arrivals(n - 1)
  }

  function CollectAll(c: Collected, events: seq<Event>): Collected {
    if events == [] then c else Collect(CollectAll(c, events[..|events| - 1]), events[|events| - 1])
  }

  lemma {:induction false} CollectAllAdds(c: Collected, a: seq<Event>, b: seq<Event>)
    ensures CollectAll(c, a + b) == CollectAll(CollectAll(c, a), b)
  {
    if b == [] {
      assert a + b == a;
    } else {
      assert (a + b)[..|a + b| - 1] == a + b[..|b| - 1];
      CollectAllAdds(c, a, b[..|b| - 1]);
    }
  }

  class ClickHouseFlusher {
    const collector: AnalyticsCollector
    const client: ClickHouseClient
    const batchSize: int
    const maxRetries: int
    var flushFailures: nat

    constructor (collector: AnalyticsCollector, client: ClickHouseClient, batchSize: int, maxRetries: int)
      ensures this.collector == collector && this.client == client
      ensures this.batchSize == batchSize && this.maxRetries == maxRetries && flushFailures == 0
    {
      this.collector := collector;
      this.client := client;
      this.batchSize := batchSize;
      this.maxRetries := maxRetries;
      flushFailures := 0;
    }

    /** The `grouped` dictionary: its keys in insertion order, and its lists. */
    method Group(events: seq<Event>) returns (tables: seq<Table>, grouped: map<Table, seq<string>>)
      ensures tables == TablesOf(events)
      ensures forall t :: t in grouped <==> t in tables
      ensures forall t :: t in grouped ==> grouped[t] == RowsFor(events, t)
    {
      tables, grouped := [], map[];
      for i := 0 to |events|
        invariant tables == TablesOf(events[..i])
        invariant forall t :: t in grouped <==> t in tables
        invariant forall t :: t in grouped ==> grouped[t] == RowsFor(events[..i], t)
        invariant forall t :: t !in grouped ==> RowsFor(events[..i], t) == []
      {
        NextEvent(events, i);
        var table := events[i].table;
        if table !in grouped {
          tables := tables + [table];
          grouped := grouped[table := []];
        }
        grouped := grouped[table := grouped[table] + [events[i].row]];
      }
      assert events[..|events|] == events;
    }

    /** The inserts one after the other, up to the first that raises. */
    method InsertTables(tables: seq<Table>, grouped: map<Table, seq<string>>, ghost inserts: seq<Insert>)
      returns (done: Outcome<()>, ghost through: nat)
      requires |inserts| == |tables|
      requires forall i :: 0 <= i < |tables| ==> tables[i] in grouped && inserts[i] == Insert(tables[i], grouped[tables[i]])
      modifies client
      ensures through <= |inserts| && client.log == old(client.log) + inserts[..through]
      ensures done.Ok? <==> CarriedOut(old(client.fates), |inserts|)
      ensures done.Ok? ==> through == |inserts|
      ensures done.Raise? ==> RaisesAfter(old(client.fates), |inserts|, through)
      ensures client.fates == Later(old(client.fates), Made(old(client.fates), |inserts|))
    {
      through := 0;
      done := Ok(());
      for i := 0 to |tables|
        invariant through == i && done.Ok?
        invariant client.log == old(client.log) + inserts[..i]
        invariant client.fates == Later(old(client.fates), i)
        invariant CarriedOut(old(client.fates), i)
      {
        assert FateAt(client.fates, 0) == FateAt(old(client.fates), i);
        done := client.InsertRows(tables[i], grouped[tables[i]]);
        assert inserts[..i + 1] == inserts[..i] + [inserts[i]];
        if done.Raise? {
          MadeUpToRaise(old(client.fates), |inserts|, i);
          through := if FateAt(old(client.fates), i).Lost? then i else i + 1;
          return;
        }
        through := i + 1;
      }
    }

    /**
     * `_insert`: returns iff no insert raises, having inserted all tables. A raise has inserted those before it, and its
     * own table unless its insert was lost.
     */
    method InsertAll(events: seq<Event>) returns (done: Outcome<()>, ghost through: nat)
      modifies client
      ensures through <= |Inserts(events)|
      ensures client.log == old(client.log) + Inserts(events)[..through]
      ensures done.Ok? <==> CarriedOut(old(client.fates), |Inserts(events)|)
      ensures done.Ok? ==> through == |Inserts(events)|
      ensures done.Raise? ==> RaisesAfter(old(client.fates), |Inserts(events)|, through)
      ensures client.fates == Later(old(client.fates), Made(old(client.fates), |Inserts(events)|))
    {
      var tables, grouped := Group(events);
      done, through := InsertTables(tables, grouped, Inserts(events));
    }

    /** The sleep after an attempt, during which other requests collect events. */
    method Sleep(attempt: nat, arrivals: nat -> seq<Event>, ghost before: Collected)
      requires collector.View() == CollectAll(before, Arrived(arrivals, attempt))
      modifies collector
      ensures collector.View() == CollectAll(before, Arrived(arrivals, attempt + 1))
    {
      var arriving := arrivals(attempt);
      ghost var awake := collector.View();
      for i := 0 to |arriving|
        invariant collector.View() == CollectAll(awake, arriving[..i])
      {
        assert arriving[..i + 1][..i] == arriving[..i];
        var _ := collector.CollectEvent(arriving[i]);
      }
      assert arriving[..|arriving|] == arriving;
      CollectAllAdds(before, Arrived(arrivals, attempt), arriving);
    }

    /** The log shows these attempts since `before`. */
    ghost predicate Attempted(before: seq<Insert>, events: seq<Event>, attempts: seq<nat>)
      reads client
    {
      && (forall i :: 0 <= i < |attempts| ==> attempts[i] <= |Inserts(events)|)
      && client.log == before + Written(Inserts(events), attempts)
    }

    /** One more attempt. */
    method Attempt(events: seq<Event>, ghost before: seq<Insert>, ghost fates: seq<Fate>, ghost earlier: seq<nat>)
      returns (done: Outcome<()>, ghost attempts: seq<nat>)
      requires Attempted(before, events, earlier) && client.fates == FatesAfter(fates, |Inserts(events)|, |earlier|)
      modifies client
      ensures Attempted(before, events, attempts) && |attempts| == |earlier| + 1
      ensures client.fates == FatesAfter(fates, |Inserts(events)|, |attempts|)
      ensures done.Ok? <==> Completes(fates, |Inserts(events)|, |earlier|)
      ensures done.Ok? ==> attempts[|earlier|] == |Inserts(events)|
    {
      ghost var through;
      done, through := InsertAll(events);
      WrittenNext(Inserts(events), earlier, through);
      attempts := earlier + [through];
    }

    /**
     * Attempts until one gets through all tables, but no more than `maxRetries`; the last exception is raised. So every
     * attempt but the last meets an insert that raises, and a first attempt that meets none is the only one. `arrivals`
     * says what is collected during the sleep after each attempt.
     */
    method InsertWithRetry(events: seq<Event>, arrivals: nat -> seq<Event>)
      returns (done: Outcome<()>, ghost attempts: seq<nat>)
      modifies client, collector
      ensures |attempts| <= Max(maxRetries, 0) && Attempted(old(client.log), events, attempts)
      ensures collector.View() == CollectAll(old(collector.View()), Arrived(arrivals, Sleeps(attempts)))
      ensures done.Ok? && maxRetries >= 1 ==> |attempts| >= 1 && attempts[|attempts| - 1] == |Inserts(events)|
      ensures done.Raise? ==> maxRetries >= 1 && |attempts| == maxRetries
      ensures client.fates == FatesAfter(old(client.fates), |Inserts(events)|, |attempts|)
      ensures Retried(old(client.fates), |Inserts(events)|, maxRetries, |attempts|, done.Ok?)
      ensures maxRetries >= 1 && BeginsInserted(old(client.fates), |Inserts(events)|) ==>
                done.Ok? && |attempts| == 1 && client.log == old(client.log) + Inserts(events)
    {
      attempts := [];
      done := Ok(());
      var attempt := 0;
      while attempt < maxRetries
        invariant 0 <= attempt && |attempts| == attempt && (attempt > 0 ==> attempt < maxRetries)
        invariant done.Ok? && Attempted(old(client.log), events, attempts)
        invariant client.fates == FatesAfter(old(client.fates), |Inserts(events)|, attempt)
        invariant NoneCompletes(old(client.fates), |Inserts(events)|, attempt)
        invariant collector.View() == CollectAll(old(collector.View()), Arrived(arrivals, attempt))
      {
        done, attempts := Attempt(events, old(client.log), old(client.fates), attempts);
        if done.Ok? || attempt == maxRetries - 1 {
          RetriesEnd(old(client.fates), Inserts(events), maxRetries, attempts, done.Ok?);
          return;
        }
        Sleep(attempt, arrivals, old(collector.View()));
        done := Ok(());
        attempt := attempt + 1;
      }
    }

    /**
     * One flush, with whatever is collected between its attempts. True: the batch is out of the queue and, given at least
     * one retry, the last attempt inserted all of its tables. False: every allowed attempt raised and the batch was put
     * back, behind what was collected since. No attempt follows one that completed. Without a retry allowed the answer is
     * True and the batch is lost.
     */
    method FlushOnce(arrivals: nat -> seq<Event>)
      returns (flushed: bool, ghost events: seq<Event>, ghost attempts: seq<nat>)
      modifies this, collector, client
      ensures events == old(collector.queue)[..BatchLength(old(collector.View()), batchSize)]
      ensures |attempts| <= Max(maxRetries, 0) && Attempted(old(client.log), events, attempts)
      ensures var since := CollectAll(Drain(old(collector.View()), batchSize), Arrived(arrivals, Sleeps(attempts)));
              collector.View() == if flushed then since else Requeue(since, events)
      ensures flushFailures == old(flushFailures) + if flushed then 0 else 1
      ensures flushed && events != [] && maxRetries >= 1 ==>
                |attempts| >= 1 && attempts[|attempts| - 1] == |Inserts(events)|
      ensures !flushed ==> |attempts| == maxRetries
      ensures client.fates == FatesAfter(old(client.fates), |Inserts(events)|, |attempts|)
      ensures events != [] ==> Retried(old(client.fates), |Inserts(events)|, maxRetries, |attempts|, flushed)
      ensures events != [] && maxRetries >= 1 && BeginsInserted(old(client.fates), |Inserts(events)|) ==>
                flushed && |attempts| == 1 && client.log == old(client.log) + Inserts(events)
      ensures maxRetries < 1 ==> flushed && client.log == old(client.log)
    {
      attempts := [];
      var batch := collector.DrainBatch(batchSize);
      events := batch;
      if batch == [] {
        flushed := true;
        return;
      }
      var done;
      done, attempts := InsertWithRetry(batch, arrivals);
      flushed := done.Ok?;
      if !flushed {
        flushFailures := flushFailures + 1;
        collector.RequeueFront(batch);
      }
    }
  }

  // ---- at least once, and at most once an attempt --------------------------------------------

  /** How often a table was inserted into. */
  function Times(log: seq<Insert>, table: Table): nat {
    if log == [] then 0 else Times(log[..|log| - 1], table) + if log[|log| - 1].table == table then 1 else 0
  }

  lemma {:induction false} TimesAdds(a: seq<Insert>, b: seq<Insert>, table: Table)
    ensures Times(a + b, table) == Times(a, table) + Times(b, table)
  {
    if b == [] {
      assert a + b == a;
    } else {
      assert (a + b)[..|a + b| - 1] == a + b[..|b| - 1];
      TimesAdds(a, b[..|b| - 1], table);
    }
  }

  lemma {:induction false} OncePerAttempt(inserts: seq<Insert>, table: Table)
    requires forall i, k :: 0 <= i < k < |inserts| ==> inserts[i].table != inserts[k].table
    ensures Times(inserts, table) <= 1
    ensures Times(inserts, table) == 0 <==> forall i :: 0 <= i < |inserts| ==> inserts[i].table != table
  {
    if inserts != [] {
      OncePerAttempt(inserts[..|inserts| - 1], table);
    }
  }

  /** A flush inserts a row no more often than it makes attempts, even when attempts fail between or after inserts. */
  lemma {:induction false} AtMostOncePerAttempt(events: seq<Event>, attempts: seq<nat>, table: Table)
    requires forall i :: 0 <= i < |attempts| ==> attempts[i] <= |Inserts(events)|
    ensures Times(Written(Inserts(events), attempts), table) <= |attempts|
    ensures forall insert :: insert in Written(Inserts(events), attempts) ==> insert.rows == RowsFor(events, insert.table)
  {
    if attempts != [] {
      var front, last := attempts[..|attempts| - 1], Inserts(events)[..attempts[|attempts| - 1]];
      AtMostOncePerAttempt(events, front, table);
      TablesAreDistinct(events);
      OncePerAttempt(last, table);
      TimesAdds(Written(Inserts(events), front), last, table);
    }
  }

  /** An event's place among its table's rows. */
  function Place(events: seq<Event>, i: nat): nat
    requires i < |events|
  {
    |RowsFor(events[..i], events[i].table)|
  }

  lemma {:induction false} RowsGrow(events: seq<Event>, i: nat, table: Table)
    requires i <= |events|
    ensures RowsFor(events[..i], table) <= RowsFor(events, table)
  {
    if i == |events| {
      assert events[..i] == events;
    } else {
      RowsGrow(events[..|events| - 1], i, table);
      assert events[..|events| - 1][..i] == events[..i];
    }
  }

  /** Every event's row is among its table's rows, at a place of its own, and those places follow the batch's order. */
  lemma RowsKeepOrder(events: seq<Event>, i: nat, k: nat)
    requires i < k < |events|
    ensures Place(events, i) < |RowsFor(events, events[i].table)|
    ensures RowsFor(events, events[i].table)[Place(events, i)] == events[i].row
    ensures events[i].table == events[k].table ==> Place(events, i) < Place(events, k)
  {
    RowIsThere(events, i);
    RowsGrow(events[..k], i + 1, events[i].table);
    assert events[..k][..i + 1] == events[..i + 1] && events[..i + 1][..i] == events[..i];
  }

  lemma RowIsThere(events: seq<Event>, i: nat)
    requires i < |events|
    ensures Place(events, i) < |RowsFor(events, events[i].table)|
    ensures RowsFor(events, events[i].table)[Place(events, i)] == events[i].row
  {
    assert events[..i + 1][..i] == events[..i];
    RowsGrow(events, i + 1, events[i].table);
  }

  lemma {:induction false} RowsAddUp(events: seq<Event>)
    ensures |RowsFor(events, UsageEvents)| + |RowsFor(events, InferenceEvents)| == |events|
  {
    if events != [] {
      RowsAddUp(events[..|events| - 1]);
    }
  }

  /** When the last attempt got through all tables, every event of the batch has been inserted, and nothing else. */
  lemma AtLeastOnce(events: seq<Event>, attempts: seq<nat>, i: nat)
    requires forall k :: 0 <= k < |attempts| ==> attempts[k] <= |Inserts(events)|
    requires |attempts| >= 1 && attempts[|attempts| - 1] == |Inserts(events)| && i < |events|
    ensures exists insert :: insert in Written(Inserts(events), attempts) && insert.table == events[i].table
                             && Place(events, i) < |insert.rows| && insert.rows[Place(events, i)] == events[i].row
    ensures |RowsFor(events, UsageEvents)| + |RowsFor(events, InferenceEvents)| == |events|
  {
    RowsAddUp(events);
    RowIsThere(events, i);
    TablesAreDistinct(events);
    assert events[i].table in TablesOf(events);
    var n :| 0 <= n < |TablesOf(events)| && TablesOf(events)[n] == events[i].table;
    var insert := Inserts(events)[n];
    assert Inserts(events)[..|Inserts(events)|] == Inserts(events);
    assert insert in Written(Inserts(events), attempts);
  }
}
