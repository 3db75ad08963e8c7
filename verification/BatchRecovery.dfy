/** The recovery scanner: what one scan does, and how many rounds of scanning and working empty the backlog. */
module BatchRecovery {
  import opened Wrappers
  import opened BatchStatus
  import opened Filters
  import opened BatchStore
  import opened BatchQueue
  import opened BatchProtocol
  import opened BatchSequential

  // ---- one scan -----------------------------------------------------------------------

  /** The ids that a queue does not hold yet, in order. */
  function Missing(ids: seq<JobId>, queue: seq<JobId>): (missing: seq<JobId>)
    ensures forall j :: j in missing <==> j in ids && j !in queue
  {
    if ids == [] then []
    else if ids[0] in queue then Missing(ids[1..], queue)
    else [ids[0]] + Missing(ids[1..], queue)
  }

  /** Looking an id up in a queue that has meanwhile been given some other id makes no difference. */
  lemma {:induction false} MissingIgnores(ids: seq<JobId>, queue: seq<JobId>, j: JobId)
    requires j !in ids
    ensures Missing(ids, queue + [j]) == Missing(ids, queue)
  {
    if ids != [] {
      MissingIgnores(ids[1..], queue, j);
    }
  }

  lemma {:induction false} NothingMissing(ids: seq<JobId>, queue: seq<JobId>)
    requires forall j :: j in ids ==> j in queue
    ensures Missing(ids, queue) == []
  {
    if ids != [] {
      NothingMissing(ids[1..], queue);
    }
  }

  /** The recoverable ids are distinct QUEUED jobs, and as many as there are up to the limit. */
  lemma RecoverableIds(store: Store, limit: int)
    requires ValidStore(store)
    ensures Distinct(Recoverable(store, limit))
    ensures forall j :: j in Recoverable(store, limit) ==> HasStatus(store, j, Queued)
    ensures 0 <= limit ==>
              |Recoverable(store, limit)| == (if limit < |QueuedIds(store.order, store.jobs)| then limit
                                              else |QueuedIds(store.order, store.jobs)|)
  {
    QueuedIdsDistinct(store.order, store.jobs);
    var all := QueuedIds(store.order, store.jobs);
    var some := Recoverable(store, limit);
    assert forall i :: 0 <= i < |some| ==> some[i] == all[i];
  }

  /** The scanner of the protocol, run without interruption: the queue it leaves, and where it ends. */
  function FinishScan(kind: QueueKind, queue: seq<JobId>, pc: Pc, env: Env): (seq<JobId>, Pc)
    decreases match pc case Scanning(todo, _) => 2 * |todo| + 1 case Inserting(_, todo, _) => 2 * |todo| + 2 case _ => 0
  {
    if !pc.Scanning? && !pc.Inserting? then (queue, pc)
    else
      var move := ScanMove(queue, pc, env);
      FinishScan(kind, if move.effect.PushBack? then Enqueue(kind, queue, move.effect.job) else queue, move.next, env)
  }

  type Scan = (seq<JobId>, seq<JobId>, nat) -> (seq<JobId>, Pc)

  ghost predicate GoesOn(scan: Scan, queue: seq<JobId>, todo: seq<JobId>, n: nat)
    requires todo != []
  {
    scan(queue, todo, n) == if todo[0] in queue then scan(queue, todo[1..], n) else scan(queue + [todo[0]], todo[1..], n + 1)
  }

  /** How a scan goes through its list: it stops at the end, passes over an id in the queue, and appends any other. */
  ghost predicate Scans(scan: Scan) {
    && (forall queue, n: nat :: scan(queue, [], n) == (queue, ScanIdle(Some(n))))
    && (forall queue, todo, n: nat :: todo != [] ==> GoesOn(scan, queue, todo, n))
  }

  lemma {:induction false} AppendsMissing(scan: Scan, queue: seq<JobId>, todo: seq<JobId>, n: nat)
    requires Scans(scan) && Distinct(todo)
    ensures scan(queue, todo, n) == (queue + Missing(todo, queue), ScanIdle(Some(n + |Missing(todo, queue)|)))
    decreases todo
  {
    if todo == [] {
      assert queue + [] == queue;
    } else if todo[0] in queue {
      assert GoesOn(scan, queue, todo, n);
      AppendsMissing(scan, queue, todo[1..], n);
    } else {
      AppendsMissing(scan, queue + [todo[0]], todo[1..], n + 1);
      MissingIgnores(todo[1..], queue, todo[0]);
      Reassociate(queue, todo[0], Missing(todo[1..], queue));
      assert Missing(todo, queue) == [todo[0]] + Missing(todo[1..], queue);
      assert GoesOn(scan, queue, todo, n);
    }
  }

  /** An uninterrupted scan appends exactly the missing ids to either kind of queue, and counts them. */
  lemma ScanAppendsMissing(kind: QueueKind, queue: seq<JobId>, env: Env, todo: seq<JobId>, n: nat)
    requires Distinct(todo) && env.enqueue.Ok?
    ensures var missing := Missing(todo, queue);
            FinishScan(kind, queue, Scanning(todo, n), env) == (queue + missing, ScanIdle(Some(n + |missing|)))
  {
    ScannerScans(kind, env);
    AppendsMissing(ScanOf(kind, env), queue, todo, n);
    assert ScanOf(kind, env)(queue, todo, n) == FinishScan(kind, queue, Scanning(todo, n), env);
  }

  function ScanOf(kind: QueueKind, env: Env): Scan {
    (queue: seq<JobId>, todo: seq<JobId>, n: nat) => FinishScan(kind, queue, Scanning(todo, n), env)
  }

  lemma ScannerScans(kind: QueueKind, env: Env)
    requires env.enqueue.Ok?
    ensures Scans(ScanOf(kind, env))
  {
    var scan := ScanOf(kind, env);
    forall queue, n: nat ensures scan(queue, [], n) == (queue, ScanIdle(Some(n))) {
      ScanEnds(kind, queue, env, n);
    }
    forall queue, todo, n: nat | todo != [] ensures GoesOn(scan, queue, todo, n) {
      ScanGoesOn(kind, queue, env, todo, n);
    }
  }

  lemma ScanEnds(kind: QueueKind, queue: seq<JobId>, env: Env, n: nat)
    ensures FinishScan(kind, queue, Scanning([], n), env) == (queue, ScanIdle(Some(n)))
  {
  }

  /** The scanner looks the head up; unless it finds it, it appends it. */
  lemma ScanGoesOn(kind: QueueKind, queue: seq<JobId>, env: Env, todo: seq<JobId>, n: nat)
    requires todo != [] && env.enqueue.Ok?
    ensures FinishScan(kind, queue, Scanning(todo, n), env) ==
              if todo[0] in queue then FinishScan(kind, queue, Scanning(todo[1..], n), env)
              else FinishScan(kind, queue + [todo[0]], Scanning(todo[1..], n + 1), env)
  {
    if todo[0] !in queue {
      assert FinishScan(kind, queue, Scanning(todo, n), env)
          == FinishScan(kind, queue, Inserting(todo[0], todo[1..], n), env);
    }
  }

  lemma Reassociate<T>(front: seq<T>, item: T, back: seq<T>)
    ensures (front + [item]) + back == front + ([item] + back)
  {
  }

  function ScannedQueue(store: Store, queue: seq<JobId>, limit: int): seq<JobId> {
    queue + Missing(Recoverable(store, limit), queue)
  }

  /** A scan of the protocol, from its listing on: uninterrupted it leaves that queue. */
  lemma WholeScan(s: State, x: nat, limit: int, env: Env)
    requires ValidStore(s.store) && Enabled(s, StartScan(x, limit)) && env.enqueue.Ok?
    ensures var t := Step(s, StartScan(x, limit));
            && t.store == s.store && t.queue == s.queue && x in t.agents
            && FinishScan(s.kind, s.queue, t.agents[x], env)
               == (ScannedQueue(s.store, s.queue, limit), ScanIdle(Some(|Missing(Recoverable(s.store, limit), s.queue)|)))
  {
    RecoverableIds(s.store, limit);
    ScanAppendsMissing(s.kind, s.queue, env, Recoverable(s.store, limit), 0);
  }

  /** After a scan the queue holds every recoverable job, what it held before, and nothing else; a rescan adds nothing. */
  lemma ScanIsComplete(store: Store, queue: seq<JobId>, limit: int)
    ensures forall j :: j in ScannedQueue(store, queue, limit) <==> j in queue || j in Recoverable(store, limit)
    ensures Missing(Recoverable(store, limit), ScannedQueue(store, queue, limit)) == []
  {
    NothingMissing(Recoverable(store, limit), ScannedQueue(store, queue, limit));
  }

  lemma {:induction false} MissingSplits(front: seq<JobId>, back: seq<JobId>, queue: seq<JobId>)
    ensures Missing(front + back, queue) == Missing(front, queue) + Missing(back, queue)
  {
    if front == [] {
      assert front + back == back;
    } else {
      assert (front + back)[1..] == front[1..] + back;
      MissingSplits(front[1..], back, queue);
    }
  }

  lemma {:induction false} MissingIsFilter(ids: seq<JobId>, queue: seq<JobId>, keep: JobId -> bool)
    requires forall j :: keep(j) <==> j !in queue
    ensures Missing(ids, queue) == Filter(ids, keep)
  {
    if ids != [] {
      var front, last := ids[..|ids| - 1], ids[|ids| - 1];
      MissingIsFilter(front, queue, keep);
      assert ids == front + [last];
      MissingSplits(front, [last], queue);
    }
  }

  /**
   * What has been added to the queue is in the order of creation, and no QUEUED job that the queue lacked is passed over
   * for a younger one.
   */
  ghost predicate AddsOldestFirst(store: Store, before: seq<JobId>, after: seq<JobId>) {
    before <= after &&
    var added := after[|before|..];
    && (forall p, q :: 0 <= p < q < |added| ==> CreatedBefore(store, added[p], added[q]))
    && (forall j, q :: HasStatus(store, j, Queued) && j !in before && 0 <= q < |added| && CreatedBefore(store, j, added[q]) ==>
          Ahead(added, j, added[q]))
  }

  lemma ListedKeepOrder(store: Store, ids: seq<JobId>, missing: seq<JobId>, keep: JobId -> bool)
    requires ListsOldestFirst(store, ids) && OldestFirst(ids, keep, missing)
    requires forall j :: j in missing ==> j in ids
    ensures forall p, q :: 0 <= p < q < |missing| ==> CreatedBefore(store, missing[p], missing[q])
    ensures forall j, q :: HasStatus(store, j, Queued) && keep(j) && 0 <= q < |missing| && CreatedBefore(store, j, missing[q]) ==>
              Ahead(missing, j, missing[q])
  {
    forall p, q | 0 <= p < q < |missing| ensures CreatedBefore(store, missing[p], missing[q]) {
      assert Ahead(ids, missing[p], missing[q]);
    }
    forall j, q | HasStatus(store, j, Queued) && keep(j) && 0 <= q < |missing| && CreatedBefore(store, j, missing[q])
      ensures Ahead(missing, j, missing[q])
    {
      assert missing[q] in ids;
    }
  }

  lemma ScanAddsOldestFirst(store: Store, queue: seq<JobId>, limit: int)
    requires ValidStore(store)
    ensures AddsOldestFirst(store, queue, ScannedQueue(store, queue, limit))
  {
    var ids, keep := Recoverable(store, limit), (j: JobId) => j !in queue;
    RecoverableIds(store, limit);
    RecoverableAreOldest(store, limit);
    MissingIsFilter(ids, queue, keep);
    FilterIsOldestFirst(ids, keep);
    ListedKeepOrder(store, ids, Missing(ids, queue), keep);
    assert ScannedQueue(store, queue, limit)[|queue|..] == Missing(ids, queue);
  }

  // ---- working the queue off --------------------------------------------------------------

  ghost predicate AllCalm(envs: JobId -> Env) {
    forall j :: Calm(envs(j))
  }

  /** Worker `x` calls `process_one` until the queue is empty; `envs` says how each job's calls turn out. */
  ghost function Drain(s: State, x: nat, envs: JobId -> Env): State
    requires x in s.agents && s.agents[x].Idle? && AllCalm(envs)
    decreases |s.queue|
  {
    if s.queue == [] then s
    else
      ProcessOneEffect(s, x, envs(s.queue[0]));
      Drain(ProcessOne(s, x, envs(s.queue[0])), x, envs)
  }

  /** What working does to the backlog: no job becomes QUEUED, and none that was in the queue stays QUEUED. */
  ghost predicate WorkedOff(before: Store, after: Store, queue: seq<JobId>) {
    && after.order == before.order && after.jobs.Keys == before.jobs.Keys
    && (forall j :: HasStatus(after, j, Queued) ==> HasStatus(before, j, Queued) && j !in queue)
  }

  lemma {:induction false} DrainWorksOff(s: State, x: nat, envs: JobId -> Env)
    requires x in s.agents && s.agents[x].Idle? && AllCalm(envs)
    ensures var t := Drain(s, x, envs);
            && x in t.agents && t.agents[x].Idle? && t.queue == []
            && WorkedOff(s.store, t.store, s.queue)
    decreases |s.queue|
  {
    if s.queue != [] {
      var j := s.queue[0];
      ProcessOneEffect(s, x, envs(j));
      var t := ProcessOne(s, x, envs(j));
      DrainWorksOff(t, x, envs);
      assert s.queue == [j] + s.queue[1..];
    }
  }

  // ---- rounds of scanning and working --------------------------------------------------------

  /** One full scan of limit `limit`, then the queue worked off. */
  ghost function Round(s: State, x: nat, limit: int, envs: JobId -> Env): State
    requires x in s.agents && s.agents[x].Idle? && AllCalm(envs)
  {
    Drain(WithQueue(s, ScannedQueue(s.store, s.queue, limit)), x, envs)
  }

  /** The number of QUEUED jobs. */
  function Backlog(store: Store): nat {
    |QueuedIds(store.order, store.jobs)|
  }

  function SetOf<T>(items: seq<T>): set<T> {
    set item | item in items
  }

  lemma {:induction false} DistinctSize<T>(items: seq<T>)
    requires Distinct(items)
    ensures |SetOf(items)| == |items|
  {
    if items != [] {
      var front := items[..|items| - 1];
      var last := items[|items| - 1];
      DistinctSize(front);
      assert items == front + [last];
      assert SetOf(items) == SetOf(front) + {last};
      assert last !in SetOf(front);
    }
  }

  lemma RemovedSize<T>(all: set<T>, gone: set<T>, rest: set<T>)
    requires gone <= all && rest <= all - gone
    ensures |rest| <= |all| - |gone|
  {
    assert all - gone == rest + (all - gone - rest);
    assert all == gone + (all - gone);
  }

  lemma BacklogSize(store: Store)
    requires ValidStore(store)
    ensures |SetOf(QueuedIds(store.order, store.jobs))| == Backlog(store)
  {
    QueuedIdsDistinct(store.order, store.jobs);
    DistinctSize(QueuedIds(store.order, store.jobs));
  }

  lemma BacklogAfterRound(before: Store, after: Store, queue: seq<JobId>, limit: nat)
    requires WorkedOff(before, after, queue)
    requires forall j :: j in Recoverable(before, limit) ==> j in queue
    ensures SetOf(QueuedIds(after.order, after.jobs))
            <= SetOf(QueuedIds(before.order, before.jobs)) - SetOf(Recoverable(before, limit))
  {
    forall j | j in SetOf(QueuedIds(after.order, after.jobs))
      ensures j in SetOf(QueuedIds(before.order, before.jobs)) && j !in SetOf(Recoverable(before, limit))
    {
      assert HasStatus(after, j, Queued);
    }
  }

  /** A round takes up to `limit` jobs out of the backlog. */
  lemma RoundShrinksBacklog(before: Store, after: Store, queue: seq<JobId>, limit: nat)
    requires ValidStore(before) && WorkedOff(before, after, queue)
    requires forall j :: j in Recoverable(before, limit) ==> j in queue
    ensures ValidStore(after)
    ensures Backlog(after) <= (if limit < Backlog(before) then Backlog(before) - limit else 0)
  {
    RecoverableIds(before, limit);
    BacklogSize(before);
    BacklogSize(after);
    DistinctSize(Recoverable(before, limit));
    BacklogAfterRound(before, after, queue, limit);
    RemovedSize(SetOf(QueuedIds(before.order, before.jobs)), SetOf(Recoverable(before, limit)),
                SetOf(QueuedIds(after.order, after.jobs)));
  }

  /** What `n` rounds of limit `limit` leave of a backlog of `start` at most. */
  function Left(start: nat, limit: nat, n: nat): nat {
    if n == 0 then start
    else if limit < Left(start, limit, n - 1) then Left(start, limit, n - 1) - limit
    else 0
  }

  lemma {:induction false} LeftIs(start: nat, limit: nat, n: nat)
    ensures Left(start, limit, n) == if n * limit < start then start - n * limit else 0
  {
    if n > 0 {
      LeftIs(start, limit, n - 1);
      assert n * limit == (n - 1) * limit + limit;
    }
  }

  /** `t` is what one round makes of `s`. */
  ghost predicate IsRound(s: State, t: State, x: nat, limit: nat, envs: JobId -> Env) {
    x in s.agents && s.agents[x].Idle? && AllCalm(envs) && t == Round(s, x, limit, envs)
  }

  lemma RoundEffect(s: State, t: State, x: nat, limit: nat, envs: JobId -> Env)
    requires IsRound(s, t, x, limit, envs) && ValidStore(s.store)
    ensures ValidStore(t.store) && Backlog(t.store) <= Left(Backlog(s.store), limit, 1)
  {
    var queue := ScannedQueue(s.store, s.queue, limit);
    ScanIsComplete(s.store, s.queue, limit);
    DrainWorksOff(WithQueue(s, queue), x, envs);
    RoundShrinksBacklog(s.store, t.store, queue, limit);
  }

  lemma {:induction false} RoundsShrinkBacklog(states: seq<State>, x: nat, limit: nat, envs: JobId -> Env, n: nat)
    requires n < |states| && ValidStore(states[0].store)
    requires forall i :: 0 <= i < |states| - 1 ==> IsRound(states[i], states[i + 1], x, limit, envs)
    ensures ValidStore(states[n].store) && Backlog(states[n].store) <= Left(Backlog(states[0].store), limit, n)
  {
    if n > 0 {
      RoundsShrinkBacklog(states, x, limit, envs, n - 1);
      RoundEffect(states[n - 1], states[n], x, limit, envs);
    }
  }

  /**
   * From any queue, ceil(backlog / limit) rounds - each a full scan, then `process_one` until the queue is empty -
   * leave no QUEUED job, however the jobs themselves turn out.
   */
  lemma BacklogIsCleared(states: seq<State>, x: nat, limit: nat, envs: JobId -> Env, j: JobId)
    requires |states| > 0 && ValidStore(states[0].store) && limit >= 1
    requires |states| - 1 == (Backlog(states[0].store) + limit - 1) / limit
    requires forall i :: 0 <= i < |states| - 1 ==> IsRound(states[i], states[i + 1], x, limit, envs)
    ensures !HasStatus(states[|states| - 1].store, j, Queued)
  {
    var n := |states| - 1;
    RoundsShrinkBacklog(states, x, limit, envs, n);
    LeftIs(Backlog(states[0].store), limit, n);
    EnoughRounds(Backlog(states[0].store), limit);
    var after := states[n].store;
    assert HasStatus(after, j, Queued) ==> j in QueuedIds(after.order, after.jobs);
  }

  lemma EnoughRounds(start: nat, limit: nat)
    requires limit >= 1
    ensures ((start + limit - 1) / limit) * limit >= start
  {
    var total := start + limit - 1;
    assert total == (total / limit) * limit + total % limit;
  }

  // ---- duplicates -----------------------------------------------------------------------------

  /** The same state, but for how the worker's last `process_one` ended. */
  ghost predicate SameWork(s: State, t: State, x: nat) {
    && x in s.agents && x in t.agents && s.agents[x].Idle? && t.agents[x].Idle?
    && s == WithAgent(t, x, s.agents[x])
  }

  lemma HeadIgnoresTail(s: State, x: nat, env: Env, queue: seq<JobId>)
    requires x in s.agents && s.agents[x].Idle? && Calm(env) && s.queue != []
    ensures ProcessOne(WithQueue(s, s.queue + queue), x, env) == WithQueue(ProcessOne(s, x, env), s.queue[1..] + queue)
  {
    var longer := WithQueue(s, s.queue + queue);
    var rest := WithQueue(s, s.queue[1..]);
    assert longer.queue[0] == s.queue[0] && longer.queue[1..] == s.queue[1..] + queue;
    assert WithQueue(longer, longer.queue[1..]) == WithQueue(rest, s.queue[1..] + queue);
    if HasStatus(s.store, s.queue[0], Queued) {
      ClaimsQueued(s, x, env);
      ClaimsQueued(longer, x, env);
      FinishIgnoresQueue(AfterClaim(rest, x, s.queue[0]), x, env, s.queue[1..] + queue);
    } else {
      DropsUnclaimable(s, x, env);
      DropsUnclaimable(longer, x, env);
    }
  }

  /** Working off two queues in a row is working off their concatenation. */
  lemma {:induction false} DrainInParts(s: State, x: nat, envs: JobId -> Env, queue: seq<JobId>)
    requires x in s.agents && s.agents[x].Idle? && AllCalm(envs)
    ensures var t := Drain(s, x, envs);
            && x in t.agents && t.agents[x].Idle?
            && Drain(WithQueue(s, s.queue + queue), x, envs) == Drain(WithQueue(t, queue), x, envs)
    decreases |s.queue|
  {
    if s.queue == [] {
      assert s.queue + queue == queue;
    } else {
      var env := envs(s.queue[0]);
      ProcessOneEffect(s, x, env);
      HeadIgnoresTail(s, x, env, queue);
      DrainInParts(ProcessOne(s, x, env), x, envs, queue);
      assert (s.queue + queue)[0] == s.queue[0];
    }
  }

  /** How the last `process_one` ended has no say in the next. */
  lemma LastIsForgotten(s: State, x: nat, pc: Pc, env: Env)
    requires x in s.agents && s.agents[x].Idle? && pc.Idle? && Calm(env) && s.queue != []
    ensures ProcessOne(WithAgent(s, x, pc), x, env) == ProcessOne(s, x, env)
  {
    var q := WithQueue(s, s.queue[1..]);
    assert WithQueue(WithAgent(s, x, pc), s.queue[1..]) == WithAgent(q, x, pc);
    if HasStatus(s.store, s.queue[0], Queued) {
      ClaimsQueued(s, x, env);
      ClaimsQueued(WithAgent(s, x, pc), x, env);
      PerformIgnoresAgents(q, x, pc, ClaimJob(s.queue[0]), Claimed(s.queue[0]));
    } else {
      DropsUnclaimable(s, x, env);
      DropsUnclaimable(WithAgent(s, x, pc), x, env);
    }
  }

  lemma DrainOne(s: State, x: nat, envs: JobId -> Env, last: JobId)
    requires x in s.agents && s.agents[x].Idle? && AllCalm(envs) && s.queue == [last]
    ensures Drain(s, x, envs) == ProcessOne(s, x, envs(last))
  {
    ProcessOneEffect(s, x, envs(last));
  }

  /** Working off one more entry from two states that differ only in how the last call ended. */
  lemma NextEntry(t: State, u: State, x: nat, envs: JobId -> Env, last: JobId)
    requires SameWork(t, u, x) && AllCalm(envs)
    ensures Drain(WithQueue(t, [last]), x, envs) == Drain(WithQueue(u, [last]), x, envs)
  {
    DrainOne(WithQueue(t, [last]), x, envs, last);
    DrainOne(WithQueue(u, [last]), x, envs, last);
    LastIsForgotten(WithQueue(u, [last]), x, t.agents[x], envs(last));
    assert WithQueue(t, [last]) == WithAgent(WithQueue(u, [last]), x, t.agents[x]);
  }

  /** A repeated entry is dropped, for its job is no longer QUEUED. */
  lemma RepeatedEntry(t: State, x: nat, envs: JobId -> Env, last: JobId)
    requires x in t.agents && t.agents[x].Idle? && AllCalm(envs) && t.queue == []
    requires !HasStatus(t.store, last, Queued)
    ensures SameWork(Drain(WithQueue(t, [last]), x, envs), t, x)
  {
    DrainOne(WithQueue(t, [last]), x, envs, last);
    DropsUnclaimable(WithQueue(t, [last]), x, envs(last));
    assert [last][1..] == [];
    assert WithQueue(WithQueue(t, [last]), []) == t;
  }

  lemma SameWorkTransitive(s: State, t: State, u: State, x: nat)
    requires SameWork(s, t, x) && SameWork(t, u, x)
    ensures SameWork(s, u, x)
  {
    assert u.agents[x := t.agents[x]][x := s.agents[x]] == u.agents[x := s.agents[x]];
  }

  /** Working off a queue entry by entry, where a repeated entry adds nothing to what has been worked off. */
  ghost predicate Works(work: seq<JobId> -> State, one: (State, JobId) -> State, x: nat) {
    && SameWork(work([]), work([]), x)
    && (forall head, last :: work(head + [last]) == one(work(head), last))
    && (forall t, u, last :: SameWork(t, u, x) ==> SameWork(one(t, last), one(u, last), x))
    && (forall head, last :: last in head ==> SameWork(one(work(head), last), work(head), x))
  }

  lemma {:induction false} RepeatsAddNothing(work: seq<JobId> -> State, one: (State, JobId) -> State, x: nat, queue: seq<JobId>)
    requires Works(work, one, x)
    ensures SameWork(work(queue), work(FirstOccurrences(queue)), x)
  {
    if queue != [] {
      var head, last := queue[..|queue| - 1], queue[|queue| - 1];
      RepeatsAddNothing(work, one, x, head);
      assert queue == head + [last];
      if last in head {
        assert FirstOccurrences(queue) == FirstOccurrences(head);
        SameWorkTransitive(work(queue), work(head), work(FirstOccurrences(head)), x);
      } else {
        assert FirstOccurrences(queue) == FirstOccurrences(head) + [last];
      }
    }
  }

  /** One more entry worked off, from any state. */
  ghost function OneEntry(x: nat, envs: JobId -> Env): (State, JobId) -> State
    requires AllCalm(envs)
  {
    (t: State, last: JobId) => if x in t.agents && t.agents[x].Idle? then Drain(WithQueue(t, [last]), x, envs) else t
  }

  lemma OneEntryRespectsWork(x: nat, envs: JobId -> Env, t: State, u: State, last: JobId)
    requires AllCalm(envs) && SameWork(t, u, x)
    ensures SameWork(OneEntry(x, envs)(t, last), OneEntry(x, envs)(u, last), x)
  {
    NextEntry(t, u, x, envs, last);
    DrainWorksOff(WithQueue(t, [last]), x, envs);
    assert OneEntry(x, envs)(t, last) == OneEntry(x, envs)(u, last);
    SameAsItself(OneEntry(x, envs)(t, last), x);
  }

  lemma SameAsItself(t: State, x: nat)
    requires x in t.agents && t.agents[x].Idle?
    ensures SameWork(t, t, x)
  {
    assert t.agents[x := t.agents[x]] == t.agents;
  }

  /** Duplicate entries change nothing: a queue and its first occurrences lead to the same store, leases and calls. */
  lemma DuplicatesAreHarmless(s: State, x: nat, envs: JobId -> Env, queue: seq<JobId>)
    requires x in s.agents && s.agents[x].Idle? && AllCalm(envs)
    ensures SameWork(Drain(WithQueue(s, queue), x, envs), Drain(WithQueue(s, FirstOccurrences(queue)), x, envs), x)
  {
    var work := (queue: seq<JobId>) => Drain(WithQueue(s, queue), x, envs);
    var one := OneEntry(x, envs);
    SameAsItself(work([]), x);
    forall head, last
      ensures work(head + [last]) == one(work(head), last)
      ensures last in head ==> SameWork(one(work(head), last), work(head), x)
    {
      ConcatenatedDrain(s, x, envs, head, last);
      if last in head {
        DrainWorksOff(WithQueue(s, head), x, envs);
        RepeatedEntry(work(head), x, envs, last);
      }
    }
    forall t, u, last | SameWork(t, u, x) ensures SameWork(one(t, last), one(u, last), x) {
      OneEntryRespectsWork(x, envs, t, u, last);
    }
    RepeatsAddNothing(work, one, x, queue);
  }

  lemma ConcatenatedDrain(s: State, x: nat, envs: JobId -> Env, head: seq<JobId>, last: JobId)
    requires x in s.agents && s.agents[x].Idle? && AllCalm(envs)
    ensures var t := Drain(WithQueue(s, head), x, envs);
            && x in t.agents && t.agents[x].Idle?
            && Drain(WithQueue(s, head + [last]), x, envs) == Drain(WithQueue(t, [last]), x, envs)
  {
    DrainInParts(WithQueue(s, head), x, envs, [last]);
    assert WithQueue(WithQueue(s, head), head + [last]) == WithQueue(s, head + [last]);
  }
}
