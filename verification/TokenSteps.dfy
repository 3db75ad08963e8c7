/**
 * The token counter of one API key, command by command: INCRBY, EXPIRE, DECRBY and DELETE of different requests
 * interleave with each other and with the counter's expiry.
 */
module TokenSteps {
  import opened Numbers
  import opened Sums
  import opened Leases
  import opened RedisModel
  import opened QuotaReserver

  /** What Redis holds under the key. */
  datatype Counter = Absent | Present(value: int, expires: bool)

  /** The next command of a request; one that stays at Reserved is never finalized. */
  datatype Stage = Arriving | Expiring(count: int) | RollingBack | Reserved | Deleting | Gone

  /** `counted` is what the request has added to the counter and not taken back. */
  datatype Request = Request(estimated: int, counted: int, stage: Stage)

  datatype State = State(counter: Counter, requests: seq<Request>)

  datatype Action = Arrive(estimated: int) | Go(r: nat) | Finalize(r: nat, actual: int, releaseAll: bool) | Expiry

  predicate Enabled(s: State, a: Action) {
    match a
    case Arrive(estimated) => estimated > 0
    case Go(r) => r < |s.requests| && s.requests[r].stage != Reserved && s.requests[r].stage != Gone
    case Finalize(r, _, _) => r < |s.requests| && s.requests[r].stage == Reserved
    case Expiry => s.counter.Present? && s.counter.expires
  }

  function Worth(c: Counter): int {
    if c.Present? then c.value else 0
  }

  /** INCRBY and DECRBY: a key that is not there is created without an expiry. */
  function Add(c: Counter, amount: int): Counter {
    Present(Worth(c) + amount, c.Present? && c.expires)
  }

  function Judged(count: int, limit: int): Stage {
    if count > limit then RollingBack else Reserved
  }

  /** One command of a reservation or of a finalize's end. */
  function Command(c: Counter, limit: int, q: Request): (Counter, Request) {
    match q.stage
    case Arriving =>
      var count := Worth(c) + q.estimated;
      (Add(c, q.estimated),
       q.(counted := q.estimated, stage := if count == q.estimated then Expiring(count) else Judged(count, limit)))
    case Expiring(count) => (if c.Present? then c.(expires := true) else c, q.(stage := Judged(count, limit)))
    case RollingBack => (Add(c, -q.estimated), q.(counted := 0, stage := Gone))
    case Deleting => (Absent, q.(stage := Gone))
    case _ => (c, q)
  }

  /** The DECRBY of a finalize, if there is anything to give back. */
  function GiveBack(c: Counter, q: Request, unused: nat): (Counter, Request) {
    if unused == 0 then (c, q.(stage := Gone))
    else
      (Add(c, -(unused as int)),
       q.(counted := q.counted - unused, stage := if Worth(c) - unused <= 0 then Deleting else Gone))
  }

  function Step(limit: int, s: State, a: Action): State
    requires Enabled(s, a)
  {
    match a
    case Arrive(estimated) => s.(requests := s.requests + [Request(estimated, 0, Arriving)])
    case Go(r) =>
      var (counter, q) := Command(s.counter, limit, s.requests[r]);
      State(counter, s.requests[r := q])
    case Finalize(r, actual, releaseAll) =>
      var (counter, q) := GiveBack(s.counter, s.requests[r], Unused(s.requests[r].estimated, actual, releaseAll));
      State(counter, s.requests[r := q])
    case Expiry => s.(counter := Absent)
  }

  ghost predicate Run(limit: int, states: seq<State>, actions: seq<Action>) {
    && |states| == |actions| + 1
    && states[0] == State(Absent, [])
    && (forall i :: 0 <= i < |actions| ==>
          Enabled(states[i], actions[i]) && states[i + 1] == Step(limit, states[i], actions[i]))
  }

  // ---- uninterrupted, they are reserve and finalize -------------------------------------------

  function CounterOf(db: Db, key: Key, now: real): Counter {
    if Live(db, key, now) then Present(db[key].value, db[key].expiresAt.Some?) else Absent
  }

  /** A reservation on its own, from its INCRBY until it holds its tokens or is gone. */
  function ReservesAlone(c: Counter, limit: int, estimated: int): (Counter, Request) {
    var (counted, q) := Command(c, limit, Request(estimated, 0, Arriving));
    var (expiring, q') := if q.stage.Expiring? then Command(counted, limit, q) else (counted, q);
    if q'.stage == RollingBack then Command(expiring, limit, q') else (expiring, q')
  }

  function GivesBackAlone(c: Counter, q: Request, unused: nat): (Counter, Request) {
    var (given, q') := GiveBack(c, q, unused);
    if q'.stage == Deleting then Command(given, 0, q') else (given, q')
  }

  lemma MethodsAreCommands(db: Db, now: real, apiKey: string, limit: int, estimated: int, q: Request, unused: nat)
    ensures var key := TpmKey(apiKey); var reserved := ReservesAlone(CounterOf(db, key, now), limit, estimated);
            && CounterOf(AfterReserve(db, now, apiKey, limit, estimated), key, now) == reserved.0
            && (reserved.1.stage == Reserved <==> TokensFree(db, now, apiKey, limit, estimated))
    ensures var key := TpmKey(apiKey);
            CounterOf(AfterFinalize(db, now, apiKey, unused), key, now) == GivesBackAlone(CounterOf(db, key, now), q, unused).0
  {
  }

  // ---- the law ------------------------------------------------------------------------------------

  const COUNTED := (q: Request) => q.counted

  /** A request that the counter has refused and that has not taken itself back yet. */
  predicate IsOverdue(limit: int, q: Request) {
    q.stage == RollingBack || (q.stage.Expiring? && q.stage.count > limit)
  }

  function Overdue(limit: int): Request -> int {
    (q: Request) => if IsOverdue(limit, q) then Max(q.estimated, 0) else 0
  }

  /** The counter is gone after this action, by a DELETE or by its expiry. */
  predicate Resets(s: State, a: Action) {
    a.Expiry? || (a.Go? && a.r < |s.requests| && s.requests[a.r].stage == Deleting)
  }

  /** What all requests had counted when the counter was last reset. */
  ghost function CountedAtReset(states: seq<State>, actions: seq<Action>, n: nat): int
    requires n <= |actions| < |states|
  {
    if n == 0 then 0
    else if Resets(states[n - 1], actions[n - 1]) then Total(states[n - 1].requests, COUNTED)
    else CountedAtReset(states, actions, n - 1)
  }

  /** Until it is judged or finalized a request has counted nothing or all it asks for, which is positive. */
  ghost predicate CountsAgree(requests: seq<Request>) {
    forall i :: 0 <= i < |requests| ==>
      && requests[i].estimated > 0
      && (requests[i].stage == Arriving ==> requests[i].counted == 0)
      && (requests[i].stage.Expiring? || requests[i].stage == RollingBack || requests[i].stage == Reserved ==>
            requests[i].counted == requests[i].estimated)
  }

  lemma StepCounts(limit: int, s: State, a: Action)
    requires Enabled(s, a) && CountsAgree(s.requests)
    ensures var t := Step(limit, s, a);
            && CountsAgree(t.requests)
            && (if Resets(s, a) then Worth(t.counter) == 0 && Total(t.requests, COUNTED) == Total(s.requests, COUNTED)
                else Worth(t.counter) - Worth(s.counter) == Total(t.requests, COUNTED) - Total(s.requests, COUNTED))
  {
    match a
    case Arrive(estimated) => TotalAppend(s.requests, Request(estimated, 0, Arriving), COUNTED);
    case Go(r) => CommandCounts(limit, s, r);
    case Finalize(r, _, _) => TotalUpdate(s.requests, r, Step(limit, s, a).requests[r], COUNTED);
    case Expiry =>
  }

  lemma CommandCounts(limit: int, s: State, r: nat)
    requires Enabled(s, Go(r)) && CountsAgree(s.requests)
    ensures var t := Step(limit, s, Go(r));
            && CountsAgree(t.requests)
            && (if Resets(s, Go(r)) then Worth(t.counter) == 0 && Total(t.requests, COUNTED) == Total(s.requests, COUNTED)
                else Worth(t.counter) - Worth(s.counter) == Total(t.requests, COUNTED) - Total(s.requests, COUNTED))
  {
    TotalUpdate(s.requests, r, Command(s.counter, limit, s.requests[r]).1, COUNTED);
  }

  lemma StepBounds(limit: int, s: State, a: Action)
    requires Enabled(s, a) && CountsAgree(s.requests)
    requires Worth(s.counter) <= Max(limit, 0) + Total(s.requests, Overdue(limit))
    ensures var t := Step(limit, s, a); Worth(t.counter) <= Max(limit, 0) + Total(t.requests, Overdue(limit))
  {
    var t := Step(limit, s, a);
    TotalIsNatural(t.requests, Overdue(limit));
    match a
    case Arrive(estimated) => TotalAppend(s.requests, Request(estimated, 0, Arriving), Overdue(limit));
    case Go(r) => TotalUpdate(s.requests, r, t.requests[r], Overdue(limit));
    case Finalize(r, _, _) => TotalUpdate(s.requests, r, t.requests[r], Overdue(limit));
    case Expiry =>
  }

  /**
   * In every state of every run the counter is what all requests have counted, less what they had counted when a DELETE
   * or the expiry last reset it; and it exceeds the limit by no more than the refused requests have yet to take back.
   */
  lemma {:induction false} CounterLaw(limit: int, states: seq<State>, actions: seq<Action>, n: nat)
    requires Run(limit, states, actions) && n <= |actions|
    ensures CountsAgree(states[n].requests)
    ensures Worth(states[n].counter) == Total(states[n].requests, COUNTED) - CountedAtReset(states, actions, n)
    ensures Worth(states[n].counter) <= Max(limit, 0) + Total(states[n].requests, Overdue(limit))
  {
    if n > 0 {
      CounterLaw(limit, states, actions, n - 1);
      StepCounts(limit, states[n - 1], actions[n - 1]);
      StepBounds(limit, states[n - 1], actions[n - 1]);
    }
  }

  // ---- the expiry -----------------------------------------------------------------------------------

  /** Some request is about to give the key an expiry, or to delete it. */
  ghost predicate ExpiryPending(requests: seq<Request>) {
    exists r :: 0 <= r < |requests| && (requests[r].stage.Expiring? || requests[r].stage == Deleting)
  }

  /** The action takes a refused reservation back. */
  predicate RollsBack(s: State, a: Action) {
    a.Go? && a.r < |s.requests| && s.requests[a.r].stage == RollingBack
  }

  /** The action is an EXPIRE. */
  predicate SetsExpiry(s: State, a: Action) {
    a.Go? && a.r < |s.requests| && s.requests[a.r].stage.Expiring?
  }

  /**
   * The last command that created the key was one that took a refused reservation back, after the key it had been made in
   * was gone; and no EXPIRE has run since.
   */
  ghost predicate MadeByRollback(states: seq<State>, actions: seq<Action>, n: nat)
    requires n <= |actions| < |states|
  {
    n > 0 &&
    var s, a := states[n - 1], actions[n - 1];
    if s.counter.Absent? && states[n].counter.Present? then RollsBack(s, a)
    else !SetsExpiry(s, a) && MadeByRollback(states, actions, n - 1)
  }

  lemma StepKeepsPending(limit: int, s: State, a: Action)
    requires Enabled(s, a) && ExpiryPending(s.requests)
    ensures var t := Step(limit, s, a); t.counter.Absent? || t.counter.expires || ExpiryPending(t.requests)
  {
    var r :| 0 <= r < |s.requests| && (s.requests[r].stage.Expiring? || s.requests[r].stage == Deleting);
    var t := Step(limit, s, a);
    if !(a.Go? && a.r == r) {
      assert t.requests[r] == s.requests[r];
    }
  }

  /** Any other command that creates the key leaves a request behind that will see to its expiry. */
  lemma CreationIsFollowedUp(limit: int, s: State, a: Action)
    requires Enabled(s, a) && s.counter.Absent? && Step(limit, s, a).counter.Present?
    requires !RollsBack(s, a)
    ensures ExpiryPending(Step(limit, s, a).requests)
  {
    assert Step(limit, s, a).requests[a.r].stage.Expiring? || Step(limit, s, a).requests[a.r].stage == Deleting;
  }

  /** Only an EXPIRE gives a key an expiry, and only the key's end takes it away. */
  lemma ExpiryChanges(limit: int, s: State, a: Action)
    requires Enabled(s, a)
    ensures var t := Step(limit, s, a);
            && (s.counter.Present? && t.counter.Present? ==> t.counter.expires == (s.counter.expires || SetsExpiry(s, a)))
            && (s.counter.Absent? && t.counter.Present? ==> !t.counter.expires)
  {
  }

  /** A key without an expiry is about to get one or to go, or was made by a rollback. */
  lemma {:induction false} ExpiryLaw(limit: int, states: seq<State>, actions: seq<Action>, n: nat)
    requires Run(limit, states, actions) && n <= |actions|
    requires states[n].counter.Present? && !states[n].counter.expires
    ensures ExpiryPending(states[n].requests) || MadeByRollback(states, actions, n)
  {
    var s, a := states[n - 1], actions[n - 1];
    ExpiryChanges(limit, s, a);
    if s.counter.Present? {
      ExpiryLaw(limit, states, actions, n - 1);
      if ExpiryPending(s.requests) {
        StepKeepsPending(limit, s, a);
      }
    } else if !RollsBack(s, a) {
      CreationIsFollowedUp(limit, s, a);
    }
  }

  /** A key made by a rollback has no expiry. */
  lemma {:induction false} RollbackLaw(limit: int, states: seq<State>, actions: seq<Action>, n: nat)
    requires Run(limit, states, actions) && n <= |actions|
    requires states[n].counter.Present? && MadeByRollback(states, actions, n)
    ensures !states[n].counter.expires
  {
    var s, a := states[n - 1], actions[n - 1];
    ExpiryChanges(limit, s, a);
    if s.counter.Present? {
      RollbackLaw(limit, states, actions, n - 1);
    }
  }

  /** Once no command is pending, a present key carries an expiry exactly when it was not made by a rollback. */
  lemma KeyExpiresIff(limit: int, states: seq<State>, actions: seq<Action>, n: nat)
    requires Run(limit, states, actions) && n <= |actions|
    requires states[n].counter.Present? && !ExpiryPending(states[n].requests)
    ensures states[n].counter.expires <==> !MadeByRollback(states, actions, n)
  {
    if states[n].counter.expires {
      if MadeByRollback(states, actions, n) {
        RollbackLaw(limit, states, actions, n);
      }
    } else {
      ExpiryLaw(limit, states, actions, n);
    }
  }

  // ---- an orphaned key that is full ---------------------------------------------------------------------

  /** The counter is at the limit or above without an expiry, and every request still on its way has been refused. */
  ghost predicate Stuck(limit: int, s: State) {
    && limit >= 1 && s.counter.Present? && !s.counter.expires
    && s.counter.value == limit + Total(s.requests, Overdue(limit))
    && (forall i :: 0 <= i < |s.requests| ==>
          s.requests[i].estimated > 0
          && (s.requests[i].stage == Arriving || s.requests[i].stage == RollingBack || s.requests[i].stage == Gone))
  }

  /** Nothing gets a full counter without an expiry moving again: every later request is refused, for good. */
  lemma StuckForever(limit: int, s: State, a: Action)
    requires Stuck(limit, s) && Enabled(s, a)
    ensures Stuck(limit, Step(limit, s, a))
    ensures forall i :: 0 <= i < |Step(limit, s, a).requests| ==> Step(limit, s, a).requests[i].stage != Reserved
  {
    match a
    case Arrive(estimated) => TotalAppend(s.requests, Request(estimated, 0, Arriving), Overdue(limit));
    case Go(r) => StuckCommand(limit, s, r);
    case _ =>
  }

  lemma StuckCommand(limit: int, s: State, r: nat)
    requires Stuck(limit, s) && Enabled(s, Go(r))
    ensures Stuck(limit, Step(limit, s, Go(r)))
  {
    var q := s.requests[r];
    TotalIsNatural(s.requests, Overdue(limit));
    if q.stage == Arriving {
      var refused := Request(q.estimated, q.estimated, RollingBack);
      assert Command(s.counter, limit, q) == (Present(s.counter.value + q.estimated, false), refused);
      TotalUpdate(s.requests, r, refused, Overdue(limit));
    } else {
      var gone := Request(q.estimated, 0, Gone);
      assert Command(s.counter, limit, q) == (Present(s.counter.value - q.estimated, false), gone);
      TotalUpdate(s.requests, r, gone, Overdue(limit));
    }
  }

  lemma Extend(limit: int, states: seq<State>, actions: seq<Action>, a: Action)
    returns (longer: seq<State>, more: seq<Action>)
    requires Run(limit, states, actions) && Enabled(states[|actions|], a)
    ensures Run(limit, longer, more) && longer[|more|] == Step(limit, states[|actions|], a)
  {
    longer := states + [Step(limit, states[|actions|], a)];
    more := actions + [a];
  }

  /** A refused request whose window expires before it takes itself back leaves a counter of -1 that never expires. */
  lemma OrphanedKey(limit: int) returns (states: seq<State>, actions: seq<Action>)
    requires limit >= 1
    ensures Run(limit, states, actions)
    ensures states[|actions|] == State(Present(-1, false), [Request(limit, limit, Reserved), Request(1, 0, Gone)])
  {
    states, actions := [State(Absent, [])], [];
    states, actions := Extend(limit, states, actions, Arrive(limit));
    states, actions := Extend(limit, states, actions, Go(0));
    states, actions := Extend(limit, states, actions, Go(0));
    assert states[|actions|] == State(Present(limit, true), [Request(limit, limit, Reserved)]);
    states, actions := Extend(limit, states, actions, Arrive(1));
    states, actions := Extend(limit, states, actions, Go(1));
    assert states[|actions|]
        == State(Present(limit + 1, true), [Request(limit, limit, Reserved), Request(1, 1, RollingBack)]);
    states, actions := Extend(limit, states, actions, Expiry);
    states, actions := Extend(limit, states, actions, Go(1));
  }

  /** The next window is then counted without an expiry, and once it is full the key is locked out. */
  lemma KeyGetsStuck(limit: int) returns (states: seq<State>, actions: seq<Action>)
    requires limit >= 1
    ensures Run(limit, states, actions) && Stuck(limit, states[|actions|])
  {
    states, actions := OrphanedKey(limit);
    states, actions := Extend(limit, states, actions, Finalize(0, limit, false));
    states, actions := Extend(limit, states, actions, Arrive(limit + 1));
    states, actions := Extend(limit, states, actions, Go(2));
    states, actions := Extend(limit, states, actions, Finalize(2, limit + 1, false));
    var requests := states[|actions|].requests;
    assert states[|actions|].counter == Present(limit, false);
    assert requests == [Request(limit, limit, Gone), Request(1, 0, Gone)] + [Request(limit + 1, limit + 1, Gone)];
    TotalOfNothing(requests, Overdue(limit));
  }
}
