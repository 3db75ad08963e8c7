/**
 * The slot counter of one API key, command by command: INCR, DECR and DELETE of different requests interleave, so a
 * DELETE may come after other requests have counted themselves in.
 */
module ConcurrencySteps {
  import opened Numbers
  import opened RedisModel
  import opened ConcurrencyLimiter

  /** The next command of a request. A request that stays at Holding is one whose slot is never released. */
  datatype Request = Arriving | RollingBack | Holding | Deleting | Gone

  datatype State = State(counter: int, requests: seq<Request>)

  datatype Action = Arrive | Go(r: nat)

  predicate Enabled(s: State, a: Action) {
    a.Go? ==> a.r < |s.requests| && s.requests[a.r] != Gone
  }

  /** One command: a refused INCR is taken back by a plain DECR; the DECR of a release may ask for a DELETE. */
  function Command(counter: int, limit: int, request: Request): (int, Request) {
    match request
    case Arriving => (counter + 1, if counter + 1 > limit then RollingBack else Holding)
    case RollingBack => (counter - 1, Gone)
    case Holding => (counter - 1, if counter - 1 <= 0 then Deleting else Gone)
    case Deleting => (0, Gone)
    case Gone => (counter, Gone)
  }

  function Step(limit: int, s: State, a: Action): State
    requires Enabled(s, a)
  {
    match a
    case Arrive => s.(requests := s.requests + [Arriving])
    case Go(r) =>
      var (counter, next) := Command(s.counter, limit, s.requests[r]);
      State(counter, s.requests[r := next])
  }

  ghost predicate Run(limit: int, states: seq<State>, actions: seq<Action>) {
    && |states| == |actions| + 1
    && states[0] == State(0, [])
    && (forall i :: 0 <= i < |actions| ==>
          Enabled(states[i], actions[i]) && states[i + 1] == Step(limit, states[i], actions[i]))
  }

  /** What a request does on its own from one of its commands on, until it holds a slot or is gone. */
  function Alone(counter: int, limit: int, request: Request): (int, Request) {
    var (after, next) := Command(counter, limit, request);
    if next == RollingBack || next == Deleting then Command(after, limit, next) else (after, next)
  }

  /** Uninterrupted, these commands are `acquire` and `release`. */
  lemma MethodsAreCommands(db: Db, now: real, apiKey: string, limit: int)
    ensures var key := SlotsKey(apiKey); var counter := Value(db, key, now);
            && Alone(counter, limit, Arriving)
                 == (Value(AfterAcquire(db, now, apiKey, limit), key, now),
                     if SlotFree(db, now, apiKey, limit) then Holding else Gone)
            && Alone(counter, limit, Holding) == (Value(AfterRelease(db, now, apiKey), key, now), Gone)
  {
  }

  // ---- counting requests ---------------------------------------------------------------

  /** Between its INCR and its DECR. */
  predicate IsInFlight(request: Request) {
    request == RollingBack || request == Holding
  }

  function InFlight(requests: seq<Request>): nat {
    if requests == [] then 0
    else InFlight(requests[..|requests| - 1]) + if IsInFlight(requests[|requests| - 1]) then 1 else 0
  }

  function Held(requests: seq<Request>): (held: nat)
    ensures held <= InFlight(requests)
  {
    if requests == [] then 0
    else Held(requests[..|requests| - 1]) + if requests[|requests| - 1] == Holding then 1 else 0
  }

  lemma {:induction false} CountsAfter(requests: seq<Request>, r: nat, next: Request)
    requires r < |requests|
    ensures InFlight(requests[r := next]) ==
              InFlight(requests) - (if IsInFlight(requests[r]) then 1 else 0) + (if IsInFlight(next) then 1 else 0)
    ensures Held(requests[r := next]) ==
              Held(requests) - (if requests[r] == Holding then 1 else 0) + (if next == Holding then 1 else 0)
  {
    var front := requests[..|requests| - 1];
    if r < |front| {
      CountsAfter(front, r, next);
      assert requests[r := next][..|requests| - 1] == front[r := next];
    } else {
      assert requests[r := next][..|requests| - 1] == front;
    }
  }

  // ---- the law -------------------------------------------------------------------------------

  /** The action is a DELETE. */
  predicate Deletes(s: State, a: Action) {
    a.Go? && a.r < |s.requests| && s.requests[a.r] == Deleting
  }

  /** How many requests were in flight when the last DELETE ran; 0 if none has. */
  ghost function InFlightAtLastDelete(states: seq<State>, actions: seq<Action>, n: nat): nat
    requires n <= |actions| < |states|
  {
    if n == 0 then 0
    else if Deletes(states[n - 1], actions[n - 1]) then InFlight(states[n - 1].requests)
    else InFlightAtLastDelete(states, actions, n - 1)
  }

  /**
   * In every state of every run the counter is the number of requests in flight, less those that were in flight when
   * the last DELETE wiped it; and the slots held exceed the limit by no more than those.
   */
  lemma {:induction false} CounterLaw(limit: int, states: seq<State>, actions: seq<Action>, n: nat)
    requires Run(limit, states, actions) && n <= |actions|
    ensures states[n].counter == InFlight(states[n].requests) - InFlightAtLastDelete(states, actions, n)
    ensures Held(states[n].requests) <= Max(limit, 0) + InFlightAtLastDelete(states, actions, n)
  {
    if n > 0 {
      CounterLaw(limit, states, actions, n - 1);
      var s, a := states[n - 1], actions[n - 1];
      match a
      case Arrive => assert (s.requests + [Arriving])[..|s.requests|] == s.requests;
      case Go(r) => CountsAfter(s.requests, r, Command(s.counter, limit, s.requests[r]).1);
    }
  }

  /** The counter never counts a request that is not in flight, and is exact iff the last DELETE wiped nobody out. */
  lemma CounterNeverAboveInFlight(limit: int, states: seq<State>, actions: seq<Action>, n: nat)
    requires Run(limit, states, actions) && n <= |actions|
    ensures states[n].counter <= InFlight(states[n].requests)
    ensures states[n].counter == InFlight(states[n].requests) <==> InFlightAtLastDelete(states, actions, n) == 0
  {
    CounterLaw(limit, states, actions, n);
  }

  /** With nobody in flight, whatever has interleaved before, a request gets a slot if the limit allows any. */
  lemma SlotWhenNoneInFlight(limit: int, states: seq<State>, actions: seq<Action>, n: nat)
    requires Run(limit, states, actions) && n < |actions| && limit >= 1
    requires InFlight(states[n].requests) == 0
    requires actions[n].Go? && states[n].requests[actions[n].r] == Arriving
    ensures states[n + 1].requests[actions[n].r] == Holding
  {
    CounterLaw(limit, states, actions, n);
  }

  /** If every DELETE so far ran with nobody in flight, the slots held are within the limit. */
  lemma QuietDeletesKeepTheLimit(limit: int, states: seq<State>, actions: seq<Action>, n: nat)
    requires Run(limit, states, actions) && n <= |actions|
    requires forall i :: 0 <= i < n && Deletes(states[i], actions[i]) ==> InFlight(states[i].requests) == 0
    ensures Held(states[n].requests) <= Max(limit, 0)
  {
    NothingWiped(limit, states, actions, n);
    CounterLaw(limit, states, actions, n);
  }

  lemma {:induction false} NothingWiped(limit: int, states: seq<State>, actions: seq<Action>, n: nat)
    requires Run(limit, states, actions) && n <= |actions|
    requires forall i :: 0 <= i < n && Deletes(states[i], actions[i]) ==> InFlight(states[i].requests) == 0
    ensures InFlightAtLastDelete(states, actions, n) == 0
  {
    if n > 0 {
      NothingWiped(limit, states, actions, n - 1);
    }
  }

  // ---- what a DELETE makes possible ---------------------------------------------------------------

  /** The run goes on, without another DELETE. */
  ghost predicate GoesOn(limit: int, states: seq<State>, actions: seq<Action>, longer: seq<State>, more: seq<Action>) {
    && Run(limit, states, actions) && Run(limit, longer, more)
    && states <= longer && actions <= more
    && (forall i :: |actions| <= i < |more| ==> !Deletes(longer[i], more[i]))
  }

  lemma GoesOnFurther(limit: int, states: seq<State>, actions: seq<Action>, longer: seq<State>, more: seq<Action>,
                      longest: seq<State>, most: seq<Action>)
    requires GoesOn(limit, states, actions, longer, more) && GoesOn(limit, longer, more, longest, most)
    ensures GoesOn(limit, states, actions, longest, most)
  {
    forall i | |actions| <= i < |most| ensures !Deletes(longest[i], most[i]) {
      if i < |more| {
        assert longest[i] == longer[i] && most[i] == more[i];
      }
    }
  }

  lemma Extend(limit: int, states: seq<State>, actions: seq<Action>, a: Action)
    returns (longer: seq<State>, more: seq<Action>)
    requires Run(limit, states, actions) && Enabled(states[|actions|], a)
    ensures Run(limit, longer, more) && longer[|more|] == Step(limit, states[|actions|], a)
    ensures !Deletes(states[|actions|], a) ==> GoesOn(limit, states, actions, longer, more)
  {
    longer := states + [Step(limit, states[|actions|], a)];
    more := actions + [a];
  }

  /** A request arrives and finds the counter below the limit. */
  lemma TakeSlot(limit: int, states: seq<State>, actions: seq<Action>) returns (longer: seq<State>, more: seq<Action>)
    requires Run(limit, states, actions) && states[|actions|].counter < limit
    ensures GoesOn(limit, states, actions, longer, more)
    ensures var s, t := states[|actions|], longer[|more|];
            t.counter == s.counter + 1 && s.requests <= t.requests && Held(t.requests) == Held(s.requests) + 1
  {
    var s := states[|actions|];
    var arrived, some := Extend(limit, states, actions, Arrive);
    longer, more := Extend(limit, arrived, some, Go(|s.requests|));
    GoesOnFurther(limit, states, actions, arrived, some, longer, more);
    var requests := s.requests + [Holding];
    assert longer[|more|] == State(s.counter + 1, requests);
    assert requests[..|requests| - 1] == s.requests;
  }

  /** `k` requests arrive one after the other and find the counter below the limit. */
  lemma {:induction false} TakeSlots(limit: int, states: seq<State>, actions: seq<Action>, k: nat)
    returns (longer: seq<State>, more: seq<Action>)
    requires Run(limit, states, actions) && states[|actions|].counter + k <= limit
    ensures GoesOn(limit, states, actions, longer, more)
    ensures var s, t := states[|actions|], longer[|more|];
            && t.counter == s.counter + k && s.requests <= t.requests
            && Held(t.requests) == Held(s.requests) + k
  {
    longer, more := states, actions;
    if k > 0 {
      var fewer, some := TakeSlots(limit, states, actions, k - 1);
      longer, more := TakeSlot(limit, fewer, some);
      GoesOnFurther(limit, states, actions, fewer, some, longer, more);
    }
  }

  lemma {:induction false} FindRefused(requests: seq<Request>) returns (r: nat)
    requires InFlight(requests) > Held(requests)
    ensures r < |requests| && requests[r] == RollingBack
  {
    if requests[|requests| - 1] == RollingBack {
      r := |requests| - 1;
    } else {
      r := FindRefused(requests[..|requests| - 1]);
    }
  }

  /** Every refused request takes its increment back. */
  lemma {:induction false} RefusedLeave(limit: int, states: seq<State>, actions: seq<Action>)
    returns (longer: seq<State>, more: seq<Action>)
    requires Run(limit, states, actions)
    ensures GoesOn(limit, states, actions, longer, more)
    ensures var s, t := states[|actions|].requests, longer[|more|].requests; InFlight(t) == Held(t) == Held(s)
    decreases InFlight(states[|actions|].requests)
  {
    longer, more := states, actions;
    var requests := states[|actions|].requests;
    if InFlight(requests) > Held(requests) {
      var r := FindRefused(requests);
      CountsAfter(requests, r, Gone);
      var fewer, some := Extend(limit, states, actions, Go(r));
      longer, more := RefusedLeave(limit, fewer, some);
      GoesOnFurther(limit, states, actions, fewer, some, longer, more);
    }
  }

  /** Without another DELETE the last one's toll stays what it was. */
  lemma {:induction false} SameToll(limit: int, states: seq<State>, actions: seq<Action>, longer: seq<State>, more: seq<Action>,
                                    n: nat)
    requires GoesOn(limit, states, actions, longer, more) && |actions| <= n <= |more|
    ensures InFlightAtLastDelete(longer, more, n) == InFlightAtLastDelete(states, actions, |actions|)
  {
    if n > |actions| {
      SameToll(limit, states, actions, longer, more, n - 1);
    } else {
      SamePast(states, actions, longer, more, n);
    }
  }

  lemma {:induction false} SamePast(states: seq<State>, actions: seq<Action>, longer: seq<State>, more: seq<Action>, n: nat)
    requires states <= longer && actions <= more && n <= |actions| < |states| && |more| < |longer|
    ensures InFlightAtLastDelete(longer, more, n) == InFlightAtLastDelete(states, actions, n)
  {
    if n > 0 {
      SamePast(states, actions, longer, more, n - 1);
    }
  }

  /**
   * What can be held before the next DELETE: however the run goes on until then, at most the limit and those that were in
   * flight at the last DELETE; and it can go on so that exactly as many slots are held.
   */
  lemma HeldBeforeNextDelete(limit: int, states: seq<State>, actions: seq<Action>)
    returns (longer: seq<State>, more: seq<Action>)
    requires Run(limit, states, actions) && limit >= 0
    ensures forall others: seq<State>, most: seq<Action> :: GoesOn(limit, states, actions, others, most) ==>
              Held(others[|most|].requests) <= limit + InFlightAtLastDelete(states, actions, |actions|)
    ensures GoesOn(limit, states, actions, longer, more)
    ensures Held(longer[|more|].requests) == limit + InFlightAtLastDelete(states, actions, |actions|)
  {
    forall others: seq<State>, most: seq<Action> | GoesOn(limit, states, actions, others, most)
      ensures Held(others[|most|].requests) <= limit + InFlightAtLastDelete(states, actions, |actions|)
    {
      CounterLaw(limit, others, most, |most|);
      SameToll(limit, states, actions, others, most, |most|);
    }
    var fewer, some := RefusedLeave(limit, states, actions);
    CounterLaw(limit, fewer, some, |some|);
    SameToll(limit, states, actions, fewer, some, |some|);
    longer, more := TakeSlots(limit, fewer, some, limit - fewer[|some|].counter);
    GoesOnFurther(limit, states, actions, fewer, some, longer, more);
  }

  /** However the run goes on without another DELETE, the slots held stay within the limit. */
  ghost predicate LimitIsSafe(limit: int, states: seq<State>, actions: seq<Action>) {
    forall longer: seq<State>, more: seq<Action> ::
      GoesOn(limit, states, actions, longer, more) ==> Held(longer[|more|].requests) <= limit
  }

  /** The limit is safe until the next DELETE exactly when the last one found nobody in flight. */
  lemma LimitIsSafeIff(limit: int, states: seq<State>, actions: seq<Action>)
    requires Run(limit, states, actions) && limit >= 0
    ensures LimitIsSafe(limit, states, actions) <==> InFlightAtLastDelete(states, actions, |actions|) == 0
  {
    var longer, more := HeldBeforeNextDelete(limit, states, actions);
    if LimitIsSafe(limit, states, actions) {
      assert GoesOn(limit, states, actions, longer, more);
    }
  }

  // ---- late DELETEs one after the other ---------------------------------------------------------------

  /** The requests from `i` on up to `k` have given their slots back and not yet made their DELETE. */
  ghost predicate DeletesPending(requests: seq<Request>, i: nat, k: nat) {
    i <= k <= |requests| && forall r :: i <= r < k ==> requests[r] == Deleting
  }

  /** `k` requests come and go, but for their last command. */
  lemma {:induction false} DelayDeletes(limit: int, k: nat) returns (states: seq<State>, actions: seq<Action>)
    requires limit >= 1
    ensures Run(limit, states, actions)
    ensures var s := states[|actions|];
            s.counter == 0 && |s.requests| == k && DeletesPending(s.requests, 0, k) && Held(s.requests) == 0
  {
    if k == 0 {
      states, actions := [State(0, [])], [];
    } else {
      states, actions := DelayDeletes(limit, k - 1);
      var before := states[|actions|].requests;
      states, actions := Extend(limit, states, actions, Arrive);
      states, actions := Extend(limit, states, actions, Go(k - 1));
      states, actions := Extend(limit, states, actions, Go(k - 1));
      assert states[|actions|] == State(0, before + [Deleting]);
      assert (before + [Deleting])[..k - 1] == before;
    }
  }

  lemma DeletesLate(limit: int, states: seq<State>, actions: seq<Action>, i: nat, k: nat)
    returns (longer: seq<State>, more: seq<Action>)
    requires Run(limit, states, actions) && i < k && DeletesPending(states[|actions|].requests, i, k)
    ensures Run(limit, longer, more)
    ensures var s, t := states[|actions|], longer[|more|];
            t.counter == 0 && DeletesPending(t.requests, i + 1, k) && Held(t.requests) == Held(s.requests)
  {
    CountsAfter(states[|actions|].requests, i, Gone);
    longer, more := Extend(limit, states, actions, Go(i));
  }

  /** After each of `i` of those DELETEs the limit is granted once more. */
  lemma {:induction false} DeleteAndFill(limit: int, k: nat, i: nat) returns (states: seq<State>, actions: seq<Action>)
    requires limit >= 1 && i <= k
    ensures Run(limit, states, actions)
    ensures DeletesPending(states[|actions|].requests, i, k)
    ensures Held(states[|actions|].requests) == (i + 1) * limit
  {
    if i == 0 {
      states, actions := DelayDeletes(limit, k);
    } else {
      states, actions := DeleteAndFill(limit, k, i - 1);
      states, actions := DeletesLate(limit, states, actions, i - 1, k);
      assert (i + 1) * limit == i * limit + limit;
    }
    states, actions := TakeSlots(limit, states, actions, limit);
  }

  /**
   * Nothing bounds what late DELETEs add up to: for every limit and every `k` there is a run in which k of them let k + 1
   * times the limit hold a slot at once.
   */
  lemma LateDeletesBreakTheLimit(limit: int, k: nat) returns (states: seq<State>, actions: seq<Action>)
    requires limit >= 1
    ensures Run(limit, states, actions) && Held(states[|actions|].requests) == (k + 1) * limit
  {
    states, actions := DeleteAndFill(limit, k, k);
  }
}
