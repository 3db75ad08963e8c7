/** When no further token reservation of a key can be granted, command by command: exactly when its counter is stuck. */
module TokenLockout {
  import opened Sums
  import opened TokenSteps

  ghost predicate GoesOn(limit: int, states: seq<State>, actions: seq<Action>, longer: seq<State>, more: seq<Action>) {
    Run(limit, states, actions) && Run(limit, longer, more) && states <= longer && actions <= more
  }

  /** The last command has a request hold its tokens. */
  ghost predicate GrantsLast(states: seq<State>, actions: seq<Action>) {
    && 0 < |actions| < |states|
    && var s, t, a := states[|actions| - 1], states[|actions|], actions[|actions| - 1];
       && a.Go? && a.r < |s.requests| && a.r < |t.requests|
       && s.requests[a.r].stage != Reserved && t.requests[a.r].stage == Reserved
  }

  /** The run can go on so that some request is granted its tokens. */
  ghost predicate CanBeGranted(limit: int, states: seq<State>, actions: seq<Action>) {
    exists longer, more :: GoesOn(limit, states, actions, longer, more) && |actions| < |more| && GrantsLast(longer, more)
  }

  lemma GoOn(limit: int, states: seq<State>, actions: seq<Action>, since: seq<State>, past: seq<Action>, a: Action)
    returns (longer: seq<State>, more: seq<Action>)
    requires GoesOn(limit, since, past, states, actions) && Enabled(states[|actions|], a)
    ensures GoesOn(limit, since, past, longer, more) && |more| == |actions| + 1
    ensures longer[|actions|] == states[|actions|] && more[|actions|] == a
    ensures longer[|more|] == Step(limit, states[|actions|], a)
  {
    longer := states + [Step(limit, states[|actions|], a)];
    more := actions + [a];
  }

  // ---- a counter that is not stuck ------------------------------------------------------------

  /** A counter below the limit has room for a request for one token. */
  lemma OneTokenIsGranted(limit: int, states: seq<State>, actions: seq<Action>, since: seq<State>, past: seq<Action>)
    requires GoesOn(limit, since, past, states, actions) && Worth(states[|actions|].counter) < limit && limit >= 1
    ensures CanBeGranted(limit, since, past)
  {
    var r := |states[|actions|].requests|;
    var longer, more := GoOn(limit, states, actions, since, past, Arrive(1));
    longer, more := GoOn(limit, longer, more, since, past, Go(r));
    if longer[|more|].requests[r].stage.Expiring? {
      longer, more := GoOn(limit, longer, more, since, past, Go(r));
    }
    assert GrantsLast(longer, more);
  }

  /** A counter that can expire has. */
  lemma ExpiringIsGranted(limit: int, states: seq<State>, actions: seq<Action>, since: seq<State>, past: seq<Action>)
    requires GoesOn(limit, since, past, states, actions) && limit >= 1
    requires states[|actions|].counter.Absent? || states[|actions|].counter.expires
    ensures CanBeGranted(limit, since, past)
  {
    if states[|actions|].counter.Absent? {
      OneTokenIsGranted(limit, states, actions, since, past);
    } else {
      var longer, more := GoOn(limit, states, actions, since, past, Expiry);
      OneTokenIsGranted(limit, longer, more, since, past);
    }
  }

  /** A pending EXPIRE or DELETE leads to a counter that can expire or is gone. */
  lemma PendingIsGranted(limit: int, states: seq<State>, actions: seq<Action>, since: seq<State>, past: seq<Action>, r: nat)
    requires GoesOn(limit, since, past, states, actions) && limit >= 1 && r < |states[|actions|].requests|
    requires states[|actions|].requests[r].stage.Expiring? || states[|actions|].requests[r].stage == Deleting
    ensures CanBeGranted(limit, since, past)
  {
    var longer, more := GoOn(limit, states, actions, since, past, Go(r));
    ExpiringIsGranted(limit, longer, more, since, past);
  }

  ghost predicate NonePending(requests: seq<Request>) {
    forall i :: 0 <= i < |requests| ==> !requests[i].stage.Expiring? && requests[i].stage != Deleting
  }

  /** What the counter will exceed the limit by once all refused requests have taken themselves back. */
  function Settled(limit: int, s: State): int {
    Worth(s.counter) - Total(s.requests, Overdue(limit))
  }

  /** The first `n` requests that have been refused take themselves back. */
  lemma {:induction false} RollFirstBack(limit: int, states: seq<State>, actions: seq<Action>, since: seq<State>,
                                         past: seq<Action>, n: nat)
    returns (longer: seq<State>, more: seq<Action>)
    requires GoesOn(limit, since, past, states, actions) && n <= |states[|actions|].requests|
    requires CountsAgree(states[|actions|].requests) && NonePending(states[|actions|].requests)
    ensures GoesOn(limit, since, past, longer, more)
    ensures var s, t := states[|actions|], longer[|more|];
            && CountsAgree(t.requests) && NonePending(t.requests) && |t.requests| == |s.requests|
            && Settled(limit, t) == Settled(limit, s)
            && (forall i :: 0 <= i < n ==> t.requests[i].stage != RollingBack)
  {
    longer, more := states, actions;
    if n > 0 {
      longer, more := RollFirstBack(limit, states, actions, since, past, n - 1);
      var s := longer[|more|];
      if s.requests[n - 1].stage == RollingBack {
        longer, more := GoOn(limit, longer, more, since, past, Go(n - 1));
        TotalUpdate(s.requests, n - 1, s.requests[n - 1].(counted := 0, stage := Gone), Overdue(limit));
      }
    }
  }

  lemma RoomIsGranted(limit: int, states: seq<State>, actions: seq<Action>, since: seq<State>, past: seq<Action>)
    requires GoesOn(limit, since, past, states, actions) && limit >= 1
    requires CountsAgree(states[|actions|].requests) && NonePending(states[|actions|].requests)
    requires Settled(limit, states[|actions|]) < limit
    ensures CanBeGranted(limit, since, past)
  {
    var longer, more := RollFirstBack(limit, states, actions, since, past, |states[|actions|].requests|);
    TotalOfNothing(longer[|more|].requests, Overdue(limit));
    OneTokenIsGranted(limit, longer, more, since, past);
  }

  /** A request that holds tokens can give them all back, which makes room or deletes the counter. */
  lemma ReservedIsGranted(limit: int, states: seq<State>, actions: seq<Action>, r: nat)
    requires Run(limit, states, actions) && limit >= 1 && NonePending(states[|actions|].requests)
    requires r < |states[|actions|].requests| && states[|actions|].requests[r].stage == Reserved
    ensures CanBeGranted(limit, states, actions)
  {
    var s := states[|actions|];
    CounterLaw(limit, states, actions, |actions|);
    var longer, more := GoOn(limit, states, actions, states, actions, Finalize(r, 0, true));
    var t := longer[|more|];
    if t.requests[r].stage == Deleting {
      PendingIsGranted(limit, longer, more, states, actions, r);
    } else {
      CounterLaw(limit, longer, more, |more|);
      TotalUpdate(s.requests, r, t.requests[r], Overdue(limit));
      RoomIsGranted(limit, longer, more, states, actions);
    }
  }

  lemma UnstuckIsGranted(limit: int, states: seq<State>, actions: seq<Action>)
    requires Run(limit, states, actions) && limit >= 1 && !Stuck(limit, states[|actions|])
    ensures CanBeGranted(limit, states, actions)
  {
    var s := states[|actions|];
    CounterLaw(limit, states, actions, |actions|);
    if s.counter.Absent? || s.counter.expires {
      ExpiringIsGranted(limit, states, actions, states, actions);
    } else if !NonePending(s.requests) {
      var r :| 0 <= r < |s.requests| && (s.requests[r].stage.Expiring? || s.requests[r].stage == Deleting);
      PendingIsGranted(limit, states, actions, states, actions, r);
    } else if r :| 0 <= r < |s.requests| && s.requests[r].stage == Reserved {
      ReservedIsGranted(limit, states, actions, r);
    } else {
      RoomIsGranted(limit, states, actions, states, actions);
    }
  }

  // ---- a counter that is -------------------------------------------------------------------------

  lemma {:induction false} StuckOn(limit: int, states: seq<State>, actions: seq<Action>, i: nat, k: nat)
    requires Run(limit, states, actions) && i <= k <= |actions| && Stuck(limit, states[i])
    ensures Stuck(limit, states[k])
  {
    if i < k {
      StuckOn(limit, states, actions, i, k - 1);
      StuckForever(limit, states[k - 1], actions[k - 1]);
    }
  }

  /**
   * Whatever has happened, the run can go on so that some request is granted its tokens, unless the counter is stuck: at
   * the limit or above without an expiry, with every request refused or gone once all refusals are taken back.
   */
  lemma StuckIff(limit: int, states: seq<State>, actions: seq<Action>)
    requires Run(limit, states, actions) && limit >= 1
    ensures !CanBeGranted(limit, states, actions) <==> Stuck(limit, states[|actions|])
  {
    if Stuck(limit, states[|actions|]) {
      forall longer, more | GoesOn(limit, states, actions, longer, more) && |actions| < |more|
        ensures !GrantsLast(longer, more)
      {
        StuckOn(limit, longer, more, |actions|, |more|);
      }
    } else {
      UnstuckIsGranted(limit, states, actions);
    }
  }
}
