/** Runs in which the counters of one API key do what their names promise not to: lock it out, or overfill a window. */
module LedgerRuns {
  import opened Wrappers
  import opened Numbers
  import opened RedisModel
  import opened Admission
  import opened AdmissionLedger
  import opened TokenLedger
  import opened WindowBounds

  const START := Ledger(map[], 0.0, None, [], map[], map[])

  lemma Extend(limits: Limits, states: seq<Ledger>, events: seq<Event>, e: Event)
    returns (longer: seq<Ledger>, more: seq<Event>)
    requires Run(limits, states, events) && Enabled(states[|events|], e)
    ensures Run(limits, longer, more) && longer[|more|] == Step(limits, states[|events|], e)
  {
    longer := states + [Step(limits, states[|events|], e)];
    more := events + [e];
  }

  // ---- rounds of one admission and a minute ----------------------------------------------

  /** The windows of the key are over, and this many of its slots are counted. */
  ghost predicate Quiet(s: Ledger, apiKey: string, counted: nat) {
    && s.overload == None
    && !Live(s.db, RpmKey(apiKey), s.now) && !Live(s.db, TpmKey(apiKey), s.now)
    && (SlotsKey(apiKey) in s.db ==> s.db[SlotsKey(apiKey)].expiresAt == None)
    && Value(s.db, SlotsKey(apiKey), s.now) == counted
  }

  /** An admission of a quiet key is granted if its tokens fit a window of their own, and refused for them otherwise. */
  lemma QuietAdmit(limits: Limits, s: Ledger, apiKey: string, counted: nat, estimated: int)
    requires Quiet(s, apiKey, counted) && limits.rpm >= 1 && counted < limits.slots && estimated > 0
    ensures VerdictOn(limits, s.db, s.now, s.overload, apiKey, estimated)
         == if estimated <= limits.tpm then Verdict.Granted else TooManyTokens
    ensures var t := AdmitStep(limits, s, apiKey, estimated);
            && t.now == s.now && t.overload == None
            && Value(t.db, RpmKey(apiKey), t.now) == 1 && t.db[RpmKey(apiKey)].expiresAt == Some(s.now + 60.0)
            && Value(t.db, TpmKey(apiKey), t.now) == (if estimated <= limits.tpm then estimated else 0)
            && t.db[TpmKey(apiKey)].expiresAt == Some(s.now + 60.0)
            && SlotsKey(apiKey) in t.db && t.db[SlotsKey(apiKey)] == Entry(counted + 1, None)
            && WindowOf(t.windows, apiKey) == Window(WindowOf(s.windows, apiKey).number + 1, s.now + 60.0, 0)
            && t.grants == (if estimated <= limits.tpm then s.grants + [NewGrant(apiKey, estimated, WindowOf(t.windows, apiKey))]
                            else s.grants)
            && Stranded(t, apiKey) == (if estimated <= limits.tpm then Stranded(s, apiKey) else Stranded(s, apiKey) + 1)
  {
  }

  lemma QuietRound(limits: Limits, states: seq<Ledger>, events: seq<Event>, apiKey: string, counted: nat, estimated: int)
    returns (longer: seq<Ledger>, more: seq<Event>)
    requires Run(limits, states, events) && Quiet(states[|events|], apiKey, counted)
    requires limits.rpm >= 1 && counted < limits.slots && estimated > 0
    ensures Run(limits, longer, more) && Quiet(longer[|more|], apiKey, counted + 1)
    ensures var s, t := states[|events|], longer[|more|];
            && WindowOf(t.windows, apiKey).number == WindowOf(s.windows, apiKey).number + 1
            && t.grants == (if estimated <= limits.tpm
                            then s.grants + [NewGrant(apiKey, estimated, WindowOf(t.windows, apiKey))] else s.grants)
            && Stranded(t, apiKey) == (if estimated <= limits.tpm then Stranded(s, apiKey) else Stranded(s, apiKey) + 1)
  {
    QuietAdmit(limits, states[|events|], apiKey, counted, estimated);
    longer, more := Extend(limits, states, events, Admit(apiKey, estimated));
    longer, more := Extend(limits, longer, more, Tick(60.0));
  }

  // ---- the lockout -------------------------------------------------------------------------

  /** A key loses as many slots as it likes to requests for too many tokens, one a minute, while it holds none at all. */
  lemma {:induction false} RefusalsHappen(limits: Limits, apiKey: string, n: nat)
    returns (states: seq<Ledger>, events: seq<Event>)
    requires limits.rpm >= 1 && n <= limits.slots
    ensures Run(limits, states, events) && TokenRefusals(limits, states, events, |events|, apiKey) == n
    ensures Quiet(states[|events|], apiKey, n) && states[|events|].grants == []
  {
    if n == 0 {
      states, events := [START], [];
    } else {
      states, events := RefusalsHappen(limits, apiKey, n - 1);
      StrandedAreRefusals(limits, states, events, |events|, apiKey);
      states, events := QuietRound(limits, states, events, apiKey, n - 1, Max(limits.tpm, 0) + 1);
      StrandedAreRefusals(limits, states, events, |events|, apiKey);
    }
  }

  // ---- the overfilled window -------------------------------------------------------------------

  /** `n` leases of `size` tokens are open, the m-th of window m + 1. */
  ghost predicate OpenLeases(grants: seq<Grant>, apiKey: string, size: int, from: nat, n: nat) {
    && from <= n <= |grants|
    && (forall m :: from <= m < n ==>
          && grants[m].apiKey == apiKey && grants[m].reserved == size && grants[m].window == m + 1
          && !grants[m].finalized)
  }

  /** One lease is left open in each of `n` windows. */
  lemma {:induction false} LeavesOpen(limits: Limits, apiKey: string, size: int, n: nat)
    returns (states: seq<Ledger>, events: seq<Event>)
    requires limits.rpm >= 1 && n <= limits.slots && 0 < size <= limits.tpm
    ensures Run(limits, states, events)
    ensures var s := states[|events|];
            && Quiet(s, apiKey, n) && |s.grants| == n && OpenLeases(s.grants, apiKey, size, 0, n)
            && WindowOf(s.windows, apiKey).number == n
  {
    if n == 0 {
      states, events := [START], [];
    } else {
      states, events := LeavesOpen(limits, apiKey, size, n - 1);
      states, events := QuietRound(limits, states, events, apiKey, n - 1, size);
    }
  }

  /**
   * How far a window has been filled again and again: of the `older` leases of earlier windows the first `drawn` have been
   * finalized in it, `held` slots are counted, and `requests` in a request window that ends at `requestsEnd`.
   */
  datatype Filling = Filling(older: nat, drawn: nat, held: nat, requests: nat, requestsEnd: real, end: real)

  /** The window runs, and this much is counted in it. */
  ghost predicate FilledTo(limits: Limits, s: Ledger, apiKey: string, f: Filling, counter: int) {
    && s.overload == None && s.now < f.end
    && TpmKey(apiKey) in s.db && s.db[TpmKey(apiKey)] == Entry(counter, Some(f.end))
    && (if f.requests == 0 then !Live(s.db, RpmKey(apiKey), s.now)
        else
          && RpmKey(apiKey) in s.db && s.db[RpmKey(apiKey)] == Entry(f.requests, Some(f.requestsEnd))
          && s.now < f.requestsEnd)
    && SlotsKey(apiKey) in s.db && s.db[SlotsKey(apiKey)] == Entry(f.held, None)
    && WindowOf(s.windows, apiKey).number == f.older + 1
    && WindowOf(s.windows, apiKey).endsAt == f.end
    && WindowOf(s.windows, apiKey).drawn == f.drawn * (limits.tpm - 1)
    && OpenLeases(s.grants, apiKey, limits.tpm - 1, f.drawn, f.older)
  }

  ghost predicate FullWindow(limits: Limits, s: Ledger, apiKey: string, f: Filling) {
    FilledTo(limits, s, apiKey, f, limits.tpm)
  }

  function Refilled(f: Filling, times: nat, now: real): Filling {
    if times == 0 then f
    else f.(drawn := f.drawn + times, held := f.held + times, requests := f.requests + times,
            requestsEnd := if f.requests == 0 then now + 60.0 else f.requestsEnd)
  }

  /** There are leases, requests and slots left for this many more. */
  predicate LeavesRoom(limits: Limits, f: Filling, times: nat) {
    limits.tpm >= 2 && f.drawn + times <= f.older && f.requests + times <= limits.rpm && f.held + times <= limits.slots
  }

  /** An older lease gives back all but one of the window's tokens. */
  lemma Draw(limits: Limits, s: Ledger, apiKey: string, f: Filling)
    requires FullWindow(limits, s, apiKey, f) && LeavesRoom(limits, f, 1)
    ensures FilledTo(limits, FinalizeStep(s, s.grants[f.drawn], f.drawn, 0, true), apiKey, f.(drawn := f.drawn + 1), 1)
  {
    assert (f.drawn + 1) * (limits.tpm - 1) == f.drawn * (limits.tpm - 1) + (limits.tpm - 1);
  }

  /** The next reservation takes them. */
  lemma ReserveAgain(limits: Limits, s: Ledger, apiKey: string, f: Filling)
    requires FilledTo(limits, s, apiKey, f, 1) && limits.tpm >= 2 && f.requests < limits.rpm && f.held < limits.slots
    ensures VerdictOn(limits, s.db, s.now, s.overload, apiKey, limits.tpm - 1) == Verdict.Granted
    ensures var t := AdmitStep(limits, s, apiKey, limits.tpm - 1);
            FullWindow(limits, t, apiKey, Refilled(f, 1, s.now).(drawn := f.drawn))
  {
  }

  lemma Refill(limits: Limits, states: seq<Ledger>, events: seq<Event>, apiKey: string, f: Filling)
    returns (longer: seq<Ledger>, more: seq<Event>)
    requires Run(limits, states, events) && FullWindow(limits, states[|events|], apiKey, f) && LeavesRoom(limits, f, 1)
    ensures Run(limits, longer, more) && longer[|more|].now == states[|events|].now
    ensures FullWindow(limits, longer[|more|], apiKey, Refilled(f, 1, states[|events|].now))
  {
    Draw(limits, states[|events|], apiKey, f);
    longer, more := Extend(limits, states, events, Finalize(f.drawn, 0, true));
    ReserveAgain(limits, longer[|more|], apiKey, f.(drawn := f.drawn + 1));
    assert Refilled(f.(drawn := f.drawn + 1), 1, states[|events|].now).(drawn := f.drawn + 1)
        == Refilled(f, 1, states[|events|].now);
    longer, more := Extend(limits, longer, more, Admit(apiKey, limits.tpm - 1));
  }

  lemma {:induction false} Refills(limits: Limits, states: seq<Ledger>, events: seq<Event>, apiKey: string, f: Filling,
                                   times: nat)
    returns (longer: seq<Ledger>, more: seq<Event>)
    requires Run(limits, states, events) && FullWindow(limits, states[|events|], apiKey, f) && LeavesRoom(limits, f, times)
    ensures Run(limits, longer, more) && longer[|more|].now == states[|events|].now
    ensures FullWindow(limits, longer[|more|], apiKey, Refilled(f, times, states[|events|].now))
  {
    if times == 0 {
      longer, more := states, events;
    } else {
      longer, more := Refills(limits, states, events, apiKey, f, times - 1);
      longer, more := Refill(limits, longer, more, apiKey, Refilled(f, times - 1, states[|events|].now));
    }
  }

  /** A running window whose counter is positive is charged for what it counts and for all that was drawn on it. */
  lemma ChargedWhenCounted(limits: Limits, states: seq<Ledger>, events: seq<Event>, apiKey: string, w: Window)
    requires Run(limits, states, events) && WindowOf(states[|events|].windows, apiKey) == w
    requires states[|events|].now < w.endsAt && Value(states[|events|].db, TpmKey(apiKey), states[|events|].now) > 0
    ensures var s := states[|events|]; ChargedNow(s, apiKey) == Value(s.db, TpmKey(apiKey), s.now) + w.drawn
  {
    TokenCounterFollowsLedger(limits, states, events, |events|, apiKey);
  }

  /**
   * There is no bound in terms of the token limit alone: where the other limits leave room for it, `n` leases left open by
   * earlier windows can be finalized in a single window that is still running, and it gets charged for
   * limit + n * (limit - 1) tokens.
   */
  lemma LateFinalizesOverfillAWindow(limits: Limits, apiKey: string, n: nat)
    returns (states: seq<Ledger>, events: seq<Event>)
    requires limits.tpm >= 2 && limits.rpm >= n + 1 && limits.slots >= 2 * n + 1
    ensures Run(limits, states, events)
    ensures var s := states[|events|];
            && s.now < WindowOf(s.windows, apiKey).endsAt
            && ChargedNow(s, apiKey) == limits.tpm + n * (limits.tpm - 1)
  {
    states, events := LeavesOpen(limits, apiKey, limits.tpm - 1, n);
    var now := states[|events|].now;
    QuietAdmit(limits, states[|events|], apiKey, n, limits.tpm);
    states, events := Extend(limits, states, events, Admit(apiKey, limits.tpm));
    var f := Filling(n, 0, n + 1, 1, now + 60.0, now + 60.0);
    states, events := Refills(limits, states, events, apiKey, f, n);
    ChargedWhenCounted(limits, states, events, apiKey, WindowOf(states[|events|].windows, apiKey));
  }

  // ---- the fullest window ---------------------------------------------------------------------------

  /** A request without tokens opens the request window half a minute before the token window starts. */
  lemma QuietRequest(limits: Limits, s: Ledger, apiKey: string, counted: nat)
    requires Quiet(s, apiKey, counted) && limits.rpm >= 1 && counted < limits.slots
    ensures var t := AdmitStep(limits, s, apiKey, 0);
            && t.now == s.now && t.overload == None && t.windows == s.windows
            && !Live(t.db, TpmKey(apiKey), t.now)
            && RpmKey(apiKey) in t.db && t.db[RpmKey(apiKey)] == Entry(1, Some(s.now + 60.0))
            && SlotsKey(apiKey) in t.db && t.db[SlotsKey(apiKey)] == Entry(counted + 1, None)
            && s.grants <= t.grants
  {
  }

  lemma FillsFirst(limits: Limits, s: Ledger, apiKey: string, f: Filling)
    requires s.overload == None && !Live(s.db, TpmKey(apiKey), s.now) && limits.tpm >= 2
    requires RpmKey(apiKey) in s.db && s.db[RpmKey(apiKey)] == Entry(1, Some(f.requestsEnd))
    requires SlotsKey(apiKey) in s.db && s.db[SlotsKey(apiKey)] == Entry(f.older + 1, None)
    requires WindowOf(s.windows, apiKey).number == f.older && OpenLeases(s.grants, apiKey, limits.tpm - 1, 0, f.older)
    requires f == Filling(f.older, 0, f.older + 2, 2, f.requestsEnd, s.now + 60.0)
    requires s.now < f.requestsEnd && 2 <= limits.rpm && f.held <= limits.slots
    ensures FullWindow(limits, AdmitStep(limits, s, apiKey, limits.tpm), apiKey, f)
  {
  }

  lemma StartsLate(limits: Limits, states: seq<Ledger>, events: seq<Event>, apiKey: string, n: nat)
    returns (longer: seq<Ledger>, more: seq<Event>)
    requires Run(limits, states, events) && Quiet(states[|events|], apiKey, n)
    requires WindowOf(states[|events|].windows, apiKey).number == n
    requires OpenLeases(states[|events|].grants, apiKey, limits.tpm - 1, 0, n)
    requires limits.tpm >= 2 && limits.rpm >= 2 && n + 2 <= limits.slots
    ensures var now := states[|events|].now;
            && Run(limits, longer, more) && longer[|more|].now == now + 30.0
            && FullWindow(limits, longer[|more|], apiKey, Filling(n, 0, n + 2, 2, now + 60.0, now + 90.0))
  {
    var now := states[|events|].now;
    QuietRequest(limits, states[|events|], apiKey, n);
    longer, more := Extend(limits, states, events, Admit(apiKey, 0));
    longer, more := Extend(limits, longer, more, Tick(30.0));
    FillsFirst(limits, longer[|more|], apiKey, Filling(n, 0, n + 2, 2, now + 60.0, now + 90.0));
    longer, more := Extend(limits, longer, more, Admit(apiKey, limits.tpm));
  }

  /** The request window ends while the token window goes on. */
  lemma RequestsEnd(limits: Limits, states: seq<Ledger>, events: seq<Event>, apiKey: string, f: Filling)
    returns (longer: seq<Ledger>, more: seq<Event>)
    requires Run(limits, states, events) && FullWindow(limits, states[|events|], apiKey, f)
    requires f.requests > 0 && f.requestsEnd <= states[|events|].now + 30.0 < f.end
    ensures Run(limits, longer, more) && FullWindow(limits, longer[|more|], apiKey, f.(requests := 0))
  {
    longer, more := Extend(limits, states, events, Tick(30.0));
  }

  /** For every request and token limit the ceiling of `WindowIsBounded` is attained, if there are slots enough. */
  lemma WindowCeilingIsAttained(limits: Limits, apiKey: string) returns (states: seq<Ledger>, events: seq<Event>)
    requires limits.rpm >= 1 && limits.tpm >= 1 && limits.slots >= 4 * limits.rpm - 2
    ensures Run(limits, states, events)
    ensures var s := states[|events|];
            && s.now < WindowOf(s.windows, apiKey).endsAt
            && ChargedNow(s, apiKey) == WindowCeiling(limits)
  {
    if limits.rpm == 1 || limits.tpm == 1 {
      states, events := FillsOnce(limits, apiKey);
    } else {
      var n := 2 * limits.rpm - 2;
      states, events := LeavesOpen(limits, apiKey, limits.tpm - 1, n);
      var now := states[|events|].now;
      states, events := StartsLate(limits, states, events, apiKey, n);
      var f := Filling(n, 0, n + 2, 2, now + 60.0, now + 90.0);
      states, events := Refills(limits, states, events, apiKey, f, limits.rpm - 2);
      var half := Refilled(f, limits.rpm - 2, now + 30.0);
      states, events := RequestsEnd(limits, states, events, apiKey, half);
      states, events := Refills(limits, states, events, apiKey, half.(requests := 0), limits.rpm);
      ChargedWhenCounted(limits, states, events, apiKey, WindowOf(states[|events|].windows, apiKey));
    }
  }

  lemma FillsOnce(limits: Limits, apiKey: string) returns (states: seq<Ledger>, events: seq<Event>)
    requires limits.rpm >= 1 && limits.tpm >= 1 && limits.slots >= 1
    ensures Run(limits, states, events)
    ensures var s := states[|events|];
            && s.now < WindowOf(s.windows, apiKey).endsAt
            && ChargedNow(s, apiKey) == limits.tpm
  {
    states, events := LeavesOpen(limits, apiKey, limits.tpm, 0);
    QuietAdmit(limits, states[|events|], apiKey, 0, limits.tpm);
    states, events := Extend(limits, states, events, Admit(apiKey, limits.tpm));
    ChargedWhenCounted(limits, states, events, apiKey, WindowOf(states[|events|].windows, apiKey));
  }
}
