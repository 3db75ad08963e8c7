/** How much a token window can be charged at given limits: its reservations are also requests of at most two minutes. */
module WindowBounds {
  import opened Numbers
  import opened Sums
  import opened RedisModel
  import opened RateLimiter
  import opened QuotaReserver
  import opened Admission
  import opened AdmissionLedger
  import opened TokenLedger

  function CountsIn(apiKey: string, window: nat): Grant -> int {
    (g: Grant) => if g.apiKey == apiKey && g.reserved > 0 && g.window == window then 1 else 0
  }

  /** The reservations that were accepted in the key's current window. */
  function Members(s: Ledger, apiKey: string): int {
    Total(s.grants, CountsIn(apiKey, WindowOf(s.windows, apiKey).number))
  }

  /** What `count` reservations of a window can add up to: the first finds it empty, every later one does not. */
  function Ceiling(limit: int, count: int): int {
    if count <= 0 then 0 else limit + (count - 1) * (limit - 1)
  }

  lemma CeilingGrows(limit: int, count: int)
    requires limit >= 1 && count >= 1
    ensures Ceiling(limit, count + 1) == Ceiling(limit, count) + (limit - 1)
  {
    assert count * (limit - 1) == (count - 1) * (limit - 1) + (limit - 1);
  }

  lemma CeilingIsMonotone(limit: int, count: int, more: int)
    requires limit >= 1 && 1 <= count <= more
    ensures Ceiling(limit, count) <= Ceiling(limit, more)
  {
    assert (more - 1) * (limit - 1) == (count - 1) * (limit - 1) + (more - count) * (limit - 1);
    assert (more - count) * (limit - 1) >= 0;
  }

  // ---- the members of a window as requests of its minute ---------------------------------------

  /** The request counter bounds the calls accepted since `start`, if there are any. */
  ghost predicate RequestsBound(db: Db, now: real, apiKey: string, limit: int, start: real, count: int) {
    && count >= 0
    && (if RpmKey(apiKey) in db
        then BoundedBy(db[RpmKey(apiKey)], count, limit, start) && db[RpmKey(apiKey)].expiresAt.value - 60.0 <= now
        else count == 0)
    && (count > 0 ==> start <= now)
  }

  ghost predicate KeyBound(limits: Limits, s: Ledger, k: string) {
    && RequestsBound(s.db, s.now, k, limits.rpm, WindowOf(s.windows, k).endsAt - 60.0, Members(s, k))
    && (Members(s, k) > 0 ==> limits.tpm >= 1)
    && ChargedNow(s, k) <= Ceiling(limits.tpm, Members(s, k))
  }

  /** A request that counts for the interval, or need not. */
  lemma RequestAgrees(db: Db, now: real, apiKey: string, limit: int, start: real, count: int, counts: bool)
    requires RequestsBound(db, now, apiKey, limit, start, count)
    requires counts ==> start <= now < start + 60.0 && RpmAdmits(db, now, apiKey, limit)
    ensures RequestsBound(AfterRpm(db, now, apiKey), now, apiKey, limit, start, if counts then count + 1 else count)
  {
    NextCall(db, apiKey, now, limit, start, count);
  }

  /** A window that starts now has no member yet. */
  lemma StartsWithNone(db: Db, now: real, apiKey: string, limit: int, start: real, count: int)
    requires RequestsBound(db, now, apiKey, limit, start, count)
    ensures RequestsBound(db, now, apiKey, limit, now, 0)
  {
  }

  lemma SameRequests(db: Db, after: Db, now: real, later: real, apiKey: string, limit: int, start: real, count: int)
    requires RequestsBound(db, now, apiKey, limit, start, count) && now <= later
    requires RpmKey(apiKey) in after <==> RpmKey(apiKey) in db
    requires RpmKey(apiKey) in db ==> after[RpmKey(apiKey)] == db[RpmKey(apiKey)]
    ensures RequestsBound(after, later, apiKey, limit, start, count)
  {
  }

  /** There are no more of them than two windows of requests leave room for. */
  lemma AtMostTwoMinutes(db: Db, now: real, apiKey: string, limit: int, start: real, count: int)
    requires RequestsBound(db, now, apiKey, limit, start, count)
    ensures count <= Max(0, 2 * limit - 1)
  {
  }

  // ---- admission --------------------------------------------------------------------------------

  /** After its request check an admission leaves the request counters alone. */
  lemma AdmitCountsRequest(limits: Limits, s: Ledger, apiKey: string, estimated: int, k: string)
    ensures var t := AdmitStep(limits, s, apiKey, estimated);
            var after := if Overloaded(s.overload) then s.db else AfterRpm(s.db, s.now, apiKey);
            && (RpmKey(k) in t.db <==> RpmKey(k) in after)
            && (RpmKey(k) in after ==> t.db[RpmKey(k)] == after[RpmKey(k)])
  {
  }

  /** An admission that gets to no reservation of this key adds no member. */
  lemma AdmitAddsNone(limits: Limits, s: Ledger, apiKey: string, estimated: int, k: string)
    requires k != apiKey || !ReachesTokens(limits, s, apiKey, estimated)
    ensures var t := AdmitStep(limits, s, apiKey, estimated);
            && Members(t, k) == Members(s, k) && ChargedNow(t, k) == ChargedNow(s, k)
            && WindowOf(t.windows, k) == WindowOf(s.windows, k)
  {
    AdmitLeavesOtherWindows(limits, s, apiKey, estimated, k);
    var t := AdmitStep(limits, s, apiKey, estimated);
    if |t.grants| > |s.grants| {
      TotalAppend(s.grants, t.grants[|s.grants|], CountsIn(k, WindowOf(s.windows, k).number));
    }
  }

  lemma PlainAdmitKeepsBound(limits: Limits, s: Ledger, apiKey: string, estimated: int, k: string)
    requires KeyBound(limits, s, k) && (k != apiKey || !ReachesTokens(limits, s, apiKey, estimated))
    ensures KeyBound(limits, AdmitStep(limits, s, apiKey, estimated), k)
  {
    var start, count := WindowOf(s.windows, k).endsAt - 60.0, Members(s, k);
    var t := AdmitStep(limits, s, apiKey, estimated);
    AdmitAddsNone(limits, s, apiKey, estimated, k);
    AdmitCountsRequest(limits, s, apiKey, estimated, k);
    if k != apiKey {
      OtherCall(s.db, k, apiKey, s.now);
      SameRequests(s.db, t.db, s.now, s.now, k, limits.rpm, start, count);
    } else if Overloaded(s.overload) {
      SameRequests(s.db, t.db, s.now, s.now, k, limits.rpm, start, count);
    } else {
      RequestAgrees(s.db, s.now, k, limits.rpm, start, count, false);
      SameRequests(AfterRpm(s.db, s.now, k), t.db, s.now, s.now, k, limits.rpm, start, count);
    }
  }

  /** What a reservation adds to its window: itself, if it is accepted; and it starts the window if it is empty. */
  lemma MembersAfterReserve(limits: Limits, s: Ledger, apiKey: string, estimated: int)
    requires GrantsAgree(s.grants, s.windows) && ReachesTokens(limits, s, apiKey, estimated)
    ensures var accepted := if TokensFree(s.db, s.now, apiKey, limits.tpm, estimated) then 1 else 0;
            Members(AdmitStep(limits, s, apiKey, estimated), apiKey) ==
              (if StartsWindow(s.db, s.now, apiKey, estimated) then 0 else Members(s, apiKey)) + accepted
  {
    var w := WindowOf(s.windows, apiKey);
    var next := WindowAfterReserve(w, s.db, s.now, apiKey, estimated);
    GrantsAfterAdmit(limits, s, apiKey, estimated);
    TotalAppend(s.grants, NewGrant(apiKey, estimated, next), CountsIn(apiKey, next.number));
    if StartsWindow(s.db, s.now, apiKey, estimated) {
      TotalOfNothing(s.grants, CountsIn(apiKey, next.number));
    }
  }

  /** A reservation that starts a window. */
  lemma FirstReserveKeepsBound(limits: Limits, s: Ledger, apiKey: string, estimated: int)
    requires TokensInv(limits, s) && KeyBound(limits, s, apiKey) && ReachesTokens(limits, s, apiKey, estimated)
    requires StartsWindow(s.db, s.now, apiKey, estimated)
    ensures KeyBound(limits, AdmitStep(limits, s, apiKey, estimated), apiKey)
  {
    var t := AdmitStep(limits, s, apiKey, estimated);
    var accepted := TokensFree(s.db, s.now, apiKey, limits.tpm, estimated);
    StartsWithNone(s.db, s.now, apiKey, limits.rpm, WindowOf(s.windows, apiKey).endsAt - 60.0, Members(s, apiKey));
    RequestAgrees(s.db, s.now, apiKey, limits.rpm, s.now, 0, accepted);
    MembersAfterReserve(limits, s, apiKey, estimated);
    ChargedAfterAdmit(limits, s, apiKey, estimated);
    GrantsAfterAdmit(limits, s, apiKey, estimated);
    AdmitCountsRequest(limits, s, apiKey, estimated, apiKey);
    SameRequests(AfterRpm(s.db, s.now, apiKey), t.db, s.now, s.now, apiKey, limits.rpm, s.now, if accepted then 1 else 0);
  }

  /** A reservation that finds the window running: another request of its minute, for less than the limit. */
  lemma NextReserveKeepsBound(limits: Limits, s: Ledger, apiKey: string, estimated: int)
    requires TokensInv(limits, s) && KeyBound(limits, s, apiKey) && ReachesTokens(limits, s, apiKey, estimated)
    requires !StartsWindow(s.db, s.now, apiKey, estimated)
    ensures KeyBound(limits, AdmitStep(limits, s, apiKey, estimated), apiKey)
  {
    var t := AdmitStep(limits, s, apiKey, estimated);
    var w, count := WindowOf(s.windows, apiKey), Members(s, apiKey);
    var accepted := TokensFree(s.db, s.now, apiKey, limits.tpm, estimated);
    assert KeyInv(limits, s, apiKey);
    assert s.now < w.endsAt && Value(s.db, TpmKey(apiKey), s.now) >= 1 && ChargedNow(s, apiKey) >= 1 && count >= 1;
    CeilingGrows(limits.tpm, count);
    RequestAgrees(s.db, s.now, apiKey, limits.rpm, w.endsAt - 60.0, count, accepted);
    MembersAfterReserve(limits, s, apiKey, estimated);
    ChargedAfterAdmit(limits, s, apiKey, estimated);
    GrantsAfterAdmit(limits, s, apiKey, estimated);
    AdmitCountsRequest(limits, s, apiKey, estimated, apiKey);
    SameRequests(AfterRpm(s.db, s.now, apiKey), t.db, s.now, s.now, apiKey, limits.rpm, w.endsAt - 60.0,
                 if accepted then count + 1 else count);
  }

  lemma AdmitKeepsBound(limits: Limits, s: Ledger, apiKey: string, estimated: int, k: string)
    requires TokensInv(limits, s) && KeyBound(limits, s, k)
    ensures KeyBound(limits, AdmitStep(limits, s, apiKey, estimated), k)
  {
    if k != apiKey || !ReachesTokens(limits, s, apiKey, estimated) {
      PlainAdmitKeepsBound(limits, s, apiKey, estimated, k);
    } else if StartsWindow(s.db, s.now, apiKey, estimated) {
      FirstReserveKeepsBound(limits, s, apiKey, estimated);
    } else {
      NextReserveKeepsBound(limits, s, apiKey, estimated);
    }
  }

  // ---- the other events ----------------------------------------------------------------------------

  lemma FinalizeKeepsBound(limits: Limits, s: Ledger, i: nat, actual: int, releaseAll: bool, k: string)
    requires i < |s.grants| && TokensInv(limits, s) && KeyBound(limits, s, k)
    ensures KeyBound(limits, FinalizeStep(s, s.grants[i], i, actual, releaseAll), k)
  {
    var t := FinalizeStep(s, s.grants[i], i, actual, releaseAll);
    var number := WindowOf(s.windows, k).number;
    TotalUpdate(s.grants, i, t.grants[i], CountsIn(k, number));
    TotalUpdate(s.grants, i, t.grants[i], ChargesWindow(k, number));
    SameRequests(s.db, t.db, s.now, s.now, k, limits.rpm, WindowOf(s.windows, k).endsAt - 60.0, Members(s, k));
  }

  lemma ReleaseKeepsBound(limits: Limits, s: Ledger, i: nat, k: string)
    requires i < |s.grants| && KeyBound(limits, s, k)
    ensures KeyBound(limits, ReleaseStep(s, s.grants[i], i), k)
  {
    var t := ReleaseStep(s, s.grants[i], i);
    var number := WindowOf(s.windows, k).number;
    TotalUpdate(s.grants, i, t.grants[i], CountsIn(k, number));
    TotalUpdate(s.grants, i, t.grants[i], ChargesWindow(k, number));
    SameRequests(s.db, t.db, s.now, s.now, k, limits.rpm, WindowOf(s.windows, k).endsAt - 60.0, Members(s, k));
  }

  lemma StepKeepsBound(limits: Limits, s: Ledger, e: Event, k: string)
    requires TokensInv(limits, s) && KeyBound(limits, s, k) && Enabled(s, e)
    ensures KeyBound(limits, Step(limits, s, e), k)
  {
    match e
    case Admit(apiKey, estimated) => AdmitKeepsBound(limits, s, apiKey, estimated, k);
    case Finalize(i, actual, releaseAll) => FinalizeKeepsBound(limits, s, i, actual, releaseAll, k);
    case Release(i) => ReleaseKeepsBound(limits, s, i, k);
    case Tick(seconds) =>
      SameRequests(s.db, s.db, s.now, s.now + seconds, k, limits.rpm, WindowOf(s.windows, k).endsAt - 60.0, Members(s, k));
    case SetOverload(_) =>
  }

  lemma {:induction false} BoundInRuns(limits: Limits, states: seq<Ledger>, events: seq<Event>, n: nat, k: string)
    requires Run(limits, states, events) && n <= |events|
    ensures KeyBound(limits, states[n], k)
  {
    if n > 0 {
      BoundInRuns(limits, states, events, n - 1, k);
      TokensInRuns(limits, states, events, n - 1);
      StepKeepsBound(limits, states[n - 1], events[n - 1], k);
    }
  }

  /** The most that a token window can be charged for. */
  function WindowCeiling(limits: Limits): int {
    if limits.rpm >= 1 && limits.tpm >= 1 then limits.tpm + (2 * limits.rpm - 2) * (limits.tpm - 1) else 0
  }

  /**
   * However late leases are finalized, no window is charged for more than 2 * rpm - 1 reservations allow, the first of at
   * most the token limit and the others of less.
   */
  lemma WindowIsBounded(limits: Limits, states: seq<Ledger>, events: seq<Event>, n: nat, apiKey: string)
    requires Run(limits, states, events) && n <= |events|
    ensures ChargedNow(states[n], apiKey) <= WindowCeiling(limits)
  {
    BoundInRuns(limits, states, events, n, apiKey);
    var s := states[n];
    var count := Members(s, apiKey);
    AtMostTwoMinutes(s.db, s.now, apiKey, limits.rpm, WindowOf(s.windows, apiKey).endsAt - 60.0, count);
    if count >= 1 {
      CeilingIsMonotone(limits.tpm, count, 2 * limits.rpm - 1);
    } else if limits.rpm >= 1 && limits.tpm >= 1 {
      CeilingIsMonotone(limits.tpm, 1, 2 * limits.rpm - 1);
    }
  }
}
