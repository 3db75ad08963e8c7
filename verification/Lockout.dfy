/** When a key is locked out for good: exactly when it has lost all its slots. */
module Lockout {
  import opened Wrappers
  import opened Sums
  import opened RedisModel
  import opened RateLimiter
  import opened ConcurrencyLimiter
  import opened QuotaReserver
  import opened Admission
  import opened AdmissionLedger
  import opened LedgerRuns

  // ---- windows end ------------------------------------------------------------------------

  /** A present counter of the key is over a minute from now at the latest; the request counter counts requests. */
  ghost predicate EndsSoon(db: Db, now: real, k: string) {
    && (RpmKey(k) in db ==>
          && db[RpmKey(k)].value >= 1
          && db[RpmKey(k)].expiresAt.Some? && db[RpmKey(k)].expiresAt.value <= now + 60.0)
    && (TpmKey(k) in db ==> db[TpmKey(k)].expiresAt.Some? && db[TpmKey(k)].expiresAt.value <= now + 60.0)
  }

  lemma RpmEndsSoon(db: Db, now: real, apiKey: string, k: string)
    requires EndsSoon(db, now, k)
    ensures EndsSoon(AfterRpm(db, now, apiKey), now, k)
  {
  }

  lemma AcquireEndsSoon(db: Db, now: real, apiKey: string, limit: int, k: string)
    requires EndsSoon(db, now, k)
    ensures EndsSoon(AfterAcquire(db, now, apiKey, limit), now, k)
  {
  }

  lemma ReserveEndsSoon(db: Db, now: real, apiKey: string, limit: int, estimated: int, k: string)
    requires EndsSoon(db, now, k)
    ensures EndsSoon(AfterReserve(db, now, apiKey, limit, estimated), now, k)
  {
  }

  lemma AdmitEndsSoon(limits: Limits, s: Ledger, apiKey: string, estimated: int, k: string)
    requires EndsSoon(s.db, s.now, k)
    ensures EndsSoon(AdmitStep(limits, s, apiKey, estimated).db, s.now, k)
  {
    var counted := AfterRpm(s.db, s.now, apiKey);
    var held := AfterAcquire(counted, s.now, apiKey, limits.slots);
    RpmEndsSoon(s.db, s.now, apiKey, k);
    AcquireEndsSoon(counted, s.now, apiKey, limits.slots, k);
    ReserveEndsSoon(held, s.now, apiKey, limits.tpm, estimated, k);
  }

  lemma StepEndsSoon(limits: Limits, s: Ledger, e: Event, k: string)
    requires Enabled(s, e) && EndsSoon(s.db, s.now, k)
    ensures EndsSoon(Step(limits, s, e).db, Step(limits, s, e).now, k)
  {
    if e.Admit? {
      AdmitEndsSoon(limits, s, e.apiKey, e.estimated, k);
    }
  }

  lemma {:induction false} WindowsEndSoon(limits: Limits, states: seq<Ledger>, events: seq<Event>, n: nat, k: string)
    requires Run(limits, states, events) && n <= |events|
    ensures EndsSoon(states[n].db, states[n].now, k)
  {
    if n > 0 {
      WindowsEndSoon(limits, states, events, n - 1, k);
      StepEndsSoon(limits, states[n - 1], events[n - 1], k);
    }
  }

  // ---- going on ----------------------------------------------------------------------------------

  ghost predicate GoesOn(limits: Limits, states: seq<Ledger>, events: seq<Event>, longer: seq<Ledger>, more: seq<Event>) {
    Run(limits, states, events) && Run(limits, longer, more) && states <= longer && events <= more
  }

  /** The last event grants the key a lease. */
  ghost predicate GrantsLast(limits: Limits, states: seq<Ledger>, events: seq<Event>, apiKey: string) {
    && 0 < |events| < |states|
    && var s, e := states[|events| - 1], events[|events| - 1];
       e.Admit? && e.apiKey == apiKey
       && VerdictOn(limits, s.db, s.now, s.overload, apiKey, e.estimated) == Verdict.Granted
  }

  /** Whatever has happened, the run can go on so that the key is granted a lease. */
  ghost predicate CanBeGranted(limits: Limits, states: seq<Ledger>, events: seq<Event>, apiKey: string) {
    exists longer, more ::
      GoesOn(limits, states, events, longer, more) && |events| < |more| && GrantsLast(limits, longer, more, apiKey)
  }

  lemma GoOn(limits: Limits, states: seq<Ledger>, events: seq<Event>, since: seq<Ledger>, past: seq<Event>, e: Event)
    returns (longer: seq<Ledger>, more: seq<Event>)
    requires GoesOn(limits, since, past, states, events) && Enabled(states[|events|], e)
    ensures GoesOn(limits, since, past, longer, more) && |more| == |events| + 1
    ensures longer[|events|] == states[|events|] && more[|events|] == e
    ensures longer[|more|] == Step(limits, states[|events|], e)
  {
    longer := states + [Step(limits, states[|events|], e)];
    more := events + [e];
  }

  // ---- a key with a slot left can be granted --------------------------------------------------------

  /** The first `n` leases are released. */
  lemma {:induction false} ReleaseFirst(limits: Limits, states: seq<Ledger>, events: seq<Event>, n: nat)
    returns (longer: seq<Ledger>, more: seq<Event>)
    requires Run(limits, states, events) && n <= |states[|events|].grants|
    ensures GoesOn(limits, states, events, longer, more)
    ensures var s, t := states[|events|], longer[|more|];
            && |t.grants| == |s.grants| && t.stranded == s.stranded
            && (forall i :: 0 <= i < n ==> t.grants[i].released)
  {
    longer, more := states, events;
    if n > 0 {
      longer, more := ReleaseFirst(limits, states, events, n - 1);
      longer, more := GoOn(limits, longer, more, states, events, Release(n - 1));
    }
  }

  /** All leases are released, the gate opens, and a minute passes. */
  lemma BecomesQuiet(limits: Limits, states: seq<Ledger>, events: seq<Event>, apiKey: string)
    returns (longer: seq<Ledger>, more: seq<Event>)
    requires Run(limits, states, events)
    ensures GoesOn(limits, states, events, longer, more)
    ensures Quiet(longer[|more|], apiKey, Stranded(states[|events|], apiKey))
  {
    longer, more := ReleaseFirst(limits, states, events, |states[|events|].grants|);
    longer, more := GoOn(limits, longer, more, states, events, SetOverload(None));
    WindowsEndSoon(limits, longer, more, |more|, apiKey);
    longer, more := GoOn(limits, longer, more, states, events, Tick(60.0));
    SlotsInRuns(limits, longer, more, |more|);
    var s := longer[|more|];
    TotalOfNothing(s.grants, HoldsSlot(apiKey));
    assert SlotsAgree(s.db, s.now, Held(s.grants, apiKey), Stranded(s, apiKey), limits.slots, apiKey);
  }

  /**
   * As long as a key has had fewer token refusals than it has slots, every run can go on so that it is granted a lease,
   * for any number of tokens up to the limit.
   */
  lemma SlotLeftCanBeGranted(limits: Limits, states: seq<Ledger>, events: seq<Event>, apiKey: string, estimated: int)
    returns (longer: seq<Ledger>, more: seq<Event>)
    requires Run(limits, states, events) && limits.rpm >= 1 && (estimated <= 0 || estimated <= limits.tpm)
    requires TokenRefusals(limits, states, events, |events|, apiKey) < limits.slots
    ensures GoesOn(limits, states, events, longer, more) && |events| < |more|
    ensures GrantsLast(limits, longer, more, apiKey) && more[|more| - 1].estimated == estimated
  {
    StrandedAreRefusals(limits, states, events, |events|, apiKey);
    longer, more := BecomesQuiet(limits, states, events, apiKey);
    var s := longer[|more|];
    if estimated > 0 {
      QuietAdmit(limits, s, apiKey, Stranded(states[|events|], apiKey), estimated);
    }
    longer, more := GoOn(limits, longer, more, states, events, Admit(apiKey, estimated));
  }

  // ---- exactly when ----------------------------------------------------------------------------------

  lemma {:induction false} SamePast(limits: Limits, states: seq<Ledger>, events: seq<Event>, longer: seq<Ledger>,
                                    more: seq<Event>, n: nat, apiKey: string)
    requires GoesOn(limits, states, events, longer, more) && n <= |events|
    ensures TokenRefusals(limits, longer, more, n, apiKey) == TokenRefusals(limits, states, events, n, apiKey)
  {
    if n > 0 {
      SamePast(limits, states, events, longer, more, n - 1, apiKey);
    }
  }

  lemma NoRequestsNoGrant(limits: Limits, states: seq<Ledger>, events: seq<Event>, apiKey: string)
    requires Run(limits, states, events) && limits.rpm < 1
    ensures !GrantsLast(limits, states, events, apiKey)
  {
    if |events| > 0 {
      WindowsEndSoon(limits, states, events, |events| - 1, apiKey);
    }
  }

  /**
   * A key is locked out for good - no way in which the run may go on grants it another lease - exactly when it has had as
   * many token refusals as it has slots, or the request limit allows no request at all.
   */
  lemma LockedOutIff(limits: Limits, states: seq<Ledger>, events: seq<Event>, apiKey: string)
    requires Run(limits, states, events)
    ensures !CanBeGranted(limits, states, events, apiKey) <==>
              TokenRefusals(limits, states, events, |events|, apiKey) >= limits.slots || limits.rpm < 1
  {
    if TokenRefusals(limits, states, events, |events|, apiKey) >= limits.slots || limits.rpm < 1 {
      forall longer, more | GoesOn(limits, states, events, longer, more) && |events| < |more|
        ensures !GrantsLast(limits, longer, more, apiKey)
      {
        LastIsRefused(limits, states, events, longer, more, apiKey);
      }
    } else {
      var longer, more := SlotLeftCanBeGranted(limits, states, events, apiKey, 0);
    }
  }

  lemma LastIsRefused(limits: Limits, states: seq<Ledger>, events: seq<Event>, longer: seq<Ledger>, more: seq<Event>,
                      apiKey: string)
    requires GoesOn(limits, states, events, longer, more) && |events| < |more|
    requires TokenRefusals(limits, states, events, |events|, apiKey) >= limits.slots || limits.rpm < 1
    ensures !GrantsLast(limits, longer, more, apiKey)
  {
    if limits.rpm < 1 {
      NoRequestsNoGrant(limits, longer, more, apiKey);
    } else if more[|more| - 1].Admit? && more[|more| - 1].apiKey == apiKey {
      SamePast(limits, states, events, longer, more, |events|, apiKey);
      RefusalsLockTheKeyOut(limits, longer, more, |events|, |more| - 1, apiKey);
    }
  }
}
