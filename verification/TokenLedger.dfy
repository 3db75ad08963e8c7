/** The token counters over the same runs: what a window's counter is worth, and when it falls short of its ledger. */
module TokenLedger {
  import opened Wrappers
  import opened Numbers
  import opened Sums
  import opened Leases
  import opened RedisModel
  import opened RateLimiter
  import opened ConcurrencyLimiter
  import opened QuotaReserver
  import opened Admission
  import opened AdmissionLedger

  /**
   * The account of one key: a present counter carries its window's end as its expiry and stays within the limit. While
   * the window runs it is what the window's leases are charged, less what older leases have drawn on the window.
   */
  ghost predicate TokensAgree(db: Db, now: real, w: Window, charged: int, limit: int, apiKey: string) {
    && (TpmKey(apiKey) in db ==> db[TpmKey(apiKey)].expiresAt == Some(w.endsAt))
    && 0 <= Value(db, TpmKey(apiKey), now) <= Max(limit, 0)
    && Value(db, TpmKey(apiKey), now) <= Max(charged - w.drawn, 0)
    && (now < w.endsAt ==> Value(db, TpmKey(apiKey), now) == Max(charged - w.drawn, 0))
    && charged - w.drawn <= Max(limit, 0)
  }

  /** An open lease is charged all it reserved, and no lease is of a window yet to come. */
  ghost predicate GrantsAgree(grants: seq<Grant>, windows: map<string, Window>) {
    forall i :: 0 <= i < |grants| && grants[i].reserved > 0 ==>
      && grants[i].window <= WindowOf(windows, grants[i].apiKey).number
      && (!grants[i].finalized ==> grants[i].charge == grants[i].reserved)
  }

  function ChargedNow(s: Ledger, apiKey: string): int {
    Charged(s.grants, apiKey, WindowOf(s.windows, apiKey).number)
  }

  ghost predicate KeyInv(limits: Limits, s: Ledger, k: string) {
    TokensAgree(s.db, s.now, WindowOf(s.windows, k), ChargedNow(s, k), limits.tpm, k)
  }

  ghost predicate TokensInv(limits: Limits, s: Ledger) {
    GrantsAgree(s.grants, s.windows) && (forall k :: KeyInv(limits, s, k))
  }

  // ---- the counter under each command sequence --------------------------------------------

  lemma ReserveAgrees(db: Db, now: real, w: Window, charged: int, limit: int, apiKey: string, estimated: int)
    requires TokensAgree(db, now, w, charged, limit, apiKey) && estimated > 0
    ensures var accepted := if TokensFree(db, now, apiKey, limit, estimated) then estimated else 0;
            TokensAgree(AfterReserve(db, now, apiKey, limit, estimated), now, WindowAfterReserve(w, db, now, apiKey, estimated),
                        (if StartsWindow(db, now, apiKey, estimated) then 0 else charged) + accepted, limit, apiKey)
  {
  }

  lemma FinalizeAgrees(db: Db, now: real, w: Window, charged: int, limit: int, apiKey: string, unused: nat, mine: bool)
    requires TokensAgree(db, now, w, charged, limit, apiKey)
    ensures TokensAgree(AfterFinalize(db, now, apiKey, unused), now, if mine then w else w.(drawn := w.drawn + unused),
                        if mine then charged - unused else charged, limit, apiKey)
  {
  }

  /** A command on another key, or the passing of time. */
  lemma OtherwiseAgrees(db: Db, after: Db, now: real, later: real, w: Window, charged: int, limit: int, apiKey: string)
    requires TokensAgree(db, now, w, charged, limit, apiKey) && now <= later
    requires TpmKey(apiKey) in after <==> TpmKey(apiKey) in db
    requires TpmKey(apiKey) in db ==> after[TpmKey(apiKey)] == db[TpmKey(apiKey)]
    ensures TokensAgree(after, later, w, charged, limit, apiKey)
  {
  }

  // ---- the ledger of a window -----------------------------------------------------------------

  lemma FutureWindowIsEmpty(grants: seq<Grant>, apiKey: string, latest: nat, window: nat)
    requires latest < window
    requires forall i :: 0 <= i < |grants| && grants[i].apiKey == apiKey && grants[i].reserved > 0
               ==> grants[i].window <= latest
    ensures Charged(grants, apiKey, window) == 0
  {
    TotalOfNothing(grants, ChargesWindow(apiKey, window));
  }

  // ---- admission ----------------------------------------------------------------------------------

  /** Before the token check nothing has happened to the token counters. */
  lemma UpToTokens(db: Db, now: real, apiKey: string, limit: int, k: string)
    ensures var held := AfterAcquire(AfterRpm(db, now, apiKey), now, apiKey, limit);
            && (TpmKey(k) in held <==> TpmKey(k) in db) && (TpmKey(k) in db ==> held[TpmKey(k)] == db[TpmKey(k)])
            && (TpmKey(k) in AfterRpm(db, now, apiKey) <==> TpmKey(k) in db)
            && (TpmKey(k) in db ==> AfterRpm(db, now, apiKey)[TpmKey(k)] == db[TpmKey(k)])
  {
  }

  lemma OtherKeyReserves(db: Db, now: real, apiKey: string, limit: int, estimated: int, k: string)
    requires k != apiKey
    ensures var after := AfterReserve(db, now, apiKey, limit, estimated);
            && (TpmKey(k) in after <==> TpmKey(k) in db) && (TpmKey(k) in db ==> after[TpmKey(k)] == db[TpmKey(k)])
  {
  }

  /** Whether an admission gets as far as the token counter. */
  predicate ReachesTokens(limits: Limits, s: Ledger, apiKey: string, estimated: int) {
    var verdict := VerdictOn(limits, s.db, s.now, s.overload, apiKey, estimated);
    estimated > 0 && (verdict == Verdict.Granted || verdict == TooManyTokens)
  }

  lemma AdmitLeavesOtherKeys(limits: Limits, s: Ledger, apiKey: string, estimated: int, k: string)
    requires k != apiKey || !ReachesTokens(limits, s, apiKey, estimated)
    ensures var t := AdmitStep(limits, s, apiKey, estimated);
            && (TpmKey(k) in t.db <==> TpmKey(k) in s.db) && (TpmKey(k) in s.db ==> t.db[TpmKey(k)] == s.db[TpmKey(k)])
  {
    UpToTokens(s.db, s.now, apiKey, limits.slots, k);
    if k != apiKey {
      var held := AfterAcquire(AfterRpm(s.db, s.now, apiKey), s.now, apiKey, limits.slots);
      OtherKeyReserves(held, s.now, apiKey, limits.tpm, estimated, k);
    }
  }

  lemma AdmitLeavesOtherWindows(limits: Limits, s: Ledger, apiKey: string, estimated: int, k: string)
    requires k != apiKey || !ReachesTokens(limits, s, apiKey, estimated)
    ensures var t := AdmitStep(limits, s, apiKey, estimated);
            WindowOf(t.windows, k) == WindowOf(s.windows, k) && ChargedNow(t, k) == ChargedNow(s, k)
  {
    var t := AdmitStep(limits, s, apiKey, estimated);
    if |t.grants| > |s.grants| {
      TotalAppend(s.grants, t.grants[|s.grants|], ChargesWindow(k, WindowOf(s.windows, k).number));
    }
  }

  /** An admission that gets that far reserves on top of what its other checks have counted. */
  lemma DbAfterReserve(limits: Limits, s: Ledger, apiKey: string, estimated: int)
    requires ReachesTokens(limits, s, apiKey, estimated)
    ensures var held := AfterAcquire(AfterRpm(s.db, s.now, apiKey), s.now, apiKey, limits.slots);
            && AdmitStep(limits, s, apiKey, estimated).db == AfterReserve(held, s.now, apiKey, limits.tpm, estimated)
            && Value(held, TpmKey(apiKey), s.now) == Value(s.db, TpmKey(apiKey), s.now)
  {
    UpToTokens(s.db, s.now, apiKey, limits.slots, apiKey);
  }

  lemma AdmitReserves(limits: Limits, s: Ledger, apiKey: string, estimated: int)
    requires GrantsAgree(s.grants, s.windows) && KeyInv(limits, s, apiKey) && ReachesTokens(limits, s, apiKey, estimated)
    ensures KeyInv(limits, AdmitStep(limits, s, apiKey, estimated), apiKey)
  {
    var w := WindowOf(s.windows, apiKey);
    var held := AfterAcquire(AfterRpm(s.db, s.now, apiKey), s.now, apiKey, limits.slots);
    UpToTokens(s.db, s.now, apiKey, limits.slots, apiKey);
    OtherwiseAgrees(s.db, held, s.now, s.now, w, ChargedNow(s, apiKey), limits.tpm, apiKey);
    ReserveAgrees(held, s.now, w, ChargedNow(s, apiKey), limits.tpm, apiKey, estimated);
    DbAfterReserve(limits, s, apiKey, estimated);
    GrantsAfterAdmit(limits, s, apiKey, estimated);
    ChargedAfterAdmit(limits, s, apiKey, estimated);
  }

  /** A reservation is charged to the window it counts in. */
  lemma ChargedAfterAdmit(limits: Limits, s: Ledger, apiKey: string, estimated: int)
    requires GrantsAgree(s.grants, s.windows) && ReachesTokens(limits, s, apiKey, estimated)
    ensures var accepted := if TokensFree(s.db, s.now, apiKey, limits.tpm, estimated) then estimated else 0;
            ChargedNow(AdmitStep(limits, s, apiKey, estimated), apiKey) ==
              (if StartsWindow(s.db, s.now, apiKey, estimated) then 0 else ChargedNow(s, apiKey)) + accepted
  {
    var w := WindowOf(s.windows, apiKey);
    var next := WindowAfterReserve(w, s.db, s.now, apiKey, estimated);
    FutureWindowIsEmpty(s.grants, apiKey, w.number, w.number + 1);
    GrantsAfterAdmit(limits, s, apiKey, estimated);
    TotalAppend(s.grants, NewGrant(apiKey, estimated, next), ChargesWindow(apiKey, next.number));
  }

  lemma GrantsAfterAdmit(limits: Limits, s: Ledger, apiKey: string, estimated: int)
    requires ReachesTokens(limits, s, apiKey, estimated)
    ensures var t := AdmitStep(limits, s, apiKey, estimated);
            var next := WindowAfterReserve(WindowOf(s.windows, apiKey), s.db, s.now, apiKey, estimated);
            && WindowOf(t.windows, apiKey) == next
            && t.grants == if TokensFree(s.db, s.now, apiKey, limits.tpm, estimated)
                           then s.grants + [NewGrant(apiKey, estimated, next)] else s.grants
  {
  }

  lemma AdmitKeepsKey(limits: Limits, s: Ledger, apiKey: string, estimated: int, k: string)
    requires GrantsAgree(s.grants, s.windows) && KeyInv(limits, s, k)
    ensures KeyInv(limits, AdmitStep(limits, s, apiKey, estimated), k)
  {
    if k == apiKey && ReachesTokens(limits, s, apiKey, estimated) {
      AdmitReserves(limits, s, apiKey, estimated);
    } else {
      AdmitLeavesOtherKeys(limits, s, apiKey, estimated, k);
      AdmitLeavesOtherWindows(limits, s, apiKey, estimated, k);
      OtherwiseAgrees(s.db, AdmitStep(limits, s, apiKey, estimated).db, s.now, s.now, WindowOf(s.windows, k), ChargedNow(s, k),
                      limits.tpm, k);
    }
  }

  // ---- settlement ----------------------------------------------------------------------------------

  /** A finalize that takes effect, seen by its own key. */
  lemma FinalizeKeepsOwnKey(limits: Limits, s: Ledger, i: nat, actual: int, releaseAll: bool)
    requires i < |s.grants| && GrantsAgree(s.grants, s.windows) && KeyInv(limits, s, s.grants[i].apiKey)
    requires !s.grants[i].finalized && s.grants[i].reserved > 0
    ensures KeyInv(limits, FinalizeStep(s, s.grants[i], i, actual, releaseAll), s.grants[i].apiKey)
  {
    var g := s.grants[i];
    var w := WindowOf(s.windows, g.apiKey);
    TotalUpdate(s.grants, i, FinalizeStep(s, g, i, actual, releaseAll).grants[i], ChargesWindow(g.apiKey, w.number));
    FinalizeAgrees(s.db, s.now, w, ChargedNow(s, g.apiKey), limits.tpm, g.apiKey, Unused(g.reserved, actual, releaseAll),
                   g.window == w.number);
  }

  lemma FinalizeKeepsKey(limits: Limits, s: Ledger, i: nat, actual: int, releaseAll: bool, k: string)
    requires i < |s.grants| && GrantsAgree(s.grants, s.windows) && KeyInv(limits, s, k)
    ensures KeyInv(limits, FinalizeStep(s, s.grants[i], i, actual, releaseAll), k)
  {
    var g := s.grants[i];
    var t := FinalizeStep(s, g, i, actual, releaseAll);
    if !g.finalized && g.reserved > 0 {
      if g.apiKey == k {
        FinalizeKeepsOwnKey(limits, s, i, actual, releaseAll);
      } else {
        TotalUpdate(s.grants, i, t.grants[i], ChargesWindow(k, WindowOf(s.windows, k).number));
        OtherwiseAgrees(s.db, t.db, s.now, s.now, WindowOf(s.windows, k), ChargedNow(s, k), limits.tpm, k);
      }
    }
  }

  lemma ReleaseKeepsKey(limits: Limits, s: Ledger, i: nat, k: string)
    requires i < |s.grants| && KeyInv(limits, s, k)
    ensures KeyInv(limits, ReleaseStep(s, s.grants[i], i), k)
  {
    var t := ReleaseStep(s, s.grants[i], i);
    TotalUpdate(s.grants, i, t.grants[i], ChargesWindow(k, WindowOf(s.windows, k).number));
    OtherwiseAgrees(s.db, t.db, s.now, s.now, WindowOf(s.windows, k), ChargedNow(s, k), limits.tpm, k);
  }

  lemma StepKeepsGrants(limits: Limits, s: Ledger, e: Event)
    requires GrantsAgree(s.grants, s.windows) && Enabled(s, e)
    ensures GrantsAgree(Step(limits, s, e).grants, Step(limits, s, e).windows)
  {
  }

  /** Every step keeps every key's token account. */
  lemma StepKeepsTokens(limits: Limits, s: Ledger, e: Event)
    requires TokensInv(limits, s) && Enabled(s, e)
    ensures TokensInv(limits, Step(limits, s, e))
  {
    StepKeepsGrants(limits, s, e);
    var t := Step(limits, s, e);
    forall k ensures KeyInv(limits, t, k) {
      assert KeyInv(limits, s, k);
      match e
      case Admit(apiKey, estimated) => AdmitKeepsKey(limits, s, apiKey, estimated, k);
      case Finalize(i, actual, releaseAll) => FinalizeKeepsKey(limits, s, i, actual, releaseAll, k);
      case Release(i) => ReleaseKeepsKey(limits, s, i, k);
      case Tick(_) => OtherwiseAgrees(s.db, s.db, s.now, t.now, WindowOf(s.windows, k), ChargedNow(s, k), limits.tpm, k);
      case SetOverload(_) =>
    }
  }

  lemma {:induction false} TokensInRuns(limits: Limits, states: seq<Ledger>, events: seq<Event>, n: nat)
    requires Run(limits, states, events) && n <= |events|
    ensures TokensInv(limits, states[n])
  {
    if n == 0 {
      forall k ensures KeyInv(limits, states[0], k) {
        assert WindowOf(states[0].windows, k) == Window(0, 0.0, 0);
      }
    } else {
      TokensInRuns(limits, states, events, n - 1);
      StepKeepsTokens(limits, states[n - 1], events[n - 1]);
    }
  }

  /**
   * The token counter after every method of a run, whenever and however often leases are finalized. It is within the
   * limit and carries a time to live. While its window runs it is the window's ledger - the open reservations, and
   * min(actual, reserved) of the finalized ones - less what leases of earlier windows have drawn on the window. So it is
   * the ledger exactly when they have drawn nothing or nothing is left to draw on, and the tokens charged to a window
   * exceed the limit by no more than was drawn on it.
   */
  lemma TokenCounterFollowsLedger(limits: Limits, states: seq<Ledger>, events: seq<Event>, n: nat, apiKey: string)
    requires Run(limits, states, events) && n <= |events|
    ensures var s := states[n]; var w := WindowOf(s.windows, apiKey);
            var counter := Value(s.db, TpmKey(apiKey), s.now); var charged := ChargedNow(s, apiKey);
            && 0 <= counter <= Max(limits.tpm, 0)
            && (TpmKey(apiKey) in s.db ==> s.db[TpmKey(apiKey)].expiresAt.Some?)
            && (s.now < w.endsAt ==> counter == Max(charged - w.drawn, 0))
            && (s.now < w.endsAt ==> (counter == Max(charged, 0) <==> w.drawn == 0 || charged <= 0))
            && charged <= Max(limits.tpm, 0) + w.drawn
            && counter <= Max(charged, 0)
  {
    TokensInRuns(limits, states, events, n);
    assert KeyInv(limits, states[n], apiKey);
  }

  /** The counter of a running window is its ledger. */
  predicate IsExact(s: Ledger, apiKey: string) {
    Value(s.db, TpmKey(apiKey), s.now) == Max(ChargedNow(s, apiKey), 0)
  }

  /**
   * Which finalize makes an exact counter inexact: one that gives tokens back to a window other than its own while there
   * is something in it. All of that is known before the call.
   */
  lemma FinalizeStaysExactIff(limits: Limits, s: Ledger, i: nat, actual: int, releaseAll: bool)
    requires TokensInv(limits, s) && i < |s.grants| && !s.grants[i].finalized && s.grants[i].reserved > 0
    requires var k := s.grants[i].apiKey; s.now < WindowOf(s.windows, k).endsAt && IsExact(s, k)
    ensures var g := s.grants[i];
            IsExact(FinalizeStep(s, g, i, actual, releaseAll), g.apiKey) <==>
              || Unused(g.reserved, actual, releaseAll) == 0
              || g.window == WindowOf(s.windows, g.apiKey).number
              || Value(s.db, TpmKey(g.apiKey), s.now) == 0
  {
    var g := s.grants[i];
    assert KeyInv(limits, s, g.apiKey);
    TotalUpdate(s.grants, i, FinalizeStep(s, g, i, actual, releaseAll).grants[i],
                ChargesWindow(g.apiKey, WindowOf(s.windows, g.apiKey).number));
    FinalizeKeepsKey(limits, s, i, actual, releaseAll, g.apiKey);
  }

  /**
   * Which accepted reservation takes its window over the limit: one for more than what the counter leaves free less what
   * has been drawn on the window.
   */
  lemma AdmitOverfillsIff(limits: Limits, s: Ledger, apiKey: string, estimated: int)
    requires TokensInv(limits, s) && estimated > 0
    requires VerdictOn(limits, s.db, s.now, s.overload, apiKey, estimated) == Verdict.Granted
    ensures var drawn := if Value(s.db, TpmKey(apiKey), s.now) == 0 then 0 else WindowOf(s.windows, apiKey).drawn;
            ChargedNow(AdmitStep(limits, s, apiKey, estimated), apiKey) > limits.tpm <==>
              Value(s.db, TpmKey(apiKey), s.now) + estimated + drawn > limits.tpm
  {
    assert KeyInv(limits, s, apiKey);
    ChargedAfterAdmit(limits, s, apiKey, estimated);
  }

  // ---- leases that are finalized in time ---------------------------------------------------------

  /** A finalize that takes effect comes before its reservation's window ends, and reports no negative usage. */
  ghost predicate InTime(s: Ledger, e: Event) {
    e.Finalize? && e.grant < |s.grants| && !s.grants[e.grant].finalized && s.grants[e.grant].reserved > 0 ==>
      (e.releaseAll || e.actual >= 0) && s.now < s.grants[e.grant].expiresAt
  }

  ghost predicate IsCurrent(g: Grant, w: Window) {
    g.window == w.number && g.expiresAt == w.endsAt
  }

  /** No window has been drawn on, and an open lease is of its key's current window or of one whose time is over. */
  ghost predicate OnTime(s: Ledger) {
    && (forall k :: WindowOf(s.windows, k).drawn == 0)
    && (forall i :: 0 <= i < |s.grants| && s.grants[i].reserved > 0 ==>
          && s.grants[i].charge >= 0
          && (!s.grants[i].finalized ==>
                IsCurrent(s.grants[i], WindowOf(s.windows, s.grants[i].apiKey)) || s.grants[i].expiresAt <= s.now))
  }

  lemma ChargesAddUp(grants: seq<Grant>, apiKey: string, window: nat)
    requires forall i :: 0 <= i < |grants| && grants[i].reserved > 0 ==> grants[i].charge >= 0
    ensures Charged(grants, apiKey, window) >= 0
    ensures forall i :: 0 <= i < |grants| && grants[i].apiKey == apiKey && grants[i].reserved > 0 && grants[i].window == window
              ==> grants[i].charge <= Charged(grants, apiKey, window)
  {
    var weight := ChargesWindow(apiKey, window);
    TotalIsNatural(grants, weight);
    forall i | 0 <= i < |grants| && grants[i].apiKey == apiKey && grants[i].reserved > 0 && grants[i].window == window
      ensures grants[i].charge <= Charged(grants, apiKey, window)
    {
      assert weight(grants[i]) == grants[i].charge;
    }
  }

  /** A window that starts anew leaves no open lease behind whose time is not over. */
  lemma NoneLeftOpen(limits: Limits, s: Ledger, apiKey: string, estimated: int, i: nat)
    requires TokensInv(limits, s) && OnTime(s) && StartsWindow(s.db, s.now, apiKey, estimated)
    requires i < |s.grants| && s.grants[i].apiKey == apiKey && s.grants[i].reserved > 0 && !s.grants[i].finalized
    ensures s.grants[i].expiresAt <= s.now
  {
    assert KeyInv(limits, s, apiKey);
    ChargesAddUp(s.grants, apiKey, WindowOf(s.windows, apiKey).number);
  }

  lemma AdmitKeepsOnTime(limits: Limits, s: Ledger, apiKey: string, estimated: int)
    requires TokensInv(limits, s) && OnTime(s)
    ensures OnTime(AdmitStep(limits, s, apiKey, estimated))
  {
    var t := AdmitStep(limits, s, apiKey, estimated);
    forall k ensures WindowOf(t.windows, k).drawn == 0 {
      assert WindowOf(s.windows, k).drawn == 0 && WindowOf(s.windows, apiKey).drawn == 0;
    }
    forall i | 0 <= i < |t.grants| && t.grants[i].reserved > 0
      ensures t.grants[i].charge >= 0
      ensures !t.grants[i].finalized ==>
                IsCurrent(t.grants[i], WindowOf(t.windows, t.grants[i].apiKey)) || t.grants[i].expiresAt <= t.now
    {
      if i < |s.grants| && !s.grants[i].finalized && s.grants[i].apiKey == apiKey
         && StartsWindow(s.db, s.now, apiKey, estimated) {
        NoneLeftOpen(limits, s, apiKey, estimated, i);
      }
    }
  }

  lemma FinalizeKeepsOnTime(s: Ledger, i: nat, actual: int, releaseAll: bool)
    requires i < |s.grants| && OnTime(s) && InTime(s, Event.Finalize(i, actual, releaseAll))
    ensures OnTime(FinalizeStep(s, s.grants[i], i, actual, releaseAll))
  {
    forall k ensures WindowOf(FinalizeStep(s, s.grants[i], i, actual, releaseAll).windows, k).drawn == 0 {
      assert WindowOf(s.windows, k).drawn == 0 && WindowOf(s.windows, s.grants[i].apiKey).drawn == 0;
    }
  }

  lemma StepKeepsOnTime(limits: Limits, s: Ledger, e: Event)
    requires TokensInv(limits, s) && OnTime(s) && Enabled(s, e) && InTime(s, e)
    ensures OnTime(Step(limits, s, e))
  {
    match e
    case Admit(apiKey, estimated) => AdmitKeepsOnTime(limits, s, apiKey, estimated);
    case Finalize(i, actual, releaseAll) => FinalizeKeepsOnTime(s, i, actual, releaseAll);
    case _ =>
  }

  lemma {:induction false} OnTimeInRuns(limits: Limits, states: seq<Ledger>, events: seq<Event>, n: nat)
    requires Run(limits, states, events) && n <= |events|
    requires forall i :: 0 <= i < |events| ==> InTime(states[i], events[i])
    ensures OnTime(states[n])
  {
    if n == 0 {
      assert forall k :: WindowOf(states[0].windows, k) == Window(0, 0.0, 0);
    } else {
      OnTimeInRuns(limits, states, events, n - 1);
      TokensInRuns(limits, states, events, n - 1);
      StepKeepsOnTime(limits, states[n - 1], events[n - 1]);
    }
  }

  /**
   * When every lease is finalized before its window ends, the counter of a running window is exactly its ledger: the
   * open reservations of the key that have not expired, and min(actual, reserved) of the finalized ones. So the tokens
   * charged to a window never exceed the limit.
   */
  lemma TokenCounterIsLedger(limits: Limits, states: seq<Ledger>, events: seq<Event>, n: nat, apiKey: string)
    requires Run(limits, states, events) && n <= |events|
    requires forall i :: 0 <= i < |events| ==> InTime(states[i], events[i])
    requires states[n].now < WindowOf(states[n].windows, apiKey).endsAt
    ensures var s := states[n];
            && Value(s.db, TpmKey(apiKey), s.now) == ChargedNow(s, apiKey) <= Max(limits.tpm, 0)
            && (forall i :: 0 <= i < |s.grants| && s.grants[i].apiKey == apiKey && s.grants[i].reserved > 0
                            && !s.grants[i].finalized && s.now < s.grants[i].expiresAt
                  ==> s.grants[i].window == WindowOf(s.windows, apiKey).number)
  {
    var s := states[n];
    OnTimeInRuns(limits, states, events, n);
    TokenCounterFollowsLedger(limits, states, events, n, apiKey);
    ChargesAddUp(s.grants, apiKey, WindowOf(s.windows, apiKey).number);
  }
}
