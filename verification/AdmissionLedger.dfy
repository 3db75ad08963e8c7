/**
 * Runs of admissions, settlements and passing time over the Redis counters, with what each lease was granted: what
 * the slot and token counters of an API key are worth in every reachable state.
 */
module AdmissionLedger {
  import opened Wrappers
  import opened Numbers
  import opened Sums
  import opened Leases
  import opened RedisModel
  import opened RateLimiter
  import opened ConcurrencyLimiter
  import opened QuotaReserver
  import opened Admission

  // ---- the state ---------------------------------------------------------------------

  /**
   * A lease that was granted. `charge` is what it costs the token window it reserved in: all it reserved while open,
   * and what it used of that once finalized. A lease granted without tokens counts nothing.
   */
  datatype Grant = Grant(apiKey: string, reserved: int, window: nat, expiresAt: real, charge: int,
                         finalized: bool, released: bool)

  /** The latest token window of an API key: its number, its end, and what leases of older ones have drawn on it. */
  datatype Window = Window(number: nat, endsAt: real, drawn: nat)

  /** Counters and clock, and for the account: the grants, the slots stranded by a token refusal, and the windows. */
  datatype Ledger = Ledger(
    db: Db,
    now: real,
    overload: Option<string>,
    grants: seq<Grant>,
    stranded: map<string, nat>,
    windows: map<string, Window>)

  datatype Event =
    | Admit(apiKey: string, estimated: int)
    | Finalize(grant: nat, actual: int, releaseAll: bool)
    | Release(grant: nat)
    | Tick(seconds: real)
    | SetOverload(flag: Option<string>)

  function Stranded(s: Ledger, apiKey: string): nat {
    if apiKey in s.stranded then s.stranded[apiKey] else 0
  }

  function WindowOf(windows: map<string, Window>, apiKey: string): Window {
    if apiKey in windows then windows[apiKey] else Window(0, 0.0, 0)
  }

  // ---- the steps ------------------------------------------------------------------------

  /** A reservation that finds the counter at 0 starts the next window; any other counts in the current one. */
  function WindowAfterReserve(w: Window, db: Db, now: real, apiKey: string, estimated: int): Window {
    if StartsWindow(db, now, apiKey, estimated) then Window(w.number + 1, now + TPM_WINDOW_SECONDS, 0) else w
  }

  function NewGrant(apiKey: string, estimated: int, w: Window): Grant {
    var reserved := if estimated > 0 then estimated else 0;
    Grant(apiKey, reserved, w.number, w.endsAt, reserved, false, false)
  }

  function AdmitStep(limits: Limits, s: Ledger, apiKey: string, estimated: int): Ledger {
    var verdict := VerdictOn(limits, s.db, s.now, s.overload, apiKey, estimated);
    var windows := if estimated > 0 && (verdict == Verdict.Granted || verdict == TooManyTokens)
                   then s.windows[apiKey := WindowAfterReserve(WindowOf(s.windows, apiKey), s.db, s.now, apiKey, estimated)]
                   else s.windows;
    s.(db := AfterAdmit(limits, s.db, s.now, apiKey, estimated, verdict),
       windows := windows,
       stranded := if verdict == TooManyTokens then s.stranded[apiKey := Stranded(s, apiKey) + 1] else s.stranded,
       grants := if verdict == Verdict.Granted then s.grants + [NewGrant(apiKey, estimated, WindowOf(windows, apiKey))]
                 else s.grants)
  }

  /** What a lease of an older window gives back, it takes out of the current one. */
  function DrawOn(w: Window, g: Grant, unused: nat): Window {
    if g.window == w.number then w else w.(drawn := w.drawn + unused)
  }

  function FinalizeStep(s: Ledger, g: Grant, i: nat, actual: int, releaseAll: bool): Ledger
    requires i < |s.grants|
  {
    if g.finalized || g.reserved <= 0 then s
    else
      var unused := Unused(g.reserved, actual, releaseAll);
      var w := WindowOf(s.windows, g.apiKey);
      s.(db := AfterFinalize(s.db, s.now, g.apiKey, unused),
         grants := s.grants[i := g.(finalized := true, charge := if releaseAll then 0 else Min(actual, g.reserved))],
         windows := s.windows[g.apiKey := DrawOn(w, g, unused)])
  }

  function ReleaseStep(s: Ledger, g: Grant, i: nat): Ledger
    requires i < |s.grants|
  {
    if g.released then s
    else s.(db := AfterRelease(s.db, s.now, g.apiKey), grants := s.grants[i := g.(released := true)])
  }

  predicate Enabled(s: Ledger, e: Event) {
    match e
    case Finalize(i, _, _) => i < |s.grants|
    case Release(i) => i < |s.grants|
    case Tick(seconds) => seconds >= 0.0
    case _ => true
  }

  function Step(limits: Limits, s: Ledger, e: Event): Ledger
    requires Enabled(s, e)
  {
    match e
    case Admit(apiKey, estimated) => AdmitStep(limits, s, apiKey, estimated)
    case Finalize(i, actual, releaseAll) => FinalizeStep(s, s.grants[i], i, actual, releaseAll)
    case Release(i) => ReleaseStep(s, s.grants[i], i)
    case Tick(seconds) => s.(now := s.now + seconds)
    case SetOverload(flag) => s.(overload := flag)
  }

  ghost predicate Init(s: Ledger) {
    s.db == map[] && s.grants == [] && s.stranded == map[] && s.windows == map[]
  }

  ghost predicate Run(limits: Limits, states: seq<Ledger>, events: seq<Event>) {
    && |states| == |events| + 1
    && Init(states[0])
    && (forall i :: 0 <= i < |events| ==>
          Enabled(states[i], events[i]) && states[i + 1] == Step(limits, states[i], events[i]))
  }

  // ---- sums over grants --------------------------------------------------------------------

  function HoldsSlot(apiKey: string): Grant -> int {
    (g: Grant) => if g.apiKey == apiKey && !g.released then 1 else 0
  }

  function ChargesWindow(apiKey: string, window: nat): Grant -> int {
    (g: Grant) => if g.apiKey == apiKey && g.reserved > 0 && g.window == window then g.charge else 0
  }

  /** The leases of the key that still hold their slot. */
  function Held(grants: seq<Grant>, apiKey: string): int {
    Total(grants, HoldsSlot(apiKey))
  }

  /** The ledger of a token window: open reservations, and what the finalized ones used of theirs. */
  function Charged(grants: seq<Grant>, apiKey: string, window: nat): int {
    Total(grants, ChargesWindow(apiKey, window))
  }

  // ---- slots ----------------------------------------------------------------------------------

  /** The slot counter never expires, and is worth the held and the stranded slots, which stay within the limit. */
  ghost predicate SlotsAgree(db: Db, now: real, held: int, stranded: nat, limit: int, apiKey: string) {
    && (SlotsKey(apiKey) in db ==> db[SlotsKey(apiKey)].expiresAt == None)
    && Value(db, SlotsKey(apiKey), now) == held + stranded
    && held >= 0 && held + stranded <= Max(limit, 0)
  }

  ghost predicate SlotsInv(limits: Limits, s: Ledger) {
    forall k :: SlotsAgree(s.db, s.now, Held(s.grants, k), Stranded(s, k), limits.slots, k)
  }

  lemma AcquireAgrees(db: Db, now: real, held: int, stranded: nat, limit: int, apiKey: string, other: string)
    requires SlotsAgree(db, now, held, stranded, limit, apiKey)
    ensures var taken := if other == apiKey && SlotFree(db, now, other, limit) then 1 else 0;
            SlotsAgree(AfterAcquire(db, now, other, limit), now, held + taken, stranded, limit, apiKey)
  {
  }

  lemma ReleaseAgrees(db: Db, now: real, held: int, stranded: nat, limit: int, apiKey: string, other: string)
    requires SlotsAgree(db, now, held, stranded, limit, apiKey) && (other == apiKey ==> held > 0)
    ensures SlotsAgree(AfterRelease(db, now, other), now, if other == apiKey then held - 1 else held, stranded, limit, apiKey)
  {
  }

  lemma SameSlots(db: Db, after: Db, now: real, later: real, held: int, stranded: nat, limit: int, apiKey: string)
    requires SlotsAgree(db, now, held, stranded, limit, apiKey)
    requires SlotsKey(apiKey) in after <==> SlotsKey(apiKey) in db
    requires SlotsKey(apiKey) in db ==> after[SlotsKey(apiKey)] == db[SlotsKey(apiKey)]
    ensures SlotsAgree(after, later, held, stranded, limit, apiKey)
  {
  }

  lemma AdmitKeepsSlots(limits: Limits, s: Ledger, apiKey: string, estimated: int, k: string)
    requires SlotsAgree(s.db, s.now, Held(s.grants, k), Stranded(s, k), limits.slots, k)
    ensures var t := AdmitStep(limits, s, apiKey, estimated);
            SlotsAgree(t.db, t.now, Held(t.grants, k), Stranded(t, k), limits.slots, k)
  {
    var held, stranded, limit := Held(s.grants, k), Stranded(s, k), limits.slots;
    var counted := AfterRpm(s.db, s.now, apiKey);
    SameSlots(s.db, counted, s.now, s.now, held, stranded, limit, k);
    AcquireAgrees(counted, s.now, held, stranded, limit, k, apiKey);
    AdmitCountsSlot(limits, s, apiKey, estimated, k);
    AdmitTakesSlot(limits, s, apiKey, estimated, k);
  }

  /** Whether an admission gets a slot, to hold or to lose. */
  predicate GetsSlot(limits: Limits, s: Ledger, apiKey: string, estimated: int) {
    var verdict := VerdictOn(limits, s.db, s.now, s.overload, apiKey, estimated);
    verdict == Verdict.Granted || verdict == TooManyTokens
  }

  /** A slot that an admission gets is held by its lease or stranded. */
  lemma AdmitCountsSlot(limits: Limits, s: Ledger, apiKey: string, estimated: int, k: string)
    ensures var t := AdmitStep(limits, s, apiKey, estimated);
            && Held(t.grants, k) >= Held(s.grants, k)
            && Held(t.grants, k) + Stranded(t, k) ==
                 Held(s.grants, k) + Stranded(s, k) + if k == apiKey && GetsSlot(limits, s, apiKey, estimated) then 1 else 0
  {
    var t := AdmitStep(limits, s, apiKey, estimated);
    if |t.grants| > |s.grants| {
      TotalAppend(s.grants, t.grants[|s.grants|], HoldsSlot(k));
    }
  }

  /** The slot counters after an admission are those after its `acquire`, if it got that far. */
  lemma AdmitTakesSlot(limits: Limits, s: Ledger, apiKey: string, estimated: int, k: string)
    ensures var t := AdmitStep(limits, s, apiKey, estimated);
            var counted := AfterRpm(s.db, s.now, apiKey); var held := AfterAcquire(counted, s.now, apiKey, limits.slots);
            var verdict := VerdictOn(limits, s.db, s.now, s.overload, apiKey, estimated);
            var before := if verdict == ServerOverloaded || verdict == TooManyRequests then counted else held;
            && (SlotsKey(k) in t.db <==> SlotsKey(k) in before)
            && (SlotsKey(k) in before ==> t.db[SlotsKey(k)] == before[SlotsKey(k)])
            && (GetsSlot(limits, s, apiKey, estimated) ==> SlotFree(counted, s.now, apiKey, limits.slots))
            && (verdict == TooManyAtOnce ==> !SlotFree(counted, s.now, apiKey, limits.slots))
  {
  }

  /** A lease that still holds its slot is among the held ones. */
  lemma HolderCounts(grants: seq<Grant>, i: nat)
    requires i < |grants| && !grants[i].released
    ensures Held(grants, grants[i].apiKey) >= 1
  {
    TotalUpdate(grants, i, grants[i].(released := true), HoldsSlot(grants[i].apiKey));
    TotalIsNatural(grants[i := grants[i].(released := true)], HoldsSlot(grants[i].apiKey));
  }

  lemma ReleaseKeepsSlots(limits: Limits, s: Ledger, i: nat, k: string)
    requires i < |s.grants| && SlotsAgree(s.db, s.now, Held(s.grants, k), Stranded(s, k), limits.slots, k)
    ensures var t := ReleaseStep(s, s.grants[i], i);
            SlotsAgree(t.db, t.now, Held(t.grants, k), Stranded(t, k), limits.slots, k)
  {
    var g := s.grants[i];
    if !g.released {
      HolderCounts(s.grants, i);
      ReleaseAgrees(s.db, s.now, Held(s.grants, k), Stranded(s, k), limits.slots, k, g.apiKey);
      TotalUpdate(s.grants, i, g.(released := true), HoldsSlot(k));
    }
  }

  lemma FinalizeKeepsSlots(limits: Limits, s: Ledger, i: nat, actual: int, releaseAll: bool, k: string)
    requires i < |s.grants| && SlotsAgree(s.db, s.now, Held(s.grants, k), Stranded(s, k), limits.slots, k)
    ensures var t := FinalizeStep(s, s.grants[i], i, actual, releaseAll);
            SlotsAgree(t.db, t.now, Held(t.grants, k), Stranded(t, k), limits.slots, k)
  {
    var g := s.grants[i];
    var t := FinalizeStep(s, g, i, actual, releaseAll);
    TotalUpdate(s.grants, i, t.grants[i], HoldsSlot(k));
    SameSlots(s.db, t.db, s.now, t.now, Held(s.grants, k), Stranded(s, k), limits.slots, k);
  }

  /** Every step keeps every key's slot account. */
  lemma StepKeepsSlots(limits: Limits, s: Ledger, e: Event)
    requires SlotsInv(limits, s) && Enabled(s, e)
    ensures SlotsInv(limits, Step(limits, s, e))
  {
    var t := Step(limits, s, e);
    forall k ensures SlotsAgree(t.db, t.now, Held(t.grants, k), Stranded(t, k), limits.slots, k) {
      match e
      case Admit(apiKey, estimated) => AdmitKeepsSlots(limits, s, apiKey, estimated, k);
      case Finalize(i, actual, releaseAll) => FinalizeKeepsSlots(limits, s, i, actual, releaseAll, k);
      case Release(i) => ReleaseKeepsSlots(limits, s, i, k);
      case Tick(_) => SameSlots(s.db, s.db, s.now, t.now, Held(s.grants, k), Stranded(s, k), limits.slots, k);
      case SetOverload(_) =>
    }
  }

  lemma {:induction false} SlotsInRuns(limits: Limits, states: seq<Ledger>, events: seq<Event>, i: nat)
    requires Run(limits, states, events) && i <= |events|
    ensures SlotsInv(limits, states[i])
  {
    if i > 0 {
      SlotsInRuns(limits, states, events, i - 1);
      StepKeepsSlots(limits, states[i - 1], events[i - 1]);
    }
  }

  /** The admissions of the key, among the first `n` events, that were refused for their tokens. */
  ghost function TokenRefusals(limits: Limits, states: seq<Ledger>, events: seq<Event>, n: nat, apiKey: string): nat
    requires n <= |events| < |states|
  {
    if n == 0 then 0
    else
      var s, e := states[n - 1], events[n - 1];
      TokenRefusals(limits, states, events, n - 1, apiKey) +
      if e.Admit? && e.apiKey == apiKey && VerdictOn(limits, s.db, s.now, s.overload, apiKey, e.estimated) == TooManyTokens
      then 1 else 0
  }

  lemma {:induction false} StrandedAreRefusals(limits: Limits, states: seq<Ledger>, events: seq<Event>, n: nat, apiKey: string)
    requires Run(limits, states, events) && n <= |events|
    ensures Stranded(states[n], apiKey) == TokenRefusals(limits, states, events, n, apiKey)
  {
    if n > 0 {
      StrandedAreRefusals(limits, states, events, n - 1, apiKey);
    }
  }

  /**
   * The slot counter in every reachable state: the leases that hold a slot, and one slot lost for good for every
   * admission that took one and was then refused its tokens. So the leases held never exceed the limit, and the
   * counter is exact as long as no reservation was refused.
   */
  lemma SlotCounterIsHeldPlusRefusals(limits: Limits, states: seq<Ledger>, events: seq<Event>, n: nat, apiKey: string)
    requires Run(limits, states, events) && n <= |events|
    ensures var s := states[n]; var refused := TokenRefusals(limits, states, events, n, apiKey);
            && Value(s.db, SlotsKey(apiKey), s.now) == Held(s.grants, apiKey) + refused
            && 0 <= Held(s.grants, apiKey) <= Max(limits.slots, 0) - refused
  {
    SlotsInRuns(limits, states, events, n);
    StrandedAreRefusals(limits, states, events, n, apiKey);
    var s := states[n];
    assert SlotsAgree(s.db, s.now, Held(s.grants, apiKey), Stranded(s, apiKey), limits.slots, apiKey);
  }

  lemma {:induction false} RefusalsAccumulate(limits: Limits, states: seq<Ledger>, events: seq<Event>, n: nat, m: nat,
                                              apiKey: string)
    requires n <= m <= |events| < |states|
    ensures TokenRefusals(limits, states, events, n, apiKey) <= TokenRefusals(limits, states, events, m, apiKey)
  {
    if n < m {
      RefusalsAccumulate(limits, states, events, n, m - 1, apiKey);
    }
  }

  /** Once as many admissions of a key have been refused their tokens as it has slots, none is ever granted again. */
  lemma RefusalsLockTheKeyOut(limits: Limits, states: seq<Ledger>, events: seq<Event>, n: nat, m: nat, apiKey: string)
    requires Run(limits, states, events) && n <= m < |events|
    requires TokenRefusals(limits, states, events, n, apiKey) >= limits.slots
    requires events[m].Admit? && events[m].apiKey == apiKey
    ensures var s := states[m]; VerdictOn(limits, s.db, s.now, s.overload, apiKey, events[m].estimated) != Verdict.Granted
  {
    SlotCounterIsHeldPlusRefusals(limits, states, events, m, apiKey);
    RefusalsAccumulate(limits, states, events, n, m, apiKey);
  }
}
