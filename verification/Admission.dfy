/** Admission of a request: the overload gate, then a request, a slot and a token reservation, in that order. */
module Admission {
  import opened Wrappers
  import opened Leases
  import opened RedisModel
  import opened RateLimiter
  import opened ConcurrencyLimiter
  import opened QuotaReserver

  datatype Limits = Limits(rpm: int, slots: int, tpm: int)

  /** How an admission ends: refused at one of the four checks, or granted with a reservation of some tokens. */
  datatype Verdict = ServerOverloaded | TooManyRequests | TooManyAtOnce | TooManyTokens | Granted

  function VerdictOn(limits: Limits, db: Db, now: real, overload: Option<string>, apiKey: string, estimated: int): Verdict {
    if Overloaded(overload) then ServerOverloaded
    else if !RpmAdmits(db, now, apiKey, limits.rpm) then TooManyRequests
    else if !SlotFree(db, now, apiKey, limits.slots) then TooManyAtOnce
    else if estimated > 0 && !TokensFree(db, now, apiKey, limits.tpm, estimated) then TooManyTokens
    else Granted
  }

  /** What the checks made up to the verdict have counted. */
  function AfterAdmit(limits: Limits, db: Db, now: real, apiKey: string, estimated: int, verdict: Verdict): Db {
    if verdict == ServerOverloaded then db
    else if verdict == TooManyRequests then AfterRpm(db, now, apiKey)
    else
      var held := AfterAcquire(AfterRpm(db, now, apiKey), now, apiKey, limits.slots);
      if verdict == TooManyAtOnce || estimated <= 0 then held else AfterReserve(held, now, apiKey, limits.tpm, estimated)
  }

  /** The checks count under different keys, so none of them sees what another has counted. */
  lemma ChecksAreIndependent(db: Db, now: real, apiKey: string, limit: int, other: string)
    ensures Value(AfterRpm(db, now, apiKey), SlotsKey(other), now) == Value(db, SlotsKey(other), now)
    ensures Value(AfterRpm(db, now, apiKey), TpmKey(other), now) == Value(db, TpmKey(other), now)
    ensures Value(AfterAcquire(db, now, apiKey, limit), TpmKey(other), now) == Value(db, TpmKey(other), now)
  {
  }

  function CodeOf(verdict: Verdict): string {
    match verdict
    case ServerOverloaded => "server_overloaded"
    case TooManyRequests => "rate_limit_exceeded"
    case TooManyAtOnce => "concurrency_limit_exceeded"
    case TooManyTokens => "token_rate_limit_exceeded"
    case Granted => ""
  }

  /** A lease over the two objects it settles; for the account, the settlement effects it has had. */
  class AdmissionLease {
    const concurrency: ConcurrencyLease
    const tokenReservation: TokenReservation
    ghost var log: seq<LeaseEvent>

    constructor (concurrency: ConcurrencyLease, tokenReservation: TokenReservation)
      ensures this.concurrency == concurrency && this.tokenReservation == tokenReservation && log == []
    {
      this.concurrency := concurrency;
      this.tokenReservation := tokenReservation;
      log := [];
    }

    /** The lease as its holder sees it; a lease without tokens has nothing to finalize. */
    ghost function View(): Lease
      reads this, concurrency, tokenReservation
    {
      Lease(tokenReservation.reservedTokens, tokenReservation.finalized, concurrency.released, log, 0)
    }

    /** Gives the slot back the first time, and does nothing after that. */
    method Release()
      modifies this, concurrency, concurrency.redis`db
      ensures View() == ReleaseSlot(old(View()))
      ensures concurrency.redis.db ==
                if old(concurrency.released) then old(concurrency.redis.db)
                else AfterRelease(old(concurrency.redis.db), concurrency.redis.now, concurrency.apiKey)
    {
      log := if concurrency.released then log else log + [SlotReleased];
      concurrency.Release();
    }

    /** Gives the unused tokens back the first time, and does nothing after that. */
    method FinalizeTokens(actualTokens: int, releaseAll: bool)
      modifies this, tokenReservation, tokenReservation.redis
      ensures tokenReservation.redis == null ==> View() == old(View())
      ensures var redis := tokenReservation.redis;
              redis != null ==>
                && View() == Leases.FinalizeTokens(old(View()), actualTokens, releaseAll)
                && redis.now == old(redis.now) && redis.overload == old(redis.overload)
                && redis.db == (if old(tokenReservation.finalized) then old(redis.db)
                                else AfterFinalize(old(redis.db), redis.now, tokenReservation.apiKey,
                                                   Unused(tokenReservation.reservedTokens, actualTokens, releaseAll)))
    {
      if tokenReservation.redis != null && !tokenReservation.finalized {
        log := log + [TokensFinalized(Unused(tokenReservation.reservedTokens, actualTokens, releaseAll))];
      }
      tokenReservation.Finalize(actualTokens, releaseAll);
    }
  }

  class AdmissionService {
    const rateLimiter: RateLimiter
    const concurrencyLimiter: ConcurrencyLimiter
    const quotaReserver: QuotaReserver
    const redis: Redis
    const limits: Limits

    constructor (redis: Redis, limits: Limits)
      ensures Valid() && this.redis == redis && this.limits == limits
    {
      this.redis := redis;
      this.limits := limits;
      rateLimiter := new RateLimiter(redis);
      concurrencyLimiter := new ConcurrencyLimiter(redis);
      quotaReserver := new QuotaReserver(redis, limits.tpm);
    }

    /** The three services count in the same Redis. */
    predicate Valid() {
      rateLimiter.redis == redis && concurrencyLimiter.redis == redis
      && quotaReserver.redis == redis && quotaReserver.tpmLimit == limits.tpm
    }

    /** Counts and refuses as the verdict says; a granted lease holds an unreleased slot and an unfinalized reservation. */
    method Admit(apiKey: string, estimatedTokens: int) returns (lease: Outcome<AdmissionLease>)
      requires Valid()
      modifies redis
      ensures redis.now == old(redis.now) && redis.overload == old(redis.overload)
      ensures var verdict := VerdictOn(limits, old(redis.db), redis.now, redis.overload, apiKey, estimatedTokens);
              && redis.db == AfterAdmit(limits, old(redis.db), redis.now, apiKey, estimatedTokens, verdict)
              && (lease.Ok? <==> verdict == Granted)
              && (lease.Raise? ==> lease.error.code == CodeOf(verdict))
      ensures lease.Ok? ==>
                var slot, tokens := lease.value.concurrency, lease.value.tokenReservation;
                && fresh(lease.value) && fresh(slot) && fresh(tokens) && lease.value.View() == NewLease(tokens.reservedTokens, 0)
                && !slot.released && slot.redis == redis && slot.apiKey == apiKey
                && !tokens.finalized && tokens.apiKey == apiKey
                && tokens.redis == (if estimatedTokens > 0 then redis else null)
                && tokens.reservedTokens == (if estimatedTokens > 0 then estimatedTokens else 0)
    {
      ChecksAreIndependent(redis.db, redis.now, apiKey, limits.slots, apiKey);
      ChecksAreIndependent(AfterRpm(redis.db, redis.now, apiKey), redis.now, apiKey, limits.slots, apiKey);
      var open := rateLimiter.CheckOverload();
      if open.Raise? {
        return Raise(open.error);
      }
      var counted := rateLimiter.CheckRpm(apiKey, limits.rpm);
      if counted.Raise? {
        return Raise(counted.error);
      }
      var slot := concurrencyLimiter.Acquire(apiKey, limits.slots);
      if slot.Raise? {
        return Raise(slot.error);
      }
      var tokens := quotaReserver.Reserve(apiKey, estimatedTokens);
      if tokens.Raise? {
        return Raise(tokens.error);
      }
      var granted := new AdmissionLease(slot.value, tokens.value);
      return Ok(granted);
    }
  }
}
