/** Token-per-minute reservations: tokens are counted when a request starts and the unused ones given back once. */
module QuotaReserver {
  import opened Wrappers
  import opened Leases
  import opened RedisModel

  const TPM_WINDOW_SECONDS := 60.0

  predicate TokensFree(db: Db, now: real, apiKey: string, limit: int, estimated: int) {
    Value(db, TpmKey(apiKey), now) + estimated <= limit
  }

  /** A reservation that finds the counter at 0 starts a window. */
  predicate StartsWindow(db: Db, now: real, apiKey: string, estimated: int) {
    Value(db, TpmKey(apiKey), now) + estimated == estimated
  }

  function AfterReserve(db: Db, now: real, apiKey: string, limit: int, estimated: int): Db {
    var key := TpmKey(apiKey);
    var counted := IncrBy(db, key, estimated, now);
    var expiring := if StartsWindow(db, now, apiKey, estimated) then Expire(counted, key, TPM_WINDOW_SECONDS, now) else counted;
    if TokensFree(db, now, apiKey, limit, estimated) then expiring else IncrBy(expiring, key, -estimated, now)
  }

  function AfterFinalize(db: Db, now: real, apiKey: string, unused: int): Db {
    if unused <= 0 then db
    else
      var counted := IncrBy(db, TpmKey(apiKey), -unused, now);
      if Value(db, TpmKey(apiKey), now) - unused <= 0 then Delete(counted, TpmKey(apiKey)) else counted
  }

  /** `TokenReservation`, or, without a Redis, the `NoopTokenReservation` that counts nothing. */
  class TokenReservation {
    const redis: Redis?
    const apiKey: string
    const reservedTokens: int
    var finalized: bool

    constructor (redis: Redis?, apiKey: string, reservedTokens: int)
      ensures this.redis == redis && this.apiKey == apiKey && this.reservedTokens == reservedTokens && !finalized
    {
      this.redis := redis;
      this.apiKey := apiKey;
      this.reservedTokens := reservedTokens;
      finalized := false;
    }

    method Finalize(actualTokens: int, releaseAll: bool)
      modifies this, redis
      ensures redis == null ==> finalized == old(finalized)
      ensures redis != null ==>
                && finalized
                && redis.now == old(redis.now) && redis.overload == old(redis.overload)
                && redis.db == (if old(finalized) then old(redis.db)
                                else AfterFinalize(old(redis.db), redis.now, apiKey,
                                                   Unused(reservedTokens, actualTokens, releaseAll)))
    {
      if redis == null || finalized {
        return;
      }
      finalized := true;
      var tokensToRelease := if releaseAll then reservedTokens else reservedTokens - actualTokens;
      if tokensToRelease <= 0 {
        return;
      }
      var remaining := redis.IncrementBy(TpmKey(apiKey), -tokensToRelease);
      if remaining <= 0 {
        redis.DeleteKey(TpmKey(apiKey));
      }
    }
  }

  class QuotaReserver {
    const redis: Redis?
    const tpmLimit: int

    constructor (redis: Redis?, tpmLimit: int)
      ensures this.redis == redis && this.tpmLimit == tpmLimit
    {
      this.redis := redis;
      this.tpmLimit := tpmLimit;
    }

    method Reserve(apiKey: string, estimatedTokens: int) returns (reservation: Outcome<TokenReservation>)
      modifies redis
      ensures redis != null ==> redis.now == old(redis.now) && redis.overload == old(redis.overload)
      ensures redis == null || estimatedTokens <= 0 ==>
                && reservation.Ok? && reservation.value.redis == null
                && reservation.value.reservedTokens == (if estimatedTokens > 0 then estimatedTokens else 0)
                && (redis != null ==> redis.db == old(redis.db))
      ensures redis != null && estimatedTokens > 0 ==>
                && redis.db == AfterReserve(old(redis.db), redis.now, apiKey, tpmLimit, estimatedTokens)
                && (reservation.Ok? <==> TokensFree(old(redis.db), redis.now, apiKey, tpmLimit, estimatedTokens))
                && (reservation.Ok? ==> reservation.value.redis == redis && reservation.value.reservedTokens == estimatedTokens)
      ensures reservation.Ok? ==> fresh(reservation.value) && reservation.value.apiKey == apiKey && !reservation.value.finalized
      ensures reservation.Raise? ==> reservation.error.code == "token_rate_limit_exceeded"
    {
      if redis == null || estimatedTokens <= 0 {
        var noop := new TokenReservation(null, apiKey, if estimatedTokens > 0 then estimatedTokens else 0);
        return Ok(noop);
      }
      var key := TpmKey(apiKey);
      var count := redis.IncrementBy(key, estimatedTokens);
      if count == estimatedTokens {
        redis.ExpireIn(key, TPM_WINDOW_SECONDS);
      }
      if count > tpmLimit {
        var _ := redis.IncrementBy(key, -estimatedTokens);
        return Raise(Error("token_rate_limit_exceeded", "Token rate limit exceeded"));
      }
      var reserved := new TokenReservation(redis, apiKey, estimatedTokens);
      return Ok(reserved);
    }
  }
}
