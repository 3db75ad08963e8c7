/** Concurrency slots: a counter per API key, taken by `acquire` and given back once by the lease. */
module ConcurrencyLimiter {
  import opened Wrappers
  import opened RedisModel

  predicate SlotFree(db: Db, now: real, apiKey: string, limit: int) {
    Value(db, SlotsKey(apiKey), now) + 1 <= limit
  }

  function AfterAcquire(db: Db, now: real, apiKey: string, limit: int): Db {
    var counted := IncrBy(db, SlotsKey(apiKey), 1, now);
    if SlotFree(db, now, apiKey, limit) then counted else IncrBy(counted, SlotsKey(apiKey), -1, now)
  }

  function AfterRelease(db: Db, now: real, apiKey: string): Db {
    var counted := IncrBy(db, SlotsKey(apiKey), -1, now);
    if Value(db, SlotsKey(apiKey), now) - 1 <= 0 then Delete(counted, SlotsKey(apiKey)) else counted
  }

  class ConcurrencyLease {
    const redis: Redis
    const apiKey: string
    var released: bool

    constructor (redis: Redis, apiKey: string)
      ensures this.redis == redis && this.apiKey == apiKey && !released
    {
      this.redis := redis;
      this.apiKey := apiKey;
      released := false;
    }

    /** Gives the slot back the first time and does nothing after that. */
    method Release()
      modifies this, redis`db
      ensures released
      ensures redis.db == if old(released) then old(redis.db) else AfterRelease(old(redis.db), redis.now, apiKey)
    {
      if released {
        return;
      }
      released := true;
      var remaining := redis.IncrementBy(SlotsKey(apiKey), -1);
      if remaining <= 0 {
        redis.DeleteKey(SlotsKey(apiKey));
      }
    }
  }

  class ConcurrencyLimiter {
    const redis: Redis

    constructor (redis: Redis)
      ensures this.redis == redis
    {
      this.redis := redis;
    }

    method Acquire(apiKey: string, limit: int) returns (lease: Outcome<ConcurrencyLease>)
      modifies redis`db
      ensures redis.db == AfterAcquire(old(redis.db), redis.now, apiKey, limit)
      ensures lease.Ok? <==> SlotFree(old(redis.db), redis.now, apiKey, limit)
      ensures lease.Ok? ==> fresh(lease.value) && lease.value.redis == redis && lease.value.apiKey == apiKey
                            && !lease.value.released
      ensures lease.Raise? ==> lease.error.code == "concurrency_limit_exceeded"
    {
      var key := SlotsKey(apiKey);
      var count := redis.IncrementBy(key, 1);
      if count > limit {
        var _ := redis.IncrementBy(key, -1);
        return Raise(Error("concurrency_limit_exceeded", "Concurrent request limit exceeded"));
      }
      var granted := new ConcurrencyLease(redis, apiKey);
      return Ok(granted);
    }
  }
}
