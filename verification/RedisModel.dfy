/** The Redis that admission control counts in: integer counters with an optional expiry time, and a clock. */
module RedisModel {
  import opened Wrappers

  datatype Key = RpmKey(apiKey: string) | TpmKey(apiKey: string) | SlotsKey(apiKey: string)

  const OVERLOAD_KEY := "overload:global"

  /** The name a key has in Redis. */
  function Render(key: Key): string {
    match key
    case RpmKey(id) => "rl:api_key:" + id + ":rpm"
    case TpmKey(id) => "rl:api_key:" + id + ":tpm"
    case SlotsKey(id) => "concurrent:api_key:" + id
  }

  /** Whatever the API key ids contain, no two counters and no counter and the overload flag share a name. */
  lemma NamesAreDistinct(a: Key, b: Key)
    ensures Render(a) == Render(b) ==> a == b
    ensures Render(a) != OVERLOAD_KEY
  {
    var s := Render(a);
    assert s[0] == if a.SlotsKey? then 'c' else 'r';
    if Render(b) == s {
      assert s[0] == if b.SlotsKey? then 'c' else 'r';
      if a.SlotsKey? {
        assert s[19..] == a.apiKey && s[19..] == b.apiKey;
      } else {
        assert s[|s| - 3] == if a.RpmKey? then 'r' else 't';
        assert s[|s| - 3] == if b.RpmKey? then 'r' else 't';
        assert s[11..|s| - 4] == a.apiKey && s[11..|s| - 4] == b.apiKey;
      }
    }
  }

  /** A counter; a key with an expiry time is gone from that time on. */
  datatype Entry = Entry(value: int, expiresAt: Option<real>)

  type Db = map<Key, Entry>

  predicate Live(db: Db, key: Key, now: real) {
    key in db && (db[key].expiresAt.None? || now < db[key].expiresAt.value)
  }

  /** What a counter command starts from: an absent or expired key counts as 0. */
  function Value(db: Db, key: Key, now: real): int {
    if Live(db, key, now) then db[key].value else 0
  }

  /** INCRBY keeps the expiry time of a key that is there, and creates one without. */
  function IncrBy(db: Db, key: Key, amount: int, now: real): Db {
    db[key := Entry(Value(db, key, now) + amount, if Live(db, key, now) then db[key].expiresAt else None)]
  }

  function Expire(db: Db, key: Key, seconds: real, now: real): Db {
    if Live(db, key, now) then db[key := db[key].(expiresAt := Some(now + seconds))] else db
  }

  function Delete(db: Db, key: Key): Db {
    db - {key}
  }

  class Redis {
    var db: Db
    var now: real
    var overload: Option<string>

    constructor ()
      ensures db == map[] && overload == None
    {
      db := map[];
      now := 0.0;
      overload := None;
    }

    method Get() returns (value: Option<string>)
      ensures value == overload
    {
      value := overload;
    }

    method IncrementBy(key: Key, amount: int) returns (count: int)
      modifies this`db
      ensures db == IncrBy(old(db), key, amount, now) && count == Value(old(db), key, now) + amount
    {
      count := Value(db, key, now) + amount;
      db := IncrBy(db, key, amount, now);
    }

    method ExpireIn(key: Key, seconds: real)
      modifies this`db
      ensures db == Expire(old(db), key, seconds, now)
    {
      db := Expire(db, key, seconds, now);
    }

    method DeleteKey(key: Key)
      modifies this`db
      ensures db == Delete(old(db), key)
    {
      db := Delete(db, key);
    }
  }
}
