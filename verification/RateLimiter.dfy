/** The requests-per-minute limiter: a fixed window per API key, and the overload gate. */
module RateLimiter {
  import opened Wrappers
  import opened Numbers
  import opened RedisModel

  const RPM_WINDOW_SECONDS := 60.0

  function AfterRpm(db: Db, now: real, apiKey: string): Db {
    var counted := IncrBy(db, RpmKey(apiKey), 1, now);
    if Value(db, RpmKey(apiKey), now) + 1 == 1 then Expire(counted, RpmKey(apiKey), RPM_WINDOW_SECONDS, now) else counted
  }

  predicate RpmAdmits(db: Db, now: real, apiKey: string, limit: int) {
    Value(db, RpmKey(apiKey), now) + 1 <= limit
  }

  function LowerChar(c: char): char {
    if 'A' <= c <= 'Z' then c - 'A' + 'a' else c
  }

  function Lower(text: string): (lower: string)
    ensures |lower| == |text|
    ensures forall i :: 0 <= i < |text| ==> lower[i] == LowerChar(text[i])
  {
    if text == "" then "" else [LowerChar(text[0])] + Lower(text[1..])
  }

  /** The same text but for the case of its letters. */
  predicate SameButForCase(text: string, word: string) {
    |text| == |word|
    && forall i :: 0 <= i < |text| ==> text[i] == word[i] || ('a' <= word[i] <= 'z' && text[i] == word[i] - 'a' + 'A')
  }

  predicate HasNoCapital(word: string) {
    forall i :: 0 <= i < |word| ==> !('A' <= word[i] <= 'Z')
  }

  lemma LowerIs(text: string, word: string)
    requires HasNoCapital(word)
    ensures Lower(text) == word <==> SameButForCase(text, word)
  {
  }

  /** The flag refuses admission unless it is missing, empty, 0, or a word for false or none in any case. */
  predicate Overloaded(flag: Option<string>) {
    flag.Some? && forall word | word in ["", "0", "false", "none"] :: !SameButForCase(flag.value, word)
  }

  lemma SameLetters(text: string)
    ensures SameButForCase(text, "") <==> text == ""
    ensures SameButForCase(text, "0") <==> text == "0"
    ensures SameButForCase(text, "false") <==>
              |text| == 5 && text[0] in {'f', 'F'} && text[1] in {'a', 'A'} && text[2] in {'l', 'L'} && text[3] in {'s', 'S'}
              && text[4] in {'e', 'E'}
    ensures SameButForCase(text, "none") <==>
              |text| == 4 && text[0] in {'n', 'N'} && text[1] in {'o', 'O'} && text[2] in {'n', 'N'} && text[3] in {'e', 'E'}
  {
  }

  /** The flags that admit, letter by letter: none, an empty one, 0, and "false" and "none" in any case. */
  lemma AdmittingFlags(flag: Option<string>)
    ensures !Overloaded(flag) <==>
              || flag == None || flag.value == "" || flag.value == "0"
              || (|flag.value| == 5 && flag.value[0] in {'f', 'F'} && flag.value[1] in {'a', 'A'} && flag.value[2] in {'l', 'L'}
                  && flag.value[3] in {'s', 'S'} && flag.value[4] in {'e', 'E'})
              || (|flag.value| == 4 && flag.value[0] in {'n', 'N'} && flag.value[1] in {'o', 'O'} && flag.value[2] in {'n', 'N'}
                  && flag.value[3] in {'e', 'E'})
    ensures !Overloaded(Some("FALSE")) && !Overloaded(Some("None")) && Overloaded(Some("1")) && Overloaded(Some("true"))
  {
    var words := ["", "0", "false", "none"];
    assert words[0] == "" && words[1] == "0" && words[2] == "false" && words[3] == "none";
    if flag.Some? {
      SameLetters(flag.value);
    }
    SameLetters("FALSE");
    SameLetters("None");
    SameLetters("1");
    SameLetters("true");
  }

  class RateLimiter {
    const redis: Redis

    constructor (redis: Redis)
      ensures this.redis == redis
    {
      this.redis := redis;
    }

    method CheckOverload() returns (done: Outcome<()>)
      ensures done.Raise? <==> Overloaded(redis.overload)
      ensures done.Raise? ==> done.error.code == "server_overloaded"
    {
      var value := redis.Get();
      if value.Some? {
        forall word | word in ["", "0", "false", "none"]
          ensures Lower(value.value) == word <==> SameButForCase(value.value, word)
        {
          LowerIs(value.value, word);
        }
      }
      if value.Some? && Lower(value.value) !in ["", "0", "false", "none"] {
        return Raise(Error("server_overloaded", "Server is overloaded"));
      }
      return Ok(());
    }

    method CheckRpm(apiKey: string, limit: int) returns (done: Outcome<()>)
      modifies redis`db
      ensures redis.db == AfterRpm(old(redis.db), redis.now, apiKey)
      ensures done.Ok? <==> RpmAdmits(old(redis.db), redis.now, apiKey, limit)
      ensures done.Raise? ==> done.error.code == "rate_limit_exceeded"
    {
      var key := RpmKey(apiKey);
      var count := redis.IncrementBy(key, 1);
      if count == 1 {
        redis.ExpireIn(key, RPM_WINDOW_SECONDS);
      }
      if count > limit {
        return Raise(Error("rate_limit_exceeded", "Rate limit exceeded"));
      }
      return Ok(());
    }
  }

  // ---- runs ------------------------------------------------------------------------

  /** One `check_rpm`, for one API key at one time. */
  datatype Call = Call(apiKey: string, at: real)

  ghost predicate InOrder(calls: seq<Call>) {
    forall i, k :: 0 <= i < k < |calls| ==> calls[i].at <= calls[k].at
  }

  /** The counters before the n-th call. */
  function DbAt(calls: seq<Call>, n: nat): Db
    requires n <= |calls|
  {
    if n == 0 then map[] else AfterRpm(DbAt(calls, n - 1), calls[n - 1].at, calls[n - 1].apiKey)
  }

  predicate Accepted(calls: seq<Call>, limit: int, i: nat)
    requires i < |calls|
  {
    RpmAdmits(DbAt(calls, i), calls[i].at, calls[i].apiKey, limit)
  }

  /** How many of the first `n` calls were for the key, in the interval [start, start + 60), and accepted. */
  function AcceptedIn(calls: seq<Call>, limit: int, apiKey: string, start: real, n: nat): nat
    requires n <= |calls|
  {
    if n == 0 then 0
    else
      var c := calls[n - 1];
      AcceptedIn(calls, limit, apiKey, start, n - 1) +
      if c.apiKey == apiKey && start <= c.at < start + 60.0 && Accepted(calls, limit, n - 1) then 1 else 0
  }

  /** What the counter of the current window, opened at `begun`, says about the calls accepted in the interval. */
  predicate BoundedBy(entry: Entry, accepted: nat, limit: int, start: real) {
    entry.value >= 1 && entry.expiresAt.Some? &&
    var begun := entry.expiresAt.value - 60.0;
    var most := Max(limit, 0);
    && (begun < start ==> accepted <= Max(0, Min(entry.value, most) - 1))
    && (start <= begun < start + 60.0 ==> accepted <= Max(0, most - 1) + Min(entry.value, most))
    && (start + 60.0 <= begun ==> accepted <= Max(0, 2 * most - 1))
  }

  /** Before the interval begins nothing in it has been accepted. */
  lemma {:induction false} NothingYet(calls: seq<Call>, limit: int, apiKey: string, start: real, n: nat)
    requires InOrder(calls) && n < |calls| && calls[n].at < start
    ensures AcceptedIn(calls, limit, apiKey, start, n) == 0
  {
    if n > 0 {
      NothingYet(calls, limit, apiKey, start, n - 1);
    }
  }

  /** One call for the key, at a time no earlier than its window's opening. */
  lemma NextCall(db: Db, apiKey: string, now: real, limit: int, start: real, accepted: nat)
    requires if RpmKey(apiKey) in db
             then BoundedBy(db[RpmKey(apiKey)], accepted, limit, start) && db[RpmKey(apiKey)].expiresAt.value - 60.0 <= now
             else accepted == 0
    requires now < start ==> accepted == 0
    ensures var after := AfterRpm(db, now, apiKey);
            && RpmKey(apiKey) in after
            && BoundedBy(after[RpmKey(apiKey)],
                         accepted + (if start <= now < start + 60.0 && RpmAdmits(db, now, apiKey, limit) then 1 else 0),
                         limit, start)
            && after[RpmKey(apiKey)].expiresAt.value - 60.0 <= now
  {
  }

  lemma OtherCall(db: Db, apiKey: string, other: string, now: real)
    requires other != apiKey
    ensures RpmKey(apiKey) in AfterRpm(db, now, other) <==> RpmKey(apiKey) in db
    ensures RpmKey(apiKey) in db ==> AfterRpm(db, now, other)[RpmKey(apiKey)] == db[RpmKey(apiKey)]
  {
  }

  lemma {:induction false} WindowsBound(calls: seq<Call>, limit: int, apiKey: string, start: real, n: nat)
    requires InOrder(calls) && n <= |calls|
    ensures var db := DbAt(calls, n); var accepted := AcceptedIn(calls, limit, apiKey, start, n);
            if RpmKey(apiKey) in db
            then BoundedBy(db[RpmKey(apiKey)], accepted, limit, start)
                 && n > 0 && db[RpmKey(apiKey)].expiresAt.value - 60.0 <= calls[n - 1].at
            else accepted == 0
  {
    if n > 0 {
      WindowsBound(calls, limit, apiKey, start, n - 1);
      var db, c := DbAt(calls, n - 1), calls[n - 1];
      if c.apiKey == apiKey {
        if c.at < start {
          NothingYet(calls, limit, apiKey, start, n - 1);
        }
        NextCall(db, apiKey, c.at, limit, start, AcceptedIn(calls, limit, apiKey, start, n - 1));
      } else {
        OtherCall(db, apiKey, c.apiKey, c.at);
      }
    }
  }

  /**
   * In any half-open interval of 60 seconds, wherever it lies against the windows, at most 2 * limit - 1 calls of one
   * key are accepted, and none for a limit below 1.
   */
  lemma RateBound(calls: seq<Call>, limit: int, apiKey: string, start: real)
    requires InOrder(calls)
    ensures AcceptedIn(calls, limit, apiKey, start, |calls|) <= Max(0, 2 * limit - 1)
  {
    WindowsBound(calls, limit, apiKey, start, |calls|);
  }

  // ---- what one window accepts --------------------------------------------------------

  /** How many of the calls i .. n-1 were for the key and before `end`, and how many of those were accepted. */
  function CallsFrom(calls: seq<Call>, apiKey: string, end: real, i: nat, n: nat): nat
    requires i <= n <= |calls|
  {
    if n == i then 0
    else CallsFrom(calls, apiKey, end, i, n - 1) + if calls[n - 1].apiKey == apiKey && calls[n - 1].at < end then 1 else 0
  }

  function AcceptedFrom(calls: seq<Call>, limit: int, apiKey: string, end: real, i: nat, n: nat): nat
    requires i <= n <= |calls|
  {
    if n == i then 0
    else
      AcceptedFrom(calls, limit, apiKey, end, i, n - 1) +
      if calls[n - 1].apiKey == apiKey && calls[n - 1].at < end && Accepted(calls, limit, n - 1) then 1 else 0
  }

  /** The i-th call opens a window: its key is not there, or has expired. */
  predicate Opens(calls: seq<Call>, i: nat)
    requires i < |calls|
  {
    !Live(DbAt(calls, i), RpmKey(calls[i].apiKey), calls[i].at)
  }

  lemma {:induction false} WindowCounts(calls: seq<Call>, limit: int, i: nat, n: nat)
    requires InOrder(calls) && i < n <= |calls| && Opens(calls, i)
    ensures var apiKey := calls[i].apiKey; var end := calls[i].at + 60.0; var made := CallsFrom(calls, apiKey, end, i, n);
            && made >= 1
            && AcceptedFrom(calls, limit, apiKey, end, i, n) == Min(made, Max(limit, 0))
            && (calls[n - 1].at < end ==> RpmKey(apiKey) in DbAt(calls, n)
                                          && DbAt(calls, n)[RpmKey(apiKey)] == Entry(made, Some(end)))
  {
    var apiKey, end := calls[i].apiKey, calls[i].at + 60.0;
    if n == i + 1 {
      assert CallsFrom(calls, apiKey, end, i, i) == 0;
      assert AcceptedFrom(calls, limit, apiKey, end, i, i) == 0;
    } else {
      WindowCounts(calls, limit, i, n - 1);
      if calls[n - 1].apiKey != apiKey {
        OtherCall(DbAt(calls, n - 1), apiKey, calls[n - 1].apiKey, calls[n - 1].at);
      }
    }
  }

  /** Each window accepts the first `limit` of its calls: as many as were made, but no more than the limit. */
  lemma WindowAcceptsUpToLimit(calls: seq<Call>, limit: int, i: nat)
    requires InOrder(calls) && i < |calls| && Opens(calls, i)
    ensures var apiKey := calls[i].apiKey; var end := calls[i].at + 60.0;
            AcceptedFrom(calls, limit, apiKey, end, i, |calls|) == Min(CallsFrom(calls, apiKey, end, i, |calls|), Max(limit, 0))
  {
    WindowCounts(calls, limit, i, |calls|);
  }

  // ---- the bound is attained -------------------------------------------------------------

  /** One call at 0, `limit` - 1 at 59, and `limit` at 60 seconds. */
  function Burst(apiKey: string, limit: nat): (calls: seq<Call>)
    requires limit >= 1
    ensures |calls| == 2 * limit && InOrder(calls)
    ensures forall i :: 0 <= i < |calls| ==> calls[i] == Call(apiKey, if i == 0 then 0.0 else if i < limit then 59.0 else 60.0)
  {
    seq(2 * limit, i => Call(apiKey, if i == 0 then 0.0 else if i < limit then 59.0 else 60.0))
  }

  lemma {:induction false} BurstCounts(apiKey: string, limit: nat, n: nat)
    requires limit >= 1 && 1 <= n <= 2 * limit
    ensures RpmKey(apiKey) in DbAt(Burst(apiKey, limit), n)
    ensures DbAt(Burst(apiKey, limit), n)[RpmKey(apiKey)] ==
              if n <= limit then Entry(n, Some(60.0)) else Entry(n - limit, Some(120.0))
    ensures AcceptedIn(Burst(apiKey, limit), limit, apiKey, 59.0, n) == n - 1
  {
    var calls := Burst(apiKey, limit);
    if n == 1 {
      assert DbAt(calls, 0) == map[];
      assert AcceptedIn(calls, limit, apiKey, 59.0, 0) == 0;
    } else {
      BurstCounts(apiKey, limit, n - 1);
    }
  }

  /** The interval bound is attained for every limit of at least 1, so `limit` calls a minute is not what is enforced. */
  lemma RateBoundIsAttained(apiKey: string, limit: nat)
    requires limit >= 1
    ensures AcceptedIn(Burst(apiKey, limit), limit, apiKey, 59.0, 2 * limit) == 2 * limit - 1
  {
    BurstCounts(apiKey, limit, 2 * limit);
  }
}
