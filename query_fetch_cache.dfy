/** The time-to-live cache of successful fetches (src/components/RelayEnvProvider/queryFetchCache.js).
    Time is the caller's `now` in milliseconds (what `Date.now()` would return), and production mode
    (`process.env.NODE_ENV === "production"`) is a flag. */
module FetchCache {
  import opened JsValues
  import opened RelayTypes

  /** 24 hours in milliseconds: the garbage-collection age and the largest ttl allowed. */
  const MAX_TTL: int := 1000 * 60 * 60 * 24

  /** `getKey`: the query name, a bar, and the serialised params. */
  function CacheKey(name: string, serializedParams: string): (k: string)
    ensures |k| == |name| + 1 + |serializedParams| && k[|name|] == '|'
    ensures k[..|name|] == name && k[|name| + 1..] == serializedParams
  {
    name + "|" + serializedParams
  }

  /** Equal names and equal serialised params share a key; and when neither name contains a bar,
      a key determines both (names made by withRelayQuery hold word characters only). */
  lemma CacheKeyInjective(n1: string, p1: string, n2: string, p2: string)
    requires '|' !in n1 && '|' !in n2
    ensures CacheKey(n1, p1) == CacheKey(n2, p2) <==> n1 == n2 && p1 == p2
  {
    if |n1| < |n2| {
      ShorterNameDiffers(n1, p1, n2, p2);
    } else if |n2| < |n1| {
      ShorterNameDiffers(n2, p2, n1, p1);
    } else if CacheKey(n1, p1) == CacheKey(n2, p2) {
      var k := CacheKey(n1, p1);
      assert n1 == k[..|n1|] == n2;
      assert p1 == k[|n1| + 1..] == p2;
    }
  }

  /** The bar after a shorter name falls inside a longer bar-free name. */
  lemma ShorterNameDiffers(n1: string, p1: string, n2: string, p2: string)
    requires |n1| < |n2| && '|' !in n2
    ensures CacheKey(n1, p1) != CacheKey(n2, p2)
  {
    assert CacheKey(n1, p1)[|n1|] == '|';
    assert CacheKey(n2, p2)[|n1|] == n2[|n1|];
  }

  /** An entry written at `t` is garbage at `now` once more than MAX_TTL has passed. */
  predicate Expired(t: int, now: int)
  {
    now - t > MAX_TTL
  }

  /** The cache after `garbageCollect` at `now`. */
  function Collected(cache: map<string, int>, now: int): (r: map<string, int>)
    ensures r.Keys <= cache.Keys
    ensures forall k :: k in cache ==> (k in r <==> !Expired(cache[k], now))
    ensures forall k :: k in r ==> r[k] == cache[k]
  {
    map k | k in cache && !Expired(cache[k], now) :: cache[k]
  }

  /** The answer of `shouldForceFetch` once the ttl guard has passed. */
  predicate Stale(cache: map<string, int>, key: string, ttl: int, now: int)
  {
    key !in cache || now - cache[key] > ttl
  }

  /** The misuse error for a ttl over 24 hours. */
  function TtlError(ttl: int): JsError
  {
    JsError("Error", "ttl " + IntToString(ttl) + " is longer than 24 hours - use a shorter TTL")
  }

  /** What `shouldForceFetch` gives for `key`: outside production a ttl over 24 hours throws before
      the cache is looked at; otherwise a missing entry, or one older than `ttl` (strictly), forces a
      fetch. */
  function ForceFetchVerdict(cache: map<string, int>, key: string, ttl: int, now: int, production: bool): (r: Result<bool>)
    ensures r.Throw? <==> !production && ttl > MAX_TTL
    ensures r.Throw? ==> r.error == TtlError(ttl)
    ensures r.Ok? ==> (r.value <==> Stale(cache, key, ttl, now))
    ensures r.Ok? && key !in cache ==> r.value
  {
    if !production && ttl > MAX_TTL then Throw(TtlError(ttl))
    else if key in cache then Ok(now - cache[key] > ttl)
    else Ok(true)
  }

  /** Collecting twice at the same time removes nothing more; collecting later subsumes collecting
      earlier. */
  lemma CollectedLater(cache: map<string, int>, t1: int, t2: int)
    requires t1 <= t2
    ensures Collected(Collected(cache, t1), t2) == Collected(cache, t2)
  {
    var a, b := Collected(Collected(cache, t1), t2), Collected(cache, t2);
    forall k ensures k in a <==> k in b {
      if k in cache && !Expired(cache[k], t2) {
        assert !Expired(cache[k], t1);
      }
    }
  }

  /** When every entry is older than 24 hours, a success leaves only its own entry. */
  lemma SuccessAfterLongIdle(cache: map<string, int>, key: string, now: int)
    requires forall k :: k in cache ==> Expired(cache[k], now)
    ensures Collected(cache, now)[key := now] == map[key := now]
  {
    assert Collected(cache, now) == map[];
  }

  /** After a success at `t0`, a check at `t` with a ttl in bounds forces a fetch exactly when more
      than `ttl` has passed: strictly, so an age of exactly `ttl` is still fresh. */
  lemma FreshUntilTtl(cache: map<string, int>, key: string, t0: int, t: int, ttl: int)
    ensures Stale(Collected(cache, t0)[key := t0], key, ttl, t) <==> t - t0 > ttl
    ensures !Stale(Collected(cache, t0)[key := t0], key, ttl, t0 + ttl)
  {
  }

  /** With no further writes, staleness never reverts as time goes on. */
  lemma StaleStaysStale(cache: map<string, int>, key: string, ttl: int, t1: int, t2: int)
    requires t1 <= t2 && Stale(cache, key, ttl, t1)
    ensures Stale(cache, key, ttl, t2)
  {
  }

  class QueryFetchCache {
    /** `JSON.stringify`, used on the params. */
    const stringify: Object<Value> -> string
    var cache: map<string, int>

    constructor (stringify: Object<Value> -> string)
      ensures this.stringify == stringify && cache == map[]
    {
      this.stringify := stringify;
      cache := map[];
    }

    /** `getKey`: one entry per (name, serialised params). */
    function GetKey(config: QueryConfig): (k: string)
      ensures |k| == |config.name| + 1 + |stringify(config.params)|
      ensures k[..|config.name|] == config.name && k[|config.name|] == '|'
      ensures k[|config.name| + 1..] == stringify(config.params)
    {
      CacheKey(config.name, stringify(config.params))
    }

    /** `garbageCollect`: deletes exactly the entries older than 24 hours. */
    method GarbageCollect(now: int)
      modifies this
      ensures cache == Collected(old(cache), now)
    {
      var keys := cache.Keys;
      while keys != {}
        invariant keys <= old(cache).Keys
        invariant cache.Keys <= old(cache).Keys
        invariant forall k :: k in cache ==> cache[k] == old(cache)[k]
        invariant forall k :: k in old(cache) && k !in keys ==> (k in cache <==> !Expired(old(cache)[k], now))
        invariant forall k :: k in keys ==> k in cache
        decreases keys
      {
        var key :| key in keys;
        if now - cache[key] > MAX_TTL {
          cache := cache - {key};
        }
        keys := keys - {key};
      }
    }

    /** `onQuerySuccess`: collects garbage first, then records `now` for the query, so the entry
        it writes always survives the call and no entry left is older than 24 hours. */
    method OnQuerySuccess(config: QueryConfig, now: int)
      modifies this
      ensures cache == Collected(old(cache), now)[GetKey(config) := now]
      ensures GetKey(config) in cache && cache[GetKey(config)] == now
      ensures forall k :: k in cache ==> !Expired(cache[k], now)
    {
      GarbageCollect(now);
      cache := cache[GetKey(config) := now];
    }

    /** `shouldForceFetch`: the misuse guard first, then a missing entry or one older than `ttl`
        (strictly) forces a fetch. The cache is only read. */
    method ShouldForceFetch(config: QueryConfig, ttl: int, now: int, production: bool) returns (r: Result<bool>)
      ensures r == ForceFetchVerdict(cache, GetKey(config), ttl, now, production)
      ensures !production && ttl > MAX_TTL ==> r == Throw(TtlError(ttl))
      ensures production || ttl <= MAX_TTL ==>
        r.Ok? && (r.value <==> GetKey(config) !in cache || now - cache[GetKey(config)] > ttl)
    {
      if !production && ttl > MAX_TTL {
        return Throw(TtlError(ttl));
      }
      var key := GetKey(config);
      if key in cache {
        return Ok(now - cache[key] > ttl);
      }
      return Ok(true);
    }
  }
}
