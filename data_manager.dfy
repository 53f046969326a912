/** The in-memory cache of `DataManager` in `data/data_manager.py`: the hit rule and the expiry
    chosen for fresh data in `get_data`, the pruning of expired entries, clearing by type, and
    the next market close. Cached values are of any type `V`. The pickle file cache and the
    broker fetch are oracles: what the cache file holds (if it exists and loads) and what the
    fetch returns (`None` for no connection, an error or an empty frame). Instants are
    seconds of local time, as `time.time()` and `datetime.now()` give them. */
module DataManager {
  import opened Wrappers
  import opened Text

  const SecondsPerDay: int := 86400
  /** 16:00, the market close, in seconds after midnight. */
  const CloseSecond: int := 57600
  /** Expiry of data that is neither daily nor intraday: one hour. */
  const DefaultExpiry: real := 3600.0

  /** The weekday of a day counted from 1970-01-01 (a Thursday), Monday being 0 as in
      `datetime.weekday()`. */
  function Weekday(day: int): (w: int)
    ensures 0 <= w < 7
  {
    (day + 3) % 7
  }

  /** A 16:00 close on a weekday, as an instant. */
  predicate IsWeekdayClose(t: int) {
    t % SecondsPerDay == CloseSecond && Weekday(t / SecondsPerDay) < 5
  }

  /** `_get_next_market_close_timestamp`: today at 16:00, or tomorrow from 16:00 on, moved
      past the weekend. It is the first weekday close strictly after `now`. */
  method NextMarketClose(now: int) returns (close: int)
    ensures close > now && IsWeekdayClose(close)
    ensures forall d :: now / SecondsPerDay <= d < close / SecondsPerDay && Weekday(d) < 5 ==>
              d * SecondsPerDay + CloseSecond <= now
  {
    var day := now / SecondsPerDay;
    if now % SecondsPerDay >= CloseSecond {
      day := day + 1;
    }
    while Weekday(day) >= 5
      invariant day * SecondsPerDay + CloseSecond > now
      invariant now / SecondsPerDay <= day
      invariant forall d :: now / SecondsPerDay <= d < day && Weekday(d) < 5 ==>
                  d * SecondsPerDay + CloseSecond <= now
      decreases if Weekday(day) >= 5 then 7 - Weekday(day) else 0
    {
      day := day + 1;
    }
    close := day * SecondsPerDay + CloseSecond;
    assert close / SecondsPerDay == day && close % SecondsPerDay == CloseSecond;
  }

  /** The key of one `get_data` request. */
  function CacheKey(symbol: string, timeframe: string, duration: string, whatToShow: string)
    : string
  {
    symbol + ":" + timeframe + ":" + duration + ":" + whatToShow
  }

  /** The expiry of freshly fetched data: the next close for daily bars, the configured
      intraday lifetime for hourly and minute bars, one hour otherwise. */
  function FreshExpiry(timeframe: string, now: real, nextClose: int, minuteExpiry: real)
    : (e: real)
    ensures Contains(timeframe, "day") ==> e == nextClose as real
    ensures !Contains(timeframe, "day") && (Contains(timeframe, "hour") || Contains(timeframe, "min"))
            ==> e == now + minuteExpiry
    ensures (!Contains(timeframe, "day") && !Contains(timeframe, "hour")
             && !Contains(timeframe, "min")) ==> e == now + DefaultExpiry
  {
    if Contains(timeframe, "day") then nextClose as real
    else if Contains(timeframe, "hour") || Contains(timeframe, "min") then now + minuteExpiry
    else now + DefaultExpiry
  }

  /** The keys whose expiry lies strictly before `now`. */
  function ExpiredKeys(expiry: map<string, real>, now: real): (r: set<string>)
    ensures forall k :: k in r <==> k in expiry && now > expiry[k]
  {
    set k | k in expiry && now > expiry[k]
  }

  /** The key pattern of each cache type `clear_cache` knows. */
  function TypePattern(cacheType: string): (p: Option<string>)
    ensures p.Some? <==> cacheType in {"universe", "minute", "options"}
  {
    if cacheType == "universe" then Some("universe_filter:")
    else if cacheType == "minute" then Some(":1 min:")
    else if cacheType == "options" then Some("options:")
    else None
  }

  /** Removes `keys` from both maps, one key at a time. */
  method RemoveKeys<V>(cache: map<string, V>, expiry: map<string, real>, keys: set<string>)
    returns (cache': map<string, V>, expiry': map<string, real>)
    ensures cache' == cache - keys && expiry' == expiry - keys
  {
    cache', expiry' := cache, expiry;
    var rest := keys;
    while rest != {}
      invariant rest <= keys
      invariant cache' == cache - (keys - rest) && expiry' == expiry - (keys - rest)
      decreases rest
    {
      var k :| k in rest;
      if k in cache' {
        cache' := cache' - {k};
      }
      if k in expiry' {
        expiry' := expiry' - {k};
      }
      rest := rest - {k};
      assert keys - rest == (keys - (rest + {k})) + {k};
    }
  }

  class Cache<V> {
    /** `cache`: the cached values. */
    var cache: map<string, V>
    /** `cache_expiry`: the instant each entry stops being served. */
    var cacheExpiry: map<string, real>
    /** `minute_data_cache_expiry` (60 seconds by default). */
    const minuteExpiry: real

    constructor(minuteExpiry: real)
      ensures cache == map[] && cacheExpiry == map[] && this.minuteExpiry == minuteExpiry
    {
      cache := map[];
      cacheExpiry := map[];
      this.minuteExpiry := minuteExpiry;
    }

    /** The memory cache serves `key` at `now`: caching is wanted, both maps hold the key and
        the expiry has not been reached. */
    predicate MemoryHit(key: string, useCache: bool, now: real)
      reads this
    {
      useCache && key in cache && key in cacheExpiry && now < cacheExpiry[key]
    }

    /** `get_data`: a memory hit is served as it is; otherwise a cache file that has not
        expired is served and copied into memory; otherwise fresh data is fetched and cached
        with its `FreshExpiry`; a failed fetch answers `None` and changes nothing. */
    method GetData(symbol: string, timeframe: string, duration: string, whatToShow: string,
                   useCache: bool, now: real, file: Option<(V, real)>, fetched: Option<V>)
      returns (r: Option<V>)
      modifies this`cache, this`cacheExpiry
      ensures var key := CacheKey(symbol, timeframe, duration, whatToShow);
              old(MemoryHit(key, useCache, now)) ==>
                r == Some(old(cache)[key]) && cache == old(cache)
                && cacheExpiry == old(cacheExpiry)
      ensures var key := CacheKey(symbol, timeframe, duration, whatToShow);
              !old(MemoryHit(key, useCache, now)) && useCache && file.Some? && now < file.value.1
              ==> r == Some(file.value.0) && cache == old(cache)[key := file.value.0]
                  && cacheExpiry == old(cacheExpiry)[key := file.value.1]
      ensures var key := CacheKey(symbol, timeframe, duration, whatToShow);
              !old(MemoryHit(key, useCache, now)) && !(useCache && file.Some? && now < file.value.1)
              ==> r == fetched
                  && (fetched.None? ==> cache == old(cache) && cacheExpiry == old(cacheExpiry))
                  && (fetched.Some? ==>
                        cache == old(cache)[key := fetched.value]
                        && cacheExpiry == old(cacheExpiry)[key := FreshExpiry(
                             timeframe, now, NextCloseOf(Floor(now)), minuteExpiry)])
    {
      var key := CacheKey(symbol, timeframe, duration, whatToShow);
      if useCache && key in cache && key in cacheExpiry && now < cacheExpiry[key] {
        return Some(cache[key]);
      }
      if useCache && file.Some? && now < file.value.1 {
        cache := cache[key := file.value.0];
        cacheExpiry := cacheExpiry[key := file.value.1];
        return Some(file.value.0);
      }
      if fetched.None? {
        return None;
      }
      var close := NextMarketClose(Floor(now));
      NextCloseUnique(Floor(now), close);
      var expiry := FreshExpiry(timeframe, now, close, minuteExpiry);
      cache := cache[key := fetched.value];
      cacheExpiry := cacheExpiry[key := expiry];
      return fetched;
    }

    /** `clear_expired_cache`: removes exactly the entries whose expiry is strictly before
        `now` (an entry expiring at `now` stays) and answers how many. */
    method ClearExpiredCache(now: real) returns (count: nat)
      modifies this`cache, this`cacheExpiry
      ensures count == |ExpiredKeys(old(cacheExpiry), now)|
      ensures cacheExpiry == old(cacheExpiry) - ExpiredKeys(old(cacheExpiry), now)
      ensures cache == old(cache) - ExpiredKeys(old(cacheExpiry), now)
    {
      var expired := ExpiredKeys(cacheExpiry, now);
      cache, cacheExpiry := RemoveKeys(cache, cacheExpiry, expired);
      return |expired|;
    }

    /** `clear_cache` on the memory cache: "all" empties both maps and answers the previous
        number of entries; a known type removes exactly the cached keys containing its
        pattern and answers how many; an unknown type answers 0 and changes nothing. */
    method ClearCache(cacheType: string) returns (count: nat)
      modifies this`cache, this`cacheExpiry
      ensures cacheType == "all" ==>
                count == |old(cache)| && cache == map[] && cacheExpiry == map[]
      ensures cacheType != "all" && TypePattern(cacheType).None? ==>
                count == 0 && cache == old(cache) && cacheExpiry == old(cacheExpiry)
      ensures cacheType != "all" && TypePattern(cacheType).Some? ==>
                var matched := Matching(old(cache), TypePattern(cacheType).value);
                count == |matched| && cache == old(cache) - matched
                && cacheExpiry == old(cacheExpiry) - matched
    {
      if cacheType == "all" {
        count := |cache|;
        cache := map[];
        cacheExpiry := map[];
        return;
      }
      var pattern := TypePattern(cacheType);
      if pattern.None? {
        return 0;
      }
      var keysToRemove := FindMatching(cache, pattern.value);
      count := |keysToRemove|;
      cache, cacheExpiry := RemoveKeys(cache, cacheExpiry, keysToRemove);
    }
  }

  /** The cached keys that contain `pattern`. */
  function Matching<V>(cache: map<string, V>, pattern: string): (r: set<string>)
    ensures forall k :: k in r <==> k in cache && Contains(k, pattern)
  {
    set k | k in cache && Contains(k, pattern)
  }

  /** The loop of `clear_cache` that collects the keys containing the pattern. */
  method FindMatching<V>(cache: map<string, V>, pattern: string) returns (keys: set<string>)
    ensures keys == Matching(cache, pattern)
  {
    keys := {};
    var rest := cache.Keys;
    while rest != {}
      invariant rest <= cache.Keys
      invariant keys == Matching(cache, pattern) - rest
      decreases rest
    {
      var k :| k in rest;
      if Contains(k, pattern) {
        keys := keys + {k};
      }
      rest := rest - {k};
    }
  }

  /** The first weekday close strictly after `now`. */
  function NextCloseOf(now: int): (close: int)
    ensures close > now && IsWeekdayClose(close)
  {
    var day := if now % SecondsPerDay >= CloseSecond then now / SecondsPerDay + 1
               else now / SecondsPerDay;
    var skip := if Weekday(day) == 5 then 2 else if Weekday(day) == 6 then 1 else 0;
    assert Weekday(day + skip) < 5;
    (day + skip) * SecondsPerDay + CloseSecond
  }

  /** `NextMarketClose` computes `NextCloseOf`: the first weekday close after an instant is
      unique. */
  lemma NextCloseUnique(now: int, close: int)
    requires close > now && IsWeekdayClose(close)
    requires forall d :: now / SecondsPerDay <= d < close / SecondsPerDay && Weekday(d) < 5 ==>
               d * SecondsPerDay + CloseSecond <= now
    ensures close == NextCloseOf(now)
  {
    var c := NextCloseOf(now);
    var d1, d2 := close / SecondsPerDay, c / SecondsPerDay;
    assert close == d1 * SecondsPerDay + CloseSecond;
    assert c == d2 * SecondsPerDay + CloseSecond;
    assert d2 >= now / SecondsPerDay;
    assert d1 <= d2;
    if d1 < d2 {
      assert now / SecondsPerDay <= d1;
      NoCloseBefore(now, d1);
    }
  }

  /** No weekday close between `now` and `NextCloseOf(now)`. */
  lemma NoCloseBefore(now: int, d: int)
    requires now / SecondsPerDay <= d < NextCloseOf(now) / SecondsPerDay
    requires d * SecondsPerDay + CloseSecond > now
    ensures Weekday(d) >= 5
  {
  }
}
