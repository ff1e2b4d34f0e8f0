// The Proxy pattern: a protection proxy that filters and logs web access, a
// caching proxy in front of an expensive weather service, and a virtual proxy
// that loads an image only when it is first displayed.
module Proxy {
  import Text

  // ---------------------------------------------------------------------
  // Protection proxy
  // ---------------------------------------------------------------------

  const BlockedSites: seq<string> := ["facebook.com", "twitter.com", "instagram.com", "tiktok.com", "reddit.com"]

  /** Some blocked site occurs in the lower-cased URL. */
  predicate IsBlocked(url: string)
  {
    exists j :: 0 <= j < |BlockedSites| && Text.Contains(Text.Lower(url), BlockedSites[j])
  }

  datatype AccessStatus = Blocked | Allowed

  /** One access-log entry; the wall-clock time is not part of this model. */
  datatype LogEntry = LogEntry(url: string, status: AccessStatus)

  /** `RealInternet.connect_to`. */
  function ConnectReply(url: string): string
  {
    "🌐 Connected to " + url
  }

  function BlockedReply(url: string): string
  {
    "🚫 Access BLOCKED: " + url + " is not allowed!"
  }

  class InternetProxy {
    var log: seq<LogEntry>

    constructor ()
      ensures log == []
    {
      log := [];
    }

    /** Every call logs exactly one entry and blocks iff a blocked site occurs in the URL. */
    method ConnectTo(url: string) returns (msg: string)
      modifies this
      ensures IsBlocked(url) ==> log == old(log) + [LogEntry(url, Blocked)] && msg == BlockedReply(url)
      ensures !IsBlocked(url) ==> log == old(log) + [LogEntry(url, Allowed)] && msg == ConnectReply(url)
    {
      var lowered := Text.Lower(url);
      var i := 0;
      while i < |BlockedSites|
        invariant 0 <= i <= |BlockedSites|
        invariant forall j :: 0 <= j < i ==> !Text.Contains(lowered, BlockedSites[j])
        invariant log == old(log)
      {
        if Text.Contains(lowered, BlockedSites[i]) {
          log := log + [LogEntry(url, Blocked)];
          return BlockedReply(url);
        }
        i := i + 1;
      }
      log := log + [LogEntry(url, Allowed)];
      msg := ConnectReply(url);
    }

    /** A copy of the log: a Dafny sequence is a value, so the caller cannot change the proxy's log through it. */
    method GetAccessLog() returns (entries: seq<LogEntry>)
      ensures entries == log
    {
      entries := log;
    }
  }

  /** Blocking ignores case: an upper-case spelling of a blocked address is blocked too. */
  lemma BlockingIgnoresCase(a: string, b: string)
    requires Text.Lower(a) == Text.Lower(b)
    ensures IsBlocked(a) <==> IsBlocked(b)
  {
  }

  /** A URL that contains a blocked site, whatever surrounds it, is blocked. */
  lemma EmbeddedSiteBlocked(prefix: string, j: nat, suffix: string)
    requires j < |BlockedSites|
    requires forall i :: 0 <= i < |BlockedSites[j]| ==> !Text.IsUpperLetter(BlockedSites[j][i])
    ensures IsBlocked(prefix + BlockedSites[j] + suffix)
  {
    var site := BlockedSites[j];
    var url := prefix + site + suffix;
    var low := Text.Lower(url);
    assert low[|prefix|..|prefix| + |site|] == site by {
      forall i | 0 <= i < |site|
        ensures low[|prefix| + i] == site[i]
      {
        assert url[|prefix| + i] == site[i];
      }
    }
    Text.ContainsAt(low, site, |prefix|);
  }

  // ---------------------------------------------------------------------
  // Caching proxy
  // ---------------------------------------------------------------------

  /** Where a weather result came from; rendering the age as text is not part of this model. */
  datatype Source = Live | Cached(age: real)

  datatype Weather = Weather(city: string, temperature: int, condition: string, humidity: int, source: Source)

  /** The fixed reading the real service returns. */
  function LiveWeather(city: string): Weather
  {
    Weather(city, 22, "Sunny", 45, Live)
  }

  class RealWeatherAPI {
    var callCount: nat

    constructor ()
      ensures callCount == 0
    {
      callCount := 0;
    }

    method GetWeather(city: string) returns (w: Weather)
      modifies this
      ensures callCount == old(callCount) + 1 && w == LiveWeather(city)
    {
      callCount := callCount + 1;
      w := LiveWeather(city);
    }
  }

  /** The proxy's cache, its time stamps, its counters and the real service's call counter. */
  datatype CacheState = CacheState(cache: map<string, Weather>, stamps: map<string, real>, hits: nat, misses: nat, calls: nat)

  /** The cache's two tables have the same keys, and every miss made exactly one real call. */
  predicate CacheValid(s: CacheState)
  {
    s.cache.Keys == s.stamps.Keys && s.misses == s.calls
  }

  /** A key is served from the cache iff it is present and younger than the time to live. */
  predicate IsHit(s: CacheState, key: string, ttl: int, now: real)
    requires CacheValid(s)
  {
    key in s.cache && now - s.stamps[key] < ttl as real
  }

  datatype Lookup = Lookup(next: CacheState, result: Weather)

  /** `CachingWeatherProxy.get_weather(city)` at time `now`. */
  function GetWeatherStep(s: CacheState, city: string, ttl: int, now: real): (o: Lookup)
    requires CacheValid(s)
    ensures CacheValid(o.next)
    ensures IsHit(s, Text.Lower(city), ttl, now) ==>
      o.next == s.(hits := s.hits + 1) && o.result == s.cache[Text.Lower(city)].(source := Cached(now - s.stamps[Text.Lower(city)]))
    ensures !IsHit(s, Text.Lower(city), ttl, now) ==>
      o.result == LiveWeather(city) && o.next.hits == s.hits && o.next.misses == s.misses + 1 &&
      o.next.cache == s.cache[Text.Lower(city) := LiveWeather(city)] && o.next.stamps == s.stamps[Text.Lower(city) := now]
  {
    var key := Text.Lower(city);
    if IsHit(s, key, ttl, now) then
      Lookup(s.(hits := s.hits + 1), s.cache[key].(source := Cached(now - s.stamps[key])))
    else
      var w := LiveWeather(city);
      Lookup(CacheState(s.cache[key := w], s.stamps[key := now], s.hits, s.misses + 1, s.calls + 1), w)
  }

  /** Lookups of these cities at these times, in order. */
  function GetWeatherRun(s: CacheState, cities: seq<string>, times: seq<real>, ttl: int): (r: CacheState)
    requires CacheValid(s) && |cities| == |times|
    ensures CacheValid(r)
    decreases |cities|
  {
    if cities == [] then s
    else GetWeatherRun(GetWeatherStep(s, cities[0], ttl, times[0]).next, cities[1..], times[1..], ttl)
  }

  /** Every lookup is either a hit or a miss, and only misses reach the real service. */
  lemma {:induction false} RunCountsLookups(s: CacheState, cities: seq<string>, times: seq<real>, ttl: int)
    requires CacheValid(s) && |cities| == |times|
    ensures var r := GetWeatherRun(s, cities, times, ttl);
      r.hits + r.misses == s.hits + s.misses + |cities| && r.calls == r.misses
    decreases |cities|
  {
    if cities != [] {
      RunCountsLookups(GetWeatherStep(s, cities[0], ttl, times[0]).next, cities[1..], times[1..], ttl);
    }
  }

  /**
   * A lookup made less than the time to live after a miss is a hit, for any
   * spelling of the city that lower-cases to the same key, and it returns the
   * reading the miss stored.
   */
  lemma HitAfterMiss(s: CacheState, a: string, b: string, ttl: int, t1: real, t2: real)
    requires CacheValid(s)
    requires !IsHit(s, Text.Lower(a), ttl, t1)
    requires Text.Lower(a) == Text.Lower(b) && t2 - t1 < ttl as real
    ensures var s1 := GetWeatherStep(s, a, ttl, t1).next;
      IsHit(s1, Text.Lower(b), ttl, t2) && GetWeatherStep(s1, b, ttl, t2).result == LiveWeather(a).(source := Cached(t2 - t1))
  {
  }

  /** A hit changes neither the cache nor the real service's counter. */
  lemma HitChangesNoCache(s: CacheState, city: string, ttl: int, now: real)
    requires CacheValid(s) && IsHit(s, Text.Lower(city), ttl, now)
    ensures var n := GetWeatherStep(s, city, ttl, now).next;
      n.cache == s.cache && n.stamps == s.stamps && n.calls == s.calls
  {
  }

  class CachingWeatherProxy {
    const realApi: RealWeatherAPI
    const ttl: int
    var cache: map<string, Weather>
    var stamps: map<string, real>
    var hits: nat
    var misses: nat

    function State(): CacheState
      reads this, realApi
    {
      CacheState(cache, stamps, hits, misses, realApi.callCount)
    }

    ghost predicate Valid()
      reads this, realApi
    {
      CacheValid(State())
    }

    constructor (ttl: int)
      ensures fresh(realApi) && this.ttl == ttl && Valid()
      ensures State() == CacheState(map[], map[], 0, 0, 0)
    {
      realApi := new RealWeatherAPI();
      this.ttl := ttl;
      cache := map[];
      stamps := map[];
      hits := 0;
      misses := 0;
    }

    /** The clock reading `now`, in seconds, is passed in by the caller. */
    method GetWeather(city: string, now: real) returns (w: Weather)
      requires Valid()
      modifies this, realApi
      ensures Valid()
      ensures State() == GetWeatherStep(old(State()), city, ttl, now).next
      ensures w == GetWeatherStep(old(State()), city, ttl, now).result
    {
      var key := Text.Lower(city);
      if key in cache {
        var age := now - stamps[key];
        if age < ttl as real {
          hits := hits + 1;
          return cache[key].(source := Cached(age));
        }
      }
      misses := misses + 1;
      w := realApi.GetWeather(city);
      cache := cache[key := w];
      stamps := stamps[key := now];
    }

    /** `get_stats`: hits, misses and real calls; the last two are always equal. */
    method GetStats() returns (cacheHits: nat, cacheMisses: nat, realCalls: nat)
      requires Valid()
      ensures cacheHits == hits && cacheMisses == misses && realCalls == realApi.callCount
      ensures cacheMisses == realCalls
    {
      cacheHits, cacheMisses, realCalls := hits, misses, realApi.callCount;
    }
  }

  // ---------------------------------------------------------------------
  // Virtual proxy
  // ---------------------------------------------------------------------

  function DisplayReply(filename: string): string
  {
    "🖼️  Displaying " + filename
  }

  /** An image that is loaded from disk when it is created. */
  class RealImage {
    const filename: string
    var loaded: bool
    var data: string

    constructor (filename: string)
      ensures this.filename == filename && loaded && data == "[Image data for " + filename + "]"
    {
      this.filename := filename;
      loaded := true;
      data := "[Image data for " + filename + "]";
    }

    method Display() returns (msg: string)
      ensures msg == DisplayReply(filename)
    {
      msg := DisplayReply(filename);
    }
  }

  class LazyImageProxy {
    const filename: string
    var realImage: RealImage?
    /** How many times a real image was created. */
    ghost var loads: nat

    ghost predicate Valid()
      reads this, realImage
    {
      (realImage == null ==> loads == 0) &&
      (realImage != null ==> loads == 1 && realImage.filename == filename && realImage.loaded)
    }

    constructor (filename: string)
      ensures this.filename == filename && realImage == null && Valid()
    {
      this.filename := filename;
      realImage := null;
      loads := 0;
    }

    /** The first call loads the image; later calls reuse it, so it is loaded at most once. */
    method Display() returns (msg: string)
      requires Valid()
      modifies this
      ensures Valid() && realImage != null && loads == 1
      ensures old(realImage) != null ==> realImage == old(realImage)
      ensures old(realImage) == null ==> fresh(realImage)
      ensures msg == DisplayReply(filename)
    {
      if realImage == null {
        realImage := new RealImage(filename);
        loads := loads + 1;
      }
      msg := realImage.Display();
    }
  }
}
