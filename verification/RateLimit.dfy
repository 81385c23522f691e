/**
 The persistent token bucket and its eviction. Times are whole nanoseconds;
 token counts are exact reals.
 */
module RateLimit {
  import opened Prelude

  const NANOS_PER_SECOND: real := 1000000000.0

  datatype Config = Config(prefix: string, capacity: nat, refill: real)

  datatype Bucket = Bucket(tokens: real, updated: int)

  type Table = map<string, Bucket>

  predicate ConfigOk(c: Config) {
    c.refill > 0.0
  }

  function BucketKey(c: Config, key: string): string {
    c.prefix + ":" + key
  }

  /** How long an empty bucket takes to fill, truncated to whole nanoseconds. */
  function FullAfter(c: Config): int
    requires ConfigOk(c)
  {
    (NANOS_PER_SECOND * (c.capacity as real / c.refill)).Floor
  }

  /** Tokens regained over a span. */
  function Gain(c: Config, nanos: int): real {
    nanos as real / NANOS_PER_SECOND * c.refill
  }

  function Capped(c: Config, tokens: real): real {
    if tokens > c.capacity as real then c.capacity as real else tokens
  }

  /** Tokens a request at `now` finds: a full bucket is created for a key without one. */
  function Available(c: Config, t: Table, key: string, now: int): real {
    var k := BucketKey(c, key);
    if k in t then Capped(c, t[k].tokens + Gain(c, now - t[k].updated)) else c.capacity as real
  }

  function AfterRequest(c: Config, t: Table, key: string, now: int): Table {
    var tokens := Available(c, t, key, now);
    t[BucketKey(c, key) := Bucket(if tokens < 1.0 then tokens else tokens - 1.0, now)]
  }

  predicate Own(c: Config, k: string) {
    c.prefix + ":" <= k
  }

  function AfterEviction(c: Config, t: Table, now: int): Table
    requires ConfigOk(c)
  {
    map k | k in t && !(Own(c, k) && t[k].updated < now - FullAfter(c)) :: t[k]
  }

  class RateLimiter {
    const config: Config
    var buckets: Table

    constructor (config: Config)
      ensures this.config == config && buckets == map[]
    {
      this.config := config;
      buckets := map[];
    }

    method StoreBucket(k: string, tokens: real, now: int)
      modifies this`buckets
      ensures buckets == old(buckets)[k := Bucket(tokens, now)]
    {
      buckets := buckets[k := Bucket(tokens, now)];
    }

    method Allow(key: string, now: int) returns (allowed: bool)
      modifies this`buckets
      ensures allowed <==> Available(config, old(buckets), key, now) >= 1.0
      ensures buckets == AfterRequest(config, old(buckets), key, now)
    {
      var k := BucketKey(config, key);
      if k !in buckets {
        StoreBucket(k, config.capacity as real, now);
      }
      var tokens := buckets[k].tokens + Gain(config, now - buckets[k].updated);
      if tokens > config.capacity as real {
        tokens := config.capacity as real;
      }
      if tokens < 1.0 {
        StoreBucket(k, tokens, now);
        return false;
      }
      StoreBucket(k, tokens - 1.0, now);
      allowed := true;
    }

    method EvictExpired(now: int)
      requires ConfigOk(config)
      modifies this`buckets
      ensures buckets == AfterEviction(config, old(buckets), now)
      ensures forall k :: !Own(config, k) ==> (k in buckets <==> k in old(buckets)) && (k in buckets ==> buckets[k] == old(buckets)[k])
    {
      forall k | !Own(config, k) { EvictionSparesOthers(config, buckets, now, k); }
      var expired := set k | k in buckets && Own(config, k) && buckets[k].updated < now - FullAfter(config);
      buckets := buckets - expired;
    }
  }

  // ---- arithmetic of refilling ----

  lemma GainAdds(c: Config, m: int, n: int)
    ensures Gain(c, m + n) == Gain(c, m) + Gain(c, n)
  {
    var (x, y, r) := (m as real / NANOS_PER_SECOND, n as real / NANOS_PER_SECOND, c.refill);
    assert (m + n) as real / NANOS_PER_SECOND == x + y;
    assert (x + y) * r == x * r + y * r;
  }

  /** The refill rate is per second, and times are in nanoseconds. */
  lemma GainIs(c: Config, nanos: int)
    ensures Gain(c, nanos) == c.refill * nanos as real / 1000000000.0
  {
  }

  lemma GainGrows(c: Config, n: int)
    requires ConfigOk(c) && n >= 0
    ensures Gain(c, n) >= 0.0
  {
    assert n as real / NANOS_PER_SECOND >= 0.0;
  }

  /** The truncation is safe: any whole span longer than it really refills the bucket. */
  lemma IdleLongerIsFull(c: Config, n: int)
    requires ConfigOk(c) && n > FullAfter(c)
    ensures Gain(c, n) >= c.capacity as real
  {
    var (cap, r) := (c.capacity as real, c.refill);
    var full := cap / r;
    assert full * r == cap;
    assert n as real >= NANOS_PER_SECOND * full;
    var seconds := n as real / NANOS_PER_SECOND;
    assert seconds >= full;
    assert seconds * r >= full * r by { Scale(full, seconds, r); }
  }

  lemma Scale(x: real, y: real, r: real)
    requires x <= y && r > 0.0
    ensures x * r <= y * r
  {
  }

  // ---- the invariant ----

  /** Stored tokens stay within the capacity, and no bucket is from the future. */
  ghost predicate TableOk(c: Config, t: Table, now: int) {
    forall k <- t :: Own(c, k) ==> 0.0 <= t[k].tokens <= c.capacity as real && t[k].updated <= now
  }

  lemma AvailableBounds(c: Config, t: Table, key: string, now: int)
    requires ConfigOk(c) && TableOk(c, t, now)
    ensures 0.0 <= Available(c, t, key, now) <= c.capacity as real
  {
    var k := BucketKey(c, key);
    assert Own(c, k);
    if k in t { GainGrows(c, now - t[k].updated); }
  }

  /** Between requests availability grows by at most the refill, up to the capacity. */
  lemma AvailableLater(c: Config, t: Table, key: string, now: int, later: int)
    requires ConfigOk(c) && TableOk(c, t, now) && now <= later
    ensures Available(c, t, key, later) == Capped(c, Available(c, t, key, now) + Gain(c, later - now))
  {
    var k := BucketKey(c, key);
    assert Own(c, k);
    GainGrows(c, later - now);
    if k in t { GainAdds(c, now - t[k].updated, later - now); }
  }

  /** A request spends one token when it is allowed and none when it is denied; other keys are untouched. */
  lemma RequestSpends(c: Config, t: Table, key: string, now: int, other: string, later: int)
    requires ConfigOk(c) && TableOk(c, t, now) && now <= later
    ensures TableOk(c, AfterRequest(c, t, key, now), now)
    ensures var before := Available(c, t, key, now);
      Available(c, AfterRequest(c, t, key, now), other, later)
      == if other == key then Capped(c, (if before < 1.0 then before else before - 1.0) + Gain(c, later - now)) else Available(c, t, other, later)
  {
    AvailableBounds(c, t, key, now);
    if other != key {
      assert BucketKey(c, other)[|c.prefix| + 1..] == other && BucketKey(c, key)[|c.prefix| + 1..] == key;
    }
  }

  /** Evicting is invisible: every key has afterwards exactly the tokens it would have had. */
  lemma EvictionIsInvisible(c: Config, t: Table, now: int, key: string, later: int)
    requires ConfigOk(c) && TableOk(c, t, now) && now <= later
    ensures TableOk(c, AfterEviction(c, t, now), now)
    ensures Available(c, AfterEviction(c, t, now), key, later) == Available(c, t, key, later)
  {
    var k := BucketKey(c, key);
    assert Own(c, k);
    if k in t && t[k].updated < now - FullAfter(c) {
      IdleLongerIsFull(c, later - t[k].updated);
    }
  }

  /** Eviction leaves the buckets of other limiters in the same table alone. */
  lemma EvictionSparesOthers(c: Config, t: Table, now: int, k: string)
    requires ConfigOk(c) && !Own(c, k)
    ensures k in AfterEviction(c, t, now) <==> k in t
    ensures k in t ==> AfterEviction(c, t, now)[k] == t[k]
  {
  }

  // ---- histories ----

  /** What happens to the table, in the order the row locks impose. */
  datatype Event = Request(key: string, now: int) | Evict(now: int)

  function Next(c: Config, t: Table, e: Event, evicting: bool): Table
    requires ConfigOk(c)
  {
    match e
    case Request(key, now) => AfterRequest(c, t, key, now)
    case Evict(now) => if evicting then AfterEviction(c, t, now) else t
  }

  function Serve(c: Config, t: Table, events: seq<Event>, evicting: bool): Table
    requires ConfigOk(c)
  {
    if events == [] then t else Next(c, Serve(c, t, events[..|events| - 1], evicting), events[|events| - 1], evicting)
  }

  /** Whether the n-th event is a request that is allowed. */
  predicate Allowed(c: Config, t: Table, events: seq<Event>, n: nat, evicting: bool)
    requires ConfigOk(c) && n < |events|
  {
    events[n].Request? && Available(c, Serve(c, t, events[..n], evicting), events[n].key, events[n].now) >= 1.0
  }

  ghost predicate InOrder(events: seq<Event>, start: int) {
    && (forall i :: 0 <= i < |events| ==> start <= events[i].now)
    && (forall i, j :: 0 <= i < j < |events| ==> events[i].now <= events[j].now)
  }

  function Last(events: seq<Event>, start: int): int {
    if events == [] then start else events[|events| - 1].now
  }

  lemma OrderOfPrefix(events: seq<Event>, start: int)
    requires InOrder(events, start) && events != []
    ensures var n := |events| - 1; InOrder(events[..n], start) && Last(events[..n], start) <= events[n].now
  {
  }

  lemma NextOk(c: Config, t: Table, e: Event, evicting: bool, before: int)
    requires ConfigOk(c) && TableOk(c, t, before) && before <= e.now
    ensures TableOk(c, Next(c, t, e, evicting), e.now)
  {
    assert TableOk(c, t, e.now);
    if e.Request? { RequestSpends(c, t, e.key, e.now, e.key, e.now); }
  }

  /** Tokens stay in [0, capacity] whatever is requested and evicted. */
  lemma {:induction false} ServeKeeps(c: Config, t: Table, events: seq<Event>, evicting: bool, start: int)
    requires ConfigOk(c) && TableOk(c, t, start) && InOrder(events, start)
    ensures TableOk(c, Serve(c, t, events, evicting), Last(events, start))
  {
    if events != [] {
      var n := |events| - 1;
      OrderOfPrefix(events, start);
      ServeKeeps(c, t, events[..n], evicting, start);
      NextOk(c, Serve(c, t, events[..n], evicting), events[n], evicting, Last(events[..n], start));
    }
  }

  ghost predicate SameFrom(c: Config, t: Table, u: Table, now: int) {
    forall key, later: int :: now <= later ==> Available(c, t, key, later) == Available(c, u, key, later)
  }

  lemma NextSame(c: Config, t: Table, u: Table, e: Event, before: int)
    requires ConfigOk(c) && TableOk(c, t, before) && TableOk(c, u, before) && before <= e.now && SameFrom(c, t, u, before)
    ensures SameFrom(c, Next(c, t, e, true), Next(c, u, e, false), e.now)
  {
    assert TableOk(c, t, e.now) && TableOk(c, u, e.now);
    var (t', u') := (Next(c, t, e, true), Next(c, u, e, false));
    forall key, later: int | e.now <= later ensures Available(c, t', key, later) == Available(c, u', key, later) {
      assert Available(c, t, key, later) == Available(c, u, key, later);
      match e
      case Request(k, now) =>
        assert Available(c, t, k, now) == Available(c, u, k, now);
        RequestSpends(c, t, k, now, key, later);
        RequestSpends(c, u, k, now, key, later);
      case Evict(now) =>
        EvictionIsInvisible(c, t, now, key, later);
    }
  }

  lemma {:induction false} ServeSame(c: Config, t: Table, events: seq<Event>, start: int)
    requires ConfigOk(c) && TableOk(c, t, start) && InOrder(events, start)
    ensures SameFrom(c, Serve(c, t, events, true), Serve(c, t, events, false), Last(events, start))
  {
    if events != [] {
      var n := |events| - 1;
      OrderOfPrefix(events, start);
      ServeSame(c, t, events[..n], start);
      ServeKeeps(c, t, events[..n], true, start);
      ServeKeeps(c, t, events[..n], false, start);
      NextSame(c, Serve(c, t, events[..n], true), Serve(c, t, events[..n], false), events[n], Last(events[..n], start));
    }
  }

  /** With times in lock order, deleting idle buckets never changes an answer. */
  lemma EvictionNeverChangesAnAnswer(c: Config, t: Table, events: seq<Event>, start: int, n: nat)
    requires ConfigOk(c) && TableOk(c, t, start) && InOrder(events, start) && n < |events|
    ensures Allowed(c, t, events, n, true) <==> Allowed(c, t, events, n, false)
  {
    assert InOrder(events[..n], start) && Last(events[..n], start) <= events[n].now;
    ServeSame(c, t, events[..n], start);
    hide Available, Serve;
    if events[n].Request? {
      var (a, b) := (Serve(c, t, events[..n], true), Serve(c, t, events[..n], false));
      assert Available(c, a, events[n].key, events[n].now) == Available(c, b, events[n].key, events[n].now);
    }
  }

  // ---- the window bound ----

  /** Requests of a key allowed from the m-th event up to the n-th. */
  function Grants(c: Config, t: Table, events: seq<Event>, key: string, m: nat, n: nat): nat
    requires ConfigOk(c) && m <= n <= |events|
    decreases n
  {
    if n == m then 0
    else Grants(c, t, events, key, m, n - 1) + if Allowed(c, t, events, n - 1, true) && events[n - 1].key == key then 1 else 0
  }

  /** What is granted is paid from what the window started with and what it regained. */
  lemma {:induction false} GrantsArePaid(c: Config, t: Table, events: seq<Event>, key: string, start: int, m: nat, n: nat)
    requires ConfigOk(c) && TableOk(c, t, start) && InOrder(events, start) && m < n <= |events|
    ensures var s := events[m].now; var e := events[n - 1].now;
      Grants(c, t, events, key, m, n) as real + Available(c, Serve(c, t, events[..n], true), key, e)
      <= Available(c, Serve(c, t, events[..m], true), key, s) + Gain(c, e - s)
    decreases n
  {
    hide Serve, Available, Next, Gain, InOrder, TableOk;
    var before, reached := ServeStep(c, t, events, start, n);
    var (s, e) := (events[m].now, events[n - 1]);
    StepIsPaid(c, before, e, key, reached);
    if n == m + 1 {
      GainZero(c);
      assert Grants(c, t, events, key, m, m) == 0;
    } else {
      GrantsArePaid(c, t, events, key, start, m, n - 1);
      AvailableLater(c, before, key, reached, e.now);
      GainAdds(c, reached - s, e.now - reached);
    }
  }

  lemma GainZero(c: Config)
    ensures Gain(c, 0) == 0.0
  {
  }

  lemma ServeStep(c: Config, t: Table, events: seq<Event>, start: int, n: nat) returns (before: Table, reached: int)
    requires ConfigOk(c) && TableOk(c, t, start) && InOrder(events, start) && 0 < n <= |events|
    ensures before == Serve(c, t, events[..n - 1], true) && Serve(c, t, events[..n], true) == Next(c, before, events[n - 1], true)
    ensures reached == Last(events[..n - 1], start) && TableOk(c, before, reached) && reached <= events[n - 1].now
    ensures n > 1 ==> reached == events[n - 2].now
  {
    before := Serve(c, t, events[..n - 1], true);
    reached := Last(events[..n - 1], start);
    assert events[..n][..n - 1] == events[..n - 1];
    assert InOrder(events[..n - 1], start);
    ServeKeeps(c, t, events[..n - 1], true, start);
  }

  /** One event leaves the tokens it found, less the one it may have granted. */
  lemma StepIsPaid(c: Config, t: Table, e: Event, key: string, before: int)
    requires ConfigOk(c) && TableOk(c, t, before) && before <= e.now
    ensures var granted := if e.Request? && Available(c, t, e.key, e.now) >= 1.0 && e.key == key then 1.0 else 0.0;
      Available(c, Next(c, t, e, true), key, e.now) == Available(c, t, key, e.now) - granted
  {
    assert TableOk(c, t, e.now);
    match e
    case Request(k, now) =>
      RequestSpends(c, t, k, now, key, now);
      AvailableBounds(c, t, k, now);
      assert Gain(c, 0) == 0.0;
    case Evict(now) =>
      EvictionIsInvisible(c, t, now, key, now);
  }

  /** In any window a key is granted at most the capacity plus what the window refills, evictions or not. */
  lemma WindowBound(c: Config, t: Table, events: seq<Event>, key: string, start: int, m: nat, n: nat)
    requires ConfigOk(c) && TableOk(c, t, start) && InOrder(events, start) && m < n <= |events|
    ensures Grants(c, t, events, key, m, n) as real <= c.capacity as real + c.refill * (events[n - 1].now - events[m].now) as real / 1000000000.0
  {
    hide Serve, Available, Gain, Grants;
    GainIs(c, events[n - 1].now - events[m].now);
    GrantsArePaid(c, t, events, key, start, m, n);
    ServeKeeps(c, t, events[..n], true, start);
    assert Last(events[..n], start) == events[n - 1].now;
    AvailableBounds(c, Serve(c, t, events[..n], true), key, events[n - 1].now);
    assert InOrder(events[..m], start) && Last(events[..m], start) <= events[m].now;
    ServeKeeps(c, t, events[..m], true, start);
    assert TableOk(c, Serve(c, t, events[..m], true), events[m].now);
    AvailableBounds(c, Serve(c, t, events[..m], true), key, events[m].now);
  }

  // ---- the limiter as a bucket of one key ----

  function Smaller(x: real, y: real): real {
    if x < y then x else y
  }

  /** What is available later is the smaller of the capacity and what was available plus the refill of the span. */
  lemma RefillIsExact(c: Config, t: Table, key: string, now: int, later: int)
    requires ConfigOk(c) && TableOk(c, t, now) && now <= later
    ensures Available(c, t, key, later) == Smaller(c.capacity as real, Available(c, t, key, now) + c.refill * (later - now) as real / 1000000000.0)
  {
    AvailableLater(c, t, key, now, later);
    GainIs(c, later - now);
  }

  /** A bucket of the limiter is evicted exactly when its idle time alone would have filled it from empty. */
  lemma EvictedIff(c: Config, t: Table, key: string, now: int)
    requires ConfigOk(c) && c.prefix + ":" + key in t
    ensures var k := c.prefix + ":" + key;
      && (k !in AfterEviction(c, t, now) <==> c.refill * (now - t[k].updated) as real / 1000000000.0 > c.capacity as real)
      && (k in AfterEviction(c, t, now) ==> AfterEviction(c, t, now)[k] == t[k])
  {
    var k := c.prefix + ":" + key;
    var idle := now - t[k].updated;
    assert Own(c, k);
    IdleAgainstFull(c, idle);
  }

  lemma IdleAgainstFull(c: Config, idle: int)
    requires ConfigOk(c)
    ensures idle > FullAfter(c) <==> c.refill * idle as real / 1000000000.0 > c.capacity as real
  {
    var (cap, r, x) := (c.capacity as real, c.refill, idle as real / 1000000000.0);
    var full := cap / r;
    assert full * r == cap;
    assert r * idle as real / 1000000000.0 == x * r;
    assert idle > FullAfter(c) <==> idle as real > 1000000000.0 * full;
    assert idle as real > 1000000000.0 * full <==> x > full;
    if x > full { ScaleStrictly(full, x, r); } else { Scale(x, full, r); }
  }

  lemma ScaleStrictly(x: real, y: real, r: real)
    requires x < y && r > 0.0
    ensures x * r < y * r
  {
  }

  /** Tokens of a key as if it were alone and nothing were ever evicted: full at first, one spent by each request that finds one. */
  function Level(c: Config, events: seq<Event>, key: string, now: int): real {
    if events == [] then c.capacity as real
    else
      var (before, e) := (events[..|events| - 1], events[|events| - 1]);
      if e.Request? && e.key == key then
        var found := Level(c, before, key, e.now);
        Smaller(c.capacity as real, (if found >= 1.0 then found - 1.0 else found) + c.refill * (now - e.now) as real / 1000000000.0)
      else Level(c, before, key, now)
  }

  lemma {:induction false} TableHoldsLevels(c: Config, events: seq<Event>, start: int, key: string, now: int)
    requires ConfigOk(c) && InOrder(events, start) && Last(events, start) <= now
    ensures Available(c, Serve(c, map[], events, true), key, now) == Level(c, events, key, now)
  {
    hide Available, Serve, AfterRequest, AfterEviction, InOrder, TableOk;
    if events == [] {
      NothingServed(c, key, now);
    } else {
      var before, reached := ServedBefore(c, events, start);
      var (n, e) := (|events| - 1, events[|events| - 1]);
      if e.Request? {
        TableHoldsLevels(c, events[..n], start, e.key, e.now);
        TableLater(c, before, reached, e.now);
        RequestSpends(c, before, e.key, e.now, key, now);
        GainIs(c, now - e.now);
      } else {
        TableLater(c, before, reached, e.now);
        EvictionIsInvisible(c, before, e.now, key, now);
      }
      if !(e.Request? && e.key == key) { TableHoldsLevels(c, events[..n], start, key, now); }
    }
  }

  lemma NothingServed(c: Config, key: string, now: int)
    requires ConfigOk(c)
    ensures Available(c, Serve(c, map[], [], true), key, now) == c.capacity as real
  {
  }

  lemma TableLater(c: Config, t: Table, now: int, later: int)
    requires TableOk(c, t, now) && now <= later
    ensures TableOk(c, t, later)
  {
  }

  lemma ServedBefore(c: Config, events: seq<Event>, start: int) returns (before: Table, reached: int)
    requires ConfigOk(c) && InOrder(events, start) && events != []
    ensures before == Serve(c, map[], events[..|events| - 1], true)
    ensures Serve(c, map[], events, true) == Next(c, before, events[|events| - 1], true)
    ensures reached == Last(events[..|events| - 1], start) && TableOk(c, before, reached) && reached <= events[|events| - 1].now
    ensures InOrder(events[..|events| - 1], start) && Last(events[..|events| - 1], start) <= events[|events| - 1].now == Last(events, start)
  {
    var n := |events| - 1;
    OrderOfPrefix(events, start);
    ServeKeeps(c, map[], events[..n], true, start);
    before, reached := Serve(c, map[], events[..n], true), Last(events[..n], start);
  }

  /** From the empty table on, whatever is evicted and whoever else asks, a request is allowed exactly when its key's own bucket has a token. */
  lemma AllowedIffLevel(c: Config, events: seq<Event>, start: int, n: nat)
    requires ConfigOk(c) && InOrder(events, start) && n < |events| && events[n].Request?
    ensures Allowed(c, map[], events, n, true) <==> Level(c, events[..n], events[n].key, events[n].now) >= 1.0
  {
    assert InOrder(events[..n], start) && Last(events[..n], start) <= events[n].now;
    TableHoldsLevels(c, events[..n], start, events[n].key, events[n].now);
    hide Available, Serve, Level;
  }
}
