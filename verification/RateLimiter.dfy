/** The fixed-window rate limiter over shared Redis counters. Times and durations are in nanoseconds. */
module RateLimiter {
  import opened Types

  const SECOND: nat := 1_000_000_000

  /** The Unix epoch, in seconds since the zero time that windows are counted from. */
  const EPOCH: int := 62135596800

  /** `expiresAt` is `None` for a key without a time to live. */
  datatype Counter = Counter(count: nat, expiresAt: Option<nat>)

  datatype Fault = NoFault | IncrFails | ExpireFails

  datatype Reply =
    | Verdict(allowed: bool, limit: int, remaining: nat, retryAfter: nat)
    | Unavailable

  /** now.Truncate(window); a window that is not positive truncates nothing. */
  function WindowStart(now: nat, window: nat): (r: nat)
    ensures r <= now
    ensures window > 0 ==> now < r + window
  {
    if window == 0 then now else now - now % window
  }

  function Unix(t: nat): int {
    t / SECOND - EPOCH
  }

  /** 1970 began after 1969 years and their leap days, and there Unix time is zero. */
  lemma EpochIs1970()
    ensures var days := 1969 * 365 + 1969 / 4 - 1969 / 100 + 1969 / 400;
      Unix(days * 86_400 * SECOND) == 0
  {
  }

  /******* Keys *******/

  function Decimal(n: nat): (s: string)
    ensures |s| > 0 && ':' !in s && '-' !in s
  {
    if n < 10 then [(48 + n) as char] else Decimal(n / 10) + [(48 + n % 10) as char]
  }

  function Signed(n: int): (s: string)
    ensures ':' !in s
  {
    if n < 0 then "-" + Decimal(-n) else Decimal(n)
  }

  function Value(s: string): int {
    if s == "" then 0 else 10 * Value(s[..|s| - 1]) + (s[|s| - 1] as int - 48)
  }

  function SignedValue(s: string): int {
    if s != "" && s[0] == '-' then -Value(s[1..]) else Value(s)
  }

  lemma {:induction false} DecimalRoundTrip(n: nat)
    ensures Value(Decimal(n)) == n
  {
    var s := Decimal(n);
    if n < 10 {
      assert s[..|s| - 1] == "";
    } else {
      DecimalRoundTrip(n / 10);
      assert s[..|s| - 1] == Decimal(n / 10);
    }
  }

  lemma SignedRoundTrip(n: int)
    ensures SignedValue(Signed(n)) == n
  {
    DecimalRoundTrip(if n < 0 then -n else n);
    if n < 0 {
      assert Signed(n)[1..] == Decimal(-n);
    }
  }

  /** What stands before the first colon of a text, and what stands after the last one. */
  function BeforeColon(s: string): string {
    if s == "" || s[0] == ':' then "" else [s[0]] + BeforeColon(s[1..])
  }

  function AfterColon(s: string): string {
    if s == "" || s[|s| - 1] == ':' then "" else AfterColon(s[..|s| - 1]) + [s[|s| - 1]]
  }

  lemma {:induction false} FirstColon(a: string, x: string)
    requires ':' !in a
    ensures BeforeColon(a + ":" + x) == a
  {
    if a != "" {
      FirstColon(a[1..], x);
      assert (a + ":" + x)[1..] == a[1..] + ":" + x;
    } else {
      assert a + ":" + x == ":" + x;
    }
  }

  lemma {:induction false} LastColon(a: string, x: string)
    requires ':' !in x
    ensures AfterColon(a + ":" + x) == x
  {
    var s := a + ":" + x;
    if x != "" {
      LastColon(a, x[..|x| - 1]);
      assert s[..|s| - 1] == a + ":" + x[..|x| - 1];
    } else {
      assert s == a + ":";
    }
  }

  function RedisKey(scope: string, key: string, start: nat): string {
    "rate_limit:" + scope + ":" + key + ":" + Signed(Unix(start))
  }

  function ScopeOf(text: string): string {
    if |text| < 11 then "" else BeforeColon(text[11..])
  }

  function KeyOf(text: string): string {
    var lo, hi := 12 + |ScopeOf(text)|, |text| - |AfterColon(text)| - 1;
    if lo <= hi <= |text| then text[lo..hi] else ""
  }

  function SecondOf(text: string): int {
    SignedValue(AfterColon(text))
  }

  lemma ScopeRoundTrip(scope: string, key: string, start: nat)
    requires ':' !in scope
    ensures ScopeOf(RedisKey(scope, key, start)) == scope
  {
    var rest := key + ":" + Signed(Unix(start));
    FirstColon(scope, rest);
    assert RedisKey(scope, key, start)[11..] == scope + ":" + rest;
  }

  lemma SecondRoundTrip(scope: string, key: string, start: nat)
    ensures AfterColon(RedisKey(scope, key, start)) == Signed(Unix(start))
    ensures SecondOf(RedisKey(scope, key, start)) == Unix(start)
  {
    LastColon("rate_limit:" + scope + ":" + key, Signed(Unix(start)));
    SignedRoundTrip(Unix(start));
  }

  /** Scope, key and second of the window can be read off a counter's name, so nobody else shares it. */
  lemma RedisKeyRoundTrip(scope: string, key: string, start: nat)
    requires ':' !in scope
    ensures var text := RedisKey(scope, key, start);
      && text[..11] == "rate_limit:"
      && ScopeOf(text) == scope && KeyOf(text) == key && SecondOf(text) == Unix(start)
  {
    hide BeforeColon, AfterColon, ScopeOf, SecondOf, Signed, Unix;
    ScopeRoundTrip(scope, key, start);
    SecondRoundTrip(scope, key, start);
    var text := RedisKey(scope, key, start);
    assert |text| == 13 + |scope| + |key| + |Signed(Unix(start))|;
    assert text[12 + |scope|..12 + |scope| + |key|] == key;
  }

  /** Different windows start in different seconds exactly if a window lasts at least one second. */
  lemma WindowsHaveOwnSeconds(window: nat)
    requires window > 0
    ensures (forall s: nat, t: nat | WindowStart(s, window) != WindowStart(t, window) ::
               Unix(WindowStart(s, window)) != Unix(WindowStart(t, window)))
            <==> window >= SECOND
  {
    if window >= SECOND {
      forall s: nat, t: nat | WindowStart(s, window) < WindowStart(t, window)
        ensures Unix(WindowStart(s, window)) < Unix(WindowStart(t, window))
      {
        WindowsApart(s, t, window);
      }
    } else {
      assert WindowStart(0, window) == 0 && WindowStart(window, window) == window;
      assert Unix(WindowStart(0, window)) == Unix(WindowStart(window, window));
    }
  }

  lemma Multiply(w: nat, a: nat, b: nat)
    requires a < b
    ensures w * a + w <= w * b
  {
    assert w * b == w * a + w * (b - a);
    assert w * (b - a) == w + w * (b - a - 1);
  }

  /** Window starts are multiples of the window, so two different ones are a whole window apart. */
  lemma WindowsApart(s: nat, t: nat, window: nat)
    requires window > 0 && WindowStart(s, window) < WindowStart(t, window)
    ensures WindowStart(s, window) + window <= WindowStart(t, window)
  {
    var m, n := s / window, t / window;
    assert WindowStart(s, window) == window * m && WindowStart(t, window) == window * n;
    if m < n {
      Multiply(window, m, n);
    } else {
      NotLess(window, n, m);
    }
  }

  lemma NotLess(w: nat, a: nat, b: nat)
    requires a <= b
    ensures w * a <= w * b
  {
    assert w * b == w * a + w * (b - a);
  }

  /******* One call *******/

  type Store = map<string, Counter>

  datatype Call = Call(scope: string, key: string, now: nat, fault: Fault)

  predicate Live(store: Store, name: string, now: nat) {
    name in store && (store[name].expiresAt.Some? ==> now < store[name].expiresAt.value)
  }

  /** Redis INCR: a missing or expired key starts at zero and has no time to live. */
  function Increased(store: Store, name: string, now: nat): Counter {
    if Live(store, name, now) then Counter(store[name].count + 1, store[name].expiresAt) else Counter(1, None)
  }

  function Answer(limit: int, window: nat, now: nat, count: nat): Reply {
    Verdict(count <= limit, limit, if limit - count < 0 then 0 else limit - count,
            WindowStart(now, window) + window - now)
  }

  /** The Redis client sends a time to live in whole seconds. */
  function Lifetime(ttl: nat): nat {
    ttl / SECOND * SECOND
  }

  /** Allow as one function of the shared counters: the counters afterwards and the reply. */
  function Serve(store: Store, limit: int, window: nat, c: Call): (Store, Reply) {
    var name := RedisKey(c.scope, c.key, WindowStart(c.now, window));
    var hit := Increased(store, name, c.now);
    if c.fault.IncrFails? then (store, Unavailable)
    else if hit.count == 1 && c.fault.ExpireFails? then (store[name := hit], Unavailable)
    else
      var kept := if hit.count == 1 then hit.(expiresAt := Some(c.now + Lifetime(window + SECOND))) else hit;
      (store[name := kept], Answer(limit, window, c.now, hit.count))
  }

  /** The limiter over its Redis client; `now` is the sampled time, `fault` what Redis does. */
  class Limiter {
    var redis: Store

    constructor ()
      ensures redis == map[]
    {
      redis := map[];
    }

    method Incr(name: string, now: nat, fault: Fault) returns (count: nat, ok: bool)
      modifies this
      ensures ok == !fault.IncrFails?
      ensures redis == if ok then old(redis)[name := Increased(old(redis), name, now)] else old(redis)
      ensures ok ==> count == redis[name].count
    {
      ok := !fault.IncrFails?;
      count := 0;
      if ok {
        redis := redis[name := Increased(redis, name, now)];
        count := redis[name].count;
      }
    }

    method Expire(name: string, now: nat, ttl: nat, fault: Fault) returns (ok: bool)
      requires name in redis
      modifies this
      ensures ok == !fault.ExpireFails?
      ensures redis == if ok then old(redis)[name := old(redis)[name].(expiresAt := Some(now + Lifetime(ttl)))] else old(redis)
    {
      ok := !fault.ExpireFails?;
      if ok {
        redis := redis[name := redis[name].(expiresAt := Some(now + Lifetime(ttl)))];
      }
    }

    method Allow(scope: string, key: string, limit: int, window: nat, now: nat, fault: Fault) returns (r: Reply)
      modifies this
      ensures (redis, r) == Serve(old(redis), limit, window, Call(scope, key, now, fault))
    {
      var windowStart := WindowStart(now, window);
      var redisKey := RedisKey(scope, key, windowStart);
      var count, ok := Incr(redisKey, now, fault);
      if !ok {
        return Unavailable;
      }
      if count == 1 {
        ok := Expire(redisKey, now, window + SECOND, fault);
        if !ok {
          return Unavailable;
        }
      }
      var remaining := limit - count;
      if remaining < 0 {
        remaining := 0;
      }
      var retryAfter := windowStart + window - now;
      if retryAfter < 0 {
        retryAfter := 0;
      }
      r := Verdict(count <= limit, limit, remaining, retryAfter);
      assert redis == old(redis)[redisKey := redis[redisKey]];
    }
  }

  /** Waiting for `retryAfter` leads exactly to the start of the next window, and never takes longer than one. */
  lemma RetryAfterReachesNextWindow(limit: int, window: nat, now: nat, count: nat)
    requires window > 0
    ensures var wait := Answer(limit, window, now, count).retryAfter;
      && 0 < wait <= window
      && WindowStart(now + wait, window) == now + wait == WindowStart(now, window) + window
  {
    var m := now / window;
    assert WindowStart(now, window) == window * m;
    assert window * m + window == window * (m + 1);
    ExactMultiple(window, m + 1);
  }

  lemma ExactMultiple(w: nat, k: nat)
    requires w > 0
    ensures WindowStart(w * k, w) == w * k
  {
    var q := (w * k) / w;
    assert w * k == w * q + (w * k) % w;
    if q < k {
      Multiply(w, q, k);
    } else {
      NotLess(w, k, q);
    }
  }

  /******* Any sequence of calls *******/

  datatype Setting = Setting(limit: string -> int, window: nat)

  function StoreAfter(cfg: Setting, calls: seq<Call>): Store {
    if calls == [] then map[]
    else
      var c := calls[|calls| - 1];
      Serve(StoreAfter(cfg, calls[..|calls| - 1]), cfg.limit(c.scope), cfg.window, c).0
  }

  function LastReply(cfg: Setting, calls: seq<Call>): Reply
    requires calls != []
  {
    var c := calls[|calls| - 1];
    Serve(StoreAfter(cfg, calls[..|calls| - 1]), cfg.limit(c.scope), cfg.window, c).1
  }

  predicate Hits(cfg: Setting, c: Call, scope: string, key: string, start: nat) {
    c.scope == scope && c.key == key && WindowStart(c.now, cfg.window) == start && !c.fault.IncrFails?
  }

  function One(b: bool): nat {
    if b then 1 else 0
  }

  /** Requests of (scope, key) that were counted in the window that starts at `start`. */
  function HitsIn(cfg: Setting, calls: seq<Call>, scope: string, key: string, start: nat): nat {
    if calls == [] then 0
    else HitsIn(cfg, calls[..|calls| - 1], scope, key, start) + One(Hits(cfg, calls[|calls| - 1], scope, key, start))
  }

  predicate Allowed(r: Reply) {
    r.Verdict? && r.allowed
  }

  function AllowedIn(cfg: Setting, calls: seq<Call>, scope: string, key: string, start: nat): nat {
    if calls == [] then 0
    else
      AllowedIn(cfg, calls[..|calls| - 1], scope, key, start)
      + One(Hits(cfg, calls[|calls| - 1], scope, key, start) && Allowed(LastReply(cfg, calls)))
  }

  /** Requests of (scope, key) allowed from time `from` for the length of one window. */
  function AllowedFrom(cfg: Setting, calls: seq<Call>, scope: string, key: string, from: nat): nat {
    if calls == [] then 0
    else
      var c := calls[|calls| - 1];
      AllowedFrom(cfg, calls[..|calls| - 1], scope, key, from)
      + One(c.scope == scope && c.key == key && from <= c.now < from + cfg.window && Allowed(LastReply(cfg, calls)))
  }

  predicate PlainScopes(calls: seq<Call>) {
    forall c | c in calls :: ':' !in c.scope
  }

  /** Counted requests that used the counter `name`. */
  function HitsNamed(cfg: Setting, calls: seq<Call>, name: string): nat {
    if calls == [] then 0
    else
      var c := calls[|calls| - 1];
      HitsNamed(cfg, calls[..|calls| - 1], name)
      + One(!c.fault.IncrFails? && RedisKey(c.scope, c.key, WindowStart(c.now, cfg.window)) == name)
  }

  /** A window of a second or more, or one that divides the second: no window straddles a counter's lifetime. */
  predicate Aligned(window: nat) {
    window >= SECOND || (window > 0 && SECOND % window == 0)
  }

  /** The earliest time at which the counter of the window that starts at `start` can have been created. */
  function Base(window: nat, start: nat): (r: nat)
    ensures r <= start
  {
    if window >= SECOND then start else start / SECOND * SECOND
  }

  /** The counter of a window has counted every request that used it, and outlives the window. */
  ghost predicate CounterOk(cfg: Setting, calls: seq<Call>, scope: string, key: string, t: nat) {
    var start := WindowStart(t, cfg.window);
    var name := RedisKey(scope, key, start);
    var store, hits := StoreAfter(cfg, calls), HitsNamed(cfg, calls, name);
    if hits == 0 then name !in store
    else
      && name in store && store[name].count == hits
      && (store[name].expiresAt.Some? ==>
            store[name].expiresAt.value >= Base(cfg.window, start) + Lifetime(cfg.window + SECOND))
  }

  /** Every window of a counter ends before the counter does. */
  lemma WindowInLifetime(window: nat, now: nat)
    requires Aligned(window)
    ensures now < Base(window, WindowStart(now, window)) + Lifetime(window + SECOND)
  {
    if window < SECOND {
      var q, m := SECOND / window, now / window;
      var start := WindowStart(now, window);
      assert SECOND == window * q && start == window * m;
      if start / SECOND * SECOND + SECOND < start + window {
        var n := start / SECOND + 1;
        assert window * (q * n) == SECOND * n by {
          assert window * (q * n) == (window * q) * n;
        }
        assert start < SECOND * n < start + window;
        assert window * m < window * (q * n) < window * m + window;
        if q * n <= m {
          NotLess(window, q * n, m);
        } else {
          Multiply(window, m, q * n);
        }
        assert false;
      }
    }
  }

  lemma SameCounter(window: nat, scope: string, key: string, start: nat, scope': string, key': string, start': nat)
    requires ':' !in scope && ':' !in scope' && RedisKey(scope, key, start) == RedisKey(scope', key', start')
    ensures scope == scope' && key == key' && start / SECOND == start' / SECOND
  {
    hide RedisKey;
    RedisKeyRoundTrip(scope, key, start);
    RedisKeyRoundTrip(scope', key', start');
  }

  /** Windows of a second or more that start in one second are one window. */
  lemma SameWindow(window: nat, t: nat, now: nat)
    requires window >= SECOND && WindowStart(t, window) / SECOND == WindowStart(now, window) / SECOND
    ensures WindowStart(t, window) == WindowStart(now, window)
  {
    hide WindowStart;
    if WindowStart(t, window) < WindowStart(now, window) {
      WindowsApart(t, now, window);
    } else if WindowStart(now, window) < WindowStart(t, window) {
      WindowsApart(now, t, window);
    }
  }

  /** A counter belongs to one base time. */
  lemma SameBase(window: nat, t: nat, now: nat)
    requires WindowStart(t, window) / SECOND == WindowStart(now, window) / SECOND
    ensures Base(window, WindowStart(t, window)) == Base(window, WindowStart(now, window))
  {
    hide WindowStart;
    if window >= SECOND {
      SameWindow(window, t, now);
    }
  }

  /** What one call does to the counter `name`. */
  lemma ServeCounter(store: Store, limit: int, window: nat, c: Call, name: string)
    ensures
      var after := Serve(store, limit, window, c).0;
      var hit := Increased(store, name, c.now);
      if c.fault.IncrFails? || RedisKey(c.scope, c.key, WindowStart(c.now, window)) != name then
        (name in after <==> name in store) && (name in store ==> after[name] == store[name])
      else
        && name in after && after[name].count == hit.count
        && (after[name].expiresAt == hit.expiresAt
            || (hit.count == 1 && after[name].expiresAt == Some(c.now + Lifetime(window + SECOND))))
  {
    hide RedisKey, WindowStart, Lifetime;
  }

  lemma {:induction false} CountersExact(cfg: Setting, calls: seq<Call>, scope: string, key: string, t: nat)
    requires Aligned(cfg.window) && PlainScopes(calls) && ':' !in scope
    ensures CounterOk(cfg, calls, scope, key, t)
  {
    if calls != [] {
      hide RedisKey, Lifetime, WindowStart, Serve, Base, Aligned;
      var init, c := calls[..|calls| - 1], calls[|calls| - 1];
      CountersExact(cfg, init, scope, key, t);
      ServeCounter(StoreAfter(cfg, init), cfg.limit(c.scope), cfg.window, c,
                   RedisKey(scope, key, WindowStart(t, cfg.window)));
      var start, start' := WindowStart(t, cfg.window), WindowStart(c.now, cfg.window);
      if RedisKey(scope, key, start) == RedisKey(c.scope, c.key, start') {
        SameCounter(cfg.window, scope, key, start, c.scope, c.key, start');
        SameBase(cfg.window, t, c.now);
        WindowInLifetime(cfg.window, c.now);
      }
    }
  }

  /** In an aligned window the counter that a call finds counts all the requests before it. */
  lemma CountsAll(cfg: Setting, init: seq<Call>, c: Call)
    requires Aligned(cfg.window) && PlainScopes(init) && ':' !in c.scope
    ensures
      var name := RedisKey(c.scope, c.key, WindowStart(c.now, cfg.window));
      Increased(StoreAfter(cfg, init), name, c.now).count == HitsNamed(cfg, init, name) + 1
  {
    hide RedisKey, Lifetime, WindowStart, Base, Aligned, StoreAfter, HitsNamed;
    CountersExact(cfg, init, c.scope, c.key, c.now);
    WindowInLifetime(cfg.window, c.now);
  }

  /**
   The reply to the last call in full. It is a verdict unless Redis failed: allowed exactly up to the limit, with
   what is left of the limit in the counter, never below zero, and the time to the end of the window.
   */
  lemma ReplyExactly(cfg: Setting, calls: seq<Call>)
    requires calls != [] && Aligned(cfg.window) && PlainScopes(calls)
    ensures
      var c, start := calls[|calls| - 1], WindowStart(calls[|calls| - 1].now, cfg.window);
      var limit, hits := cfg.limit(c.scope), HitsNamed(cfg, calls, RedisKey(c.scope, c.key, start));
      && (cfg.window >= SECOND ==> hits == HitsIn(cfg, calls, c.scope, c.key, start))
      && LastReply(cfg, calls) ==
           if c.fault.IncrFails? || (c.fault.ExpireFails? && hits == 1) then Unavailable
           else Verdict(hits <= limit, limit, if hits <= limit then limit - hits else 0, start + cfg.window - c.now)
  {
    hide RedisKey, Lifetime, WindowStart, Base, Aligned, Increased, StoreAfter, HitsIn;
    var init, c := calls[..|calls| - 1], calls[|calls| - 1];
    assert c in calls && PlainScopes(init);
    CountsAll(cfg, init, c);
    HitsShareCounter(cfg, calls, c.scope, c.key, c.now);
  }

  /** What a failing Redis leaves behind: nothing if INCR failed, and a counter without an end if EXPIRE did. */
  lemma FaultsExactly(store: Store, limit: int, window: nat, c: Call)
    ensures
      var (after, r) := Serve(store, limit, window, c);
      var name := RedisKey(c.scope, c.key, WindowStart(c.now, window));
      && (c.fault.IncrFails? ==> after == store && r == Unavailable)
      && (c.fault.ExpireFails? && !Live(store, name, c.now) ==> after == store[name := Counter(1, None)] && r == Unavailable)
      && (!c.fault.IncrFails? && Live(store, name, c.now) && store[name].count > 0 ==>
            after == store[name := Counter(store[name].count + 1, store[name].expiresAt)] && r.Verdict?)
  {
  }

  /** The requests of a window are among those of its counter, and are all of them if a window lasts a second. */
  lemma {:induction false} HitsShareCounter(cfg: Setting, calls: seq<Call>, scope: string, key: string, t: nat)
    requires PlainScopes(calls) && ':' !in scope
    ensures
      var start := WindowStart(t, cfg.window);
      var named := HitsNamed(cfg, calls, RedisKey(scope, key, start));
      HitsIn(cfg, calls, scope, key, start) <= named
      && (cfg.window >= SECOND ==> HitsIn(cfg, calls, scope, key, start) == named)
  {
    if calls != [] {
      var c := calls[|calls| - 1];
      HitsShareCounter(cfg, calls[..|calls| - 1], scope, key, t);
      var start, start' := WindowStart(t, cfg.window), WindowStart(c.now, cfg.window);
      if cfg.window >= SECOND && RedisKey(scope, key, start) == RedisKey(c.scope, c.key, start') {
        SameCounter(cfg.window, scope, key, start, c.scope, c.key, start');
        SameWindow(cfg.window, t, c.now);
      }
    }
  }

  function AtMost(n: nat, limit: int): nat {
    if limit < 0 then 0 else if n < limit then n else limit
  }

  /**
   In every window (scope, key) is allowed at most `limit` requests; and, for windows of a second or more,
   exactly the smaller of `limit` and the number of requests when Redis answers all of them.
   */
  lemma {:induction false} AllowedPerWindow(cfg: Setting, calls: seq<Call>, scope: string, key: string, t: nat)
    requires Aligned(cfg.window) && PlainScopes(calls) && ':' !in scope
    ensures
      var start := WindowStart(t, cfg.window);
      var hits := HitsIn(cfg, calls, scope, key, start);
      && AllowedIn(cfg, calls, scope, key, start) <= AtMost(hits, cfg.limit(scope))
      && (cfg.window >= SECOND && (forall c | c in calls :: c.fault.NoFault?) ==>
            AllowedIn(cfg, calls, scope, key, start) == AtMost(hits, cfg.limit(scope)))
  {
    if calls != [] {
      var init, c := calls[..|calls| - 1], calls[|calls| - 1];
      AllowedPerWindow(cfg, init, scope, key, t);
      CountersExact(cfg, init, scope, key, t);
      HitsShareCounter(cfg, init, scope, key, t);
      WindowInLifetime(cfg.window, c.now);
    }
  }

  /******* Windows that are not aligned *******/

  /** With a limit of one the counter that allowed a request stays until the window is over. */
  ghost predicate OneAllowed(cfg: Setting, calls: seq<Call>, scope: string, key: string, t: nat) {
    var start := WindowStart(t, cfg.window);
    var name, store := RedisKey(scope, key, start), StoreAfter(cfg, calls);
    && AllowedIn(cfg, calls, scope, key, start) <= 1
    && (AllowedIn(cfg, calls, scope, key, start) == 1 ==>
          && name in store && store[name].count >= 1
          && (store[name].expiresAt.Some? ==> store[name].expiresAt.value >= start + SECOND))
  }

  lemma {:induction false} LimitOfOne(cfg: Setting, calls: seq<Call>, scope: string, key: string, t: nat)
    requires 0 < cfg.window < SECOND && cfg.limit(scope) <= 1
    ensures OneAllowed(cfg, calls, scope, key, t)
  {
    if calls != [] {
      LimitOfOne(cfg, calls[..|calls| - 1], scope, key, t);
      assert Lifetime(cfg.window + SECOND) == SECOND;
    }
  }

  lemma {:induction false} LimitOfNone(cfg: Setting, calls: seq<Call>, scope: string, key: string, start: nat)
    requires cfg.limit(scope) <= 0
    ensures AllowedIn(cfg, calls, scope, key, start) == 0
  {
    if calls != [] {
      LimitOfNone(cfg, calls[..|calls| - 1], scope, key, start);
    }
  }

  function Repeat(scope: string, key: string, now: nat, n: nat): seq<Call> {
    seq(n, _ => Call(scope, key, now, NoFault))
  }

  /** One request at time zero, then `m` at time `at`, then `n` when the first second is over. */
  function Burst(scope: string, key: string, at: nat, m: nat, n: nat): seq<Call> {
    [Call(scope, key, 0, NoFault)] + Repeat(scope, key, at, m) + Repeat(scope, key, SECOND, n)
  }

  lemma BurstPrefix(scope: string, key: string, at: nat, m: nat, n: nat)
    ensures var b := Burst(scope, key, at, m, n);
      b != [] &&
      if n > 0 then b[..|b| - 1] == Burst(scope, key, at, m, n - 1) && b[|b| - 1] == Call(scope, key, SECOND, NoFault)
      else if m > 0 then b[..|b| - 1] == Burst(scope, key, at, m - 1, 0) && b[|b| - 1] == Call(scope, key, at, NoFault)
      else b == [Call(scope, key, 0, NoFault)] && b[..0] == []
  {
  }

  /** `at` starts the window, in the first second, that is not over when that second is. */
  predicate Straddles(window: nat, at: nat) {
    0 < at < SECOND < at + window && window < SECOND && WindowStart(at, window) == at && WindowStart(SECOND, window) == at
  }

  ghost predicate BurstOk(cfg: Setting, scope: string, key: string, at: nat, m: nat, n: nat) {
    var calls, name := Burst(scope, key, at, m, n), RedisKey(scope, key, at);
    var store := StoreAfter(cfg, calls);
    && name in store && AllowedIn(cfg, calls, scope, key, at) == m + n
    && store[name] == if n == 0 then Counter(m + 1, Some(SECOND)) else Counter(n, Some(2 * SECOND))
  }

  lemma ShortLifetime(window: nat)
    requires window < SECOND
    ensures Lifetime(window + SECOND) == SECOND
  {
  }

  lemma FirstSecond(scope: string, key: string, at: nat)
    requires at < SECOND
    ensures RedisKey(scope, key, 0) == RedisKey(scope, key, at)
  {
    hide Signed;
    assert Unix(0) == Unix(at);
  }

  lemma ServeOne(store: Store, limit: int, window: nat, c: Call)
    requires c.fault.NoFault?
    ensures
      var name := RedisKey(c.scope, c.key, WindowStart(c.now, window));
      var hit := Increased(store, name, c.now);
      var (after, reply) := Serve(store, limit, window, c);
      && name in after
      && after[name] == (if hit.count == 1 then Counter(1, Some(c.now + Lifetime(window + SECOND))) else hit)
      && (Allowed(reply) <==> hit.count <= limit)
  {
    hide WindowStart, Lifetime, RedisKey;
  }

  lemma LastCall(cfg: Setting, calls: seq<Call>, c: Call, start: nat)
    requires calls != [] && calls[|calls| - 1] == c && !c.fault.IncrFails?
    ensures
      var init := calls[..|calls| - 1];
      var (after, reply) := Serve(StoreAfter(cfg, init), cfg.limit(c.scope), cfg.window, c);
      && StoreAfter(cfg, calls) == after
      && AllowedIn(cfg, calls, c.scope, c.key, start)
         == AllowedIn(cfg, init, c.scope, c.key, start) + One(WindowStart(c.now, cfg.window) == start && Allowed(reply))
  {
    hide Serve, WindowStart, Allowed;
  }

  /** One more request without a fault, on the counter of the window that starts at `start`. */
  lemma OneMore(cfg: Setting, calls: seq<Call>, scope: string, key: string, now: nat, start: nat)
    requires calls != [] && calls[|calls| - 1] == Call(scope, key, now, NoFault)
    requires RedisKey(scope, key, WindowStart(now, cfg.window)) == RedisKey(scope, key, start)
    ensures
      var init, name := calls[..|calls| - 1], RedisKey(scope, key, start);
      var hit := Increased(StoreAfter(cfg, init), name, now);
      && name in StoreAfter(cfg, calls)
      && StoreAfter(cfg, calls)[name]
         == (if hit.count == 1 then Counter(1, Some(now + Lifetime(cfg.window + SECOND))) else hit)
      && AllowedIn(cfg, calls, scope, key, start)
         == AllowedIn(cfg, init, scope, key, start)
            + One(WindowStart(now, cfg.window) == start && hit.count <= cfg.limit(scope))
  {
    hide WindowStart, Lifetime, RedisKey, Serve, Increased, Allowed, StoreAfter, AllowedIn;
    var c, init := calls[|calls| - 1], calls[..|calls| - 1];
    LastCall(cfg, calls, c, start);
    ServeOne(StoreAfter(cfg, init), cfg.limit(scope), cfg.window, c);
  }

  lemma NoCalls(cfg: Setting, scope: string, key: string, start: nat)
    ensures StoreAfter(cfg, []) == map[] && AllowedIn(cfg, [], scope, key, start) == 0
    ensures WindowStart(0, cfg.window) == 0
  {
  }

  lemma BurstStarts(cfg: Setting, scope: string, key: string, at: nat)
    requires Straddles(cfg.window, at)
    ensures BurstOk(cfg, scope, key, at, 0, 0)
  {
    hide WindowStart, Lifetime, RedisKey, Burst, StoreAfter, AllowedIn;
    NoCalls(cfg, scope, key, at);
    BurstPrefix(scope, key, at, 0, 0);
    FirstSecond(scope, key, at);
    ShortLifetime(cfg.window);
    OneMore(cfg, Burst(scope, key, at, 0, 0), scope, key, 0, at);
  }

  lemma BurstGoesOn(cfg: Setting, scope: string, key: string, at: nat, m: nat)
    requires Straddles(cfg.window, at) && 0 < m < cfg.limit(scope) && BurstOk(cfg, scope, key, at, m - 1, 0)
    ensures BurstOk(cfg, scope, key, at, m, 0)
  {
    hide WindowStart, Lifetime, RedisKey, Burst, StoreAfter, AllowedIn;
    BurstPrefix(scope, key, at, m, 0);
    OneMore(cfg, Burst(scope, key, at, m, 0), scope, key, at, at);
  }

  lemma BurstStartsAnew(cfg: Setting, scope: string, key: string, at: nat, m: nat, n: nat)
    requires Straddles(cfg.window, at) && 0 < n <= cfg.limit(scope) && BurstOk(cfg, scope, key, at, m, n - 1)
    ensures BurstOk(cfg, scope, key, at, m, n)
  {
    hide WindowStart, Lifetime, RedisKey, Burst, StoreAfter, AllowedIn;
    BurstPrefix(scope, key, at, m, n);
    ShortLifetime(cfg.window);
    OneMore(cfg, Burst(scope, key, at, m, n), scope, key, SECOND, at);
  }

  lemma {:induction false} BurstCounts(cfg: Setting, scope: string, key: string, at: nat, m: nat, n: nat)
    requires Straddles(cfg.window, at) && m < cfg.limit(scope) && n <= cfg.limit(scope)
    ensures BurstOk(cfg, scope, key, at, m, n)
  {
    hide BurstOk;
    if n > 0 {
      BurstCounts(cfg, scope, key, at, m, n - 1);
      BurstStartsAnew(cfg, scope, key, at, m, n);
    } else if m > 0 {
      BurstCounts(cfg, scope, key, at, m - 1, 0);
      BurstGoesOn(cfg, scope, key, at, m);
    } else {
      BurstStarts(cfg, scope, key, at);
    }
  }

  lemma StraddlingWindow(window: nat) returns (at: nat)
    requires 0 < window && !Aligned(window)
    ensures Straddles(window, at)
  {
    var n := SECOND / window;
    at := window * n;
    assert SECOND == at + SECOND % window;
    assert WindowStart(SECOND, window) == at;
    ExactMultiple(window, n);
    assert at > 0 by {
      NotLess(window, 1, n);
    }
  }

  function NotNegative(limit: int): nat {
    if limit < 0 then 0 else limit
  }

  /** The limit of (scope, key) is kept in every window, whatever is requested and whatever Redis does. */
  ghost predicate LimitKept(cfg: Setting, scope: string, key: string) {
    forall calls: seq<Call>, t: nat | PlainScopes(calls) ::
      AllowedIn(cfg, calls, scope, key, WindowStart(t, cfg.window)) <= NotNegative(cfg.limit(scope))
  }

  /**
   The limit is kept exactly if the window is aligned or the limit is at most one: otherwise a counter expires
   inside a later window that shares it, and that window starts to count anew.
   */
  lemma LimitKeptExactly(cfg: Setting, scope: string, key: string)
    requires cfg.window > 0 && ':' !in scope
    ensures LimitKept(cfg, scope, key) <==> Aligned(cfg.window) || cfg.limit(scope) <= 1
  {
    if Aligned(cfg.window) || cfg.limit(scope) <= 1 {
      forall calls: seq<Call>, t: nat | PlainScopes(calls)
        ensures AllowedIn(cfg, calls, scope, key, WindowStart(t, cfg.window)) <= NotNegative(cfg.limit(scope))
      {
        if Aligned(cfg.window) {
          AllowedPerWindow(cfg, calls, scope, key, t);
        } else if cfg.limit(scope) == 1 {
          LimitOfOne(cfg, calls, scope, key, t);
        } else {
          LimitOfNone(cfg, calls, scope, key, WindowStart(t, cfg.window));
        }
      }
    } else {
      var at := StraddlingWindow(cfg.window);
      var m := cfg.limit(scope) - 1;
      BurstCounts(cfg, scope, key, at, m, 2);
      assert AllowedIn(cfg, Burst(scope, key, at, m, 2), scope, key, WindowStart(at, cfg.window)) == m + 2;
      assert PlainScopes(Burst(scope, key, at, m, 2));
    }
  }

  /** Within the length of one window only two fixed windows can be met. */
  lemma TwoWindows(window: nat, from: nat, now: nat)
    requires window > 0 && from <= now < from + window
    ensures WindowStart(now, window) == WindowStart(from, window)
         || WindowStart(now, window) == WindowStart(WindowStart(from, window) + window, window)
  {
    var m, n := now / window, from / window;
    assert WindowStart(now, window) == window * m && WindowStart(from, window) == window * n;
    assert window * n + window == window * (n + 1);
    ExactMultiple(window, n + 1);
    if m < n {
      Multiply(window, m, n);
    } else if m > n + 1 {
      Multiply(window, n + 1, m);
    }
  }

  lemma {:induction false} SplitByWindow(cfg: Setting, calls: seq<Call>, scope: string, key: string, from: nat)
    requires cfg.window > 0
    ensures
      var start := WindowStart(from, cfg.window);
      AllowedFrom(cfg, calls, scope, key, from)
      <= AllowedIn(cfg, calls, scope, key, start)
         + AllowedIn(cfg, calls, scope, key, WindowStart(start + cfg.window, cfg.window))
  {
    if calls != [] {
      var c := calls[|calls| - 1];
      SplitByWindow(cfg, calls[..|calls| - 1], scope, key, from);
      if from <= c.now < from + cfg.window {
        TwoWindows(cfg.window, from, c.now);
      }
    }
  }

  /** In any stretch of time as long as a window, at most twice the limit is allowed. */
  lemma AllowedInAnyStretch(cfg: Setting, calls: seq<Call>, scope: string, key: string, from: nat)
    requires Aligned(cfg.window) && PlainScopes(calls) && ':' !in scope && cfg.limit(scope) >= 0
    ensures AllowedFrom(cfg, calls, scope, key, from) <= 2 * cfg.limit(scope)
  {
    SplitByWindow(cfg, calls, scope, key, from);
    AllowedPerWindow(cfg, calls, scope, key, from);
    AllowedPerWindow(cfg, calls, scope, key, WindowStart(from, cfg.window) + cfg.window);
  }

  /******* Any window *******/

  predicate Uses(cfg: Setting, c: Call, name: string) {
    RedisKey(c.scope, c.key, WindowStart(c.now, cfg.window)) == name
  }

  /** Requests that were allowed on the counter `name`. */
  function AllowedNamed(cfg: Setting, calls: seq<Call>, name: string): nat {
    if calls == [] then 0
    else
      AllowedNamed(cfg, calls[..|calls| - 1], name)
      + One(Uses(cfg, calls[|calls| - 1], name) && Allowed(LastReply(cfg, calls)))
  }

  lemma {:induction false} AllowedShareCounter(cfg: Setting, calls: seq<Call>, scope: string, key: string, start: nat)
    ensures AllowedIn(cfg, calls, scope, key, start) <= AllowedNamed(cfg, calls, RedisKey(scope, key, start))
  {
    if calls != [] {
      hide RedisKey, WindowStart, LastReply, Allowed;
      AllowedShareCounter(cfg, calls[..|calls| - 1], scope, key, start);
    }
  }

  /** A counter `k` that expires at or after `at`. */
  predicate LastsUntil(k: Counter, at: nat) {
    k.expiresAt.Some? ==> k.expiresAt.value >= at
  }

  /** A counter whose windows start in second `second` begins anew at most once while they last. */
  ghost predicate OnceAnew(store: Store, name: string, allowed: nat, limit: nat, second: nat) {
    if name !in store then allowed == 0
    else
      && store[name].count > 0
      && var n := AtMost(store[name].count, limit);
      || (allowed <= n && LastsUntil(store[name], (second + 1) * SECOND))
      || (allowed <= limit + n && LastsUntil(store[name], (second + 2) * SECOND))
  }

  /** One more request on the counter. */
  lemma ServeOnceAnew(store: Store, limit: int, window: nat, c: Call, name: string, allowed: nat, second: nat)
    requires OnceAnew(store, name, allowed, NotNegative(limit), second)
    requires RedisKey(c.scope, c.key, WindowStart(c.now, window)) == name
    requires second * SECOND <= c.now < (second + 2) * SECOND && Lifetime(window + SECOND) == SECOND
    ensures
      var (after, reply) := Serve(store, limit, window, c);
      OnceAnew(after, name, allowed + One(Allowed(reply)), NotNegative(limit), second)
  {
    hide RedisKey, WindowStart, Lifetime;
  }

  lemma SecondOfWindow(window: nat, now: nat)
    requires 0 < window < SECOND
    ensures var second := WindowStart(now, window) / SECOND;
      second * SECOND <= now < (second + 2) * SECOND
  {
    hide WindowStart;
  }

  lemma AnewOnceMore(cfg: Setting, calls: seq<Call>, scope: string, key: string, t: nat)
    requires 0 < cfg.window < SECOND && PlainScopes(calls) && ':' !in scope && calls != []
    requires
      var init, start := calls[..|calls| - 1], WindowStart(t, cfg.window);
      var name := RedisKey(scope, key, start);
      OnceAnew(StoreAfter(cfg, init), name, AllowedNamed(cfg, init, name), NotNegative(cfg.limit(scope)), start / SECOND)
    ensures
      var start := WindowStart(t, cfg.window);
      var name := RedisKey(scope, key, start);
      OnceAnew(StoreAfter(cfg, calls), name, AllowedNamed(cfg, calls, name), NotNegative(cfg.limit(scope)), start / SECOND)
  {
    hide RedisKey, WindowStart, Lifetime, Serve, OnceAnew, Allowed;
    var init, c := calls[..|calls| - 1], calls[|calls| - 1];
    var start, start' := WindowStart(t, cfg.window), WindowStart(c.now, cfg.window);
    var name := RedisKey(scope, key, start);
    if Uses(cfg, c, name) {
      SameCounter(cfg.window, scope, key, start, c.scope, c.key, start');
      SecondOfWindow(cfg.window, c.now);
      ShortLifetime(cfg.window);
      ServeOnceAnew(StoreAfter(cfg, init), cfg.limit(scope), cfg.window, c, name, AllowedNamed(cfg, init, name),
                    start / SECOND);
    } else {
      OtherCounter(StoreAfter(cfg, init), cfg.limit(c.scope), cfg.window, c, name, AllowedNamed(cfg, init, name),
                   NotNegative(cfg.limit(scope)), start / SECOND);
    }
  }

  lemma {:induction false} AnewOnce(cfg: Setting, calls: seq<Call>, scope: string, key: string, t: nat)
    requires 0 < cfg.window < SECOND && PlainScopes(calls) && ':' !in scope
    ensures
      var start := WindowStart(t, cfg.window);
      var name := RedisKey(scope, key, start);
      OnceAnew(StoreAfter(cfg, calls), name, AllowedNamed(cfg, calls, name), NotNegative(cfg.limit(scope)), start / SECOND)
  {
    hide RedisKey, WindowStart;
    if calls != [] {
      hide StoreAfter, AllowedNamed, OnceAnew;
      AnewOnce(cfg, calls[..|calls| - 1], scope, key, t);
      AnewOnceMore(cfg, calls, scope, key, t);
    }
  }

  lemma OtherCounter(store: Store, limit: int, window: nat, c: Call, name: string, allowed: nat, bound: nat, second: nat)
    requires RedisKey(c.scope, c.key, WindowStart(c.now, window)) != name && OnceAnew(store, name, allowed, bound, second)
    ensures OnceAnew(Serve(store, limit, window, c).0, name, allowed, bound, second)
  {
    ServeCounter(store, limit, window, c, name);
    hide Serve;
  }

  /** A window of any length allows at most twice the limit. */
  lemma AtMostTwice(cfg: Setting, calls: seq<Call>, scope: string, key: string, t: nat)
    requires cfg.window > 0 && PlainScopes(calls) && ':' !in scope
    ensures AllowedIn(cfg, calls, scope, key, WindowStart(t, cfg.window)) <= 2 * NotNegative(cfg.limit(scope))
  {
    if cfg.window < SECOND {
      AnewOnce(cfg, calls, scope, key, t);
      AllowedShareCounter(cfg, calls, scope, key, WindowStart(t, cfg.window));
    } else {
      AllowedPerWindow(cfg, calls, scope, key, t);
    }
  }

  /** In any stretch of time as long as a window of any length, at most four times the limit is allowed. */
  lemma AllowedInAnyStretchAtAll(cfg: Setting, calls: seq<Call>, scope: string, key: string, from: nat)
    requires cfg.window > 0 && PlainScopes(calls) && ':' !in scope
    ensures AllowedFrom(cfg, calls, scope, key, from) <= 4 * NotNegative(cfg.limit(scope))
  {
    SplitByWindow(cfg, calls, scope, key, from);
    AtMostTwice(cfg, calls, scope, key, from);
    AtMostTwice(cfg, calls, scope, key, WindowStart(from, cfg.window) + cfg.window);
  }
}
