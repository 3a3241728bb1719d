/** The reflector's per-source-IP token bucket and its garbage collection.
  *
  * Times are nanoseconds of the monotonic clock, token counts are reals.
  */
module RateLimiter {
  import opened Prelude

  datatype Bucket = Bucket(tokens: real, last: int)

  datatype Config = Config(rate: real, burst: real)

  const SECOND := 1_000_000_000.0

  /** NewReflector's limiter and gcLoop's cutoff age. */
  const REFLECTOR := Config(20.0, 40.0)
  const PRUNE_AGE := 120_000_000_000

  predicate Valid(c: Config) {
    c.rate >= 0.0 && c.burst >= 1.0
  }

  function Earned(c: Config, ns: int): real {
    (ns as real / SECOND) * c.rate
  }

  function Refill(c: Config, b: Bucket, now: int): real {
    var tokens := b.tokens + Earned(c, now - b.last);
    if tokens > c.burst then c.burst else tokens
  }

  /** One call for one source: the bucket afterwards and the verdict. */
  function Touch(c: Config, b: Option<Bucket>, now: int): (Bucket, bool) {
    if b.None? then (Bucket(c.burst - 1.0, now), true)
    else
      var tokens := Refill(c, b.value, now);
      if tokens < 1.0 then (Bucket(tokens, now), false) else (Bucket(tokens - 1.0, now), true)
  }

  function Get(m: map<string, Bucket>, ip: string): Option<Bucket> {
    if ip in m then Some(m[ip]) else None
  }

  /** prune: drop every bucket last touched before `cutoff`. */
  function Pruned(m: map<string, Bucket>, cutoff: int): map<string, Bucket> {
    map ip | ip in m && m[ip].last >= cutoff :: m[ip]
  }

  class IpRateLimiter {
    const config: Config
    var buckets: map<string, Bucket>

    constructor (rate: real, burst: real)
      ensures config == Config(rate, burst) && buckets == map[]
    {
      config := Config(rate, burst);
      buckets := map[];
    }

    method Allow(ip: string, now: int) returns (ok: bool)
      modifies this
      ensures ok == Touch(config, Get(old(buckets), ip), now).1
      ensures buckets == old(buckets)[ip := Touch(config, Get(old(buckets), ip), now).0]
    {
      if ip !in buckets {
        buckets := buckets[ip := Bucket(config.burst - 1.0, now)];
        return true;
      }
      var b := buckets[ip];
      var elapsed := (now - b.last) as real / SECOND;
      var tokens := b.tokens + elapsed * config.rate;
      assert tokens == b.tokens + Earned(config, now - b.last);
      if tokens > config.burst {
        tokens := config.burst;
      }
      if tokens < 1.0 {
        buckets := buckets[ip := Bucket(tokens, now)];
        return false;
      }
      buckets := buckets[ip := Bucket(tokens - 1.0, now)];
      return true;
    }

    method Prune(cutoff: int)
      modifies this
      ensures buckets == Pruned(old(buckets), cutoff)
      ensures forall ip :: ip in old(buckets) ==> (ip !in buckets <==> old(buckets)[ip].last < cutoff)
    {
      var ips := buckets.Keys;
      while ips != {}
        invariant ips <= old(buckets).Keys
        invariant forall ip :: ip in buckets <==> ip in old(buckets) && (ip in ips || old(buckets)[ip].last >= cutoff)
        invariant forall ip :: ip in buckets ==> buckets[ip] == old(buckets)[ip]
        decreases ips
      {
        var ip :| ip in ips;
        if buckets[ip].last < cutoff {
          buckets := buckets - {ip};
        }
        ips := ips - {ip};
      }
    }
  }

  // ---- Runs ----

  /** A request from `ip`, or a collection with the cutoff `age` before now. */
  datatype Event = Request(ip: string, now: int) | Collect(age: int, at: int)

  function Time(e: Event): int {
    match e case Request(_, now) => now case Collect(_, at) => at
  }

  predicate Ordered(es: seq<Event>) {
    forall i, j :: 0 <= i < j < |es| ==> Time(es[i]) <= Time(es[j])
  }

  function Apply(c: Config, m: map<string, Bucket>, e: Event): map<string, Bucket> {
    match e
    case Request(ip, now) => m[ip := Touch(c, Get(m, ip), now).0]
    case Collect(age, at) => Pruned(m, at - age)
  }

  function Run(c: Config, es: seq<Event>): map<string, Bucket>
    decreases |es|
  {
    if es == [] then map[] else Apply(c, Run(c, es[..|es| - 1]), es[|es| - 1])
  }

  /** The verdict on the request that ends `es`. */
  predicate Allowed(c: Config, es: seq<Event>)
    requires es != [] && es[|es| - 1].Request?
  {
    var e := es[|es| - 1];
    Touch(c, Get(Run(c, es[..|es| - 1]), e.ip), e.now).1
  }

  /** The same history with no collection in it. */
  function Uncollected(es: seq<Event>): seq<Event>
    decreases |es|
  {
    if es == [] then []
    else Uncollected(es[..|es| - 1]) + if es[|es| - 1].Collect? then [] else [es[|es| - 1]]
  }

  // ---- Tokens stay in range ----

  predicate BucketOk(c: Config, b: Bucket, now: int) {
    0.0 <= b.tokens <= c.burst && b.last <= now
  }

  lemma EarnedIsNonNegative(c: Config, ns: int)
    requires Valid(c) && ns >= 0
    ensures Earned(c, ns) >= 0.0
  {
    assert ns as real / SECOND >= 0.0;
  }

  lemma TouchOk(c: Config, b: Option<Bucket>, now: int)
    requires Valid(c) && (b.Some? ==> BucketOk(c, b.value, now))
    ensures BucketOk(c, Touch(c, b, now).0, now) && Touch(c, b, now).0.last == now
  {
    if b.Some? { EarnedIsNonNegative(c, now - b.value.last); }
  }

  lemma {:induction false} TokensInRange(c: Config, es: seq<Event>, now: int)
    requires Valid(c) && Ordered(es) && (es != [] ==> Time(es[|es| - 1]) <= now)
    ensures forall ip :: ip in Run(c, es) ==> BucketOk(c, Run(c, es)[ip], now)
    decreases |es|
  {
    if es != [] {
      var e := es[|es| - 1];
      var before := Run(c, es[..|es| - 1]);
      TokensInRange(c, es[..|es| - 1], Time(e));
      if e.Request? {
        TouchOk(c, Get(before, e.ip), e.now);
      }
    }
  }

  // ---- Earning is linear ----

  lemma EarnedSum(c: Config, a: int, b: int)
    ensures Earned(c, a + b) == Earned(c, a) + Earned(c, b)
  {
    assert (a + b) as real / SECOND == a as real / SECOND + b as real / SECOND;
  }

  /** A second earns `rate` tokens, and so `k` seconds fill a bucket by `k` times that, up to the burst. */
  lemma SecondsEarnRate(c: Config, k: int, b: Bucket)
    ensures Earned(c, 1_000_000_000) == c.rate && Earned(c, k * 1_000_000_000) == k as real * c.rate
    ensures Refill(c, b, b.last + k * 1_000_000_000) ==
      if b.tokens + k as real * c.rate > c.burst then c.burst else b.tokens + k as real * c.rate
  {
    assert (k * 1_000_000_000) as real / SECOND == k as real;
  }

  lemma EarnedMonotone(c: Config, a: int, b: int)
    requires Valid(c) && a <= b
    ensures Earned(c, a) <= Earned(c, b)
  {
    EarnedSum(c, a, b - a);
    EarnedIsNonNegative(c, b - a);
  }

  // ---- A collected bucket would have been full ----

  /** Every collection is old enough that an untouched bucket refills completely. */
  predicate Unhurried(c: Config, es: seq<Event>) {
    forall i :: 0 <= i < |es| && es[i].Collect? ==> Earned(c, es[i].age) >= c.burst
  }

  lemma ReflectorIsUnhurried()
    ensures Valid(REFLECTOR) && Earned(REFLECTOR, PRUNE_AGE) >= REFLECTOR.burst
  {
  }

  /** What a source can spend at `now`; one without a bucket has the whole burst. */
  function Level(c: Config, b: Option<Bucket>, now: int): real {
    if b.None? then c.burst else Refill(c, b.value, now)
  }

  lemma StaleIsFull(c: Config, b: Bucket, age: int, now: int)
    requires Valid(c) && Earned(c, age) >= c.burst && 0.0 <= b.tokens && b.last + age <= now
    ensures Refill(c, b, now) == c.burst
    ensures Touch(c, Some(b), now) == Touch(c, None, now)
  {
    EarnedMonotone(c, age, now - b.last);
  }

  // ---- Pruning is unobservable ----

  /** A missing bucket may only be one that would be full by now. */
  ghost predicate SameBut(c: Config, m: map<string, Bucket>, u: map<string, Bucket>, now: int) {
    && (forall ip :: ip in m ==> ip in u && u[ip] == m[ip])
    && (forall ip :: ip in u && ip !in m ==> exists age :: Earned(c, age) >= c.burst && u[ip].last + age <= now)
  }

  lemma SameTouch(c: Config, m: map<string, Bucket>, u: map<string, Bucket>, ip: string, now: int)
    requires Valid(c) && SameBut(c, m, u, now) && (ip in u ==> BucketOk(c, u[ip], now))
    ensures Touch(c, Get(m, ip), now) == Touch(c, Get(u, ip), now)
  {
    if ip in u && ip !in m {
      var age :| Earned(c, age) >= c.burst && u[ip].last + age <= now;
      StaleIsFull(c, u[ip], age, now);
    }
  }

  lemma {:induction false} UncollectedOrdered(es: seq<Event>, now: int)
    requires Ordered(es) && (es != [] ==> Time(es[|es| - 1]) <= now)
    ensures Ordered(Uncollected(es))
    ensures forall i :: 0 <= i < |Uncollected(es)| ==> Time(Uncollected(es)[i]) <= now
    decreases |es|
  {
    if es != [] {
      UncollectedOrdered(es[..|es| - 1], Time(es[|es| - 1]));
    }
  }

  /** The never-pruning limiter's buckets are in range too. */
  lemma UncollectedInRange(c: Config, es: seq<Event>, now: int)
    requires Valid(c) && Ordered(es) && (es != [] ==> Time(es[|es| - 1]) <= now)
    ensures forall ip :: ip in Run(c, Uncollected(es)) ==> BucketOk(c, Run(c, Uncollected(es))[ip], now)
  {
    UncollectedOrdered(es, now);
    TokensInRange(c, Uncollected(es), now);
  }

  lemma RequestKeeps(c: Config, m: map<string, Bucket>, u: map<string, Bucket>, ip: string, at: int, now: int)
    requires Valid(c) && SameBut(c, m, u, at) && (ip in u ==> BucketOk(c, u[ip], at)) && at <= now
    ensures SameBut(c, Apply(c, m, Request(ip, at)), Apply(c, u, Request(ip, at)), now)
  {
    SameTouch(c, m, u, ip, at);
    var m', u' := Apply(c, m, Request(ip, at)), Apply(c, u, Request(ip, at));
    forall x | x in u' && x !in m' ensures exists age :: Earned(c, age) >= c.burst && u'[x].last + age <= now {
      var age :| Earned(c, age) >= c.burst && u[x].last + age <= at;
      assert u'[x].last + age <= now;
    }
  }

  lemma CollectKeeps(c: Config, m: map<string, Bucket>, u: map<string, Bucket>, age: int, at: int, now: int)
    requires SameBut(c, m, u, at) && Earned(c, age) >= c.burst && at <= now
    ensures SameBut(c, Apply(c, m, Collect(age, at)), u, now)
  {
    var m' := Apply(c, m, Collect(age, at));
    forall x | x in u && x !in m' ensures exists a :: Earned(c, a) >= c.burst && u[x].last + a <= now {
      if x in m {
        assert u[x].last + age <= now;
      } else {
        var a :| Earned(c, a) >= c.burst && u[x].last + a <= at;
        assert u[x].last + a <= now;
      }
    }
  }

  lemma {:induction false} CollectingKeeps(c: Config, es: seq<Event>, now: int)
    requires Valid(c) && Ordered(es) && Unhurried(c, es) && (es != [] ==> Time(es[|es| - 1]) <= now)
    ensures SameBut(c, Run(c, es), Run(c, Uncollected(es)), now)
    decreases |es|
  {
    if es != [] {
      var e := es[|es| - 1];
      var past := es[..|es| - 1];
      CollectingKeeps(c, past, Time(e));
      match e {
        case Request(ip, at) =>
          UncollectedInRange(c, past, at);
          RequestKeeps(c, Run(c, past), Run(c, Uncollected(past)), ip, at, now);
          assert Uncollected(es)[..|Uncollected(es)| - 1] == Uncollected(past);
        case Collect(age, at) =>
          assert Uncollected(es) == Uncollected(past);
          CollectKeeps(c, Run(c, past), Run(c, Uncollected(past)), age, at, now);
      }
    }
  }

  /** Collections, at whatever times, change no verdict and no bucket a request touches. */
  lemma PruningIsUnobservable(c: Config, es: seq<Event>)
    requires Valid(c) && Ordered(es) && Unhurried(c, es) && es != [] && es[|es| - 1].Request?
    ensures var u := Uncollected(es); var ip := es[|es| - 1].ip;
      && u != [] && u[|u| - 1] == es[|es| - 1]
      && Allowed(c, es) == Allowed(c, u)
      && ip in Run(c, es) && ip in Run(c, u) && Run(c, es)[ip] == Run(c, u)[ip]
  {
    var e := es[|es| - 1];
    var past := es[..|es| - 1];
    assert Uncollected(es)[..|Uncollected(es)| - 1] == Uncollected(past);
    CollectingKeeps(c, past, e.now);
    UncollectedInRange(c, past, e.now);
    SameTouch(c, Run(c, past), Run(c, Uncollected(past)), e.ip, e.now);
  }

  // ---- The rate bound ----

  /** How many requests of `ip` within [from, to] were allowed. */
  function Granted(c: Config, es: seq<Event>, ip: string, from: int, until: int): nat
    decreases |es|
  {
    if es == [] then 0
    else
      var e := es[|es| - 1];
      Granted(c, es[..|es| - 1], ip, from, until)
      + if e.Request? && e.ip == ip && from <= e.now <= until && Allowed(c, es) then 1 else 0
  }

  lemma LevelGrows(c: Config, b: Option<Bucket>, t: int, now: int)
    requires Valid(c) && t <= now
    ensures Level(c, b, now) <= Level(c, b, t) + Earned(c, now - t)
  {
    EarnedIsNonNegative(c, now - t);
    if b.Some? { EarnedSum(c, t - b.value.last, now - t); }
  }

  /** A call takes the level down by what it grants. */
  lemma TouchSpends(c: Config, b: Option<Bucket>, t: int)
    requires Valid(c)
    ensures Level(c, Some(Touch(c, b, t).0), t) <= Level(c, b, t) - if Touch(c, b, t).1 then 1.0 else 0.0
  {
    assert Earned(c, 0) == 0.0;
  }

  lemma LevelAfterRequest(c: Config, m: map<string, Bucket>, e: Event, ip: string, now: int)
    requires Valid(c) && e.Request? && e.ip == ip && e.now <= now
    ensures Level(c, Get(Apply(c, m, e), ip), now) + (if Touch(c, Get(m, ip), e.now).1 then 1.0 else 0.0)
         <= Level(c, Get(m, ip), e.now) + Earned(c, now - e.now)
  {
    var after := Touch(c, Get(m, ip), e.now).0;
    TouchSpends(c, Get(m, ip), e.now);
    LevelGrows(c, Some(after), e.now, now);
    assert Get(Apply(c, m, e), ip) == Some(after);
  }

  lemma {:induction false} GrantedBound(c: Config, es: seq<Event>, ip: string, from: int, until: int, now: int)
    requires Valid(c) && Ordered(es) && Unhurried(c, es) && from <= now
    requires es != [] ==> Time(es[|es| - 1]) <= now
    ensures Granted(c, es, ip, from, until) as real + Level(c, Get(Run(c, es), ip), now)
         <= c.burst + Earned(c, now - from)
    decreases |es|
  {
    EarnedIsNonNegative(c, now - from);
    if es != [] {
      var e := es[|es| - 1];
      var past := es[..|es| - 1];
      var m := Run(c, past);
      if Time(e) < from {
        NoneBefore(c, es, ip, from, until);
      } else if e.Request? && e.ip == ip {
        GrantedBound(c, past, ip, from, until, e.now);
        LevelAfterRequest(c, m, e, ip, now);
        EarnedSum(c, e.now - from, now - e.now);
      } else {
        GrantedBound(c, past, ip, from, until, now);
        TokensInRange(c, past, now);
        if e.Collect? && ip in m && ip !in Run(c, es) {
          StaleIsFull(c, m[ip], e.age, now);
        }
      }
    }
  }

  lemma {:induction false} NoneBefore(c: Config, es: seq<Event>, ip: string, from: int, until: int)
    requires Ordered(es) && (es != [] ==> Time(es[|es| - 1]) < from)
    ensures Granted(c, es, ip, from, until) == 0
    decreases |es|
  {
    if es != [] {
      NoneBefore(c, es[..|es| - 1], ip, from, until);
    }
  }

  /** For one source, whatever other sources and collections do, the requests allowed in a window
    * number at most the burst plus what the rate earns over it. */
  lemma {:induction false} RateBound(c: Config, es: seq<Event>, ip: string, t1: int, t2: int)
    requires Valid(c) && Ordered(es) && Unhurried(c, es) && t1 <= t2
    ensures Granted(c, es, ip, t1, t2) as real <= c.burst + Earned(c, t2 - t1)
    decreases |es|
  {
    if es != [] && Time(es[|es| - 1]) > t2 {
      RateBound(c, es[..|es| - 1], ip, t1, t2);
    } else {
      GrantedBound(c, es, ip, t1, t2, t2);
      TokensInRange(c, es, t2);
      if ip in Run(c, es) {
        EarnedIsNonNegative(c, t2 - Run(c, es)[ip].last);
      }
    }
  }

  // ---- The bound is exact ----

  lemma {:induction false} UntilPast(c: Config, es: seq<Event>, ip: string, from: int, u: int, v: int)
    requires Ordered(es) && u <= v && (es != [] ==> Time(es[|es| - 1]) <= u)
    ensures Granted(c, es, ip, from, u) == Granted(c, es, ip, from, v)
    decreases |es|
  {
    if es != [] { UntilPast(c, es[..|es| - 1], ip, from, u, v); }
  }

  /** A bucket below the burst after a request holds what it held before, less what was granted. */
  lemma RequestIsExact(c: Config, m: map<string, Bucket>, e: Event, ip: string, now: int)
    requires Valid(c) && e.Request? && e.ip == ip && e.now <= now
    requires Level(c, Get(Apply(c, m, e), ip), now) < c.burst
    ensures Level(c, Get(Apply(c, m, e), ip), now) + (if Touch(c, Get(m, ip), e.now).1 then 1.0 else 0.0)
         == Level(c, Get(m, ip), e.now) + Earned(c, now - e.now)
  {
    assert Get(Apply(c, m, e), ip) == Some(Touch(c, Get(m, ip), e.now).0);
  }

  lemma LevelAtMostBurst(c: Config, b: Option<Bucket>, now: int)
    ensures Level(c, b, now) <= c.burst
  {
  }

  /** Some window ending now leaves a source exactly what it can spend. */
  lemma {:induction false} SomeWindowIsTight(c: Config, es: seq<Event>, ip: string, now: int) returns (from: int)
    requires Valid(c) && Ordered(es) && Unhurried(c, es)
    requires es != [] ==> Time(es[|es| - 1]) <= now
    ensures from <= now
    ensures Granted(c, es, ip, from, now) as real + Level(c, Get(Run(c, es), ip), now)
         == c.burst + Earned(c, now - from)
    decreases |es|
  {
    LevelAtMostBurst(c, Get(Run(c, es), ip), now);
    if Level(c, Get(Run(c, es), ip), now) == c.burst {
      from := now;
      GrantedBound(c, es, ip, now, now, now);
    } else {
      var e, past := es[|es| - 1], es[..|es| - 1];
      if e.Request? && e.ip == ip {
        from := SomeWindowIsTight(c, past, ip, e.now);
        UntilPast(c, past, ip, from, e.now, now);
        RequestIsExact(c, Run(c, past), e, ip, now);
        EarnedSum(c, e.now - from, now - e.now);
      } else {
        from := SomeWindowIsTight(c, past, ip, now);
      }
    }
  }

  /** A request is allowed exactly when, counting it, every window that ends with it stays within the
    * burst plus what the rate earns: no request is refused that the bound has room for. */
  lemma AllowedIffEveryWindowFits(c: Config, es: seq<Event>, ip: string, now: int)
    requires Valid(c) && Ordered(es) && Unhurried(c, es)
    requires es != [] ==> Time(es[|es| - 1]) <= now
    ensures Allowed(c, es + [Request(ip, now)]) <==>
      forall from :: from <= now ==> Granted(c, es, ip, from, now) as real + 1.0 <= c.burst + Earned(c, now - from)
  {
    assert (es + [Request(ip, now)])[..|es|] == es;
    var b := Get(Run(c, es), ip);
    assert Allowed(c, es + [Request(ip, now)]) <==> Level(c, b, now) >= 1.0;
    if Level(c, b, now) >= 1.0 {
      forall from | from <= now
        ensures Granted(c, es, ip, from, now) as real + 1.0 <= c.burst + Earned(c, now - from)
      {
        GrantedBound(c, es, ip, from, now, now);
      }
    } else {
      var from := SomeWindowIsTight(c, es, ip, now);
      assert Granted(c, es, ip, from, now) as real + 1.0 > c.burst + Earned(c, now - from);
    }
  }
}
