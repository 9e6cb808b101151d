/**
 * rate-limit.guard.ts: request counting in windows that open with the first request, with buckets
 * deleted now and then. Its comment calls it a sliding window; what it admits at most in one window
 * length is 2 * limit - 1 requests, and that many can get through.
 */
module RateLimit {
  import opened Core

  datatype Bucket = Bucket(count: nat, resetAt: int)

  /** The limit and window of a route; the key of a request names its route, so they are fixed per key. */
  datatype Options = Options(limit: nat, windowSec: nat) {
    function Window(): nat { windowSec * 1000 }
  }

  type Routes = string -> Options

  datatype Request = Request(key: string, now: int)

  type Buckets = map<string, Bucket>

  const SWEEP_SIZE := 10000

  // ---------- Specification ----------

  /** The bucket of a request, after counting it. */
  function Counted(b: Buckets, r: Request, o: Options): Bucket {
    if r.key in b && r.now < b[r.key].resetAt then b[r.key].(count := b[r.key].count + 1)
    else Bucket(1, r.now + o.Window())
  }

  function Sweep(b: Buckets, now: int): Buckets { map k | k in b && b[k].resetAt > now :: b[k] }

  /** One request. With `sweeps` unset, nothing is ever deleted. */
  function Hit(b: Buckets, r: Request, o: Options, sweeps: bool): (Buckets, bool) {
    var bucket := Counted(b, r, o);
    var stored := b[r.key := bucket];
    if bucket.count > o.limit then (stored, false)
    else if sweeps && |stored| > SWEEP_SIZE then (Sweep(stored, r.now), true)
    else (stored, true)
  }

  /** The decisions over a run of requests. */
  function Play(b: Buckets, reqs: seq<Request>, routes: Routes, sweeps: bool): (oks: seq<bool>)
    ensures |oks| == |reqs|
    decreases |reqs|
  {
    if reqs == [] then []
    else
      var h := Hit(b, reqs[0], routes(reqs[0].key), sweeps);
      [h.1] + Play(h.0, reqs[1..], routes, sweeps)
  }

  // ---------- The guard ----------

  class RateLimitGuard {
    var buckets: map<string, Bucket>

    method CanActivate(options: Option<Options>, r: Request) returns (result: Result<bool>)
      modifies this
      ensures options.None? ==> result == Ok(true) && buckets == old(buckets)
      ensures options.Some? ==>
        var h := Hit(old(buckets), r, options.value, true);
        buckets == h.0 && result == if h.1 then Ok(true) else Err(RateLimited)
    {
      if options.None? { return Ok(true); }
      var o := options.value;
      var bucket := Bucket(0, r.now + o.windowSec * 1000);
      if r.key in buckets && buckets[r.key].resetAt > r.now { bucket := buckets[r.key]; }
      bucket := bucket.(count := bucket.count + 1);
      buckets := buckets[r.key := bucket];
      if bucket.count > o.limit { return Err(RateLimited); }
      if |buckets| > SWEEP_SIZE { DeleteExpired(r.now); }
      return Ok(true);
    }

    method DeleteExpired(now: int)
      modifies this
      ensures buckets == Sweep(old(buckets), now)
    {
      var keys := buckets.Keys;
      while keys != {}
        invariant keys <= old(buckets).Keys
        invariant forall k :: k in buckets <==> k in old(buckets) && (k in keys || old(buckets)[k].resetAt > now)
        invariant forall k :: k in buckets ==> buckets[k] == old(buckets)[k]
        decreases |keys|
      {
        var k :| k in keys;
        keys := keys - {k};
        if buckets[k].resetAt <= now { buckets := buckets - {k}; }
      }
      assert buckets == Sweep(old(buckets), now);
    }
  }

  // ---------- Deleting buckets is invisible ----------

  ghost predicate From(reqs: seq<Request>, t: int) { forall i :: 0 <= i < |reqs| ==> t <= reqs[i].now }

  /** The clock does not run backwards. */
  ghost predicate Ordered(reqs: seq<Request>) {
    forall i, j :: 0 <= i < j < |reqs| ==> reqs[i].now <= reqs[j].now
  }

  /** `b` lacks only buckets that have expired by t. */
  ghost predicate Lacks(b: Buckets, full: Buckets, t: int) {
    && (forall k :: k in b ==> k in full && b[k] == full[k])
    && (forall k :: k in full && k !in b ==> full[k].resetAt <= t)
  }

  lemma HitAlike(b: Buckets, full: Buckets, r: Request, o: Options, t: int)
    requires Lacks(b, full, t) && t <= r.now
    ensures Hit(b, r, o, true).1 == Hit(full, r, o, false).1
    ensures Lacks(Hit(b, r, o, true).0, Hit(full, r, o, false).0, r.now)
  {
    assert Counted(b, r, o) == Counted(full, r, o);
  }

  /** The guard that deletes expired buckets decides exactly like one that keeps them all. */
  lemma {:induction false} SweepingIsInvisible(b: Buckets, full: Buckets, reqs: seq<Request>, routes: Routes, t: int)
    requires Lacks(b, full, t) && From(reqs, t) && Ordered(reqs)
    ensures Play(b, reqs, routes, true) == Play(full, reqs, routes, false)
    decreases |reqs|
  {
    if reqs != [] {
      var o := routes(reqs[0].key);
      HitAlike(b, full, reqs[0], o, t);
      SweepingIsInvisible(Hit(b, reqs[0], o, true).0, Hit(full, reqs[0], o, false).0, reqs[1..], routes, reqs[0].now);
    }
  }

  // ---------- How many requests get through ----------

  /** Accepted requests of a key with s <= time < e. */
  function AcceptedIn(reqs: seq<Request>, oks: seq<bool>, key: string, s: int, e: int): nat
    requires |oks| == |reqs|
    decreases |reqs|
  {
    if reqs == [] then 0
    else
      (if oks[0] && reqs[0].key == key && s <= reqs[0].now < e then 1 else 0) + AcceptedIn(reqs[1..], oks[1..], key, s, e)
  }

  function Min(a: int, b: int): int { if a <= b then a else b }

  /**
   * What is left of the quota for [s, s + window): a window that is still open at s may overlap
   * its beginning, and one more may open inside it; the request that opened the first came before s.
   */
  function Room(b: Buckets, key: string, o: Options, s: int): nat {
    if o.Window() == 0 || o.limit == 0 then 0
    else if key !in b || b[key].resetAt <= s then 2 * o.limit - 1
    else
      var start, unused := b[key].resetAt - o.Window(), o.limit - Min(b[key].count, o.limit);
      if start < s then unused + o.limit else if start < s + o.Window() then unused else 0
  }

  /** The bucket of the key was opened by a request, no later than t. */
  ghost predicate Opened(b: Buckets, key: string, o: Options, t: int) {
    key in b ==> b[key].count >= 1 && b[key].resetAt - o.Window() <= t
  }

  /** One request uses up the quota it is accepted under. */
  lemma HitUsesRoom(b: Buckets, r: Request, o: Options, s: int)
    requires Opened(b, r.key, o, r.now)
    ensures var h := Hit(b, r, o, false);
      && Opened(h.0, r.key, o, r.now)
      && Room(h.0, r.key, o, s) + (if h.1 && s <= r.now < s + o.Window() then 1 else 0) <= Room(b, r.key, o, s)
  {
  }

  lemma {:induction false} AcceptedWithinRoom(b: Buckets, reqs: seq<Request>, routes: Routes, key: string, s: int, t: int)
    requires Opened(b, key, routes(key), t) && From(reqs, t) && Ordered(reqs)
    ensures AcceptedIn(reqs, Play(b, reqs, routes, false), key, s, s + routes(key).Window()) <= Room(b, key, routes(key), s)
    decreases |reqs|
  {
    if reqs != [] {
      var r, o := reqs[0], routes(key);
      var h := Hit(b, r, routes(r.key), false);
      if r.key == key { HitUsesRoom(b, r, o, s); }
      AcceptedWithinRoom(h.0, reqs[1..], routes, key, s, r.now);
      assert Play(b, reqs, routes, false)[1..] == Play(h.0, reqs[1..], routes, false);
    }
  }

  /** Requests of a key that a fresh guard accepts in the window length from s. */
  function Admitted(reqs: seq<Request>, routes: Routes, key: string, s: int): nat {
    AcceptedIn(reqs, Play(map[], reqs, routes, true), key, s, s + routes(key).Window())
  }

  /** In any interval of one window length at most 2 * limit - 1 requests of a key are accepted. */
  lemma AtMostTwiceTheLimit(reqs: seq<Request>, routes: Routes, key: string, s: int)
    requires Ordered(reqs)
    ensures Admitted(reqs, routes, key, s) <= Max(0, 2 * routes(key).limit - 1)
  {
    var t := if reqs == [] then 0 else reqs[0].now;
    SweepingIsInvisible(map[], map[], reqs, routes, t);
    AcceptedWithinRoom(map[], reqs, routes, key, s, t);
  }

  /** In the window that a request opens, at most `limit` are accepted. */
  lemma AtMostLimitPerWindow(b: Buckets, reqs: seq<Request>, routes: Routes)
    requires reqs != [] && Ordered(reqs)
    requires reqs[0].key !in b || b[reqs[0].key].resetAt <= reqs[0].now
    ensures var r, o := reqs[0], routes(reqs[0].key);
      AcceptedIn(reqs, Play(b, reqs, routes, true), r.key, r.now, r.now + o.Window()) <= o.limit
  {
    hide Hit, Room;
    var r, o := reqs[0], routes(reqs[0].key);
    SweepingIsInvisible(b, b, reqs, routes, r.now);
    var h := Hit(b, r, o, false);
    OpeningHit(b, r, o);
    AcceptedWithinRoom(h.0, reqs[1..], routes, r.key, r.now, r.now);
    assert Play(b, reqs, routes, false)[1..] == Play(h.0, reqs[1..], routes, false);
  }

  lemma OpeningHit(b: Buckets, r: Request, o: Options)
    requires r.key !in b || b[r.key].resetAt <= r.now
    ensures var h := Hit(b, r, o, false);
      && Opened(h.0, r.key, o, r.now)
      && (if h.1 && o.Window() > 0 then 1 else 0) + Room(h.0, r.key, o, r.now) <= o.limit
  {
  }

  // ---------- Is it a sliding window? ----------

  function Burst(key: string, now: int, n: nat): seq<Request> { seq(n, _ => Request(key, now)) }

  ghost predicate NeverMoreThanLimit(routes: Routes, key: string) {
    forall reqs, s :: Ordered(reqs) ==> Admitted(reqs, routes, key, s) <= routes(key).limit
  }

  /** The guard is a sliding window, never letting more than `limit` through in one window length, exactly when the limit is at most 1. */
  lemma SlidingWindowIff(routes: Routes, key: string)
    requires routes(key).windowSec > 0
    ensures NeverMoreThanLimit(routes, key) <==> routes(key).limit <= 1
  {
    if routes(key).limit <= 1 {
      forall reqs, s | Ordered(reqs) ensures Admitted(reqs, routes, key, s) <= routes(key).limit {
        AtMostTwiceTheLimit(reqs, routes, key, s);
      }
    } else {
      var reqs, s := StraddlingRun(routes, key);
    }
  }

  /**
   * One request opens a window, limit - 1 more come at its very end, and limit right after it: the
   * bound of AtMostTwiceTheLimit is reached for every limit.
   */
  lemma StraddlingRun(routes: Routes, key: string) returns (reqs: seq<Request>, s: int)
    requires routes(key).windowSec > 0 && routes(key).limit >= 1
    ensures Ordered(reqs)
    ensures Admitted(reqs, routes, key, s) == 2 * routes(key).limit - 1
  {
    hide Play, AcceptedIn, Hit;
    var o := routes(key);
    var w, n := o.Window(), o.limit - 1;
    s := w - 1;
    var first, next := Request(key, 0), Request(key, w);
    var late := Burst(key, w, n);
    reqs := [first] + (Burst(key, w - 1, n) + ([next] + late));
    SweepingIsInvisible(map[], map[], reqs, routes, 0);
    OpeningBucket(map[], first, o);
    var h1 := Hit(map[], first, o, false).0;
    AcceptedCons(map[], first, Burst(key, w - 1, n) + ([next] + late), routes, key, s, s + w);
    var h2 := BurstThen(h1, routes, key, w - 1, n, [next] + late, s, s + w);
    OpeningBucket(h2, next, o);
    AcceptedCons(h2, next, late, routes, key, s, s + w);
    var h3 := BurstThen(Hit(h2, next, o, false).0, routes, key, w, n, [], s, s + w);
    assert late + [] == late;
    NothingAccepted(h3, routes, key, s, s + w);
  }

  lemma OpeningBucket(b: Buckets, r: Request, o: Options)
    requires o.limit >= 1 && (r.key !in b || b[r.key].resetAt <= r.now)
    ensures var h := Hit(b, r, o, false); h.1 && r.key in h.0 && h.0[r.key] == Bucket(1, r.now + o.Window())
  {
  }

  lemma NothingAccepted(b: Buckets, routes: Routes, key: string, s: int, e: int)
    ensures AcceptedIn([], Play(b, [], routes, false), key, s, e) == 0
  {
  }

  /** n requests at one instant, inside an open bucket with room for them, are all accepted; then the rest follows. */
  lemma {:induction false} BurstThen(b: Buckets, routes: Routes, key: string, now: int, n: nat, rest: seq<Request>, s: int, e: int)
    returns (after: Buckets)
    requires key in b && now < b[key].resetAt && b[key].count + n <= routes(key).limit && s <= now < e
    ensures key in after && after[key].resetAt == b[key].resetAt
    ensures var reqs := Burst(key, now, n) + rest;
      AcceptedIn(reqs, Play(b, reqs, routes, false), key, s, e) == n + AcceptedIn(rest, Play(after, rest, routes, false), key, s, e)
    decreases n
  {
    hide Play, AcceptedIn;
    if n == 0 {
      after := b;
      assert Burst(key, now, 0) + rest == rest;
    } else {
      var r := Request(key, now);
      var more := Burst(key, now, n - 1) + rest;
      assert Burst(key, now, n) + rest == [r] + more;
      AcceptedCons(b, r, more, routes, key, s, e);
      after := BurstThen(Hit(b, r, routes(key), false).0, routes, key, now, n - 1, rest, s, e);
    }
  }

  lemma AcceptedCons(b: Buckets, r: Request, rest: seq<Request>, routes: Routes, key: string, s: int, e: int)
    ensures var h := Hit(b, r, routes(r.key), false);
      AcceptedIn([r] + rest, Play(b, [r] + rest, routes, false), key, s, e)
      == (if h.1 && r.key == key && s <= r.now < e then 1 else 0) + AcceptedIn(rest, Play(h.0, rest, routes, false), key, s, e)
  {
    var reqs := [r] + rest;
    assert reqs[0] == r && reqs[1..] == rest;
    var h := Hit(b, r, routes(r.key), false);
    assert Play(b, reqs, routes, false)[1..] == Play(h.0, rest, routes, false);
  }
}
