/**
  The fixed-window rate limiter with eviction
  (backend/internal/platform/httpx/httpx.go). Times are integers.
 */
module RateLimit {

  datatype Bucket = Bucket(n: nat, reset: int)

  type Buckets = map<string, Bucket>

  datatype Request = Request(key: string, at: int)

  const MAX_BUCKETS: nat := 50000

  /** Buckets that have expired are dropped. */
  function Evict(b: Buckets, now: int): Buckets {
    map k | k in b && now <= b[k].reset :: b[k]
  }

  predicate Fresh(b: Buckets, r: Request) {
    r.key !in b || b[r.key].reset < r.at
  }

  /** The bucket a request is counted in, itself included. */
  function Counted(b: Buckets, r: Request, window: int): Bucket {
    if Fresh(b, r) then Bucket(1, r.at + window) else Bucket(b[r.key].n + 1, b[r.key].reset)
  }

  /** The limiter that never evicts. */
  function Plain(b: Buckets, r: Request, window: int): Buckets {
    b[r.key := Counted(b, r, window)]
  }

  /** The limiter as it is: too many buckets are swept when a new one is made; a bucket that is swept itself is still counted in, but not kept. */
  function Swept(b: Buckets, r: Request, window: int): Buckets {
    var c := b[r.key := Counted(b, r, window)];
    if Fresh(b, r) && |c| > MAX_BUCKETS then Evict(c, r.at) else c
  }

  /** Whether each request of a run is admitted. */
  function Decisions(b: Buckets, rs: seq<Request>, limit: int, window: int, evicting: bool): (ds: seq<bool>)
    ensures |ds| == |rs|
    decreases |rs|
  {
    if rs == [] then []
    else
      [Counted(b, rs[0], window).n <= limit]
      + Decisions(if evicting then Swept(b, rs[0], window) else Plain(b, rs[0], window), rs[1..], limit, window, evicting)
  }

  predicate NonDecreasing(rs: seq<Request>) {
    forall i, j :: 0 <= i < j < |rs| ==> rs[i].at <= rs[j].at
  }

  /** A new bucket beyond fifty thousand leaves only buckets that have not expired; up to there nothing is dropped. */
  lemma SweepsBeyondLimit(b: Buckets, r: Request, window: int)
    requires r.key !in b
    ensures |b| >= 50000 ==> forall k :: k in Swept(b, r, window) ==> r.at <= Swept(b, r, window)[k].reset
    ensures |b| < 50000 ==> Swept(b, r, window).Keys == b.Keys + {r.key}
  {
    assert b[r.key := Counted(b, r, window)].Keys == b.Keys + {r.key};
  }

  /* ------------------------------------------------- eviction is invisible */

  /** The evicting limiter has a part of the plain one's buckets; what it lacks had expired by `now`. */
  ghost predicate Tracks(e: Buckets, p: Buckets, now: int) {
    && (forall k :: k in e ==> k in p && e[k] == p[k])
    && (forall k :: k in p && k !in e ==> p[k].reset < now)
  }

  lemma {:induction false} EvictionIsInvisibleFrom(e: Buckets, p: Buckets, now: int, rs: seq<Request>, limit: int, window: int)
    requires Tracks(e, p, now) && NonDecreasing(rs) && (rs != [] ==> now <= rs[0].at)
    ensures Decisions(e, rs, limit, window, true) == Decisions(p, rs, limit, window, false)
    decreases |rs|
  {
    if rs != [] {
      var r := rs[0];
      assert Counted(e, r, window) == Counted(p, r, window);
      assert Tracks(Swept(e, r, window), Plain(p, r, window), r.at);
      EvictionIsInvisibleFrom(Swept(e, r, window), Plain(p, r, window), r.at, rs[1..], limit, window);
    }
  }

  /** With nondecreasing times, any limit and any window: the limiter admits exactly what one that never evicts admits. */
  lemma EvictionIsInvisible(rs: seq<Request>, limit: int, window: int)
    requires NonDecreasing(rs)
    ensures Decisions(map[], rs, limit, window, true) == Decisions(map[], rs, limit, window, false)
  {
    if rs != [] { EvictionIsInvisibleFrom(map[], map[], rs[0].at, rs, limit, window); }
  }

  /* ------------------------------------------- how much one window lets through */

  /** Requests of key `k` admitted at times `lo..hi`. */
  function Admitted(rs: seq<Request>, ds: seq<bool>, k: string, lo: int, hi: int): nat
    requires |rs| == |ds|
    decreases |rs|
  {
    if rs == [] then 0
    else (if ds[0] && rs[0].key == k && lo <= rs[0].at <= hi then 1 else 0) + Admitted(rs[1..], ds[1..], k, lo, hi)
  }

  function Count(b: Buckets, rs: seq<Request>, limit: int, window: int, k: string, lo: int, hi: int): nat {
    Admitted(rs, Decisions(b, rs, limit, window, false), k, lo, hi)
  }

  lemma CountStep(b: Buckets, rs: seq<Request>, limit: int, window: int, k: string, lo: int, hi: int)
    requires rs != []
    ensures Count(b, rs, limit, window, k, lo, hi)
         == (if Counted(b, rs[0], window).n <= limit && rs[0].key == k && lo <= rs[0].at <= hi then 1 else 0)
            + Count(Plain(b, rs[0], window), rs[1..], limit, window, k, lo, hi)
  {
    assert Decisions(b, rs, limit, window, false)[1..] == Decisions(Plain(b, rs[0], window), rs[1..], limit, window, false);
  }

  /** What the bucket of `k` still admits. */
  function Room(b: Buckets, limit: int, k: string): nat {
    if k in b && b[k].n < limit then limit - b[k].n else 0
  }

  lemma {:induction false} NothingAfter(b: Buckets, rs: seq<Request>, limit: int, window: int, k: string, lo: int, hi: int)
    requires forall i :: 0 <= i < |rs| ==> rs[i].at > hi
    ensures Count(b, rs, limit, window, k, lo, hi) == 0
    decreases |rs|
  {
    if rs != [] {
      CountStep(b, rs, limit, window, k, lo, hi);
      NothingAfter(Plain(b, rs[0], window), rs[1..], limit, window, k, lo, hi);
    }
  }

  /** A bucket that lasts until `hi` admits no more than its room. */
  lemma {:induction false} WithinOneBucket(b: Buckets, rs: seq<Request>, limit: int, window: int, k: string, lo: int, hi: int)
    requires NonDecreasing(rs) && k in b && hi <= b[k].reset
    ensures Count(b, rs, limit, window, k, lo, hi) <= Room(b, limit, k)
    decreases |rs|
  {
    if rs != [] {
      if rs[0].at > hi {
        NothingAfter(b, rs, limit, window, k, lo, hi);
      } else {
        CountStep(b, rs, limit, window, k, lo, hi);
        WithinOneBucket(Plain(b, rs[0], window), rs[1..], limit, window, k, lo, hi);
      }
    }
  }

  /** From `lo` on, one window lets through the room of the running bucket and one full limit. */
  lemma {:induction false} WithinTwoBuckets(b: Buckets, rs: seq<Request>, limit: nat, window: int, k: string, lo: int)
    requires NonDecreasing(rs) && (rs != [] ==> lo <= rs[0].at)
    ensures Count(b, rs, limit, window, k, lo, lo + window) <= Room(b, limit, k) + limit
    decreases |rs|
  {
    if rs != [] {
      if rs[0].at > lo + window {
        NothingAfter(b, rs, limit, window, k, lo, lo + window);
      } else {
        CountStep(b, rs, limit, window, k, lo, lo + window);
        var c := Plain(b, rs[0], window);
        if rs[0].key == k && Fresh(b, rs[0]) {
          WithinOneBucket(c, rs[1..], limit, window, k, lo, lo + window);
        } else {
          WithinTwoBuckets(c, rs[1..], limit, window, k, lo);
        }
      }
    }
  }

  /** The most one window can let through: the first request of the earlier of two buckets is never in it. */
  function Most(limit: int): nat {
    if limit <= 0 then 0 else 2 * limit - 1
  }

  lemma {:induction false} WindowBoundFrom(b: Buckets, rs: seq<Request>, limit: int, window: int, k: string, lo: int)
    requires NonDecreasing(rs) && (k in b ==> b[k].n > 0)
    ensures Count(b, rs, limit, window, k, lo, lo + window) <= Most(limit)
    decreases |rs|
  {
    if limit <= 0 {
      NoneWithoutLimit(b, rs, limit, window, k, lo);
    } else if rs != [] {
      if rs[0].at < lo {
        CountStep(b, rs, limit, window, k, lo, lo + window);
        WindowBoundFrom(Plain(b, rs[0], window), rs[1..], limit, window, k, lo);
      } else {
        WithinTwoBuckets(b, rs, limit, window, k, lo);
      }
    }
  }

  lemma {:induction false} NoneWithoutLimit(b: Buckets, rs: seq<Request>, limit: int, window: int, k: string, lo: int)
    requires limit <= 0
    ensures Count(b, rs, limit, window, k, lo, lo + window) == 0
    decreases |rs|
  {
    if rs != [] {
      CountStep(b, rs, limit, window, k, lo, lo + window);
      NoneWithoutLimit(Plain(b, rs[0], window), rs[1..], limit, window, k, lo);
    }
  }

  /** The limiter as it is admits at most 2 * limit - 1 requests of a key in any interval of one window length, hence at most 2 * limit. */
  lemma WindowBound(rs: seq<Request>, limit: int, window: int, k: string, lo: int)
    requires NonDecreasing(rs)
    ensures Admitted(rs, Decisions(map[], rs, limit, window, true), k, lo, lo + window) <= Most(limit)
    ensures limit >= 0 ==> Most(limit) <= 2 * limit
  {
    EvictionIsInvisible(rs, limit, window);
    WindowBoundFrom(map[], rs, limit, window, k, lo);
  }

  /* ------------------------------------------------------- the bound is reached */

  function Burst(k: string, at: int, m: nat): (rs: seq<Request>)
    ensures |rs| == m && forall i :: 0 <= i < m ==> rs[i] == Request(k, at)
  {
    if m == 0 then [] else [Request(k, at)] + Burst(k, at, m - 1)
  }

  /** A burst inside one bucket is admitted as far as there is room, and then the rest follows. */
  lemma {:induction false} BurstCounts(b: Buckets, k: string, at: int, m: nat, rest: seq<Request>, limit: nat, window: int, lo: int, hi: int)
    requires k in b && at <= b[k].reset && lo <= at <= hi && b[k].n + m <= limit
    ensures Count(b, Burst(k, at, m) + rest, limit, window, k, lo, hi)
         == m + Count(b[k := Bucket(b[k].n + m, b[k].reset)], rest, limit, window, k, lo, hi)
    decreases m
  {
    if m == 0 {
      assert b[k := Bucket(b[k].n, b[k].reset)] == b && Burst(k, at, m) + rest == rest;
    } else {
      var rs := Burst(k, at, m) + rest;
      assert rs[0] == Request(k, at) && rs[1..] == Burst(k, at, m - 1) + rest;
      CountStep(b, rs, limit, window, k, lo, hi);
      var c := Plain(b, rs[0], window);
      BurstCounts(c, k, at, m - 1, rest, limit, window, lo, hi);
      assert c[k := Bucket(c[k].n + (m - 1), c[k].reset)] == b[k := Bucket(b[k].n + m, b[k].reset)];
    }
  }

  /** One request, a burst at the end of its window, and a full burst just after it. */
  lemma BoundIsReached(limit: nat, window: nat, k: string)
    requires limit > 0 && window > 0
    ensures var rs := [Request(k, 0)] + (Burst(k, window, limit - 1) + Burst(k, window + 1, limit));
      NonDecreasing(rs) && Admitted(rs, Decisions(map[], rs, limit, window, true), k, window, window + window) == 2 * limit - 1
  {
    var late := Burst(k, window + 1, limit);
    var early := Burst(k, window, limit - 1);
    var rs := [Request(k, 0)] + (early + late);
    EvictionIsInvisible(rs, limit, window);
    var lo, hi := window, window + window;
    var b: Buckets := map[k := Bucket(1, window)];
    CountStep(map[], rs, limit, window, k, lo, hi);
    assert rs[1..] == early + late && Plain(map[], rs[0], window) == b;
    BurstCounts(b, k, window, limit - 1, late, limit, window, lo, hi);
    var c: Buckets := map[k := Bucket(limit, window)];
    assert b[k := Bucket(limit, window)] == c;
    FreshBurst(c, k, window + 1, limit, window, lo, hi);
  }

  /** A burst in a fresh bucket is admitted up to the limit. */
  lemma FreshBurst(b: Buckets, k: string, at: int, limit: nat, window: nat, lo: int, hi: int)
    requires limit > 0 && Fresh(b, Request(k, at)) && lo <= at <= hi
    ensures Count(b, Burst(k, at, limit), limit, window, k, lo, hi) == limit
  {
    var rs := Burst(k, at, limit);
    CountStep(b, rs, limit, window, k, lo, hi);
    assert rs[1..] == Burst(k, at, limit - 1) + [];
    BurstCounts(Plain(b, rs[0], window), k, at, limit - 1, [], limit, window, lo, hi);
  }

  /* ------------------------------------------------------------- as it runs */

  class Limiter {
    const limit: int
    const window: int
    var buckets: Buckets

    constructor (limit: int, window: int)
      ensures this.limit == limit && this.window == window && buckets == map[]
    {
      this.limit, this.window, buckets := limit, window, map[];
    }

    /** One request: whether it is admitted, and the buckets afterwards. */
    method Allow(k: string, now: int) returns (admitted: bool)
      modifies this
      ensures admitted == (Counted(old(buckets), Request(k, now), window).n <= limit)
      ensures buckets == Swept(old(buckets), Request(k, now), window)
    {
      var b: Bucket;
      if k !in buckets || now > buckets[k].reset {
        b := Bucket(0, now + window);
        buckets := buckets[k := b];
        if |buckets| > MAX_BUCKETS { Sweep(now); }
      } else {
        b := buckets[k];
      }
      b := b.(n := b.n + 1);
      if k in buckets { buckets := buckets[k := b]; }
      admitted := b.n <= limit;
    }

    method Sweep(now: int)
      modifies this
      ensures buckets == Evict(old(buckets), now)
    {
      var todo := buckets.Keys;
      while todo != {}
        invariant todo <= buckets.Keys && buckets.Keys <= old(buckets).Keys
        invariant forall k :: k in buckets ==> buckets[k] == old(buckets)[k] && (k in todo || now <= buckets[k].reset)
        invariant forall k :: k in old(buckets) && k !in buckets ==> old(buckets)[k].reset < now
        decreases todo
      {
        var k :| k in todo;
        if now > buckets[k].reset { buckets := buckets - {k}; }
        todo := todo - {k};
      }
    }
  }
}
