/** Fixed-window rate limiting over the cache's counters (internal/httpapi/middleware.go). */
module RateLimit {
  import opened Counters
  import opened Cache

  /** Rejects the request when the key exceeds `max` hits in its window. */
  method RateLimit(cache: MemCache, key: string, max: int, window: int, now: int) returns (ok: bool)
    modifies cache
    ensures cache.m == Step(old(cache.m), Incr("rl:" + key, window), now).0
    ensures ok <==> Admits(old(cache.m), Event(Incr("rl:" + key, window), now), max)
  {
    var n := cache.Incr("rl:" + key, window, now);
    return n <= max;
  }

  predicate Admits(m: Table, e: Event, max: int)
    requires e.op.Incr?
  {
    Step(m, e.op, e.at).1.n <= max
  }

  /** The hits on a key that a trace admits with times in [a, b]. */
  function Admitted(m: Table, trace: seq<Event>, key: string, max: int, a: int, b: int): nat
    decreases trace
  {
    if trace == [] then 0
    else
      var e := trace[0];
      (if e.op.Incr? && e.op.key == key && a <= e.at <= b && Admits(m, e, max) then 1 else 0)
      + Admitted(Step(m, e.op, e.at).0, trace[1..], key, max, a, b)
  }

  /** The limiter is the only user of its key, always with the same window; anything may happen to other keys. */
  predicate OnlyHits(trace: seq<Event>, key: string, window: int) {
    forall i :: 0 <= i < |trace| ==>
      trace[i].op.Sweep? || (trace[i].op.key == key ==> trace[i].op == Incr(key, window))
  }

  /** The current window ends at `end` with `count` hits so far; after its end the entry may be gone already. */
  ghost predicate InWindow(m: Table, key: string, now: int, end: int, count: int) {
    match Live(m, key, now)
    case Some(e) => e == Entry(FormatInt(count), end)
    case None => now > end
  }

  function Left(max: nat, count: int): nat { if count < max then max - count else 0 }

  /** x added up n times: keeps the induction below linear. */
  function Times(x: nat, n: nat): nat {
    if n == 0 then 0 else Times(x, n - 1) + x
  }

  lemma {:induction false} TimesIsProduct(x: nat, n: nat)
    ensures Times(x, n) == x * n
  {
    if n > 0 {
      TimesIsProduct(x, n - 1);
    }
  }

  /** One event: it hits the open window, opens a new one after the end, or does not concern the key. */
  lemma WindowStep(m: Table, e: Event, key: string, window: nat, max: nat, now: int, end: int, count: int)
    returns (end': int, count': int)
    requires now <= e.at && OnlyHits([e], key, window)
    requires InWindow(m, key, now, end, count) && 1 <= count < MAX_INT64
    ensures InWindow(Step(m, e.op, e.at).0, key, e.at, end', count')
    ensures var hit := e.op.Incr? && e.op.key == key;
            if !hit then end' == end && count' == count
            else if e.at <= end then end' == end && count' == count + 1 && (Admits(m, e, max) <==> count < max)
            else end' == e.at + window && count' == 1 && (Admits(m, e, max) <==> 1 <= max)
  {
    assert [e][0] == e;
    end', count' := end, count;
    assert Live(m, key, e.at) == if e.at <= end then Live(m, key, now) else Live(m, key, e.at);
    if e.op.Incr? && e.op.key == key {
      CounterRoundTrip(count);
      if e.at <= end {
        count' := count + 1;
      } else {
        end', count' := e.at + window, 1;
        assert FormatInt(1) == "1";
      }
    }
  }

  /** With j further windows able to open by b, at most the hits left in the open window and j full windows follow. */
  lemma {:induction false} WindowBound(
    m: Table, trace: seq<Event>, key: string, window: nat, max: nat, a: int, b: int,
    now: int, end: int, count: int, left: nat, j: nat)
    requires Ordered(trace, now) && OnlyHits(trace, key, window)
    requires InWindow(m, key, now, end, count) && 1 <= count && count + |trace| < MAX_INT64
    requires left >= Left(max, count) || now > end
    requires b <= end + Times(window + 1, j)
    ensures Admitted(m, trace, key, max, a, b) <= left + Times(max, j)
    decreases trace
  {
    if trace != [] {
      var e := trace[0];
      assert OnlyHits([e], key, window) by { assert [e][0] == trace[0]; }
      assert forall i :: 0 <= i < |trace[1..]| ==> trace[1..][i] == trace[i + 1];
      var end', count' := WindowStep(m, e, key, window, max, now, end, count);
      var m' := Step(m, e.op, e.at).0;
      if e.op.Incr? && e.op.key == key && e.at > end {
        if j == 0 {
          NothingAfter(m, trace, key, max, a, b);
        } else {
          WindowBound(m', trace[1..], key, window, max, a, b, e.at, end', count', Left(max, 1), j - 1);
        }
      } else {
        WindowBound(m', trace[1..], key, window, max, a, b, e.at, end', count', if now > end then left else Left(max, count'), j);
      }
    }
  }

  lemma {:induction false} NothingAfter(m: Table, trace: seq<Event>, key: string, max: int, a: int, b: int)
    requires trace != [] ==> b < trace[0].at && Ordered(trace, trace[0].at)
    ensures Admitted(m, trace, key, max, a, b) == 0
    decreases trace
  {
    if trace != [] {
      NothingAfter(Step(m, trace[0].op, trace[0].at).0, trace[1..], key, max, a, b);
    }
  }

  /** The key holds no live entry, or the counter of some window. */
  ghost predicate CounterKey(m: Table, key: string, now: int, hits: nat) {
    match Live(m, key, now)
    case Some(e) => exists count :: 1 <= count <= hits && e == Entry(FormatInt(count), e.expiresAt)
    case None => true
  }

  /** Over any run, a closed interval as long as n windows admits at most (n+1) * max hits of one key. */
  lemma {:induction false} RateLimitBound(
    m: Table, trace: seq<Event>, key: string, window: nat, max: nat, a: int, b: int, n: nat, now: int, hits: nat)
    requires Ordered(trace, now) && OnlyHits(trace, key, window)
    requires CounterKey(m, key, now, hits) && hits + |trace| + 1 < MAX_INT64
    requires b <= a + n * window
    ensures Admitted(m, trace, key, max, a, b) <= (n + 1) * max
    decreases trace
  {
    if trace == [] {
      assert 0 <= (n + 1) * max;
    } else {
      var e := trace[0];
      var m' := Step(m, e.op, e.at).0;
      var end, count;
      if Live(m, key, now).Some? {
        end := m[key].expiresAt;
        count :| 1 <= count <= hits && m[key] == Entry(FormatInt(count), end);
      } else {
        end, count := now - 1, 1;
      }
      assert OnlyHits([e], key, window) by { assert [e][0] == trace[0]; }
      assert forall i :: 0 <= i < |trace[1..]| ==> trace[1..][i] == trace[i + 1];
      TimesIsProduct(window + 1, n);
      TimesIsProduct(max, n);
      assert (window + 1) * n == n * window + n && (n + 1) * max == max * n + max;
      if e.at >= a && end >= a {
        WindowBound(m, trace, key, window, max, a, b, now, end, count, Left(max, count), n);
      } else if e.at >= a && e.at > end {
        // The window is over: what follows can be charged to windows that open at e.at or later.
        assert Live(m, key, e.at).None?;
        WindowBound(m, trace, key, window, max, a, b, e.at, e.at - 1, 1, 0, n + 1);
      } else {
        var end', count' := WindowStep(m, e, key, window, max, now, end, count);
        RateLimitBound(m', trace[1..], key, window, max, a, b, n, e.at, hits + 1);
      }
    }
  }
}
