/** The in-memory cache and the plain TTL map it implements (internal/cache/cache.go). */
module Cache {
  import opened Results
  import opened Counters

  /** Times are nanoseconds; an entry is alive up to and including expiresAt. */
  datatype Entry = Entry(value: string, expiresAt: int)

  type Table = map<string, Entry>

  datatype Op =
    | Get(key: string)
    | Set(key: string, value: string, ttl: int)
    | Delete(key: string)
    | SetNX(key: string, value: string, ttl: int)
    | Incr(key: string, ttl: int)
    | Sweep

  datatype Outcome = Found(value: Option<string>) | Done | Acquired(ok: bool) | Count(n: int)

  predicate Expired(e: Entry, now: int) { now > e.expiresAt }

  /** What a reader at `now` may see under a key. */
  function Live(m: Table, key: string, now: int): Option<Entry> {
    if key in m && !Expired(m[key], now) then Some(m[key]) else None
  }

  // ---- The TTL map: nothing ever removes an expired entry ----

  function TtlStep(t: Table, op: Op, now: int): (Table, Outcome) {
    match op
    case Get(key) =>
      (t, Found(if Live(t, key, now).Some? then Some(t[key].value) else None))
    case Set(key, value, ttl) => (t[key := Entry(value, now + ttl)], Done)
    case Delete(key) => (t - {key}, Done)
    case SetNX(key, value, ttl) =>
      if Live(t, key, now).Some? then (t, Acquired(false))
      else (t[key := Entry(value, now + ttl)], Acquired(true))
    case Incr(key, ttl) =>
      if Live(t, key, now).Some? then
        var n := Next(ParseInt(t[key].value));
        (t[key := t[key].(value := FormatInt(n))], Count(n))
      else (t[key := Entry("1", now + ttl)], Count(1))
    case Sweep => (t, Done)
  }

  // ---- The implementation: lazy deletion on access, and sweeps ----

  /** The private get: drops the key unless it is alive. */
  function Touched(m: Table, key: string, now: int): Table {
    if Live(m, key, now).Some? then m else m - {key}
  }

  function Swept(m: Table, now: int): Table {
    map key | key in m && !Expired(m[key], now) :: m[key]
  }

  function Step(m: Table, op: Op, now: int): (Table, Outcome) {
    match op
    case Get(key) =>
      (Touched(m, key, now), Found(if Live(m, key, now).Some? then Some(m[key].value) else None))
    case Set(key, value, ttl) => (m[key := Entry(value, now + ttl)], Done)
    case Delete(key) => (m - {key}, Done)
    case SetNX(key, value, ttl) =>
      if Live(m, key, now).Some? then (m, Acquired(false))
      else (Touched(m, key, now)[key := Entry(value, now + ttl)], Acquired(true))
    case Incr(key, ttl) =>
      if Live(m, key, now).Some? then
        var n := Next(ParseInt(m[key].value));
        (m[key := m[key].(value := FormatInt(n))], Count(n))
      else (Touched(m, key, now)[key := Entry("1", now + ttl)], Count(1))
    case Sweep => (Swept(m, now), Done)
  }

  /** Every method holds the mutex, so whole calls interleave; `now` is the clock reading inside the call. */
  class MemCache {
    var m: Table

    constructor ()
      ensures m == map[]
    {
      m := map[];
    }

    method Fetch(key: string, now: int) returns (e: Option<Entry>)
      modifies this
      ensures e == (if key in old(m) && now <= old(m)[key].expiresAt then Some(old(m)[key]) else None)
      ensures m == if e.Some? then old(m) else old(m) - {key}
    {
      if key !in m || Expired(m[key], now) {
        m := m - {key};
        return None;
      }
      return Some(m[key]);
    }

    method Get(key: string, now: int) returns (value: Option<string>)
      modifies this
      ensures (m, Found(value)) == Step(old(m), Op.Get(key), now)
      ensures value == (if key in old(m) && now <= old(m)[key].expiresAt then Some(old(m)[key].value) else None)
      ensures m == if value.Some? then old(m) else old(m) - {key}
    {
      var e := Fetch(key, now);
      value := if e.Some? then Some(e.value.value) else None;
    }

    method Set(key: string, value: string, ttl: int, now: int)
      modifies this
      ensures (m, Done) == Step(old(m), Op.Set(key, value, ttl), now)
      ensures m == old(m)[key := Entry(value, now + ttl)]
    {
      m := m[key := Entry(value, now + ttl)];
    }

    method Delete(key: string, now: int)
      modifies this
      ensures (m, Done) == Step(old(m), Op.Delete(key), now)
      ensures m == old(m) - {key}
    {
      m := m - {key};
    }

    method SetNX(key: string, value: string, ttl: int, now: int) returns (ok: bool)
      modifies this
      ensures (m, Acquired(ok)) == Step(old(m), Op.SetNX(key, value, ttl), now)
      ensures ok <==> key !in old(m) || old(m)[key].expiresAt < now
      ensures m == if ok then old(m)[key := Entry(value, now + ttl)] else old(m)
    {
      var e := Fetch(key, now);
      if e.Some? {
        return false;
      }
      m := m[key := Entry(value, now + ttl)];
      return true;
    }

    method Incr(key: string, ttl: int, now: int) returns (n: int)
      modifies this
      ensures (m, Count(n)) == Step(old(m), Op.Incr(key, ttl), now)
      ensures if key in old(m) && now <= old(m)[key].expiresAt
              then
                && n == Next(ParseInt(old(m)[key].value))
                && m == old(m)[key := Entry(FormatInt(n), old(m)[key].expiresAt)]
              else n == 1 && m == old(m)[key := Entry("1", now + ttl)]
    {
      var e := Fetch(key, now);
      if e.None? {
        m := m[key := Entry("1", now + ttl)];
        return 1;
      }
      n := Next(ParseInt(e.value.value));
      m := m[key := e.value.(value := FormatInt(n))];
    }

    /** One tick of the janitor. */
    method SweepExpired(now: int)
      modifies this
      ensures (m, Done) == Step(old(m), Sweep, now)
      ensures forall key ::
        if key in old(m) && now <= old(m)[key].expiresAt then key in m && m[key] == old(m)[key] else key !in m
    {
      var keys := m.Keys;
      while keys != {}
        invariant keys <= old(m).Keys
        invariant m == map key | key in old(m) && (key in keys || !Expired(old(m)[key], now)) :: old(m)[key]
        decreases |keys|
      {
        var key :| key in keys;
        if Expired(m[key], now) {
          m := m - {key};
        }
        keys := keys - {key};
      }
      assert m == Swept(old(m), now);
    }
  }

  // ---- Traces ----

  datatype Event = Event(op: Op, at: int)

  /** Clock readings do not go backwards. */
  predicate Ordered(trace: seq<Event>, from: int) {
    trace == [] || (from <= trace[0].at && Ordered(trace[1..], trace[0].at))
  }

  function Unswept(trace: seq<Event>): seq<Event> {
    if trace == [] then []
    else (if trace[0].op.Sweep? then [] else [trace[0]]) + Unswept(trace[1..])
  }

  /** The results the callers get, in order. */
  function Outcomes(m: Table, trace: seq<Event>): seq<Outcome>
    decreases trace
  {
    if trace == [] then []
    else
      var (m', out) := Step(m, trace[0].op, trace[0].at);
      (if trace[0].op.Sweep? then [] else [out]) + Outcomes(m', trace[1..])
  }

  function TtlOutcomes(t: Table, trace: seq<Event>): seq<Outcome>
    decreases trace
  {
    if trace == [] then []
    else
      var (t', out) := TtlStep(t, trace[0].op, trace[0].at);
      [out] + TtlOutcomes(t', trace[1..])
  }

  ghost predicate SameLive(m: Table, t: Table, now: int) {
    forall key :: Live(m, key, now) == Live(t, key, now)
  }

  lemma SameLiveLater(m: Table, t: Table, now: int, later: int)
    requires SameLive(m, t, now) && now <= later
    ensures SameLive(m, t, later)
  {
    forall key ensures Live(m, key, later) == Live(t, key, later) {
      assert Live(m, key, now) == Live(t, key, now);
    }
  }

  lemma StepRefines(m: Table, t: Table, op: Op, now: int)
    requires SameLive(m, t, now)
    ensures Step(m, op, now).1 == TtlStep(t, op, now).1
    ensures SameLive(Step(m, op, now).0, TtlStep(t, op, now).0, now)
  {
    if !op.Sweep? {
      assert Live(m, op.key, now) == Live(t, op.key, now);
    }
    var m', t' := Step(m, op, now).0, TtlStep(t, op, now).0;
    forall key ensures Live(m', key, now) == Live(t', key, now) {
      assert Live(m, key, now) == Live(t, key, now);
    }
  }

  /** Lazy deletion and sweeps, wherever they fall, are invisible: the cache answers like the TTL map. */
  lemma {:induction false} CacheRefinesTtlMap(m: Table, t: Table, trace: seq<Event>, from: int)
    requires SameLive(m, t, from) && Ordered(trace, from)
    ensures Outcomes(m, trace) == TtlOutcomes(t, Unswept(trace))
    decreases trace
  {
    if trace != [] {
      var op, now := trace[0].op, trace[0].at;
      SameLiveLater(m, t, from, now);
      StepRefines(m, t, op, now);
      if op.Sweep? {
        assert Unswept(trace) == Unswept(trace[1..]);
      }
      CacheRefinesTtlMap(Step(m, op, now).0, TtlStep(t, op, now).0, trace[1..], now);
      if !op.Sweep? {
        assert Unswept(trace)[1..] == Unswept(trace[1..]);
      }
    }
  }

  /** Two runs that differ only in where sweeps happen give every caller the same answers. */
  lemma SweepsAreInvisible(m: Table, trace: seq<Event>, trace': seq<Event>, from: int)
    requires Ordered(trace, from) && Ordered(trace', from) && Unswept(trace) == Unswept(trace')
    ensures Outcomes(m, trace) == Outcomes(m, trace')
  {
    CacheRefinesTtlMap(m, m, trace, from);
    CacheRefinesTtlMap(m, m, trace', from);
  }
}
