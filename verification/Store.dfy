/** The key space of src/store.cpp. Times are nanoseconds of the host's steady clock; a method
    that reads the clock takes the readings as parameters. */
module KeyStore {
  import opened Text

  const NS_PER_MS: int := 1_000_000
  const SWEEP_LIMIT: nat := 20

  datatype Entry = Entry(value: string, expiry: Option<int>) {
    predicate Expired(now: int) { expiry.Some? && now >= expiry.value }
  }

  type Data = map<string, Entry>

  function Put(m: Data, key: string, value: string, px: Option<int>, now: int): Data {
    m[key := Entry(value, if px.Some? then Some(now + px.value * NS_PER_MS) else None)]
  }

  function Lookup(m: Data, key: string, now: int): Option<string> {
    if key in m && !m[key].Expired(now) then Some(m[key].value) else None
  }

  /** An iteration order of the hash map: every key, once. */
  ghost predicate Orders(order: seq<string>, keys: set<string>) {
    && (forall k | k in order :: k in keys)
    && (forall k | k in keys :: k in order)
    && forall i, j | 0 <= i < j < |order| :: order[i] != order[j]
  }

  /** What a sweep may do: drop a few distinct keys, each expired by `now`. */
  ghost predicate Sweepable(m: Data, victims: seq<string>, now: int) {
    && |victims| <= SWEEP_LIMIT
    && (forall i | 0 <= i < |victims| :: victims[i] in m && m[victims[i]].Expired(now))
    && forall i, j | 0 <= i < j < |victims| :: victims[i] != victims[j]
  }

  function Without(m: Data, victims: seq<string>): Data {
    map k | k in m && k !in victims :: m[k]
  }

  ghost predicate Monotone(clock: nat -> int) {
    forall i, j | i <= j :: clock(i) <= clock(j)
  }

  class Store {
    var data: Data

    constructor ()
      ensures data == map[]
    {
      data := map[];
    }

    method Set(key: string, value: string, px: Option<int>, now: int)
      modifies this
      ensures data == Put(old(data), key, value, px, now)
    {
      var expiry := None;
      if px.Some? { expiry := Some(now + px.value * NS_PER_MS); }
      data := data[key := Entry(value, expiry)];
    }

    /** An expired key reads as absent even before it is swept. */
    method Get(key: string, now: int) returns (r: Option<string>)
      ensures r == Lookup(data, key, now)
    {
      if key !in data { return None; }
      if data[key].Expired(now) { return None; }
      return Some(data[key].value);
    }

    method Del(key: string) returns (existed: bool)
      modifies this
      ensures existed == (key in old(data)) && data == old(data) - {key}
    {
      existed := key in data;
      data := data - {key};
    }

    method Clear()
      modifies this
      ensures data == map[]
    {
      data := map[];
    }

    /** The active sweep: look at the first few keys of the iteration, reading the clock for each. */
    method EvictExpired(order: seq<string>, clock: nat -> int) returns (expired: seq<string>)
      requires Orders(order, data.Keys) && Monotone(clock)
      modifies this
      ensures Sweepable(old(data), expired, clock(SWEEP_LIMIT))
      ensures data == Without(old(data), expired)
      ensures forall i | 0 <= i < |order| && i < 20 :: old(data)[order[i]].Expired(clock(i)) <==> order[i] in expired
      ensures forall k | k in expired :: k in if |order| < 20 then order else order[..20]
    {
      expired := [];
      var checked := 0;
      while checked < |order| && checked < SWEEP_LIMIT
        invariant 0 <= checked <= |order| && checked <= SWEEP_LIMIT && |expired| <= checked
        invariant Sweepable(old(data), expired, clock(SWEEP_LIMIT))
        invariant forall k | k in expired :: k in order[..checked]
        invariant data == Without(old(data), expired)
        invariant forall i | 0 <= i < checked :: old(data)[order[i]].Expired(clock(i)) <==> order[i] in expired
      {
        var key := order[checked];
        assert key in old(data) && key !in order[..checked];
        if data[key].Expired(clock(checked)) {
          assert clock(checked) <= clock(SWEEP_LIMIT);
          expired := expired + [key];
          data := data - {key};
        }
        checked := checked + 1;
      }
    }
  }

  // ---- sweeping is invisible to readers ----

  datatype Op =
    | OpSet(key: string, value: string, px: Option<int>)
    | OpDel(key: string)
    | OpGet(key: string)
    | OpSweep(victims: seq<string>)

  datatype Timed = Timed(op: Op, now: int)

  function Apply(m: Data, t: Timed): Data {
    match t.op
    case OpSet(key, value, px) => Put(m, key, value, px, t.now)
    case OpDel(key) => m - {key}
    case OpGet(_) => m
    case OpSweep(victims) => Without(m, victims)
  }

  /** The answers to the GETs of a run. */
  function Answers(m: Data, run: seq<Timed>): seq<Option<string>>
    decreases |run|
  {
    if run == [] then [] else
    var rest := Answers(Apply(m, run[0]), run[1..]);
    if run[0].op.OpGet? then [Lookup(m, run[0].op.key, run[0].now)] + rest else rest
  }

  function NoSweeps(run: seq<Timed>): seq<Timed> {
    if run == [] then [] else
    (if run[0].op.OpSweep? then [] else [run[0]]) + NoSweeps(run[1..])
  }

  /** A run the server can make: the clock never goes back and sweeps only drop expired keys. */
  ghost predicate Possible(m: Data, run: seq<Timed>, now: int)
    decreases |run|
  {
    run == [] ||
    (now <= run[0].now
     && (run[0].op.OpSweep? ==> Sweepable(m, run[0].op.victims, run[0].now))
     && Possible(Apply(m, run[0]), run[1..], run[0].now))
  }

  /** `swept` lacks only keys of `full` that expired by `now`. */
  ghost predicate LacksOnlyExpired(swept: Data, full: Data, now: int) {
    && (forall k | k in swept :: k in full && swept[k] == full[k])
    && (forall k | k in full && k !in swept :: full[k].Expired(now))
  }

  lemma {:induction false} SweepsInvisibleFrom(swept: Data, full: Data, run: seq<Timed>, now: int)
    requires LacksOnlyExpired(swept, full, now) && Possible(swept, run, now)
    ensures Answers(swept, run) == Answers(full, NoSweeps(run))
    decreases |run|
  {
    if run != [] {
      var t := run[0];
      var full' := if t.op.OpSweep? then full else Apply(full, t);
      assert LacksOnlyExpired(swept, full, t.now);
      SweepsInvisibleFrom(Apply(swept, t), full', run[1..], t.now);
      assert NoSweeps(run) == (if t.op.OpSweep? then [] else [t]) + NoSweeps(run[1..]);
      assert t.op.OpSweep? ==> NoSweeps(run) == NoSweeps(run[1..]);
      assert !t.op.OpSweep? ==> NoSweeps(run)[1..] == NoSweeps(run[1..]);
    }
  }

  /** Sweeps anywhere in a run never change what a GET answers. */
  lemma SweepsInvisible(m: Data, run: seq<Timed>, now: int)
    requires Possible(m, run, now)
    ensures Answers(m, run) == Answers(m, NoSweeps(run))
  {
    SweepsInvisibleFrom(m, m, run, now);
  }
}
