/** The RDB snapshot codec of src/rdb.cpp (version 11, string values only).
    Clock readings, the iteration order of the hash map and the checksum are parameters. */
module Rdb {
  import opened Text
  import opened KeyStore

  function Byte(n: nat): char { (n % 256) as char }

  function Unsigned(c: char): nat { c as int % 256 }

  /** Two's complement reading of an unsigned value below `limit`. */
  function Signed(v: nat, limit: nat): int { if 2 * v >= limit then v - limit else v }

  const TWO32: nat := 0x1_0000_0000
  const TWO64: nat := 0x1_0000_0000_0000_0000

  /** `n` in `k` bytes, least significant first; higher bits are cut off. */
  function LittleEndian(n: nat, k: nat): (s: string)
    ensures |s| == k
  {
    if k == 0 then "" else [Byte(n)] + LittleEndian(n / 256, k - 1)
  }

  function FromLittleEndian(s: string): nat {
    if s == "" then 0 else Unsigned(s[0]) + 256 * FromLittleEndian(s[1..])
  }

  function LengthBytes(len: nat): string {
    if len < 64 then [Byte(len)]
    else if len < 16384 then [Byte(0x40 + len / 256), Byte(len)]
    else [Byte(0x80)] + LittleEndian(len, 4)
  }

  function StringBytes(s: string): string { LengthBytes(|s|) + s }

  const OP_AUX: nat := 0xFA
  const OP_SELECTDB: nat := 0xFE
  const OP_RESIZEDB: nat := 0xFB
  const OP_EXPIRE_MS: nat := 0xFC
  const OP_EXPIRE: nat := 0xFD
  const OP_EOF: nat := 0xFF
  const TYPE_STRING: nat := 0x00

  // ---- the reader ----

  /** A value and the cursor after it, or a thrown exception. */
  datatype Read<+T> = Thrown | Got(value: T, next: nat)

  function ReadLength(d: string, p: nat): (r: Read<nat>)
    ensures r.Got? ==> p < r.next <= |d|
  {
    if p >= |d| then Thrown else
    var first := Unsigned(d[p]);
    if first < 0x40 then Got(first, p + 1)
    else if first < 0x80 then
      if p + 2 > |d| then Thrown else Got((first - 0x40) * 256 + Unsigned(d[p + 1]), p + 2)
    else if first < 0xC0 then
      if p + 5 > |d| then Thrown else Got(FromLittleEndian(d[p + 1..p + 5]), p + 5)
    else Got(first, p + 1)
  }

  /** An integer-encoded string of `k` bytes. */
  function ReadInteger(d: string, p: nat, k: nat, limit: nat): (r: Read<string>)
    ensures r.Got? ==> r.next == p + k <= |d|
  {
    if p + k > |d| then Thrown else Got(ToString(Signed(FromLittleEndian(d[p..p + k]), limit)), p + k)
  }

  function ReadString(d: string, p: nat): (r: Read<string>)
    ensures r.Got? ==> p < r.next <= |d|
  {
    if p >= |d| then Thrown else
    var first := Unsigned(d[p]);
    if first == 0xC0 then ReadInteger(d, p + 1, 1, 256)
    else if first == 0xC1 then ReadInteger(d, p + 1, 2, 0x1_0000)
    else if first == 0xC2 then ReadInteger(d, p + 1, 4, TWO32)
    else if first > 0xC2 then Thrown
    else match ReadLength(d, p)
      case Thrown => Thrown
      case Got(len, q) => if q + len > |d| then Thrown else Got(d[q..q + len], q + len)
  }

  /** What `load` carries from one opcode to the next; `sets` numbers the clock readings of `Store::set`. */
  datatype Loading = Loading(pending: Option<int>, sets: nat, data: Data)

  datatype Clocks = Clocks(sysMs: int, steady: nat -> int)

  datatype Step = Threw | Finished | Next(p: nat, st: Loading)

  function Insert(st: Loading, key: string, value: string, clocks: Clocks): Loading {
    match st.pending
    case None => Loading(None, st.sets + 1, Put(st.data, key, value, None, clocks.steady(st.sets)))
    case Some(deadline) =>
      var remaining := deadline - clocks.sysMs;
      if remaining > 0
      then Loading(None, st.sets + 1, Put(st.data, key, value, Some(remaining), clocks.steady(st.sets)))
      else st.(pending := None)
  }

  /** Two strings in a row. */
  function ReadPair(d: string, p: nat): (r: Read<(string, string)>)
    ensures r.Got? ==> p < r.next <= |d|
  {
    var k := ReadString(d, p);
    if k.Thrown? then Thrown else
    var v := ReadString(d, k.next);
    if v.Thrown? then Thrown else Got((k.value, v.value), v.next)
  }

  /** One opcode at `p`. */
  function LoadOp(d: string, p: nat, st: Loading, clocks: Clocks): (r: Step)
    requires p < |d|
    ensures r.Next? ==> p < r.p <= |d|
  {
    var op := Unsigned(d[p]);
    if op == OP_AUX then
      var r := ReadPair(d, p + 1);
      if r.Thrown? then Threw else Next(r.next, st)
    else if op == OP_SELECTDB then
      var r := ReadLength(d, p + 1);
      if r.Thrown? then Threw else Next(r.next, st)
    else if op == OP_RESIZEDB then
      var a := ReadLength(d, p + 1);
      if a.Thrown? then Threw else
      var b := ReadLength(d, a.next);
      if b.Thrown? then Threw else Next(b.next, st)
    else if op == OP_EXPIRE_MS then
      if p + 9 > |d| then Threw
      else Next(p + 9, st.(pending := Some(Signed(FromLittleEndian(d[p + 1..p + 9]), TWO64))))
    else if op == OP_EXPIRE then
      if p + 5 > |d| then Threw
      else Next(p + 5, st.(pending := Some(FromLittleEndian(d[p + 1..p + 5]) * 1000)))
    else if op == OP_EOF then Finished
    else if op == TYPE_STRING then
      var r := ReadPair(d, p + 1);
      if r.Thrown? then Threw else Next(r.next, Insert(st, r.value.0, r.value.1, clocks))
    else Threw
  }

  /** The store after the load, and whether it ended without an exception. */
  datatype Loaded = Loaded(ok: bool, data: Data)

  function LoadFrom(d: string, p: nat, st: Loading, clocks: Clocks): Loaded
    requires p <= |d|
    decreases |d| - p
  {
    if p == |d| then Loaded(true, st.data) else
    match LoadOp(d, p, st, clocks)
    case Threw => Loaded(false, st.data)
    case Finished => Loaded(true, st.data)
    case Next(q, st') => LoadFrom(d, q, st', clocks)
  }

  const EMPTY := Loading(None, 0, map[])

  function LoadResult(d: string, clocks: Clocks): Loaded {
    if |d| < 9 || d[..5] != "REDIS" then Loaded(false, map[]) else LoadFrom(d, 9, EMPTY, clocks)
  }

  method Load(d: string, store: Store, clocks: Clocks) returns (ok: bool)
    modifies store
    ensures Loaded(ok, store.data) == LoadResult(d, clocks)
  {
    hide ReadPair, ReadLength, FromLittleEndian, Signed;
    store.Clear();
    if |d| < 9 || d[..5] != "REDIS" { return false; }
    var p, sets := 9, 0;
    var pending: Option<int> := None;
    while p < |d|
      invariant 9 <= p <= |d|
      invariant LoadFrom(d, p, Loading(pending, sets, store.data), clocks) == LoadResult(d, clocks)
      decreases |d| - p
    {
      var op := Unsigned(d[p]);
      if op == TYPE_STRING {
        var kv := ReadPair(d, p + 1);
        if kv.Thrown? { return false; }
        p := kv.next;
        if pending.Some? {
          var remaining := pending.value - clocks.sysMs;
          if remaining > 0 {
            store.Set(kv.value.0, kv.value.1, Some(remaining), clocks.steady(sets));
            sets := sets + 1;
          }
          pending := None;
        } else {
          store.Set(kv.value.0, kv.value.1, None, clocks.steady(sets));
          sets := sets + 1;
        }
      } else if op == OP_AUX {
        var skipped := ReadPair(d, p + 1);
        if skipped.Thrown? { return false; }
        p := skipped.next;
      } else if op == OP_SELECTDB {
        var db := ReadLength(d, p + 1);
        if db.Thrown? { return false; }
        p := db.next;
      } else if op == OP_RESIZEDB {
        var size := ReadLength(d, p + 1);
        if size.Thrown? { return false; }
        var expires := ReadLength(d, size.next);
        if expires.Thrown? { return false; }
        p := expires.next;
      } else if op == OP_EXPIRE_MS {
        if p + 9 > |d| { return false; }
        pending := Some(Signed(FromLittleEndian(d[p + 1..p + 9]), TWO64));
        p := p + 9;
      } else if op == OP_EXPIRE {
        if p + 5 > |d| { return false; }
        pending := Some(FromLittleEndian(d[p + 1..p + 5]) * 1000);
        p := p + 5;
      } else {
        return op == OP_EOF;
      }
    }
    return true;
  }

  // ---- the writer ----

  /** `duration_cast<milliseconds>`: truncation toward zero. */
  function Millis(ns: int): int { if ns >= 0 then ns / NS_PER_MS else -((-ns) / NS_PER_MS) }

  /** The clock readings of one `serialize`. */
  datatype Instant = Instant(steady: int, sysNs: int, ctime: nat, checksum: nat)

  function Deadline(e: Entry, at: Instant): int
    requires e.expiry.Some?
  {
    Millis(at.sysNs) + Millis(e.expiry.value - at.steady)
  }

  function ExpiryBytes(e: Entry, at: Instant): string {
    if e.expiry.None? then ""
    else
      var deadline := Deadline(e, at);
      [Byte(OP_EXPIRE_MS)] + LittleEndian(if deadline < 0 then deadline % TWO64 else deadline, 8)
  }

  function EntryBytes(key: string, e: Entry, at: Instant): string {
    if e.Expired(at.steady) then ""
    else ExpiryBytes(e, at) + [Byte(TYPE_STRING)] + StringBytes(key) + StringBytes(e.value)
  }

  function EntriesBytes(order: seq<string>, m: Data, at: Instant): string
    requires forall k | k in order :: k in m
  {
    if order == [] then ""
    else EntryBytes(order[0], m[order[0]], at) + EntriesBytes(order[1..], m, at)
  }

  function Aux(key: string, value: string): string { [Byte(OP_AUX)] + StringBytes(key) + value }

  function Preamble(ctime: nat): string {
    Aux("redis-ver", StringBytes("7.2.0"))
    + Aux("redis-bits", [Byte(0xC0), Byte(0x40)])
    + Aux("ctime", [Byte(0xC2)] + LittleEndian(ctime, 4))
    + Aux("used-mem", [Byte(0xC2)] + LittleEndian(0, 4))
    + Aux("aof-base", [Byte(0xC0), Byte(0x00)])
    + [Byte(OP_SELECTDB)] + LengthBytes(0)
  }

  function CountLive(order: seq<string>, m: Data, at: Instant, expiring: bool): nat
    requires forall k | k in order :: k in m
  {
    if order == [] then 0 else
    var e := m[order[0]];
    (if !e.Expired(at.steady) && (expiring ==> e.expiry.Some?) then 1 else 0) + CountLive(order[1..], m, at, expiring)
  }

  function SizeHint(live: nat, expiring: nat): string {
    [Byte(OP_RESIZEDB)] + LengthBytes(live) + LengthBytes(expiring)
  }

  function Serialized(order: seq<string>, m: Data, at: Instant): string
    requires forall k | k in order :: k in m
  {
    "REDIS0011" + Preamble(at.ctime)
    + SizeHint(CountLive(order, m, at, false), CountLive(order, m, at, true))
    + EntriesBytes(order, m, at) + [Byte(OP_EOF)] + LittleEndian(at.checksum, 8)
  }

  method Serialize(order: seq<string>, m: Data, at: Instant) returns (out: string)
    requires forall k | k in order :: k in m
    ensures out == Serialized(order, m, at)
  {
    hide Preamble, SizeHint, EntryBytes, LittleEndian;
    var live, expiring, i := 0, 0, 0;
    while i < |order|
      invariant 0 <= i <= |order|
      invariant live + CountLive(order[i..], m, at, false) == CountLive(order, m, at, false)
      invariant expiring + CountLive(order[i..], m, at, true) == CountLive(order, m, at, true)
    {
      assert order[i..][0] == order[i] && order[i..][1..] == order[i + 1..];
      var e := m[order[i]];
      if !e.Expired(at.steady) {
        live := live + 1;
        if e.expiry.Some? { expiring := expiring + 1; }
      }
      i := i + 1;
    }
    var head := "REDIS0011" + Preamble(at.ctime) + SizeHint(live, expiring);
    var body := WriteEntries(order, m, at);
    out := head + body + [Byte(OP_EOF)] + LittleEndian(at.checksum, 8);
  }

  method WriteEntries(order: seq<string>, m: Data, at: Instant) returns (out: string)
    requires forall k | k in order :: k in m
    ensures out == EntriesBytes(order, m, at)
  {
    hide EntryBytes;
    out := "";
    var i := 0;
    while i < |order|
      invariant 0 <= i <= |order|
      invariant out + EntriesBytes(order[i..], m, at) == EntriesBytes(order, m, at)
    {
      assert order[i..][0] == order[i] && order[i..][1..] == order[i + 1..];
      out := out + EntryBytes(order[i], m[order[i]], at);
      i := i + 1;
    }
  }
}
