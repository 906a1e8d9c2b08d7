/** A snapshot loads back to exactly the entries that are still alive, and their deadlines drift by
    less than two milliseconds. */
module RdbProofs {
  import opened Text
  import opened KeyStore
  import opened Rdb

  ghost predicate At(d: string, p: nat, x: string) {
    p + |x| <= |d| && d[p..p + |x|] == x
  }

  lemma AtSplit(d: string, p: nat, x: string, y: string)
    requires At(d, p, x + y)
    ensures At(d, p, x) && At(d, p + |x|, y)
  {
    assert d[p..p + |x|] == (x + y)[..|x|];
    assert d[p + |x|..p + |x| + |y|] == (x + y)[|x|..];
  }

  lemma AtFirst(d: string, p: nat, c: char, y: string)
    requires At(d, p, [c] + y)
    ensures p < |d| && d[p] == c && At(d, p + 1, y)
  {
    AtSplit(d, p, [c], y);
    assert d[p..p + 1][0] == d[p];
  }

  function Pow256(k: nat): nat { if k == 0 then 1 else 256 * Pow256(k - 1) }

  lemma {:induction false} LittleEndianRoundTrip(n: nat, k: nat)
    requires n < Pow256(k)
    ensures FromLittleEndian(LittleEndian(n, k)) == n
    decreases k
  {
    if k > 0 {
      LittleEndianRoundTrip(n / 256, k - 1);
      assert LittleEndian(n, k)[1..] == LittleEndian(n / 256, k - 1);
    }
  }

  lemma Widths()
    ensures Pow256(4) == TWO32 && Pow256(8) == TWO64
  {
    assert Pow256(2) == 0x1_0000;
    assert Pow256(4) == 0x1_0000 * Pow256(2);
    assert Pow256(6) == 0x1_0000 * Pow256(4);
    assert Pow256(8) == 0x1_0000 * Pow256(6);
  }

  /** All three length forms; a length of 2^32 or more still occupies its five bytes. */
  lemma LengthAt(d: string, p: nat, len: nat)
    requires At(d, p, LengthBytes(len))
    ensures var r := ReadLength(d, p);
            r.Got? && r.next == p + |LengthBytes(len)| && (len < TWO32 ==> r.value == len)
    ensures Unsigned(d[p]) < 0xC0
  {
    hide LittleEndian, FromLittleEndian;
    var x := LengthBytes(len);
    AtFirst(d, p, x[0], x[1..]);
    if 64 <= len < 16384 {
      AtFirst(d, p + 1, x[1], x[2..]);
    } else if 16384 <= len {
      assert d[p + 1..p + 5] == LittleEndian(len, 4);
      Widths();
      if len < TWO32 { LittleEndianRoundTrip(len, 4); }
    }
  }

  lemma StringAt(d: string, p: nat, s: string)
    requires |s| < TWO32 && At(d, p, StringBytes(s))
    ensures ReadString(d, p) == Got(s, p + |StringBytes(s)|)
  {
    hide LengthBytes, ReadLength;
    AtSplit(d, p, LengthBytes(|s|), s);
    LengthAt(d, p, |s|);
  }

  lemma PairAt(d: string, p: nat, k: string, v: string)
    requires |k| < TWO32 && |v| < TWO32 && At(d, p, StringBytes(k) + StringBytes(v))
    ensures ReadPair(d, p) == Got((k, v), p + |StringBytes(k) + StringBytes(v)|)
  {
    hide StringBytes, ReadString;
    AtSplit(d, p, StringBytes(k), StringBytes(v));
    StringAt(d, p, k);
    StringAt(d, p + |StringBytes(k)|, v);
  }

  // ---- the preamble is passed over ----

  /** The bytes of `x` are consumed without any effect, wherever they stand. */
  ghost predicate Skipped(x: string) {
    forall d: string, p: nat, st: Loading, clocks: Clocks | At(d, p, x) ::
      LoadFrom(d, p, st, clocks) == LoadFrom(d, p + |x|, st, clocks)
  }

  lemma SkipBoth(x: string, y: string)
    requires Skipped(x) && Skipped(y)
    ensures Skipped(x + y)
  {
    forall d: string, p: nat, st: Loading, clocks: Clocks | At(d, p, x + y)
      ensures LoadFrom(d, p, st, clocks) == LoadFrom(d, p + |x + y|, st, clocks)
    {
      AtSplit(d, p, x, y);
      assert LoadFrom(d, p, st, clocks) == LoadFrom(d, p + |x|, st, clocks);
      assert LoadFrom(d, p + |x|, st, clocks) == LoadFrom(d, p + |x| + |y|, st, clocks);
    }
  }

  lemma StepTo(d: string, p: nat, q: nat, st: Loading, st': Loading, clocks: Clocks)
    requires p < |d| && LoadOp(d, p, st, clocks) == Next(q, st')
    ensures LoadFrom(d, p, st, clocks) == LoadFrom(d, q, st', clocks)
  {
  }

  /** `v` reads as some string wherever it stands. */
  ghost predicate ReadsAsString(v: string) {
    forall d: string, p: nat | At(d, p, v) :: ReadString(d, p).Got? && ReadString(d, p).next == p + |v|
  }

  lemma IntegerReads(tag: nat, body: string)
    requires (tag == 0xC0 && |body| == 1) || (tag == 0xC2 && |body| == 4)
    ensures ReadsAsString([Byte(tag)] + body)
  {
    var v := [Byte(tag)] + body;
    forall d: string, p: nat | At(d, p, v)
      ensures ReadString(d, p).Got? && ReadString(d, p).next == p + |v|
    {
      AtFirst(d, p, Byte(tag), body);
    }
  }

  lemma StringReads(s: string)
    requires |s| < TWO32
    ensures ReadsAsString(StringBytes(s))
  {
    hide StringBytes, ReadString;
    forall d: string, p: nat | At(d, p, StringBytes(s))
      ensures ReadString(d, p).Got? && ReadString(d, p).next == p + |StringBytes(s)|
    {
      StringAt(d, p, s);
    }
  }

  lemma AuxOp(d: string, p: nat, q: nat, next: nat, st: Loading, clocks: Clocks)
    requires p < |d| && Unsigned(d[p]) == OP_AUX
    requires var a := ReadString(d, p + 1); a.Got? && a.next == q
    requires var b := ReadString(d, q); b.Got? && b.next == next
    ensures LoadOp(d, p, st, clocks) == Next(next, st)
  {
    hide ReadString, ReadLength;
  }

  lemma AuxAt(d: string, p: nat, key: string, v: string, st: Loading, clocks: Clocks)
    requires At(d, p, Aux(key, v)) && |key| < TWO32 && ReadsAsString(v)
    ensures LoadFrom(d, p, st, clocks) == LoadFrom(d, p + |Aux(key, v)|, st, clocks)
  {
    hide StringBytes, ReadString, LoadFrom, LoadOp;
    assert Aux(key, v) == [Byte(OP_AUX)] + (StringBytes(key) + v);
    AtFirst(d, p, Byte(OP_AUX), StringBytes(key) + v);
    AtSplit(d, p + 1, StringBytes(key), v);
    StringAt(d, p + 1, key);
    AuxOp(d, p, p + 1 + |StringBytes(key)|, p + |Aux(key, v)|, st, clocks);
    StepTo(d, p, p + |Aux(key, v)|, st, st, clocks);
  }

  lemma AuxSkipped(key: string, v: string)
    requires |key| < TWO32 && ReadsAsString(v)
    ensures Skipped(Aux(key, v))
  {
    hide LoadFrom, Aux;
    forall d: string, p: nat, st: Loading, clocks: Clocks | At(d, p, Aux(key, v))
      ensures LoadFrom(d, p, st, clocks) == LoadFrom(d, p + |Aux(key, v)|, st, clocks)
    {
      AuxAt(d, p, key, v, st, clocks);
    }
  }

  lemma SelectSkipped()
    ensures Skipped([Byte(OP_SELECTDB)] + LengthBytes(0))
  {
    hide LoadFrom;
    forall d: string, p: nat, st: Loading, clocks: Clocks | At(d, p, [Byte(OP_SELECTDB)] + LengthBytes(0))
      ensures LoadFrom(d, p, st, clocks) == LoadFrom(d, p + 2, st, clocks)
    {
      AtFirst(d, p, Byte(OP_SELECTDB), LengthBytes(0));
      LengthAt(d, p + 1, 0);
      StepTo(d, p, p + 2, st, st, clocks);
    }
  }

  lemma HintOp(d: string, p: nat, q: nat, next: nat, st: Loading, clocks: Clocks)
    requires p < |d| && Unsigned(d[p]) == OP_RESIZEDB
    requires var a := ReadLength(d, p + 1); a.Got? && a.next == q
    requires var b := ReadLength(d, q); b.Got? && b.next == next
    ensures LoadOp(d, p, st, clocks) == Next(next, st)
  {
    hide ReadLength, ReadPair;
  }

  lemma HintAt(d: string, p: nat, live: nat, expiring: nat, st: Loading, clocks: Clocks)
    requires At(d, p, SizeHint(live, expiring))
    ensures LoadFrom(d, p, st, clocks) == LoadFrom(d, p + |SizeHint(live, expiring)|, st, clocks)
  {
    hide LengthBytes, ReadLength, LoadFrom, LoadOp;
    var a, b := LengthBytes(live), LengthBytes(expiring);
    assert SizeHint(live, expiring) == [Byte(OP_RESIZEDB)] + (a + b);
    AtFirst(d, p, Byte(OP_RESIZEDB), a + b);
    AtSplit(d, p + 1, a, b);
    LengthAt(d, p + 1, live);
    LengthAt(d, p + 1 + |a|, expiring);
    HintOp(d, p, p + 1 + |a|, p + 1 + |a| + |b|, st, clocks);
    StepTo(d, p, p + |SizeHint(live, expiring)|, st, st, clocks);
  }

  lemma PreambleSkipped(ctime: nat)
    ensures Skipped(Preamble(ctime))
  {
    hide Skipped, Aux, LengthBytes, StringBytes, ReadsAsString, LittleEndian;
    var a1, v1 := "redis-ver", StringBytes("7.2.0");
    var a2, v2 := "redis-bits", [Byte(0xC0), Byte(0x40)];
    var a3, v3 := "ctime", [Byte(0xC2)] + LittleEndian(ctime, 4);
    var a4, v4 := "used-mem", [Byte(0xC2)] + LittleEndian(0, 4);
    var a5, v5 := "aof-base", [Byte(0xC0), Byte(0x00)];
    StringReads("7.2.0");
    AuxSkipped(a1, v1);
    IntegerReads(0xC0, [Byte(0x40)]);
    assert v2 == [Byte(0xC0)] + [Byte(0x40)];
    AuxSkipped(a2, v2);
    IntegerReads(0xC2, LittleEndian(ctime, 4));
    AuxSkipped(a3, v3);
    IntegerReads(0xC2, LittleEndian(0, 4));
    AuxSkipped(a4, v4);
    IntegerReads(0xC0, [Byte(0x00)]);
    assert v5 == [Byte(0xC0)] + [Byte(0x00)];
    AuxSkipped(a5, v5);
    SelectSkipped();
    var x := Aux(a1, v1);
    SkipBoth(x, Aux(a2, v2));
    x := x + Aux(a2, v2);
    SkipBoth(x, Aux(a3, v3));
    x := x + Aux(a3, v3);
    SkipBoth(x, Aux(a4, v4));
    x := x + Aux(a4, v4);
    SkipBoth(x, Aux(a5, v5));
    x := x + Aux(a5, v5);
    var select := [Byte(OP_SELECTDB)] + LengthBytes(0);
    SkipBoth(x, select);
    assert Preamble(ctime) == x + select;
  }

  // ---- the entries ----

  /** Deadlines that an `int64_t` can hold, and strings whose length fits in 32 bits. */
  ghost predicate Encodable(key: string, e: Entry, at: Instant) {
    && |key| < TWO32 && |e.value| < TWO32
    && (e.expiry.Some? ==> -LLONG_MAX - 1 <= Deadline(e, at) <= LLONG_MAX)
  }

  /** What the loader does with one entry of the snapshot. */
  function Received(st: Loading, key: string, e: Entry, at: Instant, clocks: Clocks): Loading {
    if e.Expired(at.steady) then st
    else Insert(st.(pending := if e.expiry.Some? then Some(Deadline(e, at)) else None), key, e.value, clocks)
  }

  lemma DeadlineRoundTrip(v: int)
    requires -LLONG_MAX - 1 <= v <= LLONG_MAX
    ensures Signed(FromLittleEndian(LittleEndian(if v < 0 then v % TWO64 else v, 8)), TWO64) == v
  {
    var u := if v < 0 then v + TWO64 else v;
    assert v < 0 ==> v % TWO64 == u;
    Widths();
    LittleEndianRoundTrip(u, 8);
  }

  lemma ExpiryAt(d: string, p: nat, e: Entry, at: Instant, st: Loading, clocks: Clocks)
    requires At(d, p, ExpiryBytes(e, at)) && st.pending.None?
    requires e.expiry.Some? ==> -LLONG_MAX - 1 <= Deadline(e, at) <= LLONG_MAX
    ensures LoadFrom(d, p, st, clocks)
         == LoadFrom(d, p + |ExpiryBytes(e, at)|,
                     st.(pending := if e.expiry.Some? then Some(Deadline(e, at)) else None), clocks)
  {
    hide LittleEndian, Deadline, LoadFrom, At;
    if e.expiry.Some? {
      var v := Deadline(e, at);
      var x := LittleEndian(if v < 0 then v % TWO64 else v, 8);
      AtFirst(d, p, Byte(OP_EXPIRE_MS), x);
      ExpiryOp(d, p, v, st, clocks);
      StepTo(d, p, p + 9, st, st.(pending := Some(v)), clocks);
    }
  }

  lemma ExpiryOp(d: string, p: nat, v: int, st: Loading, clocks: Clocks)
    requires p < |d| && d[p] == Byte(OP_EXPIRE_MS) && -LLONG_MAX - 1 <= v <= LLONG_MAX
    requires At(d, p + 1, LittleEndian(if v < 0 then v % TWO64 else v, 8))
    ensures p + 9 <= |d| && LoadOp(d, p, st, clocks) == Next(p + 9, st.(pending := Some(v)))
  {
    hide LittleEndian, FromLittleEndian, Signed, ReadPair, ReadLength, Insert;
    var x := LittleEndian(if v < 0 then v % TWO64 else v, 8);
    assert d[p + 1..p + 9] == x;
    DeadlineRoundTrip(v);
  }

  lemma PairOpAt(d: string, p: nat, key: string, value: string, st: Loading, clocks: Clocks)
    requires At(d, p, [Byte(TYPE_STRING)] + (StringBytes(key) + StringBytes(value)))
    requires |key| < TWO32 && |value| < TWO32
    ensures LoadFrom(d, p, st, clocks)
         == LoadFrom(d, p + 1 + |StringBytes(key) + StringBytes(value)|, Insert(st, key, value, clocks), clocks)
  {
    hide StringBytes, ReadPair, Insert, LoadFrom;
    var kv := StringBytes(key) + StringBytes(value);
    AtFirst(d, p, Byte(TYPE_STRING), kv);
    PairAt(d, p + 1, key, value);
    StepTo(d, p, p + 1 + |kv|, st, Insert(st, key, value, clocks), clocks);
  }

  lemma EntryAt(d: string, p: nat, key: string, e: Entry, at: Instant, st: Loading, clocks: Clocks)
    requires At(d, p, EntryBytes(key, e, at)) && Encodable(key, e, at) && st.pending.None?
    ensures LoadFrom(d, p, st, clocks)
         == LoadFrom(d, p + |EntryBytes(key, e, at)|, Received(st, key, e, at, clocks), clocks)
  {
    hide LoadFrom, StringBytes, ExpiryBytes, EntryBytes, Insert, Deadline, At;
    EntryParts(key, e, at);
    if !e.Expired(at.steady) {
      var x, y := ExpiryBytes(e, at), [Byte(TYPE_STRING)] + (StringBytes(key) + StringBytes(e.value));
      AtSplit(d, p, x, y);
      ExpiryAt(d, p, e, at, st, clocks);
      var st' := st.(pending := if e.expiry.Some? then Some(Deadline(e, at)) else None);
      PairOpAt(d, p + |x|, key, e.value, st', clocks);
    }
  }

  lemma EntryParts(key: string, e: Entry, at: Instant)
    ensures EntryBytes(key, e, at) ==
      if e.Expired(at.steady) then ""
      else ExpiryBytes(e, at) + ([Byte(TYPE_STRING)] + (StringBytes(key) + StringBytes(e.value)))
  {
    hide ExpiryBytes, StringBytes;
  }

  function ReceivedAll(st: Loading, order: seq<string>, m: Data, at: Instant, clocks: Clocks): Loading
    requires forall k | k in order :: k in m
    decreases |order|
  {
    if order == [] then st
    else ReceivedAll(Received(st, order[0], m[order[0]], at, clocks), order[1..], m, at, clocks)
  }

  ghost predicate AllEncodable(m: Data, at: Instant) {
    forall k | k in m :: Encodable(k, m[k], at)
  }

  lemma {:induction false} EntriesAt(d: string, p: nat, order: seq<string>, m: Data, at: Instant, st: Loading,
                                     clocks: Clocks)
    requires forall k | k in order :: k in m
    requires At(d, p, EntriesBytes(order, m, at)) && AllEncodable(m, at) && st.pending.None?
    ensures LoadFrom(d, p, st, clocks)
         == LoadFrom(d, p + |EntriesBytes(order, m, at)|, ReceivedAll(st, order, m, at, clocks), clocks)
    ensures ReceivedAll(st, order, m, at, clocks).pending.None?
    decreases |order|
  {
    hide LoadFrom, EntryBytes, Deadline;
    if order != [] {
      var x, y := EntryBytes(order[0], m[order[0]], at), EntriesBytes(order[1..], m, at);
      AtSplit(d, p, x, y);
      EntryAt(d, p, order[0], m[order[0]], at, st, clocks);
      EntriesAt(d, p + |x|, order[1..], m, at, Received(st, order[0], m[order[0]], at, clocks), clocks);
    }
  }

  lemma EofAt(d: string, p: nat, st: Loading, clocks: Clocks)
    requires At(d, p, [Byte(OP_EOF)])
    ensures LoadFrom(d, p, st, clocks) == Loaded(true, st.data)
  {
    AtFirst(d, p, Byte(OP_EOF), "");
    assert LoadOp(d, p, st, clocks) == Finished;
  }

  lemma AtWhole(d: string, pre: string, x: string, post: string)
    requires d == pre + x + post
    ensures At(d, |pre|, x)
  {
  }

  lemma LoadOfSerialized(order: seq<string>, m: Data, at: Instant, clocks: Clocks)
    requires forall k | k in order :: k in m
    requires AllEncodable(m, at)
    ensures LoadResult(Serialized(order, m, at), clocks)
         == Loaded(true, ReceivedAll(EMPTY, order, m, at, clocks).data)
  {
    hide LoadFrom, Preamble, SizeHint, EntriesBytes, LittleEndian, CountLive, ReceivedAll, Skipped, At, AllEncodable;
    var d := Serialized(order, m, at);
    var live, expiring := CountLive(order, m, at, false), CountLive(order, m, at, true);
    var a, b, c, e := Preamble(at.ctime), SizeHint(live, expiring), EntriesBytes(order, m, at), [Byte(OP_EOF)];
    var tail := LittleEndian(at.checksum, 8);
    assert d[..5] == "REDIS";
    assert d == "REDIS0011" + a + (b + c + e + tail);
    AtWhole(d, "REDIS0011", a, b + c + e + tail);
    PreambleSkipped(at.ctime);
    SkipAt(d, 9, a, EMPTY, clocks);
    assert d == ("REDIS0011" + a) + b + (c + e + tail);
    AtWhole(d, "REDIS0011" + a, b, c + e + tail);
    HintAt(d, 9 + |a|, live, expiring, EMPTY, clocks);
    assert d == ("REDIS0011" + a + b) + c + (e + tail);
    AtWhole(d, "REDIS0011" + a + b, c, e + tail);
    EntriesAt(d, 9 + |a| + |b|, order, m, at, EMPTY, clocks);
    assert d == ("REDIS0011" + a + b + c) + e + tail;
    AtWhole(d, "REDIS0011" + a + b + c, e, tail);
    EofAt(d, 9 + |a| + |b| + |c|, ReceivedAll(EMPTY, order, m, at, clocks), clocks);
  }

  lemma SkipAt(d: string, p: nat, x: string, st: Loading, clocks: Clocks)
    requires Skipped(x) && At(d, p, x)
    ensures LoadFrom(d, p, st, clocks) == LoadFrom(d, p + |x|, st, clocks)
  {
  }

  // ---- which entries arrive ----

  /** An entry arrives when it was alive at the snapshot and its encoded deadline is ahead at load time. */
  predicate Survives(e: Entry, at: Instant, sysMs: int) {
    !e.Expired(at.steady) && (e.expiry.Some? ==> Deadline(e, at) > sysMs)
  }

  predicate ReloadedAt(e: Entry, got: Entry, at: Instant, clocks: Clocks, i: nat)
    requires e.expiry.Some?
  {
    got.expiry == Some(clocks.steady(i) + (Deadline(e, at) - clocks.sysMs) * NS_PER_MS)
  }

  /** The reloaded entry: same value, and the encoded remaining time counted from some clock reading. */
  ghost predicate Reloaded(e: Entry, got: Entry, at: Instant, clocks: Clocks) {
    && got.value == e.value
    && (e.expiry.None? ==> got.expiry.None?)
    && (e.expiry.Some? ==> exists i: nat :: ReloadedAt(e, got, at, clocks, i))
  }

  lemma ReceivedEntry(st: Loading, key: string, e: Entry, at: Instant, clocks: Clocks)
    requires st.pending.None?
    ensures var st' := Received(st, key, e, at, clocks);
            && st'.pending.None?
            && (forall k | k != key ::
                  (k in st'.data) == (k in st.data) && (k in st.data ==> st'.data[k] == st.data[k]))
            && (Survives(e, at, clocks.sysMs) ==> key in st'.data && Reloaded(e, st'.data[key], at, clocks))
            && (!Survives(e, at, clocks.sysMs) ==> st'.data == st.data)
  {
    hide Deadline;
    var st' := Received(st, key, e, at, clocks);
    if Survives(e, at, clocks.sysMs) && e.expiry.Some? {
      assert ReloadedAt(e, st'.data[key], at, clocks, st.sets);
    }
  }

  lemma {:induction false} ReceivedAllEntries(st: Loading, order: seq<string>, m: Data, at: Instant, clocks: Clocks)
    requires forall k | k in order :: k in m
    requires forall i, j | 0 <= i < j < |order| :: order[i] != order[j]
    requires st.pending.None?
    ensures var got := ReceivedAll(st, order, m, at, clocks).data;
            && (forall k | k !in order :: (k in got) == (k in st.data) && (k in got ==> got[k] == st.data[k]))
            && (forall k | k in order && k !in st.data :: k in got <==> Survives(m[k], at, clocks.sysMs))
            && (forall k | k in order && k !in st.data && k in got :: Reloaded(m[k], got[k], at, clocks))
    decreases |order|
  {
    hide Survives, Reloaded, Received;
    if order != [] {
      var key := order[0];
      var st' := Received(st, key, m[key], at, clocks);
      ReceivedEntry(st, key, m[key], at, clocks);
      ReceivedAllEntries(st', order[1..], m, at, clocks);
      assert key !in order[1..];
      assert forall k | k in order :: k == key || k in order[1..];
    }
  }

  /** Round trip: for every iteration order, loading a snapshot gives exactly the surviving entries. */
  lemma RoundTrip(order: seq<string>, m: Data, at: Instant, clocks: Clocks)
    requires Orders(order, m.Keys) && AllEncodable(m, at)
    ensures var r := LoadResult(Serialized(order, m, at), clocks);
            && r.ok
            && (forall k :: k in r.data <==> k in m && Survives(m[k], at, clocks.sysMs))
            && (forall k | k in r.data :: Reloaded(m[k], r.data[k], at, clocks))
  {
    hide LoadResult, Serialized, Survives, Reloaded, ReceivedAll, AllEncodable;
    LoadOfSerialized(order, m, at, clocks);
    ReceivedAllEntries(EMPTY, order, m, at, clocks);
    var got := ReceivedAll(EMPTY, order, m, at, clocks).data;
    assert forall k | k in got :: k in order;
  }

  // ---- how far a deadline moves ----

  /** System time at which an entry dies, for a host whose two clocks read `steady` and `sysNs` together. */
  function DiesAt(expiry: int, steady: int, sysNs: int): int { sysNs + (expiry - steady) }

  /** The new deadline is more than -2 ms and less than +1 ms away from the old one. */
  predicate DriftBounded(e: Entry, got: Entry, at: Instant, loadSteady: int, loadSysNs: int)
    requires e.expiry.Some?
  {
    got.expiry.Some? &&
    -2 * NS_PER_MS
    < DiesAt(got.expiry.value, loadSteady, loadSysNs) - DiesAt(e.expiry.value, at.steady, at.sysNs)
    < NS_PER_MS
  }

  /** Less than 2 ms to live at `loadSysNs`. */
  predicate Dying(e: Entry, at: Instant, loadSysNs: int) {
    e.expiry.Some? && DiesAt(e.expiry.value, at.steady, at.sysNs) < loadSysNs + 2 * NS_PER_MS
  }

  lemma DriftOfEntry(e: Entry, got: Entry, at: Instant, loadSteady: int, loadSysNs: int)
    requires e.expiry.Some? && !e.Expired(at.steady) && at.sysNs >= 0 && loadSysNs >= 0
    requires got.expiry == Some(loadSteady + (Deadline(e, at) - Millis(loadSysNs)) * NS_PER_MS)
    ensures DriftBounded(e, got, at, loadSteady, loadSysNs)
  {
  }

  lemma DroppedWasDying(e: Entry, at: Instant, loadSysNs: int)
    requires at.sysNs >= 0 && loadSysNs >= at.sysNs && !Survives(e, at, Millis(loadSysNs))
    ensures Dying(e, at, loadSysNs)
  {
  }

  /** Through a whole snapshot, with each host reading its two clocks at one instant: deadlines drift by
      more than -2 ms and less than +1 ms, and a key with 2 ms left at load time is never lost. */
  lemma TtlDrift(order: seq<string>, m: Data, at: Instant, clocks: Clocks, loadSteady: int, loadSysNs: int)
    requires Orders(order, m.Keys) && AllEncodable(m, at)
    requires at.sysNs >= 0 && loadSysNs >= at.sysNs
    requires clocks.sysMs == Millis(loadSysNs) && forall i :: clocks.steady(i) == loadSteady
    ensures var got := LoadResult(Serialized(order, m, at), clocks).data;
      && (forall k | k in got && k in m && m[k].expiry.Some? :: DriftBounded(m[k], got[k], at, loadSteady, loadSysNs))
      && (forall k | k in m && k !in got :: Dying(m[k], at, loadSysNs))
  {
    hide LoadResult, Serialized, AllEncodable, Deadline, DriftBounded, Dying, Millis;
    RoundTrip(order, m, at, clocks);
    var got := LoadResult(Serialized(order, m, at), clocks).data;
    forall k | k in got && k in m && m[k].expiry.Some?
      ensures DriftBounded(m[k], got[k], at, loadSteady, loadSysNs)
    {
      var i: nat :| ReloadedAt(m[k], got[k], at, clocks, i);
      DriftOfEntry(m[k], got[k], at, loadSteady, loadSysNs);
    }
    forall k | k in m && k !in got
      ensures Dying(m[k], at, loadSysNs)
    {
      DroppedWasDying(m[k], at, loadSysNs);
    }
  }
}
