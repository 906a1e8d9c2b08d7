/** The bytes of a snapshot, as numbers: what any other reader of RDB version 11 would find, and what the loader makes
    of forms the server itself never writes. */
module RdbFormat {
  import opened Text
  import opened KeyStore
  import opened Rdb
  import opened RdbProofs

  // ---- numbers ----

  /** Byte `i` of `n`, the least significant one first. */
  function ByteOf(n: nat, i: nat): (b: nat)
    ensures b < 256
  {
    if i == 0 then n % 256 else ByteOf(n / 256, i - 1)
  }

  lemma {:induction false} LittleEndianAt(n: nat, k: nat, i: nat)
    requires i < k
    ensures LittleEndian(n, k)[i] as int == ByteOf(n, i)
    decreases k
  {
    if i > 0 { LittleEndianAt(n / 256, k - 1, i - 1); }
  }

  /** Lengths below 64 take one byte, below 16384 two with the high bits first, others five, the least significant
      first. */
  lemma LengthForm(len: nat)
    ensures len < 64 ==> LengthBytes(len) == [len as char]
    ensures 64 <= len < 16384 ==> LengthBytes(len) == [(0x40 + len / 256) as char, (len % 256) as char]
    ensures len >= 16384 ==>
      LengthBytes(len) == [0x80 as char, ByteOf(len, 0) as char, ByteOf(len, 1) as char, ByteOf(len, 2) as char,
                           ByteOf(len, 3) as char]
  {
    if len >= 16384 {
      LittleEndianAt(len, 4, 0);
      LittleEndianAt(len, 4, 1);
      LittleEndianAt(len, 4, 2);
      LittleEndianAt(len, 4, 3);
    }
  }

  // ---- the layout ----

  /** A length and that many bytes. */
  function Counted(s: string): string { LengthBytes(|s|) + s }

  /** The milliseconds since the epoch at which an entry ends, in eight bytes; a negative number as its complement. */
  ghost predicate DeadlineBytes(e: Entry, at: Instant, bytes: string)
    requires e.expiry.Some?
  {
    var ms := Deadline(e, at);
    |bytes| == 8 && (ms >= 0 ==> forall i | 0 <= i < 8 :: bytes[i] as int == ByteOf(ms, i))
  }

  /** An entry: nothing if it is dead; otherwise 0xFC and the deadline, if there is one, then 0x00, the key and the
      value. */
  lemma EntryForm(key: string, e: Entry, at: Instant) returns (deadline: string)
    ensures e.Expired(at.steady) ==> EntryBytes(key, e, at) == ""
    ensures e.expiry.Some? ==> DeadlineBytes(e, at, deadline)
    ensures !e.Expired(at.steady) ==>
      EntryBytes(key, e, at) == (if e.expiry.Some? then [0xFC as char] + deadline else "")
                                + [0x00 as char] + Counted(key) + Counted(e.value)
  {
    hide LittleEndian, Deadline, LengthBytes;
    deadline := "";
    if e.expiry.Some? {
      var ms := Deadline(e, at);
      deadline := LittleEndian(if ms < 0 then ms % TWO64 else ms, 8);
      if ms >= 0 {
        forall i | 0 <= i < 8
          ensures deadline[i] as int == ByteOf(ms, i)
        {
          LittleEndianAt(ms, 8, i);
        }
      }
    }
  }

  /** The deadline is the wall clock plus the remaining time, both cut to whole milliseconds. */
  lemma DeadlineForm(e: Entry, at: Instant)
    requires e.expiry.Some? && at.sysNs >= 0 && e.expiry.value >= at.steady
    ensures Deadline(e, at) == at.sysNs / 1_000_000 + (e.expiry.value - at.steady) / 1_000_000
  {
  }

  /** The keys that are alive, or alive with a deadline. */
  ghost function Live(m: Data, at: Instant, expiring: bool): set<string> {
    set k | k in m && !m[k].Expired(at.steady) && (expiring ==> m[k].expiry.Some?)
  }

  lemma {:induction false} CountIsLive(order: seq<string>, m: Data, at: Instant, expiring: bool)
    requires (forall k | k in order :: k in m) && forall i, j | 0 <= i < j < |order| :: order[i] != order[j]
    ensures CountLive(order, m, at, expiring) == |set k | k in order && k in Live(m, at, expiring)|
    decreases |order|
  {
    if order == [] {
      assert (set k | k in order && k in Live(m, at, expiring)) == {};
    } else {
      var first, rest := order[0], order[1..];
      assert first !in rest;
      CountIsLive(rest, m, at, expiring);
      var later := set k | k in rest && k in Live(m, at, expiring);
      assert (set k | k in order && k in Live(m, at, expiring))
          == later + (if first in Live(m, at, expiring) then {first} else {});
    }
  }

  lemma CountsLive(order: seq<string>, m: Data, at: Instant, expiring: bool)
    requires Orders(order, m.Keys)
    ensures CountLive(order, m, at, expiring) == |Live(m, at, expiring)|
  {
    hide CountLive, Live;
    CountIsLive(order, m, at, expiring);
    LiveInOrder(order, m, at, expiring);
  }

  lemma LiveInOrder(order: seq<string>, m: Data, at: Instant, expiring: bool)
    requires Orders(order, m.Keys)
    ensures (set k | k in order && k in Live(m, at, expiring)) == Live(m, at, expiring)
  {
  }

  /** One auxiliary field: 0xFA, the key with its length, the value. */
  function Field(key: string, value: string): string
    requires |key| < 64
  {
    [0xFA as char] + ([|key| as char] + key) + value
  }

  /** What stands before the entries. */
  ghost predicate IsHead(head: string, ctime: string) {
    |ctime| == 4 && head ==
      "REDIS0011"
      + (Field("redis-ver", [5 as char] + "7.2.0")
         + Field("redis-bits", [0xC0 as char, 64 as char])
         + Field("ctime", [0xC2 as char] + ctime)
         + Field("used-mem", [0xC2 as char] + [0 as char, 0 as char, 0 as char, 0 as char])
         + Field("aof-base", [0xC0 as char, 0 as char])
         + [0xFE as char] + [0 as char])
  }

  /** The whole snapshot: the head; 0xFB with the numbers of live and of expiring keys; the entries; 0xFF and the
      checksum. */
  lemma SnapshotForm(order: seq<string>, m: Data, at: Instant) returns (head: string, ctime: string, sum: string)
    requires Orders(order, m.Keys)
    ensures IsHead(head, ctime) && |sum| == 8
    ensures Serialized(order, m, at) ==
      head + ([0xFB as char] + LengthBytes(|Live(m, at, false)|) + LengthBytes(|Live(m, at, true)|))
      + EntriesBytes(order, m, at) + [0xFF as char] + sum
  {
    hide EntriesBytes, LengthBytes, LittleEndian, CountLive, Live, Preamble, Orders;
    CountsLive(order, m, at, false);
    CountsLive(order, m, at, true);
    head, ctime, sum := "REDIS0011" + Preamble(at.ctime), LittleEndian(at.ctime, 4), LittleEndian(at.checksum, 8);
    HeadForm(at.ctime);
    AllIn(order, m);
  }

  lemma AllIn(order: seq<string>, m: Data)
    requires Orders(order, m.Keys)
    ensures forall k | k in order :: k in m
  {
  }

  lemma HeadForm(ctime: nat)
    ensures IsHead("REDIS0011" + Preamble(ctime), LittleEndian(ctime, 4))
  {
    hide LengthBytes, LittleEndian, Aux, Field;
    LengthForm(5);
    LengthForm(0);
    Zero4();
    AuxForm("redis-ver", StringBytes("7.2.0"));
    AuxForm("redis-bits", [Byte(0xC0), Byte(0x40)]);
    AuxForm("ctime", [Byte(0xC2)] + LittleEndian(ctime, 4));
    AuxForm("used-mem", [Byte(0xC2)] + LittleEndian(0, 4));
    AuxForm("aof-base", [Byte(0xC0), Byte(0x00)]);
  }

  lemma Zero4()
    ensures LittleEndian(0, 4) == [0 as char, 0 as char, 0 as char, 0 as char]
  {
    LittleEndianAt(0, 4, 0);
    LittleEndianAt(0, 4, 1);
    LittleEndianAt(0, 4, 2);
    LittleEndianAt(0, 4, 3);
  }

  lemma AuxForm(key: string, value: string)
    requires |key| < 64
    ensures Aux(key, value) == Field(key, value)
  {
  }

  // ---- forms the server never writes ----

  /** A deadline in seconds: 0xFD and four bytes. */
  lemma SecondsForm(d: string, p: nat, seconds: nat, st: Loading, clocks: Clocks)
    requires At(d, p, [0xFD as char] + LittleEndian(seconds, 4)) && seconds < 0x1_0000_0000
    ensures p + 5 <= |d|
    ensures LoadFrom(d, p, st, clocks) == LoadFrom(d, p + 5, st.(pending := Some(seconds * 1000)), clocks)
  {
    hide LittleEndian, LoadFrom, ReadPair, ReadLength, Insert;
    var x := LittleEndian(seconds, 4);
    AtFirst(d, p, 0xFD as char, x);
    assert d[p + 1..p + 5] == x;
    Widths();
    LittleEndianRoundTrip(seconds, 4);
    StepTo(d, p, p + 5, st, st.(pending := Some(seconds * 1000)), clocks);
  }

  /** Strings written as integers of one, two or four bytes read as their decimal text. */
  lemma IntegerForm(d: string, p: nat, mark: nat, k: nat, v: int)
    requires (mark == 0xC0 && k == 1 && -0x80 <= v < 0x80) || (mark == 0xC1 && k == 2 && -0x8000 <= v < 0x8000)
          || (mark == 0xC2 && k == 4 && -0x8000_0000 <= v < 0x8000_0000)
    requires At(d, p, [mark as char] + LittleEndian(if v < 0 then v + Limit(k) else v, k))
    ensures ReadString(d, p) == Got(ToString(v), p + 1 + k)
  {
    hide LittleEndian, FromLittleEndian, ToString, ReadLength;
    var u: nat := if v < 0 then v + Limit(k) else v;
    var x := LittleEndian(u, k);
    AtFirst(d, p, mark as char, x);
    assert d[p + 1..p + 1 + k] == x;
    SmallWidths();
    LittleEndianRoundTrip(u, k);
  }

  /** One more than the largest number of `k` bytes. */
  function Limit(k: nat): nat { if k == 1 then 0x100 else if k == 2 then 0x1_0000 else 0x1_0000_0000 }

  lemma SmallWidths()
    ensures Pow256(1) == 0x100 && Pow256(2) == 0x1_0000 && Pow256(4) == 0x1_0000_0000
  {
    Widths();
  }

  /** What is no snapshot loads nothing; 0xFF ends one, whatever follows; an unknown mark stops the loader with what it
      has. */
  lemma OtherForms(d: string, p: nat, st: Loading, clocks: Clocks)
    ensures |d| < 9 || d[..5] != "REDIS" ==> LoadResult(d, clocks) == Loaded(false, map[])
    ensures p < |d| && d[p] == 0xFF as char ==> LoadFrom(d, p, st, clocks) == Loaded(true, st.data)
    ensures p < |d| && 0x00 < d[p] as int < 0xFA ==> LoadFrom(d, p, st, clocks) == Loaded(false, st.data)
    ensures p == |d| ==> LoadFrom(d, p, st, clocks) == Loaded(true, st.data)
  {
    hide ReadPair, ReadLength, FromLittleEndian, Signed, Insert;
  }
}
