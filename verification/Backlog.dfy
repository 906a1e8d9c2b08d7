/** The circular replication backlog of src/replication_backlog.hpp. */
module Backlog {

  /** The last `n` bytes. */
  function Newest(s: string, n: nat): (r: string)
    requires n <= |s|
    ensures |r| == n
  {
    s[|s| - n..]
  }

  lemma NewestAppend(a: string, b: string, n: nat)
    requires n <= |a| + |b|
    ensures Newest(a + b, n) == if n <= |b| then Newest(b, n) else Newest(a, n - |b|) + b
  {
  }

  lemma NewestNested(s: string, m: nat, n: nat)
    requires n <= m <= |s|
    ensures Newest(Newest(s, m), n) == Newest(s, n)
  {
  }

  /** What the ring stands for: `ring` is its bytes from the oldest to the newest, `pos` where the next one goes, and
      the newest byte is the one before offset `end`. */
  datatype View = View(capacity: nat, hasData: bool, start: int, end: int, ring: string, pos: nat) {
    predicate Contains(offset: int) { hasData && start <= offset <= end }

    /** The newest `end - offset` bytes. */
    function From(offset: int): string {
      if 0 <= end - offset <= |ring| then Newest(ring, end - offset) else ""
    }

    /** A feed at any offset, contiguous or not. */
    function Feed(data: string, offset: int): View {
      if data == "" then this else
      var first := if hasData then start else offset;
      var last := offset + |data|;
      View(capacity, true, if last - first > capacity then last - capacity else first, last,
           Newest(ring + data, |ring|), Wrapped(pos, |data|, capacity))
    }

    /** The ring is not cleared, so what used to be its start is its oldest byte again. */
    function SetStart(offset: int): View {
      View(capacity, true, offset, offset,
           if pos <= |ring| then ring[|ring| - pos..] + ring[..|ring| - pos] else ring, 0)
    }
  }

  function Blank(capacity: nat): View { View(capacity, false, 0, 0, seq(capacity, _ => '\0'), 0) }

  /** The ring position `n` bytes after `pos`. */
  function Wrapped(pos: nat, n: nat, capacity: nat): nat
    decreases n, pos
  {
    if capacity == 0 || pos >= capacity then 0
    else if pos + n < capacity then pos + n
    else Wrapped(0, n - (capacity - pos), capacity)
  }

  // ---- contiguous feeds ----

  /** The ring holds the newest bytes of `fed`, the first of which has offset `base`. */
  ghost predicate Tracks(v: View, base: int, fed: string) {
    && |v.ring| == v.capacity && v.end == base + |fed|
    && (!v.hasData ==> fed == "")
    && (v.hasData ==> v.start == if |fed| > v.capacity then v.end - v.capacity else base)
    && var held := if |fed| > v.capacity then v.capacity else |fed|;
    Newest(v.ring, held) == Newest(fed, held)
  }

  /** Feeding at the end keeps track of all that was fed. */
  lemma FeedTracks(v: View, base: int, fed: string, data: string)
    requires Tracks(v, base, fed)
    ensures Tracks(v.Feed(data, v.end), base, fed + data)
  {
    if data == "" {
      assert fed + data == fed;
    } else {
      FeedRing(v.ring, fed, data);
    }
  }

  lemma FeedRing(ring: string, fed: string, data: string)
    requires var held := if |fed| > |ring| then |ring| else |fed|; Newest(ring, held) == Newest(fed, held)
    ensures var all := fed + data; var held := if |all| > |ring| then |ring| else |all|;
            Newest(Newest(ring + data, |ring|), held) == Newest(all, held)
  {
    hide Newest;
    var all := fed + data;
    var held := if |all| > |ring| then |ring| else |all|;
    NewestNested(ring + data, |ring|, held);
    NewestAppend(ring, data, held);
    NewestAppend(fed, data, held);
    if held > |data| {
      var before := if |fed| > |ring| then |ring| else |fed|;
      NewestNested(ring, before, held - |data|);
      NewestNested(fed, before, held - |data|);
    }
  }

  lemma SetStartTracks(v: View, offset: int)
    requires |v.ring| == v.capacity
    ensures Tracks(v.SetStart(offset), offset, "")
  {
  }

  /** Exactly the offsets of the newest `capacity` bytes (or of all of them) are held, both ends included, and reading
      from one gives everything from there to the end. */
  lemma TracksReads(v: View, base: int, fed: string)
    requires Tracks(v, base, fed)
    ensures forall o :: v.Contains(o) <==> v.hasData && base <= o && v.end - v.capacity <= o <= v.end
    ensures forall o | v.Contains(o) :: base <= o <= base + |fed| && v.From(o) == fed[o - base..]
  {
    forall o | v.Contains(o)
      ensures base <= o <= base + |fed| && v.From(o) == fed[o - base..]
    {
      var held := if |fed| > v.capacity then v.capacity else |fed|;
      var n := v.end - o;
      NewestNested(v.ring, held, n);
      NewestNested(fed, held, n);
    }
  }

  /** Contiguous feeds, one after the other. */
  function FeedAll(v: View, parts: seq<string>): View {
    if parts == [] then v else
    var n := |parts| - 1;
    var before := FeedAll(v, parts[..n]);
    before.Feed(parts[n], before.end)
  }

  function Joined(parts: seq<string>): string {
    if parts == [] then "" else Joined(parts[..|parts| - 1]) + parts[|parts| - 1]
  }

  /** After any series of contiguous feeds, of any sizes, the held offsets and what is read from them. */
  lemma {:induction false} SeriesOfFeeds(v: View, base: int, fed: string, parts: seq<string>)
    requires Tracks(v, base, fed)
    ensures var w := FeedAll(v, parts); var all := fed + Joined(parts);
      && w.end == base + |all|
      && (forall o :: w.Contains(o) <==> w.hasData && base <= o && w.end - w.capacity <= o <= w.end)
      && (forall o | w.Contains(o) :: base <= o <= base + |all| && w.From(o) == all[o - base..])
  {
    hide FeedAll, Joined, Tracks;
    FeedAllTracks(v, base, fed, parts);
    TracksReads(FeedAll(v, parts), base, fed + Joined(parts));
    TracksEnd(FeedAll(v, parts), base, fed + Joined(parts));
  }

  lemma TracksEnd(v: View, base: int, fed: string)
    requires Tracks(v, base, fed)
    ensures v.end == base + |fed|
  {
  }

  lemma {:induction false} FeedAllTracks(v: View, base: int, fed: string, parts: seq<string>)
    requires Tracks(v, base, fed)
    ensures Tracks(FeedAll(v, parts), base, fed + Joined(parts))
    decreases |parts|
  {
    hide Tracks;
    if parts == [] {
      assert fed + Joined(parts) == fed;
    } else {
      var n := |parts| - 1;
      FeedAllTracks(v, base, fed, parts[..n]);
      FeedTracks(FeedAll(v, parts[..n]), base, fed + Joined(parts[..n]), parts[n]);
      assert fed + Joined(parts) == (fed + Joined(parts[..n])) + parts[n];
    }
  }

  /** A feed at any offset, also behind the end, as after the offset was zeroed, or past it: the window keeps its start
      unless it would get too wide, ends behind the data, and is empty if that lies before its start. Reading from an
      offset in it gives the newest bytes of all that was ever fed, whatever offsets they were fed at. */
  lemma AnyFeed(v: View, base: int, fed: string, data: string, offset: int, o: int)
    requires Tracks(v, base, fed) && v.hasData && data != ""
    ensures var t, last := v.Feed(data, offset), offset + |data|;
      && t.start == (if last - v.start > v.capacity then last - v.capacity else v.start) && t.end == last
      && (t.Contains(o) <==> t.start <= o <= last)
      && (last < v.start ==> !t.Contains(o))
      && (t.Contains(o) && last - o <= |fed| + |data| ==> t.From(o) == Newest(fed + data, last - o))
  {
    hide Newest;
    var t, last := v.Feed(data, offset), offset + |data|;
    if t.Contains(o) && last - o <= |fed| + |data| {
      var n := last - o;
      var held := if |fed| > v.capacity then v.capacity else |fed|;
      NewestNested(v.ring + data, |v.ring|, n);
      NewestAppend(v.ring, data, n);
      NewestAppend(fed, data, n);
      if n > |data| {
        NewestNested(v.ring, held, n - |data|);
        NewestNested(fed, held, n - |data|);
      }
    }
  }

  /** So what is read is right, byte for byte, if and only if the bytes between `o` and the feed are the ones the ring
      holds last; for a contiguous feed they always are. */
  lemma FeedReadsRight(v: View, base: int, fed: string, data: string, offset: int, o: int)
    requires Tracks(v, base, fed) && v.hasData && data != "" && base <= o <= offset <= v.end
    requires v.Feed(data, offset).Contains(o)
    ensures v.Feed(data, offset).From(o) == fed[o - base..offset - base] + data
       <==> fed[o - base..offset - base] == Newest(fed, offset - o)
  {
    hide Newest;
    AnyFeed(v, base, fed, data, offset, o);
    NewestAppend(fed, data, offset + |data| - o);
    var a, b := fed[o - base..offset - base], Newest(fed, offset - o);
    assert offset > o ==> v.Feed(data, offset).From(o) == b + data;
    if a + data == b + data {
      assert a == (a + data)[..|a|] && b == (b + data)[..|b|];
    }
    if offset == o { NewestWhole(data); }
  }

  lemma NewestWhole(s: string)
    ensures Newest(s, |s|) == s
  {
  }

  class ReplicationBacklog {
    const capacity: nat
    const buffer: array<char>
    var writePos: nat
    var startOffset: int
    var endOffset: int
    var hasData: bool

    /** From the oldest byte, where the next one goes, once around. */
    ghost function Ring(): (r: string)
      requires writePos <= buffer.Length
      reads this, buffer
      ensures |r| == buffer.Length
    {
      buffer[writePos..] + buffer[..writePos]
    }

    ghost function Abs(): View
      reads this, buffer
    {
      View(capacity, hasData, startOffset, endOffset, if writePos <= buffer.Length then Ring() else "", writePos)
    }

    ghost predicate Valid()
      reads this, buffer
    {
      buffer.Length == capacity > 0 && writePos < capacity && endOffset - startOffset <= capacity
    }

    constructor (capacity: nat)
      requires capacity > 0
      ensures Valid() && fresh(buffer)
      ensures Abs() == Blank(capacity)
    {
      this.capacity := capacity;
      buffer := new char[capacity](_ => '\0');
      writePos, startOffset, endOffset, hasData := 0, 0, 0, false;
    }

    /** One `memcpy` of `part` at `writePos`. */
    method Copy(part: string)
      requires writePos + |part| <= buffer.Length
      modifies buffer
      ensures buffer[..] == old(buffer[..writePos]) + part + old(buffer[writePos + |part|..])
    {
      forall k | 0 <= k < |part| {
        buffer[writePos + k] := part[k];
      }
    }

    /** The same, and `writePos` moves on. */
    method CopyIn(part: string)
      requires buffer.Length == capacity > 0 && writePos + |part| <= capacity && writePos < capacity
      modifies this`writePos, buffer
      ensures writePos == (if old(writePos) + |part| == capacity then 0 else old(writePos) + |part|)
      ensures Ring() == Newest(old(Ring()) + part, capacity)
    {
      ghost var before, pos := buffer[..], writePos;
      var n := writePos + |part|;
      Copy(part);
      ghost var after := buffer[..];
      Rotated(before, part, after, pos);
      SmallMod(n, capacity);
      writePos := n % capacity;
      assert Ring() == after[writePos..] + after[..writePos];
    }

    /** The copy loop: `data` goes in behind what is there, lap after lap if need be. */
    method Write(data: string)
      requires buffer.Length == capacity > 0 && writePos < capacity
      modifies this`writePos, buffer
      ensures writePos == Wrapped(old(writePos), |data|, capacity) < capacity
      ensures Ring() == Newest(old(Ring()) + data, capacity)
    {
      hide Newest, Ring;
      var left := data;
      ghost var ring, done := Ring(), "";
      NothingPushed(ring);
      while left != ""
        invariant done + left == data && writePos < capacity
        invariant Wrapped(writePos, |left|, capacity) == Wrapped(old(writePos), |data|, capacity)
        invariant |ring| == capacity && Ring() == Newest(ring + done, capacity)
        decreases |left|
      {
        var chunk := if |left| < capacity - writePos then |left| else capacity - writePos;
        var part := left[..chunk];
        CopyIn(part);
        Pushed(ring, done, part);
        assert (done + part) + left[chunk..] == done + left;
        done := done + part;
        left := left[chunk..];
      }
      assert done == data;
    }

    /** Feeds of any size, also larger than the ring, at any offset. */
    method Feed(data: string, globalOffset: int)
      requires Valid()
      modifies this, buffer
      ensures Valid() && Abs() == old(Abs()).Feed(data, globalOffset)
    {
      if data == "" { return; }
      if !hasData {
        startOffset, hasData := globalOffset, true;
      }
      Write(data);
      endOffset := globalOffset + |data|;
      if endOffset - startOffset > capacity {
        startOffset := endOffset - capacity;
      }
    }

    method Contains(offset: int) returns (r: bool)
      requires Valid()
      ensures r <==> Abs().Contains(offset)
    {
      r := hasData && offset >= startOffset && offset <= endOffset;
    }

    /** Everything from `offset` on; the caller has checked `Contains`. */
    method Read(offset: int) returns (r: string)
      requires Valid() && Abs().Contains(offset)
      ensures r == Abs().From(offset)
    {
      r := "";
      if offset >= endOffset { return; }
      var pos := ReadStart(offset);
      r := Collect(pos, endOffset - offset);
    }

    /** Where in the ring the newest `count` bytes begin. */
    ghost function Place(count: nat): nat
      requires count <= capacity && writePos < capacity
      reads this
    {
      if count == 0 then writePos else if count <= writePos then writePos - count else writePos + capacity - count
    }

    /** The read loop: the newest `count` bytes, from ring position `start` on. */
    method Collect(start: nat, count: nat) returns (r: string)
      requires Valid() && count <= capacity && start == Place(count)
      ensures r == Newest(Ring(), count)
    {
      hide Newest;
      r := "";
      var pos, left := start, count;
      ghost var buf, ring := buffer[..], Ring();
      assert ring == buf[writePos..] + buf[..writePos];
      while left > 0
        invariant 0 <= left <= count && pos == Place(left)
        invariant r + Newest(ring, left) == Newest(ring, count)
      {
        var chunk := if left < capacity - pos then left else capacity - pos;
        NextPart(buf, writePos, pos, left, chunk);
        var part := buffer[pos..pos + chunk];
        assert part == buf[pos..pos + chunk];
        assert (r + part) + Newest(ring, left - chunk) == r + (part + Newest(ring, left - chunk));
        SmallMod(pos + chunk, capacity);
        r := r + part;
        pos := (pos + chunk) % capacity;
        left := left - chunk;
      }
      assert r + Newest(ring, left) == r;
    }

    /** Where in the ring the byte at `offset` sits. */
    method ReadStart(offset: int) returns (pos: nat)
      requires Valid() && Abs().Contains(offset) && offset < endOffset
      ensures pos == Place(endOffset - offset)
    {
      var skip := offset - startOffset;
      var dataLen := endOffset - startOffset;
      SmallMod(dataLen, capacity);
      SmallMod(writePos + capacity - dataLen % capacity, capacity);
      var dataStart := (writePos + capacity - dataLen % capacity) % capacity;
      SmallMod(dataStart + skip, capacity);
      pos := (dataStart + skip) % capacity;
    }

    /** After a promotion: an empty window at `offset`. */
    method SetStart(offset: int)
      requires Valid()
      modifies this
      ensures Valid() && Abs() == old(Abs()).SetStart(offset)
    {
      hide Newest, Wrapped;
      ghost var buf := buffer[..];
      Unrotated(buf, writePos);
      startOffset, endOffset, writePos, hasData := offset, offset, 0, true;
      assert Ring() == buf;
    }
  }

  lemma Unrotated(buf: string, pos: nat)
    requires pos <= |buf|
    ensures var ring := buf[pos..] + buf[..pos]; ring[|ring| - pos..] + ring[..|ring| - pos] == buf
  {
  }

  /** The only reductions the code computes are of values below two laps. */
  lemma SmallMod(x: nat, cap: nat)
    requires cap > 0 && x < 2 * cap
    ensures x % cap == if x < cap then x else x - cap
  {
  }

  /** Overwriting `part` at `pos` and moving on by its length drops the oldest bytes and appends `part`. */
  lemma Rotated(before: string, part: string, after: string, pos: nat)
    requires pos + |part| <= |before| && after == before[..pos] + part + before[pos + |part|..]
    ensures var ring, n := before[pos..] + before[..pos], pos + |part|;
      && after[n..] + after[..n] == Newest(ring + part, |before|)
      && (n == |before| ==> after[0..] + after[..0] == Newest(ring + part, |before|))
  {
    var ring, n := before[pos..] + before[..pos], pos + |part|;
    assert Newest(ring + part, |before|) == (ring + part)[|part|..];
    assert ring == before[pos..n] + (before[n..] + before[..pos]);
    assert after[n..] == before[n..] && after[..n] == before[..pos] + part;
  }

  /** The newest `left` bytes begin at `pos`; `chunk` of them lie before the end of the buffer. */
  lemma NextPart(buf: string, w: nat, pos: nat, left: nat, chunk: nat)
    requires w < |buf| && 0 < left <= |buf| && pos == if left <= w then w - left else w + |buf| - left
    requires chunk == if left < |buf| - pos then left else |buf| - pos
    ensures var ring := buf[w..] + buf[..w];
            Newest(ring, left) == buf[pos..pos + chunk] + Newest(ring, left - chunk)
  {
    var ring := buf[w..] + buf[..w];
    if left <= w {
      assert Newest(ring, left) == buf[pos..w];
    } else {
      assert Newest(ring, left) == buf[pos..] + buf[..w];
      assert Newest(ring, w) == buf[..w];
    }
  }

  lemma NothingPushed(ring: string)
    ensures Newest(ring + "", |ring|) == ring
  {
    assert ring + "" == ring;
  }

  lemma Pushed(ring: string, done: string, part: string)
    ensures Newest(Newest(ring + done, |ring|) + part, |ring|) == Newest(ring + (done + part), |ring|)
  {
    hide Newest;
    var n := |ring|;
    assert ring + (done + part) == (ring + done) + part;
    NewestAppend(Newest(ring + done, n), part, n);
    NewestAppend(ring + done, part, n);
    if n > |part| { NewestNested(ring + done, n, n - |part|); }
  }
}
