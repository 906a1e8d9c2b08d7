/** RESP2 requests: the incremental parser and the encoder of src/resp_parser.cpp, and the
    append / parse / erase loop of `handle_read` that sits on top of them. */
module Resp {
  import opened Text

  type Command = seq<string>

  /** `consumed == 0` means "incomplete or malformed: wait". */
  datatype ParseResult = ParseResult(args: Command, consumed: nat)

  const NOTHING := ParseResult([], 0)

  /** A value read at some position and the position after it. */
  datatype Read<+T> = Stop | Got(value: T, next: nat)

  function FindCR(b: string, pos: nat): (cr: nat)
    requires pos <= |b|
    ensures pos <= cr <= |b|
    decreases |b| - pos
  {
    if pos == |b| || b[pos] == '\r' then pos else FindCR(b, pos + 1)
  }

  /** A `*<n>\r\n` or `$<n>\r\n` line at `pos`. */
  function Header(b: string, pos: nat, tag: char): (r: Read<nat>)
    requires pos <= |b|
    ensures r.Got? ==> pos + 3 <= r.next <= |b| && r.value <= INT_MAX
  {
    if pos == |b| || b[pos] != tag then Stop else
    var cr := FindCR(b, pos + 1);
    if cr + 1 >= |b| then Stop else
    match Stoi(b[pos + 1..cr])
    case None => Stop
    case Some(n) => if n < 0 then Stop else Got(n, cr + 2)
  }

  /** One bulk string at `pos`. */
  function Bulk(b: string, pos: nat): (r: Read<string>)
    requires pos <= |b|
    ensures r.Got? ==> pos < r.next <= |b| && |r.value| <= INT_MAX
  {
    match Header(b, pos, '$')
    case Stop => Stop
    case Got(len, p) => if p + len + 2 > |b| then Stop else Got(b[p..p + len], p + len + 2)
  }

  /** `count` bulk strings from `pos` on. */
  function Bulks(b: string, pos: nat, count: nat): (r: Read<Command>)
    requires pos <= |b|
    ensures r.Got? ==> |r.value| == count && pos <= r.next <= |b|
    ensures r.Got? ==> forall i | 0 <= i < count :: |r.value[i]| <= INT_MAX
    decreases count
  {
    if count == 0 then Got([], pos) else
    match Bulk(b, pos)
    case Stop => Stop
    case Got(arg, p) =>
      match Bulks(b, p, count - 1)
      case Stop => Stop
      case Got(args, end) => Got([arg] + args, end)
  }

  function Parsed(b: string): (r: ParseResult)
    ensures r.consumed <= |b| && Fits(r.args)
  {
    match Header(b, 0, '*')
    case Stop => NOTHING
    case Got(count, p) =>
      match Bulks(b, p, count)
      case Stop => NOTHING
      case Got(args, end) => ParseResult(args, end)
  }

  function EncodeBulk(s: string): string { "$" + Dec(|s|) + "\r\n" + s + "\r\n" }

  function EncodeBulks(args: Command): string {
    if args == [] then "" else EncodeBulk(args[0]) + EncodeBulks(args[1..])
  }

  function Encode(args: Command): string { "*" + Dec(|args|) + "\r\n" + EncodeBulks(args) }

  /** What `int` counts and lengths can express; every parsed command satisfies it. */
  ghost predicate Fits(args: Command) {
    |args| <= INT_MAX && forall i | 0 <= i < |args| :: |args[i]| <= INT_MAX
  }

  // ---- the imperative parser and encoder ----

  method ReadHeader(b: string, pos: nat, tag: char) returns (r: Read<nat>)
    requires pos <= |b|
    ensures r == Header(b, pos, tag)
  {
    if pos >= |b| || b[pos] != tag { return Stop; }
    var cr := pos + 1;
    while cr < |b| && b[cr] != '\r'
      invariant pos + 1 <= cr <= |b|
      invariant FindCR(b, cr) == FindCR(b, pos + 1)
    {
      cr := cr + 1;
    }
    if cr + 1 >= |b| { return Stop; }
    var n := Stoi(b[pos + 1..cr]);
    if n.None? || n.value < 0 { return Stop; }
    return Got(n.value, cr + 2);
  }

  method ReadBulk(b: string, pos: nat) returns (r: Read<string>)
    requires pos <= |b|
    ensures r == Bulk(b, pos)
  {
    var line := ReadHeader(b, pos, '$');
    if line.Stop? || line.next + line.value + 2 > |b| { return Stop; }
    return Got(b[line.next..line.next + line.value], line.next + line.value + 2);
  }

  method Parse(b: string) returns (r: ParseResult)
    ensures r == Parsed(b)
  {
    hide Header, Bulk;
    var head := ReadHeader(b, 0, '*');
    if head.Stop? { return NOTHING; }
    var count, pos: nat := head.value, head.next;
    var args: Command := [];
    var i := 0;
    ghost var whole := Bulks(b, pos, count);
    assert whole.Got? ==> args + whole.value == whole.value;
    while i < count
      invariant 0 <= i <= count && pos <= |b|
      invariant whole == Prepend(args, Bulks(b, pos, count - i))
    {
      var arg := ReadBulk(b, pos);
      if arg.Stop? { return NOTHING; }
      PrependOne(args, arg.value, Bulks(b, arg.next, count - i - 1));
      args, pos, i := args + [arg.value], arg.next, i + 1;
    }
    return ParseResult(args, pos);
  }

  ghost function Prepend(args: Command, r: Read<Command>): Read<Command> {
    if r.Stop? then Stop else Got(args + r.value, r.next)
  }

  lemma PrependOne(args: Command, arg: string, r: Read<Command>)
    ensures Prepend(args, Prepend([arg], r)) == Prepend(args + [arg], r)
  {
    if r.Got? { assert args + ([arg] + r.value) == (args + [arg]) + r.value; }
  }

  method EncodeArray(args: Command) returns (r: string)
    ensures r == Encode(args)
  {
    r := "*" + Dec(|args|) + "\r\n";
    var i := 0;
    while i < |args|
      invariant 0 <= i <= |args|
      invariant r + EncodeBulks(args[i..]) == Encode(args)
    {
      assert args[i..][0] == args[i] && args[i..][1..] == args[i + 1..];
      r := r + EncodeBulk(args[i]);
      i := i + 1;
    }
  }

  // ---- more bytes never change a finished parse ----

  lemma {:induction false} FindCRExtends(b: string, x: string, pos: nat)
    requires pos <= |b| && FindCR(b, pos) < |b|
    ensures FindCR(b + x, pos) == FindCR(b, pos)
    decreases |b| - pos
  {
    if b[pos] != '\r' { FindCRExtends(b, x, pos + 1); }
  }

  lemma HeaderExtends(b: string, x: string, pos: nat, tag: char)
    requires pos <= |b| && Header(b, pos, tag).Got?
    ensures Header(b + x, pos, tag) == Header(b, pos, tag)
  {
    FindCRExtends(b, x, pos + 1);
    var cr := FindCR(b, pos + 1);
    assert (b + x)[pos + 1..cr] == b[pos + 1..cr];
  }

  lemma BulkExtends(b: string, x: string, pos: nat)
    requires pos <= |b| && Bulk(b, pos).Got?
    ensures Bulk(b + x, pos) == Bulk(b, pos)
  {
    HeaderExtends(b, x, pos, '$');
    var h := Header(b, pos, '$');
    assert (b + x)[h.next..h.next + h.value] == b[h.next..h.next + h.value];
  }

  lemma {:induction false} BulksExtends(b: string, x: string, pos: nat, count: nat)
    requires pos <= |b| && Bulks(b, pos, count).Got?
    ensures Bulks(b + x, pos, count) == Bulks(b, pos, count)
    decreases count
  {
    if count > 0 {
      BulkExtends(b, x, pos);
      BulksExtends(b, x, Bulk(b, pos).next, count - 1);
    }
  }

  lemma ParsedExtends(b: string, x: string)
    requires Parsed(b).consumed > 0
    ensures Parsed(b + x) == Parsed(b)
  {
    HeaderExtends(b, x, 0, '*');
    var h := Header(b, 0, '*');
    BulksExtends(b, x, h.next, h.value);
  }

  // ---- round trip and framing ----

  lemma {:induction false} FindCRAt(b: string, pos: nat, k: nat)
    requires pos <= k < |b| && b[k] == '\r' && forall i | pos <= i < k :: b[i] != '\r'
    ensures FindCR(b, pos) == k
    decreases k - pos
  {
    if pos < k { FindCRAt(b, pos + 1, k); }
  }

  lemma HeaderOfLine(pre: string, tag: char, n: nat, post: string)
    requires n <= INT_MAX
    ensures var b := pre + ([tag] + Dec(n) + "\r\n") + post;
            Header(b, |pre|, tag) == Got(n, |pre| + |Dec(n)| + 3)
  {
    var b := pre + ([tag] + Dec(n) + "\r\n") + post;
    var k := |pre| + 1 + |Dec(n)|;
    DecIsDigits(n);
    assert b[|pre| + 1..k] == Dec(n);
    assert forall i | |pre| + 1 <= i < k :: b[i] == Dec(n)[i - |pre| - 1];
    FindCRAt(b, |pre| + 1, k);
    ParseDec(n, INT_MAX);
  }

  lemma BulkRoundTrip(pre: string, s: string, post: string)
    requires |s| <= INT_MAX
    ensures Bulk(pre + EncodeBulk(s) + post, |pre|) == Got(s, |pre| + |EncodeBulk(s)|)
  {
    var b := pre + EncodeBulk(s) + post;
    var line := "$" + Dec(|s|) + "\r\n";
    var after := s + "\r\n" + post;
    assert b == pre + line + after;
    HeaderOfLine(pre, '$', |s|, after);
    var p := |pre| + |line|;
    assert b[p..p + |s|] == s;
  }

  lemma {:induction false} BulksRoundTrip(pre: string, args: Command, rest: string)
    requires Fits(args)
    ensures Bulks(pre + EncodeBulks(args) + rest, |pre|, |args|) == Got(args, |pre| + |EncodeBulks(args)|)
    decreases |args|
  {
    hide Bulk, EncodeBulk;
    var b := pre + EncodeBulks(args) + rest;
    if args == [] {
    } else {
      var first, tail := EncodeBulk(args[0]), EncodeBulks(args[1..]);
      assert b == pre + first + (tail + rest);
      BulkRoundTrip(pre, args[0], tail + rest);
      assert b == (pre + first) + tail + rest;
      BulksRoundTrip(pre + first, args[1..], rest);
      assert args == [args[0]] + args[1..];
    }
  }

  /** Any encodable command, followed by anything, parses back and consumes exactly its encoding. */
  lemma RoundTrip(args: Command, rest: string)
    requires Fits(args)
    ensures Parsed(Encode(args) + rest) == ParseResult(args, |Encode(args)|)
  {
    hide Header, Bulks, EncodeBulks, Dec;
    var line := "*" + Dec(|args|) + "\r\n";
    var b := Encode(args) + rest;
    assert b == "" + line + (EncodeBulks(args) + rest);
    HeaderOfLine("", '*', |args|, EncodeBulks(args) + rest);
    assert b == line + EncodeBulks(args) + rest;
    BulksRoundTrip(line, args, rest);
  }

  /** No proper prefix of an encoding is accepted. */
  lemma ProperPrefixWaits(args: Command, k: nat)
    requires Fits(args) && k < |Encode(args)|
    ensures Parsed(Encode(args)[..k]).consumed == 0
  {
    var p, q := Encode(args)[..k], Encode(args)[k..];
    if Parsed(p).consumed > 0 {
      ParsedExtends(p, q);
      assert p + q == Encode(args) + "";
      RoundTrip(args, "");
    }
  }

  // ---- the pipelining loop ----

  /** The commands taken off a read buffer, in order, and the bytes left in it. */
  datatype Drained = Drained(cmds: seq<ParseResult>, rest: string)

  function Drain(b: string): (d: Drained)
    ensures Parsed(d.rest).consumed == 0
    decreases |b|
  {
    var r := Parsed(b);
    if r.consumed == 0 then Drained([], b) else
    var d := Drain(b[r.consumed..]);
    Drained([r] + d.cmds, d.rest)
  }

  /** One `recv` after another: append the chunk, then drain. */
  function DrainChunks(buf: string, chunks: seq<string>): Drained
    decreases |chunks|
  {
    if chunks == [] then Drained([], buf) else
    var first := Drain(buf + chunks[0]);
    var later := DrainChunks(first.rest, chunks[1..]);
    Drained(first.cmds + later.cmds, later.rest)
  }

  function Concat(chunks: seq<string>): string {
    if chunks == [] then "" else chunks[0] + Concat(chunks[1..])
  }

  lemma {:induction false} DrainAppend(b: string, x: string)
    ensures var d := Drain(b); var e := Drain(d.rest + x);
            Drain(b + x) == Drained(d.cmds + e.cmds, e.rest)
    decreases |b|
  {
    hide Parsed;
    var r := Parsed(b);
    if r.consumed == 0 {
      assert Drain(b).cmds + Drain(b + x).cmds == Drain(b + x).cmds;
    } else {
      ParsedExtends(b, x);
      assert (b + x)[r.consumed..] == b[r.consumed..] + x;
      DrainAppend(b[r.consumed..], x);
      var d := Drain(b[r.consumed..]);
      var e := Drain(d.rest + x);
      assert [r] + (d.cmds + e.cmds) == ([r] + d.cmds) + e.cmds;
    }
  }

  /** However a byte stream is cut into chunks, the same commands come out and the same bytes stay. */
  lemma {:induction false} ChunkingIrrelevant(buf: string, chunks: seq<string>)
    requires Parsed(buf).consumed == 0
    ensures DrainChunks(buf, chunks) == Drain(buf + Concat(chunks))
    decreases |chunks|
  {
    if chunks == [] {
      assert buf + Concat(chunks) == buf;
    } else {
      var first := Drain(buf + chunks[0]);
      ChunkingIrrelevant(first.rest, chunks[1..]);
      DrainAppend(buf + chunks[0], Concat(chunks[1..]));
      assert buf + Concat(chunks) == (buf + chunks[0]) + Concat(chunks[1..]);
    }
  }

  // ---- a stream of encoded commands ----

  function EncodeAll(cmds: seq<Command>): string {
    if cmds == [] then "" else Encode(cmds[0]) + EncodeAll(cmds[1..])
  }

  function Frames(cmds: seq<Command>): seq<ParseResult> {
    seq(|cmds|, i requires 0 <= i < |cmds| => ParseResult(cmds[i], |Encode(cmds[i])|))
  }

  lemma {:induction false} EncodeAllAppend(a: seq<Command>, b: seq<Command>)
    ensures EncodeAll(a + b) == EncodeAll(a) + EncodeAll(b)
    decreases |a|
  {
    if a == [] {
      assert a + b == b;
    } else {
      assert (a + b)[0] == a[0] && (a + b)[1..] == a[1..] + b;
      EncodeAllAppend(a[1..], b);
    }
  }

  lemma EncodeAllOne(cmds: seq<Command>, j: nat)
    requires j < |cmds|
    ensures EncodeAll(cmds[..j + 1]) == Encode(cmds[0]) + EncodeAll(cmds[1..][..j])
  {
    assert cmds[..j + 1][0] == cmds[0] && cmds[..j + 1][1..] == cmds[1..][..j];
  }

  lemma DrainOne(args: Command, rest: string)
    requires Fits(args)
    ensures Drain(Encode(args) + rest)
         == Drained([ParseResult(args, |Encode(args)|)] + Drain(rest).cmds, Drain(rest).rest)
  {
    hide Parsed, Encode;
    RoundTrip(args, rest);
    assert (Encode(args) + rest)[|Encode(args)|..] == rest;
    NonEmpty(args);
  }

  lemma NonEmpty(args: Command)
    ensures Encode(args) != ""
  {
  }

  /** Cut a stream of encoded commands anywhere: exactly the commands that fit before the cut
      come out, and the unfinished one stays in the buffer. */
  lemma {:induction false} StreamFraming(cmds: seq<Command>, k: nat) returns (m: nat)
    requires forall i | 0 <= i < |cmds| :: Fits(cmds[i])
    requires k <= |EncodeAll(cmds)|
    ensures m <= |cmds|
    ensures |EncodeAll(cmds[..m])| <= k && (m < |cmds| ==> k < |EncodeAll(cmds[..m + 1])|)
    ensures Drain(EncodeAll(cmds)[..k]) == Drained(Frames(cmds[..m]), EncodeAll(cmds)[|EncodeAll(cmds[..m])|..k])
    decreases |cmds|
  {
    hide Parsed, Encode, Drain;
    var s := EncodeAll(cmds);
    if cmds == [] {
      m := 0;
      DrainNothing("");
    } else if k < |Encode(cmds[0])| {
      m := 0;
      EncodeAllOne(cmds, 0);
      ProperPrefixWaits(cmds[0], k);
      assert s[..k] == Encode(cmds[0])[..k];
      DrainNothing(s[..k]);
    } else {
      var head, tail := Encode(cmds[0]), cmds[1..];
      var t := EncodeAll(tail);
      var j := StreamFraming(tail, k - |head|);
      m := j + 1;
      EncodeAllOne(cmds, j);
      if m < |cmds| { EncodeAllOne(cmds, j + 1); }
      assert s[..k] == head + t[..k - |head|];
      DrainOne(cmds[0], t[..k - |head|]);
      assert [ParseResult(cmds[0], |head|)] + Frames(tail[..j]) == Frames(cmds[..m]);
      assert t[|EncodeAll(tail[..j])|..k - |head|] == s[|EncodeAll(cmds[..m])|..k];
    }
  }

  lemma DrainNothing(b: string)
    requires Parsed(b).consumed == 0
    ensures Drain(b) == Drained([], b)
  {
  }
}
