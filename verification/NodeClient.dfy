/** How the failover controller reads a node's replies: controller/failover/client.go. Connections are left out; a reply
    is the text that came back. */
module NodeClient {
  import opened Text
  import opened KeyStore
  import opened Commands
  import opened Promoter
  import Words
  import Resp

  // ---- lines ----

  /** The first "\r\n" at or behind `i`, or the end. */
  function Break(s: string, i: nat): (k: nat)
    requires i <= |s|
    ensures i <= k <= |s| && (k < |s| ==> k + 2 <= |s| && s[k] == '\r' && s[k + 1] == '\n')
    ensures forall j | i <= j < k && j + 1 < |s| :: !(s[j] == '\r' && s[j + 1] == '\n')
    decreases |s| - i
  {
    if i == |s| then i
    else if i + 1 < |s| && s[i] == '\r' && s[i + 1] == '\n' then i
    else Break(s, i + 1)
  }

  /** `strings.Split(s, "\r\n")` */
  function Lines(s: string): (r: seq<string>)
    ensures |r| > 0
    decreases |s|
  {
    var k := Break(s, 0);
    if k == |s| then [s] else [s[..k]] + Lines(s[k + 2..])
  }

  lemma LinesIs(s: string)
    ensures Lines(s) == if Break(s, 0) == |s| then [s] else [s[..Break(s, 0)]] + Lines(s[Break(s, 0) + 2..])
  {
    hide Break;
  }

  lemma Slices(x: string, y: string, k: nat)
    requires k + 2 <= |x|
    ensures (x + "\r\n" + y)[..k] == x[..k] && (x + "\r\n" + y)[k + 2..] == x[k + 2..] + "\r\n" + y
  {
  }

  /** A line break splits a text for good. */
  lemma {:induction false} LinesAppend(x: string, y: string)
    ensures Lines(x + "\r\n" + y) == Lines(x) + Lines(y)
    decreases |x|
  {
    hide Lines, Break;
    var s, k := x + "\r\n" + y, Break(x, 0);
    SameBreak(x, y);
    LinesIs(s);
    LinesIs(x);
    if k == |x| {
      assert s[..k] == x && s[k + 2..] == y;
    } else {
      Slices(x, y, k);
      LinesAppend(x[k + 2..], y);
    }
  }

  lemma SameBreak(x: string, y: string)
    ensures Break(x + "\r\n" + y, 0) == Break(x, 0)
  {
    var s, k, l := x + "\r\n" + y, Break(x, 0), Break(x + "\r\n" + y, 0);
    assert s[|x|] == '\r' && s[|x| + 1] == '\n';
    assert forall j | 0 <= j < |x| :: s[j] == x[j];
  }

  ghost predicate OneLine(s: string) { forall i | 0 <= i < |s| :: s[i] != '\r' }

  lemma LineOf(s: string)
    requires OneLine(s)
    ensures Lines(s) == [s]
  {
  }

  // ---- ROLE ----

  /** Headers and empty lines are skipped, a colon in front is stripped. */
  function ValueOf(line: string): seq<string> {
    if line == "" || line[0] == '*' || line[0] == '$' then []
    else if line[0] == ':' then [line[1..]] else [line]
  }

  function Values(lines: seq<string>): seq<string> {
    if lines == [] then [] else Values(lines[..|lines| - 1]) + ValueOf(lines[|lines| - 1])
  }

  lemma {:induction false} ValuesAppend(a: seq<string>, b: seq<string>)
    ensures Values(a + b) == Values(a) + Values(b)
    decreases |b|
  {
    hide ValueOf;
    if b == [] {
      assert a + b == a;
    } else {
      var n := |b| - 1;
      ValuesAppend(a, b[..n]);
      assert (a + b)[..|a + b| - 1] == a + b[..n];
    }
  }

  /** The role a reply to ROLE names; an error for fewer than two values. */
  method ReadRole(resp: string) returns (r: RoleAnswer)
    ensures r == RoleIn(resp)
  {
    var lines := Lines(resp);
    var values: seq<string> := [];
    var i := 0;
    while i < |lines|
      invariant 0 <= i <= |lines| && values == Values(lines[..i])
    {
      assert lines[..i + 1][..i] == lines[..i];
      var line := lines[i];
      if line == "" || line[0] == '*' || line[0] == '$' {
      } else if line[0] == ':' {
        values := values + [line[1..]];
      } else {
        values := values + [line];
      }
      i := i + 1;
    }
    assert lines[..i] == lines;
    if |values| < 2 { return None; }
    return Some(values[0]);
  }

  function RoleIn(resp: string): RoleAnswer {
    var values := Values(Lines(resp));
    if |values| < 2 then None else Some(values[0])
  }

  lemma Piece(x: string, y: string)
    requires OneLine(x)
    ensures Values(Lines(x + "\r\n" + y)) == ValueOf(x) + Values(Lines(y))
  {
    hide ValueOf;
    LinesAppend(x, y);
    LineOf(x);
    ValuesAppend([x], Lines(y));
    assert [x][..0] == [] && Values([x]) == Values([]) + ValueOf(x);
  }

  lemma DecLine(n: int)
    ensures OneLine(ToString(n)) && ToString(n) != ""
  {
    DecIsDigits(if n < 0 then -n else n);
  }

  /** Whatever a server's state, the controller reads "master" in a master's ROLE reply and "slave" in a worker's. */
  lemma RoleRead(role: string, m: Data, info: Info, now: int)
    requires Names(role, "ROLE")
    ensures RoleIn(Reply([role], m, info, false, now)) == Some(if info.role == Master then "master" else "slave")
  {
    hide ToUpper, IsWrite, ToString, Lines, Values, Resp.EncodeBulk, Names;
    assert Capitals("ROLE");
    Words.NameIs(role, [role], "ROLE");
    Words.OtherVerb("ROLE");
    if info.role == Master { MasterRole(info.offset); } else { WorkerRole(info); }
  }

  lemma MasterRole(offset: int)
    ensures RoleIn("*3\r\n$6\r\nmaster\r\n:" + ToString(offset) + "\r\n*0\r\n") == Some("master")
  {
    hide ToString, Lines, Values;
    var number := ":" + ToString(offset);
    DecLine(offset);
    var rest := number + "\r\n" + "*0\r\n";
    Piece(number, "*0\r\n");
    Piece("master", rest);
    Piece("$6", "master" + "\r\n" + rest);
    Piece("*3", "$6" + "\r\n" + ("master" + "\r\n" + rest));
    assert "*3\r\n$6\r\nmaster\r\n:" + ToString(offset) + "\r\n*0\r\n"
        == "*3" + "\r\n" + ("$6" + "\r\n" + ("master" + "\r\n" + rest));
  }

  lemma WorkerRole(info: Info)
    ensures RoleIn("*5\r\n$5\r\nslave\r\n" + Resp.EncodeBulk(info.host) + ":" + ToString(info.port)
                   + "\r\n$9\r\nconnected\r\n:" + ToString(info.offset) + "\r\n") == Some("slave")
  {
    hide ToString, Lines, Values, Resp.EncodeBulk;
    var host, port, offset := Resp.EncodeBulk(info.host), ToString(info.port), ToString(info.offset);
    var end := "$9\r\nconnected\r\n:" + offset + "\r\n";
    var front := host + ":" + port;
    var rest := front + "\r\n" + end;
    Heads();
    Regroup("*5\r\n$5\r\nslave\r\n", host, port, "\r\n$9\r\nconnected\r\n:", "$9\r\nconnected\r\n:", offset);
    LinesAppend(front, end);
    ValuesAppend(Lines(front), Lines(end));
    Connected(offset);
    SlaveFirst(rest);
  }

  lemma Heads()
    ensures "\r\n$9\r\nconnected\r\n:" == "\r\n" + "$9\r\nconnected\r\n:"
  {
  }

  lemma Regroup(head: string, host: string, port: string, mid: string, tail: string, offset: string)
    requires mid == "\r\n" + tail
    ensures head + host + ":" + port + mid + offset + "\r\n"
         == head + ((host + ":" + port) + "\r\n" + (tail + offset + "\r\n"))
  {
  }

  lemma SlaveFirst(rest: string)
    ensures Values(Lines("*5\r\n$5\r\nslave\r\n" + rest)) == ["slave"] + Values(Lines(rest))
  {
    hide Lines, Values;
    Piece("slave", rest);
    Piece("$5", "slave" + "\r\n" + rest);
    Piece("*5", "$5" + "\r\n" + ("slave" + "\r\n" + rest));
    assert "*5\r\n$5\r\nslave\r\n" + rest == "*5" + "\r\n" + ("$5" + "\r\n" + ("slave" + "\r\n" + rest));
  }

  lemma Connected(offset: string)
    ensures |Values(Lines("$9\r\nconnected\r\n:" + offset + "\r\n"))| >= 1
  {
    hide Lines, Values;
    var rest := ":" + offset + "\r\n";
    Piece("connected", rest);
    Piece("$9", "connected" + "\r\n" + rest);
    assert "$9\r\nconnected\r\n:" + offset + "\r\n" == "$9" + "\r\n" + ("connected" + "\r\n" + rest);
  }

  // ---- INFO ----

  /** Where the first colon stands, or the end. */
  function Colon(line: string, i: nat): (k: nat)
    requires i <= |line|
    ensures i <= k <= |line| && (k < |line| ==> line[k] == ':') && forall j | i <= j < k :: line[j] != ':'
    decreases |line| - i
  {
    if i == |line| || line[i] == ':' then i else Colon(line, i + 1)
  }

  /** The last line `key:value` counts. */
  function Fields(lines: seq<string>): map<string, string> {
    if lines == [] then map[] else
    var before, line := Fields(lines[..|lines| - 1]), lines[|lines| - 1];
    var k := Colon(line, 0);
    if 0 < k < |line| then before[line[..k] := line[k + 1..]] else before
  }

  method ReadInfo(resp: string) returns (r: map<string, string>)
    ensures r == Fields(Lines(resp))
  {
    var lines := Lines(resp);
    r := map[];
    var i := 0;
    while i < |lines|
      invariant 0 <= i <= |lines| && r == Fields(lines[..i])
    {
      assert lines[..i + 1][..i] == lines[..i];
      var k := Colon(lines[i], 0);
      if 0 < k < |lines[i]| { r := r[lines[i][..k] := lines[i][k + 1..]]; }
      i := i + 1;
    }
    assert lines[..i] == lines;
  }

  /** What the ranking gets to see of a reply to INFO. */
  function InfoIn(resp: string): InfoAnswer {
    var fields := Fields(Lines(resp));
    Some(if "master_repl_offset" in fields then Some(fields["master_repl_offset"]) else None)
  }

  lemma {:induction false} FieldLast(a: seq<string>, line: string, b: seq<string>, key: string, value: string)
    requires line == key + ":" + value && key != "" && (forall i | 0 <= i < |key| :: key[i] != ':')
    requires forall x | x in b :: !(key + ":" <= x)
    ensures key in Fields(a + [line] + b) && Fields(a + [line] + b)[key] == value
    decreases |b|
  {
    var all := a + [line] + b;
    if b == [] {
      assert all == a + [line] && all[..|all| - 1] == a;
      ColonAt(key, value);
      assert line[..|key|] == key && line[|key| + 1..] == value;
    } else {
      var n := |b| - 1;
      assert all[..|all| - 1] == a + [line] + b[..n] && all[|all| - 1] == b[n];
      assert forall x | x in b[..n] :: x in b;
      FieldLast(a, line, b[..n], key, value);
      assert b[n] in b;
      OtherKey(b[n], key);
    }
  }

  lemma ColonAt(key: string, value: string)
    requires forall i | 0 <= i < |key| :: key[i] != ':'
    ensures Colon(key + ":" + value, 0) == |key|
  {
    var line, k := key + ":" + value, Colon(key + ":" + value, 0);
    assert line[|key|] == ':' && forall j | 0 <= j < |key| :: line[j] == key[j];
  }

  lemma OtherKey(line: string, key: string)
    ensures var k := Colon(line, 0); k < |line| && line[..k] == key ==> key + ":" <= line
  {
    var k := Colon(line, 0);
    if k < |line| { assert line[..k + 1] == line[..k] + ":"; }
  }

  /** Whatever a server's state, the controller finds the offset it reports in its INFO reply, as long as the second id
      is one line. */
  lemma InfoRead(word: string, m: Data, info: Info, now: int)
    requires Names(word, "INFO") && OneLine(info.replid2)
    ensures InfoIn(Reply([word, "replication"], m, info, false, now)) == Some(Some(ToString(info.offset)))
  {
    hide ToUpper, IsWrite, ToString, Lines, Fields, InfoBody, Dec, Names;
    assert Capitals("INFO");
    Words.NameIs(word, [word, "replication"], "INFO");
    Words.OtherVerb("INFO");
    Replication();
    InfoLines(info);
    var lines := Lines(Resp.EncodeBulk(InfoBody(info)));
    var a, b := OffsetLine(info);
    LastLines(info);
    FieldLast(a, "master_repl_offset:" + ToString(info.offset), b, "master_repl_offset", ToString(info.offset));
  }

  lemma Replication()
    ensures ToUpper("replication") == "REPLICATION"
  {
  }

  /** The lines behind the one with the offset. */
  function Behind(info: Info): seq<string> {
    ["master_replid2:" + info.replid2, "second_repl_offset:" + ToString(info.secondOffset), ""]
  }

  lemma LastLines(info: Info)
    ensures forall x | x in Behind(info) :: !("master_repl_offset:" <= x)
  {
    hide ToString;
    assert "master_repl_offset" + ":" == "master_repl_offset:";
    assert ("master_replid2:" + info.replid2)[11] == 'i' && "master_repl_offset:"[11] == '_';
    assert ("second_repl_offset:" + ToString(info.secondOffset))[0] == 's';
  }

  lemma InfoLines(info: Info)
    requires OneLine(info.replid2)
    ensures exists a :: Lines(Resp.EncodeBulk(InfoBody(info)))
                     == a + ["master_repl_offset:" + ToString(info.offset)] + Behind(info)
  {
    var a, b := OffsetLine(info);
  }

  lemma OffsetLine(info: Info) returns (a: seq<string>, b: seq<string>)
    requires OneLine(info.replid2)
    ensures b == Behind(info)
    ensures Lines(Resp.EncodeBulk(InfoBody(info))) == a + ["master_repl_offset:" + ToString(info.offset)] + b
  {
    hide ToString, Lines, Dec, InfoBody;
    var offset, id2, second := "master_repl_offset:" + ToString(info.offset), "master_replid2:" + info.replid2,
                               "second_repl_offset:" + ToString(info.secondOffset);
    DecLine(info.offset);
    DecLine(info.secondOffset);
    var role := "role:" + (if info.role == Master then "master" else "worker");
    var front := "$" + Dec(|InfoBody(info)|) + "\r\n" + (role + "\r\nmaster_replid:" + info.replid);
    var rest := offset + "\r\n" + (id2 + "\r\n" + (second + "\r\n" + ""));
    InfoParts(info, role, offset, id2, second);
    Around("$" + Dec(|InfoBody(info)|) + "\r\n", role + "\r\nmaster_replid:" + info.replid, offset, id2, second);
    LinesAppend(front, rest);
    a, b := Lines(front), Behind(info);
    LinesAppend(offset, id2 + "\r\n" + (second + "\r\n" + ""));
    LinesAppend(id2, second + "\r\n" + "");
    LinesAppend(second, "");
    LineOf(offset);
    LineOf(id2);
    LineOf(second);
    LineOf("");
  }

  lemma Breaks()
    ensures "\r\nmaster_repl_offset:" == "\r\n" + "master_repl_offset:"
    ensures "\r\nmaster_replid2:" == "\r\n" + "master_replid2:"
    ensures "\r\nsecond_repl_offset:" == "\r\n" + "second_repl_offset:"
  {
  }

  lemma InfoParts(info: Info, role: string, offset: string, id2: string, second: string)
    requires role == "role:" + (if info.role == Master then "master" else "worker")
    requires offset == "master_repl_offset:" + ToString(info.offset) && id2 == "master_replid2:" + info.replid2
    requires second == "second_repl_offset:" + ToString(info.secondOffset)
    ensures InfoBody(info) ==
      (role + "\r\nmaster_replid:" + info.replid) + "\r\n" + offset + "\r\n" + id2 + "\r\n" + second
  {
    hide ToString;
    Breaks();
    Shift(role + "\r\nmaster_replid:" + info.replid, "master_repl_offset:", ToString(info.offset));
    Shift((role + "\r\nmaster_replid:" + info.replid) + "\r\n" + offset, "master_replid2:", info.replid2);
    Shift((role + "\r\nmaster_replid:" + info.replid) + "\r\n" + offset + "\r\n" + id2,
          "second_repl_offset:", ToString(info.secondOffset));
  }

  lemma Shift(a: string, b: string, c: string)
    ensures a + ("\r\n" + b) + c == a + "\r\n" + (b + c)
  {
  }

  lemma Around(head: string, front: string, offset: string, id2: string, second: string)
    ensures head + (front + "\r\n" + offset + "\r\n" + id2 + "\r\n" + second) + "\r\n"
         == (head + front) + "\r\n" + (offset + "\r\n" + (id2 + "\r\n" + (second + "\r\n" + "")))
  {
  }

  // ---- what the failover makes of it ----

  /** The candidates' answers are their servers' INFO replies. */
  ghost predicate AnswersOf(info: Addr -> InfoAnswer, servers: Addr -> Info) {
    forall a | info(a).Some? ::
      && OneLine(servers(a).replid2) && -LLONG_MAX - 1 <= servers(a).offset <= LLONG_MAX
      && exists m, now :: info(a) == InfoIn(Reply(["INFO", "replication"], m, servers(a), false, now))
  }

  /** The ranking of a failover is by the offsets the servers hold: no server stands behind one with a smaller offset,
      nor behind one with the same offset and a greater address. */
  lemma RanksServers(ranked: seq<Addr>, candidates: seq<Addr>, info: Addr -> InfoAnswer, servers: Addr -> Info,
                     i: nat, j: nat)
    requires RanksAnswers(ranked, candidates, info) && AnswersOf(info, servers) && i < j < |ranked|
    ensures servers(ranked[i]).offset >= servers(ranked[j]).offset
    ensures servers(ranked[i]).offset == servers(ranked[j]).offset ==> !Smaller(ranked[j], ranked[i])
  {
    hide Worth, Smaller, Reply, InfoIn, Outranks, AnswersOf;
    var a, b := ranked[i], ranked[j];
    assert a in multiset(ranked) && b in multiset(ranked);
    assert info(a).Some? && info(b).Some?;
    OffsetAnswered(info, servers, a);
    OffsetAnswered(info, servers, b);
    OutranksBy(b, a, info, servers(b).offset, servers(a).offset);
  }

  lemma OutranksBy(a: Addr, b: Addr, info: Addr -> InfoAnswer, x: int, y: int)
    requires info(a).Some? && info(b).Some? && Worth(info(a).value, x) && Worth(info(b).value, y)
    ensures x > y || (x == y && Smaller(a, b)) ==> Outranks(a, b, info)
  {
    hide Worth, Smaller;
  }

  lemma OffsetAnswered(info: Addr -> InfoAnswer, servers: Addr -> Info, a: Addr)
    requires AnswersOf(info, servers) && info(a).Some?
    ensures Worth(info(a).value, servers(a).offset)
  {
    hide Worth, Reply, InfoIn, ToString;
    var m, now :| info(a) == InfoIn(Reply(["INFO", "replication"], m, servers(a), false, now));
    assert Names("INFO", "INFO");
    InfoRead("INFO", m, servers(a), now);
    NumberWorth(servers(a).offset);
  }

  lemma NumberWorth(x: int)
    requires -LLONG_MAX - 1 <= x <= LLONG_MAX
    ensures Worth(Some(ToString(x)), x)
  {
    hide Worth, Dec;
    if x >= 0 {
      WorthOf(x, x, "");
    } else {
      var n: nat := -x;
      ValueOfDec(n);
      DecIsDigits(n);
      assert SignedDigits(ToString(x), "-", Dec(n));
      assert Numeral(ToString(x), x);
      WorthNumeral(ToString(x), x, x);
    }
  }

  /** A node that is alive answers what the controller takes for being alive. */
  lemma PingSeen(ping: string, m: Data, info: Info, now: int)
    requires Names(ping, "PING")
    ensures "+PONG" <= Reply([ping], m, info, false, now)
  {
    hide Reply;
    Words.PingText(ping, m, info, now);
  }
}
