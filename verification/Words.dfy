/** What the commands mean, in the words a client sends and the bytes it reads. Nothing here mentions how a command is
    executed: the statements are about command words, replies and later GETs. */
module Words {
  import opened Text
  import opened KeyStore
  import opened Commands
  import Resp

  /** A command the server does not refuse. */
  ghost predicate Admitted(info: Info, fromMaster: bool) { fromMaster || info.role == Master }

  function BulkText(s: string): string { "$" + Dec(|s|) + "\r\n" + s + "\r\n" }

  /** What a GET of `key` reads from a store, whoever asks. */
  ghost predicate Reads(m: Data, key: string, now: int, text: string) {
    forall get, info, fromMaster | Names(get, "GET") :: Reply([get, key], m, info, fromMaster, now) == text
  }

  lemma NameIs(word: string, args: Command, name: string)
    requires Capitals(name) && args != [] && args[0] == word && Names(word, name)
    ensures Name(args) == name
  {
    hide ToUpper;
    UpperNames(word, name);
  }

  lemma Verbs()
    ensures Capitals("SET") && Capitals("GET") && Capitals("DEL") && Capitals("PX") && Capitals("EX")
    ensures IsWrite("SET") && IsWrite("DEL") && !IsWrite("GET")
  {
    assert ToUpper("SET") == "SET" && ToUpper("DEL") == "DEL" && ToUpper("GET")[0] == 'G';
  }

  lemma GetReply(get: string, key: string, m: Data, info: Info, fromMaster: bool, now: int)
    requires Names(get, "GET")
    ensures Reply([get, key], m, info, fromMaster, now) ==
      if Lookup(m, key, now).Some? then BulkText(Lookup(m, key, now).value) else "$-1\r\n"
  {
    hide ToUpper, IsWrite, Lookup, Dec;
    Verbs();
    NameIs(get, [get, key], "GET");
  }

  lemma ReadsLookup(m: Data, key: string, now: int)
    ensures Reads(m, key, now, if Lookup(m, key, now).Some? then BulkText(Lookup(m, key, now).value) else "$-1\r\n")
  {
    hide Lookup, Reply, BulkText, Names;
    forall get, info, fromMaster | Names(get, "GET")
      ensures Reply([get, key], m, info, fromMaster, now) ==
        if Lookup(m, key, now).Some? then BulkText(Lookup(m, key, now).value) else "$-1\r\n"
    {
      GetReply(get, key, m, info, fromMaster, now);
    }
  }

  // ---- the words behind SET key value ----

  /** A word that is passed over, or an option with its number. */
  datatype Item = Skip(word: string) | Opt(name: string, word: string) {
    function Words(): Command { if Skip? then [word] else [name, word] }
  }

  function WordsOf(items: seq<Item>): Command {
    if items == [] then [] else items[0].Words() + WordsOf(items[1..])
  }

  ghost predicate IsOption(word: string) { Names(word, "PX") || Names(word, "EX") }

  ghost predicate WellFormed(items: seq<Item>) {
    forall i | 0 <= i < |items| :: if items[i].Skip? then !IsOption(items[i].word) else IsOption(items[i].name)
  }

  /** A 64-bit number. */
  ghost predicate IsNumber(word: string, v: int) {
    Spells(word, v) && -0x8000_0000_0000_0000 <= v <= 0x7FFF_FFFF_FFFF_FFFF
  }

  ghost predicate AllNumbers(items: seq<Item>) {
    forall i | 0 <= i < |items| && items[i].Opt? :: exists v :: IsNumber(items[i].word, v)
  }

  /** The milliseconds an option asks for. */
  ghost predicate Asks(item: Item, ms: int) {
    item.Opt? && exists v | IsNumber(item.word, v) :: ms == if Names(item.name, "EX") then v * 1000 else v
  }

  /** The last option counts. */
  ghost predicate Last(items: seq<Item>, px: Option<int>) {
    match px
    case None => forall i | 0 <= i < |items| :: items[i].Skip?
    case Some(ms) =>
      exists j | 0 <= j < |items| :: Asks(items[j], ms) && forall i | j < i < |items| :: items[i].Skip?
  }

  /** A SET with these words; a last word of its own is too little for an option and passed over. */
  ghost predicate SetWords(args: Command, key: string, value: string, items: seq<Item>, dangling: Command) {
    && |args| >= 3 && Names(args[0], "SET") && args[1] == key && args[2] == value
    && args[3..] == WordsOf(items) + dangling && |dangling| <= 1 && WellFormed(items)
  }

  lemma {:induction false} SplitTail(tail: Command) returns (items: seq<Item>, dangling: Command)
    ensures tail == WordsOf(items) + dangling && |dangling| <= 1 && WellFormed(items)
    decreases |tail|
  {
    hide IsOption;
    if |tail| <= 1 {
      items, dangling := [], tail;
      assert tail == [] + tail;
    } else if IsOption(tail[0]) {
      var rest: seq<Item>;
      rest, dangling := SplitTail(tail[2..]);
      items := [Opt(tail[0], tail[1])] + rest;
      assert items[1..] == rest && tail == [tail[0], tail[1]] + tail[2..];
    } else {
      var rest: seq<Item>;
      rest, dangling := SplitTail(tail[1..]);
      items := [Skip(tail[0])] + rest;
      assert items[1..] == rest && tail == [tail[0]] + tail[1..];
    }
  }

  lemma {:induction false} LastOf(items: seq<Item>) returns (px: Option<int>)
    requires AllNumbers(items)
    ensures Last(items, px)
    decreases |items|
  {
    hide IsNumber, Names;
    if items == [] {
      px := None;
    } else {
      var j := |items| - 1;
      if items[j].Opt? {
        var v :| IsNumber(items[j].word, v);
        px := Some(if Names(items[j].name, "EX") then v * 1000 else v);
        assert Asks(items[j], px.value);
      } else {
        px := LastOf(items[..j]);
      }
    }
  }

  /** Every SET with a key and a value has such words, and a last option or none if all its numbers are numbers. */
  lemma SomeSetWords(args: Command) returns (items: seq<Item>, dangling: Command, px: Option<int>)
    requires |args| >= 3 && Names(args[0], "SET")
    ensures SetWords(args, args[1], args[2], items, dangling) && (AllNumbers(items) ==> Last(items, px))
  {
    hide Last, AllNumbers, WordsOf, WellFormed;
    items, dangling := SplitTail(args[3..]);
    px := None;
    if AllNumbers(items) { px := LastOf(items); }
  }

  // ---- how the options are read ----

  lemma NumberRead(word: string, v: int)
    requires IsNumber(word, v)
    ensures Stoll(word) == Some(v)
  {
    hide Parse, Spells;
    ParseSpelled(word, v, LLONG_MAX);
  }

  lemma NumberOf(word: string)
    requires Stoll(word).Some?
    ensures IsNumber(word, Stoll(word).value)
  {
    hide Parse, Spells;
    ParsedIsSpelled(word, LLONG_MAX);
  }

  lemma OptionWord(word: string)
    ensures Names(word, "PX") <==> ToUpper(word) == "PX"
    ensures Names(word, "EX") <==> ToUpper(word) == "EX"
  {
    hide Names, ToUpper;
    Verbs();
    UpperNames(word, "PX");
    UpperNames(word, "EX");
  }

  /** The last option at or after the first item, if there is one. */
  ghost function Final(items: seq<Item>, px: Option<int>): Option<int> {
    if items == [] then px else
    var x := items[0];
    var next := if x.Opt? && Stoll(x.word).Some?
                then Some(if Names(x.name, "EX") then Stoll(x.word).value * 1000 else Stoll(x.word).value) else px;
    Final(items[1..], next)
  }

  lemma {:induction false} Scan(args: Command, i: nat, items: seq<Item>, dangling: Command, px: Option<int>)
    requires i <= |args| && args[i..] == WordsOf(items) + dangling && |dangling| <= 1 && WellFormed(items)
    ensures SetOptions(args, i, px) ==
      if AllNumbers(items) then Expire(Final(items, px)) else BadNumber
    decreases |items|
  {
    hide Stoll, Names, ToUpper, Spells;
    if items != [] {
      var x, rest := items[0], items[1..];
      var n := |x.Words()|;
      var tail := args[i..];
      assert tail == x.Words() + (WordsOf(rest) + dangling);
      assert tail[n..] == args[i + n..];
      assert forall k | 0 <= k < n :: args[i + k] == tail[k] == x.Words()[k];
      FirstNumber(items);
      OptionWord(args[i]);
      assert WellFormed(rest);
      if x.Skip? {
        Scan(args, i + 1, rest, dangling, px);
      } else if Stoll(x.word).Some? {
        var ms := if Names(x.name, "EX") then Stoll(x.word).value * 1000 else Stoll(x.word).value;
        Scan(args, i + 2, rest, dangling, Some(ms));
      }
    }
  }

  lemma FirstNumber(items: seq<Item>)
    requires items != []
    ensures AllNumbers(items) <==> (items[0].Opt? ==> Stoll(items[0].word).Some?) && AllNumbers(items[1..])
  {
    hide Stoll, Spells;
    var x, rest := items[0], items[1..];
    assert forall i | 0 <= i < |rest| :: rest[i] == items[i + 1];
    assert forall i | 0 < i < |items| :: items[i] == rest[i - 1];
    if x.Opt? {
      if Stoll(x.word).Some? { NumberOf(x.word); }
      if exists v :: IsNumber(x.word, v) {
        var v :| IsNumber(x.word, v);
        NumberRead(x.word, v);
      }
    }
  }

  lemma {:induction false} FinalIsLast(items: seq<Item>, px: Option<int>, start: Option<int>)
    requires Last(items, px)
    ensures Final(items, start) == if px.Some? then px else start
    decreases |items|
  {
    hide Stoll, Names, Asks;
    if items != [] {
      var x, rest := items[0], items[1..];
      if px.None? {
        FinalIsLast(rest, None, start);
      } else {
        var j :| 0 <= j < |items| && Asks(items[j], px.value) && forall i | j < i < |items| :: items[i].Skip?;
        if j == 0 {
          AskedFor(x, px.value);
          FinalIsLast(rest, None, px);
        } else {
          assert rest[j - 1] == items[j];
          assert Last(rest, px);
          var next := if x.Opt? && Stoll(x.word).Some?
                      then Some(if Names(x.name, "EX") then Stoll(x.word).value * 1000 else Stoll(x.word).value)
                      else start;
          FinalIsLast(rest, px, next);
        }
      }
    }
  }

  lemma AskedFor(x: Item, ms: int)
    requires Asks(x, ms)
    ensures x.Opt? && Stoll(x.word).Some?
    ensures ms == if Names(x.name, "EX") then Stoll(x.word).value * 1000 else Stoll(x.word).value
  {
    hide Stoll, Names, Spells;
    var v :| IsNumber(x.word, v) && ms == if Names(x.name, "EX") then v * 1000 else v;
    NumberRead(x.word, v);
  }

  lemma OptionsOf(args: Command, key: string, value: string, items: seq<Item>, dangling: Command, px: Option<int>)
    requires SetWords(args, key, value, items, dangling) && Last(items, px)
    ensures SetOptions(args, 3, None) == if AllNumbers(items) then Expire(px) else BadNumber
  {
    hide SetOptions, Last, AllNumbers, Names;
    Scan(args, 3, items, dangling, None);
    FinalIsLast(items, px, None);
  }

  // ---- what SET means ----

  /** A SET whose numbers are numbers and whose last option, if there is one, asks for a positive time: it is accepted;
      the key reads as the value exactly until that time has passed, and every other key reads as before. */
  lemma SetAndGet(args: Command, key: string, value: string, items: seq<Item>, dangling: Command, px: Option<int>,
                  m: Data, info: Info, fromMaster: bool, now: int, later: int, other: string, text: string)
    requires SetWords(args, key, value, items, dangling) && AllNumbers(items) && Last(items, px)
    requires Admitted(info, fromMaster) && (px.Some? ==> px.value > 0)
    requires other != key && Reads(m, other, later, text)
    ensures Reply(args, m, info, fromMaster, now) == "+OK\r\n"
    ensures var t := Executed(args, m, info, fromMaster, now);
      && Reads(t, key, later, if px.Some? && later >= now + px.value * 1_000_000 then "$-1\r\n" else BulkText(value))
      && Reads(t, other, later, text)
  {
    hide SetOptions, Last, AllNumbers, WordsOf, WellFormed, BulkText, ToUpper;
    OptionsOf(args, key, value, items, dangling, px);
    Verbs();
    NameIs(args[0], args, "SET");
    var t := Executed(args, m, info, fromMaster, now);
    SetEffect(args, m, info, fromMaster, now, px);
    ReadsLookup(t, key, later);
    ReadsLookup(t, other, later);
    ReadsLookup(m, other, later);
    ReadsOnce(m, other, later, text,
              if Lookup(m, other, later).Some? then BulkText(Lookup(m, other, later).value) else "$-1\r\n");
    SetReplyOf(args, m, info, fromMaster, now);
  }

  lemma ReadsOnce(m: Data, key: string, now: int, a: string, b: string)
    requires Reads(m, key, now, a) && Reads(m, key, now, b)
    ensures a == b
  {
    hide Reply;
    assert Names("GET", "GET");
    assert Reply(["GET", key], m, Info(Master, "", 0, "", 0, "", 0), true, now) == a;
  }

  lemma SetEffect(args: Command, m: Data, info: Info, fromMaster: bool, now: int, px: Option<int>)
    requires Name(args) == "SET" && |args| >= 3 && Admitted(info, fromMaster) && SetOptions(args, 3, None) == Expire(px)
    ensures Executed(args, m, info, fromMaster, now) ==
      if px.Some? && px.value <= 0 then m
      else m[args[1] := Entry(args[2], if px.Some? then Some(now + px.value * 1_000_000) else None)]
  {
    hide SetOptions, ToUpper, IsWrite;
  }

  lemma SetReplyOf(args: Command, m: Data, info: Info, fromMaster: bool, now: int)
    requires Name(args) == "SET" && Admitted(info, fromMaster)
    ensures Reply(args, m, info, fromMaster, now) == SetReply(args)
  {
    hide SetReply, ToUpper, IsWrite;
  }

  /** A SET whose last option asks for no time or less: refused, and nothing is stored. */
  lemma SetExpired(args: Command, key: string, value: string, items: seq<Item>, dangling: Command, ms: int,
                   m: Data, info: Info, fromMaster: bool, now: int)
    requires SetWords(args, key, value, items, dangling) && AllNumbers(items) && Last(items, Some(ms)) && ms <= 0
    requires Admitted(info, fromMaster)
    ensures Reply(args, m, info, fromMaster, now) == "-ERR invalid expire time in 'set' command\r\n"
    ensures Executed(args, m, info, fromMaster, now) == m
  {
    hide SetOptions, Last, AllNumbers, WordsOf, WellFormed, ToUpper;
    OptionsOf(args, key, value, items, dangling, Some(ms));
    Verbs();
    NameIs(args[0], args, "SET");
    SetEffect(args, m, info, fromMaster, now, Some(ms));
    SetReplyOf(args, m, info, fromMaster, now);
  }

  /** A SET with an option that has no number: refused, and nothing is stored. */
  lemma SetNoNumber(args: Command, key: string, value: string, items: seq<Item>, dangling: Command,
                    m: Data, info: Info, fromMaster: bool, now: int)
    requires SetWords(args, key, value, items, dangling) && !AllNumbers(items) && Admitted(info, fromMaster)
    ensures Reply(args, m, info, fromMaster, now) == "-ERR value is not an integer or out of range\r\n"
    ensures Executed(args, m, info, fromMaster, now) == m
  {
    hide SetOptions, AllNumbers, WordsOf, WellFormed, ToUpper, IsWrite;
    Scan(args, 3, items, dangling, None);
    Verbs();
    NameIs(args[0], args, "SET");
    SetReplyOf(args, m, info, fromMaster, now);
  }

  lemma SetTooShort(args: Command, m: Data, info: Info, fromMaster: bool, now: int)
    requires 0 < |args| < 3 && Names(args[0], "SET") && Admitted(info, fromMaster)
    ensures Reply(args, m, info, fromMaster, now) == "-ERR wrong number of arguments for 'set' command\r\n"
    ensures Executed(args, m, info, fromMaster, now) == m
  {
    hide ToUpper, IsWrite, SetOptions;
    Verbs();
    NameIs(args[0], args, "SET");
    SetReplyOf(args, m, info, fromMaster, now);
  }

  /** EX counts seconds and PX milliseconds, in any spelling of the option. */
  lemma SetExPx(opt: string, n: nat, key: string, value: string, m: Data, info: Info, now: int, later: int)
    requires IsOption(opt) && 0 < n <= 0x7FFF_FFFF_FFFF_FFFF && info.role == Master
    ensures var args := ["SET", key, value, opt, Dec(n)];
      && Reply(args, m, info, false, now) == "+OK\r\n"
      && Reads(Executed(args, m, info, false, now), key, later,
               if later >= now + n * (if Names(opt, "EX") then 1_000_000_000 else 1_000_000) then "$-1\r\n"
               else BulkText(value))
  {
    hide Dec, Reply, Executed, Reads, Lookup, BulkText, Spells;
    var args, item := ["SET", key, value, opt, Dec(n)], Opt(opt, Dec(n));
    SpellsDec(n);
    assert IsNumber(item.word, n);
    var ms := if Names(opt, "EX") then n * 1000 else n;
    assert Asks(item, ms) && [item][0] == item;
    assert Last([item], Some(ms));
    assert [item][1..] == [] && WordsOf([item]) == item.Words() + [];
    assert args[3..] == WordsOf([item]) + [];
    var other := key + "x";
    ReadsLookup(m, other, later);
    SetAndGet(args, key, value, [item], [], Some(ms), m, info, false, now, later, other,
              if Lookup(m, other, later).Some? then BulkText(Lookup(m, other, later).value) else "$-1\r\n");
  }

  // ---- what DEL means ----

  /** DEL reports how many of the keys were there, and they read as absent from then on; other keys are untouched. */
  lemma DelAndGet(del: string, keys: seq<string>, m: Data, info: Info, fromMaster: bool, now: int, later: int,
                  key: string, text: string)
    requires Names(del, "DEL") && keys != [] && Admitted(info, fromMaster) && Reads(m, key, later, text)
    ensures Reply([del] + keys, m, info, fromMaster, now) == ":" + Dec(|(set k | k in keys && k in m)|) + "\r\n"
    ensures Reads(Executed([del] + keys, m, info, fromMaster, now), key, later, if key in keys then "$-1\r\n" else text)
  {
    hide ToUpper, IsWrite, Dec, Deleted;
    var args := [del] + keys;
    assert args[1..] == keys && args[0] == del;
    Verbs();
    NameIs(del, args, "DEL");
    DeletedCounts(keys, m);
    var t := Executed(args, m, info, fromMaster, now);
    assert t == Without(m, keys);
    ReadsLookup(t, key, later);
    ReadsLookup(m, key, later);
    ReadsOnce(m, key, later, text,
              if Lookup(m, key, later).Some? then BulkText(Lookup(m, key, later).value) else "$-1\r\n");
  }

  // ---- the rest ----

  /** A client's write to a worker. */
  lemma RefusedText(args: Command, m: Data, info: Info, now: int)
    requires args != [] && (Names(args[0], "SET") || Names(args[0], "DEL")) && info.role == Worker
    ensures Reply(args, m, info, false, now) == "-READONLY You can't write against a read only replica.\r\n"
    ensures Executed(args, m, info, false, now) == m
  {
    hide ToUpper, IsWrite;
    Verbs();
    if Names(args[0], "SET") { NameIs(args[0], args, "SET"); } else { NameIs(args[0], args, "DEL"); }
  }

  lemma PingText(ping: string, m: Data, info: Info, now: int)
    requires Names(ping, "PING")
    ensures Reply([ping], m, info, false, now) == "+PONG\r\n"
  {
    hide ToUpper, IsWrite;
    assert Capitals("PING");
    NameIs(ping, [ping], "PING");
    OtherVerb("PING");
  }

  lemma EchoText(echo: string, word: string, m: Data, info: Info, now: int)
    requires Names(echo, "ECHO")
    ensures Reply([echo, word], m, info, false, now) == BulkText(word)
  {
    hide ToUpper, IsWrite, Dec;
    assert Capitals("ECHO");
    NameIs(echo, [echo, word], "ECHO");
    OtherVerb("ECHO");
  }

  lemma OtherVerb(name: string)
    requires |name| == 4
    ensures !IsWrite(name)
  {
  }
}
