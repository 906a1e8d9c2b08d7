/** Command execution: src/command.cpp. */
module Commands {
  import opened Text
  import opened KeyStore
  import Resp

  type Command = Resp.Command

  datatype Role = Master | Worker

  datatype Info = Info(role: Role, replid: string, offset: int, host: string, port: int,
                       replid2: string, secondOffset: int)

  const NOT_AN_INTEGER := "-ERR value is not an integer or out of range\r\n"
  const BAD_PORT := "-ERR Invalid master port\r\n"

  function Name(args: Command): string { if args == [] then "" else ToUpper(args[0]) }

  predicate IsWrite(name: string) { ToUpper(name) == "SET" || ToUpper(name) == "DEL" }

  /** The expiry options of SET: the last PX or EX wins, unknown words are passed over. */
  datatype Options = BadNumber | Expire(px: Option<int>)

  function SetOptions(args: Command, i: nat, px: Option<int>): Options
    decreases |args| - i
  {
    if i + 1 >= |args| then Expire(px) else
    var opt := ToUpper(args[i]);
    if opt == "PX" || opt == "EX" then
      match Stoll(args[i + 1])
      case None => BadNumber
      case Some(n) => SetOptions(args, i + 2, Some(if opt == "EX" then n * 1000 else n))
    else SetOptions(args, i + 1, px)
  }

  /** Whether a SET is accepted; this depends on nothing but its words. */
  predicate SetAccepted(args: Command) {
    |args| >= 3 && var o := SetOptions(args, 3, None); o.Expire? && (o.px.Some? ==> o.px.value > 0)
  }

  /** The change a command makes when it is let through. */
  function Effect(args: Command, m: Data, now: int): Data {
    if Name(args) == "SET" then
      if SetAccepted(args) then Put(m, args[1], args[2], SetOptions(args, 3, None).px, now) else m
    else if Name(args) == "DEL" then Without(m, args[1..])
    else m
  }

  /** Writes by a client of a read-only replica are refused; the replication stream is not. */
  predicate Refused(args: Command, info: Info, fromMaster: bool) {
    !fromMaster && info.role == Worker && IsWrite(Name(args))
  }

  function Executed(args: Command, m: Data, info: Info, fromMaster: bool, now: int): Data {
    if Refused(args, info, fromMaster) then m else Effect(args, m, now)
  }

  /** How many of `keys` a DEL finds, each key counted once. */
  function Deleted(keys: seq<string>, m: Data): nat
    decreases |keys|
  {
    if keys == [] then 0 else
    (if keys[0] in m then 1 else 0) + Deleted(keys[1..], m - {keys[0]})
  }

  function SetReply(args: Command): string {
    if |args| < 3 then "-ERR wrong number of arguments for 'set' command\r\n" else
    if SetOptions(args, 3, None).BadNumber? then NOT_AN_INTEGER else
    if !SetAccepted(args) then "-ERR invalid expire time in 'set' command\r\n" else "+OK\r\n"
  }

  function InfoBody(info: Info): string {
    "role:" + (if info.role == Master then "master" else "worker")
    + "\r\nmaster_replid:" + info.replid
    + "\r\nmaster_repl_offset:" + ToString(info.offset)
    + "\r\nmaster_replid2:" + info.replid2
    + "\r\nsecond_repl_offset:" + ToString(info.secondOffset)
  }

  function RoleReply(info: Info): string {
    if info.role == Master then
      "*3\r\n$6\r\nmaster\r\n:" + ToString(info.offset) + "\r\n*0\r\n"
    else
      "*5\r\n$5\r\nslave\r\n" + Resp.EncodeBulk(info.host) + ":" + ToString(info.port)
      + "\r\n$9\r\nconnected\r\n:" + ToString(info.offset) + "\r\n"
  }

  predicate IsGetAck(args: Command) {
    |args| >= 2 && Name(args) == "REPLCONF" && ToUpper(args[1]) == "GETACK"
  }

  function AckReply(offset: int): string {
    Resp.Encode(["REPLCONF", "ACK", ToString(offset)])
  }

  predicate IsNoOne(args: Command) {
    |args| >= 3 && ToUpper(args[1]) == "NO" && ToUpper(args[2]) == "ONE"
  }

  function ReplicaofReply(args: Command): string {
    if |args| != 3 then "-ERR wrong number of arguments for 'replicaof' command\r\n" else
    if IsNoOne(args) then "" else
    var port := Stoi(args[2]);
    if port.None? || port.value < 1 || port.value > 65535 then BAD_PORT else ""
  }

  function WaitReply(args: Command): string {
    if |args| < 3 then "-ERR wrong number of arguments for 'wait' command\r\n" else
    if Stoi(args[1]).None? || Stoi(args[2]).None? then NOT_AN_INTEGER else ""
  }

  /** The reply; empty when the server itself takes the command over. */
  function Reply(args: Command, m: Data, info: Info, fromMaster: bool, now: int): string {
    if args == [] then "-ERR no command\r\n" else
    if Refused(args, info, fromMaster) then "-READONLY You can't write against a read only replica.\r\n" else
    match Name(args)
    case "PING" => "+PONG\r\n"
    case "ECHO" =>
      if |args| < 2 then "-ERR wrong number of arguments for 'echo' command\r\n" else Resp.EncodeBulk(args[1])
    case "INFO" =>
      if |args| < 2 || args[1] == "" || ToUpper(args[1]) == "REPLICATION"
      then Resp.EncodeBulk(InfoBody(info)) else Resp.EncodeBulk("")
    case "SET" => SetReply(args)
    case "DEL" =>
      if |args| < 2 then "-ERR wrong number of arguments for 'del' command\r\n"
      else ":" + ToString(Deleted(args[1..], m)) + "\r\n"
    case "GET" =>
      if |args| < 2 then "-ERR wrong number of arguments for 'get' command\r\n" else
      var v := Lookup(m, args[1], now);
      if v.None? then "$-1\r\n" else Resp.EncodeBulk(v.value)
    case "ROLE" => RoleReply(info)
    case "REPLCONF" => if IsGetAck(args) then AckReply(info.offset) else "+OK\r\n"
    case "PSYNC" => ""
    case "REPLICAOF" => ReplicaofReply(args)
    case "WAIT" => WaitReply(args)
    case _ => "-ERR unknown command '" + args[0] + "'\r\n"
  }

  // ---- the imperative command handlers ----

  method ScanOptions(args: Command) returns (r: Options)
    requires |args| >= 3
    ensures r == SetOptions(args, 3, None)
  {
    var px: Option<int> := None;
    var i := 3;
    while i + 1 < |args|
      invariant i >= 3
      invariant SetOptions(args, i, px) == SetOptions(args, 3, None)
      decreases |args| - i
    {
      var opt := ToUpper(args[i]);
      if opt == "PX" || opt == "EX" {
        var n := Stoll(args[i + 1]);
        if n.None? { return BadNumber; }
        px := Some(if opt == "EX" then n.value * 1000 else n.value);
        i := i + 1;
      }
      i := i + 1;
    }
    return Expire(px);
  }

  method ExecuteSet(args: Command, store: Store, now: int) returns (reply: string)
    requires Name(args) == "SET"
    modifies store
    ensures reply == SetReply(args) && store.data == Effect(args, old(store.data), now)
  {
    if |args| < 3 { return "-ERR wrong number of arguments for 'set' command\r\n"; }
    var o := ScanOptions(args);
    if o.BadNumber? { return NOT_AN_INTEGER; }
    if o.px.Some? && o.px.value <= 0 { return "-ERR invalid expire time in 'set' command\r\n"; }
    store.Set(args[1], args[2], o.px, now);
    return "+OK\r\n";
  }

  method ExecuteDel(args: Command, store: Store, now: int) returns (reply: string)
    requires Name(args) == "DEL" && |args| >= 2
    modifies store
    ensures reply == ":" + ToString(Deleted(args[1..], old(store.data))) + "\r\n"
    ensures store.data == Effect(args, old(store.data), now)
  {
    var keys := args[1..];
    var count, i := 0, 0;
    while i < |keys|
      invariant 0 <= i <= |keys|
      invariant store.data == Without(old(store.data), keys[..i])
      invariant count + Deleted(keys[i..], store.data) == Deleted(keys, old(store.data))
    {
      assert keys[i..][0] == keys[i] && keys[i..][1..] == keys[i + 1..];
      assert keys[..i + 1] == keys[..i] + [keys[i]];
      var existed := store.Del(keys[i]);
      if existed { count := count + 1; }
      i := i + 1;
    }
    assert keys[..i] == keys;
    return ":" + ToString(count) + "\r\n";
  }

  method ExecuteGet(args: Command, store: Store, now: int) returns (reply: string)
    requires |args| >= 2
    ensures reply == match Lookup(store.data, args[1], now) case None => "$-1\r\n" case Some(v) => Resp.EncodeBulk(v)
  {
    var value := store.Get(args[1], now);
    if value.None? { return "$-1\r\n"; }
    return Resp.EncodeBulk(value.value);
  }

  method ExecuteInfo(args: Command, info: Info) returns (reply: string)
    ensures reply == if |args| < 2 || args[1] == "" || ToUpper(args[1]) == "REPLICATION"
                     then Resp.EncodeBulk(InfoBody(info)) else Resp.EncodeBulk("")
  {
    var section := if |args| >= 2 then ToUpper(args[1]) else "";
    if section == "" || section == "REPLICATION" { return Resp.EncodeBulk(InfoBody(info)); }
    return Resp.EncodeBulk("");
  }

  /** The port check of REPLICAOF; nothing is said when the server takes over. */
  method ExecuteReplicaof(args: Command) returns (reply: string)
    ensures reply == ReplicaofReply(args)
  {
    if |args| != 3 { return "-ERR wrong number of arguments for 'replicaof' command\r\n"; }
    var arg1, arg2 := ToUpper(args[1]), ToUpper(args[2]);
    if arg1 == "NO" && arg2 == "ONE" { return ""; }
    var port := Stoi(args[2]);
    if port.None? { return BAD_PORT; }
    if port.value < 1 || port.value > 65535 { return BAD_PORT; }
    return "";
  }

  method ExecuteWait(args: Command) returns (reply: string)
    ensures reply == WaitReply(args)
  {
    if |args| < 3 { return "-ERR wrong number of arguments for 'wait' command\r\n"; }
    if Stoi(args[1]).None? || Stoi(args[2]).None? { return NOT_AN_INTEGER; }
    return "";
  }

  /** Commands that never touch the store, tried in the order of the source. */
  method ExecuteQuiet(args: Command, store: Store, info: Info, now: int) returns (reply: string)
    requires args != [] && Name(args) != "SET" && Name(args) != "DEL"
    ensures reply == Reply(args, store.data, info, true, now)
  {
    hide ReplicaofReply, WaitReply, RoleReply, InfoBody, AckReply, Lookup, Stoi, ToUpper, SetReply, Deleted,
         Resp.EncodeBulk;
    var cmd := ToUpper(args[0]);
    if cmd == "PING" { return "+PONG\r\n"; }
    if cmd == "ECHO" {
      if |args| < 2 { return "-ERR wrong number of arguments for 'echo' command\r\n"; }
      return Resp.EncodeBulk(args[1]);
    }
    if cmd == "INFO" { reply := ExecuteInfo(args, info); return; }
    if cmd == "GET" {
      if |args| < 2 { return "-ERR wrong number of arguments for 'get' command\r\n"; }
      reply := ExecuteGet(args, store, now);
      return;
    }
    if cmd == "ROLE" { return RoleReply(info); }
    if cmd == "REPLCONF" {
      if |args| >= 2 && ToUpper(args[1]) == "GETACK" { return AckReply(info.offset); }
      return "+OK\r\n";
    }
    if cmd == "PSYNC" { return ""; }
    if cmd == "REPLICAOF" { reply := ExecuteReplicaof(args); return; }
    if cmd == "WAIT" { reply := ExecuteWait(args); return; }
    return "-ERR unknown command '" + args[0] + "'\r\n";
  }

  method Execute(args: Command, store: Store, info: Info, fromMaster: bool, now: int) returns (reply: string)
    modifies store
    ensures reply == Reply(args, old(store.data), info, fromMaster, now)
    ensures store.data == Executed(args, old(store.data), info, fromMaster, now)
  {
    hide SetReply, Effect, Deleted, Lookup, ReplicaofReply, WaitReply, RoleReply, InfoBody, AckReply, SetOptions,
         ToUpper;
    if args == [] {
      NoEffect(args, store.data, now);
      return "-ERR no command\r\n";
    }
    var cmd := ToUpper(args[0]);
    if !fromMaster && info.role == Worker && IsWrite(cmd) {
      return "-READONLY You can't write against a read only replica.\r\n";
    }
    if cmd == "SET" {
      reply := ExecuteSet(args, store, now);
    } else if cmd == "DEL" {
      if |args| < 2 {
        NoEffect(args, store.data, now);
        return "-ERR wrong number of arguments for 'del' command\r\n";
      }
      reply := ExecuteDel(args, store, now);
    } else {
      NoEffect(args, store.data, now);
      reply := ExecuteQuiet(args, store, info, now);
    }
  }

  lemma NoEffect(args: Command, m: Data, now: int)
    requires Name(args) == "SET" || Name(args) == "DEL" ==> |args| < 2
    ensures Effect(args, m, now) == m
  {
    assert Name(args) == "DEL" ==> args[1..] == [];
  }

  // ---- what the data commands mean ----

  /** A reply is withheld exactly for the commands the server itself completes. */
  lemma HandedOver(args: Command, m: Data, info: Info, fromMaster: bool, now: int)
    ensures Reply(args, m, info, fromMaster, now) == "" <==>
      || Name(args) == "PSYNC"
      || (Name(args) == "WAIT" && |args| >= 3 && Stoi(args[1]).Some? && Stoi(args[2]).Some?)
      || (Name(args) == "REPLICAOF" && |args| == 3
          && (IsNoOne(args) || (Stoi(args[2]).Some? && 1 <= Stoi(args[2]).value <= 65535)))
  {
    hide Reply, Stoi, ToUpper, IsNoOne;
    if Name(args) == "PSYNC" || Name(args) == "WAIT" || Name(args) == "REPLICAOF" {
      ServerCommand(args, m, info, fromMaster, now);
    } else {
      OtherCommand(args, m, info, fromMaster, now);
    }
  }

  lemma ServerCommand(args: Command, m: Data, info: Info, fromMaster: bool, now: int)
    requires Name(args) == "PSYNC" || Name(args) == "WAIT" || Name(args) == "REPLICAOF"
    ensures Reply(args, m, info, fromMaster, now) ==
      match Name(args) case "PSYNC" => "" case "WAIT" => WaitReply(args) case _ => ReplicaofReply(args)
  {
    hide WaitReply, ReplicaofReply, Lookup, Deleted, SetReply, Resp.EncodeBulk, AckReply, InfoBody, RoleReply,
         ToUpper, IsWrite, ToString;
    NotWrites();
  }

  lemma OtherCommand(args: Command, m: Data, info: Info, fromMaster: bool, now: int)
    requires Name(args) != "PSYNC" && Name(args) != "WAIT" && Name(args) != "REPLICAOF"
    ensures Reply(args, m, info, fromMaster, now) != ""
  {
    hide Reply, ToUpper;
    if Name(args) == "ECHO" {
      EchoCommand(args, m, info, fromMaster, now);
    } else if Name(args) == "INFO" {
      InfoCommand(args, m, info, fromMaster, now);
    } else if Name(args) == "GET" {
      GetCommand(args, m, info, fromMaster, now);
    } else {
      PlainCommand(args, m, info, fromMaster, now);
    }
  }

  lemma EchoCommand(args: Command, m: Data, info: Info, fromMaster: bool, now: int)
    requires Name(args) == "ECHO"
    ensures Reply(args, m, info, fromMaster, now) != ""
  {
    hide Resp.EncodeBulk, ToUpper, IsWrite;
    if |args| >= 2 { BulkSpeaks(args[1]); }
  }

  lemma InfoCommand(args: Command, m: Data, info: Info, fromMaster: bool, now: int)
    requires Name(args) == "INFO"
    ensures Reply(args, m, info, fromMaster, now) != ""
  {
    hide Resp.EncodeBulk, InfoBody, ToUpper, IsWrite;
    BulkSpeaks(InfoBody(info));
    BulkSpeaks("");
  }

  lemma GetCommand(args: Command, m: Data, info: Info, fromMaster: bool, now: int)
    requires Name(args) == "GET"
    ensures Reply(args, m, info, fromMaster, now) != ""
  {
    hide Lookup, Resp.EncodeBulk, ToUpper, IsWrite;
    if |args| >= 2 {
      var v := Lookup(m, args[1], now);
      if v.Some? { BulkSpeaks(v.value); }
    }
  }

  lemma PlainCommand(args: Command, m: Data, info: Info, fromMaster: bool, now: int)
    requires Name(args) != "ECHO" && Name(args) != "INFO" && Name(args) != "GET"
    requires Name(args) != "PSYNC" && Name(args) != "WAIT" && Name(args) != "REPLICAOF"
    ensures Reply(args, m, info, fromMaster, now) != ""
  {
    hide Lookup, Deleted, SetReply, Resp.EncodeBulk, AckReply, RoleReply, ToUpper, IsWrite, ToString;
    RepliesSpeak(info, args);
  }

  lemma NotWrites()
    ensures !IsWrite("PSYNC") && !IsWrite("WAIT") && !IsWrite("REPLICAOF")
  {
    assert ToUpper("PSYNC")[0] == 'P' && ToUpper("WAIT")[0] == 'W' && ToUpper("REPLICAOF")[0] == 'R';
  }

  lemma RepliesSpeak(info: Info, args: Command)
    ensures RoleReply(info) != "" && SetReply(args) != "" && AckReply(info.offset) != ""
  {
    hide SetOptions, Resp.EncodeBulk, Resp.EncodeBulks;
  }

  lemma BulkSpeaks(s: string)
    ensures Resp.EncodeBulk(s) != ""
  {
  }

  /** Whatever a client sends to a worker, its store stays; and only SET and DEL ever change a store. */
  lemma ReadOnly(args: Command, m: Data, info: Info, fromMaster: bool, now: int)
    requires Executed(args, m, info, fromMaster, now) != m
    ensures IsWrite(Name(args)) && (fromMaster || info.role == Master)
  {
    hide SetOptions, Put;
    assert ToUpper("SET") == "SET" && ToUpper("DEL") == "DEL";
  }

  /** An accepted SET is read back by GET until its deadline, and nothing else changes. */
  lemma SetThenGet(args: Command, m: Data, now: int, later: int, key: string)
    requires Name(args) == "SET" && SetAccepted(args)
    ensures var px := SetOptions(args, 3, None).px; var t := Effect(args, m, now);
      if key != args[1] then Lookup(t, key, later) == Lookup(m, key, later)
      else Lookup(t, key, later) == if px.Some? && later >= now + px.value * NS_PER_MS then None else Some(args[2])
  {
    hide SetOptions, ToUpper;
  }

  /** DEL counts the distinct keys it removes. */
  lemma {:induction false} DeletedCounts(keys: seq<string>, m: Data)
    ensures Deleted(keys, m) == |(set k | k in keys && k in m)|
    ensures Without(m, keys).Keys == m.Keys - (set k | k in keys && k in m)
    decreases |keys|
  {
    if keys == [] {
      assert (set k | k in keys && k in m) == {};
    } else {
      var first, rest := keys[0], keys[1..];
      DeletedCounts(rest, m - {first});
      var later := set k | k in rest && k in m - {first};
      assert (set k | k in keys && k in m) == (if first in m then {first} else {}) + later;
    }
  }
}
