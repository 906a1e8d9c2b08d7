/** What clients read: a client that only WAITs is told its answers, in order, and nothing else. */
module Answers {
  import opened Text
  import opened KeyStore
  import opened Commands
  import opened Replication
  import opened Membership
  import opened Waiting
  import opened Streams
  import opened Books
  import opened Runs
  import opened Safety
  import opened Guarantees
  import Rdb
  import Resp

  /** From `w` to `t`, the output of client `c` has grown by the answers to its WAITs given in between. */
  ghost predicate Tells(w: World, t: World, c: ClientId) {
    && c in w.s.clients && c in t.s.clients && w.s.clients[c].kind == t.s.clients[c].kind == Regular
    && w.h.answers <= t.h.answers
    && t.s.clients[c].out == w.s.clients[c].out + TextFor(c, t.h.answers[|w.h.answers|..])
  }

  lemma TextForCons(c: ClientId, a: Answer, rest: seq<Answer>)
    ensures TextFor(c, [a] + rest) == (if a.wait.client == c then Number(a.count) else "") + TextFor(c, rest)
  {
    hide Number;
    assert ([a] + rest)[1..] == rest;
  }

  lemma {:induction false} TextForAppend(c: ClientId, a: seq<Answer>, b: seq<Answer>)
    ensures TextFor(c, a + b) == TextFor(c, a) + TextFor(c, b)
    decreases |a|
  {
    hide TextFor, Number;
    if a == [] {
      assert a + b == b;
      NoText(c);
    } else {
      TextForAppend(c, a[1..], b);
      TextForCons(c, a[0], a[1..] + b);
      TextForCons(c, a[0], a[1..]);
      assert a == [a[0]] + a[1..] && a + b == [a[0]] + (a[1..] + b);
    }
  }

  lemma NoText(c: ClientId)
    ensures TextFor(c, []) == ""
  {
  }

  lemma TellsThen(w: World, t: World, u: World, c: ClientId)
    requires Tells(w, t, c) && Tells(t, u, c)
    ensures Tells(w, u, c)
  {
    hide TextFor;
    var a, b := t.h.answers[|w.h.answers|..], u.h.answers[|t.h.answers|..];
    assert u.h.answers[|w.h.answers|..] == a + b;
    TextForAppend(c, a, b);
  }

  lemma TellsNothing(w: World, t: World, c: ClientId)
    requires c in w.s.clients && w.s.clients[c].kind == Regular && t.h.answers == w.h.answers
    requires c in t.s.clients && t.s.clients[c] == w.s.clients[c]
    ensures Tells(w, t, c)
  {
    assert t.h.answers[|w.h.answers|..] == [];
  }

  lemma SettleTells(w: World, cause: Cause, c: ClientId)
    requires c in w.s.clients && w.s.clients[c].kind == Regular
    ensures Tells(w, DoSettle(w, cause), c)
  {
    hide StillParked, Told, Answered, TextFor;
    var t, given := DoSettle(w, cause), Answered(w.s, w.s.waits, cause);
    AnswersAreTold(w.s, w.s.waits, cause, w.s.clients, c);
    ToldSame(w.s, w.s.waits, cause, w.s.clients);
    assert t.h.answers[|w.h.answers|..] == given;
  }

  lemma SayTells(w: World, d: ClientId, text: string, c: ClientId)
    requires c in w.s.clients && w.s.clients[c].kind == Regular && d != c
    ensures Tells(w, DoSay(w, d, text), c)
  {
    TellsNothing(w, DoSay(w, d, text), c);
  }

  // ---- WAIT ----

  lemma AnswerTells(w: World, wait: Wait, count: int, c: ClientId)
    requires c in w.s.clients && w.s.clients[c].kind == Regular
    ensures Tells(w, DoAnswer(w, wait, count), c)
  {
    hide Number;
    var t, a := DoAnswer(w, wait, count), Answer(wait, count, AtOnce, AcksOf(w.s));
    assert t.h.answers[|w.h.answers|..] == [a] && [a][1..] == [];
    assert TextFor(c, [a]) == (if wait.client == c then Number(count) else "") + "";
  }

  lemma ParkTells(w: World, wait: Wait, c: ClientId)
    requires c in w.s.clients && w.s.clients[c].kind == Regular
    ensures Tells(w, DoPark(w, wait), c)
  {
    hide Resp.Encode;
    TellsNothing(w, DoPark(w, wait), c);
  }

  lemma StollToo(s: string)
    requires Stoi(s).Some?
    ensures Stoll(s).Some?
  {
    hide SkipSpaces, Digits, Value;
  }

  lemma WaitTells(w: World, d: ClientId, args: Command, now: int, c: ClientId)
    requires c in w.s.clients && w.s.clients[c].kind == Regular && WaitReply(args) == ""
    ensures Tells(w, DoWait(w, d, args, now), c)
  {
    hide Tells, DoAnswer, DoPark, Stoi, Stoll, CaughtUp;
    StollToo(args[2]);
    var wait := Asked(args, d, w.s, now);
    match Immediate(w.s, Stoi(args[1]).value)
    case Some(count) => AnswerTells(w, wait, count, c);
    case None => ParkTells(w, wait, c);
  }

  // ---- role changes ----

  lemma RemoveTells(w: World, d: ClientId, c: ClientId)
    requires c in w.s.clients && w.s.clients[c].kind == Regular && d != c
    ensures Tells(w, DoRemove(w, d), c)
  {
    hide Remove, DropWaits, DroppedBy;
    TellsNothing(w, DoRemove(w, d), c);
  }

  lemma {:induction false} RemoveAllTells(w: World, ids: seq<ClientId>, c: ClientId)
    requires c in w.s.clients && w.s.clients[c].kind == Regular && c !in ids
    ensures Tells(w, DoRemoveAll(w, ids), c)
    decreases |ids|
  {
    hide Tells, DoRemove;
    if ids == [] {
      TellsNothing(w, w, c);
    } else {
      RemoveTells(w, ids[0], c);
      StillRegular(w, DoRemove(w, ids[0]), c);
      RemoveAllTells(DoRemove(w, ids[0]), ids[1..], c);
      TellsThen(w, DoRemove(w, ids[0]), DoRemoveAll(w, ids), c);
    }
  }

  lemma StillRegular(w: World, t: World, c: ClientId)
    requires Tells(w, t, c)
    ensures c in t.s.clients && t.s.clients[c].kind == Regular
  {
  }

  lemma DropMasterTells(w: World, c: ClientId)
    requires c in w.s.clients && w.s.clients[c].kind == Regular && w.s.master != Some(c)
    ensures Tells(w, DoDropMaster(w), c)
  {
    hide Tells, DoRemove;
    if w.s.master.Some? { RemoveTells(w, w.s.master.value, c); } else { TellsNothing(w, w, c); }
  }

  lemma RegularFacts(s: State, c: ClientId)
    requires Structure(s) && c in s.clients && s.clients[c].kind == Regular
    ensures c !in s.replicas && s.master != Some(c)
  {
  }

  lemma StepDownTells(w: World, c: ClientId)
    requires Structure(w.s) && c in w.s.clients && w.s.clients[c].kind == Regular
    ensures Tells(w, DoStepDown(w), c)
  {
    hide Tells, DoSettle, DoRemoveAll, Structure;
    RegularFacts(w.s, c);
    if w.s.info.role == Master {
      var t := DoSettle(w, RoleChange);
      SettleTells(w, RoleChange, c);
      StillRegular(w, t, c);
      RemoveAllTells(t, w.s.replicas, c);
      var u := DoRemoveAll(t, w.s.replicas);
      TellsThen(w, t, u, c);
      StillRegular(w, u, c);
      SameClients(w, u, DoStepDown(w), c);
    } else {
      TellsNothing(w, w, c);
    }
  }

  lemma SameClients(w: World, t: World, u: World, c: ClientId)
    requires Tells(w, t, c) && u.h.answers == t.h.answers && c in u.s.clients && u.s.clients[c] == t.s.clients[c]
    ensures Tells(w, u, c)
  {
    hide TextFor;
  }

  lemma FollowTells(w: World, d: ClientId, host: string, port: int, sync: Handshake, c: ClientId)
    requires Structure(w.s) && c in w.s.clients && w.s.clients[c].kind == Regular && d != c && sync.Synced?
    requires sync.conn !in w.s.clients
    ensures Tells(w, DoFollow(w, d, host, port, sync), c)
  {
    hide Tells, DoStepDown, StepDown, DoDropMaster, DropMaster, BecomeWorker, Structure;
    var t := DoStepDown(w);
    StepDownTells(w, c);
    StepDownState(w);
    StepDownLeaving(w.s);
    StillRegular(w, t, c);
    RegularFacts(t.s, c);
    DropMasterTells(t, c);
    DropMasterState(t);
    var u := DoDropMaster(t);
    TellsThen(w, t, u, c);
    StillRegular(w, u, c);
    JoinedClients(u.s, d, host, port, sync, c);
    SameClients(w, u, DoFollow(w, d, host, port, sync), c);
  }

  lemma JoinedClients(s: State, d: ClientId, host: string, port: int, sync: Handshake, c: ClientId)
    requires c in s.clients && d != c && sync.Synced? && sync.conn != c
    ensures var t := BecomeWorker(s, d, host, port, sync); c in t.clients && t.clients[c] == s.clients[c]
  {
  }

  lemma PromoteTells(w: World, freshId: string, c: ClientId)
    requires Structure(w.s) && c in w.s.clients && w.s.clients[c].kind == Regular
    ensures Tells(w, DoPromote(w, freshId), c)
  {
    hide Tells, DoDropMaster, DropMaster, Structure;
    RegularFacts(w.s, c);
    DropMasterTells(w, c);
    DropMasterState(w);
    StillRegular(w, DoDropMaster(w), c);
    SameClients(w, DoDropMaster(w), DoPromote(w, freshId), c);
  }

  lemma ReplicaofTells(w: World, d: ClientId, args: Command, env: Env, c: ClientId)
    requires Structure(w.s) && c in w.s.clients && w.s.clients[c].kind == Regular && d != c
    requires Refollows(w.s, args) ==> env.sync.Synced? && env.sync.conn !in w.s.clients
    ensures Tells(w, DoReplicaof(w, d, args, env), c)
  {
    hide Tells, Structure, DoSay, DoPromote, DoFollow, Stoi, IsNoOne;
    TellsNothing(w, w, c);
    SayTells(w, d, "+OK\r\n", c);
    SayTells(w, d, BAD_PORT, c);
    SayTells(w, d, "+OK Already connected to specified master\r\n", c);
    var p := DoPromote(w, env.freshId);
    PromoteTells(w, env.freshId, c);
    StillRegular(w, p, c);
    SayTells(p, d, "+OK\r\n", c);
    TellsThen(w, p, DoSay(p, d, "+OK\r\n"), c);
    if Refollows(w.s, args) { FollowTells(w, d, args[1], Stoi(args[2]).value, env.sync, c); }
  }

  // ---- every step ----

  lemma WriteTells(w: World, args: Command, now: int, byClient: bool, c: ClientId)
    requires c in w.s.clients && w.s.clients[c].kind == Regular
    ensures Tells(w, DoWrite(w, args, now, byClient), c)
  {
    hide Effect, Resp.Encode;
    TellsNothing(w, DoWrite(w, args, now, byClient), c);
  }

  lemma {:induction false} DelsTell(w: World, keys: seq<string>, now: int, c: ClientId)
    requires c in w.s.clients && w.s.clients[c].kind == Regular
    ensures Tells(w, DoDels(w, keys, now), c)
    decreases |keys|
  {
    hide Tells, DoWrite;
    if keys == [] {
      TellsNothing(w, w, c);
    } else {
      var t := DoWrite(w, ["DEL", keys[0]], now, false);
      WriteTells(w, ["DEL", keys[0]], now, false, c);
      StillRegular(w, t, c);
      DelsTell(t, keys[1..], now, c);
      TellsThen(w, t, DoDels(w, keys, now), c);
    }
  }

  lemma RegularTells(w: World, d: ClientId, args: Command, env: Env, c: ClientId)
    requires Structure(w.s) && c in w.s.clients && w.s.clients[c].kind == Regular && Orders(env.order, w.s.store.Keys)
    requires Follows(w.s, args) ==> env.sync.Synced? && env.sync.conn !in w.s.clients
    requires d == c ==> Name(args) == "WAIT" && WaitReply(args) == ""
    ensures Tells(w, DoRegular(w, d, args, env), c)
  {
    hide Tells, Structure, Reply, Refollows, ReplicaofReply, WaitReply, ToUpper, IsWrite, Executed, DoWait, DoReplicaof,
         DoWrite, PsyncAttachment, Orders;
    var reply := Reply(args, w.s.store, w.s.info, false, env.now);
    if Name(args) == "WAIT" || Name(args) == "REPLICAOF" { ServerCommand(args, w.s.store, w.s.info, false, env.now); }
    if Name(args) == "WAIT" && reply == "" {
      WaitTells(w, d, args, env.now, c);
    } else if Name(args) == "REPLICAOF" && reply == "" {
      ReplicaofTells(w, d, args, env, c);
    } else if Name(args) == "PSYNC" && reply == "" {
      TellsNothing(w, DoRegular(w, d, args, env), c);
    } else if IsWrite(Name(args)) && w.s.info.role == Master {
      SayTells(w, d, reply, c);
      StillRegular(w, DoSay(w, d, reply), c);
      WriteTells(DoSay(w, d, reply), args, env.now, true, c);
      TellsThen(w, DoSay(w, d, reply), DoRegular(w, d, args, env), c);
    } else {
      OtherTells(w, d, args, env, c);
    }
  }

  lemma OtherTells(w: World, d: ClientId, args: Command, env: Env, c: ClientId)
    requires c in w.s.clients && w.s.clients[c].kind == Regular && Orders(env.order, w.s.store.Keys) && d != c
    requires Reply(args, w.s.store, w.s.info, false, env.now) == "" ==>
      Name(args) != "WAIT" && Name(args) != "REPLICAOF" && Name(args) != "PSYNC"
    ensures Tells(w, w.(s := RegularCommand(w.s, d, args, env)), c)
  {
    hide Reply, ToUpper, IsWrite, Executed, Resp.Encode, HandleWait, HandleReplicaof, HandlePsync;
    TellsNothing(w, w.(s := RegularCommand(w.s, d, args, env)), c);
  }

  lemma ReplicaTells(w: World, d: ClientId, args: Command, now: int, c: ClientId)
    requires c in w.s.clients && w.s.clients[c].kind == Regular && d in w.s.clients && d != c
    ensures Tells(w, DoReplica(w, d, args, now), c)
  {
    hide Tells, Executed, DoSettle, Stoll, ToUpper;
    if IsAck(args) && Stoll(args[2]).Some? {
      var t := w.s.(store := Executed(args, w.s.store, w.s.info, false, now));
      var u := w.(s := t.(clients := t.clients[d := t.clients[d].(ack := Stoll(args[2]).value)]));
      TellsNothing(w, u, c);
      SettleTells(u, Acks, c);
      TellsThen(w, u, DoSettle(u, Acks), c);
    } else {
      TellsNothing(w, DoReplica(w, d, args, now), c);
    }
  }

  /** Client `c` stays, and sends nothing but WAITs with valid numbers. */
  ghost predicate OnlyWaits(e: Event, c: ClientId) {
    e != Disconnect(c) && (e.Parsed? && e.c == c ==> Name(e.args) == "WAIT" && WaitReply(e.args) == "")
  }

  lemma StepTells(w: World, e: Event, c: ClientId)
    requires Structure(w.s) && Enabled(w.s, e) && Proper(w.s, e)
    requires c in w.s.clients && w.s.clients[c].kind == Regular && OnlyWaits(e, c)
    ensures Tells(w, Next(w, e), c)
  {
    hide Tells, Structure, KeysFit, Follows, IsWrite, WaitReply, ToUpper, DoRegular, DoReplica, DoRemove, DoSettle,
         DoDels, Sweepable, Orders, Resp.Fits, Reply, Executed, IsGetAck;
    match e
    case Parsed(d, args, consumed, env) =>
      match w.s.clients[d].kind {
        case Regular => RegularTells(w, d, args, env, c);
        case Replica => ReplicaTells(w, d, args, env.now, c);
        case MasterConn => TellsNothing(w, Next(w, e), c);
      }
    case Disconnect(d) => RemoveTells(w, d, c);
    case Timeouts(now) => SettleTells(w, Clock(now), c);
    case SweepTick(victims, now) =>
      TellsNothing(w, w, c);
      DelsTell(w, victims, now, c);
    case _ => TellsNothing(w, Next(w, e), c);
  }

  /** In every run: the output of a client that sends nothing but WAITs grows by exactly the answers to them, in the
      order they are given; so the books `WaitSafety` speaks about are what clients read. */
  lemma {:induction false} AnswersReachClients(w: World, run: seq<Event>, c: ClientId)
    requires Reached(w) && ProperRun(w, run) && c in w.s.clients && w.s.clients[c].kind == Regular
    requires forall i | 0 <= i < |run| :: OnlyWaits(run[i], c)
    ensures Tells(w, After(w, run), c)
    decreases |run|
  {
    hide Reached, Tells, Next, Enabled, Proper, OnlyWaits, Structure;
    if run == [] {
      TellsNothing(w, w, c);
    } else {
      var t := Next(w, run[0]);
      StructureNow(w);
      StepTells(w, run[0], c);
      StillRegular(w, t, c);
      ReachedNext(w, run[0]);
      AnswersReachClients(t, run[1..], c);
      TellsThen(w, t, After(w, run), c);
    }
  }

  lemma StructureNow(w: World)
    requires Reached(w)
    ensures Structure(w.s)
  {
    hide Reached, Structure, WaitsKept, StreamsOk, Booked, Offsets;
    ReachedInv(w);
  }
}
