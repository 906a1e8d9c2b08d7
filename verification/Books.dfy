/** What the books of a master term say about its state: which offset INFO reports, who is attached, and which
    GETACKs went out for the parked WAITs. */
module Books {
  import opened Text
  import opened KeyStore
  import opened Commands
  import opened Replication
  import opened Membership
  import opened Waiting
  import opened Streams
  import opened Runs
  import Rdb
  import Resp

  /** The log position behind the last write of a client; what follows are DELs of the sweep. */
  function LastClient(log: seq<Logged>): (n: nat)
    ensures n <= |log|
  {
    if log == [] then 0 else
    var n := |log| - 1;
    if log[n].byClient then n + 1 else LastClient(log[..n])
  }

  /** INFO reports the offset of the last client write of the term, or of its beginning. */
  ghost predicate Reported(w: World) {
    w.s.info.offset == TermBase(w) + |StreamTo(TermOf(w), LastClient(w.h.log))|
  }

  /** Every replica was attached in this term or inherited from the time before it. */
  ghost predicate Covered(w: World) {
    && w.h.attached.Keys !! w.h.inherited
    && forall c :: c in w.s.replicas <==> c in w.h.attached || c in w.h.inherited
  }

  /** The WAITs a stream holds GETACKs for. */
  function AskedBy(frames: seq<Frame>): multiset<Wait> {
    if frames == [] then multiset{} else
    var n := |frames| - 1;
    AskedBy(frames[..n]) + (if frames[n].GetAck? then multiset{frames[n].wait} else multiset{})
  }

  ghost predicate AskedOf(a: Attachment, waits: seq<Wait>) {
    multiset(waits) <= a.earlier + AskedBy(a.frames)
  }

  /** A WAIT parked since a replica attached has a GETACK of its own in that replica's stream. */
  ghost predicate AllAsked(w: World) {
    forall c | c in w.h.attached :: AskedOf(w.h.attached[c], w.s.waits)
  }

  ghost predicate Booked(w: World) {
    w.s.info.role == Master ==> Reported(w) && Covered(w) && AllAsked(w)
  }

  // ---- steps that touch none of it ----

  ghost predicate SameFrames(a: map<ClientId, Attachment>, b: map<ClientId, Attachment>) {
    a.Keys == b.Keys && forall c | c in a :: a[c].frames == b[c].frames && a[c].earlier == b[c].earlier
  }

  lemma SameBooks(w: World, t: World)
    requires Booked(w)
    requires t.s.info.role == w.s.info.role && t.s.info.offset == w.s.info.offset
    requires t.s.offset == w.s.offset && t.h.log == w.h.log
    requires t.s.replicas == w.s.replicas && t.h.inherited == w.h.inherited && SameFrames(w.h.attached, t.h.attached)
    requires multiset(t.s.waits) <= multiset(w.s.waits)
    ensures Booked(t)
  {
    hide AskedBy, LogCmds, Resp.EncodeAll, LastClient;
  }

  lemma SettleBooks(w: World, cause: Cause)
    requires Booked(w)
    ensures Booked(DoSettle(w, cause))
  {
    hide Booked, StillParked, Told, Answered, WaitsOf;
    SettleSplits(w.s, w.s.waits, cause);
    SameBooks(w, DoSettle(w, cause));
  }

  lemma SayBooks(w: World, c: ClientId, text: string)
    requires Booked(w)
    ensures Booked(DoSay(w, c, text))
  {
    hide Booked;
    SameBooks(w, DoSay(w, c, text));
  }

  lemma WriterBooks(w: World, e: Event)
    requires Booked(w) && Enabled(w.s, e) && (e.Swap? || e.Send? || e.SendError? || e.Accept?)
    ensures Booked(Next(w, e))
  {
    hide Booked;
    SameBooks(w, Next(w, e));
  }

  // ---- writes ----

  lemma LastClientAppend(log: seq<Logged>, x: Logged)
    ensures LastClient(log + [x]) == if x.byClient then |log| + 1 else LastClient(log)
  {
    assert (log + [x])[..|log|] == log;
  }

  lemma WriteReported(w: World, args: Command, now: int, byClient: bool)
    requires Sane(w.s) && TermOk(w) && w.s.info.role == Master && Reported(w)
    ensures Reported(DoWrite(w, args, now, byClient))
  {
    hide Sane, Publish, Effect, Replay, LogOk, LogCmds, Resp.Encode, Resp.EncodeAll, LastClient;
    var x := Logged(args, now, byClient);
    var m := Effect(args, w.s.store, now);
    StoreSane(w.s, m);
    PublishFacts(w.s.(store := m), args, byClient);
    PublishInfo(w.s.(store := m), args, byClient);
    LastClientAppend(w.h.log, x);
    LogCmdsAppend(w.h.log, x);
    EncodeSnoc(LogCmds(w.h.log), args);
    if byClient {
      assert (w.h.log + [x])[..|w.h.log| + 1] == w.h.log + [x];
    } else {
      var n := LastClient(w.h.log);
      assert (w.h.log + [x])[..n] == w.h.log[..n];
    }
  }

  lemma PublishInfo(s: State, args: Command, byClient: bool)
    ensures Publish(s, args, byClient).info.offset == if byClient then s.offset + |Resp.Encode(args)| else s.info.offset
  {
    hide Resp.Encode;
  }

  lemma AddFrameAsked(a: Attachment, f: Frame, waits: seq<Wait>)
    requires AskedOf(a, waits)
    ensures AskedOf(a.(frames := a.frames + [f]), if f.GetAck? then waits + [f.wait] else waits)
  {
    assert (a.frames + [f])[..|a.frames|] == a.frames;
  }

  lemma WriteBooks(w: World, args: Command, now: int, byClient: bool)
    requires Booked(w) && Sane(w.s) && StreamsOk(w) && w.s.info.role == Master
    ensures Booked(DoWrite(w, args, now, byClient))
  {
    hide Sane, AskedOf, Reported, Effect, Resp.Encode, TermOk, AllAttachedOk, KeysFit;
    WriteReported(w, args, now, byClient);
    var t := DoWrite(w, args, now, byClient);
    forall c | c in t.h.attached
      ensures AskedOf(t.h.attached[c], t.s.waits)
    {
      AddFrameAsked(w.h.attached[c], Write(args), w.s.waits);
    }
  }

  lemma {:induction false} DelsBooks(w: World, keys: seq<string>, now: int)
    requires Booked(w) && Sane(w.s) && StreamsOk(w) && w.s.info.role == Master
    requires forall k | k in keys :: |k| <= INT_MAX
    ensures Booked(DoDels(w, keys, now))
    decreases |keys|
  {
    hide Sane, StreamsOk, Booked, DoWrite, IsWrite, Resp.Fits;
    if keys != [] {
      var args := ["DEL", keys[0]];
      DelFits(keys[0]);
      WriteStreams(w, args, now, false);
      WriteSane(w, args, now, false);
      WriteBooks(w, args, now, false);
      DelsBooks(DoWrite(w, args, now, false), keys[1..], now);
    }
  }

  lemma SweepBooks(w: World, victims: seq<string>, now: int)
    requires Booked(w) && Sane(w.s) && StreamsOk(w) && w.s.info.role == Master && Sweepable(w.s.store, victims, now)
    ensures Booked(DoDels(w, victims, now))
  {
    hide Sane, Booked, TermOk, AllAttachedOk, DoDels;
    DelsBooks(w, victims, now);
  }

  // ---- membership ----

  lemma AttachBooks(w: World, c: ClientId, a: Attachment)
    requires Booked(w) && Sane(w.s) && c in w.s.clients && w.s.clients[c].kind == Regular
    requires a.earlier == multiset(w.s.waits) && a.frames == []
    ensures Booked(DoAttach(w, c, a))
  {
    hide LogCmds, Resp.EncodeAll, LastClient, WaitersLive, Offsets;
    assert c !in w.s.replicas;
  }

  lemma PsyncEarlier(w: World, args: Command, order: seq<string>, at: Rdb.Instant)
    requires Orders(order, w.s.store.Keys)
    ensures PsyncAttachment(w, args, order, at).earlier == multiset(w.s.waits)
  {
    hide Rdb.Serialized, AskedId, AskedOffset, Orders;
  }

  lemma RemoveBooks(w: World, c: ClientId)
    requires Booked(w)
    ensures Booked(DoRemove(w, c))
  {
    hide LogCmds, Resp.EncodeAll, LastClient, Remove, DropWaits, DroppedBy, AskedBy;
    RemoveIds(w.s.replicas, c);
    RemoveSplits(w.s.waits, c);
    var t := DoRemove(w, c);
    assert multiset(t.s.waits) <= multiset(w.s.waits);
  }

  lemma PromoteBooks(w: World, freshId: string)
    ensures Booked(DoPromote(w, freshId))
  {
    hide DoDropMaster, DropMaster;
    DropMasterState(w);
    assert LogCmds([]) == [];
  }

  lemma FollowBooks(w: World, c: ClientId, host: string, port: int, sync: Handshake)
    requires sync.Synced?
    ensures Booked(DoFollow(w, c, host, port, sync))
  {
    hide DropMaster, StepDown, DoDropMaster, DoStepDown, Say;
    BecomeWorkerFacts(DropMaster(StepDown(w.s)), c, host, port, sync);
  }

  // ---- whole steps ----

  lemma ParkBooks(w: World, wait: Wait)
    requires Booked(w)
    ensures Booked(DoPark(w, wait))
  {
    hide AskedOf, LogCmds, Resp.EncodeAll, Resp.Encode, LastClient;
    var t := DoPark(w, wait);
    if w.s.info.role == Master {
      forall c | c in t.h.attached
        ensures AskedOf(t.h.attached[c], t.s.waits)
      {
        AddFrameAsked(w.h.attached[c], GetAck(wait), w.s.waits);
      }
    }
  }

  lemma WaitBooks(w: World, c: ClientId, args: Command, now: int)
    requires Booked(w)
    ensures Booked(DoWait(w, c, args, now))
  {
    hide Booked, DoPark, Stoi, Stoll, CaughtUp;
    if |args| >= 3 {
      if Stoi(args[1]).None? || Stoll(args[2]).None? {
        SayBooks(w, c, NOT_AN_INTEGER);
      } else {
        var wait := Asked(args, c, w.s, now);
        match Immediate(w.s, Stoi(args[1]).value)
        case Some(count) => SameBooks(w, DoAnswer(w, wait, count));
        case None => ParkBooks(w, wait);
      }
    }
  }

  lemma ReplicaofBooks(w: World, c: ClientId, args: Command, env: Env)
    requires Booked(w) && (Refollows(w.s, args) ==> env.sync.Synced?)
    ensures Booked(DoReplicaof(w, c, args, env))
  {
    hide Booked, DoSay, DoPromote, DoFollow, Stoi, IsNoOne;
    SayBooks(w, c, "+OK\r\n");
    SayBooks(w, c, BAD_PORT);
    SayBooks(w, c, "+OK Already connected to specified master\r\n");
    PromoteBooks(w, env.freshId);
    SayBooks(DoPromote(w, env.freshId), c, "+OK\r\n");
    if Refollows(w.s, args) { FollowBooks(w, c, args[1], Stoi(args[2]).value, env.sync); }
  }

  lemma RegularBooks(w: World, c: ClientId, args: Command, env: Env)
    requires Booked(w) && Sane(w.s) && StreamsOk(w) && c in w.s.clients && w.s.clients[c].kind == Regular
    requires Orders(env.order, w.s.store.Keys)
    requires w.s.info.role == Worker ==> !IsWrite(Name(args))
    requires Follows(w.s, args) ==> GoodSync(w.s, env.sync)
    ensures Booked(DoRegular(w, c, args, env))
  {
    hide Booked, StreamsOk, Sane, Reply, Refollows, ReplicaofReply, ToUpper, IsWrite, Executed, DoWait, DoReplicaof,
         DoAttach, DoWrite, PsyncAttachment, Orders, KeysFit;
    var reply := Reply(args, w.s.store, w.s.info, false, env.now);
    if Name(args) == "WAIT" && reply == "" {
      WaitBooks(w, c, args, env.now);
    } else if Name(args) == "REPLICAOF" && reply == "" {
      ServerCommand(args, w.s.store, w.s.info, false, env.now);
      ReplicaofBooks(w, c, args, env);
    } else if Name(args) == "PSYNC" && reply == "" {
      PsyncFresh(w, args, env.order, env.at);
      PsyncEarlier(w, args, env.order, env.at);
      AttachBooks(w, c, PsyncAttachment(w, args, env.order, env.at));
    } else if IsWrite(Name(args)) {
      SayBooks(w, c, reply);
      SayMembers(w.s, c, reply);
      SayStreams(w, c, reply);
      WriteBooks(DoSay(w, c, reply), args, env.now, true);
    } else {
      SameBooks(w, DoRegular(w, c, args, env));
    }
  }

  lemma ReplicaBooks(w: World, c: ClientId, args: Command, now: int)
    requires Booked(w) && c in w.s.clients
    ensures Booked(DoReplica(w, c, args, now))
  {
    hide Booked, Executed, DoSettle, Stoll, ToUpper;
    if IsAck(args) && Stoll(args[2]).Some? {
      var t := w.s.(store := Executed(args, w.s.store, w.s.info, false, now));
      var u := w.(s := t.(clients := t.clients[c := t.clients[c].(ack := Stoll(args[2]).value)]));
      SameBooks(w, u);
      SettleBooks(u, Acks);
    } else {
      SameBooks(w, DoReplica(w, c, args, now));
    }
  }

  lemma StreamBooks(w: World, c: ClientId, args: Command, consumed: nat, now: int)
    requires Sane(w.s) && c in w.s.clients && w.s.clients[c].kind == MasterConn
    ensures Booked(w.(s := StreamCommand(w.s, c, args, consumed, now)))
  {
    hide Reported, Covered, AllAsked, IsGetAck, Reply, Executed;
    assert w.s.master == Some(c);
  }

  /** The books stay right with every proper step. */
  lemma NextBooked(w: World, e: Event)
    requires Booked(w) && Sane(w.s) && StreamsOk(w) && Enabled(w.s, e) && Proper(w.s, e)
    ensures Booked(Next(w, e))
  {
    hide Booked, Sane, StreamsOk, GoodSync, Follows, IsWrite, DoRegular, DoReplica, DoRemove, DoSettle, DoDels,
         Sweepable, StreamCommand, Orders, Resp.Fits;
    match e
    case Parsed(c, args, consumed, env) =>
      match w.s.clients[c].kind {
        case Regular => RegularBooks(w, c, args, env);
        case Replica => ReplicaBooks(w, c, args, env.now);
        case MasterConn => StreamBooks(w, c, args, consumed, env.now);
      }
    case Disconnect(c) => RemoveBooks(w, c);
    case Timeouts(now) => SettleBooks(w, Clock(now));
    case SweepTick(victims, now) => if w.s.info.role == Master { SweepBooks(w, victims, now); }
    case _ => WriterBooks(w, e);
  }
}
