/** Who is attached: `replicas_`, `repl_queues_`, the clients and the parked WAITs always agree, and the
    two replication offsets stay in step with the backlog. */
module Membership {
  import opened Text
  import opened KeyStore
  import opened Commands
  import opened Replication
  import opened Backlog
  import Rdb
  import Resp

  ghost predicate Distinct(ids: seq<ClientId>) {
    forall i, j | 0 <= i < j < |ids| :: ids[i] != ids[j]
  }

  /** Clients, roles and queues. */
  ghost predicate Members(s: State) {
    && Distinct(s.replicas)
    && (forall c :: c in s.replicas <==> c in s.queues)
    && (forall c :: c in s.replicas <==> c in s.clients && s.clients[c].kind == Replica)
    && (forall c | c in s.clients && s.clients[c].kind != Replica :: s.clients[c].ack == 0)
    && (forall c :: c in s.clients && s.clients[c].kind == MasterConn <==> s.master == Some(c))
  }

  ghost predicate WaitersLive(s: State) {
    forall i | 0 <= i < |s.waits| :: s.waits[i].client in s.clients
  }

  /** The offsets of a master follow its backlog; a worker counts nothing on its own account. */
  ghost predicate Offsets(s: State) {
    && s.offset >= 0 && s.info.offset >= 0 && |s.backlog.ring| == s.backlog.capacity
    && (s.info.role == Master ==> s.offset == s.backlog.end && s.info.offset <= s.offset && s.master == None)
    && (s.info.role == Worker ==> s.offset == 0 && s.waits == [])
  }

  /** What every step keeps, whatever the traffic. */
  ghost predicate Structure(s: State) { Members(s) && WaitersLive(s) }

  /** What every step of proper traffic keeps. */
  ghost predicate Sane(s: State) { Structure(s) && Offsets(s) }

  // ---- the pieces of a step ----

  lemma SayMembers(s: State, c: ClientId, text: string)
    ensures Structure(s) ==> Structure(Say(s, c, text))
    ensures Sane(s) ==> Sane(Say(s, c, text))
  {
  }

  lemma PublishSane(s: State, args: Command, byClient: bool)
    ensures Structure(s) ==> Structure(Publish(s, args, byClient))
    ensures Sane(s) && s.info.role == Master ==> Sane(Publish(s, args, byClient))
  {
    hide Resp.Encode;
    Resp.NonEmpty(args);
  }

  lemma ParkSane(s: State, w: Wait)
    requires w.client in s.clients
    ensures Structure(s) ==> Structure(Park(s, w))
    ensures Sane(s) && s.info.role == Master ==> Sane(Park(s, w))
  {
    hide Resp.Encode;
  }

  lemma {:induction false} StillParkedSubset(s: State, ws: seq<Wait>, cause: Cause)
    ensures var left := StillParked(s, ws, cause);
            |left| <= |ws| && forall i | 0 <= i < |left| :: left[i] in ws && !Due(s, left[i], cause)
    decreases |ws|
  {
    hide Due;
    if ws != [] {
      StillParkedSubset(s, ws[1..], cause);
      assert forall w | w in ws[1..] :: w in ws;
    }
  }

  /** Answers only touch output: same clients, kinds and acknowledgements. */
  ghost predicate SameButOutput(a: map<ClientId, Client>, b: map<ClientId, Client>) {
    && a.Keys == b.Keys
    && forall c | c in a :: a[c].kind == b[c].kind && a[c].ack == b[c].ack
  }

  lemma {:induction false} ToldSame(s: State, ws: seq<Wait>, cause: Cause, clients: map<ClientId, Client>)
    ensures SameButOutput(clients, Told(s, ws, cause, clients))
    decreases |ws|
  {
    hide Due;
    if ws != [] {
      var c' := if Due(s, ws[0], cause) then Tell(clients, ws[0].client, Number(CaughtUp(s, ws[0].target)))
                else clients;
      assert SameButOutput(clients, c');
      ToldSame(s, ws[1..], cause, c');
    }
  }

  lemma SettleSane(s: State, cause: Cause)
    ensures Structure(s) ==> Structure(Settle(s, cause))
    ensures Sane(s) ==> Sane(Settle(s, cause))
  {
    hide Due, Told, StillParked;
    ToldSame(s, s.waits, cause, s.clients);
    StillParkedSubset(s, s.waits, cause);
  }

  lemma AttachSane(s: State, c: ClientId, payload: string)
    requires c in s.clients && s.clients[c].kind == Regular
    ensures Structure(s) ==> Structure(Attach(s, c, payload))
    ensures Sane(s) ==> Sane(Attach(s, c, payload))
  {
    assert Structure(s) ==> c !in s.replicas;
  }

  lemma {:induction false} RemoveIds(ids: seq<ClientId>, c: ClientId)
    ensures forall d :: d in Remove(ids, c) <==> d in ids && d != c
    ensures Distinct(ids) ==> Distinct(Remove(ids, c))
    decreases |ids|
  {
    if ids != [] {
      var rest := Remove(ids[1..], c);
      RemoveIds(ids[1..], c);
      assert forall d :: d in ids <==> d == ids[0] || d in ids[1..];
      assert Remove(ids, c) == (if ids[0] == c then [] else [ids[0]]) + rest;
      assert forall d :: d in Remove(ids, c) <==> d in rest || (d == ids[0] && d != c);
      if Distinct(ids) {
        assert Distinct(ids[1..]) && ids[0] !in ids[1..] && ids[0] !in rest;
      }
    }
  }

  lemma {:induction false} DropWaitsLeft(ws: seq<Wait>, c: ClientId)
    ensures var left := DropWaits(ws, c);
            |left| <= |ws| && forall i | 0 <= i < |left| :: left[i] in ws && left[i].client != c
    decreases |ws|
  {
    if ws != [] {
      DropWaitsLeft(ws[1..], c);
      assert forall w | w in ws[1..] :: w in ws;
    }
  }

  lemma RemoveSane(s: State, c: ClientId)
    ensures Structure(s) ==> Structure(RemoveClient(s, c))
    ensures Sane(s) ==> Sane(RemoveClient(s, c))
  {
    hide Remove, DropWaits;
    RemoveIds(s.replicas, c);
    DropWaitsLeft(s.waits, c);
  }

  // ---- role changes ----

  lemma {:induction false} RemoveAllSane(s: State, ids: seq<ClientId>)
    ensures var t := RemoveClients(s, ids);
            t.info == s.info && t.store == s.store && t.backlog == s.backlog && (s.waits == [] ==> t.waits == [])
    ensures Structure(s) ==> Structure(RemoveClients(s, ids))
    ensures Sane(s) ==> Sane(RemoveClients(s, ids))
    ensures forall c | c in s.clients && c !in ids :: c in RemoveClients(s, ids).clients
    ensures RemoveClients(s, ids).clients.Keys <= s.clients.Keys
    decreases |ids|
  {
    hide Sane, Structure;
    if ids != [] {
      RemoveSane(s, ids[0]);
      DropWaitsLeft(s.waits, ids[0]);
      RemoveAllSane(RemoveClient(s, ids[0]), ids[1..]);
    }
  }

  lemma {:induction false} RoleChangeSettlesAll(s: State, ws: seq<Wait>)
    ensures StillParked(s, ws, RoleChange) == []
    decreases |ws|
  {
    if ws != [] { RoleChangeSettlesAll(s, ws[1..]); }
  }

  lemma DropMasterFacts(s: State)
    ensures DropMaster(s).info == s.info && DropMaster(s).backlog == s.backlog
  {
  }

  lemma DropMasterSane(s: State)
    ensures var t := DropMaster(s);
            t.info == s.info && t.backlog == s.backlog && t.store == s.store && t.clients.Keys <= s.clients.Keys
            && t.master == None && (s.waits == [] ==> t.waits == [])
    ensures Structure(s) ==> Structure(DropMaster(s))
    ensures Sane(s) ==> Sane(DropMaster(s))
  {
    hide Sane, Structure;
    if s.master.Some? {
      RemoveSane(s, s.master.value);
      DropWaitsLeft(s.waits, s.master.value);
    }
  }

  lemma PromoteSane(s: State, freshId: string)
    ensures Structure(s) ==> Structure(Promote(s, freshId))
    ensures Sane(s) && s.info.role == Worker ==> Sane(Promote(s, freshId))
  {
    hide DropMaster;
    DropMasterSane(s);
  }

  /** Sane, except that the counter of a master that is stepping down has already been zeroed. */
  ghost predicate Leaving(s: State) {
    && Members(s) && WaitersLive(s) && s.waits == [] && s.offset == 0 && s.info.offset >= 0
    && |s.backlog.ring| == s.backlog.capacity
  }

  lemma StepDownLeaving(s: State)
    ensures var t := StepDown(s); t.info == s.info && t.clients.Keys <= s.clients.Keys
    ensures Structure(s) ==> Structure(StepDown(s))
    ensures Sane(s) ==> Leaving(StepDown(s))
  {
    hide Settle, RemoveClients, Sane, Structure, Leaving;
    if s.info.role == Master {
      SettleSane(s, RoleChange);
      RoleChangeFacts(s);
      RemoveAllSane(Settle(s, RoleChange), s.replicas);
      StartLeaving(RemoveClients(Settle(s, RoleChange), s.replicas));
    } else {
      WorkerLeaving(s);
    }
  }

  lemma StartLeaving(s: State)
    ensures Structure(s) ==> Structure(s.(offset := 0))
    ensures Sane(s) && s.waits == [] ==> Leaving(s.(offset := 0))
  {
  }

  lemma WorkerLeaving(s: State)
    ensures Sane(s) && s.info.role == Worker ==> Leaving(s)
  {
  }

  lemma RoleChangeFacts(s: State)
    ensures var t := Settle(s, RoleChange); t.waits == [] && t.info == s.info && t.clients.Keys == s.clients.Keys
  {
    hide StillParked, Told;
    RoleChangeSettlesAll(s, s.waits);
    ToldSame(s, s.waits, RoleChange, s.clients);
  }

  lemma LeavingDropMaster(s: State)
    ensures var t := DropMaster(s); t.master == None && t.info == s.info && t.clients.Keys <= s.clients.Keys
    ensures Leaving(s) ==> Leaving(DropMaster(s))
  {
    hide Remove, DropWaits;
    if s.master.Some? {
      RemoveIds(s.replicas, s.master.value);
      DropWaitsLeft(s.waits, s.master.value);
    }
  }

  /** Every key could be named in a DEL. */
  ghost predicate KeysFit(m: Data) { forall k | k in m :: |k| <= INT_MAX }

  /** A handshake that ended well: a new connection, a counted offset. */
  ghost predicate GoodSync(s: State, sync: Handshake) {
    sync.Synced? && sync.offset >= 0 && sync.conn !in s.clients && KeysFit(sync.store)
  }

  lemma BecomeWorkerFacts(t: State, c: ClientId, host: string, port: int, sync: Handshake)
    requires sync.Synced?
    ensures var u := BecomeWorker(t, c, host, port, sync); u.store == sync.store && u.info.role == Worker
  {
  }

  lemma BecomeWorkerSane(t: State, c: ClientId, host: string, port: int, sync: Handshake)
    requires t.master == None && (sync.Synced? ==> sync.conn !in t.clients)
    ensures Structure(t) ==> Structure(BecomeWorker(t, c, host, port, sync))
    ensures Leaving(t) && GoodSync(t, sync) ==>
      var u := BecomeWorker(t, c, host, port, sync); Sane(u) && u.info.role == Worker
  {
    hide Leaving, Structure, Sane, GoodSync;
    var u := t.(info := t.info.(role := Worker, offset := 0, host := host, port := port),
                following := Some((host, port)));
    WorkerInfo(t, u.info, u.following);
    SayMembers(u, c, "+OK\r\n");
    var v := Say(u, c, "+OK\r\n");
    if sync.Synced? {
      SameGood(t, v, sync);
      ConnectSane(v, sync);
    } else {
      var info := BecomeWorker(t, c, host, port, sync).info;
      InfoStructure(v, info, None);
      NotGood(t, sync);
    }
  }

  lemma SameGood(t: State, v: State, sync: Handshake)
    requires t.clients.Keys == v.clients.Keys
    ensures GoodSync(t, sync) ==> GoodSync(v, sync)
  {
  }

  lemma NotGood(t: State, sync: Handshake)
    ensures GoodSync(t, sync) ==> sync.Synced? && sync.conn !in t.clients
  {
  }

  lemma InfoStructure(s: State, info: Info, following: Option<(string, int)>)
    ensures Structure(s) ==> Structure(s.(info := info, following := following))
  {
  }

  lemma WorkerInfo(t: State, info: Info, following: Option<(string, int)>)
    requires info.role == Worker && info.offset == 0
    ensures Structure(t) ==> Structure(t.(info := info, following := following))
    ensures Leaving(t) ==> Sane(t.(info := info, following := following))
  {
  }

  lemma ConnectSane(u: State, sync: Handshake)
    requires u.info.role == Worker && u.master == None && sync.Synced? && sync.conn !in u.clients
    ensures var v := u.(info := u.info.(replid := sync.replid, offset := sync.offset), store := sync.store,
                        clients := u.clients[sync.conn := Client(MasterConn, "", 0)],
                        master := Some(sync.conn));
      (Structure(u) ==> Structure(v)) && (Sane(u) && GoodSync(u, sync) ==> Sane(v))
  {
  }

  lemma FollowSane(s: State, c: ClientId, host: string, port: int, sync: Handshake)
    requires sync.Synced? ==> sync.conn !in s.clients
    ensures Structure(s) ==> Structure(Follow(s, c, host, port, sync))
    ensures Sane(s) && GoodSync(s, sync) ==>
      Sane(Follow(s, c, host, port, sync)) && Follow(s, c, host, port, sync).info.role == Worker
  {
    hide StepDown, DropMaster, Leaving, Structure, Sane, BecomeWorker;
    StepDownLeaving(s);
    LeavingDropMaster(StepDown(s));
    DropMasterSane(StepDown(s));
    BecomeWorkerSane(DropMaster(StepDown(s)), c, host, port, sync);
  }

  // ---- every step ----

  /** The traffic the replication guarantees are about: clients write to masters only, nobody writes over a
      replica's connection, and a REPLICAOF that leads to a new master reaches it. */
  ghost predicate Proper(s: State, e: Event) {
    e.Parsed? && e.c in s.clients ==>
      match s.clients[e.c].kind
      case Regular =>
        && (s.info.role == Worker ==> !IsWrite(Name(e.args)))
        && (Follows(s, e.args) ==> GoodSync(s, e.env.sync))
      case Replica => !IsWrite(Name(e.args))
      case MasterConn => true
  }

  lemma WaitSane(s: State, c: ClientId, args: Command, now: int)
    requires c in s.clients
    ensures Structure(s) ==> Structure(HandleWait(s, c, args, now))
    ensures Sane(s) ==> Sane(HandleWait(s, c, args, now))
  {
    hide Sane, Structure, Park, Say, Stoi, Stoll, CaughtUp;
    if |args| >= 3 && Stoi(args[1]).Some? && Stoll(args[2]).Some? {
      match Immediate(s, Stoi(args[1]).value)
      case Some(count) => SayMembers(s, c, Number(count));
      case None =>
        OffsetOfWorker(s);
        ParkSane(s, Wait(c, Stoi(args[1]).value, s.offset, DeadlineFor(Stoll(args[2]).value, now)));
    } else {
      SayMembers(s, c, NOT_AN_INTEGER);
    }
  }

  lemma OffsetOfWorker(s: State)
    ensures Sane(s) && s.offset != 0 ==> s.info.role == Master
  {
  }

  lemma ReplicaofSane(s: State, c: ClientId, args: Command, env: Env)
    requires Refollows(s, args) && env.sync.Synced? ==> env.sync.conn !in s.clients
    ensures Structure(s) ==> Structure(HandleReplicaof(s, c, args, env))
    ensures Sane(s) && (Refollows(s, args) ==> GoodSync(s, env.sync)) ==> Sane(HandleReplicaof(s, c, args, env))
  {
    hide Sane, Structure, Say, Promote, Follow, Stoi, IsNoOne, GoodSync;
    SayMembers(s, c, "+OK\r\n");
    SayMembers(s, c, BAD_PORT);
    SayMembers(s, c, "+OK Already connected to specified master\r\n");
    if |args| >= 3 {
      if s.info.role == Worker {
        PromoteSane(s, env.freshId);
        SayMembers(Promote(s, env.freshId), c, "+OK\r\n");
      }
      if Refollows(s, args) { FollowSane(s, c, args[1], Stoi(args[2]).value, env.sync); }
    }
  }

  lemma StoreSane(s: State, m: Data)
    ensures Structure(s) ==> Structure(s.(store := m))
    ensures Sane(s) ==> Sane(s.(store := m))
  {
  }

  lemma RegularSane(s: State, c: ClientId, args: Command, env: Env)
    requires c in s.clients && s.clients[c].kind == Regular && Orders(env.order, s.store.Keys)
    requires Follows(s, args) && env.sync.Synced? ==> env.sync.conn !in s.clients
    ensures Structure(s) ==> Structure(RegularCommand(s, c, args, env))
    ensures Sane(s) && (s.info.role == Worker ==> !IsWrite(Name(args)))
         && (Follows(s, args) ==> GoodSync(s, env.sync))
        ==> Sane(RegularCommand(s, c, args, env))
  {
    hide Sane, Structure, GoodSync, Reply, Refollows, ReplicaofReply, ToUpper, IsWrite, Publish, Executed, HandleWait,
         HandleReplicaof, Say, Attach;
    var reply := Reply(args, s.store, s.info, false, env.now);
    if Name(args) == "WAIT" && reply == "" {
      WaitSane(s, c, args, env.now);
    } else if Name(args) == "REPLICAOF" && reply == "" {
      ServerCommand(args, s.store, s.info, false, env.now);
      ReplicaofSane(s, c, args, env);
    } else if Name(args) == "PSYNC" && reply == "" {
      if Continues(s, AskedId(args), AskedOffset(args)) {
        AttachSane(s, c, ContinuePayload(s.info.replid, s.backlog.From(AskedOffset(args))));
      } else {
        AttachSane(s, c, FullPayload(s.info.replid, s.offset, Rdb.Serialized(env.order, s.store, env.at)));
      }
    } else {
      var m := Executed(args, s.store, s.info, false, env.now);
      StoreSane(s, m);
      SayMembers(s.(store := m), c, reply);
      var t := Say(s.(store := m), c, reply);
      SayInfo(s.(store := m), c, reply);
      if IsWrite(Name(args)) { PublishSane(t, args, true); }
    }
  }

  lemma SayInfo(s: State, c: ClientId, text: string)
    ensures Say(s, c, text).info == s.info
  {
  }

  lemma AckSane(s: State, c: ClientId, ack: int)
    requires c in s.clients && s.clients[c].kind == Replica
    ensures Structure(s) ==> Structure(s.(clients := s.clients[c := s.clients[c].(ack := ack)]))
    ensures Sane(s) ==> Sane(s.(clients := s.clients[c := s.clients[c].(ack := ack)]))
  {
  }

  lemma ReplicaSane(s: State, c: ClientId, args: Command, now: int)
    requires c in s.clients && s.clients[c].kind == Replica
    ensures Structure(s) ==> Structure(ReplicaCommand(s, c, args, now))
    ensures Sane(s) ==> Sane(ReplicaCommand(s, c, args, now))
  {
    hide Sane, Structure, Executed, Settle, Stoll, ToUpper;
    var t := s.(store := Executed(args, s.store, s.info, false, now));
    StoreSane(s, t.store);
    if IsAck(args) && Stoll(args[2]).Some? {
      AckSane(t, c, Stoll(args[2]).value);
      SettleSane(t.(clients := t.clients[c := t.clients[c].(ack := Stoll(args[2]).value)]), Acks);
    }
  }

  lemma StreamSane(s: State, c: ClientId, args: Command, consumed: nat, now: int)
    requires c in s.clients && s.clients[c].kind == MasterConn
    ensures Structure(s) ==> Structure(StreamCommand(s, c, args, consumed, now))
    ensures Sane(s) ==> Sane(StreamCommand(s, c, args, consumed, now))
  {
    hide Executed, IsGetAck, Reply;
    assert Structure(s) ==> s.master == Some(c);
  }

  lemma {:induction false} PublishDelsSane(s: State, keys: seq<string>)
    ensures Structure(s) ==> Structure(PublishDels(s, keys))
    ensures Sane(s) && s.info.role == Master ==> Sane(PublishDels(s, keys))
    decreases |keys|
  {
    if keys != [] {
      PublishSane(s, ["DEL", keys[0]], false);
      PublishDelsSane(Publish(s, ["DEL", keys[0]], false), keys[1..]);
    }
  }

  lemma WriterSane(s: State, e: Event)
    requires Enabled(s, e) && (e.Swap? || e.Send? || e.SendError? || e.Accept?)
    ensures Structure(s) ==> Structure(Step(s, e))
    ensures Sane(s) ==> Sane(Step(s, e))
  {
    hide Structure, Sane, Orders, Resp.Fits, Sweepable;
    if e.Accept? { AcceptSane(s, e.c); } else { QueuesSane(s, Step(s, e).queues); }
  }

  lemma QueuesSane(s: State, queues: map<ClientId, Queue>)
    requires queues.Keys == s.queues.Keys
    ensures Structure(s) ==> Structure(s.(queues := queues))
    ensures Sane(s) ==> Sane(s.(queues := queues))
  {
  }

  lemma AcceptSane(s: State, c: ClientId)
    requires c !in s.clients
    ensures var t := s.(clients := s.clients[c := Client(Regular, "", 0)]);
      (Structure(s) ==> Structure(t)) && (Sane(s) ==> Sane(t))
  {
  }

  /** The connection of a new handshake is a new client. */
  ghost predicate FreshConn(s: State, e: Event) {
    e.Parsed? && e.c in s.clients && s.clients[e.c].kind == Regular && Follows(s, e.args) && e.env.sync.Synced?
    ==> e.env.sync.conn !in s.clients
  }

  /** Membership survives every step of either thread, whatever the traffic; with proper traffic the offsets do, too. */
  lemma StepSane(s: State, e: Event)
    requires Enabled(s, e) && FreshConn(s, e)
    ensures Structure(s) ==> Structure(Step(s, e))
    ensures Sane(s) && Proper(s, e) ==> Sane(Step(s, e))
  {
    hide Sane, Structure, RegularCommand, ReplicaCommand, StreamCommand, RemoveClient, Settle, PublishDels, SwapAll,
         Sent, SendFailed, GoodSync, Follows, IsWrite, Orders;
    match e
    case Parsed(c, args, consumed, env) =>
      match s.clients[c].kind {
        case Regular => RegularSane(s, c, args, env);
        case Replica => ReplicaSane(s, c, args, env.now);
        case MasterConn => StreamSane(s, c, args, consumed, env.now);
      }
    case Disconnect(c) => RemoveSane(s, c);
    case Timeouts(now) => SettleSane(s, Clock(now));
    case SweepTick(victims, _) =>
      StoreSane(s, Without(s.store, victims));
      if s.info.role == Master { PublishDelsSane(s.(store := Without(s.store, victims)), victims); }
    case _ => WriterSane(s, e);
  }

  /** Hence a published write reaches the queue of every attached replica. */
  lemma PropagationReachesAll(s: State, args: Command, byClient: bool)
    requires Structure(s)
    ensures var t := Publish(s, args, byClient);
      forall c | c in s.clients && s.clients[c].kind == Replica ::
        c in s.queues && c in t.queues && t.queues[c] == Appended(s.queues[c], Resp.Encode(args))
  {
    hide Resp.Encode;
  }
}
