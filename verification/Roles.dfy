/** REPLICAOF, in words: what a promotion, a new master and a repeated request do to the server. */
module Roles {
  import opened Text
  import opened KeyStore
  import opened Commands
  import opened Replication
  import opened Membership
  import opened Waiting
  import opened Streams
  import opened Books
  import opened Runs
  import opened Safety
  import opened Guarantees
  import opened Sessions
  import Words
  import NodeClient
  import Rdb
  import Resp

  // ---- whom the server follows ----

  /** A worker follows the master it names, a master nobody. */
  ghost predicate Aligned(s: State) {
    s.following == if s.info.role == Worker then Some((s.info.host, s.info.port)) else None
  }

  /** The fields it depends on. */
  ghost predicate SameMaster(s: State, t: State) {
    t.following == s.following && t.info.role == s.info.role && t.info.host == s.info.host && t.info.port == s.info.port
  }

  lemma PublishMaster(s: State, args: Command, byClient: bool)
    ensures SameMaster(s, Publish(s, args, byClient))
  {
    hide Resp.Encode;
  }

  lemma {:induction false} DelsMaster(s: State, keys: seq<string>)
    ensures SameMaster(s, PublishDels(s, keys))
    decreases |keys|
  {
    hide Publish;
    if keys != [] {
      PublishMaster(s, ["DEL", keys[0]], false);
      DelsMaster(Publish(s, ["DEL", keys[0]], false), keys[1..]);
    }
  }

  lemma WaitMaster(s: State, c: ClientId, args: Command, now: int)
    ensures SameMaster(s, HandleWait(s, c, args, now))
  {
    hide CaughtUp, Stoi, Stoll, Resp.Encode;
  }

  lemma ReplicaofAligned(s: State, c: ClientId, args: Command, env: Env)
    requires Aligned(s)
    ensures Aligned(HandleReplicaof(s, c, args, env))
  {
    hide StepDown, DropMaster, Stoi, ToUpper;
  }

  lemma RegularAligned(s: State, c: ClientId, args: Command, env: Env)
    requires Aligned(s) && Orders(env.order, s.store.Keys)
    ensures Aligned(RegularCommand(s, c, args, env))
  {
    hide Reply, ToUpper, IsWrite, Executed, HandleWait, HandleReplicaof, Publish, Continues, AskedId, AskedOffset,
         Rdb.Serialized, Orders;
    WaitMaster(s, c, args, env.now);
    ReplicaofAligned(s, c, args, env);
    PublishMaster(Say(s.(store := Executed(args, s.store, s.info, false, env.now)), c,
                      Reply(args, s.store, s.info, false, env.now)), args, true);
  }

  /** Whatever happens, the server knows whom it follows. */
  lemma StepAligned(s: State, e: Event)
    requires Aligned(s) && Enabled(s, e)
    ensures Aligned(Step(s, e))
  {
    hide RegularCommand, Executed, Reply, IsGetAck, Stoll, StillParked, Told, PublishDels, ToUpper, Orders, Resp.Fits,
         Sweepable, Remove, DropWaits;
    match e
    case SweepTick(victims, _) => DelsMaster(s.(store := Without(s.store, victims)), victims);
    case Parsed(c, args, _, env) => if s.clients[c].kind == Regular { RegularAligned(s, c, args, env); }
    case _ =>
  }

  lemma {:induction false} RunAligned(w: World, run: seq<Event>)
    requires Aligned(w.s) && ProperRun(w, run)
    ensures Aligned(After(w, run).s)
    decreases |run|
  {
    hide Aligned, Next, Step, Enabled, Proper;
    if run != [] {
      StepAligned(w.s, run[0]);
      NextIsStep(w, run[0]);
      RunAligned(Next(w, run[0]), run[1..]);
    }
  }

  lemma ReachedAligned(w: World)
    requires Reached(w)
    ensures Aligned(w.s)
  {
    hide ProperRun, After;
    var start: World, run: seq<Event> :| Start(start) && ProperRun(start, run) && w == After(start, run);
    RunAligned(start, run);
  }

  // ---- REPLICAOF NO ONE ----

  ghost predicate NoOne(args: Command) {
    |args| == 3 && Names(args[0], "REPLICAOF") && Names(args[1], "NO") && Names(args[2], "ONE")
  }

  lemma NoOneWord(args: Command)
    requires |args| == 3 && Names(args[0], "REPLICAOF")
    ensures Name(args) == "REPLICAOF" && (NoOne(args) <==> IsNoOne(args))
  {
    hide Names, ToUpper;
    ServerName(args, "REPLICAOF");
    assert Capitals("NO") && Capitals("ONE");
    UpperNames(args[1], "NO");
    UpperNames(args[2], "ONE");
  }

  lemma ReplicaofIs(w: World, c: ClientId, args: Command, e: Event)
    requires Sends(w, c, args, e) && Name(args) == "REPLICAOF"
    ensures Step(w.s, e) == if ReplicaofReply(args) == "" then HandleReplicaof(w.s, c, args, e.env)
                            else Say(w.s, c, ReplicaofReply(args))
  {
    hide Reached, Reply, Executed, ReplicaofReply, ToUpper, HandleReplicaof, IsWrite, Orders, Resp.Fits;
    ServerCommand(args, w.s.store, w.s.info, false, e.env.now);
    NotWrites();
    QuietCommand(args, w.s.store, w.s.info, false, e.env.now);
  }

  /** The former master's connection is gone; everyone else is as before. */
  ghost predicate LeftMaster(s: State, t: State) {
    && (s.master.Some? ==> s.master.value !in t.clients)
    && t.clients == s.clients - (if s.master.Some? then {s.master.value} else {})
  }

  /** REPLICAOF NO ONE makes a worker a master with a fresh id: it remembers the old id and the offset reached, counts
      on from there with an empty backlog, and keeps its data, its replicas and its clients. A master just says OK. */
  lemma NoOneWords(w: World, c: ClientId, args: Command, e: Event)
    requires Sends(w, c, args, e) && NoOne(args)
    ensures var s, t := w.s, Step(w.s, e);
      if s.info.role == Master then OnlyTold(s, c, "+OK\r\n", t)
      else
        && t.info == Info(Master, e.env.freshId, s.info.offset, "", 0, s.info.replid, s.info.offset)
        && t.offset == s.info.offset && t.backlog == s.backlog.SetStart(s.info.offset)
        && t.store == s.store && t.queues == s.queues && t.replicas == s.replicas && t.waits == []
        && t.following == None && t.master == None
        && exists u :: LeftMaster(s, u) && c in u.clients
             && t.clients == u.clients[c := u.clients[c].(out := u.clients[c].out + "+OK\r\n")]
  {
    hide Reached, Inv, ToUpper, Names, Orders, Resp.Fits, Stoi;
    ReachedInv(w);
    SaneNow(w);
    NoOneWord(args);
    ReplicaofIs(w, c, args, e);
    if w.s.info.role == Worker {
      DroppedFacts(w.s, c);
      var u := DropMaster(w.s);
      assert LeftMaster(w.s, u) && c in u.clients;
    }
  }

  lemma DroppedFacts(s: State, c: ClientId)
    requires Sane(s) && s.info.role == Worker && c in s.clients && s.clients[c].kind == Regular
    ensures var u := DropMaster(s);
      && LeftMaster(s, u) && c in u.clients && u.queues == s.queues && u.replicas == s.replicas && u.waits == []
  {
    hide DropWaits, Remove;
    if s.master.Some? {
      var m := s.master.value;
      NotListed(s.replicas, m);
      DropWaitsLeft(s.waits, m);
      assert m !in s.queues && s.queues - {m} == s.queues;
    }
  }

  lemma {:induction false} NotListed(ids: seq<ClientId>, c: ClientId)
    requires c !in ids
    ensures Remove(ids, c) == ids
    decreases |ids|
  {
    if ids != [] { NotListed(ids[1..], c); }
  }

  // ---- REPLICAOF host port ----

  /** Words for a port. */
  ghost predicate Following(args: Command, port: int) {
    |args| == 3 && Names(args[0], "REPLICAOF") && !NoOne(args) && IsInt(args[2], port) && 1 <= port <= 65535
  }

  lemma FollowWord(args: Command, port: int)
    requires Following(args, port)
    ensures Name(args) == "REPLICAOF" && !IsNoOne(args) && Stoi(args[2]) == Some(port) && ReplicaofReply(args) == ""
  {
    hide Names, ToUpper, Stoi, Spells, NoOne;
    NoOneWord(args);
    IntRead(args[2], port);
  }

  /** A worker told to follow the master it follows already only says so. */
  lemma AlreadyConnected(w: World, c: ClientId, args: Command, port: int, e: Event)
    requires Sends(w, c, args, e) && Following(args, port)
    requires w.s.info.role == Worker && w.s.info.host == args[1] && w.s.info.port == port
    ensures OnlyTold(w.s, c, "+OK Already connected to specified master\r\n", Step(w.s, e))
  {
    hide Reached, ToUpper, Following, Orders, Resp.Fits, Stoi, IsNoOne, ReplicaofReply;
    ReachedAligned(w);
    FollowWord(args, port);
    ThreeWords(args, port);
    ReplicaofIs(w, c, args, e);
  }

  /** The words are wrong: nothing happens. */
  lemma ReplicaofRefused(w: World, c: ClientId, args: Command, e: Event)
    requires Sends(w, c, args, e) && args != [] && Names(args[0], "REPLICAOF") && !NoOne(args)
    requires forall port :: !Following(args, port)
    ensures OnlyTold(w.s, c, if |args| != 3 then "-ERR wrong number of arguments for 'replicaof' command\r\n"
                             else "-ERR Invalid master port\r\n", Step(w.s, e))
  {
    hide Reached, ToUpper, Names, Spells, Orders, Resp.Fits, Parse;
    ServerName(args, "REPLICAOF");
    ReplicaofIs(w, c, args, e);
    if |args| == 3 {
      NoOneWord(args);
      if Stoi(args[2]).Some? {
        ParsedIsSpelled(args[2], INT_MAX);
        assert !Following(args, Stoi(args[2]).value);
      }
    }
  }

  /** The server after a successful handshake with a new master. */
  ghost predicate Followed(s: State, c: ClientId, host: string, port: int, sync: Handshake, t: State)
    requires sync.Synced?
  {
    && t.info == s.info.(role := Worker, replid := sync.replid, offset := sync.offset, host := host, port := port)
    && t.store == sync.store && t.backlog == s.backlog && t.offset == 0 && t.waits == []
    && t.following == Some((host, port)) && t.master == Some(sync.conn)
    && (s.info.role == Master ==> t.replicas == [] && t.queues == map[])
    && (s.info.role == Worker ==> t.replicas == s.replicas && t.queues == s.queues)
    && Connected(s, c, sync.conn, t.clients)
  }

  /** Its clients: ordinary ones stay, the new connection comes, the old one and a master's replicas go. */
  ghost predicate Connected(s: State, c: ClientId, conn: ClientId, clients: map<ClientId, Client>) {
    && conn in clients && clients[conn] == Client(MasterConn, "", 0)
    && (forall d | d in s.clients && s.clients[d].kind == Regular :: d in clients && clients[d].kind == Regular)
    && (forall d | d in clients && d != conn ::
          d in s.clients && clients[d].kind == s.clients[d].kind != MasterConn
          && (s.info.role == Master ==> s.clients[d].kind == Regular))
    && c in clients && EndsWith(clients[c].out, "+OK\r\n")
  }

  ghost predicate EndsWith(s: string, tail: string) { |s| >= |tail| && s[|s| - |tail|..] == tail }

  /** REPLICAOF host port, with a handshake that goes well: the role, the master's id, offset and data are taken over,
      all parked WAITs are answered, and a former master lets all its replicas go. */
  lemma FollowWords(w: World, c: ClientId, args: Command, port: int, e: Event)
    requires Sends(w, c, args, e) && Following(args, port)
    requires !(w.s.info.role == Worker && w.s.info.host == args[1] && w.s.info.port == port)
    ensures e.env.sync.Synced? && Followed(w.s, c, args[1], port, e.env.sync, Step(w.s, e))
  {
    hide Reached, Inv, ToUpper, Following, Followed, Orders, Resp.Fits, Stoi, IsNoOne, ReplicaofReply, Follow, KeysFit;
    ReachedInv(w);
    SaneNow(w);
    ReachedAligned(w);
    FollowWord(args, port);
    ThreeWords(args, port);
    ReplicaofIs(w, c, args, e);
    FollowFacts(w.s, c, args[1], port, e.env.sync);
  }

  lemma ThreeWords(args: Command, port: int)
    requires Following(args, port)
    ensures |args| == 3
  {
  }

  lemma {:induction false} RemovedFrom(s: State, ids: seq<ClientId>, d: ClientId)
    ensures var t := RemoveClients(s, ids);
      && (d in t.replicas <==> d in s.replicas && d !in ids)
      && (d in t.queues <==> d in s.queues && d !in ids)
      && (d in t.clients <==> d in s.clients && d !in ids)
      && (d in t.clients ==> t.clients[d] == s.clients[d])
    decreases |ids|
  {
    hide DropWaits, Remove;
    if ids != [] {
      RemoveIds(s.replicas, ids[0]);
      RemovedFrom(RemoveClient(s, ids[0]), ids[1..], d);
    }
  }

  lemma StepDownFacts(s: State, d: ClientId)
    requires Sane(s)
    ensures var t := StepDown(s);
      && t.info == s.info && t.waits == [] && t.offset == 0 && t.backlog == s.backlog
      && (if s.info.role == Master then d !in t.replicas && d !in t.queues else t == s)
      && (d in t.clients <==> d in s.clients && (s.info.role == Master ==> s.clients[d].kind != Replica))
      && (d in t.clients ==> t.clients[d].kind == s.clients[d].kind)
      && t.master == (if s.info.role == Master then None else s.master)
  {
    hide RemoveClients, Told, StillParked;
    if s.info.role == Master {
      var u := Settle(s, RoleChange);
      ToldSame(s, s.waits, RoleChange, s.clients);
      RoleChangeSettlesAll(s, s.waits);
      RemovedFrom(u, s.replicas, d);
      SettleSane(s, RoleChange);
      RemoveAllSane(u, s.replicas);
      StillNoMaster(u, s.replicas);
    }
  }

  lemma {:induction false} StillNoMaster(s: State, ids: seq<ClientId>)
    requires s.master == None
    ensures RemoveClients(s, ids).master == None
    decreases |ids|
  {
    hide DropWaits, Remove;
    if ids != [] { StillNoMaster(RemoveClient(s, ids[0]), ids[1..]); }
  }

  lemma FollowFacts(s: State, c: ClientId, host: string, port: int, sync: Handshake)
    requires Sane(s) && GoodSync(s, sync) && c in s.clients && s.clients[c].kind == Regular
    ensures Followed(s, c, host, port, sync, Follow(s, c, host, port, sync))
  {
    hide StepDown, DropMaster, Sane, KeysFit;
    var t := StepDown(s);
    StepDownLeaving(s);
    forall d
      ensures StepDownOf(s, t, d)
    {
      StepDownFacts(s, d);
    }
    StepDownEmpty(s, t);
    var u := DropMaster(t);
    DropFacts(s, t);
    JoinFacts(s, t, u, c, host, port, sync);
  }

  /** What `StepDownFacts` says. */
  ghost predicate StepDownOf(s: State, t: State, d: ClientId) {
    && t.info == s.info && t.waits == [] && t.offset == 0 && t.backlog == s.backlog
    && (if s.info.role == Master then d !in t.replicas && d !in t.queues else t == s)
    && (d in t.clients <==> d in s.clients && (s.info.role == Master ==> s.clients[d].kind != Replica))
    && (d in t.clients ==> t.clients[d].kind == s.clients[d].kind)
    && t.master == (if s.info.role == Master then None else s.master)
  }

  lemma StepDownEmpty(s: State, t: State)
    requires forall d :: StepDownOf(s, t, d)
    ensures s.info.role == Master ==> t.replicas == [] && t.queues == map[]
  {
    if s.info.role == Master {
      forall d
        ensures d !in t.replicas && d !in t.queues
      {
        assert StepDownOf(s, t, d);
      }
      if t.replicas != [] { SomeMember(t.replicas); }
      assert t.queues.Keys == {};
    }
  }

  lemma SomeMember(ids: seq<ClientId>)
    requires ids != []
    ensures exists d :: d in ids
  {
    assert ids[0] in ids;
  }

  lemma DropFacts(s: State, t: State)
    requires Sane(s) && Members(t) && forall d :: StepDownOf(s, t, d)
    ensures var u := DropMaster(t);
      && u.info == t.info && u.waits == [] && u.offset == 0 && u.backlog == t.backlog && u.master == None
      && u.replicas == t.replicas && u.queues == t.queues
      && u.clients == t.clients - (if t.master.Some? then {t.master.value} else {})
      && (forall d | d in u.clients :: u.clients[d].kind != MasterConn)
  {
    hide DropWaits, Remove;
    assert StepDownOf(s, t, 0);
    if t.master.Some? {
      var m := t.master.value;
      NotListed(t.replicas, m);
      DropWaitsLeft(t.waits, m);
      assert m !in t.queues && t.queues - {m} == t.queues;
    }
  }

  lemma JoinFacts(s: State, t: State, u: State, c: ClientId, host: string, port: int, sync: Handshake)
    requires Sane(s) && (forall d :: StepDownOf(s, t, d)) && c in s.clients && s.clients[c].kind == Regular
    requires s.info.role == Master ==> t.replicas == [] && t.queues == map[]
    requires u.info == t.info && u.waits == [] && u.offset == 0 && u.backlog == t.backlog && u.master == None
    requires u.replicas == t.replicas && u.queues == t.queues
    requires u.clients == t.clients - (if t.master.Some? then {t.master.value} else {})
    requires forall d | d in u.clients :: u.clients[d].kind != MasterConn
    requires sync.Synced? && sync.conn !in s.clients
    ensures Followed(s, c, host, port, sync, BecomeWorker(u, c, host, port, sync))
  {
    hide Sane, Connected, StepDownOf, Tell;
    StepDownSame(s, t, c);
    forall d
      ensures Stayed(s, u, d)
    {
      StayedIs(s, t, u, d);
    }
    ConnectedNow(s, u.clients, c, sync.conn, u);
  }

  lemma StepDownSame(s: State, t: State, d: ClientId)
    requires StepDownOf(s, t, d)
    ensures t.info == s.info && t.backlog == s.backlog && (s.info.role == Worker ==> t == s)
  {
  }

  /** A client before and after the former master and, if need be, the replicas have gone. */
  ghost predicate Stayed(s: State, u: State, d: ClientId) {
    && (d in u.clients ==> d in s.clients && u.clients[d].kind == s.clients[d].kind
                           && (s.info.role == Master ==> s.clients[d].kind != Replica))
    && (d in s.clients && s.clients[d].kind == Regular ==> d in u.clients)
  }

  lemma StayedIs(s: State, t: State, u: State, d: ClientId)
    requires Sane(s) && StepDownOf(s, t, d)
    requires u.clients == t.clients - (if t.master.Some? then {t.master.value} else {})
    ensures Stayed(s, u, d)
  {
    hide WaitersLive, Offsets;
  }

  lemma ConnectedNow(s: State, clients: map<ClientId, Client>, c: ClientId, conn: ClientId, u: State)
    requires clients == u.clients && (forall d :: Stayed(s, u, d)) && c in s.clients && s.clients[c].kind == Regular
    requires conn !in s.clients && forall d | d in clients :: clients[d].kind != MasterConn
    ensures Connected(s, c, conn, Tell(clients, c, "+OK\r\n")[conn := Client(MasterConn, "", 0)])
  {
    assert Stayed(s, u, c);
    var told := Tell(clients, c, "+OK\r\n");
    assert EndsWith(told[c].out, "+OK\r\n");
    forall d
      ensures d in clients ==> d in s.clients && clients[d].kind == s.clients[d].kind
      ensures d in clients && s.info.role == Master ==> clients[d].kind == Regular
      ensures d in s.clients && s.clients[d].kind == Regular ==> d in clients
    {
      assert Stayed(s, u, d);
    }
  }

  /** A handshake that fails: a master again, without its replicas, with its data, and with the id and offset that were
      announced, if they were, or offset 0. */
  lemma FollowFails(s: State, c: ClientId, args: Command, port: int, e: Event)
    requires Sane(s) && Aligned(s) && Following(args, port) && e.Parsed? && e.c == c && e.args == args && Enabled(s, e)
    requires s.clients[c].kind == Regular && e.env.sync.Failed?
    requires !(s.info.role == Worker && s.info.host == args[1] && s.info.port == port)
    ensures var t := Step(s, e);
      && t.info == (match e.env.sync.announced
                    case None => s.info.(role := Master, offset := 0, host := "", port := 0)
                    case Some((id, offset)) =>
                      s.info.(role := Master, replid := id, offset := offset, host := "", port := 0))
      && t.store == s.store && t.following == None && t.master == None && t.offset == 0 && t.waits == []
      && (s.info.role == Master ==> t.replicas == [] && t.queues == map[])
  {
    hide Sane, ToUpper, Following, Orders, Resp.Fits, Stoi, IsNoOne, ReplicaofReply, Reply, StepDown, DropMaster;
    FollowWord(args, port);
    ThreeWords(args, port);
    ServerCommand(args, s.store, s.info, false, e.env.now);
    var t := StepDown(s);
    StepDownLeaving(s);
    forall d
      ensures StepDownOf(s, t, d)
    {
      StepDownFacts(s, d);
    }
    StepDownEmpty(s, t);
    DropFacts(s, t);
    assert StepDownOf(s, t, c);
    DropMasterSane(t);
    StepDownStore(s);
  }

  lemma StepDownStore(s: State)
    ensures StepDown(s).store == s.store
  {
    hide RemoveClients, Told, StillParked;
    if s.info.role == Master { RemoveAllSane(Settle(s, RoleChange), s.replicas); }
  }

  /** After REPLICAOF NO ONE a controller that asks ROLE sees a master; before, it saw a slave. */
  lemma PromotionSeen(w: World, c: ClientId, args: Command, e: Event, role: string, now: int)
    requires Sends(w, c, args, e) && NoOne(args) && w.s.info.role == Worker && Names(role, "ROLE")
    ensures NodeClient.RoleIn(Reply([role], w.s.store, w.s.info, false, now)) == Some("slave")
    ensures NodeClient.RoleIn(Reply([role], Step(w.s, e).store, Step(w.s, e).info, false, now)) == Some("master")
  {
    hide Reached, NodeClient.RoleIn, Reply, Names, Step, Enabled, Proper, NoOne;
    NoOneWords(w, c, args, e);
    NodeClient.RoleRead(role, w.s.store, w.s.info, now);
    NodeClient.RoleRead(role, Step(w.s, e).store, Step(w.s, e).info, now);
  }
}
