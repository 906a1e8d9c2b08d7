/** What holds in every reachable state of the server, under every interleaving of its two threads. */
module Safety {
  import opened Text
  import opened KeyStore
  import opened Commands
  import opened Replication
  import opened Membership
  import opened Waiting
  import opened Streams
  import opened Books
  import opened Runs
  import opened Backlog
  import Rdb
  import Resp

  ghost predicate Inv(w: World) { Sane(w.s) && WaitsKept(w) && StreamsOk(w) && Booked(w) }

  // ---- the remaining stream steps ----

  lemma {:induction false} RemoveAllAttached(w: World, ids: seq<ClientId>)
    ensures forall c | c in DoRemoveAll(w, ids).h.attached :: c in w.h.attached && c !in ids
    decreases |ids|
  {
    hide RemoveClient, DroppedBy;
    if ids != [] {
      RemoveAllAttached(DoRemove(w, ids[0]), ids[1..]);
      assert forall c | c in ids :: c == ids[0] || c in ids[1..];
    }
  }

  lemma StepDownAttached(w: World)
    requires Sane(w.s) && StreamsOk(w)
    ensures DoStepDown(w).h.attached == map[]
  {
    hide AttachedOk, TermOk, KeysFit, Settle, Answered, DoRemoveAll;
    if w.s.info.role == Master {
      RemoveAllAttached(DoSettle(w, RoleChange), w.s.replicas);
      assert forall c | c in w.h.attached :: c in w.s.replicas;
      assert DoStepDown(w).h.attached.Keys == {};
    }
  }

  lemma FollowStreams(w: World, c: ClientId, host: string, port: int, sync: Handshake)
    requires Sane(w.s) && StreamsOk(w) && GoodSync(w.s, sync)
    ensures StreamsOk(DoFollow(w, c, host, port, sync))
  {
    hide Sane, DoStepDown, StepDown, DropMaster, BecomeWorker, KeysFit, RemoveClient, DroppedBy;
    StepDownAttached(w);
    BecomeWorkerFacts(DropMaster(StepDown(w.s)), c, host, port, sync);
    assert DoDropMaster(DoStepDown(w)).h.attached == map[];
  }

  lemma WaitStreams(w: World, c: ClientId, args: Command, now: int)
    requires Sane(w.s) && StreamsOk(w)
    ensures StreamsOk(DoWait(w, c, args, now))
  {
    hide StreamsOk, Sane, DoPark, Stoi, Stoll, CaughtUp;
    if |args| >= 3 {
      if Stoi(args[1]).None? || Stoll(args[2]).None? {
        SayStreams(w, c, NOT_AN_INTEGER);
      } else {
        var wait := Asked(args, c, w.s, now);
        match Immediate(w.s, Stoi(args[1]).value)
        case Some(count) => SameStreams(w, DoAnswer(w, wait, count));
        case None =>
          OffsetOfWorker(w.s);
          ParkStreams(w, wait);
      }
    }
  }

  lemma ReplicaofStreams(w: World, c: ClientId, args: Command, env: Env)
    requires Sane(w.s) && StreamsOk(w) && (Refollows(w.s, args) ==> GoodSync(w.s, env.sync))
    ensures StreamsOk(DoReplicaof(w, c, args, env))
  {
    hide StreamsOk, Sane, GoodSync, DoSay, DoPromote, DoFollow, Stoi, IsNoOne;
    SayStreams(w, c, "+OK\r\n");
    SayStreams(w, c, BAD_PORT);
    SayStreams(w, c, "+OK Already connected to specified master\r\n");
    PromoteStreams(w, env.freshId);
    SayStreams(DoPromote(w, env.freshId), c, "+OK\r\n");
    if Refollows(w.s, args) { FollowStreams(w, c, args[1], Stoi(args[2]).value, env.sync); }
  }

  /** Commands other than SET and DEL leave the store alone. */
  lemma QuietCommand(args: Command, m: Data, info: Info, fromMaster: bool, now: int)
    requires !IsWrite(Name(args))
    ensures Executed(args, m, info, fromMaster, now) == m
  {
    hide SetOptions, Put;
    assert ToUpper("SET") == "SET" && ToUpper("DEL") == "DEL";
    assert Name(args) != "SET" && Name(args) != "DEL";
  }

  lemma RegularStreams(w: World, c: ClientId, args: Command, env: Env)
    requires Sane(w.s) && StreamsOk(w) && Orders(env.order, w.s.store.Keys) && Resp.Fits(args)
    requires w.s.info.role == Worker ==> !IsWrite(Name(args))
    requires Follows(w.s, args) ==> GoodSync(w.s, env.sync)
    ensures StreamsOk(DoRegular(w, c, args, env))
  {
    hide StreamsOk, Sane, GoodSync, Reply, Refollows, ReplicaofReply, ToUpper, IsWrite, Executed, DoWait, DoReplicaof,
         DoAttach, DoWrite, PsyncAttachment, Resp.Fits, Orders;
    var reply := Reply(args, w.s.store, w.s.info, false, env.now);
    if Name(args) == "WAIT" && reply == "" {
      WaitStreams(w, c, args, env.now);
    } else if Name(args) == "REPLICAOF" && reply == "" {
      ServerCommand(args, w.s.store, w.s.info, false, env.now);
      ReplicaofStreams(w, c, args, env);
    } else if Name(args) == "PSYNC" && reply == "" {
      PsyncStreams(w, c, args, env.order, env.at);
    } else if IsWrite(Name(args)) {
      SayStreams(w, c, reply);
      SayMembers(w.s, c, reply);
      WriteStreams(DoSay(w, c, reply), args, env.now, true);
    } else {
      QuietCommand(args, w.s.store, w.s.info, false, env.now);
      SameStreams(w, DoRegular(w, c, args, env));
    }
  }

  lemma ReplicaStreams(w: World, c: ClientId, args: Command, now: int)
    requires StreamsOk(w) && c in w.s.clients && !IsWrite(Name(args))
    ensures StreamsOk(DoReplica(w, c, args, now))
  {
    hide StreamsOk, Executed, ToUpper, IsWrite, Stoll, StillParked, Told, Answered;
    QuietCommand(args, w.s.store, w.s.info, false, now);
    SameStreams(w, DoReplica(w, c, args, now));
  }

  lemma StreamStreams(w: World, c: ClientId, args: Command, consumed: nat, now: int)
    requires Sane(w.s) && StreamsOk(w) && c in w.s.clients && w.s.clients[c].kind == MasterConn && Resp.Fits(args)
    ensures StreamsOk(w.(s := StreamCommand(w.s, c, args, consumed, now)))
  {
    hide KeysFit, Effect, TermOk, AllAttachedOk, IsGetAck, Reply;
    assert w.s.master == Some(c);
    EffectKeysFit(args, w.s.store, now);
  }

  lemma SweepStreams(w: World, victims: seq<string>, now: int)
    requires Sane(w.s) && StreamsOk(w) && w.s.info.role == Master && Sweepable(w.s.store, victims, now)
    ensures StreamsOk(DoDels(w, victims, now))
  {
    hide Sane, TermOk, AllAttachedOk, DoDels;
    DelsStreams(w, victims, now);
  }

  lemma NextStreams(w: World, e: Event)
    requires Sane(w.s) && StreamsOk(w) && Enabled(w.s, e) && Proper(w.s, e)
    ensures StreamsOk(Next(w, e))
  {
    hide Sane, StreamsOk, GoodSync, Follows, IsWrite, DoRegular, DoReplica, DoRemove, DoSettle, DoDels, Sweepable,
         StreamCommand, Orders, Resp.Fits;
    match e
    case Accept(c) => SameStreams(w, Next(w, e));
    case Parsed(c, args, consumed, env) =>
      match w.s.clients[c].kind {
        case Regular => RegularStreams(w, c, args, env);
        case Replica => ReplicaStreams(w, c, args, env.now);
        case MasterConn => StreamStreams(w, c, args, consumed, env.now);
      }
    case Disconnect(c) => RemoveStreams(w, c);
    case Timeouts(now) => SettleStreams(w, Clock(now));
    case SweepTick(victims, now) => if w.s.info.role == Master { SweepStreams(w, victims, now); }
    case _ => WriterStreams(w, e);
  }

  // ---- runs ----

  /** A server that starts as a master with an empty store. */
  function StartMaster(replid: string, capacity: nat): World {
    World(State(map[], Info(Master, replid, 0, "", 0, ZEROS, -1), 0, Blank(capacity),
                map[], [], map[], [], None, None),
          History(map[], [], map[], {}, multiset{}, [], multiset{}))
  }

  const ZEROS := "0000000000000000000000000000000000000000"

  /** A server that starts as the worker of a master it has just synchronised with. */
  function StartWorker(host: string, port: int, capacity: nat, sync: Handshake): World
    requires sync.Synced?
  {
    World(State(sync.store, Info(Worker, sync.replid, sync.offset, host, port, ZEROS, -1), 0,
                Blank(capacity), map[sync.conn := Client(MasterConn, "", 0)],
                [], map[], [], Some(sync.conn), Some((host, port))),
          History(map[], [], map[], {}, multiset{}, [], multiset{}))
  }

  ghost predicate Start(w: World) {
    || (exists replid, capacity :: w == StartMaster(replid, capacity))
    || (exists host, port, capacity, sync: Handshake | sync.Synced? && sync.offset >= 0 && KeysFit(sync.store) ::
          w == StartWorker(host, port, capacity, sync))
  }

  /** `run` can happen from `w`, step after step, with proper traffic. */
  ghost predicate ProperRun(w: World, run: seq<Event>)
    decreases |run|
  {
    run == [] || (Enabled(w.s, run[0]) && Proper(w.s, run[0]) && ProperRun(Next(w, run[0]), run[1..]))
  }

  ghost function After(w: World, run: seq<Event>): World
    requires ProperRun(w, run)
    decreases |run|
  {
    if run == [] then w else After(Next(w, run[0]), run[1..])
  }

  /** A client's command that changes the role or the master. */
  ghost predicate MovesOn(s: State, e: Event) {
    e.Parsed? && e.c in s.clients && s.clients[e.c].kind == Regular && Moves(s, e.args)
  }

  /** A run within one master term, or within a worker's time with one master. Commands named REPLICAOF may occur, as
      long as they are refused or change nothing. */
  ghost predicate Steady(w: World, run: seq<Event>)
    requires ProperRun(w, run)
    decreases |run|
  {
    run == [] || (!MovesOn(w.s, run[0]) && Steady(Next(w, run[0]), run[1..]))
  }

  lemma ProperFresh(s: State, e: Event)
    requires Proper(s, e)
    ensures FreshConn(s, e)
  {
    hide IsWrite, KeysFit, Follows;
  }

  lemma NextInv(w: World, e: Event)
    requires Inv(w) && Enabled(w.s, e) && Proper(w.s, e)
    ensures Inv(Next(w, e)) && Next(w, e).s == Step(w.s, e)
  {
    hide Sane, WaitsKept, StreamsOk, Booked, Next, Step, Enabled, Proper;
    NextIsStep(w, e);
    ProperFresh(w.s, e);
    StepSane(w.s, e);
    NextKept(w, e);
    NextStreams(w, e);
    NextBooked(w, e);
  }

  lemma StartInv(w: World)
    requires Start(w)
    ensures Inv(w)
  {
    hide Inv, KeysFit;
    if exists replid, capacity :: w == StartMaster(replid, capacity) {
      var replid, capacity :| w == StartMaster(replid, capacity);
      StartMasterInv(replid, capacity);
    } else {
      var host, port, capacity, sync: Handshake :|
        sync.Synced? && sync.offset >= 0 && KeysFit(sync.store) && w == StartWorker(host, port, capacity, sync);
      StartWorkerInv(host, port, capacity, sync);
    }
  }

  lemma StartMasterInv(replid: string, capacity: nat)
    ensures Inv(StartMaster(replid, capacity))
  {
    assert LogCmds([]) == [] && WaitsOf([]) == [];
  }

  lemma StartWorkerInv(host: string, port: int, capacity: nat, sync: Handshake)
    requires sync.Synced? && sync.offset >= 0 && KeysFit(sync.store)
    ensures Inv(StartWorker(host, port, capacity, sync))
  {
    hide TermOk, AllAttachedOk, Reported, Covered, AllAsked;
    assert WaitsOf([]) == [];
  }

  lemma {:induction false} RunInv(w: World, run: seq<Event>)
    requires Inv(w) && ProperRun(w, run)
    ensures Inv(After(w, run))
    decreases |run|
  {
    hide Inv, Next, Enabled, Proper;
    if run != [] {
      NextInv(w, run[0]);
      RunInv(Next(w, run[0]), run[1..]);
    }
  }

  /** The last event of a run. */
  lemma {:induction false} RunSnoc(w: World, run: seq<Event>)
    requires run != [] && ProperRun(w, run)
    ensures var n := |run| - 1;
      && ProperRun(w, run[..n])
      && var before := After(w, run[..n]);
      && Enabled(before.s, run[n]) && Proper(before.s, run[n]) && After(w, run) == Next(before, run[n])
    decreases |run|
  {
    hide Next, Enabled, Proper;
    var n := |run| - 1;
    if n > 0 {
      RunSnoc(Next(w, run[0]), run[1..]);
      assert run[1..][..n - 1] == run[..n][1..] && run[1..][n - 1] == run[n];
    }
  }

  lemma {:induction false} SteadySnoc(w: World, run: seq<Event>)
    requires run != [] && ProperRun(w, run) && Steady(w, run)
    ensures var n := |run| - 1;
      ProperRun(w, run[..n]) && Steady(w, run[..n]) && !MovesOn(After(w, run[..n]).s, run[n])
    decreases |run|
  {
    hide Next, Enabled, Proper, MovesOn;
    var n := |run| - 1;
    RunSnoc(w, run);
    if n > 0 {
      SteadySnoc(Next(w, run[0]), run[1..]);
      assert run[1..][..n - 1] == run[..n][1..] && run[1..][n - 1] == run[n];
    }
  }

  /** Every reachable state keeps membership, WAIT safety, the stream invariant and the books. */
  lemma Reachable(w: World, run: seq<Event>)
    requires Start(w) && ProperRun(w, run)
    ensures Inv(After(w, run))
  {
    StartInv(w);
    RunInv(w, run);
  }

  // ---- REPLICAOF that changes nothing ----

  function StayReply(args: Command): string {
    if IsNoOne(args) then "+OK\r\n" else "+OK Already connected to specified master\r\n"
  }

  lemma ReplicaofStays(w: World, c: ClientId, args: Command, env: Env)
    requires Name(args) == "REPLICAOF" && ReplicaofReply(args) == "" && !Moves(w.s, args)
    ensures DoReplicaof(w, c, args, env) == DoSay(w, c, StayReply(args))
  {
    hide Stoi, ToUpper;
  }

  lemma ReplicaofSays(s: State, c: ClientId, args: Command, env: Env)
    requires Name(args) == "REPLICAOF" && ReplicaofReply(args) == "" && !Moves(s, args)
    ensures HandleReplicaof(s, c, args, env) == Say(s, c, StayReply(args))
  {
    hide Stoi, ToUpper;
  }

  /** Some proper run from startup leads here. */
  ghost predicate Reached(w: World) {
    exists start: World, run: seq<Event> | Start(start) && ProperRun(start, run) :: w == After(start, run)
  }

  lemma ReachedInv(w: World)
    requires Reached(w)
    ensures Inv(w)
  {
    hide Inv, Start, ProperRun, After;
    var start: World, run: seq<Event> :| Start(start) && ProperRun(start, run) && w == After(start, run);
    Reachable(start, run);
  }

  lemma {:induction false} RunExtend(w: World, run: seq<Event>, e: Event)
    requires ProperRun(w, run) && Enabled(After(w, run).s, e) && Proper(After(w, run).s, e)
    ensures ProperRun(w, run + [e]) && After(w, run + [e]) == Next(After(w, run), e)
    decreases |run|
  {
    hide Next, Enabled, Proper;
    if run == [] {
      assert run + [e] == [e] && [e][1..] == [];
    } else {
      RunExtend(Next(w, run[0]), run[1..], e);
      assert (run + [e])[1..] == run[1..] + [e];
    }
  }

  lemma ReachedNext(w: World, e: Event)
    requires Reached(w) && Enabled(w.s, e) && Proper(w.s, e)
    ensures Reached(Next(w, e))
  {
    hide Start, ProperRun, After, Next, Enabled, Proper;
    var start: World, run: seq<Event> :| Start(start) && ProperRun(start, run) && w == After(start, run);
    RunExtend(start, run, e);
  }

  lemma {:induction false} ReachedRun(w: World, run: seq<Event>)
    requires Reached(w) && ProperRun(w, run)
    ensures Reached(After(w, run))
    decreases |run|
  {
    hide Reached, Next, Enabled, Proper;
    if run != [] {
      ReachedNext(w, run[0]);
      ReachedRun(Next(w, run[0]), run[1..]);
    }
  }
}
