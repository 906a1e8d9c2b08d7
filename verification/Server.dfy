/** The server object of src/server.cpp: its methods change the fields in place and are proved against the
    steps of `Replication`. Clients are identified by number; each one's read buffer is kept beside its record. */
module Servers {
  import opened Text
  import opened KeyStore
  import opened Commands
  import opened Membership
  import opened Backlog
  import Waiting
  import R = Replication
  import Rdb
  import Resp

  type ClientId = R.ClientId

  /** The commands of one read, dispatched in order; `envs(i)` serves the i-th. */
  function Handled(s: R.State, c: ClientId, cmds: seq<Resp.ParseResult>, envs: nat -> R.Env, i: nat): R.State
    requires i <= |cmds| && CanHandle(s, c, cmds, envs, i)
    decreases |cmds| - i
  {
    if i == |cmds| then s
    else Handled(R.Dispatch(s, c, cmds[i].args, cmds[i].consumed, envs(i)), c, cmds, envs, i + 1)
  }

  /** Each command is served with an iteration order of the store it meets and, if need be, a new connection. */
  ghost predicate CanHandle(s: R.State, c: ClientId, cmds: seq<Resp.ParseResult>, envs: nat -> R.Env, i: nat)
    requires i <= |cmds|
    decreases |cmds| - i
  {
    i == |cmds| ||
    var e := R.Parsed(c, cmds[i].args, cmds[i].consumed, envs(i));
    R.Enabled(s, e) && FreshConn(s, e)
    && CanHandle(R.Dispatch(s, c, cmds[i].args, cmds[i].consumed, envs(i)), c, cmds, envs, i + 1)
  }

  /** In the middle of a read: `n` commands are done, `buf` is left, and finishing leads to `goal`. */
  ghost predicate Reading(goal: R.State, s: R.State, c: ClientId, d: Resp.Drained, envs: nat -> R.Env, n: nat,
                          buf: string)
  {
    && n <= |d.cmds| && Resp.Drain(buf) == Resp.Drained(d.cmds[n..], d.rest)
    && CanHandle(s, c, d.cmds, envs, n) && Handled(s, c, d.cmds, envs, n) == goal
  }

  lemma ReadingStart(s: R.State, c: ClientId, buf: string, envs: nat -> R.Env)
    requires CanHandle(s, c, Resp.Drain(buf).cmds, envs, 0)
    ensures Reading(Handled(s, c, Resp.Drain(buf).cmds, envs, 0), s, c, Resp.Drain(buf), envs, 0, buf)
  {
    hide Resp.Drain, CanHandle, Handled;
    var d := Resp.Drain(buf);
    assert d.cmds[0..] == d.cmds;
  }

  lemma ReadingStep(goal: R.State, s: R.State, c: ClientId, d: Resp.Drained, envs: nat -> R.Env, n: nat, buf: string)
    requires Reading(goal, s, c, d, envs, n, buf) && Resp.Parsed(buf).consumed > 0
    ensures var r := Resp.Parsed(buf); var e := R.Parsed(c, r.args, r.consumed, envs(n));
      && R.Enabled(s, e) && FreshConn(s, e)
      && Reading(goal, R.Dispatch(s, c, r.args, r.consumed, envs(n)), c, d, envs, n + 1, buf[r.consumed..])
  {
    hide Resp.Parsed, R.Dispatch, FreshConn;
    var r := Resp.Parsed(buf);
    assert Resp.Drain(buf).cmds[0] == r && Resp.Drain(buf).cmds[1..] == Resp.Drain(buf[r.consumed..]).cmds;
    assert d.cmds[n..][0] == d.cmds[n] && d.cmds[n..][1..] == d.cmds[n + 1..];
  }

  lemma ReadingEnd(goal: R.State, s: R.State, c: ClientId, d: Resp.Drained, envs: nat -> R.Env, n: nat, buf: string)
    requires Reading(goal, s, c, d, envs, n, buf) && Resp.Parsed(buf).consumed == 0
    ensures s == goal && buf == d.rest
  {
    hide Resp.Parsed, R.Dispatch, R.Enabled, FreshConn;
    assert d.cmds[n..] == [];
  }

  class Server {
    const store: Store
    const backlog: ReplicationBacklog
    var info: Info
    var offset: int
    var clients: map<ClientId, R.Client>
    var readBufs: map<ClientId, string>
    var replicas: seq<ClientId>
    var queues: map<ClientId, R.Queue>
    var waits: seq<R.Wait>
    var master: Option<ClientId>
    var following: Option<(string, int)>

    ghost function Abs(): R.State
      reads this, store, backlog, backlog.buffer
    {
      R.State(store.data, info, offset, backlog.Abs(), clients, replicas, queues, waits, master, following)
    }

    ghost predicate Valid()
      reads this, store, backlog, backlog.buffer
    {
      backlog.Valid() && BufsMatch() && Structure(Abs())
    }

    ghost predicate BufsMatch()
      reads this
    {
      readBufs.Keys == clients.Keys
    }

    /** A fresh master. */
    constructor (replid: string, zeros: string, capacity: nat)
      requires capacity > 0
      ensures Valid() && fresh(store) && fresh(backlog) && fresh(backlog.buffer)
      ensures Abs() == R.State(map[], Info(Master, replid, 0, "", 0, zeros, -1), 0, Blank(capacity),
                               map[], [], map[], [], None, None)
    {
      store := new Store();
      backlog := new ReplicationBacklog(capacity);
      info := Info(Master, replid, 0, "", 0, zeros, -1);
      offset, clients, readBufs, replicas, queues, waits := 0, map[], map[], [], map[], [];
      master, following := None, None;
    }

    method Say(c: ClientId, text: string)
      modifies `clients
      ensures Abs() == R.Say(old(Abs()), c, text)
    {
      if c in clients {
        clients := clients[c := clients[c].(out := clients[c].out + text)];
      }
    }

    /** `count_caught_up_replicas` */
    method CountCaughtUp(target: int) returns (count: nat)
      ensures count == R.CaughtUp(Abs(), target)
    {
      count := 0;
      var i := 0;
      while i < |replicas|
        invariant 0 <= i <= |replicas|
        invariant count + R.CountAcks(replicas[i..], clients, target) == R.CaughtUp(Abs(), target)
      {
        assert replicas[i..][0] == replicas[i] && replicas[i..][1..] == replicas[i + 1..];
        if replicas[i] in clients && clients[replicas[i]].ack >= target { count := count + 1; }
        i := i + 1;
      }
    }

    /** `propagate_to_replicas` */
    method Propagate(data: string)
      modifies `queues
      ensures Abs() == R.Propagate(old(Abs()), data)
    {
      if replicas == [] { return; }
      var todo := queues.Keys;
      while todo != {}
        invariant todo <= queues.Keys == old(queues).Keys
        invariant forall c | c in queues ::
          queues[c] == if c in todo then old(queues)[c] else R.Appended(old(queues)[c], data)
        decreases todo
        modifies `queues
      {
        var c :| c in todo;
        queues := queues[c := queues[c].(pending := queues[c].pending + data)];
        todo := todo - {c};
      }
      assert queues == R.Propagate(old(Abs()), data).queues;
    }

    /** Count, feed the backlog, fan out. */
    method Publish(args: Command, byClient: bool)
      requires backlog.Valid()
      modifies this, backlog, backlog.buffer
      ensures backlog.Valid() && Abs() == R.Publish(old(Abs()), args, byClient)
      ensures readBufs == old(readBufs)
    {
      hide Resp.Encode, Newest, Wrapped, R.Propagate;
      var data := Resp.EncodeArray(args);
      var before := offset;
      offset := offset + |data|;
      if byClient { info := info.(offset := offset); }
      backlog.Feed(data, before);
      assert Abs() == old(Abs()).(offset := offset, info := info, backlog := old(Abs()).backlog.Feed(data, before));
      Propagate(data);
    }

    /** The sweep at the end of an event loop round. */
    method SweepTick(order: seq<string>, clock: nat -> int) returns (victims: seq<string>)
      requires Valid() && Orders(order, store.data.Keys) && Monotone(clock)
      modifies this, store, backlog, backlog.buffer
      ensures Valid() && readBufs == old(readBufs)
      ensures Sweepable(old(store.data), victims, clock(SWEEP_LIMIT))
      ensures Abs() == R.Sweep(old(Abs()), victims)
    {
      hide Structure, Sweepable, Orders, Monotone;
      if info.role != Master {
        NothingToSweep(store.data, clock(SWEEP_LIMIT));
        return [];
      }
      victims := store.EvictExpired(order, clock);
      StoreSane(old(Abs()), store.data);
      var i := 0;
      while i < |victims|
        invariant 0 <= i <= |victims|
        invariant Valid() && info.role == Master && readBufs == old(readBufs)
        invariant R.PublishDels(Abs(), victims[i..]) == R.Sweep(old(Abs()), victims)
      {
        assert victims[i..][0] == victims[i] && victims[i..][1..] == victims[i + 1..];
        PublishSane(Abs(), ["DEL", victims[i]], false);
        Publish(["DEL", victims[i]], false);
        i := i + 1;
      }
    }

    method IsDue(w: R.Wait, cause: R.Cause) returns (due: bool, count: nat)
      ensures count == R.CaughtUp(Abs(), w.target) && due == R.Due(Abs(), w, cause)
    {
      hide R.CaughtUp;
      count := CountCaughtUp(w.target);
      due := match cause
        case Acks => count >= w.needed
        case Clock(now) => w.deadline.Some? && now >= w.deadline.value
        case RoleChange => true;
    }

    /** Look at every parked WAIT: `resolve_pending_waits`, `check_wait_timeouts`, and the role change. */
    method Settle(cause: R.Cause)
      modifies `clients, `waits
      ensures Abs() == R.Settle(old(Abs()), cause)
    {
      hide R.CaughtUp, R.Due, R.StillParked, R.Told, SameButOutput;
      ghost var s := Abs();
      SameAsSelf(clients);
      var kept, left := [], waits;
      assert kept + R.StillParked(s, left, cause) == R.StillParked(s, s.waits, cause);
      while left != []
        invariant SameButOutput(s.clients, clients)
        invariant kept + R.StillParked(s, left, cause) == R.StillParked(s, s.waits, cause)
        invariant R.Told(s, left, cause, clients) == R.Told(s, s.waits, cause, s.clients)
        decreases |left|
        modifies `clients
      {
        var w := left[0];
        var due, count := IsDue(w, cause);
        DueUnchanged(s, Abs(), w, cause);
        SettleOne(s, left, cause, clients);
        left := left[1..];
        if due {
          Told1(s.clients, clients, w.client, R.Number(count));
          Say(w.client, R.Number(count));
          assert [] + R.StillParked(s, left, cause) == R.StillParked(s, left, cause);
        } else {
          assert kept + ([w] + R.StillParked(s, left, cause)) == (kept + [w]) + R.StillParked(s, left, cause);
          kept := kept + [w];
        }
      }
      SettleNone(s, cause, clients);
      waits := kept;
    }

    method HandleWait(c: ClientId, args: Command, now: int)
      modifies `clients, `waits, `queues
      ensures Abs() == R.HandleWait(old(Abs()), c, args, now)
    {
      hide R.CaughtUp, Stoi, Stoll;
      if |args| < 3 { return; }
      var needed, timeout := Stoi(args[1]), Stoll(args[2]);
      if needed.None? || timeout.None? {
        Say(c, NOT_AN_INTEGER);
        return;
      }
      if replicas == [] || offset == 0 {
        Say(c, R.Number(if offset == 0 then |replicas| else 0));
        return;
      }
      var caughtUp := CountCaughtUp(offset);
      if caughtUp >= needed.value {
        Say(c, R.Number(caughtUp));
        return;
      }
      var getack := Resp.EncodeArray(R.GETACK);
      Propagate(getack);
      waits := waits + [R.Wait(c, needed.value, offset, R.DeadlineFor(timeout.value, now))];
    }

    /** A new replica: retag the client, give it a queue that starts with the sync payload. */
    method Attach(c: ClientId, payload: string)
      modifies `clients, `replicas, `queues
      ensures Abs() == R.Attach(old(Abs()), c, payload)
    {
      if c in clients { clients := clients[c := clients[c].(kind := R.Replica)]; }
      replicas := replicas + [c];
      queues := queues[c := R.Queue(payload, "")];
    }

    method HandlePsync(c: ClientId, args: Command, order: seq<string>, at: Rdb.Instant)
      requires backlog.Valid() && Orders(order, store.data.Keys)
      modifies `clients, `replicas, `queues
      ensures Abs() == R.HandlePsync(old(Abs()), c, args, order, at)
    {
      hide R.AskedOffset, R.AskedId, Rdb.Serialized, R.Attach, R.FullPayload, R.ContinuePayload;
      var id, asked := R.AskedId(args), R.AskedOffset(args);
      if id != "?" && asked >= 0 {
        var idMatch := id == info.replid || (id == info.replid2 && asked <= info.secondOffset);
        var contained := backlog.Contains(asked);
        if idMatch && contained {
          var replay := backlog.Read(asked);
          Attach(c, R.ContinuePayload(info.replid, replay));
          return;
        }
      }
      var rdb := Rdb.Serialize(order, store.data, at);
      Attach(c, R.FullPayload(info.replid, offset, rdb));
    }

    method RemoveClient(c: ClientId)
      modifies `clients, `readBufs, `replicas, `queues, `waits, `master
      ensures Abs() == R.RemoveClient(old(Abs()), c) && readBufs == old(readBufs) - {c}
      ensures old(BufsMatch()) ==> BufsMatch()
    {
      if master == Some(c) { master := None; }
      replicas := R.Remove(replicas, c);
      queues := queues - {c};
      waits := R.DropWaits(waits, c);
      clients := clients - {c};
      readBufs := readBufs - {c};
    }

    /** `disconnect_all_replicas`, over a copy of the list it shrinks. */
    method DisconnectAll()
      modifies `clients, `readBufs, `replicas, `queues, `waits, `master
      ensures Abs() == R.RemoveClients(old(Abs()), old(replicas))
      ensures old(BufsMatch()) ==> BufsMatch()
    {
      hide R.RemoveClient;
      var copy := replicas;
      var i := 0;
      while i < |copy|
        invariant 0 <= i <= |copy|
        invariant R.RemoveClients(Abs(), copy[i..]) == R.RemoveClients(old(Abs()), copy)
        invariant old(BufsMatch()) ==> BufsMatch()
        modifies `clients, `readBufs, `replicas, `queues, `waits, `master
      {
        assert copy[i..][0] == copy[i] && copy[i..][1..] == copy[i + 1..];
        RemoveClient(copy[i]);
        i := i + 1;
      }
    }

    method DropMaster()
      modifies `clients, `readBufs, `replicas, `queues, `waits, `master
      ensures Abs() == R.DropMaster(old(Abs()))
      ensures old(BufsMatch()) ==> BufsMatch()
    {
      if master.Some? { RemoveClient(master.value); }
    }

    /** `REPLICAOF NO ONE` on a worker. */
    method Promote(freshId: string)
      requires backlog.Valid()
      modifies this, backlog
      ensures backlog.Valid() && Abs() == R.Promote(old(Abs()), freshId)
      ensures old(BufsMatch()) ==> BufsMatch()
    {
      hide R.DropMaster;
      DropMasterFacts(Abs());
      DropMaster();
      var second := info.offset;
      info := Info(Master, freshId, second, "", 0, info.replid, second);
      following := None;
      offset := second;
      backlog.SetStart(second);
    }

    /** A master about to follow someone else: answer the WAITs, let the replicas go. */
    method StepDown()
      modifies this
      ensures Abs() == R.StepDown(old(Abs()))
      ensures old(BufsMatch()) ==> BufsMatch()
    {
      hide R.RemoveClients, R.Settle;
      if info.role == Master {
        Settle(R.RoleChange);
        SettleKeeps(old(Abs()), R.RoleChange);
        DisconnectAll();
        offset := 0;
      }
    }

    /** Take the worker role; `sync` and `leftover` are what the handshake came to. */
    method BecomeWorker(c: ClientId, host: string, port: int, sync: R.Handshake, leftover: string)
      modifies this, store
      ensures Abs() == R.BecomeWorker(old(Abs()), c, host, port, sync)
      ensures old(BufsMatch()) ==> BufsMatch()
    {
      info := info.(role := Worker, offset := 0, host := host, port := port);
      following := Some((host, port));
      Say(c, "+OK\r\n");
      if sync.Failed? { Revert(sync.announced); } else { Connect(sync, leftover); }
    }

    /** The handshake failed, perhaps after id and offset were announced: a master again. */
    method Revert(announced: Option<(string, int)>)
      modifies `info, `following
      ensures following == None
      ensures var i := if announced.Some? then old(info).(replid := announced.value.0, offset := announced.value.1)
                       else old(info);
              info == i.(role := Master, host := "", port := 0)
    {
      if announced.Some? { info := info.(replid := announced.value.0, offset := announced.value.1); }
      info := info.(role := Master, host := "", port := 0);
      following := None;
    }

    /** The handshake went well: the snapshot is loaded and the connection joins the clients. */
    method Connect(sync: R.Handshake, leftover: string)
      requires sync.Synced?
      modifies `info, `clients, `readBufs, `master, store
      ensures info == old(info).(replid := sync.replid, offset := sync.offset) && store.data == sync.store
      ensures clients == old(clients)[sync.conn := R.Client(R.MasterConn, "", 0)] && master == Some(sync.conn)
      ensures readBufs == old(readBufs)[sync.conn := leftover]
    {
      info := info.(replid := sync.replid, offset := sync.offset);
      store.data := sync.store;
      clients := clients[sync.conn := R.Client(R.MasterConn, "", 0)];
      readBufs := readBufs[sync.conn := leftover];
      master := Some(sync.conn);
    }

    /** `REPLICAOF host port` to a new master. */
    method Follow(c: ClientId, host: string, port: int, sync: R.Handshake, leftover: string)
      requires backlog.Valid()
      modifies this, store
      ensures backlog.Valid() && Abs() == R.Follow(old(Abs()), c, host, port, sync)
      ensures old(BufsMatch()) ==> BufsMatch()
    {
      hide R.DropMaster, R.StepDown;
      StepDown();
      DropMaster();
      BecomeWorker(c, host, port, sync, leftover);
    }

    method HandleReplicaof(c: ClientId, args: Command, env: R.Env, leftover: string)
      requires backlog.Valid()
      modifies this, store, backlog
      ensures backlog.Valid() && Abs() == R.HandleReplicaof(old(Abs()), c, args, env)
      ensures old(BufsMatch()) ==> BufsMatch()
    {
      hide R.Promote, R.Follow, Stoi, ToUpper;
      if |args| < 3 { return; }
      if IsNoOne(args) {
        if info.role == Worker { Promote(env.freshId); }
        Say(c, "+OK\r\n");
        return;
      }
      var port := Stoi(args[2]);
      if port.None? {
        Say(c, BAD_PORT);
      } else if following == Some((args[1], port.value)) {
        Say(c, "+OK Already connected to specified master\r\n");
      } else {
        Follow(c, args[1], port.value, env.sync, leftover);
      }
    }

    /** An ordinary client's command, after it was parsed. */
    method HandleRegular(c: ClientId, args: Command, env: R.Env, leftover: string)
      requires backlog.Valid() && Orders(env.order, store.data.Keys)
      modifies this, store, backlog, backlog.buffer
      ensures backlog.Valid() && Abs() == R.RegularCommand(old(Abs()), c, args, env)
      ensures old(BufsMatch()) ==> BufsMatch()
    {
      hide Reply, Executed, ToUpper, IsWrite, R.HandleWait, R.HandleReplicaof, R.HandlePsync, R.Publish, Orders;
      if Name(args) == "WAIT" || Name(args) == "REPLICAOF" || Name(args) == "PSYNC" {
        QuietNames(args, store.data, info, env.now);
      }
      var reply := Execute(args, store, info, false, env.now);
      var name := Name(args);
      if name == "WAIT" && reply == "" {
        HandleWait(c, args, env.now);
        WaitKeeps(old(Abs()), c, args, env.now);
      } else if name == "REPLICAOF" && reply == "" {
        HandleReplicaof(c, args, env, leftover);
      } else if name == "PSYNC" && reply == "" {
        HandlePsync(c, args, env.order, env.at);
        PsyncKeeps(old(Abs()), c, args, env.order, env.at);
      } else {
        Say(c, reply);
        if IsWrite(name) {
          PublishKeeps(Abs(), args, true);
          Publish(args, true);
        }
      }
    }

    /** A command on a replica's connection. */
    method HandleReplica(c: ClientId, args: Command, now: int)
      requires c in clients
      modifies store, `clients, `waits
      ensures Abs() == R.ReplicaCommand(old(Abs()), c, args, now)
      ensures old(BufsMatch()) ==> BufsMatch()
    {
      hide Reply, Executed, ToUpper, Stoll, R.Settle;
      var reply := Execute(args, store, info, false, now);
      if R.IsAck(args) {
        var n := Stoll(args[2]);
        if n.None? { return; }
        clients := clients[c := clients[c].(ack := n.value)];
        SettleKeeps(Abs(), R.Acks);
        Settle(R.Acks);
      }
    }

    /** A command of the replication stream. */
    method HandleStream(c: ClientId, args: Command, consumed: nat, now: int)
      modifies store, `info, `clients
      ensures Abs() == R.StreamCommand(old(Abs()), c, args, consumed, now)
      ensures old(BufsMatch()) ==> BufsMatch()
    {
      hide Reply, Executed, IsGetAck;
      var reply := Execute(args, store, info, true, now);
      info := info.(offset := info.offset + consumed);
      if IsGetAck(args) { Say(c, reply); }
    }

    method Dispatch(c: ClientId, args: Command, consumed: nat, env: R.Env, leftover: string)
      requires Valid() && R.Enabled(Abs(), R.Parsed(c, args, consumed, env))
      requires FreshConn(Abs(), R.Parsed(c, args, consumed, env))
      modifies this, store, backlog, backlog.buffer
      ensures Valid() && Abs() == R.Dispatch(old(Abs()), c, args, consumed, env)
    {
      hide Structure, R.RegularCommand, R.ReplicaCommand, R.StreamCommand, IsWrite, ToUpper, Orders, Resp.Fits, KeysFit;
      StepSane(Abs(), R.Parsed(c, args, consumed, env));
      match clients[c].kind {
        case MasterConn =>
          HandleStream(c, args, consumed, env.now);
        case Replica =>
          HandleReplica(c, args, env.now);
        case Regular =>
          HandleRegular(c, args, env, leftover);
      }
    }

    /** `handle_read`: append what arrived, then parse, dispatch and erase until the buffer holds no command. */
    method HandleRead(c: ClientId, chunk: string, envs: nat -> R.Env, leftovers: nat -> string)
      requires Valid() && c in clients
      requires CanHandle(Abs(), c, Resp.Drain(readBufs[c] + chunk).cmds, envs, 0)
      modifies this, store, backlog, backlog.buffer
      ensures Valid()
      ensures var d := Resp.Drain(old(readBufs)[c] + chunk);
        && Abs() == Handled(old(Abs()), c, d.cmds, envs, 0)
        && c in readBufs && readBufs[c] == d.rest
    {
      hide Structure, R.Dispatch, Resp.Parsed, R.Enabled, FreshConn, Reading, Handled, CanHandle, Resp.Drain;
      var buf := readBufs[c] + chunk;
      ghost var d := Resp.Drain(buf);
      ghost var goal := Handled(Abs(), c, d.cmds, envs, 0);
      ReadingStart(Abs(), c, buf, envs);
      readBufs := readBufs[c := buf];
      var n := 0;
      while true
        invariant Valid() && c in clients && readBufs[c] == buf
        invariant Reading(goal, Abs(), c, d, envs, n, buf)
        decreases |buf|
      {
        var r := Resp.Parse(buf);
        if r.consumed == 0 {
          ReadingEnd(goal, Abs(), c, d, envs, n, buf);
          return;
        }
        ReadingStep(goal, Abs(), c, d, envs, n, buf);
        DispatchKeepsClient(Abs(), c, r.args, r.consumed, envs(n));
        Dispatch(c, r.args, r.consumed, envs(n), leftovers(n));
        buf := buf[r.consumed..];
        readBufs := readBufs[c := buf];
        n := n + 1;
      }
    }

    method Accept(c: ClientId)
      requires Valid() && c !in clients
      modifies `clients, `readBufs
      ensures Valid() && Abs() == R.Step(old(Abs()), R.Accept(c))
    {
      hide Structure;
      StepSane(Abs(), R.Accept(c));
      clients := clients[c := R.Client(R.Regular, "", 0)];
      readBufs := readBufs[c := ""];
    }

    /** The peer closed the connection, or reading failed. */
    method Disconnected(c: ClientId)
      requires Valid() && c in clients
      modifies `clients, `readBufs, `replicas, `queues, `waits, `master
      ensures Valid() && Abs() == R.Step(old(Abs()), R.Disconnect(c))
    {
      hide Structure, R.RemoveClient;
      StepSane(Abs(), R.Disconnect(c));
      RemoveClient(c);
    }

    method CheckWaitTimeouts(now: int)
      requires Valid()
      modifies `clients, `waits
      ensures Valid() && Abs() == R.Step(old(Abs()), R.Timeouts(now))
    {
      hide Structure, R.Settle;
      StepSane(Abs(), R.Timeouts(now));
      SettleKeeps(Abs(), R.Clock(now));
      Settle(R.Clock(now));
    }

    /** Writer thread, under the lock. */
    method SwapPending()
      modifies `queues
      ensures Abs() == R.SwapAll(old(Abs()))
    {
      var todo := queues.Keys;
      while todo != {}
        invariant todo <= queues.Keys == old(queues).Keys
        invariant forall c | c in queues ::
          queues[c] == if c in todo then old(queues)[c]
                       else R.Queue("", old(queues)[c].draining + old(queues)[c].pending)
        decreases todo
        modifies `queues
      {
        var c :| c in todo;
        if queues[c].pending != "" {
          queues := queues[c := R.Queue("", queues[c].draining + queues[c].pending)];
        }
        todo := todo - {c};
      }
      assert queues == R.SwapAll(old(Abs())).queues;
    }

    /** Writer thread, outside the lock: send until the socket would block, fails, or the buffer is empty.
        `accepts(k)` is the result of the k-th `send`: a byte count, zero for "would block", negative for an error. */
    method DrainQueue(c: ClientId, accepts: nat -> int) returns (sent: string, failed: bool)
      requires c in queues
      modifies `queues
      ensures |sent| <= |old(queues)[c].draining| && sent == old(queues)[c].draining[..|sent|]
      ensures var after := R.Sent(old(Abs()), c, |sent|);
              Abs() == if failed then R.SendFailed(after, c) else after
    {
      sent, failed := "", false;
      var k := 0;
      var left := queues[c].draining;
      while left != ""
        invariant sent + left == old(queues)[c].draining
        invariant c in queues && queues == old(queues)[c := queues[c]]
        invariant queues[c] == R.Queue(old(queues)[c].pending, left)
        decreases |left|
        modifies `queues
      {
        var n := accepts(k);
        if n > 0 {
          var m := if n < |left| then n else |left|;
          sent := sent + left[..m];
          left := left[m..];
          queues := queues[c := queues[c].(draining := left)];
          k := k + 1;
        } else {
          assert old(queues)[c].draining[|sent|..] == left;
          if n < 0 {
            queues := queues[c := queues[c].(draining := "")];
            failed := true;
          }
          return;
        }
      }
    }
  }

  lemma {:induction false} RemoveAllOthers(s: R.State, ids: seq<ClientId>, c: ClientId)
    requires c in s.clients && c !in ids
    ensures c in R.RemoveClients(s, ids).clients && R.RemoveClients(s, ids).clients[c] == s.clients[c]
    decreases |ids|
  {
    if ids != [] { RemoveAllOthers(R.RemoveClient(s, ids[0]), ids[1..], c); }
  }

  /** A client that is being served stays connected. */
  lemma DispatchKeepsClient(s: R.State, c: ClientId, args: Command, consumed: nat, env: R.Env)
    requires Structure(s) && R.Enabled(s, R.Parsed(c, args, consumed, env))
    ensures c in R.Dispatch(s, c, args, consumed, env).clients
  {
    hide Reply, Executed, ToUpper, Stoll, Stoi, R.CaughtUp, R.HandleReplicaof, Resp.Encode, Rdb.Serialized,
         R.Continues, R.StillParked, R.Told, Orders, Resp.Fits, IsGetAck;
    match s.clients[c].kind
    case MasterConn =>
    case Replica =>
      var t := s.(store := Executed(args, s.store, s.info, false, env.now));
      if R.IsAck(args) && Stoll(args[2]).Some? {
        var u := t.(clients := t.clients[c := t.clients[c].(ack := Stoll(args[2]).value)]);
        ToldSame(u, u.waits, R.Acks, u.clients);
      }
    case Regular => ReplicaofKeepsClient(s, c, args, env);
  }

  lemma ReplicaofKeepsClient(s: R.State, c: ClientId, args: Command, env: R.Env)
    requires Structure(s) && c in s.clients && s.clients[c].kind == R.Regular
    ensures c in R.HandleReplicaof(s, c, args, env).clients
  {
    hide Stoi, IsNoOne, R.Follow, R.Promote, Structure;
    FollowKeepsClient(s, c, env.sync);
    PromoteKeepsClient(s, c, env.freshId);
  }

  lemma FollowKeepsClient(s: R.State, c: ClientId, sync: R.Handshake)
    requires Structure(s) && c in s.clients && s.clients[c].kind == R.Regular
    ensures forall host, port :: c in R.Follow(s, c, host, port, sync).clients
  {
    hide R.StepDown, R.DropMaster, WaitersLive;
    StepDownKeepsClient(s, c);
    StepDownLeaving(s);
    DropMasterKeepsClient(R.StepDown(s), c);
  }

  lemma PromoteKeepsClient(s: R.State, c: ClientId, freshId: string)
    requires Structure(s) && c in s.clients && s.clients[c].kind == R.Regular
    ensures c in R.Promote(s, freshId).clients
  {
    hide R.DropMaster, WaitersLive;
    DropMasterKeepsClient(s, c);
  }

  lemma DropMasterKeepsClient(s: R.State, c: ClientId)
    requires Members(s) && c in s.clients && s.clients[c].kind == R.Regular
    ensures c in R.DropMaster(s).clients
  {
  }

  lemma StepDownKeepsClient(s: R.State, c: ClientId)
    requires Structure(s) && c in s.clients && s.clients[c].kind == R.Regular
    ensures c in R.StepDown(s).clients && R.StepDown(s).clients[c].kind == R.Regular
  {
    hide R.StillParked, R.Told, R.RemoveClients;
    ToldSame(s, s.waits, R.RoleChange, s.clients);
    assert c !in s.replicas;
    RemoveAllOthers(R.Settle(s, R.RoleChange), s.replicas, c);
  }

  lemma SettleKeeps(s: R.State, cause: R.Cause)
    ensures var t := R.Settle(s, cause); t.replicas == s.replicas && t.clients.Keys == s.clients.Keys
  {
    ToldSame(s, s.waits, cause, s.clients);
  }

  /** WAIT, REPLICAOF and PSYNC do not touch the store before the server takes them over. */
  lemma QuietNames(args: Command, m: Data, info: Info, now: int)
    requires Name(args) == "WAIT" || Name(args) == "REPLICAOF" || Name(args) == "PSYNC"
    ensures Executed(args, m, info, false, now) == m
  {
    NoEffect(args, m, now);
  }

  lemma WaitKeeps(s: R.State, c: ClientId, args: Command, now: int)
    ensures R.HandleWait(s, c, args, now).clients.Keys == s.clients.Keys
  {
    hide R.CaughtUp, Stoi, Stoll, Resp.Encode;
  }

  lemma PsyncKeeps(s: R.State, c: ClientId, args: Command, order: seq<string>, at: Rdb.Instant)
    requires Orders(order, s.store.Keys)
    ensures R.HandlePsync(s, c, args, order, at).clients.Keys == s.clients.Keys
  {
    hide R.AskedId, R.AskedOffset, Rdb.Serialized;
  }

  lemma PublishKeeps(s: R.State, args: Command, byClient: bool)
    ensures R.Publish(s, args, byClient).clients == s.clients
  {
    hide Resp.Encode;
  }

  lemma SameAsSelf(a: map<ClientId, R.Client>)
    ensures SameButOutput(a, a)
  {
  }

  lemma Told1(a: map<ClientId, R.Client>, b: map<ClientId, R.Client>, c: ClientId, text: string)
    requires SameButOutput(a, b)
    ensures SameButOutput(a, R.Tell(b, c, text))
  {
  }

  lemma SettleOne(s: R.State, ws: seq<R.Wait>, cause: R.Cause, clients: map<ClientId, R.Client>)
    requires ws != []
    ensures R.StillParked(s, ws, cause) ==
      (if R.Due(s, ws[0], cause) then [] else [ws[0]]) + R.StillParked(s, ws[1..], cause)
    ensures R.Told(s, ws, cause, clients)
         == R.Told(s, ws[1..], cause,
                   if R.Due(s, ws[0], cause)
                   then R.Tell(clients, ws[0].client, R.Number(R.CaughtUp(s, ws[0].target))) else clients)
  {
    hide R.Due, R.CaughtUp;
  }

  lemma SettleNone(s: R.State, cause: R.Cause, clients: map<ClientId, R.Client>)
    ensures R.StillParked(s, [], cause) == [] && R.Told(s, [], cause, clients) == clients
  {
  }

  lemma DueUnchanged(s: R.State, t: R.State, w: R.Wait, cause: R.Cause)
    requires SameButOutput(s.clients, t.clients) && s.replicas == t.replicas
    ensures R.Due(s, w, cause) == R.Due(t, w, cause) && R.CaughtUp(s, w.target) == R.CaughtUp(t, w.target)
  {
    Waiting.CountSame(s.replicas, s.clients, t.clients, w.target);
  }

  lemma NothingToSweep(m: Data, now: int)
    ensures Sweepable(m, [], now)
  {
  }
}
