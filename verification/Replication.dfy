/** The replication state of the server and every step that changes it: src/server.cpp on values.
    Sockets, clocks, fresh ids and the handshake with a new master are parameters of the steps. */
module Replication {
  import opened Text
  import opened KeyStore
  import opened Commands
  import opened Backlog
  import Rdb
  import Resp

  /** The identity of a `Client*`. */
  type ClientId = nat

  datatype Kind = Regular | Replica | MasterConn

  /** `out` is everything put into the write buffer so far. */
  datatype Client = Client(kind: Kind, out: string, ack: int)

  /** Filled by the main thread, drained by the writer thread. */
  datatype Queue = Queue(pending: string, draining: string)

  /** A parked WAIT; no deadline means "wait forever". */
  datatype Wait = Wait(client: ClientId, needed: int, target: int, deadline: Option<int>)

  datatype State = State(
    store: Data,
    info: Info,
    offset: int,                     // master_repl_offset_
    backlog: View,
    clients: map<ClientId, Client>,
    replicas: seq<ClientId>,
    queues: map<ClientId, Queue>,
    waits: seq<Wait>,
    master: Option<ClientId>,        // master_client_
    following: Option<(string, int)> // replicaof_
  )

  const GETACK: Command := ["REPLCONF", "GETACK", "*"]

  function Tell(clients: map<ClientId, Client>, c: ClientId, text: string): map<ClientId, Client> {
    if c in clients then clients[c := clients[c].(out := clients[c].out + text)] else clients
  }

  function Say(s: State, c: ClientId, text: string): State {
    s.(clients := Tell(s.clients, c, text))
  }

  function Number(n: int): string { ":" + ToString(n) + "\r\n" }

  /** How many of `replicas` have acknowledged `target`. */
  function CountAcks(replicas: seq<ClientId>, clients: map<ClientId, Client>, target: int): nat {
    if replicas == [] then 0 else
    (if replicas[0] in clients && clients[replicas[0]].ack >= target then 1 else 0)
    + CountAcks(replicas[1..], clients, target)
  }

  function CaughtUp(s: State, target: int): nat { CountAcks(s.replicas, s.clients, target) }

  // ---- propagation ----

  function Appended(q: Queue, data: string): Queue { q.(pending := q.pending + data) }

  function Propagate(s: State, data: string): State {
    if s.replicas == [] then s
    else s.(queues := map c | c in s.queues :: Appended(s.queues[c], data))
  }

  /** Count, remember and fan out one write; a sweep leaves the offset reported by INFO behind. */
  function Publish(s: State, args: Command, byClient: bool): State {
    var data := Resp.Encode(args);
    var end := s.offset + |data|;
    Propagate(s.(offset := end,
                 info := if byClient then s.info.(offset := end) else s.info,
                 backlog := s.backlog.Feed(data, s.offset)), data)
  }

  function PublishDels(s: State, keys: seq<string>): State
    decreases |keys|
  {
    if keys == [] then s else PublishDels(Publish(s, ["DEL", keys[0]], false), keys[1..])
  }

  /** The periodic sweep; only a master runs it. */
  function Sweep(s: State, victims: seq<string>): State {
    if s.info.role == Master then PublishDels(s.(store := Without(s.store, victims)), victims) else s
  }

  // ---- WAIT ----

  /** Why parked WAITs are looked at. */
  datatype Cause = Acks | Clock(now: int) | RoleChange

  predicate Due(s: State, w: Wait, cause: Cause) {
    match cause
    case Acks => CaughtUp(s, w.target) >= w.needed
    case Clock(now) => w.deadline.Some? && now >= w.deadline.value
    case RoleChange => true
  }

  function StillParked(s: State, ws: seq<Wait>, cause: Cause): seq<Wait> {
    if ws == [] then [] else
    (if Due(s, ws[0], cause) then [] else [ws[0]]) + StillParked(s, ws[1..], cause)
  }

  function Told(s: State, ws: seq<Wait>, cause: Cause, clients: map<ClientId, Client>): map<ClientId, Client>
    decreases |ws|
  {
    if ws == [] then clients else
    Told(s, ws[1..], cause,
         if Due(s, ws[0], cause) then Tell(clients, ws[0].client, Number(CaughtUp(s, ws[0].target))) else clients)
  }

  /** Answer every WAIT that is due with the current count, keep the others in order. */
  function Settle(s: State, cause: Cause): State {
    s.(waits := StillParked(s, s.waits, cause), clients := Told(s, s.waits, cause, s.clients))
  }

  function DeadlineFor(timeout: int, now: int): Option<int> {
    if timeout > 0 then Some(now + timeout * NS_PER_MS) else None
  }

  /** A WAIT whose numbers parse: how it is answered at once, if it is. */
  function Immediate(s: State, needed: int): Option<int> {
    if s.replicas == [] || s.offset == 0 then Some(if s.offset == 0 then |s.replicas| else 0)
    else if CaughtUp(s, s.offset) >= needed then Some(CaughtUp(s, s.offset))
    else None
  }

  function Park(s: State, w: Wait): State {
    var t := Propagate(s, Resp.Encode(GETACK));
    t.(waits := t.waits + [w])
  }

  function HandleWait(s: State, c: ClientId, args: Command, now: int): State {
    if |args| < 3 then s else
    match (Stoi(args[1]), Stoll(args[2]))
    case (Some(needed), Some(timeout)) =>
      (match Immediate(s, needed)
       case Some(count) => Say(s, c, Number(count))
       case None => Park(s, Wait(c, needed, s.offset, DeadlineFor(timeout, now))))
    case _ => Say(s, c, NOT_AN_INTEGER)
  }

  // ---- PSYNC ----

  /** The offset a PSYNC asks for, -1 when it asks for none. */
  function AskedOffset(args: Command): int {
    if |args| >= 3 && args[2] != "-1" then
      match Stoll(args[2])
      case Some(n) => n
      case None => -1
    else -1
  }

  function AskedId(args: Command): string { if |args| >= 2 then args[1] else "?" }

  predicate Continues(s: State, id: string, offset: int) {
    && id != "?" && offset >= 0
    && (id == s.info.replid || (id == s.info.replid2 && offset <= s.info.secondOffset))
    && s.backlog.Contains(offset)
  }

  function ContinuePayload(replid: string, replay: string): string { "+CONTINUE " + replid + "\r\n" + replay }

  function FullPayload(replid: string, offset: int, rdb: string): string {
    "+FULLRESYNC " + replid + " " + ToString(offset) + "\r\n$" + Dec(|rdb|) + "\r\n" + rdb
  }

  function Attach(s: State, c: ClientId, payload: string): State {
    s.(clients := if c in s.clients then s.clients[c := s.clients[c].(kind := Replica)] else s.clients,
       replicas := s.replicas + [c],
       queues := s.queues[c := Queue(payload, "")])
  }

  function HandlePsync(s: State, c: ClientId, args: Command, order: seq<string>, at: Rdb.Instant): State
    requires Orders(order, s.store.Keys)
  {
    if Continues(s, AskedId(args), AskedOffset(args)) then
      Attach(s, c, ContinuePayload(s.info.replid, s.backlog.From(AskedOffset(args))))
    else
      Attach(s, c, FullPayload(s.info.replid, s.offset, Rdb.Serialized(order, s.store, at)))
  }

  // ---- clients going away ----

  function Remove(ids: seq<ClientId>, c: ClientId): seq<ClientId> {
    if ids == [] then [] else (if ids[0] == c then [] else [ids[0]]) + Remove(ids[1..], c)
  }

  function DropWaits(ws: seq<Wait>, c: ClientId): seq<Wait> {
    if ws == [] then [] else (if ws[0].client == c then [] else [ws[0]]) + DropWaits(ws[1..], c)
  }

  function RemoveClient(s: State, c: ClientId): State {
    s.(master := if s.master == Some(c) then None else s.master,
       replicas := Remove(s.replicas, c),
       queues := s.queues - {c},
       waits := DropWaits(s.waits, c),
       clients := s.clients - {c})
  }

  function RemoveClients(s: State, ids: seq<ClientId>): State
    decreases |ids|
  {
    if ids == [] then s else RemoveClients(RemoveClient(s, ids[0]), ids[1..])
  }

  function DropMaster(s: State): State {
    if s.master.Some? then RemoveClient(s, s.master.value) else s
  }

  // ---- role changes ----

  /** What the blocking handshake with a new master came to; it may fail after FULLRESYNC has announced id and
      offset. */
  datatype Handshake =
    | Failed(announced: Option<(string, int)>)
    | Synced(conn: ClientId, replid: string, offset: int, store: Data)

  /** REPLICAOF NO ONE on a worker: shift the ids, keep counting from the same offset. */
  function Promote(s: State, freshId: string): State {
    var t := DropMaster(s);
    var second := t.info.offset;
    t.(info := Info(Master, freshId, second, "", 0, t.info.replid, second),
       following := None,
       offset := second,
       backlog := t.backlog.SetStart(second))
  }

  /** A master that is told to follow someone answers its WAITs and lets its replicas go. */
  function StepDown(s: State): State {
    if s.info.role == Master then RemoveClients(Settle(s, RoleChange), s.replicas).(offset := 0) else s
  }

  /** Take the worker role, then shake hands. */
  function BecomeWorker(t: State, c: ClientId, host: string, port: int, sync: Handshake): State {
    var u := Say(t.(info := t.info.(role := Worker, offset := 0, host := host, port := port),
                    following := Some((host, port))), c, "+OK\r\n");
    match sync
    case Failed(announced) =>
      var info := if announced.Some? then u.info.(replid := announced.value.0, offset := announced.value.1) else u.info;
      u.(info := info.(role := Master, host := "", port := 0), following := None)
    case Synced(conn, replid, offset, store) =>
      u.(info := u.info.(replid := replid, offset := offset),
         store := store,
         clients := u.clients[conn := Client(MasterConn, "", 0)],
         master := Some(conn))
  }

  function Follow(s: State, c: ClientId, host: string, port: int, sync: Handshake): State {
    BecomeWorker(DropMaster(StepDown(s)), c, host, port, sync)
  }

  /** What a command may need from outside: clock, iteration order, a fresh id, a handshake. */
  datatype Env = Env(now: int, at: Rdb.Instant, order: seq<string>, freshId: string, sync: Handshake)

  /** Where REPLICAOF host port goes on to another master: not if it is followed already. */
  predicate Refollows(s: State, args: Command) {
    && |args| >= 3 && !IsNoOne(args) && Stoi(args[2]).Some?
    && s.following != Some((args[1], Stoi(args[2]).value))
  }

  /** A client's command that leads to a handshake. */
  predicate Follows(s: State, args: Command) {
    Name(args) == "REPLICAOF" && ReplicaofReply(args) == "" && Refollows(s, args)
  }

  /** A client's command that ends a master term or a worker's time with its master. */
  predicate Moves(s: State, args: Command) {
    Follows(s, args) || (Name(args) == "REPLICAOF" && |args| == 3 && IsNoOne(args) && s.info.role == Worker)
  }

  function HandleReplicaof(s: State, c: ClientId, args: Command, env: Env): State {
    if |args| < 3 then s
    else if IsNoOne(args) then
      if s.info.role == Master then Say(s, c, "+OK\r\n") else Say(Promote(s, env.freshId), c, "+OK\r\n")
    else match Stoi(args[2])
      case None => Say(s, c, BAD_PORT)
      case Some(port) =>
        if s.following == Some((args[1], port)) then Say(s, c, "+OK Already connected to specified master\r\n")
        else Follow(s, c, args[1], port, env.sync)
  }

  // ---- one parsed command ----

  /** A command from an ordinary client. Writes are published even when they were answered with an error. */
  function RegularCommand(s: State, c: ClientId, args: Command, env: Env): State
    requires Orders(env.order, s.store.Keys)
  {
    var reply := Reply(args, s.store, s.info, false, env.now);
    var name := Name(args);
    if name == "WAIT" && reply == "" then HandleWait(s, c, args, env.now)
    else if name == "REPLICAOF" && reply == "" then HandleReplicaof(s, c, args, env)
    else if name == "PSYNC" && reply == "" then HandlePsync(s, c, args, env.order, env.at)
    else
      var t := Say(s.(store := Executed(args, s.store, s.info, false, env.now)), c, reply);
      if IsWrite(name) then Publish(t, args, true) else t
  }

  predicate IsAck(args: Command) {
    |args| >= 3 && Name(args) == "REPLCONF" && ToUpper(args[1]) == "ACK"
  }

  /** A command on the connection of an attached replica: executed, not answered; an ACK is noted. */
  function ReplicaCommand(s: State, c: ClientId, args: Command, now: int): State
    requires c in s.clients
  {
    var t := s.(store := Executed(args, s.store, s.info, false, now));
    if IsAck(args) && Stoll(args[2]).Some? then
      Settle(t.(clients := t.clients[c := t.clients[c].(ack := Stoll(args[2]).value)]), Acks)
    else t
  }

  /** A command of the replication stream: executed, counted, and answered only if it is a GETACK. */
  function StreamCommand(s: State, c: ClientId, args: Command, consumed: nat, now: int): State {
    var reply := Reply(args, s.store, s.info, true, now);
    var t := s.(store := Executed(args, s.store, s.info, true, now),
                info := s.info.(offset := s.info.offset + consumed));
    if IsGetAck(args) then Say(t, c, reply) else t
  }

  function Dispatch(s: State, c: ClientId, args: Command, consumed: nat, env: Env): State
    requires c in s.clients && Orders(env.order, s.store.Keys)
  {
    match s.clients[c].kind
    case MasterConn => StreamCommand(s, c, args, consumed, env.now)
    case Replica => ReplicaCommand(s, c, args, env.now)
    case Regular => RegularCommand(s, c, args, env)
  }

  // ---- the writer thread ----

  /** Under the lock: everything pending moves over, for all queues at once. */
  function SwapAll(s: State): State {
    s.(queues := map c | c in s.queues :: Queue("", s.queues[c].draining + s.queues[c].pending))
  }

  /** One `send` took `n` bytes. */
  function Sent(s: State, c: ClientId, n: nat): State
    requires c in s.queues && n <= |s.queues[c].draining|
  {
    s.(queues := s.queues[c := s.queues[c].(draining := s.queues[c].draining[n..])])
  }

  /** One `send` failed: what was being drained is thrown away. */
  function SendFailed(s: State, c: ClientId): State
    requires c in s.queues
  {
    s.(queues := s.queues[c := s.queues[c].(draining := "")])
  }

  // ---- all steps together ----

  datatype Event =
    | Accept(c: ClientId)
    | Parsed(c: ClientId, args: Command, consumed: nat, env: Env)
    | Disconnect(c: ClientId)
    | Timeouts(now: int)
    | SweepTick(victims: seq<string>, now: int)
    | Swap
    | Send(c: ClientId, n: nat)
    | SendError(c: ClientId)

  /** What the surroundings can do in a state. */
  ghost predicate Enabled(s: State, e: Event) {
    match e
    case Accept(c) => c !in s.clients
    case Parsed(c, args, _, env) => c in s.clients && Resp.Fits(args) && Orders(env.order, s.store.Keys)
    case Disconnect(c) => c in s.clients
    case Timeouts(_) => true
    case SweepTick(victims, now) => Sweepable(s.store, victims, now)
    case Swap => true
    case Send(c, n) => c in s.queues && n <= |s.queues[c].draining|
    case SendError(c) => c in s.queues
  }

  function Step(s: State, e: Event): State
    requires Enabled(s, e)
  {
    match e
    case Accept(c) => s.(clients := s.clients[c := Client(Regular, "", 0)])
    case Parsed(c, args, consumed, env) => Dispatch(s, c, args, consumed, env)
    case Disconnect(c) => RemoveClient(s, c)
    case Timeouts(now) => Settle(s, Clock(now))
    case SweepTick(victims, _) => Sweep(s, victims)
    case Swap => SwapAll(s)
    case Send(c, n) => Sent(s, c, n)
    case SendError(c) => SendFailed(s, c)
  }
}
