/** Runs of the server: its state together with the history needed to say what replication promises. */
module Runs {
  import opened Text
  import opened KeyStore
  import opened Commands
  import opened Replication
  import Rdb
  import Resp

  /** One element of a replica's stream after its sync payload; a GETACK with the WAIT it was queued for. */
  datatype Frame = Write(args: Command) | GetAck(wait: Wait) {
    function Cmd(): Command { if Write? then args else GETACK }
  }

  /** A write the master published, with the clock reading it was executed at; a client's, or a DEL of the sweep. */
  datatype Logged = Logged(args: Command, now: int, byClient: bool)

  datatype Sync = Full(order: seq<string>, at: Rdb.Instant) | Partial(replay: string)

  /** A replica attached in the current master term.
      `start` is the log position and `from` the offset its stream begins at; the WAITs `earlier` were already
      parked when it attached. */
  datatype Attachment = Attachment(from: int, sync: Sync, payload: string, start: nat, earlier: multiset<Wait>,
                                   frames: seq<Frame>, sent: string, broken: bool)

  /** Why a WAIT was answered. */
  datatype Why = AtOnce | Settled(cause: Cause)

  /** `acks` is what the attached replicas had acknowledged when the answer was given. */
  datatype Answer = Answer(wait: Wait, count: int, why: Why, acks: map<ClientId, int>)

  function AcksOf(s: State): map<ClientId, int> {
    map c | c in s.replicas && c in s.clients :: s.clients[c].ack
  }

  /** `initial`, `log` and `attached` cover the current master term, the rest the whole run. The replicas `inherited`
      were attached before the term began, while the server was a worker. */
  datatype History = History(initial: Data, log: seq<Logged>, attached: map<ClientId, Attachment>,
                             inherited: set<ClientId>, accepted: multiset<Wait>, answers: seq<Answer>,
                             dropped: multiset<Wait>)

  datatype World = World(s: State, h: History)

  // ---- history operations ----

  function AddFrame(attached: map<ClientId, Attachment>, f: Frame): map<ClientId, Attachment> {
    map c | c in attached :: attached[c].(frames := attached[c].frames + [f])
  }

  /** A write: executed on the store, then published. */
  function DoWrite(w: World, args: Command, now: int, byClient: bool): World {
    World(Publish(w.s.(store := Effect(args, w.s.store, now)), args, byClient),
          w.h.(log := w.h.log + [Logged(args, now, byClient)], attached := AddFrame(w.h.attached, Write(args))))
  }

  function DoDels(w: World, keys: seq<string>, now: int): World
    decreases |keys|
  {
    if keys == [] then w else DoDels(DoWrite(w, ["DEL", keys[0]], now, false), keys[1..], now)
  }

  function DoSay(w: World, c: ClientId, text: string): World { w.(s := Say(w.s, c, text)) }

  function Asked(args: Command, c: ClientId, s: State, now: int): Wait
    requires |args| >= 3 && Stoi(args[1]).Some? && Stoll(args[2]).Some?
  {
    Wait(c, Stoi(args[1]).value, s.offset, DeadlineFor(Stoll(args[2]).value, now))
  }

  function DoPark(w: World, wait: Wait): World {
    World(Park(w.s, wait),
          w.h.(accepted := w.h.accepted + multiset{wait}, attached := AddFrame(w.h.attached, GetAck(wait))))
  }

  function DoAnswer(w: World, wait: Wait, count: int): World {
    World(Say(w.s, wait.client, Number(count)),
          w.h.(accepted := w.h.accepted + multiset{wait},
               answers := w.h.answers + [Answer(wait, count, AtOnce, AcksOf(w.s))]))
  }

  function DoWait(w: World, c: ClientId, args: Command, now: int): World {
    if |args| < 3 then w
    else if Stoi(args[1]).None? || Stoll(args[2]).None? then DoSay(w, c, NOT_AN_INTEGER)
    else match Immediate(w.s, Stoi(args[1]).value)
      case Some(count) => DoAnswer(w, Asked(args, c, w.s, now), count)
      case None => DoPark(w, Asked(args, c, w.s, now))
  }

  /** The answers given when the WAITs `ws` are looked at. */
  function Answered(s: State, ws: seq<Wait>, cause: Cause): seq<Answer> {
    if ws == [] then [] else
    (if Due(s, ws[0], cause) then [Answer(ws[0], CaughtUp(s, ws[0].target), Settled(cause), AcksOf(s))] else [])
    + Answered(s, ws[1..], cause)
  }

  function DoSettle(w: World, cause: Cause): World {
    World(Settle(w.s, cause), w.h.(answers := w.h.answers + Answered(w.s, w.s.waits, cause)))
  }

  function DoAttach(w: World, c: ClientId, a: Attachment): World {
    World(Attach(w.s, c, a.payload),
          if w.s.info.role == Master then w.h.(attached := w.h.attached[c := a]) else w.h)
  }

  function PsyncAttachment(w: World, args: Command, order: seq<string>, at: Rdb.Instant): Attachment
    requires Orders(order, w.s.store.Keys)
  {
    var id, offset := AskedId(args), AskedOffset(args);
    if Continues(w.s, id, offset) then
      var replay := w.s.backlog.From(offset);
      Attachment(offset, Partial(replay), ContinuePayload(w.s.info.replid, replay), |w.h.log|, multiset(w.s.waits),
                 [], "", false)
    else
      var rdb := Rdb.Serialized(order, w.s.store, at);
      Attachment(w.s.offset, Full(order, at), FullPayload(w.s.info.replid, w.s.offset, rdb), |w.h.log|,
                 multiset(w.s.waits), [], "", false)
  }

  function DroppedBy(ws: seq<Wait>, c: ClientId): seq<Wait> {
    if ws == [] then [] else (if ws[0].client == c then [ws[0]] else []) + DroppedBy(ws[1..], c)
  }

  function DoRemove(w: World, c: ClientId): World {
    World(RemoveClient(w.s, c),
          w.h.(attached := w.h.attached - {c}, inherited := w.h.inherited - {c},
               dropped := w.h.dropped + multiset(DroppedBy(w.s.waits, c))))
  }

  function DoRemoveAll(w: World, ids: seq<ClientId>): World
    decreases |ids|
  {
    if ids == [] then w else DoRemoveAll(DoRemove(w, ids[0]), ids[1..])
  }

  function DoDropMaster(w: World): World {
    if w.s.master.Some? then DoRemove(w, w.s.master.value) else w
  }

  /** A new master term begins. */
  function DoPromote(w: World, freshId: string): World {
    var t := DoDropMaster(w);
    World(Promote(w.s, freshId),
          t.h.(initial := t.s.store, log := [], attached := map[], inherited := set c | c in t.s.replicas))
  }

  function DoStepDown(w: World): World {
    if w.s.info.role == Master then
      var t := DoRemoveAll(DoSettle(w, RoleChange), w.s.replicas);
      t.(s := t.s.(offset := 0))
    else w
  }

  function DoFollow(w: World, c: ClientId, host: string, port: int, sync: Handshake): World {
    World(Follow(w.s, c, host, port, sync), DoDropMaster(DoStepDown(w)).h)
  }

  function DoReplicaof(w: World, c: ClientId, args: Command, env: Env): World {
    if |args| < 3 then w
    else if IsNoOne(args) then
      if w.s.info.role == Master then DoSay(w, c, "+OK\r\n") else DoSay(DoPromote(w, env.freshId), c, "+OK\r\n")
    else match Stoi(args[2])
      case None => DoSay(w, c, BAD_PORT)
      case Some(port) =>
        if w.s.following == Some((args[1], port)) then DoSay(w, c, "+OK Already connected to specified master\r\n")
        else DoFollow(w, c, args[1], port, env.sync)
  }

  function DoRegular(w: World, c: ClientId, args: Command, env: Env): World
    requires Orders(env.order, w.s.store.Keys)
  {
    var reply := Reply(args, w.s.store, w.s.info, false, env.now);
    var name := Name(args);
    if name == "WAIT" && reply == "" then DoWait(w, c, args, env.now)
    else if name == "REPLICAOF" && reply == "" then DoReplicaof(w, c, args, env)
    else if name == "PSYNC" && reply == "" then DoAttach(w, c, PsyncAttachment(w, args, env.order, env.at))
    else if IsWrite(name) && w.s.info.role == Master then DoWrite(DoSay(w, c, reply), args, env.now, true)
    else w.(s := RegularCommand(w.s, c, args, env))
  }

  function DoReplica(w: World, c: ClientId, args: Command, now: int): World
    requires c in w.s.clients
  {
    if IsAck(args) && Stoll(args[2]).Some? then
      var t := w.s.(store := Executed(args, w.s.store, w.s.info, false, now));
      DoSettle(w.(s := t.(clients := t.clients[c := t.clients[c].(ack := Stoll(args[2]).value)])), Acks)
    else w.(s := ReplicaCommand(w.s, c, args, now))
  }

  function DoSend(w: World, c: ClientId, n: nat): World
    requires c in w.s.queues && n <= |w.s.queues[c].draining|
  {
    World(Sent(w.s, c, n),
          if c !in w.h.attached then w.h else
          var a := w.h.attached[c];
          w.h.(attached := w.h.attached[c := a.(sent := a.sent + w.s.queues[c].draining[..n])]))
  }

  function DoSendError(w: World, c: ClientId): World
    requires c in w.s.queues
  {
    World(SendFailed(w.s, c),
          if c in w.h.attached then w.h.(attached := w.h.attached[c := w.h.attached[c].(broken := true)]) else w.h)
  }

  function Next(w: World, e: Event): World
    requires Enabled(w.s, e)
  {
    match e
    case Parsed(c, args, consumed, env) =>
      (match w.s.clients[c].kind
       case Regular => DoRegular(w, c, args, env)
       case Replica => DoReplica(w, c, args, env.now)
       case MasterConn => w.(s := StreamCommand(w.s, c, args, consumed, env.now)))
    case Disconnect(c) => DoRemove(w, c)
    case Timeouts(now) => DoSettle(w, Clock(now))
    case SweepTick(victims, now) => if w.s.info.role == Master then DoDels(w, victims, now) else w
    case Send(c, n) => DoSend(w, c, n)
    case SendError(c) => DoSendError(w, c)
    case _ => w.(s := Step(w.s, e))
  }

  // ---- the history records the steps of the server and nothing else ----

  lemma PublishKeepsStore(s: State, args: Command, m: Data)
    ensures Publish(s.(store := m), args, false) == Publish(s, args, false).(store := m)
  {
  }

  lemma DelEffect(m: Data, key: string, now: int)
    ensures Effect(["DEL", key], m, now) == Without(m, [key])
  {
    assert ToUpper("DEL") == "DEL";
    assert ["DEL", key][1..] == [key];
  }

  lemma {:induction false} SweepIsDels(w: World, keys: seq<string>, now: int)
    ensures DoDels(w, keys, now).s == PublishDels(w.s.(store := Without(w.s.store, keys)), keys)
    decreases |keys|
  {
    hide Publish, Effect;
    var m := w.s.store;
    if keys == [] {
      assert Without(m, []) == m;
    } else {
      var first, rest := keys[0], keys[1..];
      var w' := DoWrite(w, ["DEL", first], now, false);
      SweepIsDels(w', rest, now);
      DelEffect(m, first, now);
      PublishKeepsStore(w.s, ["DEL", first], Without(m, [first]));
      PublishKeepsStore(w.s, ["DEL", first], Without(m, keys));
      assert Without(Without(m, [first]), rest) == Without(m, keys);
    }
  }

  lemma {:induction false} RemoveAllState(w: World, ids: seq<ClientId>)
    ensures DoRemoveAll(w, ids).s == RemoveClients(w.s, ids)
    decreases |ids|
  {
    if ids != [] { RemoveAllState(DoRemove(w, ids[0]), ids[1..]); }
  }

  lemma NextIsStep(w: World, e: Event)
    requires Enabled(w.s, e)
    ensures Next(w, e).s == Step(w.s, e)
  {
    match e
    case SweepTick(victims, now) => if w.s.info.role == Master { SweepIsDels(w, victims, now); }
    case Parsed(c, args, consumed, env) =>
      if w.s.clients[c].kind == Regular { RegularIsStep(w, c, args, env); }
    case _ =>
  }

  lemma RegularIsStep(w: World, c: ClientId, args: Command, env: Env)
    requires Orders(env.order, w.s.store.Keys)
    ensures DoRegular(w, c, args, env).s == RegularCommand(w.s, c, args, env)
  {
    hide Reply, Effect, Publish, ToUpper;
  }
}
