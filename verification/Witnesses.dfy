/** Runs that show where a promise one might expect ends: each is a concrete proper run from the start of a server. */
module Witnesses {
  import opened Text
  import opened KeyStore
  import opened Commands
  import opened Replication
  import opened Membership
  import opened Streams
  import opened Books
  import opened Runs
  import opened Safety
  import opened Guarantees
  import opened Followers
  import opened Positions
  import Promoter
  import Rdb
  import Resp

  // ---- building runs ----

  lemma ReachedStart(w: World)
    requires Start(w)
    ensures Reached(w)
  {
    hide Start;
    assert ProperRun(w, []) && w == After(w, []);
  }

  const SET_A: Command := ["SET", "a", "b"]

  function Surroundings(m: Data): Env {
    Env(0, Rdb.Instant(0, 0, 0, 0), if "a" in m then ["a"] else [], "", Failed(None))
  }

  function Ordinary(c: ClientId, args: Command, m: Data): Event {
    Parsed(c, args, |Resp.Encode(args)|, Surroundings(m))
  }

  lemma Names()
    ensures Name(SET_A) == "SET" && IsWrite("SET") && !IsWrite("REPLCONF")
    ensures ToUpper("WAIT") == "WAIT" && ToUpper("PSYNC") == "PSYNC" && ToUpper("REPLCONF") == "REPLCONF"
    ensures ToUpper("ACK") == "ACK"
  {
    assert ToUpper("SET") == "SET";
  }

  lemma SetIs27()
    ensures |Resp.Encode(SET_A)| == 27
  {
    hide Resp.EncodeBulk, Resp.EncodeBulks;
    ShortBulk("SET");
    ShortBulk("a");
    ShortBulk("b");
    BulksOfThree("SET", "a", "b");
    assert |Resp.EncodeBulks(SET_A)| == 9 + (7 + (7 + 0));
    assert |SET_A| == 3 && Dec(3) == "3";
  }

  // ---- a client's write to a worker ----

  /** A worker that follows a master at offset 5 refuses a client's SET and reports offset 27 from then on. */
  lemma RefusedWriteMoves() returns (w: World, e: Event)
    ensures Reached(w) && w.s.info.role == Worker && Enabled(w.s, e) && w.s.info.offset == 5
    ensures e.Parsed? && e.args == SET_A && w.s.clients[e.c].kind == Regular
    ensures Step(w.s, e).info.offset == 27 && Step(w.s, e).store == w.s.store
  {
    hide Reached, Reply, ToUpper, Resp.Encode, RegularCommand;
    var sync := Synced(0, "r", 5, map[]);
    var start := StartWorker("h", 1, 64, sync);
    assert Start(start);
    ReachedStart(start);
    ReachedNext(start, Accept(1));
    w := Next(start, Accept(1));
    e := Ordinary(1, SET_A, w.s.store);
    Names();
    SetIs27();
    ReadOnlyWriteMovesOffset(w.s, 1, SET_A, e.env);
    RefusedOffset(w.s, 1, e.env);
  }

  lemma RefusedOffset(s: State, c: ClientId, env: Env)
    requires Orders(env.order, s.store.Keys)
    ensures RegularCommand(s, c, SET_A, env).info.offset == s.offset + |Resp.Encode(SET_A)|
  {
    hide Reply, ToUpper, Resp.Encode, Executed;
    Names();
  }

  // ---- the offset INFO reports after a sweep ----

  /** A key that expires and is swept leaves the reported offset 20 bytes behind. */
  lemma SweepLeavesReportBehind() returns (w: World)
    ensures Reached(w) && w.s.info.role == Master && w.s.offset == w.s.info.offset + 20
  {
    hide Reached, Reply, Resp.Encode, Next, Enabled, Proper;
    var start := StartMaster("r", 64);
    StartIsMaster("r", 64);
    ReachedStart(start);
    var w1 := OneClient(start);
    var w2 := ExpiringSet(w1);
    var e := SweepTick(["a"], 2 * NS_PER_MS);
    SweepStep(w2, e);
    ReachedNext(w2, e);
    w := Next(w2, e);
  }

  lemma StartIsMaster(replid: string, capacity: nat)
    ensures Start(StartMaster(replid, capacity))
  {
  }

  lemma OneClient(start: World) returns (w: World)
    requires Reached(start) && start == StartMaster("r", 64)
    ensures Reached(w) && w == start.(s := start.s.(clients := map[1 := Client(Regular, "", 0)]))
  {
    hide Reached;
    ReachedNext(start, Accept(1));
    w := Next(start, Accept(1));
  }

  lemma ExpiringSet(w: World) returns (t: World)
    requires Reached(w) && var start := StartMaster("r", 64);
             w == start.(s := start.s.(clients := map[1 := Client(Regular, "", 0)]))
    ensures Reached(t) && t.s.info.role == Master && t.s.info.offset == t.s.offset
    ensures t.s.store == map["a" := Entry("b", Some(NS_PER_MS))]
  {
    hide Reached, Reply, Resp.Encode, Next, ToUpper, IsWrite, DoWrite;
    var args := ["SET", "a", "b", "PX", Dec(1)];
    var e := Ordinary(1, args, w.s.store);
    ExpiringFits();
    ReachedNext(w, e);
    t := Next(w, e);
    Names();
    ExpiringStep(w, args, e);
    ExpiringEffect(w.s.store);
  }

  lemma ExpiringFits()
    ensures Resp.Fits(["SET", "a", "b", "PX", Dec(1)]) && Name(["SET", "a", "b", "PX", Dec(1)]) == "SET"
  {
    assert ToUpper("SET") == "SET";
  }

  lemma ExpiringStep(w: World, args: Command, e: Event)
    requires w.s.info.role == Master && e == Ordinary(1, args, w.s.store) && Enabled(w.s, e) && Name(args) == "SET"
    requires w.s.clients[1].kind == Regular && w.s.replicas == []
    ensures var t := Next(w, e);
      t.s.store == Effect(args, w.s.store, 0) && t.s.info.role == Master && t.s.info.offset == t.s.offset
  {
    hide Reply, Resp.Encode, ToUpper, IsWrite, Effect;
    Names();
  }

  lemma ExpiringEffect(m: Data)
    requires m == map[]
    ensures Effect(["SET", "a", "b", "PX", Dec(1)], m, 0) == map["a" := Entry("b", Some(NS_PER_MS))]
  {
    hide Dec, Parse;
    var args := ["SET", "a", "b", "PX", Dec(1)];
    ParseDec(1, LLONG_MAX);
    assert ToUpper("SET") == "SET" && ToUpper("PX") == "PX";
    assert SetOptions(args, 5, Some(1)) == Expire(Some(1));
    assert SetOptions(args, 3, None) == SetOptions(args, 5, Some(1));
  }

  lemma DelIs20()
    ensures |Resp.Encode(["DEL", "a"])| == 20
  {
    hide Resp.EncodeBulk;
    ShortBulk("DEL");
    ShortBulk("a");
    assert ["DEL", "a"][1..] == ["a"] && ["a"][1..] == [];
    assert Resp.EncodeBulks(["a"]) == Resp.EncodeBulk("a") + "";
    assert Resp.EncodeBulks(["DEL", "a"]) == Resp.EncodeBulk("DEL") + Resp.EncodeBulks(["a"]);
    assert |["DEL", "a"]| == 2 && Dec(2) == "2";
  }

  lemma SweepStep(w: World, e: Event)
    requires w.s.info.role == Master && w.s.info.offset == w.s.offset && e == SweepTick(["a"], 2 * NS_PER_MS)
    requires w.s.store == map["a" := Entry("b", Some(NS_PER_MS))]
    ensures Enabled(w.s, e) && Proper(w.s, e)
    ensures Next(w, e).s.info == w.s.info && Next(w, e).s.offset == w.s.offset + 20
  {
    hide Resp.Encode, Effect;
    DelIs20();
    assert ["a"][1..] == [];
  }

  // ---- scenes: one client, a few replicas ----

  /** A replica attached by FULLRESYNC, as master and writer thread see it. */
  datatype Rep = Rep(payload: string, from: int, start: nat, frames: seq<Frame>, q: Queue, sent: string, ack: int)

  ghost predicate IsRep(w: World, c: ClientId, r: Rep) {
    && c in w.s.clients && w.s.clients[c].kind == Replica && w.s.clients[c].ack == r.ack
    && c in w.s.queues && w.s.queues[c] == r.q
    && c in w.h.attached && w.h.attached[c].sync.Full? && !w.h.attached[c].broken
    && w.h.attached[c].from == r.from && w.h.attached[c].start == r.start && w.h.attached[c].payload == r.payload
    && w.h.attached[c].frames == r.frames && w.h.attached[c].sent == r.sent
  }

  ghost predicate Scene(w: World, offset: int, waits: seq<Wait>, ids: seq<ClientId>, reps: map<ClientId, Rep>) {
    && Reached(w) && w.s.info.role == Master && w.s.store.Keys <= {"a"}
    && w.s.clients.Keys <= {1} + reps.Keys && 1 in w.s.clients && w.s.clients[1].kind == Regular
    && w.s.offset == offset && w.s.waits == waits && w.s.replicas == ids && ids != []
    && (forall c :: c in ids <==> c in reps) && (forall c | c in reps :: IsRep(w, c, reps[c]))
  }

  lemma Ordered(m: Data)
    requires m.Keys <= {"a"}
    ensures Orders(Surroundings(m).order, m.Keys)
  {
  }

  /** `w` with its client `c` attached by FULLRESYNC. */
  lemma PsyncStep(w: World, c: ClientId) returns (t: World, payload: string)
    requires Reached(w) && w.s.info.role == Master && w.s.store.Keys <= {"a"}
    requires c in w.s.clients && w.s.clients[c] == Client(Regular, "", 0)
    ensures Reached(t) && t.h.log == w.h.log
    ensures exists sync: Sync | sync.Full? :: t == DoAttach(w, c, Attachment(w.s.offset, sync, payload, |w.h.log|,
                                                                            multiset(w.s.waits), [], "", false))
  {
    hide Reached, Reply, Rdb.Serialized, ToUpper, Dec, DoAttach;
    var args := ["PSYNC", "?"];
    var e := Ordinary(c, args, w.s.store);
    Names();
    Ordered(w.s.store);
    HandedOver(args, w.s.store, w.s.info, false, 0);
    NotWrites();
    ReachedNext(w, e);
    t := Next(w, e);
    var a := PsyncAttachment(w, args, e.env.order, e.env.at);
    payload := a.payload;
    assert t == DoAttach(w, c, Attachment(w.s.offset, a.sync, payload, |w.h.log|, multiset(w.s.waits), [], "", false));
    AttachLog(w, c, a);
  }

  lemma AttachLog(w: World, c: ClientId, a: Attachment)
    ensures DoAttach(w, c, a).h.log == w.h.log
  {
  }

  lemma SceneStart() returns (w: World, payload: string)
    ensures w.h.log == [] && Scene(w, 0, [], [2], map[2 := Rep(payload, 0, 0, [], Queue(payload, ""), "", 0)])
  {
    hide Reached;
    var start := StartMaster("r", 64);
    StartIsMaster("r", 64);
    ReachedStart(start);
    var w1 := OneClient(start);
    ReachedNext(w1, Accept(2));
    var w2 := Next(w1, Accept(2));
    w, payload := PsyncStep(w2, 2);
  }

  function Accepted(w: World, c: ClientId): World {
    w.(s := w.s.(clients := w.s.clients[c := Client(Regular, "", 0)]))
  }

  lemma JoinRep(w: World, c: ClientId, a: Attachment, d: ClientId, r: Rep)
    requires IsRep(w, d, r) && d != c && w.s.info.role == Master
    ensures IsRep(DoAttach(Accepted(w, c), c, a), d, r)
  {
  }

  lemma NewRep(w: World, c: ClientId, a: Attachment)
    requires w.s.info.role == Master && a.sync.Full? && !a.broken
    ensures IsRep(DoAttach(Accepted(w, c), c, a), c,
                  Rep(a.payload, a.from, a.start, a.frames, Queue(a.payload, ""), a.sent, 0))
  {
  }

  /** Another replica comes. */
  lemma JoinScene(w: World, offset: int, waits: seq<Wait>, ids: seq<ClientId>, reps: map<ClientId, Rep>, c: ClientId)
    returns (t: World, payload: string)
    requires Scene(w, offset, waits, ids, reps) && c != 1 && c !in ids
    ensures t.h.log == w.h.log
    ensures Scene(t, offset, waits, ids + [c],
                  reps[c := Rep(payload, offset, |w.h.log|, [], Queue(payload, ""), "", 0)])
  {
    hide Reached, IsRep;
    ReachedNext(w, Accept(c));
    var u := Accepted(w, c);
    assert u == Next(w, Accept(c));
    t, payload := PsyncStep(u, c);
    var sync: Sync :| sync.Full? && t == DoAttach(u, c, Attachment(u.s.offset, sync, payload, |u.h.log|,
                                                                   multiset(u.s.waits), [], "", false));
    var a := Attachment(u.s.offset, sync, payload, |u.h.log|, multiset(u.s.waits), [], "", false);
    NewRep(w, c, a);
    forall d | d in reps
      ensures IsRep(t, d, reps[d])
    {
      JoinRep(w, c, a, d, reps[d]);
    }
  }

  /** A plain SET of the key "a". */
  ghost predicate PlainSet(args: Command) { |args| == 3 && args[0] == "SET" && args[1] == "a" && Resp.Fits(args) }

  function WithFrame(reps: map<ClientId, Rep>, f: Frame): map<ClientId, Rep> {
    map c | c in reps :: reps[c].(frames := reps[c].frames + [f], q := Appended(reps[c].q, Resp.Encode(f.Cmd())))
  }

  lemma SetStep(w: World, args: Command) returns (text: string)
    requires Reached(w) && w.s.info.role == Master && w.s.store.Keys <= {"a"} && PlainSet(args)
    requires 1 in w.s.clients && w.s.clients[1].kind == Regular
    ensures Reached(DoWrite(DoSay(w, 1, text), args, 0, true))
  {
    hide Reached, Reply, ToUpper, IsWrite, Resp.Encode, Resp.Fits, DoWrite;
    Names();
    Ordered(w.s.store);
    var e := Ordinary(1, args, w.s.store);
    ReachedNext(w, e);
    text := Reply(args, w.s.store, w.s.info, false, 0);
    assert Next(w, e) == DoWrite(DoSay(w, 1, text), args, 0, true);
  }

  lemma SetRep(w: World, text: string, args: Command, c: ClientId, r: Rep)
    requires IsRep(w, c, r) && c != 1 && w.s.replicas != []
    ensures IsRep(DoWrite(DoSay(w, 1, text), args, 0, true), c,
                  r.(frames := r.frames + [Write(args)], q := Appended(r.q, Resp.Encode(args))))
  {
    hide Effect, Resp.Encode;
  }

  lemma SetScene(w: World, offset: int, waits: seq<Wait>, ids: seq<ClientId>, reps: map<ClientId, Rep>, args: Command)
    returns (t: World)
    requires Scene(w, offset, waits, ids, reps) && PlainSet(args)
    ensures Scene(t, offset + |Resp.Encode(args)|, waits, ids, WithFrame(reps, Write(args)))
    ensures t.h.log == w.h.log + [Logged(args, 0, true)]
  {
    hide Reached, IsRep, ToUpper, Resp.Encode, SetOptions, Resp.Fits;
    Names();
    var text := SetStep(w, args);
    t := DoWrite(DoSay(w, 1, text), args, 0, true);
    forall c | c in reps
      ensures IsRep(t, c, WithFrame(reps, Write(args))[c])
    {
      NotTheClient(w, c, reps[c]);
      SetRep(w, text, args, c, reps[c]);
    }
  }

  lemma NotTheClient(w: World, c: ClientId, r: Rep)
    requires IsRep(w, c, r) && 1 in w.s.clients && w.s.clients[1].kind == Regular
    ensures c != 1
  {
  }

  lemma WaitStep(w: World)
    requires Reached(w) && w.s.info.role == Master && w.s.store.Keys <= {"a"}
    requires 1 in w.s.clients && w.s.clients[1].kind == Regular && w.s.replicas != [] && w.s.offset > 0
    requires CaughtUp(w.s, w.s.offset) == 0
    ensures Reached(DoPark(w, Wait(1, 1, w.s.offset, None)))
  {
    hide Reached, Reply, ToUpper, IsWrite, Resp.Encode, Dec, Parse, CaughtUp, DoPark;
    var args := ["WAIT", Dec(1), Dec(0)];
    Ordered(w.s.store);
    Names();
    ParseDec(1, INT_MAX);
    ParseDec(0, INT_MAX);
    ParseDec(0, LLONG_MAX);
    HandedOver(args, w.s.store, w.s.info, false, 0);
    ShortDigits();
    var e := Ordinary(1, args, w.s.store);
    ReachedNext(w, e);
    assert Next(w, e) == DoPark(w, Wait(1, 1, w.s.offset, None));
  }

  lemma ParkRep(w: World, x: Wait, c: ClientId, r: Rep)
    requires IsRep(w, c, r) && w.s.replicas != []
    ensures IsRep(DoPark(w, x), c, r.(frames := r.frames + [GetAck(x)], q := Appended(r.q, Resp.Encode(GETACK))))
  {
    hide Resp.Encode;
  }

  /** A WAIT for one replica is parked. */
  lemma WaitScene(w: World, offset: int, waits: seq<Wait>, ids: seq<ClientId>, reps: map<ClientId, Rep>)
    returns (t: World)
    requires Scene(w, offset, waits, ids, reps) && offset > 0 && forall c | c in reps :: reps[c].ack < offset
    ensures var x := Wait(1, 1, offset, None); Scene(t, offset, waits + [x], ids, WithFrame(reps, GetAck(x)))
    ensures t.h.log == w.h.log
  {
    hide Reached, IsRep, Resp.Encode, CountAcks;
    var x := Wait(1, 1, offset, None);
    forall c | c in ids && c in w.s.clients
      ensures w.s.clients[c].ack < offset
    {
      RepAck(w, c, reps[c]);
    }
    NobodyCounts(ids, w.s.clients, offset);
    WaitStep(w);
    t := DoPark(w, x);
    forall c | c in reps
      ensures IsRep(t, c, WithFrame(reps, GetAck(x))[c])
    {
      ParkRep(w, x, c, reps[c]);
    }
  }

  lemma RepAck(w: World, c: ClientId, r: Rep)
    requires IsRep(w, c, r)
    ensures c in w.s.clients && w.s.clients[c].ack == r.ack && w.s.clients[c].kind == Replica
  {
  }

  lemma ShortDigits()
    ensures |Dec(0)| == 1 && |Dec(1)| == 1
  {
  }

  lemma {:induction false} NobodyCounts(ids: seq<ClientId>, clients: map<ClientId, Client>, target: int)
    requires forall c | c in ids && c in clients :: clients[c].ack < target
    ensures CountAcks(ids, clients, target) == 0
    decreases |ids|
  {
    if ids != [] { NobodyCounts(ids[1..], clients, target); }
  }

  lemma {:induction false} SomebodyCounts(ids: seq<ClientId>, clients: map<ClientId, Client>, target: int, c: ClientId)
    requires c in ids && c in clients && clients[c].ack >= target
    ensures CountAcks(ids, clients, target) >= 1
    decreases |ids|
  {
    if ids[0] != c { SomebodyCounts(ids[1..], clients, target, c); }
  }

  function Swapped(reps: map<ClientId, Rep>): map<ClientId, Rep> {
    map c | c in reps :: reps[c].(q := Queue("", reps[c].q.draining + reps[c].q.pending))
  }

  lemma SwapRep(w: World, c: ClientId, r: Rep)
    requires IsRep(w, c, r)
    ensures IsRep(w.(s := SwapAll(w.s)), c, r.(q := Queue("", r.q.draining + r.q.pending)))
  {
  }

  lemma SendRep(w: World, c: ClientId, all: string, d: ClientId, r: Rep)
    requires c in w.s.queues && w.s.queues[c].draining == all && IsRep(w, d, r)
    ensures IsRep(DoSend(w, c, |all|), d,
                  if d == c then r.(q := Queue(r.q.pending, ""), sent := r.sent + all) else r)
  {
    assert all[..|all|] == all && all[|all|..] == "";
  }

  /** The writer thread sends everything there is for `c`. */
  lemma FlushScene(w: World, offset: int, waits: seq<Wait>, ids: seq<ClientId>, reps: map<ClientId, Rep>, c: ClientId)
    returns (t: World)
    requires Scene(w, offset, waits, ids, reps) && c in reps
    ensures Scene(t, offset, waits, ids, Flushed(reps, c))
    ensures t.h.log == w.h.log && t.h.answers == w.h.answers
  {
    hide Reached, IsRep;
    ReachedNext(w, Swap);
    var u := w.(s := SwapAll(w.s));
    assert u == Next(w, Swap);
    var all := reps[c].q.draining + reps[c].q.pending;
    forall d | d in reps
      ensures IsRep(u, d, Swapped(reps)[d])
    {
      SwapRep(w, d, reps[d]);
    }
    RepQueue(u, c, Swapped(reps)[c]);
    ReachedNext(u, Send(c, |all|));
    t := DoSend(u, c, |all|);
    assert t == Next(u, Send(c, |all|));
    forall d | d in reps
      ensures IsRep(t, d, Flushed(reps, c)[d])
    {
      SendRep(u, c, all, d, Swapped(reps)[d]);
    }
  }

  function Flushed(reps: map<ClientId, Rep>, c: ClientId): map<ClientId, Rep>
    requires c in reps
  {
    Swapped(reps)[c := reps[c].(q := Queue("", ""), sent := reps[c].sent + (reps[c].q.draining + reps[c].q.pending))]
  }

  lemma RepQueue(w: World, c: ClientId, r: Rep)
    requires IsRep(w, c, r)
    ensures c in w.s.queues && w.s.queues[c] == r.q
  {
  }

  function Acked(s: State, c: ClientId, n: int): State
    requires c in s.clients
  {
    s.(clients := s.clients[c := s.clients[c].(ack := n)])
  }

  lemma AckStep(w: World, c: ClientId, n: nat)
    requires Reached(w) && w.s.store.Keys <= {"a"} && c in w.s.clients && w.s.clients[c].kind == Replica && n <= 64
    ensures Reached(DoSettle(w.(s := Acked(w.s, c, n)), Acks))
  {
    hide Reached, ToUpper, IsWrite, Resp.Encode, Dec, Parse, Executed, DoSettle;
    var args := ["REPLCONF", "ACK", ToString(n)];
    Ordered(w.s.store);
    AckFits(n);
    Names();
    ParseDec(n, LLONG_MAX);
    var e := Ordinary(c, args, w.s.store);
    QuietCommand(args, w.s.store, w.s.info, false, 0);
    ReachedNext(w, e);
    assert Next(w, e) == DoSettle(w.(s := Acked(w.s, c, n)), Acks);
  }

  lemma AckRep(w: World, c: ClientId, n: nat, d: ClientId, r: Rep)
    requires IsRep(w, d, r) && c in w.s.clients
    ensures IsRep(DoSettle(w.(s := Acked(w.s, c, n)), Acks), d, if d == c then r.(ack := n) else r)
  {
    hide StillParked, Told, Answered;
    var u := Acked(w.s, c, n);
    ToldSame(u, u.waits, Acks, u.clients);
  }

  /** Replica `c` acknowledges `n`, which is enough for every WAIT: each is answered. */
  lemma AckScene(w: World, offset: int, waits: seq<Wait>, ids: seq<ClientId>, reps: map<ClientId, Rep>, c: ClientId,
                 n: nat) returns (t: World)
    requires Scene(w, offset, waits, ids, reps) && c in reps && n <= 64
    requires forall i | 0 <= i < |waits| :: waits[i].target <= n && waits[i].needed <= 1
    ensures Scene(t, offset, [], ids, reps[c := reps[c].(ack := n)])
    ensures t.h.log == w.h.log && forall x | x in waits :: AnsweredOnAck(t.h.answers, x)
  {
    hide Reached, IsRep, StillParked, Told, Answered;
    RepAck(w, c, reps[c]);
    AckStep(w, c, n);
    var u := Acked(w.s, c, n);
    AllDue(u, waits, c);
    ToldSame(u, waits, Acks, u.clients);
    t := DoSettle(w.(s := u), Acks);
    forall d | d in reps
      ensures IsRep(t, d, reps[c := reps[c].(ack := n)][d])
    {
      AckRep(w, c, n, d, reps[d]);
    }
    forall x | x in waits
      ensures AnsweredOnAck(t.h.answers, x)
    {
      var i := AnswerIndex(u, waits, x);
      assert t.h.answers[|w.h.answers| + i] == Answered(u, waits, Acks)[i];
    }
  }

  /** The WAIT was answered because enough replicas had acknowledged. */
  ghost predicate AnsweredOnAck(answers: seq<Answer>, x: Wait) {
    exists i | 0 <= i < |answers| :: answers[i].wait == x && answers[i].why == Settled(Acks)
  }

  lemma {:induction false} AllDue(s: State, ws: seq<Wait>, c: ClientId)
    requires c in s.replicas && c in s.clients
    requires forall i | 0 <= i < |ws| :: ws[i].target <= s.clients[c].ack && ws[i].needed <= 1
    ensures StillParked(s, ws, Acks) == [] && |Answered(s, ws, Acks)| == |ws|
    ensures forall i | 0 <= i < |ws| ::
      Answered(s, ws, Acks)[i].wait == ws[i] && Answered(s, ws, Acks)[i].why == Settled(Acks)
    decreases |ws|
  {
    if ws != [] {
      SomebodyCounts(s.replicas, s.clients, ws[0].target, c);
      AllDue(s, ws[1..], c);
    }
  }

  lemma AnswerIndex(s: State, ws: seq<Wait>, x: Wait) returns (i: nat)
    requires x in ws && |Answered(s, ws, Acks)| == |ws|
    requires forall i | 0 <= i < |ws| ::
      Answered(s, ws, Acks)[i].wait == ws[i] && Answered(s, ws, Acks)[i].why == Settled(Acks)
    ensures i < |ws| && Answered(s, ws, Acks)[i].wait == x && Answered(s, ws, Acks)[i].why == Settled(Acks)
  {
    i :| 0 <= i < |ws| && ws[i] == x;
  }

  // ---- a WAIT that counts a replica too early ----

  /** A client SETs, WAITs twice and is answered twice; the replica's acknowledgements, 27 and 27 + 37, are exactly
      those `ExactAcks` describes. The client SETs again: before a single byte of this second SET has left the server,
      a WAIT for one replica is answered at once with 1. */
  lemma CountedTooEarly() returns (w: World)
    ensures Reached(w) && w.s.info.role == Master && w.s.replicas == [2] && 2 in w.s.clients && 2 in w.h.attached
    ensures LogCmds(w.h.log) == [SET_A, SET_A] && w.s.offset == 54
    ensures var a := w.h.attached[2];
      && a.sync.Full? && a.frames == [Write(SET_A), GetAck(X27), GetAck(X27), Write(SET_A)]
      && a.sent == a.payload + FrameBytes(a.frames[..3])
      && ExpectedAcks(a.frames[..3]) == [27, w.s.clients[2].ack] && w.s.clients[2].ack == 64
    ensures Immediate(w.s, 1) == Some(1)
  {
    hide Scene, Reached, FrameBytes, Resp.Encode, Immediate, Appended;
    SetIs27();
    PlainA();
    var set0, getAck := Resp.Encode(SET_A), Resp.Encode(GETACK);
    var w0, payload := SceneStart();
    var r0 := map[2 := Rep(payload, 0, 0, [], Queue(payload, ""), "", 0)];
    var w1 := SetScene(w0, 0, [], [2], r0, SET_A);
    var r1 := WithFrame(r0, Write(SET_A));
    var w2 := WaitScene(w1, 27, [], [2], r1);
    var r2 := WithFrame(r1, GetAck(X27));
    var w3 := WaitScene(w2, 27, [] + [X27], [2], r2);
    var r3 := WithFrame(r2, GetAck(X27));
    var waits := [] + [X27] + [X27];
    var w4 := FlushScene(w3, 27, waits, [2], r3, 2);
    var r4 := Flushed(r3, 2);
    var w5 := AckScene(w4, 27, waits, [2], r4, 2, 27);
    var r5 := r4[2 := r4[2].(ack := 27)];
    var w6 := AckScene(w5, 27, [], [2], r5, 2, 64);
    var r6 := r5[2 := r5[2].(ack := 64)];
    w := SetScene(w6, 27, [], [2], r6, SET_A);
    var frames := [Write(SET_A), GetAck(X27), GetAck(X27), Write(SET_A)];
    var r7 := WithFrame(r6, Write(SET_A));
    assert r7[2].frames == frames;
    SceneSays(w, 54, [], [2], r7, 2);
    CountedAtOnce(w, 54, [2], r7);
    assert frames[..3] == [Write(SET_A), GetAck(X27), GetAck(X27)];
    TwoAcks();
    FirstThree(payload);
  }

  const X27 := Wait(1, 1, 27, None)

  lemma PlainA()
    ensures PlainSet(SET_A)
  {
  }

  lemma SceneSays(w: World, offset: int, waits: seq<Wait>, ids: seq<ClientId>, reps: map<ClientId, Rep>, c: ClientId)
    requires Scene(w, offset, waits, ids, reps) && c in reps
    ensures Reached(w) && w.s.info.role == Master && w.s.replicas == ids && w.s.offset == offset && IsRep(w, c, reps[c])
  {
    hide Reached, IsRep;
  }

  lemma CountedAtOnce(w: World, offset: int, ids: seq<ClientId>, reps: map<ClientId, Rep>)
    requires Scene(w, offset, [], ids, reps) && ids == [2] && offset > 0 && reps[2].ack >= offset
    ensures Immediate(w.s, 1) == Some(1)
  {
    hide Reached;
    var c := w.s.replicas[0];
    assert w.s.replicas[1..] == [] && CountAcks(w.s.replicas[1..], w.s.clients, offset) == 0;
  }

  lemma TwoAcks()
    ensures ExpectedAcks([Write(SET_A), GetAck(X27), GetAck(X27)]) == [27, 64]
    ensures GetAcks([Write(SET_A), GetAck(X27), GetAck(X27)]) == 2
  {
    var f, g := Write(SET_A), GetAck(X27);
    var one, two := [f, g], [f, g, g];
    assert two[..2] == one && one[..1] == [f] && [f][..0] == [];
    assert GetAcks([f]) == 0 && ExpectedAcks([f]) == [];
    assert GetAcks(one) == 1 && ExpectedAcks(one) == [27];
  }

  /** What is queued behind the payload for the first three frames. */
  lemma FirstThree(payload: string)
    ensures var set0, getAck := Resp.Encode(SET_A), Resp.Encode(GETACK);
      var q := Appended(Appended(Appended(Queue(payload, ""), set0), getAck), getAck);
      "" + (q.draining + q.pending) == payload + FrameBytes([Write(SET_A), GetAck(X27), GetAck(X27)])
  {
    hide FrameBytes, Resp.Encode;
    NoFrames();
    FrameBytesAppend([], Write(SET_A));
    FrameBytesAppend([Write(SET_A)], GetAck(X27));
    FrameBytesAppend([Write(SET_A), GetAck(X27)], GetAck(X27));
    assert [] + [Write(SET_A)] == [Write(SET_A)];
    assert [Write(SET_A)] + [GetAck(X27)] == [Write(SET_A), GetAck(X27)];
    assert [Write(SET_A), GetAck(X27)] + [GetAck(X27)] == [Write(SET_A), GetAck(X27), GetAck(X27)];
  }

  // ---- replicas with misleading offsets ----

  const X54 := Wait(1, 1, 54, None)

  /** A value that makes the SET as long as a GETACK. */
  const SET_B: Command := ["SET", "a", "0123456789"]

  lemma SetIs37()
    ensures |Resp.Encode(SET_B)| == 37 && PlainSet(SET_B)
  {
    hide Resp.EncodeBulk, Resp.EncodeBulks;
    ShortBulk("SET");
    ShortBulk("a");
    TenBytes("0123456789");
    BulksOfThree("SET", "a", "0123456789");
    assert |Resp.EncodeBulks(SET_B)| == 9 + (7 + (17 + 0));
    assert |SET_B| == 3 && Dec(3) == "3";
  }

  lemma TenBytes(s: string)
    requires |s| == 10
    ensures |Resp.EncodeBulk(s)| == 17
  {
    assert Dec(10) == Dec(1) + "0";
  }

  /** What the replica counts for a few frames, and how many writes are among them. */
  lemma FramesOf(before: seq<Frame>, f: Frame)
    ensures FrameBytes(before + [f]) == FrameBytes(before) + Resp.Encode(f.Cmd())
    ensures |Writes(before + [f])| == |Writes(before)| + if f.Write? then 1 else 0
    ensures f.GetAck? ==> |Resp.Encode(f.Cmd())| == 37
  {
    hide FrameBytes, Resp.Encode, Writes;
    FrameBytesAppend(before, f);
    WritesAppend(before, f);
    GetAckIs37();
  }

  lemma TwoFrames(f: Frame, g: Frame)
    ensures FrameBytes([f]) == Resp.Encode(f.Cmd()) && |Writes([f])| == if f.Write? then 1 else 0
    ensures FrameBytes([f, g]) == Resp.Encode(f.Cmd()) + Resp.Encode(g.Cmd())
    ensures |Writes([f, g])| == |Writes([f])| + if g.Write? then 1 else 0
    ensures g.GetAck? ==> |Resp.Encode(g.Cmd())| == 37
  {
    hide FrameBytes, Resp.Encode, Writes;
    NoFrames();
    FramesOf([], f);
    FramesOf([f], g);
    assert [] + [f] == [f] && [f] + [g] == [f, g] && "" + Resp.Encode(f.Cmd()) == Resp.Encode(f.Cmd());
  }

  /** What a flush of a fresh replica's queue has sent. */
  lemma SentOne(payload: string, data: string)
    ensures var q := Appended(Queue(payload, ""), data); "" + (q.draining + q.pending) == payload + data
  {
  }

  lemma SentTwo(payload: string, data: string, more: string)
    ensures var q := Appended(Appended(Queue(payload, ""), data), more);
      "" + (q.draining + q.pending) == payload + (data + more)
  {
  }

  /** Replica 2 has taken a SET and two GETACKs and counts 101; replica 3, attached later, has taken a second SET and
      the GETACK of the WAIT for it and counts 91. The WAIT was answered on the acknowledgement of replica 3, which
      has applied both writes; a failover ranks replica 2 first, which has applied only one. */
  lemma OutrankedByGetAcks() returns (w: World)
    ensures Reached(w) && w.s.info.role == Master && w.s.replicas == [2, 3] && 2 in w.h.attached && 3 in w.h.attached
    ensures LogCmds(w.h.log) == [SET_A, SET_A] && AnsweredOnAck(w.h.answers, X54)
    ensures Outranks(w.h.attached[2], 3, w.h.attached[3], 2)
    ensures Counted(w.h.attached[2], 3) == 101 && Counted(w.h.attached[3], 2) == 91
  {
    hide Scene, Reached, FrameBytes, Writes, Resp.Encode, Appended, Outranks, Counted, AnsweredOnAck;
    SetIs27();
    PlainA();
    var w0, payload := SceneStart();
    var r0 := map[2 := Rep(payload, 0, 0, [], Queue(payload, ""), "", 0)];
    var w1 := SetScene(w0, 0, [], [2], r0, SET_A);
    var r1 := WithFrame(r0, Write(SET_A));
    var w2 := WaitScene(w1, 27, [], [2], r1);
    var r2 := WithFrame(r1, GetAck(X27));
    var w3 := WaitScene(w2, 27, [] + [X27], [2], r2);
    var r3 := WithFrame(r2, GetAck(X27));
    var w4 := FlushScene(w3, 27, [] + [X27] + [X27], [2], r3, 2);
    var r4 := Flushed(r3, 2);
    assert r4.Keys == {2} && r4[2].frames == [Write(SET_A), GetAck(X27), GetAck(X27)] && r4[2].ack == 0;
    FirstThree(payload);
    assert r4[2].sent == payload + FrameBytes(r4[2].frames);
    w := SecondReplica(w4, payload, r4);
  }

  /** The rest of the story, from where replica 3 attaches. */
  lemma SecondReplica(w4: World, payload: string, r4: map<ClientId, Rep>) returns (w: World)
    requires Scene(w4, 27, [] + [X27] + [X27], [2], r4) && w4.h.log == [Logged(SET_A, 0, true)]
    requires r4.Keys == {2} && r4[2].frames == [Write(SET_A), GetAck(X27), GetAck(X27)] && r4[2].ack == 0
    requires r4[2].sent == payload + FrameBytes(r4[2].frames) && r4[2].payload == payload
    requires r4[2].from == 0 && r4[2].start == 0
    ensures Reached(w) && w.s.info.role == Master && w.s.replicas == [2, 3] && 2 in w.h.attached && 3 in w.h.attached
    ensures LogCmds(w.h.log) == [SET_A, SET_A] && AnsweredOnAck(w.h.answers, X54)
    ensures Outranks(w.h.attached[2], 3, w.h.attached[3], 2)
    ensures Counted(w.h.attached[2], 3) == 101 && Counted(w.h.attached[3], 2) == 91
  {
    hide Scene, Reached, FrameBytes, Writes, Resp.Encode, Appended, Outranks, Counted, AnsweredOnAck;
    SetIs27();
    PlainA();
    var ids, waits := [2] + [3], [] + [X27] + [X27];
    var w5, payload3 := JoinScene(w4, 27, waits, [2], r4, 3);
    var r5 := r4[3 := Rep(payload3, 27, 1, [], Queue(payload3, ""), "", 0)];
    var w6 := SetScene(w5, 27, waits, ids, r5, SET_A);
    var r6 := WithFrame(r5, Write(SET_A));
    var w7 := WaitScene(w6, 54, waits, ids, r6);
    var r7 := WithFrame(r6, GetAck(X54));
    var w8 := FlushScene(w7, 54, waits + [X54], ids, r7, 3);
    var r8 := Flushed(r7, 3);
    w := AckScene(w8, 54, waits + [X54], ids, r8, 3, 54);
    var r9 := r8[3 := r8[3].(ack := 54)];
    assert X54 in waits + [X54];
    SentTwo(payload3, Resp.Encode(SET_A), Resp.Encode(GETACK));
    SceneSays(w, 54, [], ids, r9, 2);
    SceneSays(w, 54, [], ids, r9, 3);
    assert r9[2].frames[..3] == r4[2].frames;
    assert r9[3].frames == [Write(SET_A), GetAck(X54)];
    Offsets101(w.h.attached[2], w.h.attached[3]);
  }

  /** Both have been sent so much; the first counts more and has applied less. */
  ghost predicate Outranks(a1: Attachment, m1: nat, a2: Attachment, m2: nat) {
    && a1.sync.Full? && m1 <= |a1.frames| && a1.sent == a1.payload + FrameBytes(a1.frames[..m1])
    && a2.sync.Full? && m2 <= |a2.frames| && a2.sent == a2.payload + FrameBytes(a2.frames[..m2])
    && Position(a1, m1) < Position(a2, m2)
    && forall x, y :: Promoter.Before(Promoter.Candidate(x, Counted(a1, m1)), Promoter.Candidate(y, Counted(a2, m2)))
  }

  /** The offset a replica reports after `m` frames. */
  function Counted(a: Attachment, m: nat): int {
    if m <= |a.frames| then a.from + |FrameBytes(a.frames[..m])| else 0
  }

  lemma Offsets101(a: Attachment, b: Attachment)
    requires a.sync.Full? && a.from == 0 && a.start == 0 && |a.frames| >= 3
    requires a.frames[..3] == [Write(SET_A), GetAck(X27), GetAck(X27)]
    requires a.sent == a.payload + FrameBytes(a.frames[..3])
    requires b.sync.Full? && b.from == 27 && b.start == 1 && b.frames == [Write(SET_A), GetAck(X54)]
    requires b.sent == b.payload + (Resp.Encode(SET_A) + Resp.Encode(GETACK))
    ensures Outranks(a, 3, b, 2) && Counted(a, 3) == 101 && Counted(b, 2) == 91
  {
    hide FrameBytes, Writes, Resp.Encode;
    SetIs27();
    TwoFrames(Write(SET_A), GetAck(X27));
    TwoFrames(Write(SET_A), GetAck(X54));
    FramesOf([Write(SET_A), GetAck(X27)], GetAck(X27));
    assert [Write(SET_A), GetAck(X27)] + [GetAck(X27)] == a.frames[..3];
    assert b.frames[..2] == b.frames;
  }

  /** Replica 2 has taken a SET and a GETACK, replica 3, attached later, only a second SET of the same length as the
      GETACK: both count 64, but replica 2 has applied one write and replica 3 both. */
  lemma EqualOffsetsOtherData() returns (w: World)
    ensures Reached(w) && w.s.info.role == Master && w.s.replicas == [2, 3] && 2 in w.h.attached && 3 in w.h.attached
    ensures LogCmds(w.h.log) == [SET_A, SET_B]
    ensures Ties(w.h.attached[2], 2, w.h.attached[3], 1)
  {
    hide Scene, Reached, FrameBytes, Writes, Resp.Encode, Appended, Ties;
    SetIs27();
    SetIs37();
    PlainA();
    var set0, getAck := Resp.Encode(SET_A), Resp.Encode(GETACK);
    var w0, payload := SceneStart();
    var r0 := map[2 := Rep(payload, 0, 0, [], Queue(payload, ""), "", 0)];
    var w1 := SetScene(w0, 0, [], [2], r0, SET_A);
    var r1 := WithFrame(r0, Write(SET_A));
    var w2 := WaitScene(w1, 27, [], [2], r1);
    var r2 := WithFrame(r1, GetAck(X27));
    var w3 := FlushScene(w2, 27, [] + [X27], [2], r2, 2);
    var r3 := Flushed(r2, 2);
    assert r3.Keys == {2} && r3[2].frames == [Write(SET_A), GetAck(X27)];
    SentTwo(payload, set0, getAck);
    w := LateReplica(w3, payload, r3);
  }

  /** The rest of the story, from where replica 3 attaches. */
  lemma LateReplica(w3: World, payload: string, r3: map<ClientId, Rep>) returns (w: World)
    requires Scene(w3, 27, [] + [X27], [2], r3) && w3.h.log == [Logged(SET_A, 0, true)]
    requires r3.Keys == {2} && r3[2].frames == [Write(SET_A), GetAck(X27)] && r3[2].payload == payload
    requires r3[2].sent == payload + (Resp.Encode(SET_A) + Resp.Encode(GETACK)) && r3[2].from == 0 && r3[2].start == 0
    ensures Reached(w) && w.s.info.role == Master && w.s.replicas == [2, 3] && 2 in w.h.attached && 3 in w.h.attached
    ensures LogCmds(w.h.log) == [SET_A, SET_B]
    ensures Ties(w.h.attached[2], 2, w.h.attached[3], 1)
  {
    hide Scene, Reached, FrameBytes, Writes, Resp.Encode, Appended, Ties;
    SetIs37();
    var w4, payload3 := JoinScene(w3, 27, [] + [X27], [2], r3, 3);
    var r4 := r3[3 := Rep(payload3, 27, 1, [], Queue(payload3, ""), "", 0)];
    var w5 := SetScene(w4, 27, [] + [X27], [2] + [3], r4, SET_B);
    var r5 := WithFrame(r4, Write(SET_B));
    w := FlushScene(w5, 64, [] + [X27], [2] + [3], r5, 3);
    var r6 := Flushed(r5, 3);
    SentOne(payload3, Resp.Encode(SET_B));
    SceneSays(w, 64, [] + [X27], [2] + [3], r6, 2);
    SceneSays(w, 64, [] + [X27], [2] + [3], r6, 3);
    assert r6[2].frames[..2] == [Write(SET_A), GetAck(X27)];
    assert r6[3].frames == [Write(SET_B)];
    Offsets64(w.h.attached[2], w.h.attached[3]);
  }

  /** Both have been sent so much, count the same and have applied different parts of the log. */
  ghost predicate Ties(a1: Attachment, m1: nat, a2: Attachment, m2: nat) {
    && a1.sync.Full? && m1 <= |a1.frames| && a1.sent == a1.payload + FrameBytes(a1.frames[..m1])
    && a2.sync.Full? && m2 <= |a2.frames| && a2.sent == a2.payload + FrameBytes(a2.frames[..m2])
    && Counted(a1, m1) == Counted(a2, m2) && Position(a1, m1) != Position(a2, m2)
  }

  lemma Offsets64(a: Attachment, b: Attachment)
    requires a.sync.Full? && a.from == 0 && a.start == 0 && |a.frames| >= 2
    requires a.frames[..2] == [Write(SET_A), GetAck(X27)]
    requires a.sent == a.payload + (Resp.Encode(SET_A) + Resp.Encode(GETACK))
    requires b.sync.Full? && b.from == 27 && b.start == 1 && b.frames == [Write(SET_B)]
    requires b.sent == b.payload + Resp.Encode(SET_B)
    ensures Ties(a, 2, b, 1)
  {
    hide FrameBytes, Writes, Resp.Encode;
    SetIs27();
    SetIs37();
    TwoFrames(Write(SET_A), GetAck(X27));
    TwoFrames(Write(SET_B), GetAck(X27));
    assert b.frames[..1] == b.frames;
  }
}
