/** WAIT: what is parked is short of acknowledgements, and no WAIT is lost or answered twice. */
module Waiting {
  import opened Text
  import opened KeyStore
  import opened Commands
  import opened Replication
  import opened Membership
  import opened Runs
  import Rdb
  import Resp

  /** Every parked WAIT has a positive target that fewer than `needed` replicas have reached. */
  ghost predicate Short(s: State) {
    forall i | 0 <= i < |s.waits| :: s.waits[i].target > 0 && CaughtUp(s, s.waits[i].target) < s.waits[i].needed
  }

  ghost predicate PositiveTargets(ws: seq<Wait>) { forall i | 0 <= i < |ws| :: ws[i].target > 0 }

  function WaitsOf(answers: seq<Answer>): seq<Wait> {
    seq(|answers|, i requires 0 <= i < |answers| => answers[i].wait)
  }

  /** Every accepted WAIT is answered once, parked, or was dropped with its client. */
  ghost predicate Conserved(w: World) {
    w.h.accepted == multiset(WaitsOf(w.h.answers)) + w.h.dropped + multiset(w.s.waits)
  }

  /** An answer reports the number of replicas that had acknowledged the target (of all replicas, if nothing was ever
      written); one that is not forced by the deadline or a role change reports enough of them. */
  ghost predicate HonestAnswer(a: Answer) {
    && a.count == (if a.why.AtOnce? && a.wait.target == 0 then |a.acks|
                   else |set c | c in a.acks && a.acks[c] >= a.wait.target|)
    && match a.why
       case Settled(Acks) => a.count >= a.wait.needed
       case Settled(Clock(now)) => a.wait.deadline.Some? && now >= a.wait.deadline.value
       case Settled(RoleChange) => true
       case AtOnce => a.wait.target == 0 || a.acks == map[] || a.count >= a.wait.needed
  }

  /** Replicas are listed once and are clients. */
  ghost predicate Listed(s: State) { Distinct(s.replicas) && forall c | c in s.replicas :: c in s.clients }

  ghost function AckedSet(ids: seq<ClientId>, clients: map<ClientId, Client>, target: int): set<ClientId>
    requires forall c | c in ids :: c in clients
  {
    set c | c in ids && clients[c].ack >= target
  }

  lemma AckedCons(ids: seq<ClientId>, clients: map<ClientId, Client>, target: int)
    requires ids != [] && Distinct(ids) && forall c | c in ids :: c in clients
    ensures Distinct(ids[1..]) && ids[0] !in AckedSet(ids[1..], clients, target)
    ensures AckedSet(ids, clients, target) ==
      AckedSet(ids[1..], clients, target) + (if clients[ids[0]].ack >= target then {ids[0]} else {})
  {
    assert forall c :: c in ids <==> c == ids[0] || c in ids[1..];
  }

  lemma {:induction false} CountIsSet(ids: seq<ClientId>, clients: map<ClientId, Client>, target: int)
    requires Distinct(ids) && forall c | c in ids :: c in clients
    ensures CountAcks(ids, clients, target) == |AckedSet(ids, clients, target)|
    decreases |ids|
  {
    if ids == [] {
      assert AckedSet(ids, clients, target) == {};
    } else {
      hide AckedSet, Distinct;
      AckedCons(ids, clients, target);
      CountIsSet(ids[1..], clients, target);
    }
  }

  lemma CountedAcks(s: State, target: int)
    requires Listed(s)
    ensures CaughtUp(s, target) == |set c | c in AcksOf(s) && AcksOf(s)[c] >= target|
  {
    hide CountAcks;
    CountIsSet(s.replicas, s.clients, target);
    assert (set c | c in AcksOf(s) && AcksOf(s)[c] >= target) == AckedSet(s.replicas, s.clients, target);
  }

  ghost function Elements(ids: seq<ClientId>): set<ClientId> { set c | c in ids }

  lemma {:induction false} SeqSize(ids: seq<ClientId>)
    requires Distinct(ids)
    ensures |Elements(ids)| == |ids|
    decreases |ids|
  {
    if ids == [] {
      assert Elements(ids) == {};
    } else {
      var rest := ids[1..];
      assert Distinct(rest) && ids[0] !in rest;
      SeqSize(rest);
      assert forall c :: c in ids <==> c == ids[0] || c in rest;
      assert Elements(ids) == Elements(rest) + {ids[0]};
    }
  }

  lemma AllAcks(s: State)
    requires Listed(s)
    ensures |AcksOf(s)| == |s.replicas| && (AcksOf(s) == map[] <==> s.replicas == [])
  {
    SeqSize(s.replicas);
    assert AcksOf(s).Keys == Elements(s.replicas);
    assert s.replicas != [] ==> s.replicas[0] in AcksOf(s);
  }

  ghost predicate Honest(h: History) { forall i | 0 <= i < |h.answers| :: HonestAnswer(h.answers[i]) }

  ghost predicate WaitsKept(w: World) { Short(w.s) && Conserved(w) && Honest(w.h) }

  // ---- counting acknowledgements ----

  lemma {:induction false} CountSame(ids: seq<ClientId>, a: map<ClientId, Client>, b: map<ClientId, Client>,
                                     target: int)
    requires forall c | c in ids :: (c in a <==> c in b) && (c in a ==> a[c].ack == b[c].ack)
    ensures CountAcks(ids, a, target) == CountAcks(ids, b, target)
    decreases |ids|
  {
    if ids != [] { CountSame(ids[1..], a, b, target); }
  }

  lemma {:induction false} CountAppend(ids: seq<ClientId>, c: ClientId, clients: map<ClientId, Client>, target: int)
    requires c in clients && clients[c].ack < target
    ensures CountAcks(ids + [c], clients, target) == CountAcks(ids, clients, target)
    decreases |ids|
  {
    if ids == [] {
      assert ids + [c] == [c];
    } else {
      assert (ids + [c])[1..] == ids[1..] + [c];
      CountAppend(ids[1..], c, clients, target);
    }
  }

  lemma {:induction false} CountRemove(ids: seq<ClientId>, c: ClientId, clients: map<ClientId, Client>, target: int)
    ensures CountAcks(Remove(ids, c), clients - {c}, target) <= CountAcks(ids, clients, target)
    decreases |ids|
  {
    if ids != [] {
      CountRemove(ids[1..], c, clients, target);
      var rest := Remove(ids[1..], c);
      if ids[0] != c { assert Remove(ids, c)[1..] == rest; } else { assert Remove(ids, c) == rest; }
    }
  }

  lemma SameCounts(s: State, t: State)
    requires Short(s) && t.replicas == s.replicas && SameButOutput(s.clients, t.clients)
    requires forall i | 0 <= i < |t.waits| :: t.waits[i] in s.waits
    ensures Short(t)
  {
    forall i | 0 <= i < |t.waits|
      ensures t.waits[i].target > 0 && CaughtUp(t, t.waits[i].target) < t.waits[i].needed
    {
      CountSame(s.replicas, s.clients, t.clients, t.waits[i].target);
    }
  }

  lemma AttachShort(s: State, c: ClientId, payload: string)
    requires Short(s) && Sane(s) && c in s.clients && s.clients[c].kind == Regular
    ensures Short(Attach(s, c, payload))
  {
    var t := Attach(s, c, payload);
    forall i | 0 <= i < |t.waits|
      ensures CaughtUp(t, t.waits[i].target) < t.waits[i].needed
    {
      CountAppend(s.replicas, c, t.clients, t.waits[i].target);
      CountSame(s.replicas, s.clients, t.clients, t.waits[i].target);
    }
  }

  lemma RemoveShort(s: State, c: ClientId)
    requires Short(s)
    ensures Short(RemoveClient(s, c))
  {
    hide Remove, DropWaits, CountAcks;
    var t := RemoveClient(s, c);
    DropWaitsLeft(s.waits, c);
    forall i | 0 <= i < |t.waits|
      ensures t.waits[i].target > 0 && CaughtUp(t, t.waits[i].target) < t.waits[i].needed
    {
      CountRemove(s.replicas, c, s.clients, t.waits[i].target);
    }
  }

  lemma ParkShort(s: State, w: Wait)
    requires Short(s) && w.target > 0 && CaughtUp(s, w.target) < w.needed
    ensures Short(Park(s, w))
  {
    hide CountAcks, Resp.Encode;
  }

  /** After an ACK the whole list is looked at again, so only the targets need to be positive before. */
  lemma AcksShort(s: State)
    requires PositiveTargets(s.waits)
    ensures Short(Settle(s, Acks))
  {
    hide CountAcks, StillParked, Told;
    var t := Settle(s, Acks);
    StillParkedSubset(s, s.waits, Acks);
    ToldSame(s, s.waits, Acks, s.clients);
    forall i | 0 <= i < |t.waits|
      ensures t.waits[i].target > 0 && CaughtUp(t, t.waits[i].target) < t.waits[i].needed
    {
      assert t.waits[i] in s.waits && !Due(s, t.waits[i], Acks);
      CountSame(s.replicas, s.clients, t.clients, t.waits[i].target);
    }
  }

  lemma SettleShort(s: State, cause: Cause)
    requires Short(s)
    ensures Short(Settle(s, cause))
  {
    hide CountAcks, StillParked, Told, Due, Short;
    StillParkedSubset(s, s.waits, cause);
    ToldSame(s, s.waits, cause, s.clients);
    SameCounts(s, Settle(s, cause));
  }

  // ---- conservation ----

  lemma {:induction false} SettleHonest(s: State, ws: seq<Wait>, cause: Cause)
    requires Listed(s)
    ensures forall i | 0 <= i < |Answered(s, ws, cause)| :: HonestAnswer(Answered(s, ws, cause)[i])
    decreases |ws|
  {
    hide CaughtUp, AcksOf, Listed;
    if ws != [] {
      SettleHonest(s, ws[1..], cause);
      CountedAcks(s, ws[0].target);
    }
  }

  lemma {:induction false} SettleSplits(s: State, ws: seq<Wait>, cause: Cause)
    ensures multiset(ws) == multiset(StillParked(s, ws, cause)) + multiset(WaitsOf(Answered(s, ws, cause)))
    decreases |ws|
  {
    hide CaughtUp, Due, WaitsOf, StillParked, Answered;
    SettleCons(s, ws, cause);
    if ws == [] {
      NoWaits();
    } else {
      var x, kept, gone := ws[0], StillParked(s, ws[1..], cause), Answered(s, ws[1..], cause);
      SettleSplits(s, ws[1..], cause);
      SplitOne(x, ws[1..], kept, WaitsOf(gone));
      assert ws == [x] + ws[1..];
      if Due(s, x, cause) {
        var a := Answer(x, CaughtUp(s, x.target), Settled(cause), AcksOf(s));
        WaitsOfAppend([a], gone);
        OneWait(a);
      }
    }
  }

  lemma SettleCons(s: State, ws: seq<Wait>, cause: Cause)
    ensures ws == [] ==> StillParked(s, ws, cause) == [] && Answered(s, ws, cause) == []
    ensures ws != [] ==>
      var kept, gone := StillParked(s, ws[1..], cause), Answered(s, ws[1..], cause);
      if Due(s, ws[0], cause)
      then StillParked(s, ws, cause) == kept
        && Answered(s, ws, cause) == [Answer(ws[0], CaughtUp(s, ws[0].target), Settled(cause), AcksOf(s))] + gone
      else StillParked(s, ws, cause) == [ws[0]] + kept && Answered(s, ws, cause) == gone
  {
    hide CaughtUp, Due;
  }

  lemma SplitOne(x: Wait, ws: seq<Wait>, kept: seq<Wait>, gone: seq<Wait>)
    requires multiset(ws) == multiset(kept) + multiset(gone)
    ensures multiset([x] + ws) == multiset([x] + kept) + multiset(gone) == multiset(kept) + multiset([x] + gone)
  {
  }

  lemma NoWaits()
    ensures WaitsOf([]) == []
  {
  }

  lemma OneWait(a: Answer)
    ensures WaitsOf([a]) == [a.wait]
  {
  }

  lemma {:induction false} RemoveSplits(ws: seq<Wait>, c: ClientId)
    ensures multiset(ws) == multiset(DropWaits(ws, c)) + multiset(DroppedBy(ws, c))
    decreases |ws|
  {
    if ws != [] {
      RemoveSplits(ws[1..], c);
      assert ws == [ws[0]] + ws[1..];
    }
  }

  lemma WaitsOfAppend(a: seq<Answer>, b: seq<Answer>)
    ensures WaitsOf(a + b) == WaitsOf(a) + WaitsOf(b)
  {
  }

  lemma SettleConserves(w: World, cause: Cause)
    requires Conserved(w) && Honest(w.h) && Listed(w.s)
    ensures Conserved(DoSettle(w, cause)) && Honest(DoSettle(w, cause).h)
  {
    hide StillParked, Answered, WaitsOf, Told;
    SettleSplits(w.s, w.s.waits, cause);
    SettleHonest(w.s, w.s.waits, cause);
    WaitsOfAppend(w.h.answers, Answered(w.s, w.s.waits, cause));
  }

  lemma RemoveConserves(w: World, c: ClientId)
    requires Conserved(w) && Honest(w.h)
    ensures Conserved(DoRemove(w, c)) && Honest(DoRemove(w, c).h)
  {
    hide DropWaits, DroppedBy, Remove, WaitsOf;
    RemoveSplits(w.s.waits, c);
  }

  /** Only the parts a WAIT depends on matter. */
  lemma SameWaits(w: World, t: World)
    requires WaitsKept(w)
    requires t.s.waits == w.s.waits && t.s.replicas == w.s.replicas && SameButOutput(w.s.clients, t.s.clients)
    requires t.h.accepted == w.h.accepted && t.h.answers == w.h.answers && t.h.dropped == w.h.dropped
    ensures WaitsKept(t)
  {
    hide CaughtUp, WaitsOf, HonestAnswer;
    SameCounts(w.s, t.s);
  }

  lemma SettleKept(w: World, cause: Cause)
    requires WaitsKept(w) && Listed(w.s)
    ensures WaitsKept(DoSettle(w, cause))
  {
    hide Short, Conserved, Honest, Listed;
    SettleShort(w.s, cause);
    SettleConserves(w, cause);
  }

  lemma RemoveKept(w: World, c: ClientId)
    requires WaitsKept(w)
    ensures WaitsKept(DoRemove(w, c))
  {
    hide Short, Conserved, Honest;
    RemoveShort(w.s, c);
    RemoveConserves(w, c);
  }

  lemma {:induction false} RemoveAllKept(w: World, ids: seq<ClientId>)
    requires WaitsKept(w)
    ensures WaitsKept(DoRemoveAll(w, ids))
    decreases |ids|
  {
    hide WaitsKept, DoRemove;
    if ids != [] {
      RemoveKept(w, ids[0]);
      RemoveAllKept(DoRemove(w, ids[0]), ids[1..]);
    }
  }

  lemma AttachKept(w: World, c: ClientId, a: Attachment)
    requires WaitsKept(w) && Sane(w.s) && c in w.s.clients && w.s.clients[c].kind == Regular
    ensures WaitsKept(DoAttach(w, c, a))
  {
    hide Short, HonestAnswer, WaitsOf, Sane;
    AttachShort(w.s, c, a.payload);
  }

  lemma ParkKept(w: World, wait: Wait)
    requires WaitsKept(w) && wait.target > 0 && CaughtUp(w.s, wait.target) < wait.needed
    ensures WaitsKept(DoPark(w, wait))
  {
    hide Short, HonestAnswer, WaitsOf, CaughtUp, Propagate;
    ParkShort(w.s, wait);
    PropagateWaits(w.s, Resp.Encode(GETACK));
  }

  lemma PropagateWaits(s: State, data: string)
    ensures Propagate(s, data).waits == s.waits
  {
  }

  lemma AnswerKept(w: World, wait: Wait, count: int)
    requires WaitsKept(w) && Listed(w.s) && wait.target == w.s.offset && Immediate(w.s, wait.needed) == Some(count)
    ensures WaitsKept(DoAnswer(w, wait, count))
  {
    hide CaughtUp, WaitsOf, AcksOf, Listed;
    var t := DoAnswer(w, wait, count);
    SameCounts(w.s, t.s);
    CountedAcks(w.s, w.s.offset);
    AllAcks(w.s);
    WaitsOfAppend(w.h.answers, [Answer(wait, count, AtOnce, AcksOf(w.s))]);
    OneWait(Answer(wait, count, AtOnce, AcksOf(w.s)));
  }

  lemma SayKept(w: World, c: ClientId, text: string)
    requires WaitsKept(w)
    ensures WaitsKept(DoSay(w, c, text))
  {
    hide WaitsKept;
    SameWaits(w, DoSay(w, c, text));
  }

  lemma WaitKept(w: World, c: ClientId, args: Command, now: int)
    requires WaitsKept(w) && Sane(w.s) && c in w.s.clients
    ensures WaitsKept(DoWait(w, c, args, now))
  {
    hide WaitsKept, DoAnswer, DoPark, DoSay, Stoi, Stoll, CaughtUp;
    if |args| >= 3 {
      if Stoi(args[1]).None? || Stoll(args[2]).None? {
        SayKept(w, c, NOT_AN_INTEGER);
      } else {
        var wait := Asked(args, c, w.s, now);
        match Immediate(w.s, Stoi(args[1]).value)
        case Some(count) => AnswerKept(w, wait, count);
        case None => ParkKept(w, wait);
      }
    }
  }

  lemma WriteKept(w: World, args: Command, now: int, byClient: bool)
    requires WaitsKept(w)
    ensures WaitsKept(DoWrite(w, args, now, byClient))
  {
    hide WaitsKept, Effect, Resp.Encode;
    SameWaits(w, DoWrite(w, args, now, byClient));
  }

  lemma {:induction false} DelsKept(w: World, keys: seq<string>, now: int)
    requires WaitsKept(w)
    ensures WaitsKept(DoDels(w, keys, now))
    decreases |keys|
  {
    hide WaitsKept, DoWrite;
    if keys != [] {
      WriteKept(w, ["DEL", keys[0]], now, false);
      DelsKept(DoWrite(w, ["DEL", keys[0]], now, false), keys[1..], now);
    }
  }

  // ---- the answers are what the clients are told ----

  /** The text the answers put into the buffer of client `c`. */
  function TextFor(c: ClientId, answers: seq<Answer>): string {
    if answers == [] then "" else
    (if answers[0].wait.client == c then Number(answers[0].count) else "") + TextFor(c, answers[1..])
  }

  /** Settling appends to each client's output exactly its own answers, in order. */
  lemma {:induction false} AnswersAreTold(s: State, ws: seq<Wait>, cause: Cause, clients: map<ClientId, Client>,
                                          c: ClientId)
    requires c in clients
    ensures c in Told(s, ws, cause, clients)
    ensures Told(s, ws, cause, clients)[c].out == clients[c].out + TextFor(c, Answered(s, ws, cause))
    decreases |ws|
  {
    hide Due, CaughtUp, Number;
    if ws == [] {
      assert clients[c].out + "" == clients[c].out;
    } else {
      var w := ws[0];
      var next := if Due(s, w, cause) then Tell(clients, w.client, Number(CaughtUp(s, w.target))) else clients;
      AnswersAreTold(s, ws[1..], cause, next, c);
      ToldSame(s, ws[1..], cause, next);
      SettleCons(s, ws, cause);
      if Due(s, w, cause) {
        var gone := Answered(s, ws[1..], cause);
        var a := Answer(w, CaughtUp(s, w.target), Settled(cause), AcksOf(s));
        assert ([a] + gone)[1..] == gone;
      }
    }
  }

  // ---- role changes and whole steps ----

  lemma DropMasterKept(w: World)
    requires WaitsKept(w)
    ensures WaitsKept(DoDropMaster(w))
  {
    hide WaitsKept, DoRemove;
    if w.s.master.Some? { RemoveKept(w, w.s.master.value); }
  }

  /** With nothing parked, only the books have to balance. */
  lemma NothingParked(w: World, t: World)
    requires Conserved(w) && Honest(w.h) && w.s.waits == [] && t.s.waits == []
    requires t.h.accepted == w.h.accepted && t.h.answers == w.h.answers && t.h.dropped == w.h.dropped
    ensures WaitsKept(t)
  {
  }

  lemma PromoteKept(w: World, freshId: string)
    requires WaitsKept(w) && Sane(w.s) && w.s.info.role == Worker
    ensures WaitsKept(DoPromote(w, freshId))
  {
    hide DoDropMaster, DropMaster, Sane;
    DropMasterKept(w);
    DropMasterSane(w.s);
    WorkerParksNothing(w.s);
    DropMasterState(w);
    NothingParked(DoDropMaster(w), DoPromote(w, freshId));
  }

  lemma WorkerParksNothing(s: State)
    requires Sane(s) && s.info.role == Worker
    ensures s.waits == []
  {
  }

  lemma DropMasterState(w: World)
    ensures DoDropMaster(w).s == DropMaster(w.s)
  {
  }

  lemma StepDownState(w: World)
    ensures DoStepDown(w).s == StepDown(w.s)
  {
    RemoveAllState(DoSettle(w, RoleChange), w.s.replicas);
  }

  lemma StepDownBooks(w: World)
    requires WaitsKept(w) && Listed(w.s)
    ensures Conserved(DoStepDown(w)) && Honest(DoStepDown(w).h)
  {
    hide DoSettle, DoRemoveAll, Short, HonestAnswer, WaitsOf;
    if w.s.info.role == Master {
      SettleKept(w, RoleChange);
      RemoveAllKept(DoSettle(w, RoleChange), w.s.replicas);
    }
  }

  lemma FollowKept(w: World, c: ClientId, host: string, port: int, sync: Handshake)
    requires WaitsKept(w) && Sane(w.s) && GoodSync(w.s, sync)
    ensures WaitsKept(DoFollow(w, c, host, port, sync))
  {
    hide DoStepDown, StepDown, DropMaster, WaitsKept, Conserved, Honest, Sane, Leaving, BecomeWorker, GoodSync;
    var t := DoStepDown(w);
    SaneListed(w.s);
    StepDownBooks(w);
    StepDownState(w);
    StepDownLeaving(w.s);
    LeavingParksNothing(t.s);
    LeavingDropMaster(t.s);
    LeavingParksNothing(DropMaster(t.s));
    DropMasterState(t);
    NothingParked(t, t);
    DropMasterKept(t);
    KeptBooks(DoDropMaster(t));
    BecomeWorkerWaits(DropMaster(t.s), c, host, port, sync);
    NothingParked(DoDropMaster(t), DoFollow(w, c, host, port, sync));
  }

  lemma KeptBooks(w: World)
    requires WaitsKept(w)
    ensures Conserved(w) && Honest(w.h)
  {
  }

  lemma LeavingParksNothing(s: State)
    requires Leaving(s)
    ensures s.waits == []
  {
  }

  lemma BecomeWorkerWaits(t: State, c: ClientId, host: string, port: int, sync: Handshake)
    ensures BecomeWorker(t, c, host, port, sync).waits == t.waits
  {
  }

  lemma ReplicaofKept(w: World, c: ClientId, args: Command, env: Env)
    requires WaitsKept(w) && Sane(w.s) && (Refollows(w.s, args) ==> GoodSync(w.s, env.sync))
    ensures WaitsKept(DoReplicaof(w, c, args, env))
  {
    hide WaitsKept, Sane, GoodSync, DoSay, DoPromote, DoFollow, Stoi, IsNoOne;
    SayKept(w, c, "+OK\r\n");
    SayKept(w, c, BAD_PORT);
    SayKept(w, c, "+OK Already connected to specified master\r\n");
    if w.s.info.role == Worker {
      PromoteKept(w, env.freshId);
      SayKept(DoPromote(w, env.freshId), c, "+OK\r\n");
    }
    if Refollows(w.s, args) { FollowKept(w, c, args[1], Stoi(args[2]).value, env.sync); }
  }

  lemma QuietKept(w: World, c: ClientId, m: Data, reply: string)
    requires WaitsKept(w)
    ensures WaitsKept(w.(s := Say(w.s.(store := m), c, reply)))
  {
    hide WaitsKept;
    SameWaits(w, w.(s := Say(w.s.(store := m), c, reply)));
  }

  lemma RegularKept(w: World, c: ClientId, args: Command, env: Env)
    requires WaitsKept(w) && Sane(w.s) && c in w.s.clients && w.s.clients[c].kind == Regular
    requires Orders(env.order, w.s.store.Keys)
    requires w.s.info.role == Worker ==> !IsWrite(Name(args))
    requires Follows(w.s, args) ==> GoodSync(w.s, env.sync)
    ensures WaitsKept(DoRegular(w, c, args, env))
  {
    hide WaitsKept, Sane, GoodSync, Reply, Refollows, ReplicaofReply, ToUpper, IsWrite, Executed, Say, DoSay, DoWait,
         DoReplicaof, DoAttach, DoWrite, PsyncAttachment;
    var reply := Reply(args, w.s.store, w.s.info, false, env.now);
    if Name(args) == "WAIT" && reply == "" {
      WaitKept(w, c, args, env.now);
    } else if Name(args) == "REPLICAOF" && reply == "" {
      ServerCommand(args, w.s.store, w.s.info, false, env.now);
      ReplicaofKept(w, c, args, env);
    } else if Name(args) == "PSYNC" && reply == "" {
      AttachKept(w, c, PsyncAttachment(w, args, env.order, env.at));
    } else if IsWrite(Name(args)) {
      SayKept(w, c, reply);
      WriteKept(DoSay(w, c, reply), args, env.now, true);
    } else {
      QuietKept(w, c, Executed(args, w.s.store, w.s.info, false, env.now), reply);
    }
  }

  lemma AckKept(w: World, c: ClientId, m: Data, ack: int)
    requires WaitsKept(w) && Listed(w.s) && c in w.s.clients
    ensures var s := w.s.(store := m, clients := w.s.clients[c := w.s.clients[c].(ack := ack)]);
            WaitsKept(DoSettle(w.(s := s), Acks))
  {
    hide CaughtUp, HonestAnswer, WaitsOf, Settle, Answered;
    var s := w.s.(store := m, clients := w.s.clients[c := w.s.clients[c].(ack := ack)]);
    AcksShort(s);
    SettleConserves(w.(s := s), Acks);
  }

  lemma ReplicaKept(w: World, c: ClientId, args: Command, now: int)
    requires WaitsKept(w) && Listed(w.s) && c in w.s.clients
    ensures WaitsKept(DoReplica(w, c, args, now))
  {
    hide WaitsKept, Executed, DoSettle, Stoll, ToUpper;
    var m := Executed(args, w.s.store, w.s.info, false, now);
    if IsAck(args) && Stoll(args[2]).Some? {
      AckKept(w, c, m, Stoll(args[2]).value);
    } else {
      SameWaits(w, DoReplica(w, c, args, now));
    }
  }

  lemma AcceptKept(w: World, c: ClientId)
    requires WaitsKept(w) && Sane(w.s) && c !in w.s.clients
    ensures WaitsKept(w.(s := w.s.(clients := w.s.clients[c := Client(Regular, "", 0)])))
  {
    hide HonestAnswer, WaitsOf, CountAcks;
    var t := w.s.(clients := w.s.clients[c := Client(Regular, "", 0)]);
    forall i | 0 <= i < |t.waits|
      ensures CaughtUp(t, t.waits[i].target) < t.waits[i].needed
    {
      CountSame(w.s.replicas, w.s.clients, t.clients, t.waits[i].target);
    }
  }

  lemma SaneListed(s: State)
    requires Sane(s)
    ensures Listed(s)
  {
  }

  /** WAIT safety survives every proper step. */
  lemma NextKept(w: World, e: Event)
    requires WaitsKept(w) && Sane(w.s) && Enabled(w.s, e) && Proper(w.s, e)
    ensures WaitsKept(Next(w, e))
  {
    hide WaitsKept, Sane, GoodSync, Follows, IsWrite, DoRegular, DoReplica, DoRemove, DoSettle, DoDels, Sweepable,
         Executed, Reply, IsGetAck, Orders, Resp.Fits;
    SaneListed(w.s);
    match e
    case Accept(c) => AcceptKept(w, c);
    case Parsed(c, args, consumed, env) =>
      match w.s.clients[c].kind {
        case Regular => RegularKept(w, c, args, env);
        case Replica => ReplicaKept(w, c, args, env.now);
        case MasterConn => SameWaits(w, Next(w, e));
      }
    case Disconnect(c) => RemoveKept(w, c);
    case Timeouts(now) => SettleKept(w, Clock(now));
    case SweepTick(victims, now) => DelsKept(w, victims, now);
    case _ => SameWaits(w, Next(w, e));
  }
}
