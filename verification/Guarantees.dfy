/** What the invariants say about every state a proper run leads to, on the master's side. */
module Guarantees {
  import opened Text
  import opened KeyStore
  import opened Commands
  import opened Replication
  import opened Membership
  import opened Waiting
  import opened Streams
  import opened Books
  import opened Runs
  import opened Safety
  import opened Backlog
  import Rdb
  import Resp

  // ---- the gap-free stream ----

  /** The bytes replayed at attach time. */
  function Replayed(a: Attachment): string { if a.sync.Partial? then a.sync.replay else "" }

  lemma AttachedStream(t: Term, a: Attachment, q: Queue)
    requires AttachedOk(t, a, q)
    ensures var stream := Resp.EncodeAll(LogCmds(t.log));
      && t.base <= a.from <= t.base + |stream|
      && Replayed(a) + Resp.EncodeAll(Writes(a.frames)) == stream[a.from - t.base..]
  {
    hide LogCmds, Writes, TargetsOk, Replay, Rdb.Serialized, Resp.EncodeAll;
    WholeStream(t, a);
    var before := StreamTo(t, a.start);
    var since := Resp.EncodeAll(Writes(a.frames));
    assert (before + since)[a.from - t.base..] == before[a.from - t.base..] + since;
  }

  /** The sync payload announces `from` and a snapshot of the store at log position `start`, or carries the replay. */
  ghost predicate Announces(t: Term, a: Attachment) {
    match a.sync
    case Partial(replay) => a.payload == ContinuePayload(t.replid, replay)
    case Full(order, at) =>
      && a.start <= |t.log|
      && var m := Replay(t.initial, t.log[..a.start]);
      Orders(order, m.Keys) && a.payload == FullPayload(t.replid, a.from, Rdb.Serialized(order, m, at))
  }

  /** In every run, for every replica attached in the term and not hit by a send error: what was sent, is being
      drained and is pending is the sync payload followed by the frames since; the payload carries the replay, or
      announces the offset and the snapshot; without the GETACKs, what is replayed and propagated is exactly the byte
      stream of the term from the replica's offset on. */
  lemma GapFree(w: World, c: ClientId)
    requires Reached(w) && w.s.info.role == Master && c in w.h.attached
    ensures var a := w.h.attached[c];
      && c in w.s.queues
      && (!a.broken ==> a.sent + w.s.queues[c].draining + w.s.queues[c].pending == a.payload + FrameBytes(a.frames))
      && Announces(TermOf(w), a)
      && var stream := Resp.EncodeAll(LogCmds(w.h.log));
      && Tracks(w.s.backlog, TermBase(w), stream)
      && TermBase(w) <= a.from <= w.s.offset
      && Replayed(a) + Resp.EncodeAll(Writes(a.frames)) == stream[a.from - TermBase(w)..]
  {
    hide Reached, Inv, Tracks, AttachedOk, Announces, FrameBytes, Writes, LogCmds, Resp.EncodeAll;
    ReachedInv(w);
    AttachedNow(w, c);
    DeliveredNow(TermOf(w), w.h.attached[c], w.s.queues[c]);
    AttachedStream(TermOf(w), w.h.attached[c], w.s.queues[c]);
  }

  /** What the invariant says about one attached replica. */
  lemma AttachedNow(w: World, c: ClientId)
    requires Inv(w) && w.s.info.role == Master && c in w.h.attached
    ensures c in w.s.queues && AttachedOk(TermOf(w), w.h.attached[c], w.s.queues[c])
    ensures Tracks(w.s.backlog, TermBase(w), Resp.EncodeAll(LogCmds(w.h.log))) && w.s.offset == w.s.backlog.end
    ensures w.s.store == Replay(w.h.initial, w.h.log) && LogOk(w.h.log)
  {
    hide AttachedOk, Tracks, WaitsKept, Booked, Members, WaitersLive, Replay, LogCmds, LogOk, Resp.EncodeAll, KeysFit;
  }

  lemma DeliveredNow(t: Term, a: Attachment, q: Queue)
    requires AttachedOk(t, a, q)
    ensures !a.broken ==> a.sent + q.draining + q.pending == a.payload + FrameBytes(a.frames)
    ensures Announces(t, a)
  {
    hide TargetsOk, Writes, LogCmds, FrameBytes, Resp.EncodeAll, Replay, Rdb.Serialized, Orders;
  }

  // ---- membership and WAIT, over every run ----

  /** `run` can happen from `s`, step after step, whatever the clients send and however handshakes end. */
  ghost predicate AnyRun(s: State, run: seq<Event>)
    decreases |run|
  {
    run == [] || (Enabled(s, run[0]) && FreshConn(s, run[0]) && AnyRun(Step(s, run[0]), run[1..]))
  }

  ghost function AfterAny(s: State, run: seq<Event>): State
    requires AnyRun(s, run)
    decreases |run|
  {
    if run == [] then s else AfterAny(Step(s, run[0]), run[1..])
  }

  lemma {:induction false} AnyRunStructure(s: State, run: seq<Event>)
    requires Structure(s) && AnyRun(s, run)
    ensures Structure(AfterAny(s, run))
    decreases |run|
  {
    hide Structure, Step, Enabled, FreshConn;
    if run != [] {
      StepSane(s, run[0]);
      AnyRunStructure(Step(s, run[0]), run[1..]);
    }
  }

  /** After every run from startup, proper or not, `replicas_` has no duplicates, equals the key set of the queues and
      the clients tagged REPLICA, and every parked WAIT belongs to a connected client. */
  lemma MembershipInvariant(start: World, run: seq<Event>)
    requires Start(start) && AnyRun(start.s, run)
    ensures var s := AfterAny(start.s, run);
      && (forall i, j | 0 <= i < j < |s.replicas| :: s.replicas[i] != s.replicas[j])
      && (forall c :: c in s.replicas <==> c in s.queues)
      && (forall c :: c in s.replicas <==> c in s.clients && s.clients[c].kind == Replica)
      && (forall i | 0 <= i < |s.waits| :: s.waits[i].client in s.clients)
  {
    hide AnyRun, AfterAny, Start, WaitsKept, StreamsOk, Booked, Offsets;
    StartInv(start);
    AnyRunStructure(start.s, run);
  }

  /** Between events every parked WAIT has a positive target that fewer than `needed` replicas have reached; every
      accepted WAIT is answered once, parked, or dropped with its client; and an answer given on an acknowledgement
      reports at least `needed`, one given by the clock is not early. */
  lemma WaitSafety(w: World)
    requires Reached(w)
    ensures
      && (forall i | 0 <= i < |w.s.waits| ::
            w.s.waits[i].target > 0 && CaughtUp(w.s, w.s.waits[i].target) < w.s.waits[i].needed)
      && w.h.accepted == multiset(WaitsOf(w.h.answers)) + w.h.dropped + multiset(w.s.waits)
      && (forall i | 0 <= i < |w.h.answers| :: HonestAnswer(w.h.answers[i]))
  {
    hide Reached, Sane, StreamsOk, Booked, CaughtUp, WaitsOf, HonestAnswer;
    ReachedInv(w);
  }

  // ---- the offset INFO and ROLE report ----

  lemma {:induction false} LastClientIs(log: seq<Logged>)
    ensures var n := LastClient(log);
      (n > 0 ==> log[n - 1].byClient) && forall i | n <= i < |log| :: !log[i].byClient
    decreases |log|
  {
    if log != [] && !log[|log| - 1].byClient { LastClientIs(log[..|log| - 1]); }
  }

  lemma EncodedGrows(log: seq<Logged>, n: nat)
    requires n <= |log|
    ensures |Resp.EncodeAll(LogCmds(log[..n]))| <= |Resp.EncodeAll(LogCmds(log))|
    ensures |Resp.EncodeAll(LogCmds(log[..n]))| == |Resp.EncodeAll(LogCmds(log))| ==> n == |log|
  {
    hide Resp.Encode;
    var rest := LogCmds(log[n..]);
    assert LogCmds(log) == LogCmds(log[..n]) + rest;
    Resp.EncodeAllAppend(LogCmds(log[..n]), rest);
    if n < |log| { Resp.NonEmpty(rest[0]); }
  }

  /** In every state of a master term, INFO reports the offset behind the last write of a client, or the one the term
      began with. That is the replication offset exactly when the sweep has published no DEL since. */
  lemma ReportedOffset(w: World)
    requires Reached(w) && w.s.info.role == Master
    ensures var n := LastClient(w.h.log);
      && w.s.info.offset == TermBase(w) + |Resp.EncodeAll(LogCmds(w.h.log[..n]))|
      && (n > 0 ==> w.h.log[n - 1].byClient) && (forall i | n <= i < |w.h.log| :: !w.h.log[i].byClient)
      && (w.s.info.offset == w.s.offset <==> n == |w.h.log|)
  {
    hide Reached, Inv, LogCmds, Resp.EncodeAll, LastClient;
    ReachedInv(w);
    var n := LastClient(w.h.log);
    LastClientIs(w.h.log);
    EncodedGrows(w.h.log, n);
    ReportedNow(w);
    assert n == |w.h.log| ==> w.h.log[..n] == w.h.log;
  }

  lemma ReportedNow(w: World)
    requires Inv(w) && w.s.info.role == Master
    ensures Reported(w) && Covered(w)
  {
    hide AllAttachedOk, AllAsked, Covered, Reported, WaitsKept, Members, WaitersLive, Replay, LogCmds, LogOk,
         Resp.EncodeAll, KeysFit;
  }

  // ---- partial resync after a promotion ----

  ghost predicate SameIdentity(a: State, b: State) {
    && a.info.role == b.info.role && a.info.replid == b.info.replid && a.info.replid2 == b.info.replid2
    && a.info.secondOffset == b.info.secondOffset && a.backlog.capacity == b.backlog.capacity
  }

  lemma PublishIdentity(s: State, args: Command, byClient: bool)
    ensures SameIdentity(s, Publish(s, args, byClient))
  {
    hide Resp.Encode;
  }

  lemma {:induction false} DelsIdentity(s: State, keys: seq<string>)
    ensures SameIdentity(s, PublishDels(s, keys))
    decreases |keys|
  {
    hide Publish;
    if keys != [] {
      PublishIdentity(s, ["DEL", keys[0]], false);
      DelsIdentity(Publish(s, ["DEL", keys[0]], false), keys[1..]);
    }
  }

  lemma RegularIdentity(s: State, c: ClientId, args: Command, env: Env)
    requires Orders(env.order, s.store.Keys) && !Moves(s, args)
    ensures SameIdentity(s, RegularCommand(s, c, args, env))
  {
    hide Reply, ToUpper, IsWrite, Executed, HandleWait, HandlePsync, HandleReplicaof, Publish, Moves, ReplicaofReply;
    StayingInfo(s, c, args, env);
    WaitInfo(s, c, args, env.now);
    PsyncInfo(s, c, args, env.order, env.at);
    PublishIdentity(Say(s.(store := Executed(args, s.store, s.info, false, env.now)), c,
                        Reply(args, s.store, s.info, false, env.now)), args, true);
  }

  /** A REPLICAOF that is handed over and does not move the server only answers. */
  lemma StayingInfo(s: State, c: ClientId, args: Command, env: Env)
    requires !Moves(s, args)
    ensures Name(args) == "REPLICAOF" && Reply(args, s.store, s.info, false, env.now) == "" ==>
      HandleReplicaof(s, c, args, env) == Say(s, c, StayReply(args))
  {
    hide Reply, Moves, ReplicaofReply, HandleReplicaof;
    if Name(args) == "REPLICAOF" && Reply(args, s.store, s.info, false, env.now) == "" {
      ServerCommand(args, s.store, s.info, false, env.now);
      ReplicaofSays(s, c, args, env);
    }
  }

  lemma StepIdentity(s: State, e: Event)
    requires Enabled(s, e) && !MovesOn(s, e)
    ensures SameIdentity(s, Step(s, e))
  {
    hide RegularCommand, Executed, Reply, Moves, IsGetAck, Stoll, StillParked, Told, PublishDels, ToUpper, Orders,
         Resp.Fits, Sweepable;
    match e
    case SweepTick(victims, _) => DelsIdentity(s.(store := Without(s.store, victims)), victims);
    case Parsed(c, args, _, env) => if s.clients[c].kind == Regular { RegularIdentity(s, c, args, env); }
    case _ =>
  }

  lemma {:induction false} TermIdentity(w: World, run: seq<Event>)
    requires Inv(w) && ProperRun(w, run) && Steady(w, run)
    ensures SameIdentity(w.s, After(w, run).s) && Inv(After(w, run))
    decreases |run|
  {
    hide Inv, Next, Step, Enabled, Proper, MovesOn;
    if run != [] {
      NextInv(w, run[0]);
      StepIdentity(w.s, run[0]);
      TermIdentity(Next(w, run[0]), run[1..]);
    }
  }

  /** A promoted master continues the old id exactly at its promotion offset, while the backlog holds everything
      since. */
  lemma OldIdContinues(w: World, offset: int)
    requires Inv(w) && w.s.info.role == Master && w.s.info.secondOffset != -1
    requires w.s.info.replid2 != w.s.info.replid && w.s.info.replid2 != "?"
    ensures Continues(w.s, w.s.info.replid2, offset) <==>
      offset == w.s.info.secondOffset && |Resp.EncodeAll(LogCmds(w.h.log))| <= w.s.backlog.capacity
    ensures Continues(w.s, w.s.info.replid2, offset) ==> w.s.backlog.From(offset) == Resp.EncodeAll(LogCmds(w.h.log))
  {
    hide Members, WaitersLive, WaitsKept, Booked, Replay, LogCmds, Resp.EncodeAll, LogOk, AllAttachedOk, Tracks;
    var stream := Resp.EncodeAll(LogCmds(w.h.log));
    TracksReads(w.s.backlog, TermBase(w), stream);
    TracksEnd(w.s.backlog, TermBase(w), stream);
    assert stream[0..] == stream;
  }

  lemma PromoteFacts(w: World, c: ClientId, args: Command, env: Env)
    requires Sane(w.s) && w.s.info.role == Worker && Name(args) == "REPLICAOF" && IsNoOne(args) && |args| == 3
    requires Orders(env.order, w.s.store.Keys)
    ensures var t := DoRegular(w, c, args, env);
      && t.s.info.role == Master && t.s.info.replid == env.freshId && t.s.info.replid2 == w.s.info.replid
      && t.s.info.secondOffset == w.s.info.offset && t.s.backlog.capacity == w.s.backlog.capacity && t.h.log == []
      && t.h.inherited == (set r | r in w.s.replicas)
  {
    hide ToUpper, DropMaster, DoDropMaster, Orders;
    DropMasterFacts(w.s);
    DropMasterState(w);
    MasterIsNoReplica(w.s);
    assert Reply(args, w.s.store, w.s.info, false, env.now) == "" by { ReplicaofNotRefused(args, w.s, env.now); }
  }

  lemma MasterIsNoReplica(s: State)
    requires Sane(s)
    ensures (set r | r in DropMaster(s).replicas) == (set r | r in s.replicas)
  {
    hide Remove;
    if s.master.Some? { RemoveIds(s.replicas, s.master.value); }
  }

  lemma ReplicaofNotRefused(args: Command, s: State, now: int)
    requires Name(args) == "REPLICAOF" && IsNoOne(args) && |args| == 3
    ensures Reply(args, s.store, s.info, false, now) == ""
  {
    hide Stoi;
    assert ToUpper("REPLICAOF") == "REPLICAOF";
  }

  lemma SaneNow(w: World)
    requires Inv(w)
    ensures Sane(w.s) && w.s.info.offset >= 0
  {
  }

  /** `e` is a client's REPLICAOF NO ONE to a reachable worker. */
  ghost predicate Promotes(w: World, e: Event) {
    && Reached(w) && w.s.info.role == Worker && Enabled(w.s, e) && Proper(w.s, e)
    && e.Parsed? && w.s.clients[e.c].kind == Regular
    && Name(e.args) == "REPLICAOF" && IsNoOne(e.args) && |e.args| == 3
  }

  lemma Promoted(w: World, e: Event)
    requires Promotes(w, e)
    ensures var t := Next(w, e);
      && Inv(t) && t.s.info.role == Master && t.s.info.replid == e.env.freshId && t.s.info.replid2 == w.s.info.replid
      && t.s.info.secondOffset == w.s.info.offset >= 0 && t.s.backlog.capacity == w.s.backlog.capacity
      && t.h.log == [] && t.h.inherited == (set r | r in w.s.replicas)
  {
    hide Reached, Inv, Proper, DoRegular, ToUpper, Orders, Resp.Fits;
    ReachedInv(w);
    NextInv(w, e);
    SaneNow(w);
    PromoteFacts(w, e.c, e.args, e.env);
  }

  /** A worker is promoted with a fresh id and then serves as master for any run: in every state of that term a PSYNC
      with the old id is continued exactly when it asks for the promotion offset and at most `capacity` bytes were
      written since, and the replay is then all of those bytes. */
  lemma PromotionIdentity(w: World, e: Event, run: seq<Event>, offset: int)
    requires Promotes(w, e) && w.s.info.replid != "?" && e.env.freshId != w.s.info.replid
    requires ProperRun(Next(w, e), run) && Steady(Next(w, e), run)
    ensures var t := After(Next(w, e), run);
      && (Continues(t.s, w.s.info.replid, offset) <==>
            offset == w.s.info.offset && |Resp.EncodeAll(LogCmds(t.h.log))| <= w.s.backlog.capacity)
      && (Continues(t.s, w.s.info.replid, offset) ==> t.s.backlog.From(offset) == Resp.EncodeAll(LogCmds(t.h.log)))
  {
    hide Reached, Enabled, Proper, ToUpper, Next, Inv, ProperRun, After, Steady, Continues, LogCmds, Resp.EncodeAll;
    Promoted(w, e);
    TermIdentity(Next(w, e), run);
    OldIdContinues(After(Next(w, e), run), offset);
  }

  // ---- who the stream results are about ----

  /** `c` does not leave during the run. */
  ghost predicate Stays(run: seq<Event>, c: ClientId) {
    forall i | 0 <= i < |run| :: run[i] != Disconnect(c)
  }

  lemma StepInherited(w: World, e: Event, c: ClientId)
    requires Enabled(w.s, e) && !MovesOn(w.s, e)
    ensures c in Next(w, e).h.inherited <==> c in w.h.inherited && e != Disconnect(c)
  {
    hide RegularCommand, ReplicaCommand, StreamCommand, Settle, Answered, PublishDels, ToUpper, Orders, Resp.Fits,
         Reply, DroppedBy, RemoveClient, DoDels, PsyncAttachment, Stoi, Stoll, IsWrite, Park, Publish, Effect,
         Executed, Immediate, Moves, DoReplicaof;
    match e
    case SweepTick(victims, now) => DelsInherited(w, victims, now);
    case Parsed(d, args, _, env) =>
      if w.s.clients[d].kind == Regular && Name(args) == "REPLICAOF" { ReplicaofInherited(w, d, args, env); }
    case _ =>
  }

  lemma ReplicaofInherited(w: World, c: ClientId, args: Command, env: Env)
    requires Name(args) == "REPLICAOF" && !Moves(w.s, args)
    ensures Reply(args, w.s.store, w.s.info, false, env.now) == "" ==>
      DoReplicaof(w, c, args, env).h.inherited == w.h.inherited
  {
    hide Reply, Moves, ReplicaofReply, DoReplicaof;
    if Reply(args, w.s.store, w.s.info, false, env.now) == "" {
      ServerCommand(args, w.s.store, w.s.info, false, env.now);
      ReplicaofStays(w, c, args, env);
    }
  }

  lemma {:induction false} DelsInherited(w: World, keys: seq<string>, now: int)
    ensures DoDels(w, keys, now).h.inherited == w.h.inherited
    decreases |keys|
  {
    hide Publish, Effect;
    if keys != [] { DelsInherited(DoWrite(w, ["DEL", keys[0]], now, false), keys[1..], now); }
  }

  lemma {:induction false} RunInherited(w: World, run: seq<Event>, c: ClientId)
    requires Inv(w) && ProperRun(w, run) && Steady(w, run)
    ensures c in After(w, run).h.inherited <==> c in w.h.inherited && Stays(run, c)
    decreases |run|
  {
    hide Inv, Next, Step, Enabled, Proper, MovesOn;
    if run != [] {
      NextInv(w, run[0]);
      StepInherited(w, run[0], c);
      RunInherited(Next(w, run[0]), run[1..], c);
      assert Stays(run, c) <==> run[0] != Disconnect(c) && Stays(run[1..], c);
    }
  }

  /** In a term that began with the server's start, all replicas are attached ones: the stream results cover
      them all. */
  lemma AttachedFromStart(start: World, run: seq<Event>)
    requires Start(start) && start.s.info.role == Master && ProperRun(start, run) && Steady(start, run)
    ensures var t := After(start, run); forall c :: c in t.s.replicas <==> c in t.h.attached
  {
    hide Inv, ProperRun, After, Steady;
    StartInv(start);
    TermIdentity(start, run);
    ReportedNow(After(start, run));
    forall c
      ensures c !in After(start, run).h.inherited
    {
      RunInherited(start, run, c);
    }
  }

  /** After a promotion they lack exactly the replicas that had attached to the worker and have stayed since. */
  lemma AttachedAfterPromotion(w: World, e: Event, run: seq<Event>)
    requires Promotes(w, e) && ProperRun(Next(w, e), run) && Steady(Next(w, e), run)
    ensures var t := After(Next(w, e), run);
      && (forall r :: r in t.h.attached <==> r in t.s.replicas && !(r in w.s.replicas && Stays(run, r)))
      && (forall r | r in w.s.replicas && Stays(run, r) :: r in t.s.replicas)
  {
    hide Reached, Enabled, Proper, ToUpper, Next, Inv, ProperRun, After, Steady, Stays;
    Promoted(w, e);
    var start := Next(w, e);
    TermIdentity(start, run);
    var t := After(start, run);
    ReportedNow(t);
    forall r
      ensures r in t.h.inherited <==> r in w.s.replicas && Stays(run, r)
    {
      RunInherited(start, run, r);
    }
  }

  // ---- why the traffic has to be proper ----

  /** A client's write to a worker is refused, yet it is counted and published: unless the server moves to another
      master or is promoted, the replication offset a worker reports and acknowledges survives a client's command
      exactly when the command is not a write, or happens to bring the server's own counter to the very same value.
      The data is safe in any case. */
  lemma ReadOnlyWriteMovesOffset(s: State, c: ClientId, args: Command, env: Env)
    requires s.info.role == Worker && c in s.clients && Orders(env.order, s.store.Keys) && !Moves(s, args)
    ensures RegularCommand(s, c, args, env).info.offset == s.info.offset
       <==> !IsWrite(Name(args)) || s.offset + |Resp.Encode(args)| == s.info.offset
    ensures RegularCommand(s, c, args, env).store == s.store
  {
    hide Reply, ToUpper, Resp.Encode, IsWrite, HandleWait, HandlePsync, HandleReplicaof, Effect, Moves;
    WriteNames(args);
    StayingInfo(s, c, args, env);
    WaitInfo(s, c, args, env.now);
    PsyncInfo(s, c, args, env.order, env.at);
    if !IsWrite(Name(args)) { QuietCommand(args, s.store, s.info, false, env.now); }
  }

  lemma WriteNames(args: Command)
    ensures Name(args) == "WAIT" || Name(args) == "PSYNC" || Name(args) == "REPLICAOF" ==> !IsWrite(Name(args))
  {
    hide IsWrite, ToUpper;
    NotWrites();
  }

  lemma WaitInfo(s: State, c: ClientId, args: Command, now: int)
    ensures var t := HandleWait(s, c, args, now); t.info == s.info && t.store == s.store && t.backlog == s.backlog
  {
    hide CaughtUp, Stoi, Stoll, Resp.Encode;
  }

  lemma PsyncInfo(s: State, c: ClientId, args: Command, order: seq<string>, at: Rdb.Instant)
    requires Orders(order, s.store.Keys)
    ensures var t := HandlePsync(s, c, args, order, at);
            t.info == s.info && t.store == s.store && t.backlog == s.backlog
  {
    hide AskedId, AskedOffset, Rdb.Serialized;
  }
}
