/** The replication stream of one master term: what every attached replica has been or will be sent. */
module Streams {
  import opened Text
  import opened KeyStore
  import opened Commands
  import opened Replication
  import opened Membership
  import opened Runs
  import opened Backlog
  import Rdb
  import Resp

  /** What a master term is about: it began with `initial` at offset `base` and published `log`. */
  datatype Term = Term(base: int, replid: string, initial: Data, log: seq<Logged>)

  /** The offset the term began at: what the master counts, less what it has published. */
  function TermBase(w: World): int { w.s.offset - |Resp.EncodeAll(LogCmds(w.h.log))| }

  function TermOf(w: World): Term { Term(TermBase(w), w.s.info.replid, w.h.initial, w.h.log) }

  function LogCmds(log: seq<Logged>): seq<Command> {
    seq(|log|, i requires 0 <= i < |log| => log[i].args)
  }

  /** The store after a log, command by command. */
  function Replay(m: Data, log: seq<Logged>): Data {
    if log == [] then m else
    var last := log[|log| - 1];
    Effect(last.args, Replay(m, log[..|log| - 1]), last.now)
  }

  /** The bytes of the first `n` log entries. */
  function StreamTo(t: Term, n: nat): string
    requires n <= |t.log|
  {
    Resp.EncodeAll(LogCmds(t.log[..n]))
  }

  function FrameCmds(frames: seq<Frame>): seq<Command> {
    seq(|frames|, i requires 0 <= i < |frames| => frames[i].Cmd())
  }

  function FrameBytes(frames: seq<Frame>): string { Resp.EncodeAll(FrameCmds(frames)) }

  /** The commands of a stream with the GETACKs taken out. */
  function Writes(frames: seq<Frame>): seq<Command> {
    if frames == [] then [] else
    var last := frames[|frames| - 1];
    Writes(frames[..|frames| - 1]) + (if last.Write? then [last.args] else [])
  }

  /** A GETACK carries the offset the master had reached when it was queued. */
  ghost predicate TargetsOk(frames: seq<Frame>, start: int) {
    forall i | 0 <= i < |frames| && frames[i].GetAck? ::
      frames[i].wait.target == start + |Resp.EncodeAll(Writes(frames[..i]))|
  }

  /** The payload a replica was attached with, in terms of the log so far. */
  ghost predicate SyncOk(t: Term, a: Attachment)
    requires a.start <= |t.log|
  {
    var before := StreamTo(t, a.start);
    match a.sync
    case Full(order, at) =>
      var m := Replay(t.initial, t.log[..a.start]);
      && a.from == t.base + |before|
      && Orders(order, m.Keys)
      && a.payload == FullPayload(t.replid, a.from, Rdb.Serialized(order, m, at))
    case Partial(replay) =>
      && t.base <= a.from <= t.base + |before|
      && replay == before[a.from - t.base..]
      && a.payload == ContinuePayload(t.replid, replay)
  }

  /** Nothing lost, nothing reordered, nothing twice, wherever the writer thread stands. */
  ghost predicate Delivered(a: Attachment, q: Queue) {
    !a.broken ==> a.sent + q.draining + q.pending == a.payload + FrameBytes(a.frames)
  }

  ghost predicate AttachedOk(t: Term, a: Attachment, q: Queue) {
    && a.start <= |t.log|
    && Writes(a.frames) == LogCmds(t.log[a.start..])
    && TargetsOk(a.frames, t.base + |StreamTo(t, a.start)|)
    && SyncOk(t, a)
    && Delivered(a, q)
  }

  ghost predicate LogOk(log: seq<Logged>) {
    forall i | 0 <= i < |log| :: Resp.Fits(log[i].args) && IsWrite(Name(log[i].args))
  }

  ghost predicate TermOk(w: World) {
    && TermBase(w) >= 0 && Tracks(w.s.backlog, TermBase(w), Resp.EncodeAll(LogCmds(w.h.log)))
    && (w.s.info.secondOffset == -1 || (w.s.backlog.hasData && w.s.info.secondOffset == TermBase(w)))
    && (w.s.backlog.hasData ==> w.s.info.secondOffset != -1 || Resp.EncodeAll(LogCmds(w.h.log)) != "")
    && w.s.store == Replay(w.h.initial, w.h.log)
    && LogOk(w.h.log)
  }

  ghost predicate AllAttachedOk(w: World) {
    forall c | c in w.h.attached :: c in w.s.queues && AttachedOk(TermOf(w), w.h.attached[c], w.s.queues[c])
  }

  /** The stream invariant; it speaks about the current master term only. */
  ghost predicate StreamsOk(w: World) {
    && KeysFit(w.s.store)
    && (w.s.info.role == Master ==> TermOk(w) && AllAttachedOk(w))
    && (w.s.info.role == Worker ==> w.h.attached == map[])
  }

  // ---- one more log entry ----

  lemma LogCmdsAppend(log: seq<Logged>, x: Logged)
    ensures LogCmds(log + [x]) == LogCmds(log) + [x.args]
  {
  }

  lemma EncodeOne(args: Command)
    ensures Resp.EncodeAll([args]) == Resp.Encode(args)
  {
    hide Resp.Encode;
    assert [args][1..] == [];
  }

  lemma EncodeSnoc(cmds: seq<Command>, args: Command)
    ensures Resp.EncodeAll(cmds + [args]) == Resp.EncodeAll(cmds) + Resp.Encode(args)
  {
    Resp.EncodeAllAppend(cmds, [args]);
    EncodeOne(args);
  }

  lemma FrameBytesAppend(frames: seq<Frame>, f: Frame)
    ensures FrameBytes(frames + [f]) == FrameBytes(frames) + Resp.Encode(f.Cmd())
  {
    hide Resp.Encode;
    assert FrameCmds(frames + [f]) == FrameCmds(frames) + [f.Cmd()];
    EncodeSnoc(FrameCmds(frames), f.Cmd());
  }

  lemma WritesAppend(frames: seq<Frame>, f: Frame)
    ensures Writes(frames + [f]) == Writes(frames) + (if f.Write? then [f.args] else [])
  {
    assert (frames + [f])[..|frames|] == frames;
  }

  lemma TargetsAppend(frames: seq<Frame>, f: Frame, start: int)
    requires TargetsOk(frames, start)
    requires f.GetAck? ==> f.wait.target == start + |Resp.EncodeAll(Writes(frames))|
    ensures TargetsOk(frames + [f], start)
  {
    hide Writes;
    forall i | 0 <= i < |frames + [f]| && (frames + [f])[i].GetAck?
      ensures (frames + [f])[i].wait.target == start + |Resp.EncodeAll(Writes((frames + [f])[..i]))|
    {
      assert (frames + [f])[..i] == frames[..i];
      if i == |frames| { assert frames[..i] == frames; }
    }
  }

  /** The part of the log a replica was attached at does not change. */
  lemma SyncKept(t: Term, x: Logged, a: Attachment, f: Frame)
    requires a.start <= |t.log| && SyncOk(t, a)
    ensures SyncOk(t.(log := t.log + [x]), a.(frames := a.frames + [f]))
  {
    hide LogCmds, Replay, Rdb.Serialized;
    assert (t.log + [x])[..a.start] == t.log[..a.start];
  }

  lemma DeliveredMore(a: Attachment, q: Queue, f: Frame)
    requires Delivered(a, q)
    ensures Delivered(a.(frames := a.frames + [f]), Appended(q, Resp.Encode(f.Cmd())))
  {
    hide FrameBytes, Resp.Encode;
    var data := Resp.Encode(f.Cmd());
    FrameBytesAppend(a.frames, f);
    if !a.broken {
      assert a.sent + q.draining + (q.pending + data) == (a.sent + q.draining + q.pending) + data;
      assert a.payload + (FrameBytes(a.frames) + data) == (a.payload + FrameBytes(a.frames)) + data;
    }
  }

  lemma AttachedWrite(t: Term, a: Attachment, q: Queue, args: Command, now: int, byClient: bool)
    requires AttachedOk(t, a, q)
    ensures AttachedOk(t.(log := t.log + [Logged(args, now, byClient)]), a.(frames := a.frames + [Write(args)]),
                       Appended(q, Resp.Encode(args)))
  {
    hide SyncOk, Delivered, TargetsOk, Writes, LogCmds, Resp.Encode, Resp.EncodeAll;
    var x, f := Logged(args, now, byClient), Write(args);
    SyncKept(t, x, a, f);
    DeliveredMore(a, q, f);
    TargetsAppend(a.frames, f, t.base + |StreamTo(t, a.start)|);
    WritesAppend(a.frames, f);
    assert (t.log + [x])[a.start..] == t.log[a.start..] + [x];
    LogCmdsAppend(t.log[a.start..], x);
    assert (t.log + [x])[..a.start] == t.log[..a.start];
  }

  /** Log bytes up to a position plus the bytes of the writes since are all log bytes. */
  lemma WholeStream(t: Term, a: Attachment)
    requires a.start <= |t.log| && Writes(a.frames) == LogCmds(t.log[a.start..])
    ensures StreamTo(t, a.start) + Resp.EncodeAll(Writes(a.frames)) == Resp.EncodeAll(LogCmds(t.log))
  {
    assert LogCmds(t.log) == LogCmds(t.log[..a.start]) + LogCmds(t.log[a.start..]);
    Resp.EncodeAllAppend(LogCmds(t.log[..a.start]), LogCmds(t.log[a.start..]));
  }

  lemma SyncKeptFrame(t: Term, a: Attachment, f: Frame)
    requires a.start <= |t.log| && SyncOk(t, a)
    ensures SyncOk(t, a.(frames := a.frames + [f]))
  {
    hide LogCmds, Replay, Rdb.Serialized;
  }

  lemma AttachedGetAck(t: Term, a: Attachment, q: Queue, wait: Wait)
    requires AttachedOk(t, a, q) && wait.target == t.base + |Resp.EncodeAll(LogCmds(t.log))|
    ensures AttachedOk(t, a.(frames := a.frames + [GetAck(wait)]), Appended(q, Resp.Encode(GETACK)))
  {
    hide SyncOk, Delivered, TargetsOk, Writes, LogCmds, Resp.Encode, Resp.EncodeAll;
    var f := GetAck(wait);
    WholeStream(t, a);
    SyncKeptFrame(t, a, f);
    DeliveredMore(a, q, f);
    TargetsAppend(a.frames, f, t.base + |StreamTo(t, a.start)|);
    WritesAppend(a.frames, f);
    assert Writes(a.frames) + [] == Writes(a.frames);
  }

  // ---- the steps ----

  lemma EffectKeysFit(args: Command, m: Data, now: int)
    requires KeysFit(m) && Resp.Fits(args)
    ensures KeysFit(Effect(args, m, now))
  {
    hide ToUpper, SetOptions;
  }

  lemma ReplayAppend(m: Data, log: seq<Logged>, x: Logged)
    ensures Replay(m, log + [x]) == Effect(x.args, Replay(m, log), x.now)
  {
    assert (log + [x])[..|log|] == log;
  }

  lemma PublishFacts(s: State, args: Command, byClient: bool)
    requires Sane(s) && s.info.role == Master
    ensures var t := Publish(s, args, byClient);
      && t.store == s.store && t.info.role == Master && t.info.replid == s.info.replid
      && t.info.secondOffset == s.info.secondOffset && t.offset == s.offset + |Resp.Encode(args)|
      && t.backlog == s.backlog.Feed(Resp.Encode(args), s.backlog.end) && t.backlog.hasData
      && forall c | c in s.queues :: c in t.queues && t.queues[c] == Appended(s.queues[c], Resp.Encode(args))
  {
    hide Resp.Encode;
    Resp.NonEmpty(args);
    assert s.replicas == [] ==> forall c | c in s.queues :: c in s.replicas;
  }

  lemma WriteStreams(w: World, args: Command, now: int, byClient: bool)
    requires Sane(w.s) && StreamsOk(w) && w.s.info.role == Master
    requires Resp.Fits(args) && IsWrite(Name(args))
    ensures StreamsOk(DoWrite(w, args, now, byClient)) && DoWrite(w, args, now, byClient).s.info.role == Master
  {
    hide Tracks, AttachedOk, Publish, Effect, KeysFit, LogCmds, Replay, Sane, Resp.Encode, Resp.EncodeAll, Resp.Fits,
         IsWrite;
    var m := Effect(args, w.s.store, now);
    var x := Logged(args, now, byClient);
    var w' := DoWrite(w, args, now, byClient);
    EffectKeysFit(args, w.s.store, now);
    StoreSane(w.s, m);
    PublishFacts(w.s.(store := m), args, byClient);
    ReplayAppend(w.h.initial, w.h.log, x);
    LogCmdsAppend(w.h.log, x);
    EncodeSnoc(LogCmds(w.h.log), args);
    FeedTracks(w.s.backlog, TermBase(w), Resp.EncodeAll(LogCmds(w.h.log)), Resp.Encode(args));
    TracksEnd(w.s.backlog, TermBase(w), Resp.EncodeAll(LogCmds(w.h.log)));
    assert TermOk(w');
    forall c | c in w'.h.attached
      ensures c in w'.s.queues && AttachedOk(TermOf(w'), w'.h.attached[c], w'.s.queues[c])
    {
      AttachedWrite(TermOf(w), w.h.attached[c], w.s.queues[c], args, now, byClient);
    }
  }

  lemma SayStreams(w: World, c: ClientId, text: string)
    requires StreamsOk(w)
    ensures StreamsOk(DoSay(w, c, text))
  {
    hide AttachedOk, TermOk, KeysFit;
    SameStreams(w, DoSay(w, c, text));
  }

  /** Only store, backlog, role, id, queues and the term's history matter. */
  lemma SameStreams(w: World, t: World)
    requires StreamsOk(w)
    requires t.s.store == w.s.store && t.s.backlog == w.s.backlog && t.s.offset == w.s.offset
    requires t.s.info.role == w.s.info.role && t.s.info.replid == w.s.info.replid && t.s.queues == w.s.queues
    requires t.s.info.secondOffset == w.s.info.secondOffset
    requires t.h.initial == w.h.initial && t.h.log == w.h.log && t.h.attached == w.h.attached
    ensures StreamsOk(t)
  {
    hide Tracks, AttachedOk, Replay, LogCmds, Resp.EncodeAll, KeysFit, LogOk;
    assert w.s.info.role == Master ==> TermOf(t) == TermOf(w);
  }

  lemma ParkStreams(w: World, wait: Wait)
    requires Sane(w.s) && StreamsOk(w) && w.s.info.role == Master && wait.target == w.s.offset
    ensures StreamsOk(DoPark(w, wait))
  {
    hide Tracks, AttachedOk, KeysFit, LogCmds, Replay, Resp.Encode, Resp.EncodeAll, LogOk;
    var w' := DoPark(w, wait);
    assert w.s.replicas == [] ==> forall c | c in w.s.queues :: c in w.s.replicas;
    forall c | c in w'.h.attached
      ensures c in w'.s.queues && AttachedOk(TermOf(w'), w'.h.attached[c], w'.s.queues[c])
    {
      AttachedGetAck(TermOf(w), w.h.attached[c], w.s.queues[c], wait);
    }
  }

  lemma FreshAttachment(w: World, a: Attachment)
    requires Sane(w.s) && TermOk(w)
    requires a.start == |w.h.log| && a.frames == [] && a.sent == "" && !a.broken
    requires SyncOk(TermOf(w), a)
    ensures AttachedOk(TermOf(w), a, Queue(a.payload, ""))
  {
    hide SyncOk, Sane;
    assert w.h.log[a.start..] == [];
    assert FrameCmds([]) == [];
    assert a.payload + "" == a.payload;
  }

  lemma PsyncSyncOk(w: World, args: Command, order: seq<string>, at: Rdb.Instant)
    requires Sane(w.s) && TermOk(w) && w.s.info.role == Master && Orders(order, w.s.store.Keys)
    ensures var a := PsyncAttachment(w, args, order, at);
            a.start == |w.h.log| && SyncOk(TermOf(w), a)
  {
    hide Tracks, Replay, LogCmds, Resp.EncodeAll, Members, WaitersLive, LogOk, AskedId, AskedOffset, Rdb.Serialized,
         Orders;
    assert w.h.log[..|w.h.log|] == w.h.log;
    TracksReads(w.s.backlog, TermBase(w), Resp.EncodeAll(LogCmds(w.h.log)));
    TracksEnd(w.s.backlog, TermBase(w), Resp.EncodeAll(LogCmds(w.h.log)));
  }

  lemma PsyncFresh(w: World, args: Command, order: seq<string>, at: Rdb.Instant)
    requires Orders(order, w.s.store.Keys)
    ensures var a := PsyncAttachment(w, args, order, at); a.frames == [] && a.sent == "" && !a.broken
  {
    hide Rdb.Serialized, AskedId, AskedOffset, Orders;
  }

  lemma PsyncStreams(w: World, c: ClientId, args: Command, order: seq<string>, at: Rdb.Instant)
    requires Sane(w.s) && StreamsOk(w) && Orders(order, w.s.store.Keys)
    ensures StreamsOk(DoAttach(w, c, PsyncAttachment(w, args, order, at)))
  {
    hide Sane, AttachedOk, KeysFit, TermOk, SyncOk, PsyncAttachment, Orders;
    var a := PsyncAttachment(w, args, order, at);
    var w' := DoAttach(w, c, a);
    if w.s.info.role == Master {
      PsyncSyncOk(w, args, order, at);
      PsyncFresh(w, args, order, at);
      FreshAttachment(w, a);
      AttachTerm(w, c, a);
    }
  }

  lemma AttachTerm(w: World, c: ClientId, a: Attachment)
    requires TermOk(w)
    ensures TermOk(DoAttach(w, c, a))
  {
    hide Tracks, Replay, LogCmds, LogOk, Resp.EncodeAll;
  }

  lemma RemoveStreams(w: World, c: ClientId)
    requires StreamsOk(w)
    ensures StreamsOk(DoRemove(w, c))
  {
    hide Tracks, AttachedOk, KeysFit, Replay, LogCmds, Resp.EncodeAll, LogOk, Remove, DropWaits, DroppedBy;
    var w' := DoRemove(w, c);
    assert TermOf(w') == TermOf(w);
  }

  lemma SettleStreams(w: World, cause: Cause)
    requires StreamsOk(w)
    ensures StreamsOk(DoSettle(w, cause))
  {
    hide StreamsOk, StillParked, Told, Answered;
    SameStreams(w, DoSettle(w, cause));
  }

  lemma PromoteStreams(w: World, freshId: string)
    requires Sane(w.s) && StreamsOk(w)
    ensures StreamsOk(DoPromote(w, freshId))
  {
    hide Sane, DoDropMaster, DropMaster, KeysFit, AllAttachedOk, Tracks;
    DropMasterSane(w.s);
    DropStore(w);
    DropMasterFacts(w.s);
    RingKept(w.s);
    var w' := DoPromote(w, freshId);
    assert w'.h.log == [] && LogCmds([]) == [];
    SetStartTracks(w.s.backlog, w.s.info.offset);
    NoneAttached(w');
  }

  lemma RingKept(s: State)
    requires Sane(s)
    ensures |s.backlog.ring| == s.backlog.capacity && s.info.offset >= 0
  {
  }

  lemma NoneAttached(w: World)
    requires w.h.attached == map[]
    ensures AllAttachedOk(w)
  {
  }

  lemma DropStore(w: World)
    ensures DoDropMaster(w).s.store == w.s.store
  {
  }

  lemma DelFits(key: string)
    requires |key| <= INT_MAX
    ensures Resp.Fits(["DEL", key]) && IsWrite(Name(["DEL", key]))
  {
    assert ToUpper("DEL") == "DEL";
  }

  lemma {:induction false} DelsStreams(w: World, keys: seq<string>, now: int)
    requires Sane(w.s) && StreamsOk(w) && w.s.info.role == Master
    requires forall k | k in keys :: |k| <= INT_MAX
    ensures StreamsOk(DoDels(w, keys, now))
    decreases |keys|
  {
    hide Sane, StreamsOk, DoWrite, IsWrite, Resp.Fits;
    if keys != [] {
      var args := ["DEL", keys[0]];
      DelFits(keys[0]);
      WriteStreams(w, args, now, false);
      WriteSane(w, args, now, false);
      DelsStreams(DoWrite(w, args, now, false), keys[1..], now);
    }
  }

  lemma WriteSane(w: World, args: Command, now: int, byClient: bool)
    requires Sane(w.s) && w.s.info.role == Master
    ensures Sane(DoWrite(w, args, now, byClient).s)
  {
    hide Sane, Effect, Publish;
    StoreSane(w.s, Effect(args, w.s.store, now));
    PublishSane(w.s.(store := Effect(args, w.s.store, now)), args, byClient);
  }

  // ---- the writer thread ----

  lemma SwapDelivered(a: Attachment, q: Queue)
    requires Delivered(a, q)
    ensures Delivered(a, Queue("", q.draining + q.pending))
  {
    hide FrameBytes;
    assert a.sent + (q.draining + q.pending) + "" == a.sent + q.draining + q.pending;
  }

  lemma SendDelivered(a: Attachment, q: Queue, n: nat)
    requires Delivered(a, q) && n <= |q.draining|
    ensures Delivered(a.(sent := a.sent + q.draining[..n]), q.(draining := q.draining[n..]))
  {
    hide FrameBytes;
    assert (a.sent + q.draining[..n]) + q.draining[n..] == a.sent + q.draining;
  }

  /** The queue and the delivery record may change together as long as delivery stays complete. */
  lemma RequeueOk(t: Term, a: Attachment, q: Queue, a': Attachment, q': Queue)
    requires AttachedOk(t, a, q) && Delivered(a', q')
    requires a' == a.(sent := a'.sent, broken := a'.broken)
    ensures AttachedOk(t, a', q')
  {
    hide Delivered, TargetsOk, Writes, Replay, LogCmds, Resp.EncodeAll, Rdb.Serialized;
  }

  lemma WriterStreams(w: World, e: Event)
    requires StreamsOk(w) && Enabled(w.s, e) && (e.Swap? || e.Send? || e.SendError?)
    ensures StreamsOk(Next(w, e))
  {
    hide AttachedOk, KeysFit, TermOk;
    var w' := Next(w, e);
    if w.s.info.role == Master {
      WriterTerm(w, e);
      forall c | c in w'.h.attached
        ensures c in w'.s.queues && AttachedOk(TermOf(w'), w'.h.attached[c], w'.s.queues[c])
      {
        WriterAttached(w, e, c);
      }
    }
  }

  lemma WriterTerm(w: World, e: Event)
    requires TermOk(w) && Enabled(w.s, e) && (e.Swap? || e.Send? || e.SendError?)
    ensures TermOk(Next(w, e)) && TermOf(Next(w, e)) == TermOf(w)
  {
    hide Tracks, Replay, LogCmds, Resp.EncodeAll, LogOk;
  }

  lemma WriterAttached(w: World, e: Event, c: ClientId)
    requires Enabled(w.s, e) && (e.Swap? || e.Send? || e.SendError?)
    requires c in w.h.attached && c in w.s.queues && AttachedOk(TermOf(w), w.h.attached[c], w.s.queues[c])
    ensures var w' := Next(w, e);
      c in w'.h.attached && c in w'.s.queues && AttachedOk(TermOf(w), w'.h.attached[c], w'.s.queues[c])
  {
    hide Replay, LogCmds, Resp.EncodeAll, Writes, TargetsOk, SyncOk, FrameBytes;
    var w' := Next(w, e);
    var a, q := w.h.attached[c], w.s.queues[c];
    match e
    case Swap =>
      SwapDelivered(a, q);
      RequeueOk(TermOf(w), a, q, a, w'.s.queues[c]);
    case Send(d, n) =>
      if c == d {
        SendDelivered(a, q, n);
        RequeueOk(TermOf(w), a, q, w'.h.attached[c], w'.s.queues[c]);
      }
    case SendError(d) =>
      if c == d { RequeueOk(TermOf(w), a, q, w'.h.attached[c], w'.s.queues[c]); }
  }
}
