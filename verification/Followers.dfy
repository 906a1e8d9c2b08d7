/** The replica's side: what a worker makes of the stream it is sent, whatever else it is doing. */
module Followers {
  import opened Text
  import opened KeyStore
  import opened Commands
  import opened Replication
  import opened Membership
  import opened Waiting
  import opened Streams
  import opened Books
  import opened Runs
  import opened Safety
  import opened Guarantees
  import opened Backlog
  import Rdb
  import RdbProofs
  import Resp

  // ---- the worker side ----

  predicate OnConn(e: Event, conn: ClientId) { e.Parsed? && e.c == conn }

  /** The commands a run of the worker takes off the connection to its master, in order. */
  function Taken(run: seq<Event>, conn: ClientId): seq<Resp.ParseResult> {
    if run == [] then [] else
    var n := |run| - 1;
    Taken(run[..n], conn) + (if OnConn(run[n], conn) then [Resp.ParseResult(run[n].args, run[n].consumed)] else [])
  }

  /** `clock(i)` is what the worker's clock shows when it takes the i-th of them. */
  ghost predicate Clocked(run: seq<Event>, conn: ClientId, clock: nat -> int) {
    forall i | 0 <= i < |run| && OnConn(run[i], conn) :: clock(|Taken(run[..i], conn)|) == run[i].env.now
  }

  /** Clients that come, go, read and WAIT, replicas of the worker that attach and acknowledge, the clock and the writer
      thread do not touch what the worker has counted, stored and answered to its master. */
  lemma QuietStep(s: State, e: Event, conn: ClientId)
    requires Sane(s) && s.info.role == Worker && s.master == Some(conn) && Enabled(s, e) && Proper(s, e)
    requires !OnConn(e, conn) && e != Disconnect(conn) && !MovesOn(s, e)
    ensures var t := Step(s, e);
      && t.info == s.info && t.store == s.store && t.master == s.master
      && conn in t.clients && t.clients[conn] == s.clients[conn]
  {
    hide Reply, Executed, IsWrite, ToUpper, Orders, Resp.Fits, Sweepable, GoodSync, Stoll, Remove, DropWaits,
         RegularCommand, StillParked, Told;
    assert s.waits == [];
    match e
    case Parsed(c, args, _, env) =>
      if s.clients[c].kind == Regular {
        QuietRegular(s, c, args, env, conn);
      } else {
        QuietCommand(args, s.store, s.info, false, env.now);
        NobodyWaits(s, s.clients);
        if IsAck(args) && Stoll(args[2]).Some? {
          var u := s.(clients := s.clients[c := s.clients[c].(ack := Stoll(args[2]).value)]);
          NobodyWaits(u, u.clients);
        }
      }
    case Timeouts(now) => NobodyToldByClock(s, now);
    case _ =>
  }

  lemma NobodyWaits(s: State, clients: map<ClientId, Client>)
    ensures StillParked(s, [], Acks) == [] && Told(s, [], Acks, clients) == clients
  {
  }

  lemma NobodyToldByClock(s: State, now: int)
    ensures StillParked(s, [], Clock(now)) == [] && Told(s, [], Clock(now), s.clients) == s.clients
  {
  }

  lemma QuietRegular(s: State, c: ClientId, args: Command, env: Env, conn: ClientId)
    requires Sane(s) && s.info.role == Worker && s.master == Some(conn) && c in s.clients && c != conn
    requires Orders(env.order, s.store.Keys) && !IsWrite(Name(args)) && !Moves(s, args)
    ensures var t := RegularCommand(s, c, args, env);
      && t.info == s.info && t.store == s.store && t.master == s.master
      && conn in t.clients && t.clients[conn] == s.clients[conn]
  {
    hide Reply, Executed, IsWrite, ToUpper, Orders, Stoi, Stoll, CountAcks, Rdb.Serialized, Continues, AskedId,
         AskedOffset, HandleReplicaof, Moves;
    StayingInfo(s, c, args, env);
    QuietCommand(args, s.store, s.info, false, env.now);
    assert conn in s.clients && s.offset == 0;
  }

  function GetAcks(frames: seq<Frame>): nat {
    if frames == [] then 0 else
    GetAcks(frames[..|frames| - 1]) + (if frames[|frames| - 1].GetAck? then 1 else 0)
  }

  /** The acknowledgement for the j-th GETACK: the master's offset when it was queued, plus the 37 bytes of
      each GETACK before it, which only the replica counts. */
  function ExpectedAcks(frames: seq<Frame>): seq<int> {
    if frames == [] then [] else
    var before, last := frames[..|frames| - 1], frames[|frames| - 1];
    ExpectedAcks(before) + (if last.GetAck? then [last.wait.target + 37 * GetAcks(before)] else [])
  }

  function AckTexts(acks: seq<int>): string {
    if acks == [] then "" else AckTexts(acks[..|acks| - 1]) + AckReply(acks[|acks| - 1])
  }

  /** The worker's data after the frames, each executed at its own time. */
  function DataAfter(m: Data, frames: seq<Frame>, clock: nat -> int): Data {
    if frames == [] then m else
    var n := |frames| - 1;
    Effect(frames[n].Cmd(), DataAfter(m, frames[..n], clock), clock(n))
  }

  lemma GetAckIs37()
    ensures |Resp.Encode(GETACK)| == 37
  {
    hide Resp.EncodeBulk, Resp.EncodeBulks;
    BulkLengths();
    BulksOfThree("REPLCONF", "GETACK", "*");
    assert |Resp.EncodeBulks(GETACK)| == 14 + (12 + (7 + 0));
    assert |GETACK| == 3 && Dec(3) == "3";
  }

  lemma BulkLengths()
    ensures |Resp.EncodeBulk("REPLCONF")| == 14 && |Resp.EncodeBulk("GETACK")| == 12 && |Resp.EncodeBulk("*")| == 7
  {
    ShortBulk("REPLCONF");
    ShortBulk("GETACK");
    ShortBulk("*");
  }

  lemma ShortBulk(s: string)
    requires |s| < 10
    ensures |Resp.EncodeBulk(s)| == |s| + 6
  {
  }

  lemma BulksOfThree(a: string, b: string, c: string)
    ensures Resp.EncodeBulks([a, b, c]) == Resp.EncodeBulk(a) + (Resp.EncodeBulk(b) + (Resp.EncodeBulk(c) + ""))
  {
    hide Resp.EncodeBulk;
    assert [a, b, c][1..] == [b, c] && [b, c][1..] == [c] && [c][1..] == [];
    assert Resp.EncodeBulks([c]) == Resp.EncodeBulk(c) + "";
    assert Resp.EncodeBulks([b, c]) == Resp.EncodeBulk(b) + Resp.EncodeBulks([c]);
  }

  lemma {:induction false} FrameLengths(frames: seq<Frame>)
    ensures |FrameBytes(frames)| == |Resp.EncodeAll(Writes(frames))| + 37 * GetAcks(frames)
    decreases |frames|
  {
    hide Resp.Encode, Resp.EncodeAll, FrameBytes;
    if frames == [] {
      NoFrames();
    } else {
      var before, last := frames[..|frames| - 1], frames[|frames| - 1];
      assert frames == before + [last];
      FrameLengths(before);
      FrameBytesAppend(before, last);
      if last.Write? {
        EncodeSnoc(Writes(before), last.args);
      } else {
        assert Writes(frames) == Writes(before);
        GetAckIs37();
      }
    }
  }

  lemma NoFrames()
    ensures FrameBytes([]) == "" && Writes([]) == [] && Resp.EncodeAll([]) == ""
  {
    assert FrameCmds([]) == [];
  }

  lemma GetAckAnswered(s: State, c: ClientId, now: int)
    ensures IsGetAck(GETACK) && Reply(GETACK, s.store, s.info, true, now) == AckReply(s.info.offset)
    ensures Executed(GETACK, s.store, s.info, true, now) == Effect(GETACK, s.store, now)
  {
    hide AckReply;
    assert ToUpper("REPLCONF") == "REPLCONF" && ToUpper("GETACK") == "GETACK";
  }

  lemma WriteNotAnswered(args: Command)
    requires IsWrite(Name(args))
    ensures !IsGetAck(args)
  {
    assert ToUpper("REPLCONF") == "REPLCONF";
  }

  /** Frames as the master queues them. */
  ghost predicate Genuine(frames: seq<Frame>) {
    forall i | 0 <= i < |frames| :: Resp.Fits(frames[i].Cmd()) && (frames[i].Write? ==> IsWrite(Name(frames[i].args)))
  }

  function Received(frames: seq<Frame>): seq<Resp.ParseResult> { Resp.Frames(FrameCmds(frames)) }

  lemma ReceivedSnoc(frames: seq<Frame>)
    requires frames != []
    ensures var n := |frames| - 1;
      |Received(frames)| == n + 1 && Received(frames)[..n] == Received(frames[..n])
      && Received(frames)[n] == Resp.ParseResult(frames[n].Cmd(), |Resp.Encode(frames[n].Cmd())|)
  {
    hide Resp.Encode;
  }

  /** One more frame on the worker. */
  lemma ConsumeOne(s: State, conn: ClientId, f: Frame, now: int)
    requires conn in s.clients && (f.Write? ==> IsWrite(Name(f.args)))
    ensures var t := StreamCommand(s, conn, f.Cmd(), |Resp.Encode(f.Cmd())|, now);
      && conn in t.clients
      && t.info.offset == s.info.offset + |Resp.Encode(f.Cmd())|
      && t.store == Effect(f.Cmd(), s.store, now)
      && t.clients[conn].out == s.clients[conn].out + (if f.GetAck? then AckReply(s.info.offset) else "")
  {
    hide Effect, AckReply, Resp.Encode, Reply, IsGetAck, IsWrite;
    if f.Write? {
      WriteNotAnswered(f.args);
      assert s.clients[conn].out + "" == s.clients[conn].out;
    } else {
      GetAckAnswered(s, conn, now);
    }
  }

  lemma AckTextsSnoc(acks: seq<int>, n: int)
    ensures AckTexts(acks + [n]) == AckTexts(acks) + AckReply(n)
  {
    hide AckReply;
    assert (acks + [n])[..|acks|] == acks;
  }

  /** What the worker that started as `s` has counted, stored and answered after `frames`. */
  ghost predicate Followed(s: State, conn: ClientId, frames: seq<Frame>, clock: nat -> int, t: State) {
    && conn in s.clients && conn in t.clients
    && t.info.offset == s.info.offset + |FrameBytes(frames)|
    && t.store == DataAfter(s.store, frames, clock)
    && t.clients[conn].out == s.clients[conn].out + AckTexts(ExpectedAcks(frames))
  }

  lemma FollowedOne(s: State, conn: ClientId, before: seq<Frame>, last: Frame, clock: nat -> int, t: State)
    requires Followed(s, conn, before, clock, t)
    requires last.Write? ==> IsWrite(Name(last.args))
    requires last.GetAck? ==> last.wait.target == s.info.offset + |Resp.EncodeAll(Writes(before))|
    ensures Followed(s, conn, before + [last], clock,
                     StreamCommand(t, conn, last.Cmd(), |Resp.Encode(last.Cmd())|, clock(|before|)))
  {
    hide StreamCommand, Effect, AckReply, Resp.Encode, Resp.EncodeAll, FrameBytes, Writes, AckTexts, IsWrite;
    assert (before + [last])[..|before|] == before;
    FrameBytesAppend(before, last);
    FrameLengths(before);
    ConsumeOne(t, conn, last, clock(|before|));
    AckOne(s.clients[conn].out, before, last, t.info.offset);
  }

  lemma AckOne(out: string, before: seq<Frame>, last: Frame, offset: int)
    requires last.GetAck? ==> offset == last.wait.target + 37 * GetAcks(before)
    ensures (out + AckTexts(ExpectedAcks(before))) + (if last.GetAck? then AckReply(offset) else "")
         == out + AckTexts(ExpectedAcks(before + [last]))
  {
    hide AckReply, AckTexts;
    assert (before + [last])[..|before|] == before;
    if last.GetAck? {
      AckTextsSnoc(ExpectedAcks(before), offset);
    } else {
      assert ExpectedAcks(before) + [] == ExpectedAcks(before);
    }
  }

  lemma TakenSnoc(run: seq<Event>, conn: ClientId, clock: nat -> int)
    requires run != [] && Stays(run, conn) && Clocked(run, conn, clock)
    ensures var n := |run| - 1;
      && Stays(run[..n], conn) && Clocked(run[..n], conn, clock) && run[n] != Disconnect(conn)
      && (OnConn(run[n], conn) ==> clock(|Taken(run[..n], conn)|) == run[n].env.now)
  {
    hide Taken;
    var n := |run| - 1;
    assert forall i | 0 <= i < n :: run[..n][i] == run[i] && run[..n][..i] == run[..i];
  }

  /** The worker is attached to its master over `conn`. */
  ghost predicate Following(w: World, conn: ClientId) {
    Inv(w) && w.s.info.role == Worker && w.s.master == Some(conn)
  }

  lemma FollowingFacts(w: World, conn: ClientId)
    requires Following(w, conn)
    ensures Sane(w.s) && conn in w.s.clients && w.s.clients[conn].kind == MasterConn
  {
  }

  lemma StreamKeeps(s: State, conn: ClientId, args: Command, consumed: nat, now: int)
    ensures var t := StreamCommand(s, conn, args, consumed, now); t.info.role == s.info.role && t.master == s.master
  {
    hide Reply, Executed, IsGetAck;
  }

  /** One event of the worker's run. */
  lemma FollowStep(w: World, e: Event, conn: ClientId)
    requires Following(w, conn) && Enabled(w.s, e) && Proper(w.s, e)
    requires e != Disconnect(conn) && !MovesOn(w.s, e)
    ensures Following(Next(w, e), conn)
    ensures OnConn(e, conn) ==> Next(w, e).s == StreamCommand(w.s, conn, e.args, e.consumed, e.env.now)
    ensures !OnConn(e, conn) ==>
      var t := Next(w, e).s;
      t.info == w.s.info && t.store == w.s.store && conn in w.s.clients && conn in t.clients
      && t.clients[conn] == w.s.clients[conn]
  {
    hide Inv, Proper, Enabled, StreamCommand, MovesOn, Sane;
    FollowingFacts(w, conn);
    NextInv(w, e);
    if OnConn(e, conn) {
      StreamKeeps(w.s, conn, e.args, e.consumed, e.env.now);
    } else {
      hide Step, Next;
      QuietStep(w.s, e, conn);
    }
  }

  /** Whatever else the worker does: after taking `frames` off its stream it has counted, stored and answered exactly
      them. */
  lemma {:induction false} RunFollows(w: World, conn: ClientId, run: seq<Event>, frames: seq<Frame>, clock: nat -> int)
    requires Following(w, conn) && ProperRun(w, run) && Steady(w, run) && Stays(run, conn) && Clocked(run, conn, clock)
    requires Taken(run, conn) == Received(frames) && Genuine(frames) && TargetsOk(frames, w.s.info.offset)
    ensures Following(After(w, run), conn) && Followed(w.s, conn, frames, clock, After(w, run).s)
    decreases |run|
  {
    hide Following, ProperRun, After, Next, Enabled, Proper, Steady, Stays, MovesOn, Clocked, Followed, Received,
         Genuine, TargetsOk, StreamCommand, IsWrite, Resp.Encode;
    OnePerFrame(frames);
    if run == [] {
      FollowingFacts(w, conn);
      EmptyRun(w);
      assert frames == [];
      FollowedNone(w.s, conn, clock);
    } else {
      var n := |run| - 1;
      var e := run[n];
      RunSnoc(w, run);
      SteadySnoc(w, run);
      TakenSnoc(run, conn, clock);
      var before := After(w, run[..n]);
      if OnConn(e, conn) {
        var first, last := frames[..|frames| - 1], frames[|frames| - 1];
        ReceivedSnoc(frames);
        assert frames == first + [last];
        BeforeLast(frames, w.s.info.offset);
        assert Taken(run[..n], conn) == Taken(run, conn)[..|Taken(run, conn)| - 1];
        RunFollows(w, conn, run[..n], first, clock);
        FollowStep(before, e, conn);
        FollowedOne(w.s, conn, first, last, clock, before.s);
      } else {
        assert Taken(run, conn) == Taken(run[..n], conn);
        RunFollows(w, conn, run[..n], frames, clock);
        FollowStep(before, e, conn);
        SameFollowed(w.s, conn, frames, clock, before.s, Next(before, e).s);
      }
    }
  }

  lemma EmptyRun(w: World)
    ensures ProperRun(w, []) && After(w, []) == w
  {
  }

  lemma OnePerFrame(frames: seq<Frame>)
    ensures |Received(frames)| == |frames|
  {
    hide Resp.Encode;
  }

  lemma SameFollowed(s: State, conn: ClientId, frames: seq<Frame>, clock: nat -> int, t: State, u: State)
    requires Followed(s, conn, frames, clock, t) && conn in u.clients && u.info == t.info && u.store == t.store
    requires conn in t.clients && u.clients[conn] == t.clients[conn]
    ensures Followed(s, conn, frames, clock, u)
  {
    hide FrameBytes, DataAfter, AckTexts, ExpectedAcks;
  }

  lemma BeforeLast(frames: seq<Frame>, start: int)
    requires frames != [] && Genuine(frames) && TargetsOk(frames, start)
    ensures var before, last := frames[..|frames| - 1], frames[|frames| - 1];
      && Genuine(before) && TargetsOk(before, start)
      && (last.Write? ==> IsWrite(Name(last.args)))
      && (last.GetAck? ==> last.wait.target == start + |Resp.EncodeAll(Writes(before))|)
  {
    hide Writes, Resp.EncodeAll, IsWrite, Resp.Fits;
    var before := frames[..|frames| - 1];
    assert forall i | 0 <= i < |before| :: frames[..i] == before[..i];
  }

  lemma FollowedNone(s: State, conn: ClientId, clock: nat -> int)
    requires conn in s.clients
    ensures Followed(s, conn, [], clock, s)
  {
    NoFrames();
    assert s.clients[conn].out + "" == s.clients[conn].out;
  }

  // ---- what arrives ----

  /** `m` of the frames are complete in the first `n` bytes of their stream. */
  ghost predicate CutAt(frames: seq<Frame>, n: nat, m: nat) {
    && m <= |frames| && |FrameBytes(frames[..m])| <= n
    && (m < |frames| ==> n < |FrameBytes(frames[..m + 1])|)
  }

  /** However the bytes of the stream are cut into `recv` chunks and wherever they end, the worker's read loop
      takes off exactly the frames that have arrived completely. */
  lemma ChunksGiveFrames(frames: seq<Frame>, chunks: seq<string>) returns (m: nat)
    requires Genuine(frames)
    requires Resp.Concat(chunks) <= FrameBytes(frames)
    ensures CutAt(frames, |Resp.Concat(chunks)|, m) && Resp.DrainChunks("", chunks).cmds == Received(frames[..m])
  {
    hide Resp.Drain, Resp.DrainChunks, Resp.EncodeAll, Resp.Parsed, Resp.Frames, Resp.Fits, IsWrite;
    var cmds, k := FrameCmds(frames), |Resp.Concat(chunks)|;
    NothingParsed();
    Resp.ChunkingIrrelevant("", chunks);
    assert "" + Resp.Concat(chunks) == FrameBytes(frames)[..k];
    m := Resp.StreamFraming(cmds, k);
    assert cmds[..m] == FrameCmds(frames[..m]);
    if m < |frames| { assert cmds[..m + 1] == FrameCmds(frames[..m + 1]); }
  }

  lemma NothingParsed()
    ensures Resp.Parsed("").consumed == 0
  {
  }

  /** Frames queued by a master come from its log, so they are genuine. */
  lemma QueuedGenuine(t: Term, a: Attachment, q: Queue)
    requires AttachedOk(t, a, q) && LogOk(t.log)
    ensures Genuine(a.frames)
  {
    hide TargetsOk, SyncOk, Delivered, Writes, Resp.Fits, IsWrite, LogCmds;
    GetAckFits();
    forall i | 0 <= i < |a.frames| && a.frames[i].Write?
      ensures Resp.Fits(a.frames[i].args) && IsWrite(Name(a.frames[i].args))
    {
      var j := WriteIndex(a.frames, i);
      LogCmdsAt(t.log[a.start..], j);
    }
  }

  lemma LogCmdsAt(log: seq<Logged>, j: nat)
    requires j < |LogCmds(log)|
    ensures j < |log| && LogCmds(log)[j] == log[j].args
  {
  }

  lemma GetAckFits()
    ensures Resp.Fits(GETACK)
  {
  }

  lemma {:induction false} WriteIndex(frames: seq<Frame>, i: nat) returns (j: nat)
    requires i < |frames| && frames[i].Write?
    ensures j < |Writes(frames)| && Writes(frames)[j] == frames[i].args
    decreases |frames|
  {
    var n := |frames| - 1;
    if i == n {
      j := |Writes(frames[..n])|;
    } else {
      j := WriteIndex(frames[..n], i);
    }
  }

  lemma PrefixOk(frames: seq<Frame>, m: nat, start: int)
    requires m <= |frames| && Genuine(frames) && TargetsOk(frames, start)
    ensures Genuine(frames[..m]) && TargetsOk(frames[..m], start)
  {
    hide Writes, Resp.EncodeAll, IsWrite, Resp.Fits;
    assert forall i | 0 <= i < m :: frames[..m][..i] == frames[..i];
  }

  // ---- exact offset accounting ----

  /** Bytes the writer thread has sent behind the sync payload, with no send error so far. */
  ghost predicate Arrived(a: Attachment, bytes: string) { !a.broken && a.payload + bytes <= a.sent }

  lemma ArrivedPrefix(t: Term, a: Attachment, q: Queue, bytes: string)
    requires AttachedOk(t, a, q) && Arrived(a, bytes)
    ensures bytes <= FrameBytes(a.frames)
  {
    hide TargetsOk, SyncOk, Writes, LogCmds, FrameBytes, Resp.EncodeAll;
    var n := |a.payload|;
    var all := a.payload + FrameBytes(a.frames);
    assert a.sent + (q.draining + q.pending) == all;
    assert a.payload + bytes <= all;
    assert bytes == (a.payload + bytes)[n..] && FrameBytes(a.frames) == all[n..];
  }

  /** Any run of a reachable worker in which it keeps its master and takes the commands in `chunks` off that
      connection. */
  ghost predicate Ran(worker: World, conn: ClientId, run: seq<Event>, chunks: seq<string>) {
    && Reached(worker) && worker.s.info.role == Worker && worker.s.master == Some(conn)
    && ProperRun(worker, run) && Steady(worker, run) && Stays(run, conn)
    && Taken(run, conn) == Resp.DrainChunks("", chunks).cmds
  }

  /** A reachable master `w`, its client `c` that attached by FULLRESYNC, and such a run of the server behind `c`,
      from the announced offset on, with any chunks of what was sent to it. */
  ghost predicate Replicates(w: World, c: ClientId, worker: World, conn: ClientId, run: seq<Event>,
                             chunks: seq<string>)
  {
    && Reached(w) && w.s.info.role == Master && c in w.h.attached && w.h.attached[c].sync.Full?
    && Arrived(w.h.attached[c], Resp.Concat(chunks))
    && Ran(worker, conn, run, chunks) && worker.s.info.offset == w.h.attached[c].from
  }

  /** The commands such a server takes are the complete frames among what has arrived. */
  lemma FramesTaken(w: World, c: ClientId, worker: World, conn: ClientId, run: seq<Event>, chunks: seq<string>)
    returns (m: nat)
    requires Replicates(w, c, worker, conn, run, chunks)
    ensures CutAt(w.h.attached[c].frames, |Resp.Concat(chunks)|, m) && m <= |w.h.attached[c].frames|
    ensures Following(worker, conn) && Taken(run, conn) == Received(w.h.attached[c].frames[..m])
    ensures Genuine(w.h.attached[c].frames[..m]) && TargetsOk(w.h.attached[c].frames[..m], worker.s.info.offset)
  {
    hide Reached, Inv, AttachedOk, Tracks, TermBase, FrameBytes, TargetsOk, LogOk, Genuine, Resp.DrainChunks,
         Resp.Concat, Received, Arrived, Taken, Steady, Stays, ProperRun;
    ReachedInv(w);
    ReachedInv(worker);
    AttachedNow(w, c);
    var a := w.h.attached[c];
    ArrivedPrefix(TermOf(w), a, w.s.queues[c], Resp.Concat(chunks));
    QueuedGenuine(TermOf(w), a, w.s.queues[c]);
    m := ChunksGiveFrames(a.frames, chunks);
    FullTargets(TermOf(w), a, w.s.queues[c]);
    PrefixOk(a.frames, m, a.from);
  }

  /** Whatever part of its stream was sent to a replica attached by FULLRESYNC, in whatever chunks it arrives
      and whatever else the replica does meanwhile: it has applied exactly the complete frames, and answered the
      GETACKs among them, the j-th one with the offset the master had when it queued it plus 37 bytes for each
      earlier GETACK. */
  lemma ExactAcks(w: World, c: ClientId, worker: World, conn: ClientId, run: seq<Event>, chunks: seq<string>,
                  clock: nat -> int) returns (m: nat)
    requires Replicates(w, c, worker, conn, run, chunks) && Clocked(run, conn, clock)
    ensures CutAt(w.h.attached[c].frames, |Resp.Concat(chunks)|, m)
    ensures Followed(worker.s, conn, w.h.attached[c].frames[..m], clock, After(worker, run).s)
  {
    hide Reached, Arrived, Following, TargetsOk, Genuine, Resp.DrainChunks, Resp.Concat, CutAt, Received, Followed,
         Taken, Clocked, Steady, Stays, ProperRun, After;
    m := FramesTaken(w, c, worker, conn, run, chunks);
    RunFollows(worker, conn, run, w.h.attached[c].frames[..m], clock);
  }

  lemma FullTargets(t: Term, a: Attachment, q: Queue)
    requires AttachedOk(t, a, q) && a.sync.Full?
    ensures TargetsOk(a.frames, a.from)
  {
    hide TargetsOk, Delivered, Writes, StreamTo, Replay, Rdb.Serialized, Orders;
  }

  // ---- a WAIT and its acknowledgements ----

  /** The j-th acknowledgement, for the GETACK at position `i`. */
  lemma {:induction false} AckOf(frames: seq<Frame>, i: nat)
    requires i < |frames| && frames[i].GetAck?
    ensures var k := GetAcks(frames[..i]);
      k < |ExpectedAcks(frames)| == GetAcks(frames) && ExpectedAcks(frames)[k] == frames[i].wait.target + 37 * k
    decreases |frames|
  {
    var n := |frames| - 1;
    AckCount(frames[..n]);
    AckCount(frames);
    if i < n {
      AckOf(frames[..n], i);
      assert frames[..n][..i] == frames[..i];
    }
  }

  lemma {:induction false} AckCount(frames: seq<Frame>)
    ensures |ExpectedAcks(frames)| == GetAcks(frames)
    decreases |frames|
  {
    if frames != [] { AckCount(frames[..|frames| - 1]); }
  }

  lemma {:induction false} AskedIndex(frames: seq<Frame>, x: Wait) returns (j: nat)
    requires AskedBy(frames)[x] > 0
    ensures j < |frames| && frames[j] == GetAck(x)
    decreases |frames|
  {
    var n := |frames| - 1;
    if frames[n] == GetAck(x) { j := n; } else { j := AskedIndex(frames[..n], x); }
  }

  /** In every run: each replica's stream holds a GETACK of its own for every WAIT parked since the replica attached,
      queued when the master's offset was the WAIT's target. */
  lemma WaitsAsk(w: World, c: ClientId)
    requires Reached(w) && w.s.info.role == Master && c in w.h.attached
    ensures var a := w.h.attached[c];
      && multiset(w.s.waits) <= a.earlier + AskedBy(a.frames)
      && a.start <= |w.h.log|
      && TargetsOk(a.frames, TermBase(w) + |StreamTo(TermOf(w), a.start)|)
  {
    hide Reached, Inv, AttachedOk, TermBase, TargetsOk, AskedBy, StreamTo, Resp.EncodeAll;
    ReachedInv(w);
    AttachedIn(w, c);
    AttachedTargets(TermOf(w), w.h.attached[c], w.s.queues[c]);
    AskedNow(w, c);
  }

  lemma AttachedIn(w: World, c: ClientId)
    requires Inv(w) && w.s.info.role == Master && c in w.h.attached
    ensures c in w.s.queues && AttachedOk(TermOf(w), w.h.attached[c], w.s.queues[c])
  {
    hide *;
    AttachedNow(w, c);
  }

  lemma AttachedTargets(t: Term, a: Attachment, q: Queue)
    requires AttachedOk(t, a, q)
    ensures a.start <= |t.log| && TargetsOk(a.frames, t.base + |StreamTo(t, a.start)|)
  {
    hide TargetsOk, SyncOk, Delivered, Writes, StreamTo;
  }

  lemma AskedNow(w: World, c: ClientId)
    requires Inv(w) && w.s.info.role == Master && c in w.h.attached
    ensures AskedOf(w.h.attached[c], w.s.waits)
  {
    hide Sane, WaitsKept, StreamsOk, Reported, Covered, AskedOf;
  }

  lemma {:induction false} StillParkedIff(s: State, ws: seq<Wait>, cause: Cause, x: Wait)
    ensures x in StillParked(s, ws, cause) <==> x in ws && !Due(s, x, cause)
    decreases |ws|
  {
    hide Due;
    if ws != [] {
      StillParkedIff(s, ws[1..], cause, x);
      assert x in ws <==> x == ws[0] || x in ws[1..];
    }
  }

  lemma {:induction false} CountWithout(ids: seq<ClientId>, clients: map<ClientId, Client>, target: int, c: ClientId)
    requires Distinct(ids) && c in ids && c in clients
    ensures CountAcks(ids, clients, target) ==
      CountAcks(Remove(ids, c), clients, target) + if clients[c].ack >= target then 1 else 0
    decreases |ids|
  {
    var rest := ids[1..];
    assert Distinct(rest);
    if ids[0] == c {
      assert c !in rest;
      RemoveAbsent(rest, c);
      assert Remove(ids, c) == [] + Remove(rest, c) == rest;
    } else {
      CountWithout(rest, clients, target, c);
      assert Remove(ids, c)[1..] == Remove(rest, c);
    }
  }

  lemma {:induction false} RemoveAbsent(ids: seq<ClientId>, c: ClientId)
    requires c !in ids
    ensures Remove(ids, c) == ids
    decreases |ids|
  {
    if ids != [] { RemoveAbsent(ids[1..], c); }
  }

  /** `c` is one of the replicas the count for `target` is made of. */
  ghost predicate Counts(s: State, c: ClientId, target: int) {
    CaughtUp(s, target) == 1 + CountAcks(Remove(s.replicas, c), s.clients, target)
  }

  /** An acknowledgement at or above the target of a parked WAIT counts for it, and the WAIT stays parked exactly as
      long as the count is short. */
  lemma AckCounts(s: State, c: ClientId, n: nat, x: Wait, now: int)
    requires Sane(s) && c in s.replicas && n <= LLONG_MAX && n >= x.target && x in s.waits
    ensures var t := ReplicaCommand(s, c, Resp.Parsed(AckReply(n)).args, now);
      && c in s.clients && Counts(t, c, x.target)
      && (x in t.waits <==> CaughtUp(t, x.target) < x.needed)
  {
    hide ReplicaCommand, Resp.Parsed, AckReply, CountAcks, Remove, Settle;
    AckArrives(s, c, n, now);
    var args := ["REPLCONF", "ACK", ToString(n)];
    AckParsed(n);
    AckSettles(s, c, n, now);
    var u := s.(store := Executed(args, s.store, s.info, false, now),
                clients := s.clients[c := s.clients[c].(ack := n)]);
    var t := Settle(u, Acks);
    SettledSame(u, x);
    CountWithout(t.replicas, t.clients, x.target, c);
  }

  lemma AckParsed(n: nat)
    requires n <= LLONG_MAX
    ensures Resp.Parsed(AckReply(n)).args == ["REPLCONF", "ACK", ToString(n)]
  {
    hide Resp.Encode, Resp.Parsed, Dec;
    var args := ["REPLCONF", "ACK", ToString(n)];
    AckFits(n);
    Resp.RoundTrip(args, "");
    assert Resp.Encode(args) + "" == Resp.Encode(args);
  }

  lemma AckSettles(s: State, c: ClientId, n: nat, now: int)
    requires c in s.clients && n <= LLONG_MAX
    ensures var args := ["REPLCONF", "ACK", ToString(n)];
      var u := s.(store := Executed(args, s.store, s.info, false, now),
                  clients := s.clients[c := s.clients[c].(ack := n)]);
      ReplicaCommand(s, c, args, now) == Settle(u, Acks)
  {
    hide Executed, Settle, Dec, Parse;
    ParseDec(n, LLONG_MAX);
    assert ToUpper("REPLCONF") == "REPLCONF" && ToUpper("ACK") == "ACK";
  }

  lemma SettledSame(u: State, x: Wait)
    ensures var t := Settle(u, Acks);
      && t.replicas == u.replicas && SameButOutput(u.clients, t.clients)
      && CaughtUp(t, x.target) == CaughtUp(u, x.target)
      && (x in t.waits <==> x in u.waits && CaughtUp(u, x.target) < x.needed)
  {
    hide StillParked, Told, CountAcks;
    ToldSame(u, u.waits, Acks, u.clients);
    StillParkedIff(u, u.waits, Acks, x);
    CountSame(u.replicas, u.clients, Settle(u, Acks).clients, x.target);
  }

  /** A WAIT and its answer, end to end. Whoever was attached by FULLRESYNC when the WAIT was parked has been sent, or
      will be sent, a GETACK for it. Once that GETACK is among the frames the replica took, the replica's output holds
      an acknowledgement that, parsed and dispatched by the master, makes the replica count for this WAIT; the WAIT is
      then answered exactly when enough replicas count. */
  lemma WaitRoundTrip(w: World, c: ClientId, x: Wait, worker: World, conn: ClientId, run: seq<Event>,
                      chunks: seq<string>, clock: nat -> int, now: int) returns (m: nat, j: nat)
    requires Replicates(w, c, worker, conn, run, chunks) && Clocked(run, conn, clock)
    requires multiset(w.s.waits)[x] > w.h.attached[c].earlier[x]
    ensures CutAt(w.h.attached[c].frames, |Resp.Concat(chunks)|, m)
    ensures j < |w.h.attached[c].frames| && w.h.attached[c].frames[j] == GetAck(x)
    ensures j < m ==> AnswersIn(w.s, c, x, w.h.attached[c].frames[..m], GetAcks(w.h.attached[c].frames[..j]),
                                worker.s, After(worker, run).s, conn, now)
  {
    hide Reached, Inv, Followed, Arrived, ProperRun, Steady, Stays, Taken, Clocked, Resp.Concat, Resp.DrainChunks,
         After, AskedBy, AnswersIn, CutAt, GetAcks, TargetsOk, StreamTo;
    var frames := w.h.attached[c].frames;
    m := ExactAcks(w, c, worker, conn, run, chunks, clock);
    WaitsAsk(w, c);
    j := AskedIndex(frames, x);
    CutBound(frames, |Resp.Concat(chunks)|, m);
    if j < m {
      ReachedInv(w);
      ReplicaNow(w, c, x);
      assert frames[..m][..j] == frames[..j] && frames[..m][j] == GetAck(x);
      AnswersNow(w.s, c, x, frames[..m], j, worker.s, After(worker, run).s, conn, clock, now);
    }
  }

  /** The k-th acknowledgement in what the worker wrote to `conn` makes `c` count for `x` on the master. */
  ghost predicate AnswersIn(s: State, c: ClientId, x: Wait, frames: seq<Frame>, k: nat, start: State, end: State,
                            conn: ClientId, now: int)
  {
    var acks := ExpectedAcks(frames);
    && conn in start.clients && conn in end.clients && c in s.clients && k < |acks|
    && end.clients[conn].out == start.clients[conn].out + AckTexts(acks)
    && (acks[k] <= LLONG_MAX ==>
          var t := ReplicaCommand(s, c, Resp.Parsed(AckReply(acks[k])).args, now);
          Counts(t, c, x.target) && (x in t.waits <==> CaughtUp(t, x.target) < x.needed))
  }

  lemma CutBound(frames: seq<Frame>, n: nat, m: nat)
    requires CutAt(frames, n, m)
    ensures m <= |frames|
  {
  }

  lemma ReplicaNow(w: World, c: ClientId, x: Wait)
    requires Inv(w) && w.s.info.role == Master && c in w.h.attached && x in w.s.waits
    ensures Sane(w.s) && c in w.s.replicas && x.target > 0
  {
    hide AttachedOk, TermOk, Conserved, Honest, CaughtUp, Reported, AllAsked, KeysFit;
  }

  lemma AnswersNow(s: State, c: ClientId, x: Wait, frames: seq<Frame>, j: nat, start: State, end: State, conn: ClientId,
                   clock: nat -> int, now: int)
    requires Sane(s) && c in s.replicas && x in s.waits && x.target > 0
    requires Followed(start, conn, frames, clock, end) && j < |frames| && frames[j] == GetAck(x)
    ensures AnswersIn(s, c, x, frames, GetAcks(frames[..j]), start, end, conn, now)
  {
    hide ReplicaCommand, Resp.Parsed, AckReply, Counts, CaughtUp, FrameBytes, DataAfter, AckTexts, ExpectedAcks,
         GetAcks;
    AckOf(frames, j);
    var n := ExpectedAcks(frames)[GetAcks(frames[..j])];
    ReplicaIsClient(s, c);
    if n <= LLONG_MAX { AckCounts(s, c, n, x, now); }
  }

  lemma ReplicaIsClient(s: State, c: ClientId)
    requires Sane(s) && c in s.replicas
    ensures c in s.clients
  {
  }

  lemma FourDigits(n: nat)
    ensures |Dec(n)| <= 4 + |Dec(n / 10000)|
  {
    hide Dec;
    OneDigit(n);
    OneDigit(n / 10);
    OneDigit(n / 100);
    OneDigit(n / 1000);
    assert n / 10 / 10 == n / 100 && n / 100 / 10 == n / 1000 && n / 1000 / 10 == n / 10000;
  }

  lemma OneDigit(n: nat)
    ensures |Dec(n)| <= 1 + |Dec(n / 10)|
  {
  }

  lemma AckFits(n: nat)
    requires n <= LLONG_MAX
    ensures Resp.Fits(["REPLCONF", "ACK", ToString(n)])
  {
    hide Dec;
    FourDigits(n);
    FourDigits(n / 10000);
    FourDigits(n / 10000 / 10000);
    FourDigits(n / 10000 / 10000 / 10000);
    FourDigits(n / 10000 / 10000 / 10000 / 10000);
    assert n / 10000 / 10000 / 10000 / 10000 / 10000 == 0;
    ZeroIsOneDigit();
  }

  lemma ZeroIsOneDigit()
    ensures |Dec(0)| == 1
  {
  }

  lemma AckNoted(s: State, c: ClientId, n: nat, now: int)
    requires c in s.clients && n <= LLONG_MAX
    ensures var t := ReplicaCommand(s, c, ["REPLCONF", "ACK", ToString(n)], now);
            c in t.clients && t.clients[c].ack == n
  {
    hide Executed, StillParked, Told, Dec, Parse;
    var args := ["REPLCONF", "ACK", ToString(n)];
    ParseDec(n, LLONG_MAX);
    assert ToUpper("REPLCONF") == "REPLCONF" && ToUpper("ACK") == "ACK";
    var t := s.(store := Executed(args, s.store, s.info, false, now));
    var u := t.(clients := t.clients[c := t.clients[c].(ack := n)]);
    ToldSame(u, u.waits, Acks, u.clients);
  }

  /** The text of an acknowledgement, parsed and dispatched by the master, sets the replica's offset. */
  lemma AckArrives(s: State, c: ClientId, n: nat, now: int)
    requires c in s.clients && n <= LLONG_MAX
    ensures var r := Resp.Parsed(AckReply(n));
      && r.consumed == |AckReply(n)| > 0
      && c in ReplicaCommand(s, c, r.args, now).clients
      && ReplicaCommand(s, c, r.args, now).clients[c].ack == n
  {
    hide Resp.Encode, ReplicaCommand, Resp.Parsed, Dec;
    var args := ["REPLCONF", "ACK", ToString(n)];
    AckFits(n);
    Resp.RoundTrip(args, "");
    Resp.NonEmpty(args);
    assert Resp.Encode(args) + "" == Resp.Encode(args);
    AckNoted(s, c, n, now);
  }

  // ---- the snapshot and the log ----

  /** The replica holds only keys and values of the master; a master key it lacks is an entry of the snapshot,
      unchanged since, that was not alive any more when the snapshot was loaded. */
  ghost predicate Mirrors(replica: Data, master: Data, snapshot: Data, at: Rdb.Instant, sysMs: int) {
    && (forall k | k in replica :: k in master && replica[k].value == master[k].value
                                 && (replica[k].expiry.Some? <==> master[k].expiry.Some?))
    && (forall k | k in master && k !in replica ::
          k in snapshot && master[k] == snapshot[k] && !RdbProofs.Survives(snapshot[k], at, sysMs))
  }

  /** A write, accepted or rejected, executed at any two times keeps the replica in step. */
  lemma EffectMirrors(args: Command, r: Data, m: Data, snapshot: Data, at: Rdb.Instant, sysMs: int, t1: int, t2: int)
    requires Mirrors(r, m, snapshot, at, sysMs)
    ensures Mirrors(Effect(args, r, t1), Effect(args, m, t2), snapshot, at, sysMs)
  {
    hide SetOptions, ToUpper, RdbProofs.Survives;
  }

  lemma LoadMirrors(order: seq<string>, m: Data, at: Rdb.Instant, clocks: Rdb.Clocks)
    requires Orders(order, m.Keys) && RdbProofs.AllEncodable(m, at)
    ensures Rdb.LoadResult(Rdb.Serialized(order, m, at), clocks).ok
    ensures Mirrors(Rdb.LoadResult(Rdb.Serialized(order, m, at), clocks).data, m, m, at, clocks.sysMs)
  {
    hide Rdb.LoadResult, Rdb.Serialized, RdbProofs.Survives, RdbProofs.AllEncodable, Rdb.Deadline;
    RdbProofs.RoundTrip(order, m, at, clocks);
  }

  /** Replaying the log on the master and the frames on the replica keeps them in step. */
  lemma {:induction false} FramesMirror(t: Term, a: Attachment, frames: seq<Frame>, r: Data, at: Rdb.Instant,
                                        sysMs: int, clock: nat -> int)
    requires a.start + |Writes(frames)| <= |t.log|
    requires Writes(frames) == LogCmds(t.log[a.start..a.start + |Writes(frames)|])
    requires var m := Replay(t.initial, t.log[..a.start]); Mirrors(r, m, m, at, sysMs)
    ensures Mirrors(DataAfter(r, frames, clock), Replay(t.initial, t.log[..a.start + |Writes(frames)|]),
                    Replay(t.initial, t.log[..a.start]), at, sysMs)
    decreases |frames|
  {
    hide Mirrors, Effect, Replay, LogCmds, Writes;
    if frames == [] {
      NoFrames();
    } else {
      var n := |frames| - 1;
      var before, last := frames[..n], frames[n];
      var p := a.start + |Writes(before)|;
      assert frames == before + [last];
      WritesAppend(before, last);
      if last.Write? {
        LogSlice(t.log, a.start, Writes(before), last.args);
        FramesMirror(t, a, before, r, at, sysMs, clock);
        ReplayPrefix(t.initial, t.log, p);
        EffectMirrors(last.args, DataAfter(r, before, clock), Replay(t.initial, t.log[..p]),
                      Replay(t.initial, t.log[..a.start]), at, sysMs, clock(n), t.log[p].now);
      } else {
        assert Writes(frames) == Writes(before);
        FramesMirror(t, a, before, r, at, sysMs, clock);
        GetAckNoEffect(DataAfter(r, before, clock), clock(n));
      }
    }
  }

  lemma ReplayPrefix(m: Data, log: seq<Logged>, p: nat)
    requires p < |log|
    ensures Replay(m, log[..p + 1]) == Effect(log[p].args, Replay(m, log[..p]), log[p].now)
  {
    assert log[..p + 1][..p] == log[..p];
  }

  lemma LogSlice(log: seq<Logged>, start: nat, cmds: seq<Command>, args: Command)
    requires start + |cmds| + 1 <= |log| && cmds + [args] == LogCmds(log[start..start + |cmds| + 1])
    ensures cmds == LogCmds(log[start..start + |cmds|]) && log[start + |cmds|].args == args
  {
    var l := LogCmds(log[start..start + |cmds| + 1]);
    assert l[|cmds|] == args;
    assert l[..|cmds|] == LogCmds(log[start..start + |cmds|]);
  }

  lemma GetAckNoEffect(m: Data, now: int)
    ensures Effect(GETACK, m, now) == m
  {
    assert ToUpper("REPLCONF") == "REPLCONF";
    NoEffect(GETACK, m, now);
  }

  lemma {:induction false} WritesPrefix(frames: seq<Frame>, n: nat)
    requires n <= |frames|
    ensures |Writes(frames[..n])| <= |Writes(frames)| && Writes(frames[..n]) == Writes(frames)[..|Writes(frames[..n])|]
    decreases |frames|
  {
    if n == |frames| {
      assert frames[..n] == frames;
    } else {
      var before := frames[..|frames| - 1];
      assert before[..n] == frames[..n];
      WritesPrefix(before, n);
    }
  }

  /** Attached by FULLRESYNC, with a snapshot the RDB format can express. */
  ghost predicate Encodable(t: Term, a: Attachment) {
    a.sync.Full? && a.start <= |t.log| && RdbProofs.AllEncodable(Replay(t.initial, t.log[..a.start]), a.sync.at)
  }

  /** `m` is what loading the snapshot of `a` gives. */
  ghost predicate LoadedFrom(t: Term, a: Attachment, clocks: Rdb.Clocks, m: Data) {
    && Encodable(t, a)
    && var snapshot := Replay(t.initial, t.log[..a.start]);
    && Orders(a.sync.order, snapshot.Keys)
    && m == Rdb.LoadResult(Rdb.Serialized(a.sync.order, snapshot, a.sync.at), clocks).data
  }

  /** The replica attached as `a`, after loading its snapshot and applying `n` frames, mirrors the master at the
      log position those frames lead to. */
  ghost predicate MirrorsAt(t: Term, a: Attachment, n: nat, clocks: Rdb.Clocks, clock: nat -> int)
    requires a.sync.Full? && n <= |a.frames|
  {
    var p := a.start + |Writes(a.frames[..n])|;
    && p <= |t.log|
    && var snapshot := Replay(t.initial, t.log[..a.start]);
    && Orders(a.sync.order, snapshot.Keys)
    && var rdb := Rdb.Serialized(a.sync.order, snapshot, a.sync.at);
    && a.payload == FullPayload(t.replid, a.from, rdb)
    && Rdb.LoadResult(rdb, clocks).ok
    && Mirrors(DataAfter(Rdb.LoadResult(rdb, clocks).data, a.frames[..n], clock),
               Replay(t.initial, t.log[..p]), snapshot, a.sync.at, clocks.sysMs)
  }

  lemma AttachedMirrors(t: Term, a: Attachment, q: Queue, n: nat, clocks: Rdb.Clocks, clock: nat -> int)
    requires AttachedOk(t, a, q) && a.sync.Full? && n <= |a.frames|
    requires RdbProofs.AllEncodable(Replay(t.initial, t.log[..a.start]), a.sync.at)
    ensures MirrorsAt(t, a, n, clocks, clock)
  {
    hide FrameBytes, TargetsOk, Replay, Writes, LogCmds, Resp.EncodeAll, DataAfter, Delivered, Rdb.Serialized,
         Rdb.LoadResult, Mirrors, RdbProofs.AllEncodable;
    var snapshot := Replay(t.initial, t.log[..a.start]);
    LoadMirrors(a.sync.order, snapshot, a.sync.at, clocks);
    WritesPrefix(a.frames, n);
    LogCmdsPrefix(t.log, a.start, |Writes(a.frames[..n])|);
    FramesMirror(t, a, a.frames[..n], Rdb.LoadResult(Rdb.Serialized(a.sync.order, snapshot, a.sync.at), clocks).data,
                 a.sync.at, clocks.sysMs, clock);
  }

  /** In every run: a replica that loads its FULLRESYNC snapshot and applies any prefix of the frames queued since
      holds only keys and values the master had at that log position; a master key it lacks comes unchanged from
      the snapshot and was not alive when the snapshot was loaded. Rejected writes are part of the log. */
  lemma SnapshotPlusLog(w: World, c: ClientId, n: nat, clocks: Rdb.Clocks, clock: nat -> int)
    requires Reached(w) && w.s.info.role == Master && c in w.h.attached
    requires Encodable(TermOf(w), w.h.attached[c]) && n <= |w.h.attached[c].frames|
    ensures w.s.store == Replay(w.h.initial, w.h.log)
    ensures MirrorsAt(TermOf(w), w.h.attached[c], n, clocks, clock)
  {
    hide Reached, Inv, AttachedOk, Replay, LogCmds, Resp.EncodeAll, LogOk, MirrorsAt, RdbProofs.AllEncodable;
    ReachedInv(w);
    AttachedNow(w, c);
    AttachedMirrors(TermOf(w), w.h.attached[c], w.s.queues[c], n, clocks, clock);
  }

  /** `replica` mirrors the master at the log position that the first `m` frames lead to. */
  ghost predicate MirrorsAfter(t: Term, a: Attachment, m: nat, clocks: Rdb.Clocks, replica: Data) {
    && a.sync.Full? && m <= |a.frames|
    && var p := a.start + |Writes(a.frames[..m])|;
    && p <= |t.log|
    && Mirrors(replica, Replay(t.initial, t.log[..p]), Replay(t.initial, t.log[..a.start]), a.sync.at, clocks.sysMs)
  }

  function Times(run: seq<Event>, conn: ClientId): (ts: seq<int>)
    ensures |ts| == |Taken(run, conn)|
  {
    if run == [] then [] else
    var n := |run| - 1;
    Times(run[..n], conn) + (if OnConn(run[n], conn) then [run[n].env.now] else [])
  }

  lemma {:induction false} TimesAt(run: seq<Event>, conn: ClientId, i: nat)
    requires i < |run| && OnConn(run[i], conn)
    ensures var k := |Taken(run[..i], conn)|; k < |Times(run, conn)| && Times(run, conn)[k] == run[i].env.now
    decreases |run|
  {
    var n := |run| - 1;
    if i < n {
      TimesAt(run[..n], conn, i);
      assert run[..n][..i] == run[..i];
    }
  }

  lemma SomeClock(run: seq<Event>, conn: ClientId) returns (clock: nat -> int)
    ensures Clocked(run, conn, clock)
  {
    hide Taken, Times;
    var ts := Times(run, conn);
    clock := (i: nat) => if i < |ts| then ts[i] else 0;
    forall i | 0 <= i < |run| && OnConn(run[i], conn)
      ensures clock(|Taken(run[..i], conn)|) == run[i].env.now
    {
      TimesAt(run, conn, i);
    }
  }

  /** From bytes to data: a worker that loaded the snapshot of its FULLRESYNC and took any chunks of what was sent to
      it, whatever else it did meanwhile, mirrors the master at the log position of the last complete frame. */
  lemma EndToEnd(w: World, c: ClientId, worker: World, conn: ClientId, run: seq<Event>,
                 chunks: seq<string>, clocks: Rdb.Clocks) returns (m: nat)
    requires Replicates(w, c, worker, conn, run, chunks)
    requires LoadedFrom(TermOf(w), w.h.attached[c], clocks, worker.s.store)
    ensures CutAt(w.h.attached[c].frames, |Resp.Concat(chunks)|, m)
    ensures MirrorsAfter(TermOf(w), w.h.attached[c], m, clocks, After(worker, run).s.store)
  {
    hide Reached, Replay, Writes, FrameBytes, Resp.Concat, Ran, After, DataAfter, Arrived, Clocked, Rdb.Serialized,
         Rdb.LoadResult, Mirrors, RdbProofs.AllEncodable, AckTexts, ExpectedAcks;
    var clock := SomeClock(run, conn);
    m := ExactAcks(w, c, worker, conn, run, chunks, clock);
    SnapshotPlusLog(w, c, m, clocks, clock);
  }

  lemma LogCmdsPrefix(log: seq<Logged>, start: nat, k: nat)
    requires start <= |log| && k <= |LogCmds(log[start..])|
    ensures start + k <= |log| && LogCmds(log[start..])[..k] == LogCmds(log[start..start + k])
  {
    assert log[start..][..k] == log[start..start + k];
  }

  /** A lacking key was dead or had less than 2 ms to live at load time; with all clocks on whole milliseconds
      its deadline had passed. */
  lemma LackingKeyWasDying(replica: Data, master: Data, snapshot: Data, at: Rdb.Instant, loadSysNs: int, k: string)
    requires Mirrors(replica, master, snapshot, at, Rdb.Millis(loadSysNs)) && k in master && k !in replica
    requires at.sysNs >= 0 && loadSysNs >= at.sysNs
    ensures RdbProofs.Dying(master[k], at, loadSysNs)
    ensures at.sysNs % NS_PER_MS == 0 && loadSysNs % NS_PER_MS == 0
         && (master[k].expiry.value - at.steady) % NS_PER_MS == 0
        ==> RdbProofs.DiesAt(master[k].expiry.value, at.steady, at.sysNs) <= loadSysNs
  {
    RdbProofs.DroppedWasDying(master[k], at, loadSysNs);
  }
}
