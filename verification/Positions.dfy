/** What a replica's offset is worth. A replica counts the GETACKs it is sent, the master does not: an offset says how
    much of the log a replica has applied only after 37 bytes are taken off for each GETACK. */
module Positions {
  import opened Text
  import opened KeyStore
  import opened Commands
  import opened Replication
  import opened Membership
  import opened Waiting
  import opened Streams
  import opened Books
  import opened Runs
  import opened Safety
  import opened Guarantees
  import opened Followers
  import Rdb
  import RdbProofs
  import Resp

  // ---- offsets and log positions ----

  /** How far in the log `m` frames lead. */
  function Position(a: Attachment, m: nat): nat
    requires m <= |a.frames|
  {
    a.start + |Writes(a.frames[..m])|
  }

  /** What a replica counts after `m` frames, less what the GETACKs among them contributed. */
  function Reduced(a: Attachment, m: nat): int
    requires m <= |a.frames|
  {
    a.from + |FrameBytes(a.frames[..m])| - 37 * GetAcks(a.frames[..m])
  }

  lemma StreamToParts(t: Term, start: nat, q: nat)
    requires start <= q <= |t.log|
    ensures StreamTo(t, q) == StreamTo(t, start) + Resp.EncodeAll(LogCmds(t.log[start..q]))
  {
    hide Resp.EncodeAll;
    assert LogCmds(t.log[..q]) == LogCmds(t.log[..start]) + LogCmds(t.log[start..q]);
    Resp.EncodeAllAppend(LogCmds(t.log[..start]), LogCmds(t.log[start..q]));
  }

  lemma StreamGrows(t: Term, p: nat, q: nat)
    requires p <= |t.log| && q <= |t.log|
    ensures p <= q <==> |StreamTo(t, p)| <= |StreamTo(t, q)|
  {
    hide Resp.EncodeAll, LogCmds;
    if p <= q {
      assert t.log[..q][..p] == t.log[..p];
      EncodedGrows(t.log[..q], p);
    } else {
      assert t.log[..p][..q] == t.log[..q];
      EncodedGrows(t.log[..p], q);
    }
  }

  /** The reduced offset is the master's offset behind the log entries applied. */
  lemma ReducedIs(t: Term, a: Attachment, queue: Queue, m: nat)
    requires AttachedOk(t, a, queue) && a.sync.Full? && m <= |a.frames|
    ensures Position(a, m) <= |t.log| && Reduced(a, m) == t.base + |StreamTo(t, Position(a, m))|
  {
    hide Writes, LogCmds, Resp.EncodeAll, TargetsOk, Delivered, FrameBytes, GetAcks, Replay, Rdb.Serialized;
    WritesPrefix(a.frames, m);
    LogCmdsPrefix(t.log, a.start, |Writes(a.frames[..m])|);
    StreamToParts(t, a.start, Position(a, m));
    FrameLengths(a.frames[..m]);
  }

  lemma ReducedNow(w: World, c: ClientId, m: nat)
    requires Reached(w) && w.s.info.role == Master && c in w.h.attached && w.h.attached[c].sync.Full?
    requires m <= |w.h.attached[c].frames|
    ensures var a := w.h.attached[c];
      && Position(a, m) <= |w.h.log| && Reduced(a, m) == TermBase(w) + |StreamTo(TermOf(w), Position(a, m))|
  {
    hide Reached, Inv, AttachedOk, TermBase, StreamTo, Position, Reduced;
    ReachedInv(w);
    AttachedIn(w, c);
    ReducedIs(TermOf(w), w.h.attached[c], w.s.queues[c], m);
  }

  // ---- the choice of the best replica ----

  /** Two replicas of one master, each in a run of its own: the first has applied at most as much of the log as the
      second if and only if its offset, less 37 bytes per GETACK taken, is at most that of the second. A failover
      compares the offsets as they are. */
  lemma RankedByOffset(w: World, c1: ClientId, w1: World, conn1: ClientId, run1: seq<Event>, chunks1: seq<string>,
                       c2: ClientId, w2: World, conn2: ClientId, run2: seq<Event>, chunks2: seq<string>)
    returns (m1: nat, m2: nat)
    requires Replicates(w, c1, w1, conn1, run1, chunks1) && Replicates(w, c2, w2, conn2, run2, chunks2)
    ensures CutAt(w.h.attached[c1].frames, |Resp.Concat(chunks1)|, m1)
    ensures CutAt(w.h.attached[c2].frames, |Resp.Concat(chunks2)|, m2)
    ensures Compared(w.h.attached[c1], m1, After(w1, run1).s, w.h.attached[c2], m2, After(w2, run2).s)
  {
    hide Compared, Reached, ProperRun, Steady, Stays, Taken, Resp.DrainChunks, Arrived, Resp.Concat, After, CutAt,
         TermBase, StreamTo, Position, Reduced;
    m1 := CountedOffset(w, c1, w1, conn1, run1, chunks1);
    m2 := CountedOffset(w, c2, w2, conn2, run2, chunks2);
    ReducedNow(w, c1, m1);
    ReducedNow(w, c2, m2);
    var t, a1, a2 := TermOf(w), w.h.attached[c1], w.h.attached[c2];
    StreamGrows(t, Position(a1, m1), Position(a2, m2));
    StreamGrows(t, Position(a2, m2), Position(a1, m1));
    ComparedNow(a1, m1, After(w1, run1).s, a2, m2, After(w2, run2).s);
  }

  /** Log positions are ordered as the reduced offsets of the two servers are. */
  ghost predicate Compared(a1: Attachment, m1: nat, s1: State, a2: Attachment, m2: nat, s2: State) {
    && m1 <= |a1.frames| && m2 <= |a2.frames|
    && var r1, r2 := s1.info.offset - 37 * GetAcks(a1.frames[..m1]), s2.info.offset - 37 * GetAcks(a2.frames[..m2]);
    && (Position(a1, m1) <= Position(a2, m2) <==> r1 <= r2)
    && (Position(a1, m1) == Position(a2, m2) <==> r1 == r2)
  }

  lemma ComparedNow(a1: Attachment, m1: nat, s1: State, a2: Attachment, m2: nat, s2: State)
    requires m1 <= |a1.frames| && s1.info.offset == a1.from + |FrameBytes(a1.frames[..m1])|
    requires m2 <= |a2.frames| && s2.info.offset == a2.from + |FrameBytes(a2.frames[..m2])|
    requires Position(a1, m1) <= Position(a2, m2) <==> Reduced(a1, m1) <= Reduced(a2, m2)
    requires Position(a2, m2) <= Position(a1, m1) <==> Reduced(a2, m2) <= Reduced(a1, m1)
    ensures Compared(a1, m1, s1, a2, m2, s2)
  {
    hide FrameBytes, GetAcks, Writes;
  }

  /** What such a server counts. */
  lemma CountedOffset(w: World, c: ClientId, worker: World, conn: ClientId, run: seq<Event>, chunks: seq<string>)
    returns (m: nat)
    requires Replicates(w, c, worker, conn, run, chunks)
    ensures CutAt(w.h.attached[c].frames, |Resp.Concat(chunks)|, m) && m <= |w.h.attached[c].frames|
    ensures After(worker, run).s.info.offset == w.h.attached[c].from + |FrameBytes(w.h.attached[c].frames[..m])|
  {
    hide Reached, Arrived, Resp.Concat, Resp.DrainChunks, After, ProperRun, Steady, Stays, Taken, FrameBytes, DataAfter,
         AckTexts, ExpectedAcks, Clocked;
    var clock := SomeClock(run, conn);
    m := ExactAcks(w, c, worker, conn, run, chunks, clock);
  }

  // ---- the sibling of a promoted replica ----

  /** One replica is promoted and serves any run, another asks it to continue. If it is continued, both have counted the
      same offset; they have applied the same part of the log if and only if they took equally many GETACKs. */
  lemma ContinuedSibling(w: World, c1: ClientId, w1: World, conn1: ClientId, run1: seq<Event>, chunks1: seq<string>,
                         c2: ClientId, w2: World, conn2: ClientId, run2: seq<Event>, chunks2: seq<string>,
                         e: Event, run: seq<Event>) returns (m1: nat, m2: nat)
    requires Replicates(w, c1, w1, conn1, run1, chunks1) && Replicates(w, c2, w2, conn2, run2, chunks2)
    requires Promotes(After(w1, run1), e)
    requires After(w1, run1).s.info.replid != "?" && e.env.freshId != After(w1, run1).s.info.replid
    requires ProperRun(Next(After(w1, run1), e), run) && Steady(Next(After(w1, run1), e), run)
    ensures CutAt(w.h.attached[c1].frames, |Resp.Concat(chunks1)|, m1)
    ensures CutAt(w.h.attached[c2].frames, |Resp.Concat(chunks2)|, m2)
    ensures Continues(After(Next(After(w1, run1), e), run).s, After(w1, run1).s.info.replid,
                      After(w2, run2).s.info.offset)
      ==> After(w1, run1).s.info.offset == After(w2, run2).s.info.offset
          && SameData(w.h.attached[c1], m1, w.h.attached[c2], m2)
  {
    hide Compared, Reached, ProperRun, Steady, Stays, Taken, Resp.DrainChunks, Arrived, Resp.Concat, After, CutAt,
         Enabled, Proper, ToUpper, Next, Continues, SameData;
    m1, m2 := RankedByOffset(w, c1, w1, conn1, run1, chunks1, c2, w2, conn2, run2, chunks2);
    var v, offset := After(w1, run1), After(w2, run2).s.info.offset;
    PromotionIdentity(v, e, run, offset);
    if v.s.info.offset == offset {
      SameDataNow(w.h.attached[c1], m1, v.s, w.h.attached[c2], m2, After(w2, run2).s);
    }
  }

  /** The same part of the log exactly with the same number of GETACKs. */
  ghost predicate SameData(a1: Attachment, m1: nat, a2: Attachment, m2: nat) {
    && m1 <= |a1.frames| && m2 <= |a2.frames|
    && (Position(a1, m1) == Position(a2, m2) <==> GetAcks(a1.frames[..m1]) == GetAcks(a2.frames[..m2]))
  }

  lemma SameDataNow(a1: Attachment, m1: nat, s1: State, a2: Attachment, m2: nat, s2: State)
    requires Compared(a1, m1, s1, a2, m2, s2) && s1.info.offset == s2.info.offset
    ensures SameData(a1, m1, a2, m2)
  {
    hide GetAcks, Position;
  }

  /** Two replicas that have applied the same part of the log agree on every key both hold; a key only one of them holds
      comes unchanged from the snapshot of the other and was not alive when that snapshot was loaded. */
  lemma SiblingsAgree(t: Term, a1: Attachment, m1: nat, clocks1: Rdb.Clocks, store1: Data,
                      a2: Attachment, m2: nat, clocks2: Rdb.Clocks, store2: Data)
    requires MirrorsAfter(t, a1, m1, clocks1, store1) && MirrorsAfter(t, a2, m2, clocks2, store2)
    requires Position(a1, m1) == Position(a2, m2)
    ensures forall k | k in store1 && k in store2 :: store1[k].value == store2[k].value
    ensures a2.start <= |t.log| && var snapshot := Replay(t.initial, t.log[..a2.start]);
      forall k | k in store1 && k !in store2 ::
        k in snapshot && store1[k].value == snapshot[k].value
        && !RdbProofs.Survives(snapshot[k], a2.sync.at, clocks2.sysMs)
  {
    hide Replay, Writes, RdbProofs.Survives;
  }

  // ---- what the count of a WAIT is worth ----

  lemma CountsIff(s: State, c: ClientId, target: int)
    requires Sane(s) && c in s.replicas
    ensures c in s.clients && (Counts(s, c, target) <==> target <= s.clients[c].ack)
  {
    hide CountAcks, Remove, WaitersLive, Offsets;
    CountWithout(s.replicas, s.clients, target, c);
  }

  /** The worker's run ends with a GETACK taken. */
  ghost predicate TakesGetAck(run: seq<Event>, conn: ClientId) {
    run != [] && OnConn(run[|run| - 1], conn) && run[|run| - 1].args == GETACK
  }

  lemma LastIsGetAck(frames: seq<Frame>, run: seq<Event>, conn: ClientId)
    requires Taken(run, conn) == Received(frames) && Genuine(frames) && TakesGetAck(run, conn)
    ensures frames != [] && frames[|frames| - 1].GetAck?
    ensures Taken(run[..|run| - 1], conn) == Received(frames[..|frames| - 1])
  {
    hide Received, Genuine, Resp.Encode;
    OnePerFrame(frames);
    ReceivedSnoc(frames);
    LastCmd(frames);
  }

  lemma LastCmd(frames: seq<Frame>)
    requires Genuine(frames) && frames != [] && frames[|frames| - 1].Cmd() == GETACK
    ensures frames[|frames| - 1].GetAck?
  {
    hide Resp.Fits;
    var f := frames[|frames| - 1];
    if f.Write? { WriteNotAnswered(f.args); GetAckName(); }
  }

  lemma GetAckName()
    ensures IsGetAck(GETACK)
  {
    assert ToUpper("REPLCONF") == "REPLCONF" && ToUpper("GETACK") == "GETACK";
  }

  /** The state of a worker before the last event of a run. */
  ghost function BeforeLastEvent(worker: World, run: seq<Event>): State
    requires ProperRun(worker, run) && run != []
  {
    RunSnoc(worker, run);
    After(worker, run[..|run| - 1]).s
  }

  /** What a count is worth. The run of a replica ends with a GETACK taken, and the master has recorded the replica's
      acknowledgement for it. Then the replica wrote just this acknowledgement, and its data was that of the master at
      the log position of the frames before. Let `p` be a log entry and the target of a WAIT the offset behind it: the
      WAIT counts the replica if and only if the target is at most the acknowledgement; it does so truthfully, the
      replica having applied the entry, if and only if the target is at most the acknowledgement less 37 bytes for
      each GETACK the replica had taken before. */
  lemma CountTruthful(w: World, c: ClientId, worker: World, conn: ClientId, run: seq<Event>, chunks: seq<string>,
                      clocks: Rdb.Clocks, p: nat) returns (m: nat)
    requires Replicates(w, c, worker, conn, run, chunks) && TakesGetAck(run, conn) && p < |w.h.log|
    requires LoadedFrom(TermOf(w), w.h.attached[c], clocks, worker.s.store)
    requires c in w.s.clients && w.s.clients[c].ack == BeforeLastEvent(worker, run).info.offset
    ensures CutAt(w.h.attached[c].frames, |Resp.Concat(chunks)|, m)
    ensures 0 < m <= |w.h.attached[c].frames| && w.h.attached[c].frames[m - 1].GetAck?
    ensures Wrote(BeforeLastEvent(worker, run), After(worker, run).s, conn, AckReply(w.s.clients[c].ack))
    ensures MirrorsAfter(TermOf(w), w.h.attached[c], m - 1, clocks, BeforeLastEvent(worker, run).store)
    ensures var target := TermBase(w) + |StreamTo(TermOf(w), p + 1)|; var ack := w.s.clients[c].ack;
      && (Counts(w.s, c, target) <==> target <= ack)
      && (Counts(w.s, c, target) && p < Position(w.h.attached[c], m - 1)
          <==> target <= ack - 37 * GetAcks(w.h.attached[c].frames[..m - 1]))
  {
    hide Reached, Arrived, Following, TargetsOk, Genuine, Resp.DrainChunks, Resp.Concat, CutAt, Received, Taken,
         Clocked, Steady, Stays, ProperRun, After, MirrorsAfter, Counts, TermBase, StreamTo, Position, Reduced,
         TakesGetAck, LoadedFrom, Wrote, AckReply, GetAcks, FrameBytes;
    m := FramesTaken(w, c, worker, conn, run, chunks);
    var a := w.h.attached[c];
    LastIsGetAck(a.frames[..m], run, conn);
    assert a.frames[..m][..m - 1] == a.frames[..m - 1];
    BeforeGetAck(w, c, worker, conn, run, m, clocks);
    ReducedNow(w, c, m - 1);
    IsReplica(w, c);
    CountsIff(w.s, c, TermBase(w) + |StreamTo(TermOf(w), p + 1)|);
    StreamGrows(TermOf(w), p + 1, Position(a, m - 1));
    ReducedOf(a, m - 1);
    GetAcksPositive(a.frames[..m - 1]);
  }

  lemma ReducedOf(a: Attachment, m: nat)
    requires m <= |a.frames|
    ensures Reduced(a, m) == a.from + |FrameBytes(a.frames[..m])| - 37 * GetAcks(a.frames[..m])
  {
  }

  lemma GetAcksPositive(frames: seq<Frame>)
    ensures GetAcks(frames) >= 0
  {
  }

  lemma IsReplica(w: World, c: ClientId)
    requires Reached(w) && w.s.info.role == Master && c in w.h.attached
    ensures Sane(w.s) && c in w.s.replicas
  {
    hide Reached, Sane, WaitsKept, StreamsOk, Reported, AllAsked;
    ReachedInv(w);
  }

  ghost predicate Wrote(before: State, after: State, conn: ClientId, text: string) {
    conn in before.clients && conn in after.clients && after.clients[conn].out == before.clients[conn].out + text
  }

  /** The replica just before the last GETACK, and what it answers. */
  lemma BeforeGetAck(w: World, c: ClientId, worker: World, conn: ClientId, run: seq<Event>, m: nat, clocks: Rdb.Clocks)
    requires Reached(w) && w.s.info.role == Master && c in w.h.attached
    requires LoadedFrom(TermOf(w), w.h.attached[c], clocks, worker.s.store)
    requires Following(worker, conn) && ProperRun(worker, run) && Steady(worker, run) && Stays(run, conn)
    requires TakesGetAck(run, conn) && 0 < m <= |w.h.attached[c].frames|
    requires Taken(run[..|run| - 1], conn) == Received(w.h.attached[c].frames[..m - 1])
    requires Genuine(w.h.attached[c].frames[..m]) && TargetsOk(w.h.attached[c].frames[..m], worker.s.info.offset)
    requires w.h.attached[c].from == worker.s.info.offset
    ensures var s := BeforeLastEvent(worker, run);
      && s.info.offset == w.h.attached[c].from + |FrameBytes(w.h.attached[c].frames[..m - 1])|
      && MirrorsAfter(TermOf(w), w.h.attached[c], m - 1, clocks, s.store)
      && Wrote(s, After(worker, run).s, conn, AckReply(s.info.offset))
  {
    hide Reached, Following, TargetsOk, Genuine, Received, Taken, Clocked, Steady, Stays, ProperRun, After, AckReply,
         GetAcks, FrameBytes, AckTexts, ExpectedAcks, DataAfter, Mirrors, Replay, Writes, Rdb.Serialized,
         Rdb.LoadResult, RdbProofs.AllEncodable, Enabled, Proper, Next, MovesOn, StreamCommand;
    var n, a := |run| - 1, w.h.attached[c];
    var clock := SomeClock(run, conn);
    RunSnoc(worker, run);
    SteadySnoc(worker, run);
    TakenSnoc(run, conn, clock);
    PrefixOk(a.frames[..m], m - 1, a.from);
    assert a.frames[..m][..m - 1] == a.frames[..m - 1];
    RunFollows(worker, conn, run[..n], a.frames[..m - 1], clock);
    var before := After(worker, run[..n]);
    FollowStep(before, run[n], conn);
    SnapshotPlusLog(w, c, m - 1, clocks, clock);
    AnswersGetAck(before.s, conn, run[n]);
  }

  lemma AnswersGetAck(s: State, conn: ClientId, e: Event)
    requires OnConn(e, conn) && e.args == GETACK && conn in s.clients
    ensures Wrote(s, StreamCommand(s, conn, e.args, e.consumed, e.env.now), conn, AckReply(s.info.offset))
  {
    hide AckReply, Reply, IsGetAck, Executed;
    GetAckAnswered(s, conn, e.env.now);
  }
}
