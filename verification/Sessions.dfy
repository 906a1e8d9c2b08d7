/** What a client of the server brings about and reads, in the words of its commands: PSYNC, WAIT, REPLICAOF, writes,
    and going away. The statements speak of words, numbers, bytes and acknowledgements only. */
module Sessions {
  import opened Text
  import opened KeyStore
  import opened Commands
  import opened Replication
  import opened Membership
  import opened Waiting
  import opened Streams
  import opened Books
  import opened Runs
  import opened Safety
  import opened Guarantees
  import opened Backlog
  import Words
  import Rdb
  import Resp

  /** Client `c` sends the command `args` to a reachable server. */
  ghost predicate Sends(w: World, c: ClientId, args: Command, e: Event) {
    && Reached(w) && e.Parsed? && e.c == c && e.args == args && Enabled(w.s, e) && Proper(w.s, e)
    && w.s.clients[c].kind == Regular
  }

  /** A number that fits in an `int`. */
  ghost predicate IsInt(word: string, v: int) { Spells(word, v) && -0x8000_0000 <= v <= 0x7FFF_FFFF }

  lemma IntRead(word: string, v: int)
    requires IsInt(word, v)
    ensures Stoi(word) == Some(v) && Stoll(word) == Some(v)
  {
    hide Parse, Spells;
    ParseSpelled(word, v, INT_MAX);
    ParseSpelled(word, v, LLONG_MAX);
  }

  lemma ServerName(args: Command, name: string)
    requires args != [] && Names(args[0], name) && (name == "PSYNC" || name == "WAIT" || name == "REPLICAOF")
    ensures Name(args) == name
  {
    hide Name, Names;
    assert Capitals("PSYNC") && Capitals("WAIT") && Capitals("REPLICAOF");
    Words.NameIs(args[0], args, name);
  }

  // ---- PSYNC ----

  /** A PSYNC with this id and offset is resumed: the id is the current one and the bytes since are still in the
      backlog, or it is the one before the promotion, at the very offset of the promotion. */
  ghost predicate Resumes(w: World, id: string, n: int) {
    var stream, base := Resp.EncodeAll(LogCmds(w.h.log)), TermBase(w);
    && id != "?" && base <= n <= base + |stream| && base + |stream| - n <= w.s.backlog.capacity
    && ((id == w.s.info.replid && (stream != "" || w.s.info.secondOffset != -1))
        || (id == w.s.info.replid2 && w.s.info.secondOffset != -1 && n == base))
  }

  /** The offset asked for, if the third word is one. */
  ghost predicate Asks(args: Command, n: int) {
    |args| >= 3 && Spells(args[2], n) && 0 <= n <= 0x7FFF_FFFF_FFFF_FFFF
  }

  lemma AskedWord(args: Command, n: int)
    requires Asks(args, n)
    ensures AskedOffset(args) == n
  {
    hide Spells, Parse;
    ParseSpelled(args[2], n, LLONG_MAX);
    SpellsDec(1);
    MinusOne();
    if args[2] == "-1" { ParseSpelled("-1", -1, LLONG_MAX); }
  }

  lemma MinusOne()
    ensures Dec(1) == "1" && "-" + Dec(1) == "-1"
  {
  }

  lemma NotAsked(args: Command)
    requires forall n :: !Asks(args, n)
    ensures AskedOffset(args) < 0
  {
    hide Spells, Parse;
    if |args| >= 3 && Stoll(args[2]).Some? {
      ParsedIsSpelled(args[2], LLONG_MAX);
      assert !Asks(args, Stoll(args[2]).value);
    }
  }

  lemma ResumesIs(w: World, id: string, n: int)
    requires Inv(w) && w.s.info.role == Master
    ensures Resumes(w, id, n) <==> Continues(w.s, id, n)
    ensures Resumes(w, id, n) ==> w.s.backlog.From(n) == Resp.EncodeAll(LogCmds(w.h.log))[n - TermBase(w)..]
  {
    hide Sane, WaitsKept, Booked, AllAttachedOk, KeysFit, Replay, LogOk, Tracks, LogCmds, Resp.EncodeAll;
    var stream := Resp.EncodeAll(LogCmds(w.h.log));
    TracksReads(w.s.backlog, TermBase(w), stream);
    TracksEnd(w.s.backlog, TermBase(w), stream);
    TracksHas(w.s.backlog, TermBase(w), stream);
  }

  lemma TracksHas(v: View, base: int, fed: string)
    requires Tracks(v, base, fed)
    ensures fed != "" ==> v.hasData
  {
  }

  /** The answer to a PSYNC that is resumed: the term's bytes from offset `n` on. */
  ghost predicate IsContinue(w: World, n: int, text: string) {
    var stream, k := Resp.EncodeAll(LogCmds(w.h.log)), n - TermBase(w);
    0 <= k <= |stream| && text == "+CONTINUE " + w.s.info.replid + "\r\n" + stream[k..]
  }

  /** The answer to any other: the current offset and a snapshot. */
  ghost predicate IsFullResync(s: State, env: Env, text: string) {
    && (forall k | k in env.order :: k in s.store) && s.offset >= 0
    && var rdb := Rdb.Serialized(env.order, s.store, env.at);
    text == "+FULLRESYNC " + s.info.replid + " " + Dec(s.offset) + "\r\n$" + Dec(|rdb|) + "\r\n" + rdb
  }

  /** The client is a replica now, with a queue of its own; nobody else is touched. */
  ghost predicate Joined(s: State, c: ClientId, t: State) {
    && c in t.queues && t.queues[c].draining == "" && t.replicas == s.replicas + [c]
    && c in s.clients && c in t.clients && t.clients[c] == s.clients[c].(kind := Replica)
    && (forall d | d in s.queues && d != c :: d in t.queues && t.queues[d] == s.queues[d])
    && t.store == s.store && t.info == s.info && t.offset == s.offset && t.waits == s.waits
  }

  /** PSYNC, in words. The client becomes a replica whose queue starts with the answer: CONTINUE and the term's bytes
      from the asked offset on if it is resumed, FULLRESYNC with the current offset and a snapshot otherwise. */
  lemma PsyncWords(w: World, c: ClientId, args: Command, e: Event)
    requires Sends(w, c, args, e) && w.s.info.role == Master && args != [] && Names(args[0], "PSYNC")
    ensures Joined(w.s, c, Step(w.s, e))
    ensures forall n | Asks(args, n) && Resumes(w, args[1], n) :: IsContinue(w, n, Step(w.s, e).queues[c].pending)
    ensures (forall n | Asks(args, n) :: !Resumes(w, args[1], n)) ==>
      IsFullResync(w.s, e.env, Step(w.s, e).queues[c].pending)
  {
    hide Reached, Inv, Resumes, Asks, IsContinue, TermBase, Continues, AskedOffset, ContinuePayload, LogCmds,
      Resp.EncodeAll, Rdb.Serialized, ToUpper, Reply, Dec, Names, Orders, Resp.Fits, HandlePsync, Joined,
      IsFullResync;
    ReachedInv(w);
    ServerName(args, "PSYNC");
    ServerCommand(args, w.s.store, w.s.info, false, e.env.now);
    OffsetNow(w);
    PsyncIs(w.s, c, args, e.env);
    if exists n :: Asks(args, n) {
      var n :| Asks(args, n);
      AskedWord(args, n);
      forall k | Asks(args, k)
        ensures k == n
      {
        AskedWord(args, k);
      }
      IdWord(args, n);
      ResumesIs(w, args[1], n);
      if Resumes(w, args[1], n) { ContinueIs(w, args[1], n, w.s.backlog.From(n)); }
    } else {
      NotAsked(args);
      NotContinued(w.s, AskedId(args), AskedOffset(args));
    }
  }

  lemma ContinueIs(w: World, id: string, n: int, replay: string)
    requires Resumes(w, id, n) && replay == Resp.EncodeAll(LogCmds(w.h.log))[n - TermBase(w)..]
    ensures IsContinue(w, n, ContinuePayload(w.s.info.replid, replay))
  {
    hide LogCmds, Resp.EncodeAll;
  }

  lemma PsyncIs(s: State, c: ClientId, args: Command, env: Env)
    requires Orders(env.order, s.store.Keys) && s.offset >= 0 && c in s.clients
    ensures var t := HandlePsync(s, c, args, env.order, env.at);
      && Joined(s, c, t)
      && (if Continues(s, AskedId(args), AskedOffset(args))
          then t.queues[c].pending == ContinuePayload(s.info.replid, s.backlog.From(AskedOffset(args)))
          else IsFullResync(s, env, t.queues[c].pending))
  {
    hide Continues, AskedId, AskedOffset, Rdb.Serialized, Dec, ContinuePayload;
  }

  lemma IdWord(args: Command, n: int)
    requires Asks(args, n)
    ensures |args| >= 3 && AskedId(args) == args[1]
  {
  }

  lemma OffsetNow(w: World)
    requires Inv(w)
    ensures w.s.offset >= 0
  {
  }

  lemma NotContinued(s: State, id: string, offset: int)
    requires offset < 0
    ensures !Continues(s, id, offset)
  {
  }

  /** For a printed offset: CONTINUE exactly if it is resumed. */
  lemma PsyncNumbers(w: World, c: ClientId, id: string, n: nat, e: Event)
    requires Sends(w, c, ["PSYNC", id, Dec(n)], e) && w.s.info.role == Master && n <= LLONG_MAX
    ensures c in Step(w.s, e).queues
    ensures "+CONTINUE" <= Step(w.s, e).queues[c].pending <==> Resumes(w, id, n)
  {
    hide Reached, Resumes, Asks, TermBase, LogCmds, Resp.EncodeAll, Rdb.Serialized, Dec, Step, Enabled, Proper;
    var args := ["PSYNC", id, Dec(n)];
    assert Names("PSYNC", "PSYNC");
    PsyncWords(w, c, args, e);
    DecAsks(args, n);
    Beginnings(w.s.info.replid);
  }

  lemma DecAsks(args: Command, n: nat)
    requires |args| >= 3 && args[2] == Dec(n) && n <= LLONG_MAX
    ensures forall k :: Asks(args, k) <==> k == n
  {
    hide Dec, Spells;
    SpellsDec(n);
    forall k | Asks(args, k)
      ensures k == n
    {
      AskedWord(args, k);
      AskedWord(args, n);
    }
  }

  lemma Beginnings(id: string)
    ensures forall rest: string :: "+CONTINUE" <= "+CONTINUE " + id + "\r\n" + rest
    ensures forall a: string, b: string, c: string ::
      !("+CONTINUE" <= "+FULLRESYNC " + id + " " + a + "\r\n$" + b + "\r\n" + c)
  {
    forall a: string, b: string, c: string
      ensures !("+CONTINUE" <= "+FULLRESYNC " + id + " " + a + "\r\n$" + b + "\r\n" + c)
    {
      assert ("+FULLRESYNC " + id + " " + a + "\r\n$" + b + "\r\n" + c)[1] == 'F';
    }
  }

  /** What is never resumed. */
  lemma NeverResumed(w: World, args: Command, n: int)
    requires |args| >= 2 && (args[1] == "?" || (|args| >= 3 && (args[2] == "-1" || forall v :: !Spells(args[2], v))))
    ensures !(Asks(args, n) && Resumes(w, args[1], n))
  {
    hide Spells, LogCmds, Resp.EncodeAll;
    if |args| >= 3 && args[2] == "-1" && Asks(args, n) {
      SpellsDec(1);
      MinusOne();
      ParseSpelled("-1", -1, LLONG_MAX);
      ParseSpelled("-1", n, LLONG_MAX);
    }
  }

  // ---- WAIT ----

  /** `t` is `s` with this text told to the client. */
  ghost predicate OnlyTold(s: State, c: ClientId, text: string, t: State) {
    c in s.clients && t == s.(clients := s.clients[c := s.clients[c].(out := s.clients[c].out + text)])
  }

  /** What the replicas are asked with. */
  const ASK := "*3\r\n" + ("$8\r\nREPLCONF\r\n" + ("$6\r\nGETACK\r\n" + "$1\r\n*\r\n"))

  lemma AskText()
    ensures Resp.Encode(GETACK) == ASK
  {
    hide Resp.EncodeBulk, Dec;
    SmallDecs();
    Pieces();
    assert GETACK[1..] == ["GETACK", "*"] && ["GETACK", "*"][1..] == ["*"] && ["*"][1..] == [];
    assert Resp.EncodeBulks(["*"]) == "$1\r\n*\r\n";
    assert Resp.EncodeBulks(["GETACK", "*"]) == "$6\r\nGETACK\r\n" + Resp.EncodeBulks(["*"]);
    assert Resp.EncodeBulks(GETACK) == "$8\r\nREPLCONF\r\n" + Resp.EncodeBulks(["GETACK", "*"]);
    assert "*" + "3" + "\r\n" == "*3\r\n";
  }

  lemma Pieces()
    ensures Resp.EncodeBulk("REPLCONF") == "$8\r\nREPLCONF\r\n"
    ensures Resp.EncodeBulk("GETACK") == "$6\r\nGETACK\r\n" && Resp.EncodeBulk("*") == "$1\r\n*\r\n"
  {
    hide Dec;
    SmallDecs();
  }

  lemma SmallDecs()
    ensures Dec(1) == "1" && Dec(3) == "3" && Dec(6) == "6" && Dec(8) == "8" && Dec(0) == "0"
  {
  }

  /** How many replicas have acknowledged everything. */
  ghost function UpToDate(s: State): nat {
    |set r | r in s.replicas && r in s.clients && s.clients[r].ack >= s.offset|
  }

  lemma UpToDateIs(s: State)
    requires Listed(s)
    ensures UpToDate(s) == CaughtUp(s, s.offset)
  {
    hide CountAcks;
    CountIsSet(s.replicas, s.clients, s.offset);
    assert (set r | r in s.replicas && r in s.clients && s.clients[r].ack >= s.offset)
        == AckedSet(s.replicas, s.clients, s.offset);
  }

  /** The WAIT is parked with its deadline, a timeout of 0 meaning none, and every replica is asked. */
  ghost predicate Parked(s: State, c: ClientId, k: int, timeout: int, now: int, t: State) {
    && t == s.(waits := s.waits + [Wait(c, k, s.offset, if timeout > 0 then Some(now + timeout * 1_000_000) else None)],
               queues := t.queues)
    && t.queues.Keys == s.queues.Keys
    && forall r | r in s.queues :: t.queues[r] == Queue(s.queues[r].pending + ASK, s.queues[r].draining)
  }

  /** WAIT, in words: answered at once with the number of replicas that are up to date, if that is enough, or parked. */
  lemma WaitWords(w: World, c: ClientId, args: Command, k: int, timeout: int, e: Event)
    requires Sends(w, c, args, e) && |args| >= 3 && Names(args[0], "WAIT")
    requires IsInt(args[1], k) && IsInt(args[2], timeout)
    ensures var s, t := w.s, Step(w.s, e);
      if s.offset == 0 then OnlyTold(s, c, ":" + Dec(|s.replicas|) + "\r\n", t)
      else if s.replicas == [] then OnlyTold(s, c, ":0\r\n", t)
      else if UpToDate(s) >= k then OnlyTold(s, c, ":" + Dec(UpToDate(s)) + "\r\n", t)
      else Parked(s, c, k, timeout, e.env.now, t)
  {
    hide Reached, Inv, UpToDate, Spells, Reply, ToUpper, Stoi, Stoll, HandleWait, OnlyTold, Parked, Names, Orders,
      Resp.Fits, Dec;
    ReachedInv(w);
    SaneNow(w);
    SaneListed(w.s);
    ServerName(args, "WAIT");
    IntRead(args[1], k);
    IntRead(args[2], timeout);
    ServerCommand(args, w.s.store, w.s.info, false, e.env.now);
    UpToDateIs(w.s);
    WaitIs(w.s, c, args, k, timeout, e.env.now);
  }

  lemma WaitIs(s: State, c: ClientId, args: Command, k: int, timeout: int, now: int)
    requires |args| >= 3 && Stoi(args[1]) == Some(k) && Stoll(args[2]) == Some(timeout) && c in s.clients
    ensures var t, n := HandleWait(s, c, args, now), CaughtUp(s, s.offset);
      if s.offset == 0 then OnlyTold(s, c, ":" + Dec(|s.replicas|) + "\r\n", t)
      else if s.replicas == [] then OnlyTold(s, c, ":0\r\n", t)
      else if n >= k then OnlyTold(s, c, ":" + Dec(n) + "\r\n", t)
      else Parked(s, c, k, timeout, now, t)
  {
    hide Stoi, Stoll, CaughtUp, Resp.Encode, Dec;
    AskText();
    SmallDecs();
    assert ":" + "0" + "\r\n" == ":0\r\n";
  }

  /** A WAIT with other words is refused. */
  lemma WaitRefused(w: World, c: ClientId, args: Command, e: Event)
    requires Sends(w, c, args, e) && args != [] && Names(args[0], "WAIT")
    requires |args| < 3 || (forall v :: !IsInt(args[1], v)) || (forall v :: !IsInt(args[2], v))
    ensures OnlyTold(w.s, c, if |args| < 3 then "-ERR wrong number of arguments for 'wait' command\r\n"
                             else "-ERR value is not an integer or out of range\r\n", Step(w.s, e))
  {
    hide Reached, Spells, Reply, Executed, ToUpper, Parse, Names, Orders, Resp.Fits, IsWrite;
    ServerName(args, "WAIT");
    ServerCommand(args, w.s.store, w.s.info, false, e.env.now);
    if |args| >= 3 {
      if Stoi(args[1]).Some? { ParsedIsSpelled(args[1], INT_MAX); assert IsInt(args[1], Stoi(args[1]).value); }
      if Stoi(args[2]).Some? { ParsedIsSpelled(args[2], INT_MAX); assert IsInt(args[2], Stoi(args[2]).value); }
    }
    NotWrites();
    QuietCommand(args, w.s.store, w.s.info, false, e.env.now);
  }

  /** The clock: exactly the WAITs whose deadline is reached are gone, each as often as it was parked. */
  lemma TimeoutsMean(s: State, now: int, x: Wait)
    ensures multiset(Step(s, Timeouts(now)).waits)[x] ==
      if x.deadline.Some? && now >= x.deadline.value then 0 else multiset(s.waits)[x]
  {
    hide StillParked, Told;
    ParkedCount(s, s.waits, now, x);
  }

  lemma {:induction false} ParkedCount(s: State, ws: seq<Wait>, now: int, x: Wait)
    ensures multiset(StillParked(s, ws, Clock(now)))[x] ==
      if x.deadline.Some? && now >= x.deadline.value then 0 else multiset(ws)[x]
    decreases |ws|
  {
    if ws != [] {
      ParkedCount(s, ws[1..], now, x);
      assert ws == [ws[0]] + ws[1..];
    }
  }

  // ---- what the answers of WAITs report ----

  /** From `w` to `t`, WAITs were answered with the acknowledgements of `s`. */
  ghost predicate AnsweredIn(w: World, t: World, s: State) {
    && w.h.answers <= t.h.answers
    && forall i | |w.h.answers| <= i < |t.h.answers| :: t.h.answers[i].acks == AcksOf(s)
  }

  lemma {:induction false} AnsweredAcks(s: State, ws: seq<Wait>, cause: Cause)
    ensures forall i | 0 <= i < |Answered(s, ws, cause)| :: Answered(s, ws, cause)[i].acks == AcksOf(s)
    decreases |ws|
  {
    hide Due, CaughtUp, AcksOf;
    if ws != [] { AnsweredAcks(s, ws[1..], cause); }
  }

  lemma SettleAnswers(w: World, cause: Cause)
    ensures AnsweredIn(w, DoSettle(w, cause), w.s)
  {
    hide AcksOf, Answered, StillParked, Told;
    AnsweredAcks(w.s, w.s.waits, cause);
  }

  lemma {:induction false} RemoveAllAnswers(w: World, ids: seq<ClientId>)
    ensures DoRemoveAll(w, ids).h.answers == w.h.answers
    decreases |ids|
  {
    hide RemoveClient, DroppedBy;
    if ids != [] { RemoveAllAnswers(DoRemove(w, ids[0]), ids[1..]); }
  }

  lemma FollowAnswers(w: World, c: ClientId, host: string, port: int, sync: Handshake)
    ensures AnsweredIn(w, DoFollow(w, c, host, port, sync), w.s)
  {
    hide AcksOf, DoSettle, DoRemoveAll, Follow, RemoveClient, DroppedBy;
    SettleAnswers(w, RoleChange);
    RemoveAllAnswers(DoSettle(w, RoleChange), w.s.replicas);
  }

  lemma ReplicaofAnswers(w: World, c: ClientId, args: Command, env: Env)
    ensures AnsweredIn(w, DoReplicaof(w, c, args, env), w.s)
  {
    hide AcksOf, DoFollow, Promote, RemoveClient, DroppedBy, Stoi, IsNoOne;
    if |args| >= 3 && Stoi(args[2]).Some? { FollowAnswers(w, c, args[1], Stoi(args[2]).value, env.sync); }
  }

  lemma RegularAnswers(w: World, c: ClientId, args: Command, env: Env)
    requires Orders(env.order, w.s.store.Keys)
    ensures AnsweredIn(w, DoRegular(w, c, args, env), w.s)
  {
    hide AcksOf, Reply, ToUpper, DoReplicaof, RegularCommand, PsyncAttachment, Publish, Effect, Stoi, Stoll,
      Immediate, Park, Orders, IsWrite;
    ReplicaofAnswers(w, c, args, env);
  }

  lemma {:induction false} DelsAnswers(w: World, keys: seq<string>, now: int)
    ensures DoDels(w, keys, now).h.answers == w.h.answers
    decreases |keys|
  {
    hide Publish, Effect;
    if keys != [] { DelsAnswers(DoWrite(w, ["DEL", keys[0]], now, false), keys[1..], now); }
  }

  /** The state a step answers WAITs in: after noting an acknowledgement, otherwise the state it meets. */
  ghost function Moment(w: World, e: Event): State
    requires Enabled(w.s, e)
  {
    if e.Parsed? && w.s.clients[e.c].kind == Replica then Next(w, e).s else w.s
  }

  lemma ReplicaAnswers(w: World, c: ClientId, args: Command, now: int)
    requires c in w.s.clients
    ensures AnsweredIn(w, DoReplica(w, c, args, now), DoReplica(w, c, args, now).s)
  {
    hide Executed, ToUpper, Stoll, StillParked, Told, Answered;
    if IsAck(args) && Stoll(args[2]).Some? {
      var t := w.s.(store := Executed(args, w.s.store, w.s.info, false, now));
      var u := t.(clients := t.clients[c := t.clients[c].(ack := Stoll(args[2]).value)]);
      SettleAnswers(w.(s := u), Acks);
      ToldSame(u, u.waits, Acks, u.clients);
      assert AcksOf(Settle(u, Acks)) == AcksOf(u);
    }
  }

  lemma StepAnswers(w: World, e: Event)
    requires Enabled(w.s, e)
    ensures AnsweredIn(w, Next(w, e), Moment(w, e))
  {
    hide AcksOf, DoRegular, DoReplica, DoSettle, DoDels, RemoveClient, DroppedBy, StreamCommand, Orders, Resp.Fits,
      Sweepable;
    match e
    case Parsed(c, args, consumed, env) =>
      match w.s.clients[c].kind {
        case Regular => RegularAnswers(w, c, args, env);
        case Replica => ReplicaAnswers(w, c, args, env.now);
        case MasterConn =>
      }
    case Timeouts(now) => SettleAnswers(w, Clock(now));
    case SweepTick(victims, now) => DelsAnswers(w, victims, now);
    case _ =>
  }

  /** Every answer of every run: whichever step gives it, its number is that of the replicas whose recorded
      acknowledgement reaches the target in that very state; or of all replicas, if nothing was ever written. */
  lemma AnswersCount(w: World, e: Event, i: nat)
    requires Reached(w) && Enabled(w.s, e) && Proper(w.s, e) && |w.h.answers| <= i < |Next(w, e).h.answers|
    ensures w.h.answers <= Next(w, e).h.answers
    ensures var s, a := Moment(w, e), Next(w, e).h.answers[i];
      a.count == if a.why.AtOnce? && a.wait.target == 0 then |set r | r in s.replicas && r in s.clients|
                 else |set r | r in s.replicas && r in s.clients && s.clients[r].ack >= a.wait.target|
  {
    hide Reached, Next, Enabled, Proper, Moment;
    StepAnswers(w, e);
    ReachedNext(w, e);
    var t := Next(w, e);
    HonestNow(t, i);
    var s, a := Moment(w, e), t.h.answers[i];
    assert a.acks == AcksOf(s);
    assert a.acks.Keys == set r | r in s.replicas && r in s.clients;
    assert (set r | r in a.acks && a.acks[r] >= a.wait.target)
        == set r | r in s.replicas && r in s.clients && s.clients[r].ack >= a.wait.target;
  }

  lemma HonestNow(w: World, i: nat)
    requires Reached(w) && i < |w.h.answers|
    ensures HonestAnswer(w.h.answers[i])
  {
    hide Reached, HonestAnswer, Sane, StreamsOk, Booked, Short, Conserved;
    ReachedInv(w);
  }

  // ---- writes ----

  /** A SET or DEL sent to a master, accepted or not: the client is told the reply, the words go to every replica as
      they are, and the offset grows by their length. */
  lemma WritePublished(w: World, c: ClientId, args: Command, e: Event)
    requires Sends(w, c, args, e) && w.s.info.role == Master && args != []
    requires Names(args[0], "SET") || Names(args[0], "DEL")
    ensures var s, t, text := w.s, Step(w.s, e), Reply(args, w.s.store, w.s.info, false, e.env.now);
      && t.clients == s.clients[c := s.clients[c].(out := s.clients[c].out + text)]
      && t.store == Executed(args, s.store, s.info, false, e.env.now)
      && t.offset == t.info.offset == s.offset + |Resp.Encode(args)|
      && t.queues.Keys == s.queues.Keys
      && (forall r | r in s.queues ::
            t.queues[r] == Queue(s.queues[r].pending + Resp.Encode(args), s.queues[r].draining))
      && t.replicas == s.replicas && t.waits == s.waits
  {
    hide Reached, Inv, Reply, Executed, ToUpper, Resp.Encode, Names, Orders, Resp.Fits;
    ReachedInv(w);
    SaneNow(w);
    WriteName(args);
    assert w.s.replicas == [] ==> forall r | r in w.s.queues :: r in w.s.replicas;
  }

  lemma WriteName(args: Command)
    requires args != [] && (Names(args[0], "SET") || Names(args[0], "DEL"))
    ensures (Name(args) == "SET" || Name(args) == "DEL") && IsWrite(Name(args))
  {
    hide ToUpper, IsWrite, Names;
    Words.Verbs();
    if Names(args[0], "SET") { Words.NameIs(args[0], args, "SET"); } else { Words.NameIs(args[0], args, "DEL"); }
  }

  /** Any command that is no write and not for the server itself: the client is told the reply, and that is all. */
  lemma OnlyAnswered(w: World, c: ClientId, args: Command, e: Event)
    requires Sends(w, c, args, e) && !IsWrite(Name(args))
    requires Name(args) != "PSYNC" && Name(args) != "WAIT" && Name(args) != "REPLICAOF"
    ensures OnlyTold(w.s, c, Reply(args, w.s.store, w.s.info, false, e.env.now), Step(w.s, e))
  {
    hide Reached, Reply, Executed, ToUpper, IsWrite, Orders, Resp.Fits;
    QuietCommand(args, w.s.store, w.s.info, false, e.env.now);
  }

  // ---- going away ----

  /** A client that goes away takes its own WAITs, its queue and its place among the replicas, and nothing else. */
  lemma DisconnectMeans(s: State, c: ClientId, x: Wait, d: ClientId)
    requires c in s.clients
    ensures var t := Step(s, Disconnect(c));
      && t == s.(clients := s.clients - {c}, queues := s.queues - {c}, replicas := t.replicas, waits := t.waits,
                 master := if s.master == Some(c) then None else s.master)
      && multiset(t.waits)[x] == (if x.client == c then 0 else multiset(s.waits)[x])
      && multiset(t.replicas)[d] == (if d == c then 0 else multiset(s.replicas)[d])
  {
    hide DropWaits, Remove;
    DropCount(s.waits, c, x);
    RemoveCount(s.replicas, c, d);
  }

  lemma {:induction false} DropCount(ws: seq<Wait>, c: ClientId, x: Wait)
    ensures multiset(DropWaits(ws, c))[x] == if x.client == c then 0 else multiset(ws)[x]
    decreases |ws|
  {
    if ws != [] {
      DropCount(ws[1..], c, x);
      assert ws == [ws[0]] + ws[1..];
    }
  }

  lemma {:induction false} RemoveCount(ids: seq<ClientId>, c: ClientId, d: ClientId)
    ensures multiset(Remove(ids, c))[d] == if d == c then 0 else multiset(ids)[d]
    decreases |ids|
  {
    if ids != [] {
      RemoveCount(ids[1..], c, d);
      assert ids == [ids[0]] + ids[1..];
    }
  }
}
