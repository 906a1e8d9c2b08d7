/** The failover controller's state machine: controller/failover/monitor.go.
    Answers of the nodes, map iteration orders and the order of ping results are inputs. */
module Monitors {
  import opened Text
  import opened Promoter

  datatype Node = Node(role: string, alive: bool)

  /** What one ping result, and whatever it sets off, is answered with. */
  datatype Replies = Replies(
    role: RoleAnswer,                          // ROLE after a recovery
    demoteOnRecovery: bool,                    // REPLICAOF to a stale master, on recovery
    demoteRetry: bool,                         // the same, on the retry path
    order: seq<Addr>,                          // iteration order of the node map, looking for candidates
    again: seq<Addr>,                          // and once more, looking for siblings
    info: Addr -> InfoAnswer,
    noOne: Addr -> bool,
    poll: (Addr, nat) -> RoleAnswer,
    split: Addr -> Option<(string, string)>,   // net.SplitHostPort
    follow: Addr -> bool)

  datatype State = State(thresh: int, nodes: map<Addr, Node>, fails: map<Addr, nat>, master: Addr, failovers: nat)

  function Fails(m: State, a: Addr): nat { if a in m.fails then m.fails[a] else 0 }

  function SetRole(m: State, a: Addr, role: string): State
    requires a in m.nodes
  {
    m.(nodes := m.nodes[a := m.nodes[a].(role := role)])
  }

  function SetAlive(m: State, a: Addr, alive: bool): State
    requires a in m.nodes
  {
    m.(nodes := m.nodes[a := m.nodes[a].(alive := alive)])
  }

  /** `Reconfigure` of the single node `a` towards the current master. */
  function Demoted(m: State, a: Addr, split: Addr -> Option<(string, string)>, ok: bool): State
    requires a in m.nodes
  {
    if split(m.master).Some? && ok then SetRole(m, a, "slave") else m
  }

  /** A node that came back says what it is. */
  function Recovered(m: State, a: Addr, role: string, re: Replies): State
    requires a in m.nodes
  {
    var t := SetRole(m, a, role);
    if role != "master" then t
    else if t.master == "" || t.master == a then t.(master := a)
    else Demoted(t, a, re.split, re.demoteOnRecovery)
  }

  /** A node that still claims to be master beside the current one is told to follow, every tick. */
  function Retried(m: State, a: Addr, re: Replies): State
    requires a in m.nodes
  {
    if m.nodes[a].role == "master" && a != m.master && m.master != ""
    then Demoted(m, a, re.split, re.demoteRetry) else m
  }

  function PingOk(m: State, a: Addr, re: Replies): State
    requires a in m.nodes
  {
    var t := SetAlive(m.(fails := m.fails[a := 0]), a, true);
    if m.nodes[a].alive then Retried(t, a, re)
    else match re.role
      case None => t
      case Some(role) => Retried(Recovered(t, a, role, re), a, re)
  }

  function Candidates(m: State, order: seq<Addr>): seq<Addr> {
    if order == [] then [] else
    var n := |order| - 1;
    Candidates(m, order[..n])
    + (if order[n] in m.nodes && m.nodes[order[n]].alive && m.nodes[order[n]].role == "slave" && order[n] != m.master
       then [order[n]] else [])
  }

  function Siblings(m: State, order: seq<Addr>, oldMaster: Addr): seq<Addr> {
    if order == [] then [] else
    var n := |order| - 1;
    Siblings(m, order[..n], oldMaster)
    + (if order[n] in m.nodes && order[n] != m.master && order[n] != oldMaster && m.nodes[order[n]].alive
       then [order[n]] else [])
  }

  function Elected(m: State, re: Replies): Option<Addr> {
    Winner(Ranked(Candidates(m, re.order), re.info), re.noOne, re.poll)
  }

  /** The effect of a failover on the controller's own records. */
  function Failover(m: State, re: Replies): State {
    var t := m.(failovers := m.failovers + 1);
    match Elected(t, re)
    case Some(b) => if b in t.nodes then SetRole(t.(master := b), b, "master") else t
    case None => t
  }

  function PingFailed(m: State, a: Addr, re: Replies): State
    requires a in m.nodes
  {
    var n := Fails(m, a) + 1;
    var t := m.(fails := m.fails[a := n]);
    if n < m.thresh then t else
    var u := SetAlive(t, a, false);
    if a == u.master then Failover(u, re) else u
  }

  function Pinged(m: State, a: Addr, alive: bool, re: Replies): State
    requires a in m.nodes
  {
    if alive then PingOk(m, a, re) else PingFailed(m, a, re)
  }

  /** One result read from the channel. */
  datatype Result = Result(addr: Addr, alive: bool, re: Replies)

  function Tick(m: State, results: seq<Result>): State
    requires forall r | r in results :: r.addr in m.nodes
    decreases |results|
  {
    if results == [] then m else
    var n := |results| - 1;
    var before := Tick(m, results[..n]);
    if results[n].addr in before.nodes
    then Pinged(before, results[n].addr, results[n].alive, results[n].re) else before
  }

  /** Startup: ask every node for its role, in map order; the last master seen is the master. */
  function Discovered(m: State, order: seq<Addr>, role: Addr -> RoleAnswer): State {
    if order == [] then m else
    var n := |order| - 1;
    var t, a := Discovered(m, order[..n], role), order[n];
    match role(a)
    case None => t.(nodes := t.nodes[a := Node("unknown", false)])
    case Some(r) => t.(nodes := t.nodes[a := Node(r, true)], master := if r == "master" then a else t.master)
  }

  // ---- the monitor object ----

  class Monitor {
    const thresh: int
    var nodes: map<Addr, Node>
    var fails: map<Addr, nat>
    var master: Addr
    var failovers: nat
    var failoverInProgress: bool

    ghost function Abs(): State
      reads this
    {
      State(thresh, nodes, fails, master, failovers)
    }

    constructor (addrs: seq<Addr>, thresh: int)
      ensures Abs() == State(thresh, map a | a in addrs :: Node("", false), map[], "", 0) && !failoverInProgress
    {
      this.thresh := thresh;
      nodes := map a | a in addrs :: Node("", false);
      fails, master, failovers, failoverInProgress := map[], "", 0, false;
    }

    method DiscoverTopology(order: seq<Addr>, role: Addr -> RoleAnswer)
      modifies `nodes, `master
      ensures Abs() == Discovered(old(Abs()), order, role)
    {
      var i := 0;
      while i < |order|
        invariant 0 <= i <= |order|
        invariant Abs() == Discovered(old(Abs()), order[..i], role)
      {
        assert order[..i + 1][..i] == order[..i];
        var a := order[i];
        var answer := role(a);
        if answer.None? {
          nodes := nodes[a := Node("unknown", false)];
        } else {
          nodes := nodes[a := Node(answer.value, true)];
          if answer.value == "master" { master := a; }
        }
        i := i + 1;
      }
      assert order[..i] == order;
    }

    /** Select, promote, take over, redirect. `asked` were sent REPLICAOF NO ONE, `redirected` REPLICAOF to the
        winner. */
    method TriggerFailover(re: Replies) returns (winner: Option<Addr>, asked: seq<Addr>, redirected: seq<Addr>)
      modifies `nodes, `master, `failovers, `failoverInProgress
      ensures failoverInProgress == old(failoverInProgress)
      ensures failoverInProgress ==> Abs() == old(Abs()) && winner == None && asked == [] && redirected == []
      ensures !failoverInProgress ==>
        && Abs() == Failover(old(Abs()), re) && winner == Elected(old(Abs()), re)
        && asked <= Ranked(Candidates(old(Abs()), re.order), re.info)
        && (winner.Some? ==> winner.value in asked)
      // nobody who was half promoted is forgotten
      ensures winner.Some? && re.split(winner.value).Some? ==>
        && (forall a | a in asked && a != winner.value && a in re.again :: a in redirected)
        && (forall a :: a in redirected <==>
              a in re.again && a in old(nodes) && old(nodes)[a].alive && a != winner.value && a != old(master))
      ensures winner.None? ==> redirected == []
    {
      hide Winner, Ranked, Candidates, Siblings;
      if failoverInProgress { return None, [], []; }
      failoverInProgress := true;
      failovers := failovers + 1;
      redirected := [];
      SameCandidates(old(Abs()), re.order);
      var candidates := CollectCandidates(re.order);
      var ranked := PickBestReplica(candidates, re.info);
      if ranked.None? {
        NoWinner(re);
        failoverInProgress := false;
        return None, [], [];
      }
      winner, asked := Promote(ranked.value, re.noOne, re.poll);
      if winner.Some? {
        ElectedIsNode(old(Abs()), re);
        var oldMaster := master;
        master := winner.value;
        nodes := nodes[winner.value := nodes[winner.value].(role := "master")];
        var siblings := CollectSiblings(re.again, oldMaster);
        var oks;
        oks, redirected := Reconfigure(siblings, winner.value, re.split, re.follow);
        NoneForgotten(old(Abs()), re);
        forall a
          ensures a in siblings <==>
            a in re.again && a in old(nodes) && old(nodes)[a].alive && a != winner.value && a != oldMaster
        {
          SiblingsAre(Abs(), re.again, oldMaster, a);
        }
      }
      failoverInProgress := false;
    }

    method CollectCandidates(order: seq<Addr>) returns (r: seq<Addr>)
      ensures r == Candidates(Abs(), order)
    {
      r := [];
      var i := 0;
      while i < |order|
        invariant 0 <= i <= |order| && r == Candidates(Abs(), order[..i])
      {
        assert order[..i + 1][..i] == order[..i];
        var a := order[i];
        if a in nodes && nodes[a].alive && nodes[a].role == "slave" && a != master { r := r + [a]; }
        i := i + 1;
      }
      assert order[..i] == order;
    }

    method CollectSiblings(order: seq<Addr>, oldMaster: Addr) returns (r: seq<Addr>)
      ensures r == Siblings(Abs(), order, oldMaster)
    {
      r := [];
      var i := 0;
      while i < |order|
        invariant 0 <= i <= |order| && r == Siblings(Abs(), order[..i], oldMaster)
      {
        assert order[..i + 1][..i] == order[..i];
        var a := order[i];
        if a in nodes && a != master && a != oldMaster && nodes[a].alive { r := r + [a]; }
        i := i + 1;
      }
      assert order[..i] == order;
    }

    /** Reconfigure one stale master; its role is updated only if the command got through. */
    method DemoteOne(a: Addr, split: Addr -> Option<(string, string)>, ok: bool)
      requires a in nodes
      modifies `nodes
      ensures Abs() == Demoted(old(Abs()), a, split, ok)
    {
      var oks, sent := Reconfigure([a], master, split, _ => ok);
      if oks[0] { nodes := nodes[a := nodes[a].(role := "slave")]; }
    }

    method NodeAnswered(a: Addr, re: Replies)
      requires a in nodes
      modifies `nodes, `master, `fails
      ensures Abs() == PingOk(old(Abs()), a, re)
    {
      hide Demoted;
      var wasDead := !nodes[a].alive;
      fails := fails[a := 0];
      nodes := nodes[a := nodes[a].(alive := true)];
      if wasDead {
        if re.role.None? { return; }
        nodes := nodes[a := nodes[a].(role := re.role.value)];
        if re.role.value == "master" {
          if master == "" || master == a {
            master := a;
          } else {
            DemotedKeeps(Abs(), a, re.split, re.demoteOnRecovery);
            DemoteOne(a, re.split, re.demoteOnRecovery);
          }
        }
      }
      if nodes[a].role == "master" && a != master && master != "" {
        DemoteOne(a, re.split, re.demoteRetry);
      }
    }

    method NodeMissed(a: Addr, re: Replies)
      requires a in nodes && !failoverInProgress
      modifies this
      ensures !failoverInProgress && Abs() == PingFailed(old(Abs()), a, re)
    {
      hide Failover;
      fails := fails[a := (if a in fails then fails[a] else 0) + 1];
      if fails[a] >= thresh {
        if nodes[a].alive { nodes := nodes[a := nodes[a].(alive := false)]; }
        assert nodes == SetAlive(old(Abs()), a, false).nodes;
        if a == master {
          var winner, asked, redirected := TriggerFailover(re);
        }
      }
    }

    /** The second half of `healthCheck`: the results in whatever order the channel delivers them. */
    method HealthCheck(results: seq<Result>)
      requires !failoverInProgress && forall r | r in results :: r.addr in nodes
      modifies this
      ensures !failoverInProgress && Abs() == Tick(old(Abs()), results)
    {
      hide PingOk, PingFailed;
      var i := 0;
      while i < |results|
        invariant 0 <= i <= |results| && !failoverInProgress
        invariant Abs() == Tick(old(Abs()), results[..i]) && nodes.Keys == old(nodes).Keys
      {
        assert results[..i + 1][..i] == results[..i];
        var r := results[i];
        PingedKeys(Abs(), r.addr, r.alive, r.re);
        if r.alive { NodeAnswered(r.addr, r.re); } else { NodeMissed(r.addr, r.re); }
        i := i + 1;
      }
      assert results[..i] == results;
    }
  }

  lemma SameCandidates(m: State, order: seq<Addr>)
    ensures Candidates(m.(failovers := m.failovers + 1), order) == Candidates(m, order)
  {
    if order != [] { SameCandidates(m, order[..|order| - 1]); }
  }

  lemma NoWinner(re: Replies)
    ensures Winner([], re.noOne, re.poll) == None
  {
  }

  lemma DemotedKeeps(m: State, a: Addr, split: Addr -> Option<(string, string)>, ok: bool)
    requires a in m.nodes
    ensures a in Demoted(m, a, split, ok).nodes
  {
  }

  /** Who is a candidate, whatever the order. */
  lemma {:induction false} CandidatesAre(m: State, order: seq<Addr>, a: Addr)
    ensures a in Candidates(m, order) <==>
      a in order && a in m.nodes && m.nodes[a].alive && m.nodes[a].role == "slave" && a != m.master
    decreases |order|
  {
    if order != [] {
      var n := |order| - 1;
      CandidatesAre(m, order[..n], a);
      assert a in order <==> a in order[..n] || a == order[n];
    }
  }

  /** What the answers say about `b`: recorded alive and slave, not the master, answers INFO and took over. */
  ghost predicate Eligible(m: State, re: Replies, b: Addr) {
    && b in re.order && b in m.nodes && m.nodes[b].alive && m.nodes[b].role == "slave" && b != m.master
    && re.info(b).Some? && TookOver(b, re.noOne, re.poll)
  }

  /** Elected is the best of them. */
  ghost predicate Best(m: State, re: Replies, b: Addr) {
    Eligible(m, re, b) && forall a | Eligible(m, re, a) :: !Outranks(a, b, re.info)
  }

  lemma ElectedIsBest(m: State, re: Replies)
    ensures match Elected(m, re)
      case None => forall b :: !Eligible(m, re, b)
      case Some(b) => Best(m, re, b)
  {
    hide Winner, Ranked, Candidates, TookOver, Outranks;
    var candidates := Candidates(m, re.order);
    BestReplicaWins(candidates, re.info, re.noOne, re.poll);
    forall b
      ensures b in candidates <==>
        b in re.order && b in m.nodes && m.nodes[b].alive && m.nodes[b].role == "slave" && b != m.master
    {
      CandidatesAre(m, re.order, b);
    }
  }

  lemma ElectedIsNode(m: State, re: Replies)
    ensures var e := Elected(m, re);
      e.Some? ==> e.value in m.nodes && m.nodes[e.value].alive && m.nodes[e.value].role == "slave"
                  && e.value != m.master && e.value in re.order
  {
    hide Elected, TookOver, Outranks;
    ElectedIsBest(m, re);
  }

  lemma PingedKeys(m: State, a: Addr, alive: bool, re: Replies)
    requires a in m.nodes
    ensures Pinged(m, a, alive, re).nodes.Keys == m.nodes.Keys
  {
    hide Failover, Retried, Recovered, Fails;
    var t := SetAlive(m.(fails := m.fails[a := 0]), a, true);
    RetriedKeeps(t, a, re);
    if re.role.Some? {
      RecoveredKeeps(t, a, re.role.value, re);
      RetriedKeeps(Recovered(t, a, re.role.value, re), a, re);
    }
    FailoverMoves(SetAlive(m.(fails := m.fails[a := Fails(m, a) + 1]), a, false), re);
  }

  // ---- nobody half promoted is forgotten ----

  lemma {:induction false} SiblingsAre(m: State, order: seq<Addr>, oldMaster: Addr, a: Addr)
    ensures a in Siblings(m, order, oldMaster) <==>
      a in order && a in m.nodes && a != m.master && a != oldMaster && m.nodes[a].alive
    decreases |order|
  {
    if order != [] {
      var n := |order| - 1;
      SiblingsAre(m, order[..n], oldMaster, a);
      assert a in order <==> a in order[..n] || a == order[n];
    }
  }

  lemma RankedAreCandidates(candidates: seq<Addr>, info: Addr -> InfoAnswer, a: Addr)
    requires a in Ranked(candidates, info)
    ensures a in candidates
  {
    hide Ranked, IsRanking;
    var ranking := RankedIsRanking(candidates, info);
    var i :| 0 <= i < |ranking| && ranking[i].addr == a;
    InRanking(candidates, info, ranking, ranking[i]);
  }

  /** After a failover, every ranked candidate but the winner is a sibling, however the node map is iterated the second
      time; the old and the new master are not. */
  lemma NoneForgotten(m: State, re: Replies)
    requires Elected(m, re).Some?
    ensures var b := Elected(m, re).value; var siblings := Siblings(Failover(m, re), re.again, m.master);
      && (forall a | a in Ranked(Candidates(m, re.order), re.info) && a != b && a in re.again :: a in siblings)
      && m.master !in siblings && b !in siblings
  {
    hide Winner, Ranked, Candidates, Siblings;
    SameCandidates(m, re.order);
    ElectedIsNode(m, re);
    var b, t := Elected(m, re).value, Failover(m, re);
    SiblingsAre(t, re.again, m.master, m.master);
    SiblingsAre(t, re.again, m.master, b);
    forall a | a in Ranked(Candidates(m, re.order), re.info) && a != b && a in re.again
      ensures a in Siblings(t, re.again, m.master)
    {
      RankedAreCandidates(Candidates(m, re.order), re.info, a);
      CandidatesAre(m, re.order, a);
      SiblingsAre(t, re.again, m.master, a);
    }
  }

  // ---- the order of the node map does not matter ----

  lemma {:induction false} CandidatesCount(m: State, order: seq<Addr>, a: Addr)
    ensures multiset(Candidates(m, order))[a] ==
      if a in m.nodes && m.nodes[a].alive && m.nodes[a].role == "slave" && a != m.master then multiset(order)[a] else 0
    decreases |order|
  {
    if order != [] {
      var n := |order| - 1;
      CandidatesCount(m, order[..n], a);
      assert order == order[..n] + [order[n]];
    }
  }

  /** With the same answers, a failover elects the same node for every iteration order of the node map. */
  lemma FailoverIndependent(m: State, re: Replies, order: seq<Addr>)
    requires multiset(order) == multiset(re.order)
    ensures Failover(m, re.(order := order)) == Failover(m, re)
  {
    hide Winner, Ranked, Candidates;
    var t := m.(failovers := m.failovers + 1);
    forall a: Addr
      ensures multiset(Candidates(t, order))[a] == multiset(Candidates(t, re.order))[a]
    {
      CandidatesCount(t, order, a);
      CandidatesCount(t, re.order, a);
    }
    assert multiset(Candidates(t, order)) == multiset(Candidates(t, re.order));
    RankedIndependent(Candidates(t, order), Candidates(t, re.order), re.info);
  }

  // ---- at most one believed master ----

  /** Whoever is recorded as master is known about; a node configured with the empty address, which stands for
      "no master", has never answered. */
  ghost predicate Known(m: State) {
    && ("" in m.nodes ==> !m.nodes[""].alive && m.nodes[""].role != "master")
    && (m.master != "" ==> m.master in m.nodes)
    && (m.master == "" ==> forall a | a in m.nodes :: m.nodes[a].role != "master")
  }

  lemma FailoverKnown(m: State, re: Replies)
    requires Known(m)
    ensures Known(Failover(m, re))
  {
    hide Elected;
    ElectedIsNode(m.(failovers := m.failovers + 1), re);
  }

  lemma PingedKnown(m: State, a: Addr, alive: bool, re: Replies)
    requires Known(m) && a in m.nodes && (alive ==> a != "")
    ensures Known(Pinged(m, a, alive, re))
  {
    hide PingOk, PingFailed, Known;
    if alive { OkKnown(m, a, re); } else { FailedKnown(m, a, re); }
  }

  lemma OkKnown(m: State, a: Addr, re: Replies)
    requires Known(m) && a in m.nodes && a != ""
    ensures Known(PingOk(m, a, re))
  {
    hide Retried, Recovered, Known;
    var t := SetAlive(m.(fails := m.fails[a := 0]), a, true);
    AliveKnown(m, a);
    RetriedKnown(t, a, re);
    if re.role.Some? {
      var u := Recovered(t, a, re.role.value, re);
      RecoveredKnown(t, a, re.role.value, re);
      RecoveredKeeps(t, a, re.role.value, re);
      RetriedKnown(u, a, re);
    }
  }

  lemma AliveKnown(m: State, a: Addr)
    requires Known(m) && a in m.nodes && a != ""
    ensures Known(SetAlive(m.(fails := m.fails[a := 0]), a, true))
  {
  }

  lemma RetriedKnown(m: State, a: Addr, re: Replies)
    requires Known(m) && a in m.nodes
    ensures Known(Retried(m, a, re))
  {
  }

  lemma RecoveredKnown(m: State, a: Addr, role: string, re: Replies)
    requires Known(m) && a in m.nodes && a != ""
    ensures Known(Recovered(m, a, role, re))
  {
  }

  lemma FailedKnown(m: State, a: Addr, re: Replies)
    requires Known(m) && a in m.nodes
    ensures Known(PingFailed(m, a, re))
  {
    hide Failover;
    if Fails(m, a) + 1 >= m.thresh && a == m.master {
      FailoverKnown(SetAlive(m.(fails := m.fails[a := Fails(m, a) + 1]), a, false), re);
    }
  }

  lemma {:induction false} TickKeys(m: State, results: seq<Result>)
    requires forall r | r in results :: r.addr in m.nodes
    ensures Tick(m, results).nodes.Keys == m.nodes.Keys && Tick(m, results).thresh == m.thresh
    decreases |results|
  {
    hide Pinged;
    if results != [] {
      var n := |results| - 1;
      TickKeys(m, results[..n]);
      var before := Tick(m, results[..n]);
      PingedKeys(before, results[n].addr, results[n].alive, results[n].re);
      PingedThresh(before, results[n].addr, results[n].alive, results[n].re);
    }
  }

  lemma {:induction false} TickKnown(m: State, results: seq<Result>)
    requires Known(m) && forall r | r in results :: r.addr in m.nodes && (r.alive ==> r.addr != "")
    ensures Known(Tick(m, results))
    decreases |results|
  {
    hide Known, Pinged;
    if results != [] {
      var n := |results| - 1;
      TickKnown(m, results[..n]);
      TickKeys(m, results[..n]);
      PingedKnown(Tick(m, results[..n]), results[n].addr, results[n].alive, results[n].re);
    }
  }

  lemma PingedThresh(m: State, a: Addr, alive: bool, re: Replies)
    requires a in m.nodes
    ensures Pinged(m, a, alive, re).thresh == m.thresh
  {
    hide Elected;
  }

  lemma {:induction false} DiscoveredKnown(m: State, order: seq<Addr>, role: Addr -> RoleAnswer)
    requires Known(m) && role("").None? && forall a | a in order :: a in m.nodes
    ensures Known(Discovered(m, order, role))
    decreases |order|
  {
    if order != [] {
      DiscoveredKnown(m, order[..|order| - 1], role);
      DiscoveredKeys(m, order[..|order| - 1], role);
    }
  }

  lemma {:induction false} DiscoveredKeys(m: State, order: seq<Addr>, role: Addr -> RoleAnswer)
    requires forall a | a in order :: a in m.nodes
    ensures Discovered(m, order, role).nodes.Keys == m.nodes.Keys
    decreases |order|
  {
    if order != [] { DiscoveredKeys(m, order[..|order| - 1], role); }
  }

  /** Every call this result may need goes through, and the configured addresses are well formed. */
  ghost predicate Succeeds(re: Replies, addrs: set<Addr>) {
    re.role.Some? && re.demoteOnRecovery && re.demoteRetry && forall a | a in addrs && a != "" :: re.split(a).Some?
  }

  /** Among the nodes that answered so far, only the master is recorded as master. */
  ghost predicate Believed(m: State, done: seq<Result>) {
    forall r | r in done && r.alive :: r.addr in m.nodes && (m.nodes[r.addr].role == "master" ==> r.addr == m.master)
  }

  lemma AnsweredBelieved(m: State, done: seq<Result>, r: Result)
    requires Known(m) && Believed(m, done) && r.addr in m.nodes && r.addr != "" && r.alive
    requires Succeeds(r.re, m.nodes.Keys)
    requires forall d | d in done :: d.addr != r.addr
    ensures Believed(PingOk(m, r.addr, r.re), done + [r])
  {
  }

  lemma MissedBelieved(m: State, done: seq<Result>, r: Result)
    requires Known(m) && Believed(m, done) && r.addr in m.nodes && !r.alive
    requires forall d | d in done :: d.addr != r.addr
    ensures Believed(PingFailed(m, r.addr, r.re), done + [r])
  {
    hide Elected;
  }

  lemma {:induction false} TickBelieved(m: State, results: seq<Result>)
    requires Known(m)
    requires forall r | r in results :: r.addr in m.nodes && Succeeds(r.re, m.nodes.Keys) && (r.alive ==> r.addr != "")
    requires forall i, j | 0 <= i < j < |results| :: results[i].addr != results[j].addr
    ensures Believed(Tick(m, results), results)
    decreases |results|
  {
    hide Known, Believed, PingOk, PingFailed, Succeeds;
    if results == [] {
      NobodyYet(m);
    } else {
      var n := |results| - 1;
      var done, r := results[..n], results[n];
      assert results == done + [r];
      TickBelieved(m, done);
      TickKnown(m, done);
      TickKeys(m, done);
      var before := Tick(m, done);
      if r.alive { AnsweredBelieved(before, done, r); } else { MissedBelieved(before, done, r); }
    }
  }

  lemma NobodyYet(m: State)
    ensures Believed(m, [])
  {
  }

  function Initial(addrs: seq<Addr>, thresh: int): State {
    State(thresh, map a | a in addrs :: Node("", false), map[], "", 0)
  }

  /** From any state reachable after discovery: a health check whose ROLE and REPLICAOF calls succeed leaves no node
      that answered its PING recorded as master beside m.master, in whatever order the results arrive; and m.master is
      empty only if no node is recorded as master. A configured empty address is allowed; it just never answers. */
  lemma OneBelievedMaster(addrs: seq<Addr>, thresh: int, order: seq<Addr>, role: Addr -> RoleAnswer,
                          past: seq<Result>, results: seq<Result>)
    requires role("").None? && forall a | a in order :: a in addrs
    requires forall r | r in past :: r.addr in addrs && (r.alive ==> r.addr != "")
    requires forall r | r in results :: r.addr in addrs && (r.alive ==> r.addr != "")
    requires forall r | r in results :: Succeeds(r.re, set a | a in addrs)
    requires forall i, j | 0 <= i < j < |results| :: results[i].addr != results[j].addr
    ensures var start := Discovered(Initial(addrs, thresh), order, role);
      && (forall r | r in past :: r.addr in start.nodes)
      && var m := Tick(start, past);
      && (forall r | r in results :: r.addr in m.nodes)
      && Known(m)
      && var after := Tick(m, results);
      && Known(after)
      && (forall r | r in results && r.alive ::
            r.addr in after.nodes && (after.nodes[r.addr].role == "master" ==> r.addr == after.master))
  {
    hide Tick, Discovered, Known, Succeeds;
    var init := Initial(addrs, thresh);
    InitialKnown(addrs, thresh);
    DiscoveredKnown(init, order, role);
    DiscoveredKeys(init, order, role);
    var start := Discovered(init, order, role);
    TickKnown(start, past);
    TickKeys(start, past);
    var m := Tick(start, past);
    TickKnown(m, results);
    TickBelieved(m, results);
  }

  lemma InitialKnown(addrs: seq<Addr>, thresh: int)
    ensures Known(Initial(addrs, thresh))
  {
  }

  // ---- failure detection ----

  /** How many of the latest pings of `a` failed in a row. */
  function Streak(run: seq<Result>, a: Addr): nat {
    if run == [] then 0 else
    var n := |run| - 1;
    if run[n].addr != a then Streak(run[..n], a)
    else if run[n].alive then 0 else Streak(run[..n], a) + 1
  }

  lemma PingedFails(m: State, a: Addr, alive: bool, re: Replies, b: Addr)
    requires a in m.nodes
    ensures Fails(Pinged(m, a, alive, re), b) == if a != b then Fails(m, b) else if alive then 0 else Fails(m, b) + 1
  {
    hide PingOk, PingFailed;
    OkFails(m, a, re);
    FailedFails(m, a, re);
  }

  lemma OkFails(m: State, a: Addr, re: Replies)
    requires a in m.nodes
    ensures PingOk(m, a, re).fails == m.fails[a := 0]
  {
    hide Retried, Recovered;
    var t := SetAlive(m.(fails := m.fails[a := 0]), a, true);
    RetriedKeeps(t, a, re);
    if re.role.Some? {
      RecoveredKeeps(t, a, re.role.value, re);
      RetriedKeeps(Recovered(t, a, re.role.value, re), a, re);
    }
  }

  lemma FailedFails(m: State, a: Addr, re: Replies)
    requires a in m.nodes
    ensures PingFailed(m, a, re).fails == m.fails[a := Fails(m, a) + 1]
  {
    hide Elected;
  }

  lemma {:induction false} FailsIsStreak(m: State, run: seq<Result>, a: Addr)
    requires m.fails == map[] && forall r | r in run :: r.addr in m.nodes
    ensures Fails(Tick(m, run), a) == Streak(run, a)
    decreases |run|
  {
    hide Pinged, Fails;
    if run == [] {
      NoFails(m, a);
    } else {
      var n := |run| - 1;
      FailsIsStreak(m, run[..n], a);
      TickKeys(m, run[..n]);
      PingedFails(Tick(m, run[..n]), run[n].addr, run[n].alive, run[n].re, a);
    }
  }

  lemma NoFails(m: State, a: Addr)
    requires m.fails == map[]
    ensures Fails(m, a) == 0
  {
  }

  /** One result: who may be declared dead, and where the master may move. */
  lemma PingedMoves(m: State, a: Addr, alive: bool, re: Replies)
    requires a in m.nodes
    ensures var t := Pinged(m, a, alive, re);
      && (forall b | b in m.nodes && b in t.nodes && m.nodes[b].alive && !t.nodes[b].alive ::
            b == a && !alive && Fails(m, a) + 1 >= m.thresh)
      && (m.master != "" && t.master != m.master ==>
            && m.master == a && !alive && Fails(m, a) + 1 >= m.thresh
            && t.master in m.nodes && m.nodes[t.master].alive && m.nodes[t.master].role == "slave")
  {
    hide PingOk, PingFailed, Fails;
    if alive { OkMoves(m, a, re); } else { FailedMoves(m, a, re); }
  }

  lemma OkMoves(m: State, a: Addr, re: Replies)
    requires a in m.nodes
    ensures var t := PingOk(m, a, re);
      && (forall b | b in m.nodes && b in t.nodes && m.nodes[b].alive :: t.nodes[b].alive)
      && (m.master != "" ==> t.master == m.master)
  {
    hide Retried, Recovered;
    var t := SetAlive(m.(fails := m.fails[a := 0]), a, true);
    RetriedKeeps(t, a, re);
    if re.role.Some? {
      RecoveredKeeps(t, a, re.role.value, re);
      RetriedKeeps(Recovered(t, a, re.role.value, re), a, re);
    }
  }

  ghost predicate SameAlive(m: State, t: State) {
    && t.nodes.Keys == m.nodes.Keys && t.fails == m.fails
    && forall b | b in m.nodes :: t.nodes[b].alive == m.nodes[b].alive
  }

  lemma RetriedKeeps(m: State, a: Addr, re: Replies)
    requires a in m.nodes
    ensures SameAlive(m, Retried(m, a, re)) && Retried(m, a, re).master == m.master
  {
  }

  lemma RecoveredKeeps(m: State, a: Addr, role: string, re: Replies)
    requires a in m.nodes
    ensures SameAlive(m, Recovered(m, a, role, re)) && (m.master != "" ==> Recovered(m, a, role, re).master == m.master)
  {
  }

  lemma FailoverMoves(m: State, re: Replies)
    ensures var t := Failover(m, re);
      && t.nodes.Keys == m.nodes.Keys && (forall b | b in m.nodes :: t.nodes[b].alive == m.nodes[b].alive)
      && (t.master != m.master ==>
            t.master in m.nodes && m.nodes[t.master].alive && m.nodes[t.master].role == "slave")
  {
    hide Elected;
    ElectedIsNode(m.(failovers := m.failovers + 1), re);
  }

  lemma FailedMoves(m: State, a: Addr, re: Replies)
    requires a in m.nodes
    ensures var t := PingFailed(m, a, re);
      && (forall b | b in m.nodes && b in t.nodes && m.nodes[b].alive && !t.nodes[b].alive ::
            b == a && Fails(m, a) + 1 >= m.thresh)
      && (t.master != m.master ==>
            && m.master == a && Fails(m, a) + 1 >= m.thresh
            && t.master in m.nodes && m.nodes[t.master].alive && m.nodes[t.master].role == "slave")
  {
    hide Failover, Fails;
    FailoverMoves(SetAlive(m.(fails := m.fails[a := Fails(m, a) + 1]), a, false), re);
  }

  /** Over every run from discovery on: the failure counter is the streak of failed pings; a node is declared dead only
      with a streak at the threshold; and a known master is replaced only with such a streak, by a node then recorded
      alive and slave. */
  lemma FailureDetection(addrs: seq<Addr>, thresh: int, order: seq<Addr>, role: Addr -> RoleAnswer,
                         run: seq<Result>, n: nat)
    requires (forall a | a in order :: a in addrs) && (forall r | r in run :: r.addr in addrs) && n < |run|
    ensures var start := Discovered(Initial(addrs, thresh), order, role);
      && (forall r | r in run :: r.addr in start.nodes)
      && var m, t := Tick(start, run[..n]), Tick(start, run[..n + 1]);
      && (forall a :: Fails(t, a) == Streak(run[..n + 1], a))
      && (forall a | a in m.nodes && a in t.nodes && m.nodes[a].alive && !t.nodes[a].alive ::
            Streak(run[..n + 1], a) >= thresh)
      && (m.master != "" && t.master != m.master ==>
            && Streak(run[..n + 1], m.master) >= thresh
            && t.master in m.nodes && m.nodes[t.master].alive && m.nodes[t.master].role == "slave")
  {
    hide Discovered, Pinged, Streak, Fails;
    var init := Initial(addrs, thresh);
    DiscoveredKeys(init, order, role);
    DiscoveredFresh(init, order, role);
    var start := Discovered(init, order, role);
    var before, now := run[..n], run[..n + 1];
    assert now[..n] == before && now[n] == run[n];
    TickKeys(start, before);
    var m := Tick(start, before);
    PingedMoves(m, run[n].addr, run[n].alive, run[n].re);
    forall a
      ensures Fails(Tick(start, now), a) == Streak(now, a)
    {
      FailsIsStreak(start, now, a);
    }
    PingedFails(m, run[n].addr, run[n].alive, run[n].re, run[n].addr);
  }

  lemma {:induction false} DiscoveredFresh(m: State, order: seq<Addr>, role: Addr -> RoleAnswer)
    ensures Discovered(m, order, role).fails == m.fails && Discovered(m, order, role).thresh == m.thresh
    decreases |order|
  {
    if order != [] { DiscoveredFresh(m, order[..|order| - 1], role); }
  }

  // ---- what one result of a health check does, in terms of the answers ----

  /** A ping failed; `dead` says that the streak has reached the threshold. A dead master is replaced by the best node
      that took over, if there is one, and the failover is counted either way. */
  ghost predicate AfterMiss(m: State, a: Addr, re: Replies, dead: bool, t: State)
    requires a in m.nodes
  {
    && t.nodes.Keys == m.nodes.Keys
    && t.nodes[a].role == m.nodes[a].role && t.nodes[a].alive == (m.nodes[a].alive && !dead)
    && t.failovers == m.failovers + (if dead && a == m.master then 1 else 0)
    && if dead && a == m.master && exists b :: Eligible(m, re, b) then
         && Best(m, re, t.master) && t.nodes[t.master] == Node("master", true)
         && forall b | b in m.nodes && b != a && b != t.master :: t.nodes[b] == m.nodes[b]
       else t.master == m.master && forall b | b in m.nodes && b != a :: t.nodes[b] == m.nodes[b]
  }

  /** A ping was answered. A node that was dead says what it is, if it can be asked, and becomes the master if there is
      none and it says so. Whoever is known to be a master beside the master and can be told to follow is a slave. */
  ghost predicate AfterAnswer(m: State, a: Addr, re: Replies, t: State)
    requires a in m.nodes
  {
    var back := !m.nodes[a].alive;
    var said := if back && re.role.Some? then re.role.value else m.nodes[a].role;
    var beside := said == "master" && m.master != "" && m.master != a && !(back && re.role.None?);
    && t.nodes.Keys == m.nodes.Keys && t.failovers == m.failovers
    && t.nodes[a] == Node(if beside && re.split(m.master).Some? && (re.demoteRetry || (back && re.demoteOnRecovery))
                          then "slave" else said, true)
    && t.master == (if back && re.role == Some("master") && m.master == "" then a else m.master)
    && forall b | b in m.nodes && b != a :: t.nodes[b] == m.nodes[b]
  }

  lemma AnsweredMeans(m: State, a: Addr, re: Replies)
    requires a in m.nodes
    ensures AfterAnswer(m, a, re, PingOk(m, a, re))
  {
  }

  lemma MissedMeans(m: State, a: Addr, re: Replies)
    requires a in m.nodes
    ensures AfterMiss(m, a, re, Fails(m, a) + 1 >= m.thresh, PingFailed(m, a, re))
  {
    hide Failover, Fails, Eligible;
    var n := Fails(m, a) + 1;
    if n >= m.thresh && a == m.master {
      var u := SetAlive(m.(fails := m.fails[a := n]), a, false);
      FailoverMeans(u, re);
      SameEligible(m, u, re);
      NotItself(m, re);
    }
  }

  lemma NotItself(m: State, re: Replies)
    ensures !Eligible(m, re, m.master)
  {
  }

  /** The master itself is never eligible, so it does not matter that it was declared dead first. */
  lemma SameEligible(m: State, u: State, re: Replies)
    requires m.master == u.master && m.nodes.Keys == u.nodes.Keys
    requires forall b | b in m.nodes && b != m.master :: u.nodes[b] == m.nodes[b]
    ensures forall b :: Eligible(u, re, b) <==> Eligible(m, re, b)
    ensures forall b :: Best(u, re, b) <==> Best(m, re, b)
  {
    hide TookOver, Outranks;
  }

  lemma FailoverMeans(u: State, re: Replies)
    ensures var t := Failover(u, re);
      && t.nodes.Keys == u.nodes.Keys && t.failovers == u.failovers + 1 && t.fails == u.fails && t.thresh == u.thresh
      && if exists b :: Eligible(u, re, b) then
           && Best(u, re, t.master) && t.nodes[t.master] == Node("master", true)
           && forall b | b in u.nodes && b != t.master :: t.nodes[b] == u.nodes[b]
         else t.master == u.master && t.nodes == u.nodes
  {
    hide Elected, TookOver, Outranks;
    var v := u.(failovers := u.failovers + 1);
    ElectedIsBest(v, re);
    SameEligible(u, v, re);
  }

  /** Over every run from discovery on, for every result: what it does to the records, in terms of the streak of failed
      pings and the answers given. */
  lemma HealthCheckMeans(addrs: seq<Addr>, thresh: int, order: seq<Addr>, role: Addr -> RoleAnswer,
                         run: seq<Result>, n: nat)
    requires (forall a | a in order :: a in addrs) && (forall r | r in run :: r.addr in addrs) && n < |run|
    ensures var start := Discovered(Initial(addrs, thresh), order, role);
      && (forall r | r in run :: r.addr in start.nodes)
      && var m, t, r := Tick(start, run[..n]), Tick(start, run[..n + 1]), run[n];
      && r.addr in m.nodes
      && if r.alive then AfterAnswer(m, r.addr, r.re, t)
         else AfterMiss(m, r.addr, r.re, Streak(run[..n + 1], r.addr) >= thresh, t)
  {
    hide Discovered, PingOk, PingFailed, AfterMiss, AfterAnswer, Streak, Fails;
    var init := Initial(addrs, thresh);
    DiscoveredKeys(init, order, role);
    DiscoveredFresh(init, order, role);
    var start := Discovered(init, order, role);
    var before, now := run[..n], run[..n + 1];
    assert now[..n] == before && now[n] == run[n];
    TickKeys(start, before);
    var m, r := Tick(start, before), run[n];
    if r.alive {
      AnsweredMeans(m, r.addr, r.re);
    } else {
      MissedMeans(m, r.addr, r.re);
      FailsIsStreak(start, before, r.addr);
      StreakMore(before, r);
      assert now == before + [r];
    }
  }

  lemma StreakMore(run: seq<Result>, r: Result)
    requires !r.alive
    ensures Streak(run + [r], r.addr) == Streak(run, r.addr) + 1
  {
    assert (run + [r])[..|run|] == run;
  }

  /** Discovery: every node that was asked is recorded as it answered, and the master is the last one that said so. */
  lemma DiscoveredIs(m: State, order: seq<Addr>, role: Addr -> RoleAnswer, a: Addr, i: nat)
    requires LastMaster(order, role, i)
    ensures var t := Discovered(m, order, role);
      && (a in order ==>
            a in t.nodes && t.nodes[a] == if role(a).Some? then Node(role(a).value, true) else Node("unknown", false))
      && (a in m.nodes && a !in order ==> a in t.nodes && t.nodes[a] == m.nodes[a])
      && t.master == if i < |order| then order[i] else m.master
  {
    hide Discovered, LastMaster;
    DiscoveredNode(m, order, role, a);
    DiscoveredMaster(m, order, role, i);
  }

  /** Position `i` is the last one whose node said "master"; behind the end if none did. */
  ghost predicate LastMaster(order: seq<Addr>, role: Addr -> RoleAnswer, i: nat) {
    && i <= |order| && (i < |order| ==> role(order[i]) == Some("master"))
    && forall j | (if i < |order| then i + 1 else 0) <= j < |order| :: role(order[j]) != Some("master")
  }

  lemma {:induction false} DiscoveredNode(m: State, order: seq<Addr>, role: Addr -> RoleAnswer, a: Addr)
    ensures var t := Discovered(m, order, role);
      && (a in order ==>
            a in t.nodes && t.nodes[a] == if role(a).Some? then Node(role(a).value, true) else Node("unknown", false))
      && (a in m.nodes && a !in order ==> a in t.nodes && t.nodes[a] == m.nodes[a])
    decreases |order|
  {
    if order != [] {
      var n := |order| - 1;
      DiscoveredNode(m, order[..n], role, a);
      assert a in order <==> a in order[..n] || a == order[n];
    }
  }

  lemma {:induction false} DiscoveredMaster(m: State, order: seq<Addr>, role: Addr -> RoleAnswer, i: nat)
    requires LastMaster(order, role, i)
    ensures Discovered(m, order, role).master == if i < |order| then order[i] else m.master
    decreases |order|
  {
    if order != [] {
      var n := |order| - 1;
      if role(order[n]) != Some("master") {
        DiscoveredMaster(m, order[..n], role, if i < |order| then i else n);
      }
    }
  }
}
