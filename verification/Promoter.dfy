/** Choosing and promoting a replica: controller/failover/promoter.go.
    What the nodes answer is given by oracles. */
module Promoter {
  import opened Text

  type Addr = string

  const PROMOTE_MAX_RETRIES: nat := 3

  /** `None` where the call failed. */
  type RoleAnswer = Option<string>

  /** INFO replication: unreachable, or the raw `master_repl_offset` field if there is one. */
  type InfoAnswer = Option<Option<string>>

  // ---- ranking ----

  datatype Candidate = Candidate(addr: Addr, offset: int)

  /** Go's string order: byte by byte. */
  predicate Less(a: string, b: string) {
    b != [] && (a == [] || a[0] < b[0] || (a[0] == b[0] && Less(a[1..], b[1..])))
  }

  /** Higher offset first, then the smaller address. */
  predicate Before(x: Candidate, y: Candidate) {
    if x.offset != y.offset then x.offset > y.offset else Less(x.addr, y.addr)
  }

  /** `strconv.ParseInt(raw, 10, 64)`: one sign, digits only, 64 bits. */
  function ParseInt(raw: string): Option<int> {
    var d := if raw != "" && (raw[0] == '-' || raw[0] == '+') then raw[1..] else raw;
    if d == "" || Digits(d) != d then None else Text.Parse(raw, LLONG_MAX)
  }

  /** A missing or malformed offset counts as 0. */
  function OffsetOf(field: Option<string>): int {
    if field.Some? && ParseInt(field.value).Some? then ParseInt(field.value).value else 0
  }

  function Reachable(candidates: seq<Addr>, info: Addr -> InfoAnswer): seq<Candidate> {
    if candidates == [] then [] else
    var n := |candidates| - 1;
    Reachable(candidates[..n], info)
    + (match info(candidates[n])
       case None => []
       case Some(field) => [Candidate(candidates[n], OffsetOf(field))])
  }

  ghost predicate Sorted(s: seq<Candidate>) {
    forall i, j | 0 <= i < j < |s| :: !Before(s[j], s[i])
  }

  function Addrs(s: seq<Candidate>): seq<Addr> {
    seq(|s|, i requires 0 <= i < |s| => s[i].addr)
  }

  /** `ranking` is the reachable candidates, best first. */
  ghost predicate IsRanking(ranking: seq<Candidate>, candidates: seq<Addr>, info: Addr -> InfoAnswer) {
    Sorted(ranking) && multiset(ranking) == multiset(Reachable(candidates, info))
  }

  // ---- what the answers say ----

  /** `a` comes before `b` in byte order: at the first difference, or by being a beginning of it. */
  ghost predicate Smaller(a: string, b: string) {
    (a != b && a <= b) || exists k | 0 <= k < |a| && k < |b| :: a[..k] == b[..k] && a[k] < b[k]
  }

  lemma SmallerHead(a: string, b: string)
    requires a != [] && b != [] && Smaller(a, b)
    ensures a[0] < b[0] || (a[0] == b[0] && Smaller(a[1..], b[1..]))
  {
    var s, t := a[1..], b[1..];
    assert a == [a[0]] + s && b == [b[0]] + t;
    if a != b && a <= b {
      assert a[0] == b[0] && s <= t && s != t;
    } else {
      var k :| 0 <= k < |a| && k < |b| && a[..k] == b[..k] && a[k] < b[k];
      if k > 0 {
        assert a[0] == a[..k][0] && b[0] == b[..k][0];
        assert s[..k - 1] == a[..k][1..] && t[..k - 1] == b[..k][1..] && s[k - 1] < t[k - 1];
      }
    }
  }

  lemma HeadSmaller(a: string, b: string)
    requires a != [] && b != [] && (a[0] < b[0] || (a[0] == b[0] && Smaller(a[1..], b[1..])))
    ensures Smaller(a, b)
  {
    if a[0] < b[0] {
      assert a[..0] == b[..0];
    } else {
      var s, t := a[1..], b[1..];
      assert a == [a[0]] + s && b == [a[0]] + t;
      if s == t || !(s <= t) {
        var k :| 0 <= k < |s| && k < |t| && s[..k] == t[..k] && s[k] < t[k];
        assert a[..k + 1] == [a[0]] + s[..k] && b[..k + 1] == [a[0]] + t[..k];
        assert a[k + 1] < b[k + 1];
      }
    }
  }

  lemma {:induction false} LessIsSmaller(a: string, b: string)
    ensures Less(a, b) <==> Smaller(a, b)
    decreases |a|
  {
    hide Smaller;
    if a != [] && b != [] {
      LessIsSmaller(a[1..], b[1..]);
      if Smaller(a, b) { SmallerHead(a, b); }
      if Less(a, b) { HeadSmaller(a, b); }
    } else {
      EmptySmaller(a, b);
    }
  }

  lemma EmptySmaller(a: string, b: string)
    requires a == [] || b == []
    ensures Smaller(a, b) <==> a == [] && b != []
  {
  }

  /** The whole text is an optional sign and digits, for a number of 64 bits. */
  ghost predicate Numeral(s: string, x: int) {
    && -0x8000_0000_0000_0000 <= x <= 0x7FFF_FFFF_FFFF_FFFF
    && exists sign, d | SignedDigits(s, sign, d) :: x == WithSign(sign, Value(d))
  }

  ghost predicate SignedDigits(s: string, sign: string, d: string) {
    s == sign + d && (sign == "" || sign == "+" || sign == "-") && d != "" && AllDigits(d)
  }

  /** The offset an INFO answer stands for: its number, or 0 where there is none. */
  ghost predicate Worth(field: Option<string>, x: int) {
    if field.Some? && exists y :: Numeral(field.value, y) then Numeral(field.value, x) else x == 0
  }

  lemma ParseNumeral(s: string, sign: string, d: string)
    requires SignedDigits(s, sign, d)
    ensures var x := WithSign(sign, Value(d));
      ParseInt(s) == if -LLONG_MAX - 1 <= x <= LLONG_MAX then Some(x) else None
  {
    hide Text.Parse, Value;
    assert s[0] == if sign == "" then d[0] else sign[0];
    var e := if s != "" && (s[0] == '-' || s[0] == '+') then s[1..] else s;
    assert e == d;
    DigitsOfDigits(d);
    assert Layout(s, "", sign, d, "");
    ParseLayout(s, LLONG_MAX, "", sign, d, "");
  }

  lemma NumeralOf(s: string)
    requires ParseInt(s).Some?
    ensures Numeral(s, ParseInt(s).value)
  {
    hide Text.Parse, Value;
    var sign := if s != "" && (s[0] == '-' || s[0] == '+') then [s[0]] else "";
    var d := s[|sign|..];
    assert SignedDigits(s, sign, d);
    ParseNumeral(s, sign, d);
  }

  lemma NumeralRead(s: string, x: int)
    requires Numeral(s, x)
    ensures ParseInt(s) == Some(x)
  {
    hide ParseInt;
    var sign, d :| SignedDigits(s, sign, d) && x == WithSign(sign, Value(d));
    ParseNumeral(s, sign, d);
  }

  lemma WorthIs(field: Option<string>, x: int)
    ensures Worth(field, x) <==> x == OffsetOf(field)
  {
    hide ParseInt, Numeral;
    if field.Some? {
      if ParseInt(field.value).Some? { NumeralOf(field.value); }
      if exists y :: Numeral(field.value, y) {
        var y :| Numeral(field.value, y);
        NumeralRead(field.value, y);
      }
      if Numeral(field.value, x) { NumeralRead(field.value, x); }
    }
  }

  /** A printed number stands for itself, a missing field or one that is no numeral for 0. */
  lemma WorthOf(n: nat, x: int, word: string)
    requires n <= LLONG_MAX
    ensures Worth(Some(Dec(n)), x) <==> x == n
    ensures Worth(Some("-" + Dec(n)), x) <==> x == 0 - n
    ensures Worth(None, x) <==> x == 0
    ensures (forall y :: !Numeral(word, y)) ==> (Worth(Some(word), x) <==> x == 0)
  {
    hide Dec, Numeral;
    NumeralDec(n);
    WorthNumeral(Dec(n), n, x);
    WorthNumeral("-" + Dec(n), 0 - n, x);
  }

  lemma WorthNumeral(s: string, v: int, x: int)
    requires Numeral(s, v)
    ensures Worth(Some(s), x) <==> x == v
  {
    hide Numeral, ParseInt;
    NumeralRead(s, v);
    if Numeral(s, x) { NumeralRead(s, x); }
  }

  lemma NumeralDec(n: nat)
    requires n <= LLONG_MAX
    ensures Numeral(Dec(n), n) && Numeral("-" + Dec(n), 0 - n)
  {
    hide Dec;
    ValueOfDec(n);
    DecIsDigits(n);
    assert SignedDigits(Dec(n), "", Dec(n)) && SignedDigits("-" + Dec(n), "-", Dec(n));
  }

  /** Of two nodes that answered, the first said the higher number, or the same and its address is smaller. */
  ghost predicate Outranks(a: Addr, b: Addr, info: Addr -> InfoAnswer) {
    info(a).Some? && info(b).Some? &&
    exists x, y | Worth(info(a).value, x) && Worth(info(b).value, y) :: x > y || (x == y && Smaller(a, b))
  }

  lemma OutranksIs(a: Addr, b: Addr, info: Addr -> InfoAnswer)
    requires info(a).Some? && info(b).Some?
    ensures Outranks(a, b, info) <==> Before(RankedAs(a, info), RankedAs(b, info))
  {
    hide OffsetOf, Worth, Less, Smaller;
    LessIsSmaller(a, b);
    var x, y := OffsetOf(info(a).value), OffsetOf(info(b).value);
    WorthIs(info(a).value, x);
    WorthIs(info(b).value, y);
    if Outranks(a, b, info) {
      var u, v :| Worth(info(a).value, u) && Worth(info(b).value, v) && (u > v || (u == v && Smaller(a, b)));
      WorthIs(info(a).value, u);
      WorthIs(info(b).value, v);
    }
  }

  /** How a candidate that answered INFO is ranked. */
  function RankedAs(addr: Addr, info: Addr -> InfoAnswer): Candidate
    requires info(addr).Some?
  {
    Candidate(addr, OffsetOf(info(addr).value))
  }

  /** `ranked` is every candidate that answered, as often as listed, and nobody stands behind someone it outranks. */
  ghost predicate RanksAnswers(ranked: seq<Addr>, candidates: seq<Addr>, info: Addr -> InfoAnswer) {
    && (forall a :: multiset(ranked)[a] == if info(a).Some? then multiset(candidates)[a] else 0)
    && forall i, j | 0 <= i < j < |ranked| :: !Outranks(ranked[j], ranked[i], info)
  }

  /** In terms of the texts: who said the higher number stands before who said the lower one, and with equal numbers the
      smaller address stands first. */
  lemma RankedByNumbers(ranked: seq<Addr>, candidates: seq<Addr>, info: Addr -> InfoAnswer, i: nat, j: nat, x: int,
                        y: int)
    requires RanksAnswers(ranked, candidates, info) && i < |ranked| && j < |ranked|
    requires info(ranked[i]).Some? && Worth(info(ranked[i]).value, x)
    requires info(ranked[j]).Some? && Worth(info(ranked[j]).value, y)
    requires x > y || (x == y && Smaller(ranked[i], ranked[j]))
    ensures i < j
  {
    hide Worth, Smaller;
    assert Outranks(ranked[i], ranked[j], info);
    if i == j { Irreflexive(ranked[i], info); }
  }

  lemma Irreflexive(a: Addr, info: Addr -> InfoAnswer)
    ensures !Outranks(a, a, info)
  {
    hide Outranks;
    if info(a).Some? {
      OutranksIs(a, a, info);
      BeforeTotal(RankedAs(a, info), RankedAs(a, info));
    } else {
      NotAnswered(a, info);
    }
  }

  lemma NotAnswered(a: Addr, info: Addr -> InfoAnswer)
    requires info(a).None?
    ensures !Outranks(a, a, info)
  {
  }

  lemma {:induction false} LessTotal(a: string, b: string)
    ensures a != b ==> (Less(a, b) <==> !Less(b, a))
    ensures a == b ==> !Less(a, b)
    decreases |a|
  {
    if a != [] && b != [] {
      LessTotal(a[1..], b[1..]);
      assert a[0] == b[0] && a[1..] == b[1..] ==> a == [a[0]] + a[1..] == b;
    }
  }

  lemma {:induction false} LessTransitive(a: string, b: string, c: string)
    requires Less(a, b) && Less(b, c)
    ensures Less(a, c)
    decreases |a|
  {
    if a != [] && a[0] == b[0] == c[0] { LessTransitive(a[1..], b[1..], c[1..]); }
  }

  lemma BeforeTotal(x: Candidate, y: Candidate)
    ensures x != y ==> (Before(x, y) <==> !Before(y, x))
    ensures !Before(x, x)
  {
    LessTotal(x.addr, y.addr);
    LessTotal(x.addr, x.addr);
  }

  lemma BeforeTransitive(x: Candidate, y: Candidate, z: Candidate)
    requires !Before(y, x) && !Before(z, y)
    ensures !Before(z, x)
  {
    BeforeTotal(x, y);
    BeforeTotal(y, z);
    BeforeTotal(x, z);
    if Before(x, y) && Before(y, z) && x.offset == y.offset == z.offset { LessTransitive(x.addr, y.addr, z.addr); }
  }

  function Insert(x: Candidate, s: seq<Candidate>): seq<Candidate> {
    if s == [] then [x] else if Before(s[0], x) then [s[0]] + Insert(x, s[1..]) else [x] + s
  }

  lemma {:induction false} InsertMembers(x: Candidate, s: seq<Candidate>)
    ensures multiset(Insert(x, s)) == multiset(s) + multiset{x}
    decreases |s|
  {
    hide Before;
    if s != [] {
      InsertMembers(x, s[1..]);
      assert s == [s[0]] + s[1..];
    }
  }

  lemma SortedCons(x: Candidate, s: seq<Candidate>)
    requires Sorted(s) && forall y | y in multiset(s) :: !Before(y, x)
    ensures Sorted([x] + s)
  {
    hide Before;
    var t := [x] + s;
    forall i, j | 0 <= i < j < |t|
      ensures !Before(t[j], t[i])
    {
      assert t[j] == s[j - 1] && s[j - 1] in multiset(s);
    }
  }

  lemma {:induction false} InsertSorted(x: Candidate, s: seq<Candidate>)
    requires Sorted(s)
    ensures Sorted(Insert(x, s))
    decreases |s|
  {
    hide Before;
    if s == [] {
    } else if Before(s[0], x) {
      InsertSorted(x, s[1..]);
      InsertMembers(x, s[1..]);
      BeforeTotal(s[0], x);
      forall y | y in multiset(Insert(x, s[1..]))
        ensures !Before(y, s[0])
      {
        if y != x { assert y in s[1..]; }
      }
      SortedCons(s[0], Insert(x, s[1..]));
    } else {
      forall y | y in multiset(s)
        ensures !Before(y, x)
      {
        assert y in s;
        if y != s[0] { assert y in s[1..]; }
        BeforeTotal(y, y);
        BeforeTransitive(x, s[0], y);
      }
      SortedCons(x, s);
    }
  }

  method SortCandidates(s: seq<Candidate>) returns (r: seq<Candidate>)
    ensures Sorted(r) && multiset(r) == multiset(s) && |r| == |s|
  {
    hide Before, Insert;
    r := [];
    var i := 0;
    while i < |s|
      invariant 0 <= i <= |s|
      invariant Sorted(r) && multiset(r) == multiset(s[..i])
    {
      assert s[..i + 1] == s[..i] + [s[i]];
      InsertSorted(s[i], r);
      InsertMembers(s[i], r);
      r := Insert(s[i], r);
      i := i + 1;
    }
    assert s[..i] == s && |multiset(r)| == |multiset(s)|;
  }

  function SortedCandidates(s: seq<Candidate>): seq<Candidate> {
    if s == [] then [] else Insert(s[|s| - 1], SortedCandidates(s[..|s| - 1]))
  }

  lemma {:induction false} SortedCandidatesSorts(s: seq<Candidate>)
    ensures Sorted(SortedCandidates(s)) && multiset(SortedCandidates(s)) == multiset(s)
    decreases |s|
  {
    hide Before, Insert, Sorted;
    if s == [] {
      NothingRanked();
    } else {
      var n := |s| - 1;
      SortedCandidatesSorts(s[..n]);
      InsertSorted(s[n], SortedCandidates(s[..n]));
      InsertMembers(s[n], SortedCandidates(s[..n]));
      assert s == s[..n] + [s[n]];
    }
  }

  /** The addresses of the reachable candidates, best first. */
  function Ranked(candidates: seq<Addr>, info: Addr -> InfoAnswer): seq<Addr> {
    Addrs(SortedCandidates(Reachable(candidates, info)))
  }

  /** There is only one way to rank a set of answers, whatever the sorting algorithm. */
  lemma {:induction false} RankingUnique(s: seq<Candidate>, t: seq<Candidate>)
    requires Sorted(s) && Sorted(t) && multiset(s) == multiset(t)
    ensures s == t
    decreases |s|
  {
    hide Before, Sorted;
    if s == [] {
      assert |multiset(t)| == 0;
    } else {
      assert s[0] in multiset(s) && s[0] in multiset(t);
      assert t != [] && t[0] in multiset(t);
      SameFirst(s, t);
      Tail(s);
      Tail(t);
      RankingUnique(s[1..], t[1..]);
    }
  }

  lemma Tail(s: seq<Candidate>)
    requires s != [] && Sorted(s)
    ensures Sorted(s[1..]) && multiset(s[1..]) == multiset(s) - multiset{s[0]} && s == [s[0]] + s[1..]
  {
    hide Before;
    assert s == [s[0]] + s[1..];
  }

  lemma SameFirst(s: seq<Candidate>, t: seq<Candidate>)
    requires Sorted(s) && Sorted(t) && s != [] && t != [] && s[0] in t && t[0] in s
    ensures s[0] == t[0]
  {
    hide Before;
    BeforeTotal(s[0], t[0]);
  }

  /** Rank the candidates that answer INFO; an error when there is none. */
  method PickBestReplica(candidates: seq<Addr>, info: Addr -> InfoAnswer) returns (r: Option<seq<Addr>>)
    ensures r == if Ranked(candidates, info) == [] then None else Some(Ranked(candidates, info))
    ensures r.None? <==> forall a | a in candidates :: info(a).None?
    ensures r.Some? ==> RanksAnswers(r.value, candidates, info)
  {
    hide Sorted, OffsetOf, SortedCandidates, Reachable, Addrs, RanksAnswers;
    RankedRanks(candidates, info);
    NobodyRanked(candidates, info);
    var reachable := CollectReachable(candidates, info);
    SortedCandidatesSorts(reachable);
    if reachable == [] {
      NoneSorted(SortedCandidates(reachable));
      return None;
    }
    var sorted := SortCandidates(reachable);
    RankingUnique(sorted, SortedCandidates(reachable));
    var ranked := CollectAddrs(sorted);
    SomeSorted(sorted, reachable);
    return Some(ranked);
  }

  method CollectReachable(candidates: seq<Addr>, info: Addr -> InfoAnswer) returns (r: seq<Candidate>)
    ensures r == Reachable(candidates, info)
  {
    hide OffsetOf;
    r := [];
    var i := 0;
    while i < |candidates|
      invariant 0 <= i <= |candidates|
      invariant r == Reachable(candidates[..i], info)
    {
      assert candidates[..i + 1][..i] == candidates[..i];
      var answer := info(candidates[i]);
      if answer.Some? {
        r := r + [Candidate(candidates[i], OffsetOf(answer.value))];
      }
      i := i + 1;
    }
    assert candidates[..i] == candidates;
  }

  method CollectAddrs(s: seq<Candidate>) returns (r: seq<Addr>)
    ensures r == Addrs(s)
  {
    r := [];
    var i := 0;
    while i < |s|
      invariant 0 <= i <= |s|
      invariant r == Addrs(s[..i])
    {
      r := r + [s[i].addr];
      i := i + 1;
    }
    assert s[..i] == s;
  }

  lemma NoneSorted(s: seq<Candidate>)
    requires multiset(s) == multiset([])
    ensures Addrs(s) == []
  {
    assert |s| == |multiset(s)| == 0;
  }

  lemma SomeSorted(s: seq<Candidate>, r: seq<Candidate>)
    requires multiset(s) == multiset(r) && r != []
    ensures Addrs(s) != []
  {
    assert |s| == |multiset(s)| == |multiset(r)| == |r|;
  }

  lemma NothingRanked()
    ensures Sorted([])
  {
  }

  // ---- the ranking does not depend on the order of the candidates ----

  predicate Answers(x: Candidate, info: Addr -> InfoAnswer) {
    info(x.addr).Some? && x.offset == OffsetOf(info(x.addr).value)
  }

  lemma {:induction false} ReachableCount(candidates: seq<Addr>, info: Addr -> InfoAnswer, x: Candidate)
    ensures multiset(Reachable(candidates, info))[x] == if Answers(x, info) then multiset(candidates)[x.addr] else 0
    decreases |candidates|
  {
    hide OffsetOf;
    if candidates != [] {
      var n := |candidates| - 1;
      ReachableCount(candidates[..n], info, x);
      assert candidates == candidates[..n] + [candidates[n]];
    }
  }

  lemma RankedIsRanking(candidates: seq<Addr>, info: Addr -> InfoAnswer) returns (ranking: seq<Candidate>)
    ensures IsRanking(ranking, candidates, info) && Ranked(candidates, info) == Addrs(ranking)
  {
    ranking := SortedCandidates(Reachable(candidates, info));
    SortedCandidatesSorts(Reachable(candidates, info));
  }

  /** The ranking is the same for every order in which the candidates are listed. */
  lemma RankedIndependent(c1: seq<Addr>, c2: seq<Addr>, info: Addr -> InfoAnswer)
    requires multiset(c1) == multiset(c2)
    ensures Ranked(c1, info) == Ranked(c2, info)
  {
    hide Ranked, Reachable, IsRanking;
    var r1 := RankedIsRanking(c1, info);
    var r2 := RankedIsRanking(c2, info);
    RankingIndependent(c1, c2, info, r1, r2);
  }

  lemma RankingIndependent(c1: seq<Addr>, c2: seq<Addr>, info: Addr -> InfoAnswer, r1: seq<Candidate>,
                           r2: seq<Candidate>)
    requires multiset(c1) == multiset(c2) && IsRanking(r1, c1, info) && IsRanking(r2, c2, info)
    ensures r1 == r2
  {
    hide Reachable, Sorted;
    forall x: Candidate
      ensures multiset(Reachable(c1, info))[x] == multiset(Reachable(c2, info))[x]
    {
      ReachableCount(c1, info, x);
      ReachableCount(c2, info, x);
    }
    assert multiset(Reachable(c1, info)) == multiset(Reachable(c2, info));
    RankingUnique(r1, r2);
  }

  lemma {:induction false} CountAddrs(s: seq<Candidate>, info: Addr -> InfoAnswer, a: Addr)
    requires forall x | x in s :: Answers(x, info)
    ensures multiset(Addrs(s))[a] == if info(a).Some? then multiset(s)[RankedAs(a, info)] else 0
    decreases |s|
  {
    hide OffsetOf;
    if s != [] {
      var n := |s| - 1;
      CountAddrs(s[..n], info, a);
      assert s == s[..n] + [s[n]] && Addrs(s) == Addrs(s[..n]) + [s[n].addr];
      assert s[n] in s;
    }
  }

  /** The ranking, in terms of the answered texts. */
  lemma RankedRanks(candidates: seq<Addr>, info: Addr -> InfoAnswer)
    ensures RanksAnswers(Ranked(candidates, info), candidates, info)
  {
    hide Ranked, Reachable, OffsetOf, Outranks, Before, Answers;
    var ranking := RankedIsRanking(candidates, info);
    var ranked := Addrs(ranking);
    forall x | x in ranking
      ensures Answers(x, info)
    {
      InRanking(candidates, info, ranking, x);
    }
    forall a
      ensures multiset(ranked)[a] == if info(a).Some? then multiset(candidates)[a] else 0
    {
      CountAddrs(ranking, info, a);
      if info(a).Some? {
        ReachableCount(candidates, info, RankedAs(a, info));
        AnswersItself(a, info);
      }
    }
    forall i, j | 0 <= i < j < |ranked|
      ensures !Outranks(ranked[j], ranked[i], info)
    {
      assert ranking[i] in ranking && ranking[j] in ranking;
      RankedItself(ranking[i], info);
      RankedItself(ranking[j], info);
      OutranksIs(ranked[j], ranked[i], info);
    }
  }

  lemma AnswersItself(a: Addr, info: Addr -> InfoAnswer)
    requires info(a).Some?
    ensures Answers(RankedAs(a, info), info)
  {
  }

  lemma RankedItself(x: Candidate, info: Addr -> InfoAnswer)
    requires Answers(x, info)
    ensures info(x.addr).Some? && RankedAs(x.addr, info) == x
  {
  }

  lemma NobodyRanked(candidates: seq<Addr>, info: Addr -> InfoAnswer)
    ensures Ranked(candidates, info) == [] <==> forall a | a in candidates :: info(a).None?
  {
    hide Ranked, Outranks;
    RankedRanks(candidates, info);
    var ranked := Ranked(candidates, info);
    if ranked == [] {
      forall a | a in candidates
        ensures info(a).None?
      {
        assert multiset(candidates)[a] > 0 && multiset(ranked)[a] == 0;
      }
    } else {
      assert ranked[0] in multiset(ranked);
      assert multiset(candidates)[ranked[0]] > 0;
    }
  }

  // ---- promotion ----

  /** ROLE said "master" at one of the polls from `attempt` on. */
  predicate Confirmed(addr: Addr, role: (Addr, nat) -> RoleAnswer, attempt: nat)
    decreases PROMOTE_MAX_RETRIES + 1 - attempt
  {
    attempt <= PROMOTE_MAX_RETRIES && (role(addr, attempt) == Some("master") || Confirmed(addr, role, attempt + 1))
  }

  /** The node took REPLICAOF NO ONE and was seen as master in time. */
  predicate Promotable(addr: Addr, noOne: Addr -> bool, role: (Addr, nat) -> RoleAnswer) {
    noOne(addr) && Confirmed(addr, role, 1)
  }

  /** In the answers: it took REPLICAOF NO ONE, and one of three polls said "master". */
  ghost predicate TookOver(addr: Addr, noOne: Addr -> bool, role: (Addr, nat) -> RoleAnswer) {
    && noOne(addr)
    && (role(addr, 1) == Some("master") || role(addr, 2) == Some("master") || role(addr, 3) == Some("master"))
  }

  lemma PromotableIs(addr: Addr, noOne: Addr -> bool, role: (Addr, nat) -> RoleAnswer)
    ensures Promotable(addr, noOne, role) <==> TookOver(addr, noOne, role)
  {
    assert Confirmed(addr, role, 2) <==> role(addr, 2) == Some("master") || Confirmed(addr, role, 3);
    assert Confirmed(addr, role, 3) <==> role(addr, 3) == Some("master") || Confirmed(addr, role, 4);
  }

  /** Walk down the ranking; `asked` are the nodes REPLICAOF NO ONE was sent to. */
  method Promote(ranked: seq<Addr>, noOne: Addr -> bool, role: (Addr, nat) -> RoleAnswer)
    returns (winner: Option<Addr>, asked: seq<Addr>)
    ensures asked <= ranked
    ensures winner.Some? ==> asked != [] && asked[|asked| - 1] == winner.value && Promotable(winner.value, noOne, role)
    ensures forall i | 0 <= i < |asked| && (winner.Some? ==> i < |asked| - 1) :: !Promotable(asked[i], noOne, role)
    ensures winner.None? ==> asked == ranked
    ensures winner == Winner(ranked, noOne, role)
  {
    hide Confirmed, Winner;
    winner, asked := None, [];
    var i := 0;
    while i < |ranked|
      invariant 0 <= i <= |ranked| && asked == ranked[..i] && winner.None?
      invariant forall k | 0 <= k < i :: !Promotable(asked[k], noOne, role)
    {
      var addr := ranked[i];
      asked := asked + [addr];
      if noOne(addr) {
        var promoted := PollRole(addr, role);
        if promoted {
          WinnerIsFirst(ranked, asked, Some(addr), noOne, role);
          return Some(addr), asked;
        }
      }
      i := i + 1;
    }
    WinnerIsFirst(ranked, asked, None, noOne, role);
  }

  method PollRole(addr: Addr, role: (Addr, nat) -> RoleAnswer) returns (promoted: bool)
    ensures promoted == Confirmed(addr, role, 1)
  {
    var attempt := 1;
    while attempt <= PROMOTE_MAX_RETRIES
      invariant 1 <= attempt <= PROMOTE_MAX_RETRIES + 1
      invariant Confirmed(addr, role, attempt) == Confirmed(addr, role, 1)
    {
      if role(addr, attempt) == Some("master") { return true; }
      attempt := attempt + 1;
    }
    return false;
  }

  /** The winner of a ranking: the first promotable node. */
  function Winner(ranked: seq<Addr>, noOne: Addr -> bool, role: (Addr, nat) -> RoleAnswer): Option<Addr> {
    if ranked == [] then None
    else if Promotable(ranked[0], noOne, role) then Some(ranked[0])
    else Winner(ranked[1..], noOne, role)
  }

  lemma {:induction false} WinnerIsFirst(ranked: seq<Addr>, asked: seq<Addr>, winner: Option<Addr>,
                                         noOne: Addr -> bool, role: (Addr, nat) -> RoleAnswer)
    requires asked <= ranked
    requires winner.Some? ==> asked != [] && asked[|asked| - 1] == winner.value && Promotable(winner.value, noOne, role)
    requires forall i | 0 <= i < |asked| && (winner.Some? ==> i < |asked| - 1) :: !Promotable(asked[i], noOne, role)
    requires winner.None? ==> asked == ranked
    ensures winner == Winner(ranked, noOne, role)
    decreases |ranked|
  {
    hide Promotable;
    if ranked != [] {
      assert asked != [] ==> asked[0] == ranked[0];
      if |asked| > 1 || winner.None? {
        WinnerIsFirst(ranked[1..], asked[1..], winner, noOne, role);
      }
    }
  }

  lemma {:induction false} WinnerAt(ranked: seq<Addr>, noOne: Addr -> bool, role: (Addr, nat) -> RoleAnswer)
    returns (i: nat)
    ensures i <= |ranked| && (forall k | 0 <= k < i :: !Promotable(ranked[k], noOne, role))
    ensures Winner(ranked, noOne, role) == if i < |ranked| then Some(ranked[i]) else None
    ensures i < |ranked| ==> Promotable(ranked[i], noOne, role)
    decreases |ranked|
  {
    hide Promotable;
    if ranked == [] || Promotable(ranked[0], noOne, role) {
      i := 0;
    } else {
      var j := WinnerAt(ranked[1..], noOne, role);
      i := j + 1;
    }
  }

  lemma InRanking(candidates: seq<Addr>, info: Addr -> InfoAnswer, ranking: seq<Candidate>, x: Candidate)
    requires IsRanking(ranking, candidates, info)
    ensures x in ranking <==> x.addr in candidates && Answers(x, info)
  {
    hide Reachable, Sorted, Answers;
    ReachableCount(candidates, info, x);
    assert x in ranking <==> multiset(ranking)[x] > 0;
    assert x.addr in candidates <==> multiset(candidates)[x.addr] > 0;
  }

  /** Nobody wins only if no candidate that answered took over; otherwise the winner is a candidate that answered and
      took over, and every candidate that outranks it, by the texts they answered with, did not. */
  lemma BestReplicaWins(candidates: seq<Addr>, info: Addr -> InfoAnswer, noOne: Addr -> bool,
                        role: (Addr, nat) -> RoleAnswer)
    ensures match Winner(Ranked(candidates, info), noOne, role)
      case None => forall a | a in candidates && info(a).Some? :: !TookOver(a, noOne, role)
      case Some(b) =>
        && b in candidates && info(b).Some? && TookOver(b, noOne, role)
        && forall a | a in candidates && Outranks(a, b, info) :: !TookOver(a, noOne, role)
  {
    hide Ranked, Winner, Promotable, TookOver, Outranks;
    RankedRanks(candidates, info);
    var ranked := Ranked(candidates, info);
    var i := WinnerAt(ranked, noOne, role);
    if i < |ranked| {
      assert ranked[i] in multiset(ranked);
      assert multiset(candidates)[ranked[i]] > 0;
      PromotableIs(ranked[i], noOne, role);
    }
    forall a | a in candidates && info(a).Some? && (i < |ranked| ==> Outranks(a, ranked[i], info))
      ensures !TookOver(a, noOne, role)
    {
      assert multiset(ranked)[a] > 0;
      var j :| 0 <= j < |ranked| && ranked[j] == a;
      if i < j { assert false; }
      if i == j { Irreflexive(a, info); }
      PromotableIs(a, noOne, role);
    }
    forall a | i < |ranked| && Outranks(a, ranked[i], info)
      ensures info(a).Some?
    {
      BothAnswered(a, ranked[i], info);
    }
  }

  lemma BothAnswered(a: Addr, b: Addr, info: Addr -> InfoAnswer)
    requires Outranks(a, b, info)
    ensures info(a).Some? && info(b).Some?
  {
  }

  // ---- reconfiguration ----

  /** Send REPLICAOF host port to each sibling, best effort. `split` is `net.SplitHostPort`;
      an entry of `oks` is true where no error was recorded, `sent` are the nodes a command went to. */
  method Reconfigure(siblings: seq<Addr>, newMaster: Addr, split: Addr -> Option<(string, string)>,
                     follow: Addr -> bool)
    returns (oks: seq<bool>, sent: seq<Addr>)
    ensures |oks| == |siblings|
    ensures sent == if split(newMaster).Some? then siblings else []
    ensures forall i | 0 <= i < |siblings| :: oks[i] <==> split(newMaster).Some? && follow(siblings[i])
  {
    if split(newMaster).None? {
      return seq(|siblings|, _ => false), [];
    }
    oks, sent := [], [];
    var i := 0;
    while i < |siblings|
      invariant 0 <= i <= |siblings| && |oks| == i && sent == siblings[..i]
      invariant forall k | 0 <= k < i :: oks[k] <==> follow(siblings[k])
    {
      oks := oks + [follow(siblings[i])];
      sent := sent + [siblings[i]];
      i := i + 1;
    }
  }
}
