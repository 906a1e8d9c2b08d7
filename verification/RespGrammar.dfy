/** The requests the parser accepts, as a grammar: nothing else is, and every one is. */
module RespGrammar {
  import opened Text
  import opened Resp

  ghost predicate NoCR(s: string) { forall i | 0 <= i < |s| :: s[i] != '\r' }

  /** A tag, a word that spells `n`, a carriage return and one more byte. */
  ghost predicate IsHeader(x: string, tag: char, n: int) {
    n <= 0x7FFF_FFFF && exists word, last | HeaderWord(x, tag, word, last) :: Spells(word, n)
  }

  ghost predicate HeaderWord(x: string, tag: char, word: string, last: char) {
    x == [tag] + (word + ['\r', last]) && NoCR(word)
  }

  /** A header with the length of the text, the text, and two more bytes. */
  ghost predicate IsBulk(x: string, arg: string) {
    exists h, end | BulkParts(x, h, arg, end) :: IsHeader(h, '$', |arg|)
  }

  ghost predicate BulkParts(x: string, h: string, arg: string, end: string) { x == h + (arg + end) && |end| == 2 }

  ghost predicate AreBulks(x: string, args: Command)
    decreases |args|
  {
    if args == [] then x == ""
    else exists y, z | x == y + z :: IsBulk(y, args[0]) && AreBulks(z, args[1..])
  }

  /** A request: a header with the number of words, and that many texts. */
  ghost predicate IsRequest(x: string, args: Command) {
    exists h, y | x == h + y :: IsHeader(h, '*', |args|) && AreBulks(y, args)
  }

  lemma Inner(b: string, pos: nat, x: string, i: nat, j: nat)
    requires pos + |x| <= |b| && b[pos..pos + |x|] == x && i <= j <= |x|
    ensures b[pos + i..pos + j] == x[i..j]
  {
    var y, z := b[pos + i..pos + j], x[i..j];
    forall k | 0 <= k < |z|
      ensures y[k] == z[k]
    {
      assert x[i + k] == b[pos..pos + |x|][i + k];
    }
  }

  // ---- headers ----

  lemma CRWhere(b: string, pos: nat)
    requires pos <= |b|
    ensures var cr := FindCR(b, pos); NoCR(b[pos..cr]) && (cr < |b| ==> b[cr] == '\r')
    decreases |b| - pos
  {
    if pos < |b| && b[pos] != '\r' {
      CRWhere(b, pos + 1);
      var cr := FindCR(b, pos + 1);
      assert b[pos..cr] == [b[pos]] + b[pos + 1..cr];
    }
  }

  lemma HeaderSound(b: string, pos: nat, tag: char)
    requires pos <= |b| && Header(b, pos, tag).Got?
    ensures var r := Header(b, pos, tag); IsHeader(b[pos..r.next], tag, r.value)
  {
    hide Text.Parse, Spells;
    var cr := FindCR(b, pos + 1);
    CRWhere(b, pos + 1);
    var word := b[pos + 1..cr];
    ParsedIsSpelled(word, INT_MAX);
    var x := b[pos..cr + 2];
    assert x == [tag] + (word + ['\r', b[cr + 1]]);
    assert HeaderWord(x, tag, word, b[cr + 1]);
  }

  lemma {:induction false} CRAt(b: string, pos: nat, word: string)
    requires NoCR(word) && pos + |word| < |b| && b[pos..pos + |word|] == word && b[pos + |word|] == '\r'
    ensures FindCR(b, pos) == pos + |word|
    decreases |word|
  {
    if word != "" {
      assert b[pos] == word[0];
      assert b[pos + 1..pos + 1 + |word[1..]|] == word[1..];
      CRAt(b, pos + 1, word[1..]);
    }
  }

  lemma HeaderComplete(b: string, pos: nat, tag: char, x: string, n: nat)
    requires pos + |x| <= |b| && b[pos..pos + |x|] == x && IsHeader(x, tag, n)
    ensures Header(b, pos, tag) == Got(n, pos + |x|)
  {
    hide Text.Parse, Spells;
    var word, last :| HeaderWord(x, tag, word, last) && Spells(word, n);
    var k := |word|;
    assert x[0] == tag && x[1..k + 1] == word && x[k + 1] == '\r' && |x| == k + 3;
    assert b[pos] == x[0] && b[pos + k + 1] == x[k + 1];
    Inner(b, pos, x, 1, k + 1);
    CRAt(b, pos + 1, word);
    ParseSpelled(word, n, INT_MAX);
  }

  // ---- texts ----

  lemma BulkSound(b: string, pos: nat)
    requires pos <= |b| && Bulk(b, pos).Got?
    ensures var r := Bulk(b, pos); IsBulk(b[pos..r.next], r.value)
  {
    hide Header, IsHeader;
    var h := Header(b, pos, '$');
    HeaderSound(b, pos, '$');
    var r := Bulk(b, pos);
    var x, head, end := b[pos..r.next], b[pos..h.next], b[r.next - 2..r.next];
    assert x == head + (r.value + end);
    assert BulkParts(x, head, r.value, end);
  }

  lemma BulkComplete(b: string, pos: nat, x: string, arg: string)
    requires pos + |x| <= |b| && b[pos..pos + |x|] == x && IsBulk(x, arg)
    ensures Bulk(b, pos) == Got(arg, pos + |x|)
  {
    hide Header, IsHeader;
    var h, end :| BulkParts(x, h, arg, end) && IsHeader(h, '$', |arg|);
    Inner(b, pos, x, 0, |h|);
    assert x[..|h|] == h;
    HeaderComplete(b, pos, '$', h, |arg|);
    var p := pos + |h|;
    Inner(b, pos, x, |h|, |h| + |arg|);
    assert x[|h|..|h| + |arg|] == arg;
  }

  lemma {:induction false} BulksSound(b: string, pos: nat, count: nat)
    requires pos <= |b| && Bulks(b, pos, count).Got?
    ensures var r := Bulks(b, pos, count); AreBulks(b[pos..r.next], r.value)
    decreases count
  {
    hide Bulk, IsBulk;
    if count > 0 {
      var one := Bulk(b, pos);
      BulkSound(b, pos);
      BulksSound(b, one.next, count - 1);
      var r, rest := Bulks(b, pos, count), Bulks(b, one.next, count - 1);
      assert r.value == [one.value] + rest.value && r.value[1..] == rest.value;
      assert b[pos..r.next] == b[pos..one.next] + b[one.next..rest.next];
    }
  }

  lemma BulksStep(b: string, pos: nat, arg: string, p: nat, args: Command, end: nat)
    requires pos <= |b| && Bulk(b, pos) == Got(arg, p) && Bulks(b, p, |args|) == Got(args, end)
    ensures Bulks(b, pos, |args| + 1) == Got([arg] + args, end)
  {
    hide Bulk;
  }

  lemma {:induction false} BulksComplete(b: string, pos: nat, x: string, args: Command)
    requires pos + |x| <= |b| && b[pos..pos + |x|] == x && AreBulks(x, args)
    ensures Bulks(b, pos, |args|) == Got(args, pos + |x|)
    decreases |args|
  {
    hide Bulk, IsBulk;
    if args != [] {
      hide Bulks;
      var y, z :| x == y + z && IsBulk(y, args[0]) && AreBulks(z, args[1..]);
      assert x[..|y|] == y && x[|y|..|x|] == z;
      Inner(b, pos, x, 0, |y|);
      Inner(b, pos, x, |y|, |x|);
      BulkComplete(b, pos, y, args[0]);
      var p := pos + |y|;
      BulksComplete(b, p, z, args[1..]);
      BulksStep(b, pos, args[0], p, args[1..], pos + |x|);
      assert args == [args[0]] + args[1..];
    }
  }

  // ---- requests ----

  /** What the parser takes off is a request. */
  lemma ParsedIsRequest(b: string)
    requires Parsed(b).consumed > 0
    ensures IsRequest(b[..Parsed(b).consumed], Parsed(b).args)
  {
    hide Header, Bulks, IsHeader, AreBulks;
    var r, h := Parsed(b), Header(b, 0, '*');
    HeaderSound(b, 0, '*');
    BulksSound(b, h.next, h.value);
    assert b[..r.consumed] == b[0..h.next] + b[h.next..r.consumed];
  }

  /** And every request, followed by anything, is taken off as it is. */
  lemma RequestParsed(b: string, x: string, args: Command)
    requires x <= b && IsRequest(x, args)
    ensures Parsed(b) == ParseResult(args, |x|)
  {
    hide Header, Bulks, IsHeader, AreBulks;
    var h, y :| x == h + y && IsHeader(h, '*', |args|) && AreBulks(y, args);
    assert b[0..0 + |h|] == x[..|h|] == h;
    HeaderComplete(b, 0, '*', h, |args|);
    assert b[|h|..|h| + |y|] == x[|h|..] == y;
    BulksComplete(b, |h|, y, args);
  }

  /** So nothing that does not begin with an asterisk is ever parsed. */
  lemma OnlyArrays(b: string)
    requires b != "" && b[0] != '*'
    ensures Parsed(b).consumed == 0
  {
  }
}
