/** Byte strings and the C++ library conversions the server relies on.
    A byte is a `char`; no operation here or elsewhere looks at anything but its value. */
module Text {

  datatype Option<+T> = None | Some(value: T)

  const INT_MAX: int := 0x7FFF_FFFF
  const LLONG_MAX: int := 0x7FFF_FFFF_FFFF_FFFF

  predicate IsDigit(c: char) { '0' <= c <= '9' }

  /** `isspace` in the C locale. */
  predicate IsSpace(c: char) {
    c == ' ' || 9 <= c as int <= 13
  }

  function DigitOf(d: nat): char
    requires d < 10
  {
    (d + 48) as char
  }

  /** `std::to_string` of an unsigned value. */
  function Dec(n: nat): string {
    if n < 10 then [DigitOf(n)] else Dec(n / 10) + [DigitOf(n % 10)]
  }

  /** `std::to_string` of a signed value. */
  function ToString(n: int): string {
    if n < 0 then "-" + Dec(-n) else Dec(n)
  }

  ghost predicate AllDigits(s: string) { forall i | 0 <= i < |s| :: IsDigit(s[i]) }

  function SkipSpaces(s: string): string {
    if s != [] && IsSpace(s[0]) then SkipSpaces(s[1..]) else s
  }

  /** The longest prefix of `s` made of digits. */
  function Digits(s: string): (d: string)
    ensures AllDigits(d)
  {
    if s != [] && IsDigit(s[0]) then [s[0]] + Digits(s[1..]) else []
  }

  function Value(d: string): nat
    requires AllDigits(d)
  {
    if d == [] then 0 else 10 * Value(d[..|d| - 1]) + (d[|d| - 1] as int - 48)
  }

  /** `std::stoi` and `std::stoll`: leading blanks, one sign, digits, then anything.
      `None` stands for both exceptions (no digits; value outside the type). */
  function Parse(s: string, max: int): (r: Option<int>)
    ensures r.Some? ==> -max - 1 <= r.value <= max
  {
    var t := SkipSpaces(s);
    var negative := t != [] && t[0] == '-';
    var d := Digits(if t != [] && (t[0] == '-' || t[0] == '+') then t[1..] else t);
    var v: int := if negative then 0 - Value(d) else Value(d);
    if d == [] || v < -max - 1 || v > max then None else Some(v)
  }

  function Stoi(s: string): (r: Option<int>) { Parse(s, INT_MAX) }

  function Stoll(s: string): (r: Option<int>) { Parse(s, LLONG_MAX) }

  /** `::toupper` on every byte. */
  function ToUpper(s: string): (r: string)
    ensures |r| == |s|
  {
    seq(|s|, i requires 0 <= i < |s| =>
      if 'a' <= s[i] <= 'z' then (s[i] as int - 32) as char else s[i])
  }

  lemma DecIsDigits(n: nat)
    ensures AllDigits(Dec(n)) && |Dec(n)| > 0
  {
  }

  lemma {:induction false} ValueOfDec(n: nat)
    ensures AllDigits(Dec(n)) && Value(Dec(n)) == n
  {
    DecIsDigits(n);
    if n >= 10 {
      ValueOfDec(n / 10);
      assert Dec(n)[..|Dec(n)| - 1] == Dec(n / 10);
    }
  }

  lemma {:induction false} DigitsOfDigits(d: string)
    requires AllDigits(d)
    ensures Digits(d) == d
  {
    if d != [] { DigitsOfDigits(d[1..]); }
  }

  /** Printing a number and reading it back is the identity over the whole target type. */
  lemma ParseDec(n: nat, max: int)
    requires n <= max
    ensures Parse(Dec(n), max) == Some(n)
  {
    DecIsDigits(n);
    ValueOfDec(n);
    DigitsOfDigits(Dec(n));
    var c := Dec(n)[0];
    assert IsDigit(c) && !IsSpace(c) && c != '-' && c != '+';
  }

  // ---- which texts are numbers, and which words are the same ----

  ghost predicate AllSpaces(s: string) { forall i | 0 <= i < |s| :: IsSpace(s[i]) }

  /** `s` is: blanks, an optional sign, at least one digit, and then nothing or something that is no digit. */
  ghost predicate Layout(s: string, blanks: string, sign: string, d: string, rest: string) {
    && s == blanks + (sign + (d + rest)) && AllSpaces(blanks) && (sign == "" || sign == "+" || sign == "-")
    && d != "" && AllDigits(d) && (rest == "" || !IsDigit(rest[0]))
  }

  function WithSign(sign: string, n: nat): int { if sign == "-" then 0 - n else n }

  /** `s` spells the number `v`. */
  ghost predicate Spells(s: string, v: int) {
    exists blanks, sign, d, rest | Layout(s, blanks, sign, d, rest) :: v == WithSign(sign, Value(d))
  }

  lemma {:induction false} SkipThem(blanks: string, s: string)
    requires AllSpaces(blanks) && (s == "" || !IsSpace(s[0]))
    ensures SkipSpaces(blanks + s) == s
    decreases |blanks|
  {
    if blanks == "" {
      assert blanks + s == s;
    } else {
      assert (blanks + s)[1..] == blanks[1..] + s;
      SkipThem(blanks[1..], s);
    }
  }

  lemma {:induction false} TakeDigits(d: string, rest: string)
    requires AllDigits(d) && (rest == "" || !IsDigit(rest[0]))
    ensures Digits(d + rest) == d
    decreases |d|
  {
    if d == "" {
      assert d + rest == rest;
    } else {
      assert (d + rest)[1..] == d[1..] + rest;
      TakeDigits(d[1..], rest);
    }
  }

  lemma ParseLayout(s: string, max: int, blanks: string, sign: string, d: string, rest: string)
    requires Layout(s, blanks, sign, d, rest) && max >= 0
    ensures var v := WithSign(sign, Value(d));
      Parse(s, max) == if -max - 1 <= v <= max then Some(v) else None
  {
    var t := sign + (d + rest);
    assert t[0] == if sign == "" then d[0] else sign[0];
    SkipThem(blanks, t);
    TakeDigits(d, rest);
    if sign == "" { assert t == d + rest; } else { assert t[1..] == d + rest; }
  }

  /** `stoi` and `stoll` give the number that is spelled, if the type can hold it. */
  lemma ParseSpelled(s: string, v: int, max: int)
    requires Spells(s, v) && max >= 0
    ensures Parse(s, max) == if -max - 1 <= v <= max then Some(v) else None
  {
    hide Parse;
    var blanks, sign, d, rest :| Layout(s, blanks, sign, d, rest) && v == WithSign(sign, Value(d));
    ParseLayout(s, max, blanks, sign, d, rest);
  }

  lemma {:induction false} Blanks(s: string) returns (blanks: string)
    ensures AllSpaces(blanks) && s == blanks + SkipSpaces(s)
    decreases |s|
  {
    blanks := "";
    if s != "" && IsSpace(s[0]) {
      var more := Blanks(s[1..]);
      blanks := [s[0]] + more;
      assert s == [s[0]] + s[1..];
    }
  }

  lemma {:induction false} AfterDigits(s: string) returns (rest: string)
    ensures s == Digits(s) + rest && (rest == "" || !IsDigit(rest[0]))
    decreases |s|
  {
    rest := s;
    if s != "" && IsDigit(s[0]) {
      rest := AfterDigits(s[1..]);
      assert s == [s[0]] + s[1..];
    }
  }

  /** And nothing where no number is spelled. */
  lemma ParsedIsSpelled(s: string, max: int)
    requires Parse(s, max).Some?
    ensures Spells(s, Parse(s, max).value)
  {
    var blanks := Blanks(s);
    var t := SkipSpaces(s);
    var sign := if t != [] && (t[0] == '-' || t[0] == '+') then [t[0]] else "";
    var u := t[|sign|..];
    var rest := AfterDigits(u);
    assert t == sign + u;
    assert Layout(s, blanks, sign, Digits(u), rest);
  }

  lemma SpellsDec(n: nat)
    ensures Spells(Dec(n), n) && Spells("-" + Dec(n), 0 - n) && Spells("+" + Dec(n), n)
  {
    ValueOfDec(n);
    DecIsDigits(n);
    var d := Dec(n);
    assert Layout(d, "", "", d, "");
    assert Layout("-" + d, "", "-", d, "");
    assert Layout("+" + d, "", "+", d, "");
  }

  /** Leading zeros do not matter. */
  lemma {:induction false} ValueOfZero(d: string)
    requires AllDigits(d)
    ensures AllDigits("0" + d) && Value("0" + d) == Value(d)
    decreases |d|
  {
    var s := "0" + d;
    if d != "" {
      assert s[..|s| - 1] == "0" + d[..|d| - 1];
      ValueOfZero(d[..|d| - 1]);
    }
  }

  /** `word` is `name`, in any case; `name` is written in capitals. */
  ghost predicate Names(word: string, name: string) {
    |word| == |name| &&
    forall i | 0 <= i < |name| ::
      word[i] == name[i] || ('A' <= name[i] <= 'Z' && word[i] as int == name[i] as int + 32)
  }

  ghost predicate Capitals(name: string) { forall i | 0 <= i < |name| :: !('a' <= name[i] <= 'z') }

  /** `::toupper` makes the two the same, and no others. */
  lemma UpperNames(word: string, name: string)
    requires Capitals(name)
    ensures Names(word, name) <==> ToUpper(word) == name
  {
    if ToUpper(word) == name {
      forall i | 0 <= i < |name|
        ensures word[i] == name[i] || ('A' <= name[i] <= 'Z' && word[i] as int == name[i] as int + 32)
      {
        assert ToUpper(word)[i] == name[i];
      }
    }
  }
}
