/** The string primitives the validator relies on: decimal rendering of
    numbers (JavaScript's `"" + n` for a non-negative integer), splitting a
    message into lines (`String.prototype.split("\n")`) and substring
    containment, each with the property that makes it trustworthy. */
module Strings {

  predicate IsDigit(c: char) {
    '0' <= c <= '9'
  }

  predicate AllDigits(s: string) {
    forall i :: 0 <= i < |s| ==> IsDigit(s[i])
  }

  function DigitChar(d: nat): (c: char)
    requires d < 10
    ensures IsDigit(c)
  {
    ('0' as int + d) as char
  }

  function DigitValue(c: char): (d: nat)
    requires IsDigit(c)
    ensures d < 10 && DigitChar(d) == c
  {
    c as int - '0' as int
  }

  // ---------------------------------------------------------------------
  // Decimal numerals
  // ---------------------------------------------------------------------

  /** The decimal numeral of `n`, most significant digit first, without
      leading zeros. */
  function DecimalString(n: nat): (s: string)
    ensures 0 < |s| && AllDigits(s)
    ensures |s| > 1 ==> s[0] != '0'
  {
    if n < 10 then [DigitChar(n)]
    else DecimalString(n / 10) + [DigitChar(n % 10)]
  }

  /** The number a string of digits denotes. */
  function DecimalValue(s: string): nat
    requires AllDigits(s)
  {
    if s == [] then 0
    else 10 * DecimalValue(s[..|s| - 1]) + DigitValue(s[|s| - 1])
  }

  /** Reading a rendered number back gives the number. */
  lemma {:induction false} DecimalRoundTrip(n: nat)
    ensures DecimalValue(DecimalString(n)) == n
  {
    if n >= 10 {
      var s := DecimalString(n / 10);
      var t := s + [DigitChar(n % 10)];
      assert t[..|t| - 1] == s;
      DecimalRoundTrip(n / 10);
    }
  }

  /** Rendering is injective. */
  lemma DecimalStringInjective(a: nat, b: nat)
    requires DecimalString(a) == DecimalString(b)
    ensures a == b
  {
    DecimalRoundTrip(a);
    DecimalRoundTrip(b);
  }

  /** The length of the run of digits at the start of `s`. */
  function DigitRun(s: string): (k: nat)
    ensures k <= |s|
    ensures forall i :: 0 <= i < k ==> IsDigit(s[i])
    ensures k < |s| ==> !IsDigit(s[k])
  {
    if s != [] && IsDigit(s[0]) then 1 + DigitRun(s[1..]) else 0
  }

  /** True when `s` is empty or does not start with a digit, so that a
      numeral placed in front of it ends where `s` begins. */
  predicate NoLeadingDigit(s: string) {
    s == [] || !IsDigit(s[0])
  }

  lemma {:induction false} DigitRunOfNumeral(d: string, rest: string)
    requires AllDigits(d) && NoLeadingDigit(rest)
    ensures DigitRun(d + rest) == |d|
  {
    if d != [] {
      assert (d + rest)[1..] == d[1..] + rest;
      DigitRunOfNumeral(d[1..], rest);
    }
  }

  /** A decimal numeral followed by a non-digit can be read back off the
      front of a string: the numeral and what follows it are determined. */
  lemma NumeralPrefixDetermines(a: nat, x: string, b: nat, y: string)
    requires NoLeadingDigit(x) && NoLeadingDigit(y)
    requires DecimalString(a) + x == DecimalString(b) + y
    ensures a == b && x == y
  {
    var da, db := DecimalString(a), DecimalString(b);
    DigitRunOfNumeral(da, x);
    DigitRunOfNumeral(db, y);
    assert |da| == |db|;
    assert da == (da + x)[..|da|] == (db + y)[..|db|] == db;
    DecimalStringInjective(a, b);
    assert x == (da + x)[|da|..] == (db + y)[|db|..] == y;
  }

  /** Equal strings with a common prefix agree after it. */
  lemma AfterCommonPrefix(p: string, x: string, y: string)
    requires p + x == p + y
    ensures x == y
  {
    assert x == (p + x)[|p|..];
    assert y == (p + y)[|p|..];
  }

  lemma Reassociate(p: string, a: string, q: string, b: string, r: string)
    ensures p + a + q + b + r == p + (a + (q + (b + r)))
  {
  }

  /** Two numerals after a common prefix `p`, separated by a non-empty `q`
      and followed by `r`, are determined by the whole text. */
  lemma TwoNumeralsDetermine(p: string, a: nat, q: string, b: nat, r: string, a': nat, b': nat)
    requires q != [] && !IsDigit(q[0]) && NoLeadingDigit(r)
    requires p + DecimalString(a) + q + DecimalString(b) + r == p + DecimalString(a') + q + DecimalString(b') + r
    ensures a == a' && b == b'
  {
    var da, db, da', db' := DecimalString(a), DecimalString(b), DecimalString(a'), DecimalString(b');
    Reassociate(p, da, q, db, r);
    Reassociate(p, da', q, db', r);
    var x, x' := q + (db + r), q + (db' + r);
    AfterCommonPrefix(p, da + x, da' + x');
    assert x[0] == q[0] && x'[0] == q[0];
    NumeralPrefixDetermines(a, x, a', x');
    AfterCommonPrefix(q, db + r, db' + r);
    NumeralPrefixDetermines(b, r, b', r);
  }

  // ---------------------------------------------------------------------
  // Lines
  // ---------------------------------------------------------------------

  /** `s.split("\n")`: the pieces of `s` between newline characters. There
      is always at least one piece, and no piece holds a newline. */
  function SplitLines(s: string): (lines: seq<string>)
    ensures |lines| > 0
    ensures forall i :: 0 <= i < |lines| ==> '\n' !in lines[i]
  {
    if s == [] then [""]
    else
      var rest := SplitLines(s[1..]);
      if s[0] == '\n' then [""] + rest
      else [[s[0]] + rest[0]] + rest[1..]
  }

  /** The inverse of `SplitLines`: the lines glued back with newlines. */
  function JoinLines(lines: seq<string>): string
    requires |lines| > 0
  {
    if |lines| == 1 then lines[0] else lines[0] + "\n" + JoinLines(lines[1..])
  }

  lemma {:induction false} JoinLinesExtendFirst(c: char, lines: seq<string>)
    requires |lines| > 0
    ensures JoinLines([[c] + lines[0]] + lines[1..]) == [c] + JoinLines(lines)
  {
    var m := [[c] + lines[0]] + lines[1..];
    assert m[1..] == lines[1..];
  }

  /** Splitting loses nothing: joining the lines restores the message. */
  lemma {:induction false} JoinSplit(s: string)
    ensures JoinLines(SplitLines(s)) == s
  {
    if s != [] {
      var rest := SplitLines(s[1..]);
      JoinSplit(s[1..]);
      if s[0] == '\n' {
        assert ([""] + rest)[1..] == rest;
      } else {
        JoinLinesExtendFirst(s[0], rest);
      }
    }
  }

  lemma {:induction false} SplitLinesPrefix(a: string, t: string)
    requires '\n' !in a
    ensures SplitLines(a + t) == [a + SplitLines(t)[0]] + SplitLines(t)[1..]
  {
    var lt := SplitLines(t);
    if a == [] {
      assert a + t == t && a + lt[0] == lt[0];
      assert lt == [lt[0]] + lt[1..];
    } else {
      assert (a + t)[1..] == a[1..] + t;
      SplitLinesPrefix(a[1..], t);
      var rest := SplitLines(a[1..] + t);
      assert rest[0] == a[1..] + lt[0] && rest[1..] == lt[1..];
      assert a[0] != '\n';
      assert SplitLines(a + t) == [[a[0]] + rest[0]] + rest[1..];
      assert [a[0]] + (a[1..] + lt[0]) == a + lt[0];
    }
  }

  /** Splitting is the inverse of joining lines that hold no newline. */
  lemma {:induction false} SplitJoin(lines: seq<string>)
    requires |lines| > 0
    requires forall i :: 0 <= i < |lines| ==> '\n' !in lines[i]
    ensures SplitLines(JoinLines(lines)) == lines
  {
    if |lines| == 1 {
      SplitLinesPrefix(lines[0], "");
      assert lines[0] + "" == lines[0];
      assert SplitLines("") == [""];
      assert SplitLines(lines[0]) == [lines[0] + ""] + [];
    } else {
      var tail := JoinLines(lines[1..]);
      SplitJoin(lines[1..]);
      assert lines[0] + "\n" + tail == lines[0] + ("\n" + tail);
      SplitLinesPrefix(lines[0], "\n" + tail);
      assert ("\n" + tail)[1..] == tail;
      var lt := SplitLines("\n" + tail);
      assert lt == [""] + lines[1..];
      assert lt[0] == "" && lt[1..] == lines[1..];
      assert lines[0] + lt[0] == lines[0];
      assert lines == [lines[0]] + lines[1..];
    }
  }

  /** A message without newline characters is a single line. */
  lemma SingleLine(s: string)
    requires '\n' !in s
    ensures SplitLines(s) == [s]
  {
    SplitJoin([s]);
  }

  /** The first line is the text before the first newline, or the whole
      message when there is none. */
  lemma FirstLineIsPrefix(s: string)
    ensures SplitLines(s)[0] <= s
    ensures |SplitLines(s)[0]| < |s| ==> s[|SplitLines(s)[0]|] == '\n'
  {
    var lines := SplitLines(s);
    JoinSplit(s);
    if |lines| > 1 {
      assert s == lines[0] + ("\n" + JoinLines(lines[1..]));
    }
  }

  // ---------------------------------------------------------------------
  // Containment
  // ---------------------------------------------------------------------

  /** `part` occurs somewhere in `whole`. */
  ghost predicate Contains(whole: string, part: string) {
    exists i :: OccursAt(whole, part, i)
  }

  /** `part` occurs in `whole` starting at index `i`. */
  predicate OccursAt(whole: string, part: string, i: int) {
    0 <= i <= |whole| - |part| && whole[i..i + |part|] == part
  }

  lemma ContainsMiddle(before: string, part: string, after: string)
    ensures Contains(before + part + after, part)
  {
    var w := before + part + after;
    assert w[|before|..|before| + |part|] == part;
    assert OccursAt(w, part, |before|);
  }

  /** `x`, `y` and `z` all occur in `a + x + b + y + c + d + z`. */
  lemma ContainsThree(a: string, x: string, b: string, y: string, c: string, d: string, z: string)
    ensures var w := a + x + b + y + c + d + z;
      Contains(w, x) && Contains(w, y) && Contains(w, z)
  {
    var w := a + x + b + y + c + d + z;
    ContainsBoth(a, x, b, y, c + d + z);
    assert w == a + x + b + y + (c + d + z);
    ContainsMiddle(a + x + b + y + c + d, z, "");
    assert w == a + x + b + y + c + d + z + "";
  }

  /** Both `x` and `y` occur in `a + x + b + y + c`. */
  lemma ContainsBoth(a: string, x: string, b: string, y: string, c: string)
    ensures Contains(a + x + b + y + c, x) && Contains(a + x + b + y + c, y)
  {
    var w := a + x + b + y + c;
    assert w == a + x + (b + y + c);
    ContainsMiddle(a, x, b + y + c);
    assert w == (a + x + b) + y + c;
    ContainsMiddle(a + x + b, y, c);
  }
}
