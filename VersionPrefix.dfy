/** The fixed pattern `/^v?\d+\.\d+\.\d+/` that exempts version-bump
    commits ("1.2.3", "v4.5.6 release") from the length checks, written as
    a recogniser and proved equal to a reference description of the
    strings it accepts. */
module VersionPrefix {
  import opened Strings

  /** `\d+\.\d+\.\d+` matches at the start of `t`. A greedy run of digits
      is never followed by a digit, so no backtracking is needed. */
  predicate ThreeNumbers(t: string) {
    var a := DigitRun(t);
    0 < a < |t| && t[a] == '.' &&
    var u := t[a + 1..];
    var b := DigitRun(u);
    0 < b < |u| && u[b] == '.' &&
    DigitRun(u[b + 1..]) > 0
  }

  /** `/^v?\d+\.\d+\.\d+/.test(s)`. When `s` starts with `v`, leaving the
      optional `v` unmatched would make `\d+` face a `v`, so only the
      alternative that consumes it can succeed. An accepted string is at
      least five characters long ("1.2.3") and starts with `v` or a digit. */
  predicate StartsWithVersion(s: string)
    ensures StartsWithVersion(s) ==> |s| >= 5 && (s[0] == 'v' || IsDigit(s[0]))
  {
    if |s| > 0 && s[0] == 'v' then ThreeNumbers(s[1..]) else ThreeNumbers(s)
  }

  // ---------------------------------------------------------------------
  // Reference description: an optional "v" and three numerals joined by
  // dots, followed by anything.
  // ---------------------------------------------------------------------

  datatype VersionParts = VersionParts(prefixV: bool, major: string, minor: string, patch: string)

  predicate IsNumeral(d: string) {
    |d| > 0 && AllDigits(d)
  }

  predicate WellFormed(p: VersionParts) {
    IsNumeral(p.major) && IsNumeral(p.minor) && IsNumeral(p.patch)
  }

  /** "1.2.3": the three numerals joined by dots. */
  function Numbers(p: VersionParts): string {
    p.major + ("." + (p.minor + ("." + p.patch)))
  }

  /** The text a version token such as "v1.2.3" consists of. */
  function VersionToken(p: VersionParts): string {
    (if p.prefixV then "v" else "") + Numbers(p)
  }

  /** A numeral, a dot, then `rest`: the digit run stops at the dot. */
  lemma NumeralThenDot(d: string, rest: string)
    requires IsNumeral(d)
    ensures var t := d + ("." + rest);
      DigitRun(t) == |d| && 0 < |d| < |t| && t[|d|] == '.' && t[|d| + 1..] == rest
  {
    var t := d + ("." + rest);
    DigitRunOfNumeral(d, "." + rest);
    assert t[|d| + 1..] == rest;
  }

  lemma ThreeNumbersOf(p: VersionParts, rest: string)
    requires WellFormed(p)
    ensures ThreeNumbers(Numbers(p) + rest)
  {
    var w := p.patch + rest;
    var u := p.minor + ("." + w);
    var t := p.major + ("." + u);
    assert Numbers(p) + rest == t;
    NumeralThenDot(p.major, u);
    NumeralThenDot(p.minor, w);
    assert IsDigit(w[0]);
  }

  /** Every well-formed version token, whatever follows it, is recognised. */
  lemma VersionTokenRecognised(p: VersionParts, rest: string)
    requires WellFormed(p)
    ensures StartsWithVersion(VersionToken(p) + rest)
  {
    var t := Numbers(p) + rest;
    ThreeNumbersOf(p, rest);
    assert t[0] == p.major[0] && IsDigit(t[0]);
    if p.prefixV {
      assert VersionToken(p) + rest == "v" + t;
      assert ("v" + t)[1..] == t;
    } else {
      assert VersionToken(p) + rest == t;
    }
  }

  /** Cutting `t` around the dot at index `a`. */
  lemma CutAtDot(t: string, a: nat)
    requires a < |t| && t[a] == '.'
    ensures t == t[..a] + ("." + t[a + 1..])
  {
    assert t == t[..a] + t[a..];
    assert t[a..] == "." + t[a + 1..];
  }

  /** The three numerals at the start of a string that `ThreeNumbers`
      accepts. */
  function NumbersOf(t: string): (p: VersionParts)
    requires ThreeNumbers(t)
    ensures WellFormed(p) && !p.prefixV && Numbers(p) <= t
  {
    var a := DigitRun(t);
    var u := t[a + 1..];
    var b := DigitRun(u);
    var w := u[b + 1..];
    var c := DigitRun(w);
    CutAtDot(t, a);
    CutAtDot(u, b);
    assert w == w[..c] + w[c..];
    var p := VersionParts(false, t[..a], u[..b], w[..c]);
    Assemble(p, t, u, w, w[c..]);
    p
  }

  lemma Assemble(p: VersionParts, t: string, u: string, w: string, rest: string)
    requires t == p.major + ("." + u) && u == p.minor + ("." + w) && w == p.patch + rest
    ensures Numbers(p) <= t
  {
    assert t == Numbers(p) + rest;
  }

  /** The version token a recognised string starts with. */
  function VersionOf(s: string): (p: VersionParts)
    requires StartsWithVersion(s)
    ensures WellFormed(p) && VersionToken(p) <= s
  {
    if |s| > 0 && s[0] == 'v' then
      var q := NumbersOf(s[1..]);
      var p := q.(prefixV := true);
      assert Numbers(p) == Numbers(q);
      assert s == "v" + s[1..];
      p
    else
      NumbersOf(s)
  }

  /** The recogniser accepts exactly the strings that start with a
      well-formed version token. */
  lemma StartsWithVersionExactly(s: string)
    ensures StartsWithVersion(s) <==> exists p :: WellFormed(p) && VersionToken(p) <= s
  {
    if StartsWithVersion(s) {
      var p := VersionOf(s);
      assert WellFormed(p) && VersionToken(p) <= s;
    }
    if p :| WellFormed(p) && VersionToken(p) <= s {
      var tok := VersionToken(p);
      assert s == tok + s[|tok|..];
      VersionTokenRecognised(p, s[|tok|..]);
    }
  }
}
