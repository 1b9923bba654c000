/** The commit-message validation engine of lib/check-commit-message.js:
    configuration normalisation, the three checks (length bounds, longest
    line, regular-expression rules) and `performChecks`, which runs them all
    and gathers their errors into one report.

    Every check appends to a caller-supplied error list (`ErrorList`, the
    JavaScript array) and returns whether it passed. Each check method is
    proved against a pure function that says which error, if any, the check
    produces; `PerformChecks` is proved against `Report`, and the properties
    of the validator are lemmas about those functions. */
module CheckCommitMessage {
  import opened Wrappers
  import opened Strings
  import opened VersionPrefix

  // =====================================================================
  // Regular-expression rules
  // =====================================================================

  /** A user-supplied regular expression, known by its source text and
      flags. Whether it matches a message is not modelled: the checks take
      a `Matcher` that stands for `RegExp.prototype.test`. */
  datatype Regex = Regex(source: string, flags: string)

  type Matcher = (Regex, string) -> bool

  /** `regex.toString()`: the literal form `/source/flags`. */
  function RegexText(r: Regex): (t: string)
    ensures |t| == |r.source| + |r.flags| + 2
    ensures t[0] == '/' && t[1..|r.source| + 1] == r.source
    ensures t[|r.source| + 1] == '/' && t[|r.source| + 2..] == r.flags
  {
    "/" + r.source + "/" + r.flags
  }

  /** A rule is either a bare RegExp or an object `{regex, explanation}`
      whose explanation may be missing. */
  datatype RegexRule =
    | Bare(regex: Regex)
    | Explained(regex: Regex, explanation: Option<string>)

  /** `regexObj.explanation || ""`: a bare RegExp carries no explanation. */
  function ExplanationOf(rule: RegexRule): (e: string)
    ensures rule.Explained? && rule.explanation.Some? ==> e == rule.explanation.value
    ensures e != "" ==> rule.Explained? && rule.explanation == Some(e)
  {
    match rule
    case Bare(_) => ""
    case Explained(_, e) => GetOr(e, "")
  }

  /** One entry of `cfg.regexes`, in the order `for…in` visits it. */
  datatype NamedRule = NamedRule(name: string, rule: RegexRule)

  predicate Fails(msg: string, nr: NamedRule, matches: Matcher) {
    !matches(nr.rule.regex, msg)
  }

  // =====================================================================
  // Error texts
  // =====================================================================

  const MisconfigurationError := "Misconfiguration: minlen > maxlen! Check your settings!"
  const FirstLineLabel := "The first line of commit message"
  const MessageLabel := "The commit message"

  /** "<subject> is too short, should be at least <bound> chars but it is
      <len>", or the same with "long" and "most". */
  function LengthErrorText(subject: string, tooShort: bool, bound: nat, len: nat): (t: string)
    ensures subject <= t
    ensures |t| > |subject| + |DecimalString(len)|
    ensures t[|t| - |DecimalString(len)|..] == DecimalString(len)
  {
    var p1 := if tooShort then "short" else "long";
    var p2 := (if tooShort then "least " else "most ") + DecimalString(bound);
    subject + " is too " + p1 + ", should be at " + p2 + " chars but it is " + DecimalString(len)
  }

  const LineLengthHead := "The commit message has some very long lines. The longest line has "
  const LineLengthMiddle := " chars while max. "
  const LineLengthAllowed := " are allowed."
  const LineLengthAdvice := "\nSplit your message with newlines."
  const LineLengthTail := LineLengthAllowed + LineLengthAdvice

  function LineLengthErrorText(longest: nat, limit: nat): (t: string)
    ensures LineLengthHead <= t
    ensures |t| > |LineLengthHead| + |LineLengthTail|
    ensures t[|t| - |LineLengthTail|..] == LineLengthTail
  {
    LineLengthHead + DecimalString(longest) + LineLengthMiddle + DecimalString(limit) + LineLengthTail
  }

  function RegexErrorText(name: string, explanation: string, regex: Regex): (t: string)
    ensures "The regex '" + name <= t
  {
    "The regex '" + name + "' failed on the commit message.\n" + explanation + "\n"
    + "Failed regex: " + RegexText(regex)
  }

  /** The error text for a failing rule. */
  function RuleError(nr: NamedRule): (t: string)
    ensures "The regex '" + nr.name <= t
  {
    RegexErrorText(nr.name, ExplanationOf(nr.rule), nr.rule.regex)
  }

  /** The list of errors a check appends: none or one. */
  function Emitted(finding: Option<string>): seq<string> {
    match finding
    case None => []
    case Some(e) => [e]
  }

  // =====================================================================
  // The error list the checks append to
  // =====================================================================

  /** The JavaScript array `errors` that every check pushes onto. */
  class ErrorList {
    var items: seq<string>

    constructor ()
      ensures items == []
    {
      items := [];
    }

    method Push(e: string)
      modifies this
      ensures items == old(items) + [e]
    {
      items := items + [e];
    }
  }

  // =====================================================================
  // checkLength
  // =====================================================================

  /** `{min, max}`; a bound that is not positive is no bound. */
  datatype Bounds = Bounds(min: int, max: int)

  predicate Inverted(b: Bounds) {
    b.max > 0 && b.min > 0 && b.min > b.max
  }

  /** The declarative reading of the bounds. */
  predicate WithinBounds(len: nat, b: Bounds) {
    (b.min <= 0 || len >= b.min) && (b.max <= 0 || len <= b.max)
  }

  /** What `checkLength` decides about a string. */
  datatype LengthOutcome =
    | Misconfigured
    | VersionExempt
    | TooShort(min: nat)
    | TooLong(max: nat)
    | Fits

  /** The decision of `checkLength`: the misconfiguration guard first, then
      the version exemption, then "too short" ahead of "too long". */
  function LengthVerdict(str: string, b: Bounds): (v: LengthOutcome)
    ensures v == Misconfigured <==> Inverted(b)
    ensures v == VersionExempt <==> !Inverted(b) && StartsWithVersion(str)
    ensures v.TooShort? <==> !Inverted(b) && !StartsWithVersion(str) && b.min > 0 && |str| < b.min
    ensures v.TooLong? <==>
      !Inverted(b) && !StartsWithVersion(str) && !(b.min > 0 && |str| < b.min) && b.max > 0 && |str| > b.max
    ensures v.TooShort? ==> v.min == b.min
    ensures v.TooLong? ==> v.max == b.max
    ensures v == Fits <==> !Inverted(b) && !StartsWithVersion(str) && WithinBounds(|str|, b)
  {
    if Inverted(b) then Misconfigured
    else if StartsWithVersion(str) then VersionExempt
    else
      var tooShort := b.min > 0 && |str| < b.min;
      var tooLong := !tooShort && b.max > 0 && |str| > b.max;
      if tooShort then TooShort(b.min)
      else if tooLong then TooLong(b.max)
      else Fits
  }

  predicate Passes(v: LengthOutcome) {
    v == VersionExempt || v == Fits
  }

  /** The error `checkLength` pushes for a verdict: the fixed
      misconfiguration text, or one "too short"/"too long" text. */
  function LengthMessage(v: LengthOutcome, subject: string, len: nat): (r: Option<string>)
    ensures r.None? <==> Passes(v)
  {
    match v
    case Misconfigured => Some(MisconfigurationError)
    case VersionExempt => None
    case TooShort(min) => Some(LengthErrorText(subject, true, min, len))
    case TooLong(max) => Some(LengthErrorText(subject, false, max, len))
    case Fits => None
  }

  /** The error `checkLength` pushes, if any: none exactly for consistent
      bounds and a string that is a version or within them. */
  function LengthFinding(str: string, b: Bounds, subject: string): (r: Option<string>)
    ensures r.None? <==> !Inverted(b) && (StartsWithVersion(str) || WithinBounds(|str|, b))
    ensures Inverted(b) ==> r == Some(MisconfigurationError)
  {
    LengthMessage(LengthVerdict(str, b), subject, |str|)
  }

  method CheckLength(str: string, bounds: Bounds, errorMsgStart: string, errors: ErrorList)
    returns (ok: bool)
    modifies errors
    ensures errors.items == old(errors.items) + Emitted(LengthFinding(str, bounds, errorMsgStart))
    ensures ok <==> Passes(LengthVerdict(str, bounds))
    ensures ok <==> errors.items == old(errors.items)
  {
    var minLen := bounds.min;
    var maxLen := bounds.max;
    if maxLen > 0 && minLen > 0 && minLen > maxLen {
      errors.Push(MisconfigurationError);
      return false;
    }
    if StartsWithVersion(str) {
      return true;
    }
    var strlen := |str|;
    var tooShort := minLen > 0 && strlen < minLen;
    var tooLong := !tooShort && (maxLen > 0 && strlen > maxLen);
    if tooShort || tooLong {
      var bound: nat := if tooShort then minLen else maxLen;
      errors.Push(LengthErrorText(errorMsgStart, tooShort, bound, strlen));
      return false;
    }
    return true;
  }

  // =====================================================================
  // checkMaxLineLength
  // =====================================================================

  /** The length of the longest line (0 for no lines). */
  function MaxLength(lines: seq<string>): (m: nat)
    ensures forall i :: 0 <= i < |lines| ==> |lines[i]| <= m
    ensures |lines| > 0 ==> exists i :: 0 <= i < |lines| && |lines[i]| == m
    ensures |lines| == 0 ==> m == 0
  {
    if lines == [] then 0
    else
      var m := MaxLength(lines[..|lines| - 1]);
      var last := |lines[|lines| - 1]|;
      if m > last then m else last
  }

  /** The error `checkMaxLineLength` pushes: only the longest line is
      reported, however many lines exceed the limit. */
  function LineLengthFinding(lines: seq<string>, limit: int): (r: Option<string>)
    ensures limit <= 0 ==> r.None?
    ensures limit > 0 ==> (r.Some? <==> exists i :: 0 <= i < |lines| && |lines[i]| > limit)
    ensures r.Some? ==> limit > 0 && r.value == LineLengthErrorText(MaxLength(lines), limit)
  {
    if limit <= 0 then None
    else
      var m := MaxLength(lines);
      if m > limit then Some(LineLengthErrorText(m, limit)) else None
  }

  /** `asMsg.reduce((prev, curr) => prev.length > curr.length ? prev : curr)`:
      a longest line; among lines of equal length the later one wins. */
  method LongestLine(lines: seq<string>) returns (longest: string, ghost at: nat)
    requires |lines| > 0
    ensures at < |lines| && lines[at] == longest
    ensures |longest| == MaxLength(lines)
    ensures forall j :: at < j < |lines| ==> |lines[j]| < |longest|
  {
    longest, at := lines[0], 0;
    var i := 1;
    while i < |lines|
      invariant 1 <= i <= |lines|
      invariant at < i && lines[at] == longest
      invariant |longest| == MaxLength(lines[..i])
      invariant forall j :: at < j < i ==> |lines[j]| < |longest|
    {
      assert lines[..i + 1][..i] == lines[..i];
      if !(|longest| > |lines[i]|) {
        longest, at := lines[i], i;
      }
      i := i + 1;
    }
    assert lines[..i] == lines;
  }

  method CheckMaxLineLength(lines: seq<string>, maxLen: int, errors: ErrorList) returns (ok: bool)
    requires maxLen <= 0 || |lines| > 0
    modifies errors
    ensures errors.items == old(errors.items) + Emitted(LineLengthFinding(lines, maxLen))
    ensures ok <==> LineLengthFinding(lines, maxLen).None?
    ensures ok <==> errors.items == old(errors.items)
  {
    if maxLen <= 0 {
      return true;
    }
    var longest, _ := LongestLine(lines);
    if |longest| > maxLen {
      errors.Push(LineLengthErrorText(|longest|, maxLen));
      return false;
    }
    return true;
  }

  // =====================================================================
  // checkRegex
  // =====================================================================

  /** The error `checkRegex` pushes: one exactly when the rule's pattern
      does not match the whole message, naming the rule, its explanation
      and the pattern's literal form. */
  function RegexFinding(msg: string, nr: NamedRule, matches: Matcher): (r: Option<string>)
    ensures r.Some? <==> Fails(msg, nr, matches)
    ensures r.Some? ==> r.value == RuleError(nr)
  {
    if matches(nr.rule.regex, msg) then None
    else Some(RuleError(nr))
  }

  method CheckRegex(msg: string, regexObj: RegexRule, regexName: string, matches: Matcher, errors: ErrorList)
    returns (ok: bool)
    modifies errors
    ensures errors.items == old(errors.items) + Emitted(RegexFinding(msg, NamedRule(regexName, regexObj), matches))
    ensures ok == matches(regexObj.regex, msg)
    ensures ok <==> errors.items == old(errors.items)
  {
    var regex := regexObj.regex;
    var explanation := ExplanationOf(regexObj);
    ok := matches(regex, msg);
    if !ok {
      errors.Push(RegexErrorText(regexName, explanation, regex));
    }
  }

  /** The errors of the regex rules, one per failing rule, in order. */
  function RegexErrors(msg: string, rules: seq<NamedRule>, matches: Matcher): (r: seq<string>)
    ensures |r| <= |rules|
  {
    if rules == [] then []
    else RegexErrors(msg, rules[..|rules| - 1], matches) + Emitted(RegexFinding(msg, rules[|rules| - 1], matches))
  }

  // =====================================================================
  // __normalizeCfg
  // =====================================================================

  /** The fields of a configuration object, each possibly absent. */
  datatype Settings = Settings(
    regexes: Option<seq<NamedRule>>,
    minLength: Option<int>,
    maxLength: Option<int>,
    minFirstLineLength: Option<int>,
    maxFirstLineLength: Option<int>,
    maxLineLength: Option<int>)

  /** `{}`: what a missing configuration is replaced by. */
  const NoSettings := Settings(None, None, None, None, None, None)

  predicate IsNormal(s: Settings) {
    s.regexes.Some? && s.minLength.Some? && s.maxLength.Some?
    && s.minFirstLineLength.Some? && s.maxFirstLineLength.Some? && s.maxLineLength.Some?
  }

  /** `cfg.x = cfg.x || default` for every field: present fields are kept,
      absent numbers become 0 and absent rules an empty list. */
  function Normalized(s: Settings): (n: Settings)
    ensures IsNormal(n)
    ensures n.regexes == Some(GetOr(s.regexes, []))
    ensures s.minLength.Some? ==> n.minLength == s.minLength
    ensures s.maxLength.Some? ==> n.maxLength == s.maxLength
    ensures s.minFirstLineLength.Some? ==> n.minFirstLineLength == s.minFirstLineLength
    ensures s.maxFirstLineLength.Some? ==> n.maxFirstLineLength == s.maxFirstLineLength
    ensures s.maxLineLength.Some? ==> n.maxLineLength == s.maxLineLength
    ensures s.minLength.None? ==> n.minLength == Some(0)
    ensures s.maxLength.None? ==> n.maxLength == Some(0)
    ensures s.minFirstLineLength.None? ==> n.minFirstLineLength == Some(0)
    ensures s.maxFirstLineLength.None? ==> n.maxFirstLineLength == Some(0)
    ensures s.maxLineLength.None? ==> n.maxLineLength == Some(0)
  {
    Settings(
      Some(GetOr(s.regexes, [])),
      Some(GetOr(s.minLength, 0)),
      Some(GetOr(s.maxLength, 0)),
      Some(GetOr(s.minFirstLineLength, 0)),
      Some(GetOr(s.maxFirstLineLength, 0)),
      Some(GetOr(s.maxLineLength, 0)))
  }

  /** Normalising twice changes nothing more. */
  lemma NormalizedIdempotent(s: Settings)
    ensures Normalized(Normalized(s)) == Normalized(s)
  {
  }

  /** The configuration object, whose fields `NormalizeCfg` overwrites. */
  class Cfg {
    var regexes: Option<seq<NamedRule>>
    var minLength: Option<int>
    var maxLength: Option<int>
    var minFirstLineLength: Option<int>
    var maxFirstLineLength: Option<int>
    var maxLineLength: Option<int>

    constructor (s: Settings)
      ensures Fields() == s
    {
      regexes := s.regexes;
      minLength := s.minLength;
      maxLength := s.maxLength;
      minFirstLineLength := s.minFirstLineLength;
      maxFirstLineLength := s.maxFirstLineLength;
      maxLineLength := s.maxLineLength;
    }

    function Fields(): Settings
      reads this
    {
      Settings(regexes, minLength, maxLength, minFirstLineLength, maxFirstLineLength, maxLineLength)
    }
  }

  function FieldsOf(cfg: Cfg?): Settings
    reads cfg
  {
    if cfg == null then NoSettings else cfg.Fields()
  }

  /** `__normalizeCfg`: normalises the given object in place and returns it,
      or returns a fresh normalised object when there is none. */
  method NormalizeCfg(cfg: Cfg?) returns (r: Cfg)
    modifies cfg
    ensures cfg != null ==> r == cfg
    ensures cfg == null ==> fresh(r)
    ensures r.Fields() == Normalized(old(FieldsOf(cfg)))
  {
    if cfg == null {
      r := new Cfg(NoSettings);
    } else {
      r := cfg;
    }
    r.regexes := Some(GetOr(r.regexes, []));
    r.minLength := Some(GetOr(r.minLength, 0));
    r.maxLength := Some(GetOr(r.maxLength, 0));
    r.minFirstLineLength := Some(GetOr(r.minFirstLineLength, 0));
    r.maxFirstLineLength := Some(GetOr(r.maxFirstLineLength, 0));
    r.maxLineLength := Some(GetOr(r.maxLineLength, 0));
  }

  // =====================================================================
  // performChecks
  // =====================================================================

  /** `{errors, someRegexFailed}`. */
  datatype CheckReport = CheckReport(errors: seq<string>, someRegexFailed: bool)

  /** The report `performChecks` returns for a message and configuration:
      the regex errors in rule order, then the line-length error, then the
      first-line error, then the whole-message error. Every check runs. */
  function Report(msg: string, raw: Settings, matches: Matcher): (r: CheckReport)
    ensures r.someRegexFailed ==> r.errors != []
  {
    var cfg := Normalized(raw);
    var lines := SplitLines(msg);
    var regexErrors := RegexErrors(msg, cfg.regexes.value, matches);
    CheckReport(
      regexErrors
      + Emitted(LineLengthFinding(lines, cfg.maxLineLength.value))
      + Emitted(LengthFinding(lines[0], Bounds(cfg.minFirstLineLength.value, cfg.maxFirstLineLength.value), FirstLineLabel))
      + Emitted(LengthFinding(msg, Bounds(cfg.minLength.value, cfg.maxLength.value), MessageLabel)),
      |regexErrors| > 0)
  }

  method PerformChecks(msg: string, cfg: Cfg?, matches: Matcher) returns (report: CheckReport)
    modifies cfg
    ensures report == Report(msg, old(FieldsOf(cfg)), matches)
    ensures cfg != null ==> cfg.Fields() == Normalized(old(cfg.Fields()))
  {
    var c := NormalizeCfg(cfg);
    var settings := c.Fields();
    var asMsg := SplitLines(msg);
    var errors := new ErrorList();

    var rules := settings.regexes.value;
    var i := 0;
    while i < |rules|
      invariant 0 <= i <= |rules|
      invariant errors.items == RegexErrors(msg, rules[..i], matches)
      invariant c.Fields() == settings
    {
      assert rules[..i + 1][..i] == rules[..i];
      var _ := CheckRegex(msg, rules[i].rule, rules[i].name, matches, errors);
      i := i + 1;
    }
    assert rules[..i] == rules;
    var someRegexFailed := |errors.items| > 0;

    var _ := CheckMaxLineLength(asMsg, settings.maxLineLength.value, errors);
    var _ := CheckLength(asMsg[0], Bounds(settings.minFirstLineLength.value, settings.maxFirstLineLength.value),
                         FirstLineLabel, errors);
    var _ := CheckLength(msg, Bounds(settings.minLength.value, settings.maxLength.value), MessageLabel, errors);

    report := CheckReport(errors.items, someRegexFailed);
  }

  /** Running `performChecks` twice on the same configuration object gives
      the same report, although the first run normalised the object. */
  method PerformChecksTwice(msg: string, cfg: Cfg?, matches: Matcher) returns (first: CheckReport, second: CheckReport)
    modifies cfg
    ensures first == second
  {
    ghost var raw := FieldsOf(cfg);
    first := PerformChecks(msg, cfg, matches);
    second := PerformChecks(msg, cfg, matches);
    if cfg != null {
      ReportOfNormalized(msg, raw, matches);
    }
  }

  // =====================================================================
  // Properties of the regex rules
  // =====================================================================

  /** The rules whose pattern does not match the message, in order. */
  function FailingRules(msg: string, rules: seq<NamedRule>, matches: Matcher): seq<NamedRule> {
    if rules == [] then []
    else
      var last := rules[|rules| - 1];
      FailingRules(msg, rules[..|rules| - 1], matches) + (if Fails(msg, last, matches) then [last] else [])
  }

  /** The regex errors are exactly one error per failing rule, in rule order,
      each the error text of that rule. */
  lemma {:induction false} RegexErrorsPerFailingRule(msg: string, rules: seq<NamedRule>, matches: Matcher)
    ensures |RegexErrors(msg, rules, matches)| == |FailingRules(msg, rules, matches)|
    ensures forall k :: 0 <= k < |FailingRules(msg, rules, matches)| ==>
      RegexErrors(msg, rules, matches)[k] == RuleError(FailingRules(msg, rules, matches)[k])
  {
    if rules != [] {
      RegexErrorsPerFailingRule(msg, rules[..|rules| - 1], matches);
    }
  }

  /** A failing rule is one of the rules, and fails. */
  lemma {:induction false} FailingRulesFail(msg: string, rules: seq<NamedRule>, matches: Matcher)
    ensures |FailingRules(msg, rules, matches)| <= |rules|
    ensures forall k :: 0 <= k < |FailingRules(msg, rules, matches)| ==>
      FailingRules(msg, rules, matches)[k] in rules && Fails(msg, FailingRules(msg, rules, matches)[k], matches)
    ensures forall i :: 0 <= i < |rules| && Fails(msg, rules[i], matches) ==>
      rules[i] in FailingRules(msg, rules, matches)
  {
    if rules != [] {
      var init := rules[..|rules| - 1];
      FailingRulesFail(msg, init, matches);
      forall k | 0 <= k < |FailingRules(msg, init, matches)|
        ensures FailingRules(msg, init, matches)[k] in rules
      {
        assert FailingRules(msg, init, matches)[k] in init;
      }
      forall i | 0 <= i < |rules| && Fails(msg, rules[i], matches)
        ensures rules[i] in FailingRules(msg, rules, matches)
      {
        if i < |init| {
          assert rules[i] == init[i];
        }
      }
    }
  }

  /** No regex error at all exactly when every rule matches. */
  lemma {:induction false} RegexErrorsEmptyIff(msg: string, rules: seq<NamedRule>, matches: Matcher)
    ensures RegexErrors(msg, rules, matches) == [] <==> forall i :: 0 <= i < |rules| ==> !Fails(msg, rules[i], matches)
  {
    if rules != [] {
      var init := rules[..|rules| - 1];
      RegexErrorsEmptyIff(msg, init, matches);
      assert forall i :: 0 <= i < |init| ==> init[i] == rules[i];
    }
  }

  // =====================================================================
  // Properties of the report
  // =====================================================================

  /** One error per failing rule, then at most one from each length check. */
  lemma ReportSize(msg: string, raw: Settings, matches: Matcher)
    ensures var rules := Normalized(raw).regexes.value;
      |Report(msg, raw, matches).errors| <= |FailingRules(msg, rules, matches)| + 3 <= |rules| + 3
  {
    var rules := Normalized(raw).regexes.value;
    RegexErrorsPerFailingRule(msg, rules, matches);
    FailingRulesFail(msg, rules, matches);
  }

  /** The report's first errors are those of the regex rules, in order. */
  lemma ReportStartsWithRegexErrors(msg: string, raw: Settings, matches: Matcher)
    ensures RegexErrors(msg, Normalized(raw).regexes.value, matches) <= Report(msg, raw, matches).errors
  {
  }

  /** `someRegexFailed` is set exactly when some rule does not match. */
  lemma SomeRegexFailedIff(msg: string, raw: Settings, matches: Matcher)
    ensures var rules := Normalized(raw).regexes.value;
      Report(msg, raw, matches).someRegexFailed <==> exists i :: 0 <= i < |rules| && Fails(msg, rules[i], matches)
  {
    RegexErrorsEmptyIff(msg, Normalized(raw).regexes.value, matches);
  }

  /** A configuration without rules and without positive bounds accepts
      every message. */
  lemma NoOpConfiguration(msg: string, raw: Settings, matches: Matcher)
    requires raw.regexes == None || raw.regexes == Some([])
    requires raw.minLength == None || raw.minLength.value <= 0
    requires raw.maxLength == None || raw.maxLength.value <= 0
    requires raw.minFirstLineLength == None || raw.minFirstLineLength.value <= 0
    requires raw.maxFirstLineLength == None || raw.maxFirstLineLength.value <= 0
    requires raw.maxLineLength == None || raw.maxLineLength.value <= 0
    ensures Report(msg, raw, matches) == CheckReport([], false)
  {
  }

  /** Checking with an already normalised configuration gives the same
      report: normalising in place does not change a later run. */
  lemma ReportOfNormalized(msg: string, raw: Settings, matches: Matcher)
    ensures Report(msg, Normalized(raw), matches) == Report(msg, raw, matches)
  {
    NormalizedIdempotent(raw);
  }

  // =====================================================================
  // Properties of the length check
  // =====================================================================

  /** With `min > max > 0` the only error is the misconfiguration, whatever
      the string; with no maximum the guard never fires. */
  lemma MisconfigurationIndependentOfText(str: string, b: Bounds, subject: string)
    ensures Inverted(b) ==> LengthFinding(str, b, subject) == Some(MisconfigurationError)
    ensures b.max <= 0 ==> LengthVerdict(str, b) != Misconfigured
  {
  }

  /** A version-bump string passes whatever the (consistent) bounds. */
  lemma VersionExemptFromLength(str: string, b: Bounds, subject: string)
    requires StartsWithVersion(str) && !Inverted(b)
    ensures LengthFinding(str, b, subject) == None
  {
  }

  /** Too short is reported in preference to too long: with bounds 5..10 a
      two-character string yields only the "too short" error. */
  lemma ShortBeatsLong(str: string, subject: string)
    requires |str| == 2
    ensures LengthFinding(str, Bounds(5, 10), subject) == Some(LengthErrorText(subject, true, 5, 2))
  {
  }

  // =====================================================================
  // Properties of the error texts
  // =====================================================================

  /** A regex error names the rule, gives the explanation and shows the
      pattern's literal form. */
  lemma RegexErrorMentions(name: string, explanation: string, regex: Regex)
    ensures var e := RegexErrorText(name, explanation, regex);
      Contains(e, name) && Contains(e, explanation) && Contains(e, RegexText(regex))
  {
    ContainsThree("The regex '", name, "' failed on the commit message.\n", explanation, "\n", "Failed regex: ",
                  RegexText(regex));
  }

  /** The line-length error names the longest line's length and the limit. */
  lemma LineLengthErrorMentions(longest: nat, limit: nat)
    ensures var e := LineLengthErrorText(longest, limit);
      Contains(e, DecimalString(longest)) && Contains(e, DecimalString(limit))
  {
    ContainsBoth(LineLengthHead, DecimalString(longest), LineLengthMiddle, DecimalString(limit), LineLengthTail);
  }

  /** The numbers in the line-length error are followed by non-digits. */
  lemma LineLengthPiecesSeparate()
    ensures LineLengthMiddle != [] && !IsDigit(LineLengthMiddle[0]) && NoLeadingDigit(LineLengthTail)
  {
    assert LineLengthTail[0] == LineLengthAllowed[0] == ' ';
  }

  /** The line-length error determines both numbers it cites. */
  lemma LineLengthErrorDetermines(longest: nat, limit: nat, longest': nat, limit': nat)
    requires LineLengthErrorText(longest, limit) == LineLengthErrorText(longest', limit')
    ensures longest == longest' && limit == limit'
  {
    LineLengthPiecesSeparate();
    TwoNumeralsDetermine(LineLengthHead, longest, LineLengthMiddle, limit, LineLengthTail, longest', limit');
  }

  /** The shape of a length error, with its constant pieces abstracted:
      how it regroups around the bound, and where `p1` starts. */
  lemma LengthTextShape(subject: string, k1: string, p1: string, k2: string, qual: string,
                        db: string, k3: string, dl: string)
    requires |p1| > 0
    ensures var w := subject + k1 + p1 + k2 + (qual + db) + k3 + dl;
      w == (subject + k1 + p1 + k2 + qual) + db + k3 + dl + ""
      && w[|subject| + |k1|] == p1[0]
  {
    var w := subject + k1 + p1 + k2 + (qual + db) + k3 + dl;
    assert w == (subject + k1) + p1 + (k2 + (qual + db) + k3 + dl);
  }

  /** The subject, the bound and the length all occur in a length error. */
  lemma LengthTextParts(subject: string, k1: string, p1: string, k2: string, qual: string,
                        db: string, k3: string, dl: string)
    ensures var w := subject + k1 + p1 + k2 + (qual + db) + k3 + dl;
      Contains(w, subject) && Contains(w, db) && Contains(w, dl)
  {
    var w := subject + k1 + p1 + k2 + (qual + db) + k3 + dl;
    assert w == "" + subject + (k1 + p1 + k2 + qual) + db + k3 + "" + dl;
    ContainsThree("", subject, k1 + p1 + k2 + qual, db, k3, "", dl);
  }

  /** A length error names its subject, the bound and the actual length. */
  lemma LengthErrorMentions(subject: string, tooShort: bool, bound: nat, len: nat)
    ensures var e := LengthErrorText(subject, tooShort, bound, len);
      Contains(e, subject) && Contains(e, DecimalString(bound)) && Contains(e, DecimalString(len))
  {
    LengthTextParts(subject, " is too ", if tooShort then "short" else "long", ", should be at ",
                    if tooShort then "least " else "most ", DecimalString(bound), " chars but it is ", DecimalString(len));
  }

  /** For one subject, a length error determines whether the string was too
      short or too long, the bound and the actual length. */
  lemma LengthErrorDetermines(subject: string, tooShort: bool, bound: nat, len: nat,
                              tooShort': bool, bound': nat, len': nat)
    requires LengthErrorText(subject, tooShort, bound, len) == LengthErrorText(subject, tooShort', bound', len')
    ensures tooShort == tooShort' && bound == bound' && len == len'
  {
    var k1, k2, k3 := " is too ", ", should be at ", " chars but it is ";
    var p1, p1' := if tooShort then "short" else "long", if tooShort' then "short" else "long";
    var qual, qual' := if tooShort then "least " else "most ", if tooShort' then "least " else "most ";
    LengthTextShape(subject, k1, p1, k2, qual, DecimalString(bound), k3, DecimalString(len));
    LengthTextShape(subject, k1, p1', k2, qual', DecimalString(bound'), k3, DecimalString(len'));
    assert p1[0] == p1'[0];
    assert tooShort == tooShort';
    assert NoLeadingDigit(k3);
    TwoNumeralsDetermine(subject + k1 + p1 + k2 + qual, bound, k3, len, "", bound', len');
  }

  // =====================================================================
  // End-to-end scenarios
  // =====================================================================

  /** The text of the error in the first scenario below, assembled piece by
      piece so that the literals need not be compared all at once. */
  lemma TooShortSampleText()
    ensures LengthErrorText(MessageLabel, true, 10, 7)
         == "The commit message is too short, should be at least 10 chars but it is 7"
  {
    TooShortNumerals();
    var s := MessageLabel + " is too ";
    assert s == "The commit message is too ";
    s := s + "short";
    assert s == "The commit message is too short";
    s := s + ", should be at ";
    assert s == "The commit message is too short, should be at ";
    s := s + ("least " + "10");
    assert s == "The commit message is too short, should be at least 10";
    s := s + " chars but it is ";
    assert s == "The commit message is too short, should be at least 10 chars but it is ";
    s := s + "7";
    assert s == "The commit message is too short, should be at least 10 chars but it is 7";
  }

  lemma TooShortNumerals()
    ensures DecimalString(10) == "10" && DecimalString(7) == "7"
  {
  }

  /** "Fix bug" with a minimum length of 10 is reported too short. */
  lemma ScenarioTooShort(matches: Matcher)
    ensures Report("Fix bug", Settings(None, Some(10), None, None, None, None), matches)
         == CheckReport(["The commit message is too short, should be at least 10 chars but it is 7"], false)
  {
    SingleLine("Fix bug");
    assert DigitRun("Fix bug") == 0;
    TooShortSampleText();
  }

  /** "1.2.3" with a minimum length of 10 is exempt as a version bump. */
  lemma ScenarioVersionBump(matches: Matcher)
    ensures Report("1.2.3", Settings(None, Some(10), None, None, None, None), matches) == CheckReport([], false)
  {
    VersionTokenRecognised(VersionParts(false, "1", "2", "3"), "");
    assert VersionToken(VersionParts(false, "1", "2", "3")) + "" == "1.2.3";
  }

  const FixRule := NamedRule("fix", Explained(Regex("^Fix", ""), Some("Must start with Fix")))

  /** The report for a message that the one rule `FixRule` rejects. */
  lemma ScenarioRegexReport(matches: Matcher)
    requires !matches(Regex("^Fix", ""), "Bug: oops")
    ensures Report("Bug: oops", Settings(Some([FixRule]), None, None, None, None, None), matches)
         == CheckReport([RuleError(FixRule)], true)
  {
    assert [FixRule][..0] == [];
    SingleLine("Bug: oops");
    assert RegexErrors("Bug: oops", [FixRule], matches) == [RuleError(FixRule)];
    assert LineLengthFinding(["Bug: oops"], 0) == None;
    assert LengthFinding("Bug: oops", Bounds(0, 0), FirstLineLabel) == None;
    assert LengthFinding("Bug: oops", Bounds(0, 0), MessageLabel) == None;
  }

  /** A rule that does not match gives one error that names the rule, its
      explanation and its pattern, and sets `someRegexFailed`. */
  lemma ScenarioRegexFails(matches: Matcher)
    requires !matches(Regex("^Fix", ""), "Bug: oops")
    ensures var r := Report("Bug: oops", Settings(Some([FixRule]), None, None, None, None, None), matches);
      r.someRegexFailed && |r.errors| == 1
      && Contains(r.errors[0], "fix") && Contains(r.errors[0], "Must start with Fix") && Contains(r.errors[0], "/^Fix/")
  {
    ScenarioRegexReport(matches);
    FixRuleErrorMentions();
  }

  lemma FixRuleErrorMentions()
    ensures var e := RuleError(FixRule);
      Contains(e, "fix") && Contains(e, "Must start with Fix") && Contains(e, "/^Fix/")
  {
    var re := Regex("^Fix", "");
    assert ExplanationOf(FixRule.rule) == "Must start with Fix";
    assert RuleError(FixRule) == RegexErrorText("fix", "Must start with Fix", re);
    assert RegexText(re) == "/^Fix/";
    RegexErrorMentions("fix", "Must start with Fix", re);
  }

  /** A 120-character longest line against a limit of 80 gives exactly one
      line-length error, citing 120 and 80. */
  lemma ScenarioLongLine(msg: string, matches: Matcher)
    requires exists i :: 0 <= i < |SplitLines(msg)| && |SplitLines(msg)[i]| == 120
    requires forall i :: 0 <= i < |SplitLines(msg)| ==> |SplitLines(msg)[i]| <= 120
    ensures var r := Report(msg, Settings(None, None, None, None, None, Some(80)), matches);
      r == CheckReport([LineLengthErrorText(120, 80)], false)
      && Contains(r.errors[0], "120") && Contains(r.errors[0], "80")
  {
    var lines := SplitLines(msg);
    var e := LineLengthErrorText(120, 80);
    assert MaxLength(lines) == 120;
    assert LineLengthFinding(lines, 80) == Some(e);
    assert Report(msg, Settings(None, None, None, None, None, Some(80)), matches) == CheckReport([e], false) by {
      assert RegexErrors(msg, [], matches) == [];
      assert LengthFinding(lines[0], Bounds(0, 0), FirstLineLabel) == None;
      assert LengthFinding(msg, Bounds(0, 0), MessageLabel) == None;
    }
    LineLengthErrorMentions(120, 80);
    LongLineNumerals();
  }

  lemma LongLineNumerals()
    ensures DecimalString(120) == "120" && DecimalString(80) == "80"
  {
    assert DecimalString(12) == "12";
  }
}
