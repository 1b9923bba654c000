# Commit-message validator, modelled in Dafny

This project models the validation engine of `grunt-commit-message-verify`
(lib/check-commit-message.js). The engine checks a commit message against a
configuration and returns a report `{errors, someRegexFailed}`. The
configuration can hold named regular-expression rules, bounds on the whole
message's length, bounds on the first line's length, and a limit on the
length of every line.

Files:

- `Wrappers.dfy`: `Option`, used for configuration fields that may be absent.
- `Strings.dfy`: what the engine takes from the JavaScript runtime.
  - Decimal rendering of numbers in error texts (`DecimalString`), proved injective and readable back.
  - `split("\n")` (`SplitLines`), proved inverse to joining with newlines.
  - Substring containment (`Contains`), used to state what an error text mentions.
- `VersionPrefix.dfy`: the fixed pattern `/^v?\d+\.\d+\.\d+/` that exempts
  version-bump commits from the length checks. It is a hand-written
  recogniser, proved to accept exactly the strings that start with an
  optional `v` and three dot-separated numerals.
- `CheckCommitMessage.dfy`: the engine itself.
  - `ErrorList` is the caller's `errors` array, which every check pushes onto.
  - `Cfg` is the configuration object, which `NormalizeCfg` overwrites in place.
  - The check methods are `CheckLength`, `CheckMaxLineLength` and `CheckRegex`; `LongestLine` is the `reduce` loop; `PerformChecks` runs everything.
  - Each method is proved against a pure function saying which error, if any, it appends: `LengthFinding`, `LineLengthFinding`, `RegexFinding`, `Report`.
  - The validator's properties are lemmas about those functions.

The engine calls user-supplied regular expressions, and their matching is not
modelled. Every check that tests a pattern takes a `Matcher`, a function from a
pattern and a message to a boolean, which stands for `RegExp.prototype.test`.
A pattern is given by its source text and flags. Its printed form
`/source/flags` (`regex.toString()`) is modelled concretely.

Three points of the code's behaviour are easy to misread, and the model
follows the code on each:

- Ties between longest lines. The reducer at lib/check-commit-message.js:113-115
  keeps the earlier line only when it is strictly longer, so the last of the
  equally long lines wins (`LongestLine`). Only the length is reported, so
  nothing observable depends on this.
- Version strings and inverted bounds. The doc comment at
  lib/check-commit-message.js:62 says the check is not performed for a
  version update commit, but the misconfiguration guard (line 75) runs before
  the exemption (line 80). Inverted bounds therefore fail even on "1.2.3"
  (`LengthVerdict`).
- Normalisation in place. As the comment at lib/check-commit-message.js:42
  says, the caller's object is overwritten in place and returned; a new object
  is built only when there is none (`NormalizeCfg`). The lemma
  `ReportOfNormalized` and the method `PerformChecksTwice` show that this
  in-place update does not change the report of a later run.

## Model

| member | source | states |
|---|---|---|
| CheckCommitMessage.Normalized | lib/check-commit-message.js:45-58 | every field of the normalised configuration is present; fields that were present keep their value; absent numbers become 0 and absent rules an empty list |
| CheckCommitMessage.NormalizeCfg | lib/check-commit-message.js:45-58 | normalises the given object in place and returns that same object, or returns a fresh normalised object when there is none |
| CheckCommitMessage.NormalizedIdempotent | lib/check-commit-message.js:46-57 | normalising an already normalised configuration changes nothing |
| CheckCommitMessage.LengthVerdict | lib/check-commit-message.js:70-97 | misconfiguration exactly when min > 0, max > 0 and min > max (so never when max is 0); otherwise exemption exactly for version strings; otherwise too short exactly when min > 0 and len < min; too long exactly when not too short, max > 0 and len > max; passes exactly when within the positive bounds |
| CheckCommitMessage.LengthMessage | lib/check-commit-message.js:76-93 | an error is produced exactly when the verdict is not a pass |
| CheckCommitMessage.CheckLength | lib/check-commit-message.js:70-97 | appends exactly the error of `LengthFinding` (none or one) and keeps every existing entry; returns true exactly when nothing was appended, which is exactly the exempt and within-bounds verdicts |
| CheckCommitMessage.MisconfigurationIndependentOfText | lib/check-commit-message.js:75-78 | inverted positive bounds yield only the misconfiguration error, whatever the string; bounds with no maximum never count as misconfigured |
| CheckCommitMessage.VersionExemptFromLength | lib/check-commit-message.js:80-83 | with consistent bounds, a string that starts with a version token produces no length error |
| CheckCommitMessage.ShortBeatsLong | lib/check-commit-message.js:85-93 | with bounds 5..10, every two-character string yields exactly the "too short, should be at least 5 chars but it is 2" error |
| CheckCommitMessage.MaxLength | lib/check-commit-message.js:113-115 | no line is longer than the result, and some line has exactly that length |
| CheckCommitMessage.LongestLine | lib/check-commit-message.js:113-115 | returns one of the lines whose length is the maximum, and no later line is as long (the later of two equally long lines wins) |
| CheckCommitMessage.LineLengthFinding | lib/check-commit-message.js:107-124 | no error when the limit is not positive; otherwise an error exactly when some line is longer than the limit, and that one error cites the maximum line length and the limit |
| CheckCommitMessage.CheckMaxLineLength | lib/check-commit-message.js:107-124 | appends exactly the error of `LineLengthFinding` and keeps every existing entry; returns true exactly when nothing was appended |
| CheckCommitMessage.RegexFinding | lib/check-commit-message.js:132-145 | an error exactly when the rule's pattern does not match the whole message; the error is the rule's error text |
| CheckCommitMessage.CheckRegex | lib/check-commit-message.js:132-145 | returns the match result; appends the rule's error exactly when the pattern does not match, and keeps every existing entry |
| CheckCommitMessage.RegexErrorMentions | lib/check-commit-message.js:138-141 | a regex error contains the rule name, the explanation and the pattern's literal form |
| CheckCommitMessage.LengthErrorMentions | lib/check-commit-message.js:90-92 | a length error contains its subject, the bound and the actual length |
| CheckCommitMessage.LengthErrorDetermines | lib/check-commit-message.js:90-92 | for one subject, the error text determines whether the string was too short or too long, the bound and the length |
| CheckCommitMessage.LineLengthErrorMentions | lib/check-commit-message.js:118-119 | the line-length error contains the longest line's length and the limit |
| CheckCommitMessage.LineLengthErrorDetermines | lib/check-commit-message.js:118-119 | the line-length error text determines both numbers it cites |
| CheckCommitMessage.PerformChecks | lib/check-commit-message.js:12-39 | returns `Report` for the message and the configuration as it was on entry, and leaves the configuration object normalised |
| CheckCommitMessage.PerformChecksTwice | lib/check-commit-message.js:12-39 | two runs on the same configuration object give the same report, although the first run normalised it |
| CheckCommitMessage.ReportOfNormalized | lib/check-commit-message.js:13-58 | checking with a normalised configuration gives the same report as with the original one |
| CheckCommitMessage.RegexErrorsPerFailingRule | lib/check-commit-message.js:17-20 | the regex part of the report has exactly one error per failing rule, in rule order, each that rule's error text |
| CheckCommitMessage.FailingRulesFail | lib/check-commit-message.js:17-20 | the failing rules are exactly the rules of the configuration that do not match: every listed rule fails, every failing rule is listed, and there are no more of them than rules |
| CheckCommitMessage.RegexErrorsEmptyIff | lib/check-commit-message.js:17-21 | there is no regex error exactly when every rule matches |
| CheckCommitMessage.ReportStartsWithRegexErrors | lib/check-commit-message.js:17-33 | the report's errors begin with the regex errors |
| CheckCommitMessage.ReportSize | lib/check-commit-message.js:17-33 | the report has at most one error per failing rule plus three, hence at most the number of rules plus three |
| CheckCommitMessage.SomeRegexFailedIff | lib/check-commit-message.js:21-37 | `someRegexFailed` is true exactly when some rule does not match the message |
| CheckCommitMessage.NoOpConfiguration | lib/check-commit-message.js:46-57 | with no rules and no positive bound, every message yields an empty report |
| CheckCommitMessage.ScenarioTooShort | lib/check-commit-message.js:30-33 | "Fix bug" with minimum length 10 yields exactly "The commit message is too short, should be at least 10 chars but it is 7" |
| CheckCommitMessage.ScenarioVersionBump | lib/check-commit-message.js:80-83 | "1.2.3" with minimum length 10 yields no error |
| CheckCommitMessage.ScenarioRegexReport | lib/check-commit-message.js:17-21 | a message that the single rule `fix` rejects yields exactly that rule's error, with `someRegexFailed` set |
| CheckCommitMessage.ScenarioRegexFails | lib/check-commit-message.js:136-142 | that error names `fix` and "Must start with Fix" and shows `/^Fix/` |
| CheckCommitMessage.ScenarioLongLine | lib/check-commit-message.js:107-121 | a message whose longest line, wherever it is, has 120 characters, checked with limit 80, yields exactly one error, which cites 120 and 80 |
| CheckCommitMessage.ErrorList.Push | lib/check-commit-message.js:93 | `errors.push(e)`: the list afterwards is the old list with `e` appended |
| CheckCommitMessage.RegexText | lib/check-commit-message.js:138 | the literal form is `/`, the pattern's source, `/`, then its flags, each at its fixed position |
| CheckCommitMessage.ExplanationOf | lib/check-commit-message.js:134 | a rule with an explanation yields that explanation; a non-empty result is always the rule's own explanation, so a bare pattern or a missing explanation yields "" |
| CheckCommitMessage.LengthErrorText | lib/check-commit-message.js:90-92 | the text starts with its subject and ends with the actual length |
| CheckCommitMessage.LineLengthErrorText | lib/check-commit-message.js:118-119 | the text starts with "The commit message has some very long lines. The longest line has " and ends with " are allowed.", a newline and "Split your message with newlines." |
| CheckCommitMessage.RegexErrorText | lib/check-commit-message.js:140-141 | the text starts with "The regex '" followed by the rule's name |
| CheckCommitMessage.RuleError | lib/check-commit-message.js:133-141 | the error of a failing rule starts with "The regex '" and its name, the text that `checkRegex` builds from the rule's pattern and explanation |
| CheckCommitMessage.LengthFinding | lib/check-commit-message.js:70-97 | `checkLength` pushes nothing exactly when the bounds are not inverted and the string is a version or lies within the positive bounds; inverted bounds push the misconfiguration text |
| CheckCommitMessage.RegexErrors | lib/check-commit-message.js:17-20 | the `for…in` loop over the rules pushes at most one error per rule |
| CheckCommitMessage.Report | lib/check-commit-message.js:12-39 | the report of `performChecks`; whenever `someRegexFailed` is set its error list is non-empty |
| VersionPrefix.StartsWithVersion | lib/check-commit-message.js:80 | `/^v?\d+\.\d+\.\d+/.test(s)`: an accepted string has at least five characters and starts with `v` or a digit |
| VersionPrefix.VersionTokenRecognised | lib/check-commit-message.js:80 | every optional `v` followed by three dot-separated numerals is accepted, whatever follows it |
| VersionPrefix.VersionOf | lib/check-commit-message.js:80 | every accepted string starts with such a well-formed version token |
| VersionPrefix.StartsWithVersionExactly | lib/check-commit-message.js:80 | the recogniser accepts exactly the strings that start with a well-formed version token |
| Strings.SplitLines | lib/check-commit-message.js:14 | splitting yields at least one line, and no line contains a newline |
| Strings.JoinSplit | lib/check-commit-message.js:14 | joining the split lines with newlines restores the message |
| Strings.SplitJoin | lib/check-commit-message.js:14 | splitting joined newline-free lines gives back the lines |
| Strings.FirstLineIsPrefix | lib/check-commit-message.js:25 | the first line is a prefix of the message, ended by a newline or by the end of the message |
| Strings.DecimalString | lib/check-commit-message.js:91-92 | a number renders as a non-empty string of digits without a leading zero |
| Strings.DecimalRoundTrip | lib/check-commit-message.js:91-92 | reading a rendered number back gives the number |
| Strings.NumeralPrefixDetermines | lib/check-commit-message.js:118 | a rendered number followed by a non-digit can be read off the front of a text |

## Left out

- tasks/grunt-commit-message-verify.js is not part of this model. That file runs `git log`, registers the Grunt task, logs to the terminal and exits. Its normalisation repeats the library's.
- The `hasColors` flag and the `.cyan` styling of the failed pattern (lib/check-commit-message.js:3, 141) affect only the display. Error texts are modelled without styling.
- Regular-expression matching is not modelled. A `Matcher` parameter stands for `RegExp.prototype.test`, treated as a pure function of the pattern and the message.
- The `lastIndex` state that `test` carries for patterns with the `g` or `y` flag is not modelled.
- `RegexText`: uses the stored source text as `RegExp.prototype.source` would give it, and does not model how JavaScript escapes a pattern's source (an empty pattern prints as `(?:)`).
- JavaScript falsiness in the `||` defaults (`NaN`, `""`, `false`, non-numeric strings) is not modelled. Numeric fields are optional integers, and an absent field becomes 0. Negative values are kept, as in the source, and act like 0 in every `> 0` test.
- `CheckLength`: takes its bounds as a `Bounds` value of two integers. It does not model a missing `oLen` object or a missing `min`/`max` (`oLen || {}`, `oLen.min || 0`); a caller passes 0 for them. `CheckMaxLineLength` likewise takes an integer limit rather than a possibly missing one.
- The order in which `for…in` visits the keys of `cfg.regexes` is not modelled. The rules are given as a sequence in visiting order, so JavaScript's rule that integer-like keys come first is left to the caller.
- `CheckMaxLineLength`: requires at least one line when the limit is positive, because `reduce` without an initial value throws on an empty array. `split` never returns an empty array (`SplitLines` ensures so), so `PerformChecks` always meets this.
- String length counts characters of `seq<char>`. JavaScript counts UTF-16 code units, and the model does not distinguish characters outside the Basic Multilingual Plane.
- `DecimalString`: renders every natural number in plain decimal. JavaScript switches to exponent notation from 1e21 on. String lengths never reach that, but the configured bounds printed in the error texts (`iMinLen`, `iMaxLen` at lib/check-commit-message.js:91 and 118) come from the user, so the model assumes those bounds are below 1e21; a larger bound would print as, for example, `1e+21`.
- `iMinLen` and `iMaxLen` lack `var` in the source and so become globals. Nothing in a single run can observe this.
