/** The regular expressions of the two analyzers, hand-coded over `string`.
    Both scripts share the pattern tables (log-analyzer.py:10-27 and
    log-analysis.py:10-27) and the two fallback searches. Each pattern is
    stated by where a match can start; `re.search` succeeds when some start
    position matches. A greedy `\s*` or `\s+` is followed in every pattern by
    a character that is not whitespace, so the only way to continue after it
    is from the end of the whitespace run, which `SkipSpaces` computes. */
module Patterns {
  import opened Options
  import opened Text

  /** `ERROR_PATTERNS`, in dictionary (insertion) order. */
  datatype ErrorRule = Http4xx | Http504 | ReturnCodeOne | Error999 | DuplicateKey | FailedWord | ErrorWord

  const ErrorRules: seq<ErrorRule> := [Http4xx, Http504, ReturnCodeOne, Error999, DuplicateKey, FailedWord, ErrorWord]

  /** `SUCCESS_PATTERNS`, in dictionary (insertion) order. */
  datatype SuccessRule = SuccessWord | ReturnCodeZeroJson | ReturnCodeZero | ResponseArrow | FinalizedSuccessfully | PassedWord

  const SuccessRules: seq<SuccessRule> := [SuccessWord, ReturnCodeZeroJson, ReturnCodeZero, ResponseArrow, FinalizedSuccessfully, PassedWord]

  /** The dictionary key of each error pattern, used as the line's tag. */
  function ErrorName(r: ErrorRule): string {
    match r
    case Http4xx => "HTTP_400"
    case Http504 => "HTTP_504"
    case ReturnCodeOne => "returncode=1"
    case Error999 => "ERROR_999"
    case DuplicateKey => "duplicate_key"
    case FailedWord => "failed"
    case ErrorWord => "ERROR"
  }

  /** The dictionary key of each success pattern. */
  function SuccessName(r: SuccessRule): string {
    match r
    case SuccessWord => "SUCCESS"
    case ReturnCodeZeroJson => "returnCode=0"
    case ReturnCodeZero => "returncode=0"
    case ResponseArrow => "Response =>"
    case FinalizedSuccessfully => "Finalized Successfully"
    case PassedWord => "passed"
  }

  // ---------------------------------------------------------------- building blocks

  /** `"\s+(\d{3})\s+` starting at `i`: the three captured digits. */
  function QuotedStatusAt(s: string, i: nat): (r: Option<string>)
    ensures r.Some? ==> |r.value| == 3 && AllDigits(r.value)
  {
    if i < |s| && s[i] == '"' then
      var j := SkipSpaces(s, i + 1);
      if i + 1 < j && j + 3 < |s| && IsDigit(s[j]) && IsDigit(s[j + 1]) && IsDigit(s[j + 2]) && IsSpace(s[j + 3])
      then Some(s[j..j + 3])
      else None
    else None
  }

  /** `returncode\s*[=:]\s*["']?d` starting at `i`, the key compared with
      or without case. */
  predicate ReturnCodeAt(s: string, i: nat, ignoreCase: bool, d: char) {
    && (if ignoreCase then StartsAtFolded(s, i, "returncode") else StartsAt(s, i, "returncode"))
    && var p := SkipSpaces(s, i + 10);
       && p < |s| && (s[p] == '=' || s[p] == ':')
       && var q := SkipSpaces(s, p + 1);
          && q < |s|
          && (s[q] == d || ((s[q] == '"' || s[q] == '\'') && q + 1 < |s| && s[q + 1] == d))
  }

  /** `999\s+[Ee]rror` or `error\s+999` starting at `i`. */
  predicate Error999At(s: string, i: nat) {
    || (StartsAt(s, i, "999") &&
        var j := SkipSpaces(s, i + 3);
        i + 3 < j && (StartsAt(s, j, "Error") || StartsAt(s, j, "error")))
    || (StartsAt(s, i, "error") &&
        var j := SkipSpaces(s, i + 5);
        i + 5 < j && StartsAt(s, j, "999"))
  }

  /** `"returnCode"\s*:\s*"0"` (compared without case) starting at `i`. */
  predicate ReturnCodeZeroJsonAt(s: string, i: nat) {
    && StartsAtFolded(s, i, "\"returnCode\"")
    && var p := SkipSpaces(s, i + 12);
       && p < |s| && s[p] == ':'
       && var q := SkipSpaces(s, p + 1);
          q + 2 < |s| && s[q] == '"' && s[q + 1] == '0' && s[q + 2] == '"'
  }

  /** `"returnCode"\s*:\s*"([^0]\d*)"` starting at `i`: the captured value. */
  function ReturnCodeValueAt(s: string, i: nat): (r: Option<string>)
    ensures r.Some? ==> |r.value| >= 1 && r.value[0] != '0' && AllDigits(r.value[1..])
  {
    if StartsAt(s, i, "\"returnCode\"") then
      var p := SkipSpaces(s, i + 12);
      if p < |s| && s[p] == ':' then
        var q := SkipSpaces(s, p + 1);
        if q + 1 < |s| && s[q] == '"' && s[q + 1] != '0' then
          var e := SkipDigits(s, q + 2);
          if e < |s| && s[e] == '"' then Some(s[q + 1..e]) else None
        else None
      else None
    else None
  }

  // ---------------------------------------------------------------- the patterns

  /** `re.search(ERROR_PATTERNS[name], line)`: case-sensitive. */
  predicate ErrorMatches(r: ErrorRule, s: string) {
    match r
    case Http4xx => exists i | 0 <= i < |s| :: QuotedStatusAt(s, i).Some? && QuotedStatusAt(s, i).value[0] == '4'
    case Http504 => exists i | 0 <= i < |s| :: QuotedStatusAt(s, i) == Some("504")
    case ReturnCodeOne => exists i | 0 <= i < |s| :: ReturnCodeAt(s, i, false, '1')
    case Error999 => exists i | 0 <= i < |s| :: Error999At(s, i)
    case DuplicateKey => Contains(s, "duplicate key value violates unique constraint")
    case FailedWord => exists i | 0 <= i < |s| :: WordAt(s, i, "failed")
    case ErrorWord => exists i | 0 <= i < |s| :: WordAt(s, i, "ERROR")
  }

  /** `re.search(SUCCESS_PATTERNS[name], line, re.IGNORECASE)`. */
  predicate SuccessMatches(r: SuccessRule, s: string) {
    match r
    case SuccessWord => exists i | 0 <= i < |s| :: WordAtFolded(s, i, "SUCCESS")
    case ReturnCodeZeroJson => exists i | 0 <= i < |s| :: ReturnCodeZeroJsonAt(s, i)
    case ReturnCodeZero => exists i | 0 <= i < |s| :: ReturnCodeAt(s, i, true, '0')
    case ResponseArrow => ContainsFolded(s, "Response => '{\"returnCode\":\"0\"")
    case FinalizedSuccessfully => ContainsFolded(s, "Finalized Successfully")
    case PassedWord => exists i | 0 <= i < |s| :: WordAtFolded(s, i, "passed")
  }

  // ---------------------------------------------------------------- leftmost searches

  /** `re.search(r'"\s+(\d{3})\s+', line).group(1)`: the status at the
      leftmost position where the pattern matches. */
  function FirstQuotedStatus(s: string, from: nat): (r: Option<string>)
    requires from <= |s|
    ensures r.None? <==> forall i | from <= i < |s| :: QuotedStatusAt(s, i).None?
    ensures r.Some? ==> exists i | from <= i < |s| ::
      QuotedStatusAt(s, i) == r && forall k | from <= k < i :: QuotedStatusAt(s, k).None?
    decreases |s| - from
  {
    if from == |s| then None
    else if QuotedStatusAt(s, from).Some? then QuotedStatusAt(s, from)
    else FirstQuotedStatus(s, from + 1)
  }

  /** `re.search(r'"returnCode"\s*:\s*"([^0]\d*)"', line).group(1)`. */
  function FirstReturnCodeValue(s: string, from: nat): (r: Option<string>)
    requires from <= |s|
    ensures r.None? <==> forall i | from <= i < |s| :: ReturnCodeValueAt(s, i).None?
    ensures r.Some? ==> exists i | from <= i < |s| ::
      ReturnCodeValueAt(s, i) == r && forall k | from <= k < i :: ReturnCodeValueAt(s, k).None?
    decreases |s| - from
  {
    if from == |s| then None
    else if ReturnCodeValueAt(s, from).Some? then ReturnCodeValueAt(s, from)
    else FirstReturnCodeValue(s, from + 1)
  }

  // ---------------------------------------------------------------- agreement with the regex reading

  /** One way the regex `"\s+(\d{3})\s+` can match at `i`: the whitespace
      run after the quote ends at `j` and `code` is captured. */
  ghost predicate StatusRegexMatch(s: string, i: nat, j: nat, code: string) {
    && i + 1 < j && j + 3 < |s|
    && s[i] == '"'
    && (forall k | i < k < j :: IsSpace(s[k]))
    && s[j..j + 3] == code && AllDigits(code)
    && IsSpace(s[j + 3])
  }

  /** `QuotedStatusAt` is that regex with backtracking: whatever length of
      whitespace run a match uses, it is the one `SkipSpaces` finds, so the
      deterministic scan and the regex agree on match and capture. */
  lemma QuotedStatusAtIsRegex(s: string, i: nat, code: string)
    ensures QuotedStatusAt(s, i) == Some(code) <==> exists j :: StatusRegexMatch(s, i, j, code)
  {
    if i < |s| && s[i] == '"' {
      var J := SkipSpaces(s, i + 1);
      forall j: nat | StatusRegexMatch(s, i, j, code)
        ensures j == J && QuotedStatusAt(s, i) == Some(code)
      {
        assert IsDigit(s[j]) by { assert s[j] == code[0]; }
        assert IsDigit(s[j + 1]) by { assert s[j + 1] == code[1]; }
        assert IsDigit(s[j + 2]) by { assert s[j + 2] == code[2]; }
      }
      if QuotedStatusAt(s, i) == Some(code) {
        assert StatusRegexMatch(s, i, J, code);
      }
    }
  }
}
