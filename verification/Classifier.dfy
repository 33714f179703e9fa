/** `detect_error_success` of the two analyzers. The scripts share their
    pattern tables but run them differently:

    - log-analyzer.py (`Script.Analyzer`) runs the error patterns first, then the
      success patterns, skipping every success pattern when the line holds both
      "ERROR:" and "SUCCESS", and tags a pattern-pass verdict with the
      pattern's name, an HTTP fallback verdict `HTTP_<code>` and a
      `"returnCode"` verdict `returnCode=<value>`;
    - log-analysis.py (`Script.Analysis`) runs the success patterns first, gives
      up on them (`break`) when the line holds "ERROR:" or "failed,", and tags
      every success "SUCCESS" (or "HTTP_SUCCESS" from a 2xx HTTP fallback);
      its error tags are those of log-analyzer.py.

    Both classify the whole raw line, timestamp and line terminator included. */
module Classifier {
  import opened Options
  import opened Text
  import opened Patterns
  import opened Timestamps

  datatype Verdict = Error(tag: string) | Success(tag: string) | Neither

  /** Which of the two analyzer scripts is modelled. */
  datatype Script = Analyzer | Analysis

  // ---------------------------------------------------------------- first-match reading

  /** Error pattern `j` is the first in table order that matches `s`. */
  predicate IsFirstError(s: string, j: nat) {
    j < |ErrorRules| && ErrorMatches(ErrorRules[j], s)
    && forall k | 0 <= k < j :: !ErrorMatches(ErrorRules[k], s)
  }

  predicate AnyError(s: string) {
    exists j | 0 <= j < |ErrorRules| :: ErrorMatches(ErrorRules[j], s)
  }

  /** Success pattern `j` is the first in table order that matches `s`. */
  predicate IsFirstSuccess(s: string, j: nat) {
    j < |SuccessRules| && SuccessMatches(SuccessRules[j], s)
    && forall k | 0 <= k < j :: !SuccessMatches(SuccessRules[k], s)
  }

  predicate AnySuccess(s: string) {
    exists j | 0 <= j < |SuccessRules| :: SuccessMatches(SuccessRules[j], s)
  }

  /** log-analyzer.py's override: `"ERROR:" in message and "SUCCESS" in message`. */
  predicate AnalyzerOverride(s: string) {
    Contains(s, "ERROR:") && Contains(s, "SUCCESS")
  }

  /** log-analysis.py's override: `"ERROR:" in message or "failed," in message`. */
  predicate AnalysisOverride(s: string) {
    Contains(s, "ERROR:") || Contains(s, "failed,")
  }

  // ---------------------------------------------------------------- the passes

  /** The error loop: the first error pattern, from index `k` on, that matches. */
  function ErrorPass(s: string, k: nat): (r: Option<nat>)
    requires k <= |ErrorRules|
    ensures r.Some? ==> k <= r.value < |ErrorRules| && ErrorMatches(ErrorRules[r.value], s)
    ensures r.Some? ==> forall j | k <= j < r.value :: !ErrorMatches(ErrorRules[j], s)
    ensures r.None? ==> forall j | k <= j < |ErrorRules| :: !ErrorMatches(ErrorRules[j], s)
    decreases |ErrorRules| - k
  {
    if k == |ErrorRules| then None
    else if ErrorMatches(ErrorRules[k], s) then Some(k)
    else ErrorPass(s, k + 1)
  }

  /** The first success pattern, from index `k` on, that matches, override
      or not: the reference the two success loops are compared with. */
  function FirstSuccess(s: string, k: nat): (r: Option<nat>)
    requires k <= |SuccessRules|
    ensures r.Some? ==> k <= r.value < |SuccessRules| && SuccessMatches(SuccessRules[r.value], s)
    ensures r.Some? ==> forall j | k <= j < r.value :: !SuccessMatches(SuccessRules[j], s)
    ensures r.None? ==> forall j | k <= j < |SuccessRules| :: !SuccessMatches(SuccessRules[j], s)
    decreases |SuccessRules| - k
  {
    if k == |SuccessRules| then None
    else if SuccessMatches(SuccessRules[k], s) then Some(k)
    else FirstSuccess(s, k + 1)
  }

  /** log-analyzer.py's success loop: a matching pattern is skipped with
      `continue` while the override holds, so it can only ever return the
      first match, and only when the override does not hold. */
  function AnalyzerSuccessPass(s: string, k: nat): (r: Option<nat>)
    requires k <= |SuccessRules|
    ensures AnalyzerOverride(s) ==> r.None?
    ensures !AnalyzerOverride(s) ==> r == FirstSuccess(s, k)
    decreases |SuccessRules| - k
  {
    if k == |SuccessRules| then None
    else if SuccessMatches(SuccessRules[k], s) then
      if AnalyzerOverride(s) then AnalyzerSuccessPass(s, k + 1) else Some(k)
    else AnalyzerSuccessPass(s, k + 1)
  }

  /** log-analysis.py's success loop: the first matching pattern either
      returns a success or, under the override, leaves the loop (`break`). */
  function AnalysisSuccessPass(s: string, k: nat): (found: bool)
    requires k <= |SuccessRules|
    ensures found <==> !AnalysisOverride(s) && FirstSuccess(s, k).Some?
    decreases |SuccessRules| - k
  {
    if k == |SuccessRules| then false
    else if SuccessMatches(SuccessRules[k], s) then !AnalysisOverride(s)
    else AnalysisSuccessPass(s, k + 1)
  }

  // ---------------------------------------------------------------- the fallbacks

  /** A status the HTTP fallback decides on: 2xx, 4xx or 5xx. */
  predicate Decisive(code: string)
    requires |code| > 0
  {
    code[0] == '2' || code[0] == '4' || code[0] == '5'
  }

  /** The HTTP status and `"returnCode"` fallbacks, which both scripts run
      when neither pattern pass decided. Only the leftmost quoted status is
      inspected; a status starting with another digit falls through. */
  function Fallback(script: Script, s: string): (v: Verdict)
    ensures var http := FirstQuotedStatus(s, 0);
      http.Some? && (http.value[0] == '4' || http.value[0] == '5') ==> v == Error("HTTP_" + http.value)
    ensures var http := FirstQuotedStatus(s, 0);
      http.Some? && http.value[0] == '2' ==>
        v == Success(if script == Analyzer then "HTTP_" + http.value else "HTTP_SUCCESS")
    ensures var http, rc := FirstQuotedStatus(s, 0), FirstReturnCodeValue(s, 0);
      v.Error? ==>
        || (http.Some? && (http.value[0] == '4' || http.value[0] == '5') && v.tag == "HTTP_" + http.value)
        || (rc.Some? && v.tag == "returnCode=" + rc.value)
    ensures var http := FirstQuotedStatus(s, 0);
      v.Success? ==>
        && http.Some? && http.value[0] == '2'
        && v.tag == (if script == Analyzer then "HTTP_" + http.value else "HTTP_SUCCESS")
    ensures var http, rc := FirstQuotedStatus(s, 0), FirstReturnCodeValue(s, 0);
      v.Neither? <==> (http.None? || !Decisive(http.value)) && rc.None?
  {
    var http := FirstQuotedStatus(s, 0);
    if http.Some? && (http.value[0] == '4' || http.value[0] == '5') then
      Error("HTTP_" + http.value)
    else if http.Some? && http.value[0] == '2' then
      Success(if script == Analyzer then "HTTP_" + http.value else "HTTP_SUCCESS")
    else
      match FirstReturnCodeValue(s, 0)
      case Some(value) => if value != "0" then Error("returnCode=" + value) else Neither
      case None => Neither
  }

  // ---------------------------------------------------------------- the classifiers

  /** log-analyzer.py's `detect_error_success`. */
  function ClassifyAnalyzer(s: string): (v: Verdict)
    ensures v.Success? ==> !AnyError(s)
    ensures forall j: nat | IsFirstError(s, j) :: v == Error(ErrorName(ErrorRules[j]))
    ensures !AnyError(s) && AnalyzerOverride(s) ==> v == Fallback(Analyzer, s)
    ensures forall j: nat | !AnyError(s) && !AnalyzerOverride(s) && IsFirstSuccess(s, j) ::
      v == Success(SuccessName(SuccessRules[j]))
    ensures !AnyError(s) && !AnySuccess(s) ==> v == Fallback(Analyzer, s)
  {
    match ErrorPass(s, 0)
    case Some(j) => Error(ErrorName(ErrorRules[j]))
    case None =>
      match AnalyzerSuccessPass(s, 0)
      case Some(j) => Success(SuccessName(SuccessRules[j]))
      case None => Fallback(Analyzer, s)
  }

  /** log-analysis.py's `detect_error_success`. */
  function ClassifyAnalysis(s: string): (v: Verdict)
    ensures AnySuccess(s) && !AnalysisOverride(s) ==> v == Success("SUCCESS")
    ensures forall j: nat | (!AnySuccess(s) || AnalysisOverride(s)) && IsFirstError(s, j) ::
      v == Error(ErrorName(ErrorRules[j]))
    ensures (!AnySuccess(s) || AnalysisOverride(s)) && !AnyError(s) ==> v == Fallback(Analysis, s)
    ensures v.Success? ==> v.tag == "SUCCESS" || v.tag == "HTTP_SUCCESS"
  {
    if AnalysisSuccessPass(s, 0) then Success("SUCCESS")
    else
      match ErrorPass(s, 0)
      case Some(j) => Error(ErrorName(ErrorRules[j]))
      case None => Fallback(Analysis, s)
  }

  function Classify(script: Script, s: string): Verdict {
    match script
    case Analyzer => ClassifyAnalyzer(s)
    case Analysis => ClassifyAnalysis(s)
  }

  // ---------------------------------------------------------------- properties

  /** A quoted 4xx status anywhere in the line is caught by the first error
      pattern, `HTTP_400`, so the HTTP fallback never sees a 4xx status: its
      "HTTP_4xx" branch is unreachable in both scripts. */
  lemma {:induction false} FallbackNeverSees4xx(s: string)
    requires !ErrorMatches(Http4xx, s)
    ensures FirstQuotedStatus(s, 0).None? || FirstQuotedStatus(s, 0).value[0] != '4'
  {
    if FirstQuotedStatus(s, 0).Some? {
      var i :| 0 <= i < |s| && QuotedStatusAt(s, i) == FirstQuotedStatus(s, 0);
    }
  }

  /** The `!= "0"` test of the `"returnCode"` fallback never fails, since
      the capture `[^0]\d*` cannot start with 0: once the HTTP fallback has
      not decided, a `"returnCode"` capture always makes the line an error. */
  lemma ReturnCodeFallbackAlwaysErrors(script: Script, s: string)
    ensures var http, rc := FirstQuotedStatus(s, 0), FirstReturnCodeValue(s, 0);
      rc.Some? && (http.None? || !Decisive(http.value)) ==>
        rc.value[0] != '0' && Fallback(script, s) == Error("returnCode=" + rc.value)
  {
    var rc := FirstReturnCodeValue(s, 0);
    if rc.Some? {
      var i :| 0 <= i < |s| && ReturnCodeValueAt(s, i) == rc;
    }
  }

  /** How log-analysis.py relabels log-analyzer.py's successes when only the
      HTTP fallback can produce them. */
  function AsAnalysisTag(v: Verdict): Verdict {
    match v
    case Success(_) => Success("HTTP_SUCCESS")
    case _ => v
  }

  /** On a line no success pattern matches, the two scripts reach the same
      verdict, and differ only in the tag of an HTTP 2xx success. */
  lemma ScriptsAgreeWithoutSuccessPatterns(s: string)
    requires !AnySuccess(s)
    ensures ClassifyAnalysis(s) == AsAnalysisTag(ClassifyAnalyzer(s))
  {
    assert FirstSuccess(s, 0).None?;
  }

  /** On a line that matches both an error and a success pattern and holds
      neither "ERROR:" nor "failed,", the scripts disagree: log-analyzer.py
      reports the first error pattern, log-analysis.py reports success. */
  lemma ScriptsDisagreeOnMixedLines(s: string, j: nat)
    requires IsFirstError(s, j) && AnySuccess(s) && !AnalysisOverride(s)
    ensures ClassifyAnalyzer(s) == Error(ErrorName(ErrorRules[j]))
    ensures ClassifyAnalysis(s) == Success("SUCCESS")
  {
  }

  /** Under log-analysis.py's override, a success can only come from an
      HTTP 2xx status found by the fallback, after every error pattern has
      failed: "ERROR:" or "failed," never lets a success pattern decide. */
  lemma AnalysisOverrideSuccessOnlyFromHttp(s: string)
    ensures AnalysisOverride(s) && ClassifyAnalysis(s).Success? ==>
      && ClassifyAnalysis(s).tag == "HTTP_SUCCESS"
      && !AnyError(s)
      && FirstQuotedStatus(s, 0).Some? && FirstQuotedStatus(s, 0).value[0] == '2'
  {
  }

  /** A standalone "failed," or "ERROR:" (no word character just before it)
      makes the line an error in both scripts: the `failed` or `ERROR` word
      pattern matches, and log-analysis.py's override stops its success pass. */
  lemma {:induction false} FailureMarkersAreErrors(script: Script, s: string, i: nat)
    requires StartsAt(s, i, "failed,") || StartsAt(s, i, "ERROR:")
    requires LeftBoundary(s, i)
    ensures Classify(script, s).Error?
  {
    if StartsAt(s, i, "failed,") {
      assert s[i..i + 6] == s[i..i + 7][..6];
      assert WordAt(s, i, "failed");
      assert Contains(s, "failed,");
      assert ErrorMatches(ErrorRules[5], s);
    } else {
      assert s[i..i + 5] == s[i..i + 6][..5];
      assert WordAt(s, i, "ERROR");
      assert Contains(s, "ERROR:");
      assert ErrorMatches(ErrorRules[6], s);
    }
    var j := ErrorPass(s, 0).value;
    assert IsFirstError(s, j);
  }

  /** The classifier sees the whole line, so the millisecond digits of the
      stamp sit right before the level word. The `ERROR_999` pattern
      (`999\s+[Ee]rror`, case-sensitive) matches there exactly when the
      milliseconds are 999 AND the level is spelled "Error" or "error": a
      ",999 ERROR" line does not match it at the stamp. */
  lemma {:induction false} StampMillisAndError999(t: Timestamp, level: string, rest: string)
    requires Valid(t) && |level| >= 5 && !IsSpace(level[0])
    ensures Error999At(ServiceStamp(t) + " " + level + rest, 20)
      <==> t.micro / 1000 == 999 && (level[..5] == "Error" || level[..5] == "error")
  {
    var line := ServiceStamp(t) + " " + level + rest;
    var ms := Digits(t.micro / 1000, 3);
    StampThenLevel(t, level, rest);
    assert SkipSpaces(line, 23) == 24 by {
      assert SkipSpaces(line, 24) == 24;
    }
    MillisAre999(t.micro / 1000);
    assert StartsAt(line, 20, "999") <==> ms == "999";
    assert !StartsAt(line, 20, "error") by {
      assert IsDigit(line[20]);
    }
  }

  /** Three zero-padded digits read "999" exactly for 999. */
  lemma MillisAre999(n: nat)
    requires n < 1000
    ensures Digits(n, 3) == "999" <==> n == 999
  {
    ValueOfDigits(n, 3);
    if Digits(n, 3) == "999" {
      assert DigitsValue("999") == 999;
    }
  }

  /** Where the milliseconds and the level word sit in a service's line. */
  lemma StampThenLevel(t: Timestamp, level: string, rest: string)
    requires |level| >= 5
    ensures var line := ServiceStamp(t) + " " + level + rest;
      && |line| >= 29
      && line[20..23] == Digits(t.micro / 1000, 3)
      && line[23] == ' ' && line[24] == level[0]
      && line[24..29] == level[..5]
  {
    ServiceStampLayout(t);
    var line := ServiceStamp(t) + " " + level + rest;
    assert line[..23] == ServiceStamp(t);
    assert line[20..23] == line[..23][20..23];
  }
}
