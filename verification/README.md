# Log analyzer core, modelled in Dafny

The repository ships two command-line analyzers, `log-analyzer.py` and
`log-analysis.py`, for the log files of a fleet of transaction services.
Each script reads every regular file in its log directory and names the
service after the file name with ".log" removed. It keeps the lines whose
leading timestamp lies inside a user-chosen window and classifies each line
as an error, a success or neither, with a tag (the pattern's name, an HTTP
status, a `returnCode`). It counts the lines per service and per hour
bucket (`YYYY-MM-DD HH:00`). Both scripts then print per-hour and
per-service success and error counts, the per-service and overall totals
and error rates. `log-analyzer.py` also prints per-tag summaries, per-type
percentages, additional statistics and the number of active services.

The two scripts share their pattern tables, `parse_timestamp` and the
shape of their loop. They differ in three places:

- Classifier. `log-analyzer.py` tries the error patterns first. It skips
  every success pattern when the line holds both "ERROR:" and "SUCCESS". It
  tags a pattern-pass verdict with the pattern's name, an HTTP fallback
  verdict `HTTP_<code>` (2xx included) and a `"returnCode"` verdict
  `returnCode=<value>`. `log-analysis.py` tries the success patterns first.
  It abandons them (`break`) when the line holds "ERROR:" or "failed,". It
  tags every success "SUCCESS", or "HTTP_SUCCESS" when it comes from a 2xx
  HTTP fallback; its error tags are those of the other script.
  `ScriptsDisagreeOnMixedLines` shows a line on which the verdicts differ.
- Filters. Only `log-analyzer.py` asks for a success-type filter; the
  other script counts every success line when successes are wanted.
- Report. `log-analysis.py` prints a subset of the other script's report
  (no per-tag summaries, percentages, additional statistics or active-service
  count). The model builds the larger report; the smaller one is its
  per-hour, per-service and overall counts and error rates.

Both scripts classify the whole raw line, stamp included. The pattern
`999\s+[Ee]rror` is case-sensitive, so a line stamped `,999` whose level is
`ERROR` does not match it at the stamp (`StampMillisAndError999`).

The model has eight modules in seven files:

- `Options`, `Text` (Text.dfy): the option type and the character and
  substring predicates the patterns are built from. This covers ASCII `\s`,
  `\d` and `\b`, and ASCII case folding for `re.IGNORECASE` and
  `str.lower()`.
- `Timestamps`: `parse_timestamp` (the 23-character millisecond form, then
  the 19-character form), the `strftime` renderings, the hour key and the
  inclusive window.
- `Patterns`: the thirteen regular expressions and the two fallback
  searches, hand-coded over `string`.
- `Classifier`: both `detect_error_success` functions, pass by pass.
- `Sums`: the sum of the values of a finite map.
- `Aggregation`: the counting loop. Its state is a map from service to
  hour to a bucket of counts.
- `Report`: the report as a value, computed by loops over the buckets, and
  the theorem that every number in it is a count of input lines.

The loop is modelled as a fold over a sequence of `(service, text)` lines.
The fold is generic over the per-line decision, so every counting theorem
holds for both scripts and any request. `AnalyzeLogs` instantiates it with
the real classifier.

## Model

| member | source | states |
|---|---|---|
| Timestamps.ParseTimestamp | log-analyzer.py:29-38 | a line parses exactly when its first 19 characters have the `%Y-%m-%d %H:%M:%S` layout and denote a valid date and time; the fields are those characters' values, and the fraction is the `,ddd` milliseconds when present, else zero |
| Timestamps.ServiceStampRoundTrip | generators/mta-comm-posting.py:12-13 | every line a service writes parses by the millisecond format back to its stamp's time, truncated to the millisecond, whatever follows the stamp |
| Timestamps.SecondsStampFallback | log-analyzer.py:33-36 | a second-resolution stamp not followed by `,ddd` parses by the fallback format, with a zero fraction |
| Timestamps.FormatSecondsLayout | log-analysis.py:36 | rendering a valid time with `%Y-%m-%d %H:%M:%S` gives text of that layout whose fields read back to the same time |
| Timestamps.HourKeyIsLinePrefix | log-analyzer.py:169 | the hour bucket of a parsed line is its first 13 characters followed by ":00" |
| Timestamps.HourKeyInjective | log-analysis.py:140 | two valid times share an hour bucket if and only if they agree on year, month, day and hour |
| Timestamps.NotAfterTotalOrder | log-analyzer.py:166 | the `<=` the window test uses is reflexive, total, antisymmetric and transitive |
| Timestamps.EmptyWindow | log-analysis.py:137 | no time lies in a window whose start is after its end |
| Patterns.ReturnCodeValueAt | log-analysis.py:70 | a `"returnCode"` capture is non-empty, does not start with '0', and is digits after its first character |
| Patterns.FirstQuotedStatus | log-analyzer.py:59-61 | finds no status exactly when no position starts a quoted three-digit status; otherwise it returns the capture at the leftmost position that does |
| Patterns.FirstReturnCodeValue | log-analyzer.py:68 | finds no value exactly when no position starts a `"returnCode"` match; otherwise it returns the capture at the leftmost matching position |
| Patterns.QuotedStatusAtIsRegex | log-analyzer.py:59 | the deterministic scan at a position yields a code exactly when some whitespace run lets the backtracking regex match there with that capture |
| Classifier.ErrorPass | log-analyzer.py:46-48 | returns the first error pattern in table order that matches, or none when no pattern matches |
| Classifier.AnalyzerSuccessPass | log-analyzer.py:51-56 | under the "ERROR:"-and-"SUCCESS" guard no success pattern is taken; otherwise it returns the first matching success pattern |
| Classifier.AnalysisSuccessPass | log-analysis.py:48-53 | a success is returned if and only if some success pattern matches and neither "ERROR:" nor "failed," occurs |
| Classifier.Fallback | log-analyzer.py:58-72 | the leftmost quoted status decides first: 4xx/5xx gives the error `HTTP_<code>`, 2xx gives a success tagged per script, whatever `"returnCode"` the line holds; only otherwise a `"returnCode"` capture gives an error; the result is neither exactly when no decisive status and no capture exist |
| Classifier.ClassifyAnalyzer | log-analyzer.py:40-72 | a success only ever comes from a line no error pattern matches; the first matching error pattern decides; otherwise the first success pattern decides unless the guard holds; otherwise the fallbacks decide |
| Classifier.ClassifyAnalysis | log-analysis.py:40-74 | any success match without the guard gives "SUCCESS"; otherwise the first error pattern decides; otherwise the fallbacks decide; successes are tagged only "SUCCESS" or "HTTP_SUCCESS" |
| Classifier.FallbackNeverSees4xx | log-analyzer.py:11 | when the `HTTP_400` pattern does not match, the leftmost quoted status cannot start with 4, so the fallback's 4xx branch is dead |
| Classifier.ReturnCodeFallbackAlwaysErrors | log-analyzer.py:68-70 | the `!= "0"` test cannot fail: once the HTTP fallback has not decided, any `"returnCode"` capture makes the line an error |
| Classifier.ScriptsAgreeWithoutSuccessPatterns | log-analysis.py:56-74 | on a line no success pattern matches, the two scripts agree up to the tag of an HTTP 2xx success |
| Classifier.ScriptsDisagreeOnMixedLines | log-analysis.py:48-58 | a line matching both kinds of pattern, without "ERROR:" or "failed,", is an error for one script and a success for the other |
| Classifier.AnalysisOverrideSuccessOnlyFromHttp | log-analysis.py:51-67 | under the "ERROR:"/"failed," guard, a success can only be an HTTP 2xx found after every error pattern failed |
| Classifier.FailureMarkersAreErrors | log-analysis.py:51-58 | a standalone "failed," or "ERROR:" makes the line an error in both scripts |
| Classifier.StampMillisAndError999 | log-analyzer.py:14 | at the stamp's milliseconds, `ERROR_999` matches exactly when they are 999 and the level is spelled "Error" or "error" |
| Aggregation.FilterFromAnswer | log-analyzer.py:132-134 | an empty answer means no filter; otherwise a tag is admitted exactly when it contains the answer, both sides lower-cased |
| Aggregation.Counted | log-analyzer.py:162-186 | a counted line is at least a 19-character stamp long; a line is counted exactly when it parses, lies in the window and its verdict passes the kind and tag gates; it goes to the bucket of the line's own date-hour prefix, with the verdict's kind and tag |
| Aggregation.Bump | log-analyzer.py:177-186 | counting a line raises exactly its kind's count and its tag's count by one, adds only that tag, and leaves every other count unchanged |
| Aggregation.Record | log-analyzer.py:143-148 | the bucket of the line's service and hour is created if absent and bumped; every other service and hour is unchanged |
| Aggregation.RecordEffect | log-analysis.py:148-156 | recording changes a count only in the event's own bucket, and there only by one for the counts the event contributes to |
| Aggregation.BucketsCountLines | log-analyzer.py:152-186 | every bucket count and per-tag count equals the number of input lines counted into that bucket with that kind and tag |
| Aggregation.BucketExistsIffCounted | log-analysis.py:133-156 | a bucket exists if and only if at least one line was counted in it |
| Aggregation.AggregateWellFormed | log-analyzer.py:177-186 | in every bucket, each kind's count is the sum of its per-tag counts, no per-tag count is zero, some count is positive, and no service has an empty hour map |
| Aggregation.EveryVerdictCountedWhenUnfiltered | log-analysis.py:143-156 | with both kinds wanted and no filter, a line is counted if and only if it parses, lies in the window and is not "neither" |
| Aggregation.EmptyWindowCountsNothing | log-analyzer.py:166-167 | a window whose start is after its end yields no buckets at all |
| Report.Combine | log-analyzer.py:232-236 | every count of the merged record, per-tag counts included, is the sum of the two records' counts |
| Report.ServiceTotals | log-analyzer.py:201-212 | a service's totals and per-tag summaries are the sums of that measure over its hour buckets |
| Report.OverallTotals | log-analyzer.py:261-262 | the overall totals and per-tag summaries are the sums over every bucket of every service |
| Report.ServiceTotalCountsLines | log-analysis.py:171-182 | a service's summed count of any measure is the number of its input lines counted with that kind and tag |
| Report.OverallTotalCountsLines | log-analysis.py:203-210 | the overall count of any measure is the number of input lines counted with that kind and tag |
| Report.TagCountsWithinKind | log-analyzer.py:276-300 | no tag is counted more often than its kind, so no per-type percentage exceeds 100% |
| Report.ServiceErrorRate | log-analyzer.py:255-259 | a service's error rate is printed exactly when it has errors; it is errors over errors plus successes, and lies in (0, 1] |
| Report.OverallErrorRate | log-analysis.py:212-214 | the overall error rate is printed exactly when something was counted; its numerator is the errors and the rest of its denominator the successes |
| Report.ListedHoursKeepTotals | log-analyzer.py:204-212 | summing successes and errors over the listed hours only gives the same totals as over every hour, so the service totals and the per-tag summaries (taken over every hour) agree |
| Report.ShownWhenWellFormed | log-analyzer.py:204-205 | on buckets that each count a line, no hour is skipped when the hours are listed |
| Report.ActiveServices | log-analyzer.py:313-316 | the active-service count is the number of services with a bucket holding a non-zero count: at most the number of services, and equal to it only when every service is active |
| Report.ServiceExistsIffCounted | log-analyzer.py:226-227 | a service appears in the state if and only if at least one of its lines was counted |
| Report.StateFacts | log-analyzer.py:313-316 | on the loop's own state, every service is active, no hour is skipped when listing, and services are exactly those with a counted line |
| Report.ServiceSections | log-analyzer.py:193-259 | each service gets one section holding its shown hours, its summed totals and its error rate |
| Report.Summarize | log-analyzer.py:190-317 | the report holds a section per service, overall totals that sum every bucket, the overall error rate of those totals and the active-service count |
| Report.AggregateAndSummarize | log-analysis.py:114-214 | for any per-line decision, every number in the report counts input lines: sections exist exactly for services with a counted line, listed hours exactly for buckets with one, and every hour, service and overall count of every measure equals the matching line count; each section's error rate is that of its totals and the overall rate that of the overall totals; no tag outnumbers its kind; every service is active |
| Report.AnalyzeLogs | log-analyzer.py:143-317 | the same facts end to end for either script and any request, with lines counted by that script's classifier inside the window and gates |
| Timestamps.HourKey | log-analyzer.py:169 | the bucket key `%Y-%m-%d %H:00`; what it means is proved by HourKeyIsLinePrefix and HourKeyInjective |
| Timestamps.InWindow | log-analyzer.py:166 | `start_time <= ts <= end_time`, inclusive at both ends; its partners are NotAfterTotalOrder and EmptyWindow |
| Patterns.ErrorMatches | log-analyzer.py:10-18 | which error pattern matches a line, case-sensitively, for each of the seven patterns in table order; ClassifyAnalyzer and ClassifyAnalysis are stated in terms of it |
| Patterns.SuccessMatches | log-analyzer.py:20-27 | which success pattern matches a line, ignoring ASCII case, for each of the six patterns in table order |
| Classifier.Classify | log-analysis.py:141 | the classifier of the chosen script applied to the raw line |
| Aggregation.Admits | log-analyzer.py:179 | `not specific or specific in tag.lower()`; FilterFromAnswer states it in terms of the user's answer |
| Aggregation.Wanted | log-analysis.py:148-156 | an error passes when errors are wanted and the error filter admits its tag; a success passes when successes are wanted and, in log-analyzer.py only, the success filter admits its tag; "neither" never passes |
| Aggregation.Step | log-analyzer.py:170-186 | one iteration of the line loop: an uncounted line leaves the state unchanged, a counted one is recorded in its service's bucket (see RecordEffect) |
| Aggregation.Aggregate | log-analyzer.py:161-186 | the loop over all lines from the empty state; BucketsCountLines, BucketExistsIffCounted and AggregateWellFormed state what it computes |

## Left out

- Prompts and the clock: `get_time_window`, `get_log_type`, the detail-level
  prompts and `.strip()` are not modelled. The window's ends, `log_choice`
  and the filters are parameters. The "last N hours" window built from
  `datetime.now()` and `timedelta` is left out because it reads the clock.
- File system: the directory listing, `os.path.isfile`, reading with
  `errors="ignore"` and naming a service after its file are I/O. The input
  is the sequence of `(service, line)` pairs the loop would see.
- Printing: the layout, the sorted order of services, hours and tags, and
  the `show_*_details` switches are left out. The report is a value, and
  its sums do not depend on the order.
- Floating point: the two error rates are kept exact as fractions
  (`Report.Rate`). A service without errors has no rate (`None`), which is
  where log-analyzer.py prints the constant "Success Rate : 100.00%" line.
  The per-type percentages and the additional statistics (total, success
  rate, error rate, success-to-error ratio) are not built as values;
  `Report.TagCountsWithinKind` states the bound on the percentages.
- Timestamps.ParseTimestamp: reads every numeric field at fixed width and
  the separating space as one space. `strptime` also accepts one-digit
  fields, a space-padded day (`%d` of " 5"), any run of whitespace where the
  format has a space, and one to six fraction digits for `%f` (such as a
  22-character line ending in two digits). Those stamps are modelled as
  parsing by the seconds form or not at all.
- Years below 1000: the model renders `%Y` padded to four digits
  (`Timestamps.DateHour`). Python's rendering of such years depends on the
  platform.
- Unicode: `\s`, `\d`, `\b`, `re.IGNORECASE` and `str.lower()` (on the
  filters and the tags) are the ASCII readings. Unicode whitespace, digits,
  word characters and case mapping are left out.
- Literal example lines are not evaluated. The classifier's contracts are
  stated for all lines, not for sample inputs.
- The log generators and `start-all-logs.py` are left out, apart from the
  stamp format they write (`Timestamps.ServiceStamp`).
