/** The counting loop of the two analyzers (log-analyzer.py:130-186,
    log-analysis.py:107-156): each line of each service is parsed, tested
    against the window, classified and, if its kind and tag are wanted,
    counted in the bucket of its service and hour. The nested
    `defaultdict` becomes a map of maps; a bucket comes into existence only
    when a line is counted in it. */
module Aggregation {
  import opened Options
  import opened Text
  import opened Timestamps
  import opened Classifier
  import opened Sums

  /** One line of one service's log file; the service is the file name
      with every occurrence of ".log" removed. */
  datatype LogLine = LogLine(service: string, text: string)

  /** The answers to the prompts: the window, `log_choice` ("1" success
      only, "2" errors only, "3" both) and the optional tag filters, as the
      prompts leave them (see `FilterFromAnswer`). log-analysis.py has no
      success filter and ignores `successFilter`. */
  datatype Request = Request(start: Timestamp, end: Timestamp, logChoice: string,
                             errorFilter: Option<string>, successFilter: Option<string>)

  /** A counted line: its hour bucket, whether it counts as an error, and its tag. */
  datatype Event = Event(hour: string, isError: bool, tag: string)

  /** The per-(service, hour) record: success and error counts and the
      count of each tag. */
  datatype BucketStats = BucketStats(success: nat, error: nat,
                                     successTypes: map<string, nat>, errorTypes: map<string, nat>)

  const EmptyBucket := BucketStats(0, 0, map[], map[])

  /** service -> hour -> bucket. */
  type Buckets = map<string, map<string, BucketStats>>

  // ---------------------------------------------------------------- gates

  predicate CountsSuccesses(logChoice: string) {
    logChoice == "1" || logChoice == "3"
  }

  predicate CountsErrors(logChoice: string) {
    logChoice == "2" || logChoice == "3"
  }

  /** A filter prompt's answer, already stripped: empty means no filter,
      anything else is compared in lower case. */
  function FilterFromAnswer(answer: string): (f: Option<string>)
    ensures f.None? <==> answer == ""
    ensures forall tag :: Admits(f, tag) <==> answer == "" || ContainsFolded(tag, answer)
  {
    FoldedSearch(answer);
    if answer == "" then None else Some(Fold(answer))
  }

  /** `not specific or specific in result_type.lower()`. */
  predicate Admits(filter: Option<string>, tag: string) {
    filter.None? || Contains(Fold(tag), filter.value)
  }

  /** Whether `log_choice` and the filters let a verdict through:
      log-analysis.py applies no filter to successes. */
  predicate Wanted(script: Script, req: Request, v: Verdict) {
    match v
    case Neither => false
    case Error(tag) => CountsErrors(req.logChoice) && Admits(req.errorFilter, tag)
    case Success(tag) => CountsSuccesses(req.logChoice) && (script == Analysis || Admits(req.successFilter, tag))
  }

  /** Whether and where one line is counted: `None` when its timestamp does
      not parse, it lies outside the window, it is classified `Neither`,
      or `log_choice` or a filter leaves its kind or tag out. */
  function Counted(script: Script, req: Request, line: string): (r: Option<Event>)
    ensures r.Some? ==> 19 <= |line|
    ensures r.Some? <==>
      && ParseTimestamp(line).Some?
      && InWindow(ParseTimestamp(line).value, req.start, req.end)
      && Wanted(script, req, Classify(script, line))
    ensures r.Some? ==> ParseTimestamp(line).Some?
    ensures r.Some? ==> InWindow(ParseTimestamp(line).value, req.start, req.end)
    ensures r.Some? ==> r.value.hour == line[..13] + ":00"
    ensures r.Some? ==> Classify(script, line) == (if r.value.isError then Error(r.value.tag) else Success(r.value.tag))
    ensures r.Some? && r.value.isError ==> CountsErrors(req.logChoice) && Admits(req.errorFilter, r.value.tag)
    ensures r.Some? && !r.value.isError ==> CountsSuccesses(req.logChoice)
    ensures r.Some? && !r.value.isError && script == Analyzer ==> Admits(req.successFilter, r.value.tag)
  {
    match ParseTimestamp(line)
    case None => None
    case Some(ts) =>
      if !InWindow(ts, req.start, req.end) then None
      else
        HourKeyIsLinePrefix(line);
        match Classify(script, line)
        case Neither => None
        case Error(tag) =>
          if CountsErrors(req.logChoice) && Admits(req.errorFilter, tag)
          then Some(Event(HourKey(ts), true, tag)) else None
        case Success(tag) =>
          if CountsSuccesses(req.logChoice) && (script == Analysis || Admits(req.successFilter, tag))
          then Some(Event(HourKey(ts), false, tag)) else None
  }

  // ---------------------------------------------------------------- buckets

  /** A count a bucket keeps. */
  datatype Measure = Successes | Errors | SuccessesOf(tag: string) | ErrorsOf(tag: string)

  /** `defaultdict(int)` lookup: an absent tag counts zero. */
  function CountOf(m: map<string, nat>, k: string): nat {
    if k in m then m[k] else 0
  }

  function Read(b: BucketStats, m: Measure): nat {
    match m
    case Successes => b.success
    case Errors => b.error
    case SuccessesOf(t) => CountOf(b.successTypes, t)
    case ErrorsOf(t) => CountOf(b.errorTypes, t)
  }

  /** The counts a counted line adds to. */
  predicate Contributes(e: Event, m: Measure) {
    match m
    case Successes => !e.isError
    case Errors => e.isError
    case SuccessesOf(t) => !e.isError && e.tag == t
    case ErrorsOf(t) => e.isError && e.tag == t
  }

  function Inc(m: map<string, nat>, k: string): map<string, nat> {
    m[k := CountOf(m, k) + 1]
  }

  /** `["error"] += 1; ["error_types"][tag] += 1`, or the same for success:
      exactly one of the two counts and that tag's count go up by one, and
      nothing else in the bucket changes. */
  function Bump(b: BucketStats, e: Event): (r: BucketStats)
    ensures forall m :: Read(r, m) == Read(b, m) + (if Contributes(e, m) then 1 else 0)
    ensures r.successTypes.Keys == b.successTypes.Keys + (if e.isError then {} else {e.tag})
    ensures r.errorTypes.Keys == b.errorTypes.Keys + (if e.isError then {e.tag} else {})
  {
    if e.isError then b.(error := b.error + 1, errorTypes := Inc(b.errorTypes, e.tag))
    else b.(success := b.success + 1, successTypes := Inc(b.successTypes, e.tag))
  }

  /** The bucket of `service` and `hour`, or an empty one where the
      `defaultdict` has not created it. */
  function BucketOf(d: Buckets, service: string, hour: string): BucketStats {
    if service in d && hour in d[service] then d[service][hour] else EmptyBucket
  }

  /** Count an event in the bucket of `service`, creating it if need be. */
  function Record(d: Buckets, service: string, e: Event): (r: Buckets)
    ensures r.Keys == d.Keys + {service}
    ensures r[service].Keys == (if service in d then d[service].Keys else {}) + {e.hour}
    ensures forall s | s in d && s != service :: r[s] == d[s]
    ensures forall h | h in r[service] && h != e.hour :: r[service][h] == d[service][h]
    ensures r[service][e.hour] == Bump(BucketOf(d, service, e.hour), e)
  {
    var hours := if service in d then d[service] else map[];
    d[service := hours[e.hour := Bump(BucketOf(d, service, e.hour), e)]]
  }

  /** Recording an event adds one to the counts it contributes to in its
      own bucket and leaves every other count of every bucket as it was. */
  lemma RecordEffect(d: Buckets, service: string, e: Event, s: string, h: string, m: Measure)
    ensures Read(BucketOf(Record(d, service, e), s, h), m)
      == Read(BucketOf(d, s, h), m) + (if s == service && h == e.hour && Contributes(e, m) then 1 else 0)
  {
  }

  /** The per-line decision the loop applies: `Counted` for one script
      and request. The fold below is stated for any decision. */
  type Decision = string -> Option<Event>

  function Decider(script: Script, req: Request): Decision {
    line => Counted(script, req, line)
  }

  /** One iteration of the `for line in f` loop. */
  function Step(count: Decision, d: Buckets, l: LogLine): Buckets {
    match count(l.text)
    case None => d
    case Some(e) => Record(d, l.service, e)
  }

  /** The loop over every service's lines, in order, from empty. */
  function Aggregate(count: Decision, lines: seq<LogLine>): Buckets {
    if |lines| == 0 then map[]
    else Step(count, Aggregate(count, lines[..|lines| - 1]), lines[|lines| - 1])
  }

  /** The state the analyzers report on. */
  function Analyze(script: Script, req: Request, lines: seq<LogLine>): Buckets {
    Aggregate(Decider(script, req), lines)
  }

  // ---------------------------------------------------------------- counting lines

  /** The part of the data a count is taken over. */
  datatype Scope = Everywhere | InService(service: string) | InBucket(service: string, hour: string)

  predicate InScope(scope: Scope, service: string, hour: string) {
    match scope
    case Everywhere => true
    case InService(s) => service == s
    case InBucket(s, h) => service == s && hour == h
  }

  /** The number of lines counted inside `scope` that add to measure `m`:
      the reference the buckets are checked against. */
  function Hits(count: Decision, lines: seq<LogLine>, scope: Scope, m: Measure): nat {
    if |lines| == 0 then 0
    else Hits(count, lines[..|lines| - 1], scope, m) + HitOf(count, lines[|lines| - 1], scope, m)
  }

  /** Whether line `l` is counted inside `scope` and adds to measure `m`. */
  function HitOf(count: Decision, l: LogLine, scope: Scope, m: Measure): nat {
    match count(l.text)
    case Some(e) => if InScope(scope, l.service, e.hour) && Contributes(e, m) then 1 else 0
    case None => 0
  }

  /** Every bucket count, and every per-tag count, is the number of lines
      counted into that (service, hour) bucket with that kind and tag. */
  lemma {:induction false} BucketsCountLines(count: Decision, lines: seq<LogLine>,
                                            service: string, hour: string, m: Measure)
    ensures Read(BucketOf(Aggregate(count, lines), service, hour), m)
      == Hits(count, lines, InBucket(service, hour), m)
  {
    if |lines| > 0 {
      var init := lines[..|lines| - 1];
      var l := lines[|lines| - 1];
      BucketsCountLines(count, init, service, hour, m);
      match count(l.text)
      case None =>
      case Some(e) =>
        RecordEffect(Aggregate(count, init), l.service, e, service, hour, m);
    }
  }

  /** A bucket exists exactly when at least one line was counted in it: no
      line that is unparsable, outside the window, `Neither` or filtered out
      creates one. */
  lemma {:induction false} BucketExistsIffCounted(count: Decision, lines: seq<LogLine>,
                                                 service: string, hour: string)
    ensures var d := Aggregate(count, lines);
      service in d && hour in d[service] <==>
        Hits(count, lines, InBucket(service, hour), Successes) + Hits(count, lines, InBucket(service, hour), Errors) > 0
  {
    if |lines| > 0 {
      var init := lines[..|lines| - 1];
      var l := lines[|lines| - 1];
      BucketExistsIffCounted(count, init, service, hour);
      match count(l.text)
      case None =>
      case Some(e) =>
        assert Contributes(e, Successes) || Contributes(e, Errors);
    }
  }

  // ---------------------------------------------------------------- invariants

  /** Each count is the sum of its per-tag counts and no per-tag count is
      zero. The empty bucket a `defaultdict` starts from is consistent. */
  ghost predicate Consistent(b: BucketStats) {
    && b.success == Total(b.successTypes)
    && b.error == Total(b.errorTypes)
    && (forall t | t in b.successTypes :: b.successTypes[t] > 0)
    && (forall t | t in b.errorTypes :: b.errorTypes[t] > 0)
  }

  /** What every bucket of the loop's state satisfies: it is consistent and
      counts at least one line (so the report's "both zero" skip never fires). */
  ghost predicate WellFormedBucket(b: BucketStats) {
    Consistent(b) && b.success + b.error > 0
  }

  ghost predicate WellFormed(d: Buckets) {
    forall s | s in d :: |d[s]| > 0 && forall h | h in d[s] :: WellFormedBucket(d[s][h])
  }

  /** Counting one more `k` adds one to the total and keeps every count positive. */
  lemma IncTotal(m: map<string, nat>, k: string)
    requires forall t | t in m :: m[t] > 0
    ensures Total(Inc(m, k)) == Total(m) + 1
    ensures forall t | t in Inc(m, k) :: Inc(m, k)[t] > 0
  {
    TotalUpdate(m, k, CountOf(m, k) + 1);
  }

  lemma EmptyConsistent()
    ensures Consistent(EmptyBucket)
  {
    TotalEmpty(EmptyBucket.successTypes);
    TotalEmpty(EmptyBucket.errorTypes);
  }

  /** Counting an event in a consistent bucket gives a well-formed one. */
  lemma BumpWellFormed(b: BucketStats, e: Event)
    requires Consistent(b)
    ensures WellFormedBucket(Bump(b, e))
  {
    if e.isError {
      BumpErrorWellFormed(b, e);
    } else {
      BumpSuccessWellFormed(b, e);
    }
  }

  lemma BumpErrorWellFormed(b: BucketStats, e: Event)
    requires Consistent(b) && e.isError
    ensures WellFormedBucket(Bump(b, e))
  {
    var r := Bump(b, e);
    assert r.error == b.error + 1 && r.errorTypes == Inc(b.errorTypes, e.tag);
    assert r.success == b.success && r.successTypes == b.successTypes;
    IncTotal(b.errorTypes, e.tag);
  }

  lemma BumpSuccessWellFormed(b: BucketStats, e: Event)
    requires Consistent(b) && !e.isError
    ensures WellFormedBucket(Bump(b, e))
  {
    var r := Bump(b, e);
    assert r.success == b.success + 1 && r.successTypes == Inc(b.successTypes, e.tag);
    assert r.error == b.error && r.errorTypes == b.errorTypes;
    IncTotal(b.successTypes, e.tag);
  }

  /** The loop keeps every bucket well formed. */
  lemma {:induction false} AggregateWellFormed(count: Decision, lines: seq<LogLine>)
    ensures WellFormed(Aggregate(count, lines))
  {
    if |lines| > 0 {
      var init := lines[..|lines| - 1];
      var l := lines[|lines| - 1];
      var d0 := Aggregate(count, init);
      AggregateWellFormed(count, init);
      match count(l.text)
      case None =>
      case Some(e) =>
        var b := BucketOf(d0, l.service, e.hour);
        EmptyConsistent();
        BumpWellFormed(b, e);
        var d := Record(d0, l.service, e);
        assert d == Aggregate(count, lines);
        forall s | s in d
          ensures |d[s]| > 0 && forall h | h in d[s] :: WellFormedBucket(d[s][h])
        {
          if s == l.service {
            assert e.hour in d[s];
            forall h | h in d[s] ensures WellFormedBucket(d[s][h]) {
              if h != e.hour {
                assert d[s][h] == d0[s][h];
              }
            }
          } else {
            assert d[s] == d0[s];
          }
        }
    }
  }

  // ---------------------------------------------------------------- the gate

  /** With both kinds wanted and no filter, exactly the lines that parse,
      lie in the window and are not `Neither` are counted. */
  lemma EveryVerdictCountedWhenUnfiltered(script: Script, req: Request, line: string)
    requires req.logChoice == "3" && req.errorFilter.None? && req.successFilter.None?
    ensures Counted(script, req, line).Some? <==>
      && ParseTimestamp(line).Some?
      && InWindow(ParseTimestamp(line).value, req.start, req.end)
      && !Classify(script, line).Neither?
  {
  }

  /** A window whose start is after its end counts nothing at all. */
  lemma {:induction false} EmptyWindowCountsNothing(script: Script, req: Request, lines: seq<LogLine>)
    requires !NotAfter(req.start, req.end)
    ensures Analyze(script, req, lines) == map[]
  {
    if |lines| > 0 {
      var l := lines[|lines| - 1];
      EmptyWindowCountsNothing(script, req, lines[..|lines| - 1]);
      if ParseTimestamp(l.text).Some? {
        EmptyWindow(ParseTimestamp(l.text).value, req.start, req.end);
      }
      assert Counted(script, req, l.text).None?;
    }
  }
}
