/** The report the analyzers print (log-analyzer.py:190-317,
    log-analysis.py:160-214), as a value: per-service totals and per-tag
    summaries, the overall totals, the error rates as fractions, and the
    number of active services. The scripts walk the keys in sorted order;
    the totals here are sums and do not depend on the order. */
module Report {
  import opened Options
  import opened Sums
  import opened Aggregation
  import opened Classifier

  // ---------------------------------------------------------------- sums over buckets

  /** The pointwise sum of two tag-count maps. */
  function AddCounts(x: map<string, nat>, y: map<string, nat>): (r: map<string, nat>)
    ensures r.Keys == x.Keys + y.Keys
    ensures forall k :: CountOf(r, k) == CountOf(x, k) + CountOf(y, k)
  {
    map k | k in x.Keys + y.Keys :: CountOf(x, k) + CountOf(y, k)
  }

  /** Two records added together: every count of the result is the sum of
      the two counts, including every per-tag count. */
  function Combine(a: BucketStats, b: BucketStats): (r: BucketStats)
    ensures forall m :: Read(r, m) == Read(a, m) + Read(b, m)
  {
    BucketStats(a.success + b.success, a.error + b.error,
                AddCounts(a.successTypes, b.successTypes), AddCounts(a.errorTypes, b.errorTypes))
  }

  /** Measure `m` read off every hour bucket of one service. */
  ghost function HourReads(hours: map<string, BucketStats>, m: Measure): (r: map<string, nat>)
    ensures r.Keys == hours.Keys
    ensures forall h | h in hours :: r[h] == Read(hours[h], m)
  {
    map h | h in hours :: Read(hours[h], m)
  }

  /** The sum of measure `m` over the hour buckets of one service. */
  ghost function HoursTotal(hours: map<string, BucketStats>, m: Measure): nat {
    Total(HourReads(hours, m))
  }

  /** The per-service sums of measure `m`. */
  ghost function ServiceReads(d: Buckets, m: Measure): (r: map<string, nat>)
    ensures r.Keys == d.Keys
    ensures forall s | s in d :: r[s] == HoursTotal(d[s], m)
  {
    map s | s in d :: HoursTotal(d[s], m)
  }

  /** The sum of measure `m` over every bucket of every service. */
  ghost function ServicesTotal(d: Buckets, m: Measure): nat {
    Total(ServiceReads(d, m))
  }

  lemma HoursTotalRemove(hours: map<string, BucketStats>, h: string, m: Measure)
    requires h in hours
    ensures HoursTotal(hours, m) == Read(hours[h], m) + HoursTotal(hours - {h}, m)
  {
    TotalRemove(HourReads(hours, m), h);
    assert HourReads(hours, m) - {h} == HourReads(hours - {h}, m);
  }

  lemma HoursTotalUpdate(hours: map<string, BucketStats>, h: string, b: BucketStats, m: Measure)
    ensures HoursTotal(hours[h := b], m)
      == HoursTotal(hours, m) - (if h in hours then Read(hours[h], m) else 0) + Read(b, m)
  {
    TotalUpdate(HourReads(hours, m), h, Read(b, m));
    HourReadsUpdate(hours, h, b, m);
  }

  lemma HourReadsUpdate(hours: map<string, BucketStats>, h: string, b: BucketStats, m: Measure)
    ensures HourReads(hours, m)[h := Read(b, m)] == HourReads(hours[h := b], m)
  {
    var x, y := HourReads(hours, m)[h := Read(b, m)], HourReads(hours[h := b], m);
    assert x.Keys == y.Keys;
    forall k | k in x ensures x[k] == y[k] {
    }
  }

  lemma HoursTotalEmpty(hours: map<string, BucketStats>, m: Measure)
    requires |hours| == 0
    ensures HoursTotal(hours, m) == 0
  {
    TotalEmpty(HourReads(hours, m));
  }

  lemma ServiceReadsRemove(d: Buckets, s: string, m: Measure)
    ensures ServiceReads(d, m) - {s} == ServiceReads(d - {s}, m)
  {
    var x, y := ServiceReads(d, m) - {s}, ServiceReads(d - {s}, m);
    assert x.Keys == y.Keys;
    forall k | k in x ensures x[k] == y[k] {
      assert (d - {s})[k] == d[k];
    }
  }

  lemma ServiceReadsUpdate(d: Buckets, s: string, hours: map<string, BucketStats>, m: Measure)
    ensures ServiceReads(d, m)[s := HoursTotal(hours, m)] == ServiceReads(d[s := hours], m)
  {
    var x, y := ServiceReads(d, m)[s := HoursTotal(hours, m)], ServiceReads(d[s := hours], m);
    assert x.Keys == y.Keys;
    forall k | k in x ensures x[k] == y[k] {
      if k != s {
        assert d[s := hours][k] == d[k];
      }
    }
  }

  lemma ServicesTotalRemove(d: Buckets, s: string, m: Measure)
    requires s in d
    ensures ServicesTotal(d, m) == HoursTotal(d[s], m) + ServicesTotal(d - {s}, m)
  {
    TotalRemove(ServiceReads(d, m), s);
    ServiceReadsRemove(d, s, m);
  }

  lemma ServicesTotalUpdate(d: Buckets, s: string, hours: map<string, BucketStats>, m: Measure)
    ensures ServicesTotal(d[s := hours], m)
      == ServicesTotal(d, m) - (if s in d then HoursTotal(d[s], m) else 0) + HoursTotal(hours, m)
  {
    TotalUpdate(ServiceReads(d, m), s, HoursTotal(hours, m));
    ServiceReadsUpdate(d, s, hours, m);
  }

  lemma ServicesTotalEmpty(d: Buckets, m: Measure)
    requires |d| == 0
    ensures ServicesTotal(d, m) == 0
  {
    TotalEmpty(ServiceReads(d, m));
  }

  // ---------------------------------------------------------------- the reductions

  /** `service_success`, `service_errors` and the per-tag summaries of one
      service: the sums over its hour buckets. */
  method ServiceTotals(hours: map<string, BucketStats>) returns (t: BucketStats)
    ensures forall m :: Read(t, m) == HoursTotal(hours, m)
  {
    t := EmptyBucket;
    var rest := hours;
    while |rest| > 0
      invariant forall m :: Read(t, m) + HoursTotal(rest, m) == HoursTotal(hours, m)
      decreases |rest|
    {
      var h :| h in rest;
      forall m ensures HoursTotal(rest, m) == Read(rest[h], m) + HoursTotal(rest - {h}, m) {
        HoursTotalRemove(rest, h, m);
      }
      t := Combine(t, rest[h]);
      assert (rest - {h}).Keys == rest.Keys - {h};
      rest := rest - {h};
    }
    forall m ensures HoursTotal(rest, m) == 0 {
      HoursTotalEmpty(rest, m);
    }
  }

  // ---------------------------------------------------------------- totals count lines

  /** The hour buckets of `service`, or none when it never got a bucket. */
  function HoursOf(d: Buckets, service: string): map<string, BucketStats> {
    if service in d then d[service] else map[]
  }

  /** Recording one event adds it to exactly one service's sums. */
  lemma RecordHoursTotal(d: Buckets, service: string, e: Event, m: Measure)
    ensures HoursTotal(Record(d, service, e)[service], m)
      == HoursTotal(HoursOf(d, service), m) + (if Contributes(e, m) then 1 else 0)
    ensures HoursOf(Record(d, service, e), service) == Record(d, service, e)[service]
  {
    var before := HoursOf(d, service);
    var b := Bump(BucketOf(d, service, e.hour), e);
    assert Record(d, service, e)[service] == before[e.hour := b];
    HoursTotalUpdate(before, e.hour, b, m);
  }

  lemma RecordIsUpdate(d: Buckets, service: string, e: Event)
    ensures Record(d, service, e) == d[service := Record(d, service, e)[service]]
  {
    var r := Record(d, service, e);
    assert r.Keys == d[service := r[service]].Keys;
  }

  lemma RecordLeavesOthers(d: Buckets, service: string, e: Event, other: string)
    requires other != service
    ensures HoursOf(Record(d, service, e), other) == HoursOf(d, other)
  {
  }

  /** One iteration of the loop adds the line to its service's sums. */
  lemma StepHoursTotal(count: Decision, d: Buckets, l: LogLine, service: string, m: Measure)
    ensures HoursTotal(HoursOf(Step(count, d, l), service), m)
      == HoursTotal(HoursOf(d, service), m) + HitOf(count, l, InService(service), m)
  {
    match count(l.text)
    case None =>
    case Some(e) =>
      if l.service == service {
        RecordHoursTotal(d, service, e, m);
      } else {
        RecordLeavesOthers(d, l.service, e, service);
      }
  }

  /** Recording one event adds it to the overall sums. */
  lemma RecordServicesTotal(d: Buckets, service: string, e: Event, m: Measure)
    ensures ServicesTotal(Record(d, service, e), m) == ServicesTotal(d, m) + (if Contributes(e, m) then 1 else 0)
  {
    var d' := Record(d, service, e);
    RecordHoursTotal(d, service, e, m);
    RecordIsUpdate(d, service, e);
    ServicesTotalUpdate(d, service, d'[service], m);
    if service !in d {
      HoursTotalEmpty(map[], m);
    }
  }

  /** One iteration of the loop adds the line to the overall sums. */
  lemma StepServicesTotal(count: Decision, d: Buckets, l: LogLine, m: Measure)
    ensures ServicesTotal(Step(count, d, l), m) == ServicesTotal(d, m) + HitOf(count, l, Everywhere, m)
  {
    match count(l.text)
    case None =>
    case Some(e) =>
      RecordServicesTotal(d, l.service, e, m);
  }

  /** A service's summed counts are the number of its lines counted with
      that kind and tag, over all hours. */
  lemma {:induction false} ServiceTotalCountsLines(count: Decision, lines: seq<LogLine>, service: string, m: Measure)
    ensures HoursTotal(HoursOf(Aggregate(count, lines), service), m) == Hits(count, lines, InService(service), m)
  {
    if |lines| == 0 {
      HoursTotalEmpty(map[], m);
    } else {
      var init := lines[..|lines| - 1];
      ServiceTotalCountsLines(count, init, service, m);
      StepHoursTotal(count, Aggregate(count, init), lines[|lines| - 1], service, m);
    }
  }

  /** The overall counts are the number of lines counted with that kind and
      tag, over every service and hour. */
  lemma {:induction false} OverallTotalCountsLines(count: Decision, lines: seq<LogLine>, m: Measure)
    ensures ServicesTotal(Aggregate(count, lines), m) == Hits(count, lines, Everywhere, m)
  {
    if |lines| == 0 {
      ServicesTotalEmpty(map[], m);
    } else {
      var init := lines[..|lines| - 1];
      OverallTotalCountsLines(count, init, m);
      StepServicesTotal(count, Aggregate(count, init), lines[|lines| - 1], m);
    }
  }

  /** No tag is counted more often than its kind, so every per-type
      percentage the analyzer prints is at most 100%. */
  lemma {:induction false} TagCountsWithinKind(count: Decision, lines: seq<LogLine>, scope: Scope, tag: string)
    ensures Hits(count, lines, scope, SuccessesOf(tag)) <= Hits(count, lines, scope, Successes)
    ensures Hits(count, lines, scope, ErrorsOf(tag)) <= Hits(count, lines, scope, Errors)
  {
    if |lines| > 0 {
      TagCountsWithinKind(count, lines[..|lines| - 1], scope, tag);
    }
  }

  // ---------------------------------------------------------------- rates

  /** A percentage kept exact, as the fraction `part / whole`. */
  datatype Rate = Rate(part: nat, whole: nat)

  /** A service's "Error Rate" line: printed only when the service has
      errors, so the division never sees a zero denominator. */
  function ServiceErrorRate(t: BucketStats): (r: Option<Rate>)
    ensures r.Some? <==> t.error > 0
    ensures r.Some? ==> 0 < r.value.part <= r.value.whole
    ensures r.Some? ==> r.value.part == t.error && r.value.whole - r.value.part == t.success
  {
    if t.error > 0 then Some(Rate(t.error, t.success + t.error)) else None
  }

  /** The "Overall Error Rate" line: printed only when something was counted. */
  function OverallErrorRate(t: BucketStats): (r: Option<Rate>)
    ensures r.Some? <==> t.success + t.error > 0
    ensures r.Some? ==> 0 < r.value.whole && r.value.part <= r.value.whole
    ensures r.Some? ==> r.value.part == t.error && r.value.whole - r.value.part == t.success
  {
    if t.success + t.error > 0 then Some(Rate(t.error, t.success + t.error)) else None
  }

  // ---------------------------------------------------------------- the report value

  /** The hours a service section lists: buckets with both counts zero are skipped. */
  function ShownHours(hours: map<string, BucketStats>): (r: map<string, BucketStats>)
    ensures forall h :: h in r <==> h in hours && (hours[h].success > 0 || hours[h].error > 0)
    ensures forall h | h in r :: r[h] == hours[h]
  {
    map h | h in hours && (hours[h].success > 0 || hours[h].error > 0) :: hours[h]
  }

  /** The script adds up "Total Success" and "Total Errors" over the listed
      hours only, and the per-tag summaries over every hour. Skipping
      changes neither sum, so the two readings agree and the totals may be
      taken over every hour. */
  lemma ListedHoursKeepTotals(hours: map<string, BucketStats>)
    ensures HoursTotal(ShownHours(hours), Successes) == HoursTotal(hours, Successes)
    ensures HoursTotal(ShownHours(hours), Errors) == HoursTotal(hours, Errors)
  {
    TotalZeroOutside(HourReads(hours, Successes), HourReads(ShownHours(hours), Successes));
    TotalZeroOutside(HourReads(hours, Errors), HourReads(ShownHours(hours), Errors));
  }

  /** A service has at least one bucket with a non-zero count. */
  predicate Active(hours: map<string, BucketStats>) {
    exists h | h in hours :: hours[h].success > 0 || hours[h].error > 0
  }

  /** The services with at least one non-empty bucket. */
  function ActiveSet(d: Buckets): (r: set<string>)
    ensures forall s :: s in r <==> s in d && Active(d[s])
  {
    set s | s in d && Active(d[s])
  }

  /** The "Active Services" statistic: at most the number of services, and
      equal to it only when every service is active. */
  function ActiveServices(d: Buckets): (n: nat)
    ensures n == |ActiveSet(d)|
    ensures n <= |d|
    ensures n == |d| ==> forall s | s in d :: Active(d[s])
  {
    var active := ActiveSet(d);
    SubsetSize(active, d.Keys);
    if |active| == |d| then
      SameSize(active, d.Keys);
      |active|
    else |active|
  }

  lemma {:induction false} SubsetSize(a: set<string>, b: set<string>)
    requires a <= b
    ensures |a| <= |b|
    decreases |b|
  {
    if b != {} {
      var x :| x in b;
      SubsetSize(a - {x}, b - {x});
    }
  }

  lemma {:induction false} SameSize(a: set<string>, b: set<string>)
    requires a <= b && |a| == |b|
    ensures a == b
    decreases |b|
  {
    if b != {} {
      var x :| x in b;
      if x in a {
        assert |a - {x}| == |a| - 1 && |b - {x}| == |b| - 1;
        SameSize(a - {x}, b - {x});
        assert a == (a - {x}) + {x};
      } else {
        SubsetSize(a, b - {x});
        assert false;
      }
    }
  }

  /** Every bucket of the analyzers' own state counts a line, so none is
      skipped when the hours are listed. */
  lemma ShownWhenWellFormed(hours: map<string, BucketStats>)
    requires forall h | h in hours :: WellFormedBucket(hours[h])
    ensures ShownHours(hours) == hours
  {
    assert ShownHours(hours).Keys == hours.Keys;
  }

  /** Every service of the analyzers' own state is active. */
  lemma AllActive(d: Buckets)
    requires WellFormed(d)
    ensures forall s | s in d :: Active(d[s])
  {
    forall s | s in d ensures Active(d[s]) {
      var h :| h in d[s];
      assert WellFormedBucket(d[s][h]);
    }
  }

  /** When every service is active, all of them are counted. */
  lemma ActiveWhenAllActive(d: Buckets)
    requires forall s | s in d :: Active(d[s])
    ensures ActiveServices(d) == |d|
  {
    assert ActiveSet(d) == d.Keys;
  }

  /** One service section of the report. */
  datatype ServiceSummary = ServiceSummary(shown: map<string, BucketStats>, totals: BucketStats, errorRate: Option<Rate>)

  /** The whole report. */
  datatype Summary = Summary(services: map<string, ServiceSummary>, overall: BucketStats,
                             errorRate: Option<Rate>, activeServices: nat)

  /** `sum` is the section the analyzers print for a service with these buckets. */
  ghost predicate Summarizes(hours: map<string, BucketStats>, sum: ServiceSummary) {
    && sum.shown == ShownHours(hours)
    && (forall m :: Read(sum.totals, m) == HoursTotal(hours, m))
    && sum.errorRate == ServiceErrorRate(sum.totals)
  }

  /** The section of one service: its listed hours, totals and error rate. */
  method ServiceSection(hours: map<string, BucketStats>) returns (section: ServiceSummary)
    ensures Summarizes(hours, section)
  {
    var t := ServiceTotals(hours);
    section := ServiceSummary(ShownHours(hours), t, ServiceErrorRate(t));
  }

  /** The per-service sections of the report. */
  method ServiceSections(d: Buckets) returns (services: map<string, ServiceSummary>)
    ensures services.Keys == d.Keys
    ensures forall s | s in d :: Summarizes(d[s], services[s])
  {
    services := map[];
    var todo := d.Keys;
    while todo != {}
      invariant todo <= d.Keys
      invariant services.Keys == d.Keys - todo
      invariant forall s | s in services :: Summarizes(d[s], services[s])
      decreases todo
    {
      var s :| s in todo;
      var section := ServiceSection(d[s]);
      SectionsStep(d, services, s, section);
      services := services[s := section];
      todo := todo - {s};
    }
  }

  /** Adding one service's section keeps every section faithful. */
  lemma SectionsStep(d: Buckets, services: map<string, ServiceSummary>, s: string, section: ServiceSummary)
    requires s in d && services.Keys <= d.Keys
    requires forall t | t in services :: Summarizes(d[t], services[t])
    requires Summarizes(d[s], section)
    ensures forall t | t in services[s := section] :: Summarizes(d[t], services[s := section][t])
  {
    forall t | t in services[s := section] ensures Summarizes(d[t], services[s := section][t]) {
      if t != s {
        assert services[s := section][t] == services[t];
      }
    }
  }

  /** Adding one service's totals moves that service from the rest into the sum. */
  lemma OverallStep(g: BucketStats, t: BucketStats, rest: Buckets, s: string, d: Buckets)
    requires s in rest
    requires forall m :: Read(g, m) + ServicesTotal(rest, m) == ServicesTotal(d, m)
    requires forall m :: Read(t, m) == HoursTotal(rest[s], m)
    ensures forall m :: Read(Combine(g, t), m) + ServicesTotal(rest - {s}, m) == ServicesTotal(d, m)
  {
    forall m ensures Read(Combine(g, t), m) + ServicesTotal(rest - {s}, m) == ServicesTotal(d, m) {
      ServicesTotalRemove(rest, s, m);
    }
  }

  /** `total_success`, `total_errors` and the overall per-tag summaries:
      the sums of the service totals. */
  method OverallTotals(d: Buckets) returns (g: BucketStats)
    ensures forall m :: Read(g, m) == ServicesTotal(d, m)
  {
    g := EmptyBucket;
    var rest := d;
    while |rest| > 0
      invariant forall m :: Read(g, m) + ServicesTotal(rest, m) == ServicesTotal(d, m)
      decreases |rest|
    {
      var s :| s in rest;
      var t := ServiceTotals(rest[s]);
      OverallStep(g, t, rest, s, d);
      g := Combine(g, t);
      rest := rest - {s};
    }
    forall m ensures ServicesTotal(rest, m) == 0 {
      ServicesTotalEmpty(rest, m);
    }
  }

  /** The whole report of the analyzers' state. */
  method Summarize(d: Buckets) returns (r: Summary)
    ensures r.services.Keys == d.Keys
    ensures forall s | s in d :: Summarizes(d[s], r.services[s])
    ensures forall m :: Read(r.overall, m) == ServicesTotal(d, m)
    ensures r.errorRate == OverallErrorRate(r.overall)
    ensures r.activeServices == ActiveServices(d)
  {
    var services := ServiceSections(d);
    var overall := OverallTotals(d);
    r := Summary(services, overall, OverallErrorRate(overall), ActiveServices(d));
  }

  /** A service appears in the report exactly when at least one of its
      lines was counted. */
  lemma ServiceExistsIffCounted(count: Decision, lines: seq<LogLine>, service: string)
    ensures service in Aggregate(count, lines) <==>
      Hits(count, lines, InService(service), Successes) + Hits(count, lines, InService(service), Errors) > 0
  {
    var d := Aggregate(count, lines);
    ServiceTotalCountsLines(count, lines, service, Successes);
    ServiceTotalCountsLines(count, lines, service, Errors);
    if service in d {
      AggregateWellFormed(count, lines);
      var h :| h in d[service];
      assert WellFormedBucket(d[service][h]);
      if d[service][h].success > 0 {
        TotalPositive(HourReads(d[service], Successes), h);
      } else {
        TotalPositive(HourReads(d[service], Errors), h);
      }
    } else {
      HoursTotalEmpty(map[], Successes);
      HoursTotalEmpty(map[], Errors);
    }
  }

  /** What the report needs of the analyzers' state: its services are
      exactly those with a counted line, all of them active, and none of
      their buckets is skipped when listed. */
  lemma StateFacts(count: Decision, lines: seq<LogLine>)
    ensures var d := Aggregate(count, lines);
      && ActiveServices(d) == |d|
      && (forall s | s in d :: ShownHours(d[s]) == d[s])
      && (forall s :: s in d <==>
            Hits(count, lines, InService(s), Successes) + Hits(count, lines, InService(s), Errors) > 0)
  {
    var d := Aggregate(count, lines);
    AggregateWellFormed(count, lines);
    AllActive(d);
    ActiveWhenAllActive(d);
    forall s | s in d ensures ShownHours(d[s]) == d[s] {
      ShownWhenWellFormed(d[s]);
    }
    forall s ensures s in d <==>
      Hits(count, lines, InService(s), Successes) + Hits(count, lines, InService(s), Errors) > 0
    {
      ServiceExistsIffCounted(count, lines, s);
    }
  }

  /** The loop over the lines and then the report, for any decision of
      which lines count: every number in the report is a count of lines. */
  method AggregateAndSummarize(count: Decision, lines: seq<LogLine>) returns (d: Buckets, r: Summary)
    ensures d == Aggregate(count, lines)
    ensures forall s :: s in r.services <==>
      Hits(count, lines, InService(s), Successes) + Hits(count, lines, InService(s), Errors) > 0
    ensures forall s, m | s in r.services :: Read(r.services[s].totals, m) == Hits(count, lines, InService(s), m)
    ensures forall s | s in r.services :: s in d && r.services[s].shown == d[s]
    ensures forall s, h | s in r.services :: h in r.services[s].shown <==>
      Hits(count, lines, InBucket(s, h), Successes) + Hits(count, lines, InBucket(s, h), Errors) > 0
    ensures forall s, h, m | s in r.services && h in r.services[s].shown ::
      Read(r.services[s].shown[h], m) == Hits(count, lines, InBucket(s, h), m)
    ensures forall s | s in r.services :: r.services[s].errorRate == ServiceErrorRate(r.services[s].totals)
    ensures forall m :: Read(r.overall, m) == Hits(count, lines, Everywhere, m)
    ensures r.errorRate == OverallErrorRate(r.overall)
    ensures forall tag :: Read(r.overall, SuccessesOf(tag)) <= Read(r.overall, Successes)
    ensures forall tag :: Read(r.overall, ErrorsOf(tag)) <= Read(r.overall, Errors)
    ensures r.activeServices == |r.services|
  {
    d := Aggregate(count, lines);
    r := Summarize(d);
    StateFacts(count, lines);
    forall s, h | s in r.services
      ensures h in r.services[s].shown <==>
        Hits(count, lines, InBucket(s, h), Successes) + Hits(count, lines, InBucket(s, h), Errors) > 0
    {
      BucketExistsIffCounted(count, lines, s, h);
    }
    forall s, h, m | s in r.services && h in r.services[s].shown
      ensures Read(r.services[s].shown[h], m) == Hits(count, lines, InBucket(s, h), m)
    {
      BucketsCountLines(count, lines, s, h, m);
    }
    forall s | s in r.services ensures r.services[s].errorRate == ServiceErrorRate(r.services[s].totals) {
      assert Summarizes(d[s], r.services[s]);
    }
    forall s, m | s in r.services
      ensures Read(r.services[s].totals, m) == Hits(count, lines, InService(s), m)
    {
      assert Summarizes(d[s], r.services[s]);
      ServiceTotalCountsLines(count, lines, s, m);
    }
    forall m ensures Read(r.overall, m) == Hits(count, lines, Everywhere, m) {
      OverallTotalCountsLines(count, lines, m);
    }
    forall tag
      ensures Read(r.overall, SuccessesOf(tag)) <= Read(r.overall, Successes)
      ensures Read(r.overall, ErrorsOf(tag)) <= Read(r.overall, Errors)
    {
      TagCountsWithinKind(count, lines, Everywhere, tag);
    }
  }

  /** The analyzers end to end: the report of `script` over the lines of
      every service, under the user's request. */
  method AnalyzeLogs(script: Script, req: Request, lines: seq<LogLine>) returns (d: Buckets, r: Summary)
    ensures d == Analyze(script, req, lines)
    ensures forall s :: s in r.services <==>
      Hits(Decider(script, req), lines, InService(s), Successes) + Hits(Decider(script, req), lines, InService(s), Errors) > 0
    ensures forall s, m | s in r.services :: Read(r.services[s].totals, m) == Hits(Decider(script, req), lines, InService(s), m)
    ensures forall s | s in r.services :: s in d && r.services[s].shown == d[s]
    ensures forall s, h | s in r.services :: h in r.services[s].shown <==>
      Hits(Decider(script, req), lines, InBucket(s, h), Successes) + Hits(Decider(script, req), lines, InBucket(s, h), Errors) > 0
    ensures forall s, h, m | s in r.services && h in r.services[s].shown ::
      Read(r.services[s].shown[h], m) == Hits(Decider(script, req), lines, InBucket(s, h), m)
    ensures forall s | s in r.services :: r.services[s].errorRate == ServiceErrorRate(r.services[s].totals)
    ensures forall m :: Read(r.overall, m) == Hits(Decider(script, req), lines, Everywhere, m)
    ensures r.errorRate == OverallErrorRate(r.overall)
    ensures forall tag :: Read(r.overall, SuccessesOf(tag)) <= Read(r.overall, Successes)
    ensures forall tag :: Read(r.overall, ErrorsOf(tag)) <= Read(r.overall, Errors)
    ensures r.activeServices == |r.services|
  {
    d, r := AggregateAndSummarize(Decider(script, req), lines);
  }
}
