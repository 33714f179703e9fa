/** Timestamps at the head of a log line, their hour-bucket key and the
    inclusive analysis window (log-analyzer.py:29-38,166-169 and the
    identical log-analysis.py:29-38,137-140). */
module Timestamps {
  import opened Options
  import opened Text

  /** A naive `datetime`, down to the microsecond. */
  datatype Timestamp = Timestamp(year: nat, month: nat, day: nat, hour: nat, minute: nat, second: nat, micro: nat)

  predicate IsLeapYear(y: nat) {
    y % 4 == 0 && (y % 100 != 0 || y % 400 == 0)
  }

  function DaysInMonth(y: nat, m: nat): nat {
    if m == 2 then (if IsLeapYear(y) then 29 else 28)
    else if m == 4 || m == 6 || m == 9 || m == 11 then 30
    else 31
  }

  /** The range checks `datetime` applies when `strptime` builds its result. */
  predicate Valid(t: Timestamp) {
    && 1 <= t.year <= 9999
    && 1 <= t.month <= 12
    && 1 <= t.day <= DaysInMonth(t.year, t.month)
    && t.hour < 24
    && t.minute < 60
    && t.second < 60
    && t.micro < 1000000
  }

  // ---------------------------------------------------------------- digits

  function Pow10(n: nat): (p: nat)
    ensures p >= 1
  {
    if n == 0 then 1 else 10 * Pow10(n - 1)
  }

  function DigitValue(c: char): nat
    requires IsDigit(c)
  {
    c as int - '0' as int
  }

  function DigitChar(n: nat): (c: char)
    requires n < 10
    ensures IsDigit(c) && DigitValue(c) == n
  {
    ('0' as int + n) as char
  }

  /** The number a run of decimal digits denotes. */
  function DigitsValue(s: string): (v: nat)
    requires AllDigits(s)
    ensures v < Pow10(|s|)
  {
    if |s| == 0 then 0
    else
      var v := DigitsValue(s[..|s| - 1]);
      assert v * 10 + 9 < Pow10(|s|) by {
        assert v <= Pow10(|s| - 1) - 1;
      }
      v * 10 + DigitValue(s[|s| - 1])
  }

  /** The last `width` decimal digits of `n`, zero-padded: `%04d`, `%02d`. */
  function Digits(n: nat, width: nat): (r: string)
    ensures |r| == width && AllDigits(r)
  {
    if width == 0 then [] else Digits(n / 10, width - 1) + [DigitChar(n % 10)]
  }

  /** Rendering the value of a digit run at the run's width gives the run back. */
  lemma {:induction false} DigitsOfValue(s: string)
    requires AllDigits(s)
    ensures Digits(DigitsValue(s), |s|) == s
  {
    if |s| > 0 {
      var init := s[..|s| - 1];
      var v := DigitsValue(init);
      DigitsOfValue(init);
      assert (v * 10 + DigitValue(s[|s| - 1])) / 10 == v;
      assert (v * 10 + DigitValue(s[|s| - 1])) % 10 == DigitValue(s[|s| - 1]);
      assert s == init + [s[|s| - 1]];
    }
  }

  /** Reading back a zero-padded rendering gives the number, when it fits. */
  lemma {:induction false} ValueOfDigits(n: nat, width: nat)
    requires n < Pow10(width)
    ensures DigitsValue(Digits(n, width)) == n
  {
    if width > 0 {
      var r := Digits(n, width);
      ValueOfDigits(n / 10, width - 1);
      assert r[..|r| - 1] == Digits(n / 10, width - 1);
    }
  }

  // ---------------------------------------------------------------- parsing

  /** The layout of `%Y-%m-%d %H:%M:%S`, read strictly at fixed width. */
  predicate SecondsLayout(s: string) {
    && |s| == 19
    && AllDigits(s[0..4]) && s[4] == '-'
    && AllDigits(s[5..7]) && s[7] == '-'
    && AllDigits(s[8..10]) && s[10] == ' '
    && AllDigits(s[11..13]) && s[13] == ':'
    && AllDigits(s[14..16]) && s[16] == ':'
    && AllDigits(s[17..19])
  }

  /** The fields a `%Y-%m-%d %H:%M:%S` text denotes, before range checks. */
  function FieldsOf(s: string, micro: nat): Timestamp
    requires SecondsLayout(s)
  {
    Timestamp(DigitsValue(s[0..4]), DigitsValue(s[5..7]), DigitsValue(s[8..10]),
              DigitsValue(s[11..13]), DigitsValue(s[14..16]), DigitsValue(s[17..19]), micro)
  }

  /** `datetime.strptime(s, "%Y-%m-%d %H:%M:%S")`, `None` where it raises. */
  function ParseSeconds(s: string): (r: Option<Timestamp>)
    ensures r.Some? ==> Valid(r.value) && r.value.micro == 0
  {
    if SecondsLayout(s) && Valid(FieldsOf(s, 0)) then Some(FieldsOf(s, 0)) else None
  }

  /** `datetime.strptime(s, "%Y-%m-%d %H:%M:%S,%f")` for the three-digit
      fraction the services write; `%f` of "123" is 123000 microseconds. */
  function ParseMillis(s: string): (r: Option<Timestamp>)
    ensures r.Some? ==> Valid(r.value) && r.value.micro % 1000 == 0
  {
    if |s| == 23 && s[19] == ',' && AllDigits(s[20..23]) then
      match ParseSeconds(s[..19])
      case Some(t) => Some(t.(micro := DigitsValue(s[20..23]) * 1000))
      case None => None
    else None
  }

  /** Python's `s[:n]`. */
  function Prefix(s: string, n: nat): (r: string)
    ensures |r| == if |s| < n then |s| else n
    ensures r == s[..|r|]
  {
    if |s| <= n then s else s[..n]
  }

  /** `parse_timestamp`: the 23-character millisecond form, else the
      19-character form, else `None`. It never fails otherwise. */
  function ParseTimestamp(line: string): (r: Option<Timestamp>)
    ensures r.Some? <==> 19 <= |line| && SecondsLayout(line[..19]) && Valid(FieldsOf(line[..19], 0))
    ensures r.Some? ==> Valid(r.value) && r.value == FieldsOf(line[..19], r.value.micro)
    ensures r.Some? ==>
      r.value.micro == if 23 <= |line| && line[19] == ',' && AllDigits(line[20..23]) then DigitsValue(line[20..23]) * 1000 else 0
  {
    var head := Prefix(line, 23);
    assert |head| == 23 ==> head[..19] == line[..19] && head[19] == line[19] && head[20..23] == line[20..23];
    var primary := ParseMillis(head);
    if primary.Some? then primary
    else ParseSeconds(Prefix(line, 19))
  }

  // ---------------------------------------------------------------- rendering

  /** `strftime("%Y-%m-%d %H")`: the date and the hour, zero-padded. */
  function DateHour(t: Timestamp): string {
    Digits(t.year, 4) + "-" + Digits(t.month, 2) + "-" + Digits(t.day, 2) + " " + Digits(t.hour, 2)
  }

  /** `ts.strftime("%Y-%m-%d %H:00")`, the hour bucket a line is counted in. */
  function HourKey(t: Timestamp): string {
    DateHour(t) + ":00"
  }

  /** `strftime("%Y-%m-%d %H:%M:%S")`. */
  function FormatSeconds(t: Timestamp): string {
    DateHour(t) + ":" + Digits(t.minute, 2) + ":" + Digits(t.second, 2)
  }

  /** The stamp the log-producing services put at the head of each line:
      `strftime("%Y-%m-%d %H:%M:%S,%f")[:-3]`, i.e. milliseconds. */
  function ServiceStamp(t: Timestamp): string {
    FormatSeconds(t) + "," + Digits(t.micro / 1000, 3)
  }

  // ---------------------------------------------------------------- ordering

  /** `a <= b` on naive datetimes: field by field, most significant first. */
  predicate NotAfter(a: Timestamp, b: Timestamp) {
    if a.year != b.year then a.year < b.year
    else if a.month != b.month then a.month < b.month
    else if a.day != b.day then a.day < b.day
    else if a.hour != b.hour then a.hour < b.hour
    else if a.minute != b.minute then a.minute < b.minute
    else if a.second != b.second then a.second < b.second
    else a.micro <= b.micro
  }

  /** `start_time <= ts <= end_time`: the window includes both ends. */
  predicate InWindow(t: Timestamp, start: Timestamp, end: Timestamp) {
    NotAfter(start, t) && NotAfter(t, end)
  }

  // ---------------------------------------------------------------- properties

  /** `s` shows the date and hour of `t` where `%Y-%m-%d %H` puts them. */
  predicate ShowsDateHour(s: string, t: Timestamp) {
    && |s| >= 13
    && s[0..4] == Digits(t.year, 4) && s[4] == '-'
    && s[5..7] == Digits(t.month, 2) && s[7] == '-'
    && s[8..10] == Digits(t.day, 2) && s[10] == ' '
    && s[11..13] == Digits(t.hour, 2)
  }

  lemma DateHourShows(t: Timestamp)
    ensures |DateHour(t)| == 13 && ShowsDateHour(DateHour(t), t)
  {
    var k := DateHour(t);
    var y, mo, d, h := Digits(t.year, 4), Digits(t.month, 2), Digits(t.day, 2), Digits(t.hour, 2);
    assert k == y + "-" + mo + "-" + d + " " + h;
    assert k[0..4] == y;
    assert k[5..7] == mo;
    assert k[8..10] == d;
    assert k[11..13] == h;
  }

  /** Any text showing the date and hour of `t` starts with `DateHour(t)`. */
  lemma ShowsDateHourPrefix(s: string, t: Timestamp)
    requires ShowsDateHour(s, t)
    ensures s[..13] == DateHour(t)
  {
    DateHourShows(t);
    var k := DateHour(t);
    forall i | 0 <= i < 13 ensures s[i] == k[i] {
      if i < 4 {
        assert s[i] == s[0..4][i] && k[i] == k[0..4][i];
      } else if 5 <= i < 7 {
        assert s[i] == s[5..7][i - 5] && k[i] == k[5..7][i - 5];
      } else if 8 <= i < 10 {
        assert s[i] == s[8..10][i - 8] && k[i] == k[8..10][i - 8];
      } else if 11 <= i {
        assert s[i] == s[11..13][i - 11] && k[i] == k[11..13][i - 11];
      }
    }
  }

  /** The hour bucket of a parsed line is the line's own first 13 characters
      (`YYYY-MM-DD HH`) followed by ":00": it depends on the date and hour only. */
  lemma HourKeyIsLinePrefix(line: string)
    requires ParseTimestamp(line).Some?
    ensures HourKey(ParseTimestamp(line).value) == line[..13] + ":00"
  {
    var s := line[..19];
    var t := ParseTimestamp(line).value;
    DigitsOfValue(s[0..4]);
    DigitsOfValue(s[5..7]);
    DigitsOfValue(s[8..10]);
    DigitsOfValue(s[11..13]);
    assert line[0..4] == s[0..4] && line[5..7] == s[5..7];
    assert line[8..10] == s[8..10] && line[11..13] == s[11..13];
    ShowsDateHourPrefix(line, t);
  }

  /** Two valid timestamps share an hour bucket exactly when they agree on
      year, month, day and hour. */
  lemma HourKeyInjective(a: Timestamp, b: Timestamp)
    requires Valid(a) && Valid(b)
    ensures HourKey(a) == HourKey(b) <==>
      (a.year, a.month, a.day, a.hour) == (b.year, b.month, b.day, b.hour)
  {
    if HourKey(a) == HourKey(b) {
      DateHourShows(a);
      DateHourShows(b);
      assert DateHour(a) == HourKey(a)[..13] == HourKey(b)[..13] == DateHour(b);
      ValueOfDigits(a.year, 4);
      ValueOfDigits(b.year, 4);
      ValueOfDigits(a.month, 2);
      ValueOfDigits(b.month, 2);
      ValueOfDigits(a.day, 2);
      ValueOfDigits(b.day, 2);
      ValueOfDigits(a.hour, 2);
      ValueOfDigits(b.hour, 2);
    }
  }

  /** Where `%Y-%m-%d %H:%M:%S` puts each field. */
  lemma FormatSecondsShows(t: Timestamp)
    ensures var s := FormatSeconds(t);
      && |s| == 19 && ShowsDateHour(s, t)
      && s[13] == ':' && s[14..16] == Digits(t.minute, 2)
      && s[16] == ':' && s[17..19] == Digits(t.second, 2)
  {
    var s := FormatSeconds(t);
    var k := DateHour(t);
    DateHourShows(t);
    assert s == k + ":" + Digits(t.minute, 2) + ":" + Digits(t.second, 2);
    assert s[..13] == k;
    assert s[0..4] == k[0..4] && s[5..7] == k[5..7] && s[8..10] == k[8..10] && s[11..13] == k[11..13];
  }

  /** Reading back `%Y-%m-%d %H:%M:%S` recovers every field it shows. */
  lemma FormatSecondsLayout(t: Timestamp)
    requires Valid(t)
    ensures SecondsLayout(FormatSeconds(t))
    ensures FieldsOf(FormatSeconds(t), t.micro) == t
  {
    FormatSecondsShows(t);
    ValueOfDigits(t.year, 4);
    ValueOfDigits(t.month, 2);
    ValueOfDigits(t.day, 2);
    ValueOfDigits(t.hour, 2);
    ValueOfDigits(t.minute, 2);
    ValueOfDigits(t.second, 2);
  }

  /** Where the parts of a service stamp sit: 23 characters, the seconds
      form, a comma, then the three millisecond digits. */
  lemma ServiceStampLayout(t: Timestamp)
    ensures |ServiceStamp(t)| == 23
    ensures ServiceStamp(t)[..19] == FormatSeconds(t)
    ensures ServiceStamp(t)[19] == ','
    ensures ServiceStamp(t)[20..23] == Digits(t.micro / 1000, 3)
  {
    DateHourShows(t);
  }

  /** Every line a service writes parses by the primary format, back to its
      stamp's time truncated to the millisecond, whatever follows the stamp. */
  lemma ServiceStampRoundTrip(t: Timestamp, rest: string)
    requires Valid(t)
    ensures ParseTimestamp(ServiceStamp(t) + rest) == Some(t.(micro := t.micro / 1000 * 1000))
  {
    var line := ServiceStamp(t) + rest;
    var head := Prefix(line, 23);
    FormatSecondsLayout(t);
    assert head == ServiceStamp(t);
    assert head[..19] == FormatSeconds(t);
    assert head[20..23] == Digits(t.micro / 1000, 3);
    ValueOfDigits(t.micro / 1000, 3);
    assert FieldsOf(head[..19], 0) == t.(micro := 0);
  }

  /** A second-resolution stamp not followed by `,ddd` parses by the
      fallback format, with no fraction. */
  lemma SecondsStampFallback(t: Timestamp, rest: string)
    requires Valid(t)
    requires !(|rest| >= 4 && rest[0] == ',' && AllDigits(rest[1..4]))
    ensures ParseTimestamp(FormatSeconds(t) + rest) == Some(t.(micro := 0))
  {
    var line := FormatSeconds(t) + rest;
    FormatSecondsLayout(t);
    var head := Prefix(line, 23);
    if |head| == 23 {
      assert head[19] == rest[0] && head[20..23] == rest[1..4];
    }
    assert ParseMillis(head).None?;
    assert Prefix(line, 19) == FormatSeconds(t);
    assert FieldsOf(FormatSeconds(t), 0) == t.(micro := 0);
  }

  /** `<=` on timestamps is a total order. */
  lemma NotAfterTotalOrder(a: Timestamp, b: Timestamp, c: Timestamp)
    ensures NotAfter(a, a)
    ensures NotAfter(a, b) || NotAfter(b, a)
    ensures NotAfter(a, b) && NotAfter(b, a) ==> a == b
    ensures NotAfter(a, b) && NotAfter(b, c) ==> NotAfter(a, c)
  {
  }

  /** A window whose start is after its end contains nothing, so such a
      request counts no line at all. */
  lemma EmptyWindow(t: Timestamp, start: Timestamp, end: Timestamp)
    requires !NotAfter(start, end)
    ensures !InWindow(t, start, end)
  {
    if InWindow(t, start, end) {
      NotAfterTotalOrder(start, t, end);
    }
  }
}
