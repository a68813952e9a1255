/**
 * Timestamp reconstruction: the `dd/mm/yyyy` date grammar of
 * `strptime(..., "%d/%m/%Y")`, the `h:mm:ss[:f]` time grammar, the
 * one-field "date time" layout, and an exact millisecond clock built on
 * proleptic Gregorian day ordinals (Python's `date.toordinal`).
 */
module Timestamps {
  import opened Wrappers
  import opened Text
  import opened ParseErrors

  datatype Date = Date(year: int, month: int, day: int)
  datatype Time = Time(hour: int, minute: int, second: int, milli: int)
  datatype Timestamp = Timestamp(date: Date, time: Time)

  predicate IsLeap(y: int) {
    y % 4 == 0 && (y % 100 != 0 || y % 400 == 0)
  }

  function DaysInMonth(y: int, m: int): (n: int)
    requires 1 <= m <= 12
    ensures 28 <= n <= 31
  {
    if m == 2 then (if IsLeap(y) then 29 else 28)
    else if m == 4 || m == 6 || m == 9 || m == 11 then 30
    else 31
  }

  predicate ValidDate(d: Date) {
    1 <= d.year <= 9999 && 1 <= d.month <= 12 && 1 <= d.day <= DaysInMonth(d.year, d.month)
  }

  predicate ValidTime(t: Time) {
    0 <= t.hour <= 23 && 0 <= t.minute <= 59 && 0 <= t.second <= 59 && 0 <= t.milli <= 999
  }

  /** Days in the years before `y` (Python's `_days_before_year`). */
  function DaysBeforeYear(y: int): int
    requires y >= 1
  {
    var p := y - 1;
    p * 365 + p / 4 - p / 100 + p / 400
  }

  /** Days in the months of year `y` before month `m`. */
  function DaysBeforeMonth(y: int, m: int): int
    requires 1 <= m <= 12
  {
    if m == 1 then 0 else DaysBeforeMonth(y, m - 1) + DaysInMonth(y, m - 1)
  }

  /** Python `date.toordinal()`: 1 January of year 1 is day 1. */
  function Ordinal(d: Date): int
    requires ValidDate(d)
  {
    DaysBeforeYear(d.year) + DaysBeforeMonth(d.year, d.month) + d.day
  }

  const MillisPerDay: int := 86_400_000

  function MillisOfDay(t: Time): int {
    ((t.hour * 60 + t.minute) * 60 + t.second) * 1000 + t.milli
  }

  /** The instant of a timestamp in whole milliseconds. */
  function Millis(ts: Timestamp): int
    requires ValidDate(ts.date)
  {
    Ordinal(ts.date) * MillisPerDay + MillisOfDay(ts.time)
  }

  /** The calendar day after `d`. */
  function NextDay(d: Date): Date
    requires ValidDate(d)
  {
    if d.day < DaysInMonth(d.year, d.month) then Date(d.year, d.month, d.day + 1)
    else if d.month < 12 then Date(d.year, d.month + 1, 1)
    else Date(d.year + 1, 1, 1)
  }

  lemma DaysBeforeDecember(y: int)
    ensures DaysBeforeMonth(y, 12) == 334 + (if IsLeap(y) then 1 else 0)
  {
    var leap := if IsLeap(y) then 1 else 0;
    assert DaysBeforeMonth(y, 2) == 31;
    assert DaysBeforeMonth(y, 3) == 59 + leap;
    assert DaysBeforeMonth(y, 4) == 90 + leap;
    assert DaysBeforeMonth(y, 5) == 120 + leap;
    assert DaysBeforeMonth(y, 6) == 151 + leap;
    assert DaysBeforeMonth(y, 7) == 181 + leap;
    assert DaysBeforeMonth(y, 8) == 212 + leap;
    assert DaysBeforeMonth(y, 9) == 243 + leap;
    assert DaysBeforeMonth(y, 10) == 273 + leap;
    assert DaysBeforeMonth(y, 11) == 304 + leap;
  }

  /** A year has 365 days, or 366 when it is a leap year. */
  /** How the leap-year counts grow from `y - 1` to `y`. */
  lemma LeapCountsStep(y: int)
    ensures y / 4 == (y - 1) / 4 + (if y % 4 == 0 then 1 else 0)
    ensures y / 100 == (y - 1) / 100 + (if y % 100 == 0 then 1 else 0)
    ensures y / 400 == (y - 1) / 400 + (if y % 400 == 0 then 1 else 0)
    ensures y % 400 == 0 ==> y % 100 == 0
    ensures y % 100 == 0 ==> y % 4 == 0
  {
  }

  lemma YearLength(y: int)
    requires y >= 1
    ensures DaysBeforeYear(y + 1) == DaysBeforeYear(y) + (if IsLeap(y) then 366 else 365)
  {
    LeapCountsStep(y);
  }

  /** Ordinals count days without gaps: the next calendar day is the next
      ordinal, across month and year ends. */
  lemma NextDayOrdinal(d: Date)
    requires ValidDate(d) && d.year < 9999
    ensures ValidDate(NextDay(d)) && Ordinal(NextDay(d)) == Ordinal(d) + 1
  {
    if d.day == DaysInMonth(d.year, d.month) && d.month == 12 {
      YearLength(d.year);
      DaysBeforeDecember(d.year);
    }
  }

  /** The clock is exact across midnight: the last millisecond of a day and
      the first of the next are one millisecond apart. */
  lemma MidnightIsOneMilli(d: Date)
    requires ValidDate(d) && d.year < 9999
    ensures Millis(Timestamp(NextDay(d), Time(0, 0, 0, 0))) ==
            Millis(Timestamp(d, Time(23, 59, 59, 999))) + 1
  {
    NextDayOrdinal(d);
  }

  /** A single date field of `%d` or `%m`: one or two digits. */
  predicate ShortField(f: string) {
    1 <= |f| <= 2 && AllDigits(f)
  }

  /** The pieces `dd`, `mm` and `yyyy` of `%d/%m/%Y`. */
  predicate DatePieces(p: seq<string>) {
    |p| == 3 && ShortField(p[0]) && ShortField(p[1]) && |p[2]| == 4 && AllDigits(p[2])
  }

  /** `datetime.strptime(s.strip(), "%d/%m/%Y").date()`: a day of value 1..31 and a
      month of value 1..12 written with one or two digits, a four-digit year, and
      the combination must be a real calendar day. */
  function ParseDate(s: string): (r: Option<Date>)
    ensures r.Some? ==> ValidDate(r.value)
  {
    var p := Split(Strip(s), '/');
    if DatePieces(p) then
      var d := Date(DigitsValue(p[2]), DigitsValue(p[1]), DigitsValue(p[0]));
      if 1 <= d.month <= 12 && 1 <= d.day <= 31 && ValidDate(d) then Some(d) else None
    else None
  }

  /** The text of a date built from its pieces. */
  function DateText(dd: string, mm: string, yyyy: string): string {
    Join([dd, mm, yyyy], '/')
  }

  /** The date grammar accepts every `dd/mm/yyyy` text that names a real
      calendar day, reading the first field as the day and the second as the
      month. */
  lemma ParseDateAccepts(dd: string, mm: string, yyyy: string)
    requires DatePieces([dd, mm, yyyy])
    requires ValidDate(Date(DigitsValue(yyyy), DigitsValue(mm), DigitsValue(dd)))
    ensures DateText(dd, mm, yyyy) == dd + "/" + mm + "/" + yyyy
    ensures ParseDate(DateText(dd, mm, yyyy)) == Some(Date(DigitsValue(yyyy), DigitsValue(mm), DigitsValue(dd)))
  {
    DateTextSplits(dd, mm, yyyy);
  }

  /** A date text is its own stripped form, and splits back into its pieces. */
  lemma DateTextSplits(dd: string, mm: string, yyyy: string)
    requires DatePieces([dd, mm, yyyy])
    ensures DateText(dd, mm, yyyy) == dd + "/" + mm + "/" + yyyy
    ensures Split(Strip(DateText(dd, mm, yyyy)), '/') == [dd, mm, yyyy]
  {
    var p := [dd, mm, yyyy];
    DateTextShape(dd, mm, yyyy);
    DigitsLackNonDigit(dd, '/');
    DigitsLackNonDigit(mm, '/');
    DigitsLackNonDigit(yyyy, '/');
    assert forall i :: 0 <= i < |p| ==> '/' !in p[i];
    SplitJoin(p, '/');
    DateTextStripped(dd, mm, yyyy);
  }

  lemma DateTextStripped(dd: string, mm: string, yyyy: string)
    requires DatePieces([dd, mm, yyyy])
    ensures Strip(DateText(dd, mm, yyyy)) == DateText(dd, mm, yyyy)
  {
    var s := DateText(dd, mm, yyyy);
    DateTextShape(dd, mm, yyyy);
    assert s[0] == dd[0] && s[|s| - 1] == yyyy[3];
    assert IsDigit(dd[0]) && IsDigit(yyyy[3]);
    StripUnchanged(s);
  }

  lemma DateTextShape(dd: string, mm: string, yyyy: string)
    ensures DateText(dd, mm, yyyy) == dd + "/" + mm + "/" + yyyy
  {
    var p := [dd, mm, yyyy];
    assert p[1..] == [mm, yyyy] && p[1..][1..] == [yyyy];
    assert Join(p[1..], '/') == mm + ['/'] + yyyy;
    assert DateText(dd, mm, yyyy) == dd + ['/'] + (mm + ['/'] + yyyy);
  }

  /** Only such texts are accepted: an accepted date is, after stripping, its
      three pieces joined by slashes, day first, then month, then year. */
  lemma ParseDateOnlyGrammar(s: string)
    requires ParseDate(s).Some?
    ensures var p := Split(Strip(s), '/');
      && DatePieces(p) && Strip(s) == DateText(p[0], p[1], p[2])
      && ParseDate(s).value == Date(DigitsValue(p[2]), DigitsValue(p[1]), DigitsValue(p[0]))
  {
    var p := Split(Strip(s), '/');
    JoinSplit(Strip(s), '/');
    assert p == [p[0], p[1], p[2]];
  }

  /** The pieces `h`, `mm`, `ss` and the optional `f` of `^(\d{1,2}):(\d{2}):(\d{2})(?::(\d{1,3}))?$`. */
  predicate TimePieces(p: seq<string>) {
    && (|p| == 3 || |p| == 4)
    && 1 <= |p[0]| <= 2 && AllDigits(p[0])
    && |p[1]| == 2 && AllDigits(p[1])
    && |p[2]| == 2 && AllDigits(p[2])
    && (|p| == 4 ==> 1 <= |p[3]| <= 3 && AllDigits(p[3]))
  }

  /** The time half of `_parse_timestamp`: the regular expression, then
      `datetime.time`'s range checks. The optional fourth group is read as a
      count of milliseconds exactly as written, so ":7" is 7 ms. */
  function ParseTime(s: string): (r: Result<Time, ParseError>)
    ensures r.Success? ==> ValidTime(r.value)
    ensures r.Failure? ==> r.error == BadTime(s) || r.error == TimeOutOfRange(s)
  {
    var p := Split(Strip(s), ':');
    if TimePieces(p) then
      var t := Time(DigitsValue(p[0]), DigitsValue(p[1]), DigitsValue(p[2]),
                    if |p| == 4 then DigitsValue(p[3]) else 0);
      assert t.milli <= 999 by {
        if |p| == 4 { DigitsBound(p[3]); }
      }
      if t.hour <= 23 && t.minute <= 59 && t.second <= 59 then Success(t)
      else Failure(TimeOutOfRange(s))
    else Failure(BadTime(s))
  }

  /** A value written with k digits is below 10^k (here, k <= 3). */
  lemma {:induction false} DigitsBound(s: string)
    requires AllDigits(s) && |s| <= 3
    ensures DigitsValue(s) < (if |s| == 0 then 1 else if |s| == 1 then 10 else if |s| == 2 then 100 else 1000)
    decreases |s|
  {
    if s != [] {
      DigitsBound(s[..|s| - 1]);
    }
  }

  /** `_parse_timestamp(date_s, time_s)`: the date is read first, so a bad date
      is reported even when the time is bad too. */
  function ParseTimestamp(dateS: string, timeS: string): (r: Result<Timestamp, ParseError>)
    ensures r.Success? ==> ValidDate(r.value.date) && ValidTime(r.value.time)
    ensures r.Success? <==> ParseDate(dateS).Some? && ParseTime(timeS).Success?
    ensures r.Success? ==> r.value == Timestamp(ParseDate(dateS).value, ParseTime(timeS).value)
    ensures ParseDate(dateS).None? ==> r == Failure(BadDate(Strip(dateS)))
    ensures ParseDate(dateS).Some? && ParseTime(timeS).Failure? ==> r == Failure(ParseTime(timeS).error)
  {
    match ParseDate(dateS)
    case None => Failure(BadDate(Strip(dateS)))
    case Some(d) =>
      match ParseTime(timeS)
      case Failure(e) => Failure(e)
      case Success(t) => Success(Timestamp(d, t))
  }

  /** `_parse_timestamp_one_field(s)`: "date time" split at the first space of the
      stripped text; no space at all is an error naming the text. */
  function ParseTimestampOneField(s: string): (r: Result<Timestamp, ParseError>)
    ensures ' ' !in Strip(s) ==> r == Failure(BadDateTime(s))
  {
    var t := Strip(s);
    if ' ' !in t then Failure(BadDateTime(s))
    else
      var k := IndexOf(t, ' ');
      ParseTimestamp(t[..k], t[k + 1..])
  }

  /** The text of a time built from its pieces. */
  function TimeText(p: seq<string>): string {
    Join(p, ':')
  }

  /** The grammar accepts every well-formed time in range and reads its fields
      as written. */
  lemma ParseTimeAccepts(p: seq<string>)
    requires TimePieces(p)
    requires DigitsValue(p[0]) <= 23 && DigitsValue(p[1]) <= 59 && DigitsValue(p[2]) <= 59
    ensures ParseTime(TimeText(p)) ==
      Success(Time(DigitsValue(p[0]), DigitsValue(p[1]), DigitsValue(p[2]),
                   if |p| == 4 then DigitsValue(p[3]) else 0))
  {
    var s := TimeText(p);
    PiecesHaveNoSeparator(p);
    SplitJoin(p, ':');
    JoinedDigitsStripped(p);
  }

  /** Only well-formed times are accepted: an accepted time is, after
      stripping, the pieces of the grammar joined by colons, with values in range. */
  lemma ParseTimeOnlyGrammar(s: string)
    requires ParseTime(s).Success?
    ensures var p := Split(Strip(s), ':');
      TimePieces(p) && Strip(s) == TimeText(p) &&
      ParseTime(s).value.hour == DigitsValue(p[0]) <= 23 &&
      ParseTime(s).value.minute == DigitsValue(p[1]) <= 59 &&
      ParseTime(s).value.second == DigitsValue(p[2]) <= 59
  {
    JoinSplit(Strip(s), ':');
  }

  lemma PiecesHaveNoSeparator(p: seq<string>)
    requires TimePieces(p)
    ensures forall i :: 0 <= i < |p| ==> ':' !in p[i]
  {
    forall i | 0 <= i < |p| ensures ':' !in p[i] {
      DigitsLackNonDigit(p[i], ':');
    }
  }

  lemma DigitsLackNonDigit(s: string, c: char)
    requires AllDigits(s) && !IsDigit(c)
    ensures c !in s
  {
    forall k | 0 <= k < |s| ensures s[k] != c {
      assert IsDigit(s[k]);
    }
  }

  /** A colon-joined run of digit pieces has no whitespace at either end. */
  lemma JoinedDigitsStripped(p: seq<string>)
    requires TimePieces(p)
    ensures Strip(TimeText(p)) == TimeText(p)
  {
    var s := TimeText(p);
    assert p[1..][0] == p[1] && p[1..][1..] == p[2..];
    assert p[2..][0] == p[2];
    assert Join(p[2..], ':') == p[2] + (if |p| == 4 then [':'] + p[3] else []) by {
      if |p| == 4 {
        assert p[2..][1..] == [p[3]];
      }
    }
    assert Join(p[1..], ':') == p[1] + [':'] + Join(p[2..], ':');
    assert s == p[0] + [':'] + Join(p[1..], ':');
    assert s[0] == p[0][0];
    assert s[|s| - 1] == p[|p| - 1][|p[|p| - 1]| - 1];
    StripUnchanged(s);
  }

  /** A single-digit fraction means that many milliseconds: "14:30:21:7" is 7 ms. */
  lemma ShortFractionIsMillis()
    ensures ParseTime("14:30:21:7") == Success(Time(14, 30, 21, 7))
  {
    var p := ["14", "30", "21", "7"];
    assert TimeText(p) == "14:30:21:7" by {
      assert p[1..] == ["30", "21", "7"] && p[2..] == ["21", "7"] && p[3..] == ["7"];
    }
    assert DigitsValue("14") == 14 && DigitsValue("30") == 30;
    assert DigitsValue("21") == 21 && DigitsValue("7") == 7;
    ParseTimeAccepts(p);
  }

  /** The comma layout's combined field reads the same timestamp as the tab
      layout's two fields, whenever the date holds no whitespace and the time
      does not end in whitespace. */
  lemma OneFieldAgreesWithTwoFields(date: string, time: string)
    requires date != [] && forall i :: 0 <= i < |date| ==> !IsSpace(date[i])
    requires time != [] && !IsSpace(time[|time| - 1])
    ensures ParseTimestampOneField(date + " " + time) == ParseTimestamp(date, time)
  {
    var s := date + " " + time;
    assert s[0] == date[0];
    assert s[|s| - 1] == time[|time| - 1];
    StripUnchanged(s);
    assert s[|date|] == ' ';
    assert ' ' !in date by {
      forall k | 0 <= k < |date| ensures date[k] != ' ' {
        assert !IsSpace(date[k]);
      }
    }
    assert s[..|date|] == date;
    IndexOfIs(s, ' ', |date|);
    assert s[|date| + 1..] == time;
  }
}
