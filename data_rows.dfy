/**
 * The data table of the logger export and the whole parse of
 * `parse_logger_csv`: every line after the data header is either skipped,
 * read into a timestamped Reading, or (for a malformed timestamp) fatal.
 * `float(v)` is the parameter `num`: the model does not fix Python's float
 * grammar, only where a reading comes from and what happens when it fails.
 */
module DataRows {
  import opened Wrappers
  import opened Text
  import opened ParseErrors
  import opened Timestamps
  import opened LoggerFormat

  /** `float(v)`: `None` is the `ValueError` case. */
  type NumberParser = string -> Option<real>

  /** One data row: scan number, the date and time it was taken, minutes since
      the first row, and the readings of the channels that had one. */
  datatype Reading = Reading(scan: int, date: Date, time: Time, elapsed: real, values: map<int, real>)

  datatype ParsedLoggerFile = ParsedLoggerFile(metadata: map<string, string>, channels: seq<int>, rows: seq<Reading>)

  function TimestampOf(r: Reading): Timestamp {
    Timestamp(r.date, r.time)
  }

  predicate IsInstant(ts: Timestamp) {
    ValidDate(ts.date) && ValidTime(ts.time)
  }

  /** A timestamp the parser can produce: a real calendar date and time. */
  type Instant = ts: Timestamp | IsInstant(ts) witness Timestamp(Date(1, 1, 1), Time(0, 0, 0, 0))

  const MillisPerMinute: real := 60000.0

  /** `(ts - first_ts).total_seconds() / 60.0`, computed exactly. */
  function ElapsedMinutes(first: Instant, ts: Instant): real {
    (Millis(ts) - Millis(first)) as real / MillisPerMinute
  }

  // ---------------------------------------------------------------------
  // Channel readings of one row
  // ---------------------------------------------------------------------

  /** The field that holds the reading of channel position `ci`: channels come
      in (value, alarm) pairs after the `start` leading fields. */
  function ValueIndex(start: nat, ci: nat): nat {
    start + 2 * ci
  }

  /** The reading in field `idx`, if the field exists, is not blank and parses. */
  function ReadingAt(parts: seq<string>, idx: nat, num: NumberParser): Option<real> {
    if idx < |parts| && parts[idx] != "" then num(parts[idx]) else None
  }

  /** The `values` dict of a row: channel by channel, in channel order, the
      reading of each channel whose field has one (a later duplicate id wins). */
  function ReadValues(parts: seq<string>, start: nat, chs: seq<int>, num: NumberParser): map<int, real>
    decreases |chs|
  {
    if chs == [] then map[]
    else
      var m := ReadValues(parts, start, chs[..|chs| - 1], num);
      match ReadingAt(parts, ValueIndex(start, |chs| - 1), num)
      case Some(v) => m[chs[|chs| - 1] := v]
      case None => m
  }

  lemma ReadValuesSnoc(parts: seq<string>, start: nat, chs: seq<int>, k: nat, num: NumberParser)
    requires k < |chs|
    ensures var o := ReadingAt(parts, ValueIndex(start, k), num);
      ReadValues(parts, start, chs[..k + 1], num) ==
        if o.Some? then ReadValues(parts, start, chs[..k], num)[chs[k] := o.value]
        else ReadValues(parts, start, chs[..k], num)
  {
    assert chs[..k + 1][..k] == chs[..k];
  }

  /** Once a channel's field lies past the end of the row, no later channel
      reads anything: the loop's `break` loses nothing. */
  lemma {:induction false} ReadValuesTruncated(parts: seq<string>, start: nat, chs: seq<int>, k: nat, num: NumberParser)
    requires k <= |chs| && ValueIndex(start, k) >= |parts|
    ensures ReadValues(parts, start, chs, num) == ReadValues(parts, start, chs[..k], num)
    decreases |chs|
  {
    if k < |chs| {
      var p := chs[..|chs| - 1];
      assert p[..k] == chs[..k];
      ReadValuesTruncated(parts, start, p, k, num);
    } else {
      assert chs[..k] == chs;
    }
  }

  /** The keys are channel ids. */
  lemma {:induction false} ReadValuesKeys(parts: seq<string>, start: nat, chs: seq<int>, num: NumberParser)
    ensures forall c :: c in ReadValues(parts, start, chs, num) ==> c in chs
    decreases |chs|
  {
    if chs != [] {
      var p := chs[..|chs| - 1];
      ReadValuesKeys(parts, start, p, num);
      assert forall c :: c in p ==> c in chs;
    }
  }

  predicate Distinct(chs: seq<int>) {
    forall i, j :: 0 <= i < j < |chs| ==> chs[i] != chs[j]
  }

  /** With distinct channel ids, channel position `ci` has a value exactly
      when its field `start + 2*ci` exists, is not blank and parses, and the
      value is that parse; in particular a channel past the end of the row
      is absent. */
  lemma {:induction false} ReadValuesAt(parts: seq<string>, start: nat, chs: seq<int>, ci: nat, num: NumberParser)
    requires Distinct(chs) && ci < |chs|
    ensures var m := ReadValues(parts, start, chs, num);
      var o := ReadingAt(parts, ValueIndex(start, ci), num);
      (chs[ci] in m <==> o.Some?) && (o.Some? ==> m[chs[ci]] == o.value)
    decreases |chs|
  {
    var p := chs[..|chs| - 1];
    if ci < |chs| - 1 {
      assert p[ci] == chs[ci];
      assert chs[|chs| - 1] != chs[ci];
      ReadValuesAt(parts, start, p, ci, num);
    } else {
      ReadValuesKeys(parts, start, p, num);
      assert chs[ci] !in p by {
        forall j | 0 <= j < |p| ensures p[j] != chs[ci] {
          assert p[j] == chs[j];
        }
      }
    }
  }

  /** The inner loop of `parse_logger_csv`: read every channel's value
      column, stopping at the end of the row. */
  method ReadRowValues(parts: seq<string>, start: nat, chs: seq<int>, num: NumberParser) returns (values: map<int, real>)
    ensures values == ReadValues(parts, start, chs, num)
  {
    values := map[];
    var ci := 0;
    while ci < |chs|
      invariant ci <= |chs|
      invariant values == ReadValues(parts, start, chs[..ci], num)
    {
      var vIdx := start + ci * 2;
      if vIdx >= |parts| {
        ReadValuesTruncated(parts, start, chs, ci, num);
        return;
      }
      ReadValuesSnoc(parts, start, chs, ci, num);
      var v := parts[vIdx];
      if v != "" {
        var f := num(v);
        if f.Some? {
          values := values[chs[ci] := f.value];
        }
      }
      ci := ci + 1;
    }
    assert chs[..|chs|] == chs;
  }

  // ---------------------------------------------------------------------
  // One data line
  // ---------------------------------------------------------------------

  /** What a data line yields: nothing, a row, or a fatal timestamp error. */
  datatype LineOutcome = Skip | Row(scan: int, ts: Instant, values: map<int, real>) | Fatal(error: ParseError)

  /** A line whose first two fields restate the data header: the first
      starts with "scan" and the second contains "time", ignoring case. */
  predicate IsRepeatedHeader(parts: seq<string>) {
    |parts| > 1 && StartsWith(Lower(parts[0]), "scan") && Contains(Lower(parts[1]), "time")
  }

  /** The fields before the first channel: scan, date, time (tab layout) or
      scan, "date time" (comma layout). */
  function DataStart(d: Delim): nat {
    if d == Tab then 3 else 2
  }

  /** The body of the row loop of `parse_logger_csv`. */
  function ClassifyLine(line: string, d: Delim, chs: seq<int>, num: NumberParser): (r: LineOutcome)
  {
    if Strip(line) == "" then Skip
    else
      var parts := SplitFields(line, d);
      if |parts| < 3 || IsRepeatedHeader(parts) then Skip
      else match ParseInt(parts[0])
        case None => Skip
        case Some(scan) =>
          if d == Tab && |parts| < 4 then Skip
          else
            var ts := if d == Tab then ParseTimestamp(parts[1], parts[2]) else ParseTimestampOneField(parts[1]);
            match ts
            case Failure(e) => Fatal(e)
            case Success(t) => Row(scan, t, ReadValues(parts, DataStart(d), chs, num))
  }

  /** The skip rules: blank lines, lines of fewer than three fields, restated
      headers, lines whose scan is not an integer and, in the tab layout,
      lines of fewer than four fields are skipped. Every other line is read
      for its timestamp, from the date and time fields (tab layout) or the
      combined second field (comma layout): the line is fatal exactly when
      that timestamp fails, with its error, and otherwise a row with that
      timestamp whose scan is the integer of its first field. */
  lemma SkipRules(line: string, d: Delim, chs: seq<int>, num: NumberParser)
    ensures var parts := SplitFields(line, d);
      ClassifyLine(line, d, chs, num) == Skip <==>
        Strip(line) == "" || |parts| < 3 || IsRepeatedHeader(parts) || ParseInt(parts[0]).None? ||
        (d == Tab && |parts| < 4)
    ensures var parts := SplitFields(line, d);
      var o := ClassifyLine(line, d, chs, num);
      o != Skip ==>
        var ts := if d == Tab then ParseTimestamp(parts[1], parts[2]) else ParseTimestampOneField(parts[1]);
        && (o.Fatal? <==> ts.Failure?)
        && (o.Fatal? ==> o.error == ts.error)
        && (o.Row? ==> o.ts == ts.value)
    ensures var parts := SplitFields(line, d);
      ClassifyLine(line, d, chs, num).Row? ==>
        ParseInt(parts[0]) == Some(ClassifyLine(line, d, chs, num).scan) &&
        ClassifyLine(line, d, chs, num).values == ReadValues(parts, DataStart(d), chs, num)
  {
  }

  /** `ParseRow` returns what `ClassifyLine` says: one iteration of the row loop. */
  method ParseRow(line: string, d: Delim, chs: seq<int>, num: NumberParser) returns (r: LineOutcome)
    ensures r == ClassifyLine(line, d, chs, num)
  {
    if Strip(line) == "" {
      return Skip;
    }
    var parts := SplitFields(line, d);
    if |parts| < 3 {
      return Skip;
    }
    if StartsWith(Lower(parts[0]), "scan") && Contains(Lower(parts[1]), "time") {
      return Skip;
    }
    var scan := ParseInt(parts[0]);
    if scan.None? {
      return Skip;
    }
    var ts: Result<Timestamp, ParseError>;
    var dataStartIdx: nat;
    if d == Tab {
      if |parts| < 4 {
        return Skip;
      }
      ts := ParseTimestamp(parts[1], parts[2]);
      dataStartIdx := 3;
    } else {
      ts := ParseTimestampOneField(parts[1]);
      dataStartIdx := 2;
    }
    if ts.Failure? {
      return Fatal(ts.error);
    }
    var values := ReadRowValues(parts, dataStartIdx, chs, num);
    return Row(scan.value, ts.value, values);
  }

  // ---------------------------------------------------------------------
  // The row loop
  // ---------------------------------------------------------------------

  /** What the row loop has built so far: the rows, and the first row's
      timestamp once there is one. */
  datatype RowState = RowState(rows: seq<Reading>, first: Option<Instant>)

  /** The elapsed-time invariant of the loop: no rows and no first timestamp,
      or the first timestamp is that of row 0 and every row's elapsed time is
      its own timestamp minus the first. */
  predicate Consistent(st: RowState) {
    && (st.rows == [] <==> st.first.None?)
    && (forall i :: 0 <= i < |st.rows| ==> IsInstant(TimestampOf(st.rows[i])))
    && (st.rows != [] ==>
         && st.first == Some(TimestampOf(st.rows[0]))
         && forall i :: 0 <= i < |st.rows| ==>
              st.rows[i].elapsed == ElapsedMinutes(st.first.value, TimestampOf(st.rows[i])))
  }

  /** A row appended to the state: the first row fixes `first_ts`, and the
      row's elapsed time is measured from it. */
  function Advance(st: RowState, scan: int, ts: Instant, values: map<int, real>): RowState {
    var first := if st.first.Some? then st.first.value else ts;
    RowState(st.rows + [Reading(scan, ts.date, ts.time, ElapsedMinutes(first, ts), values)], Some(first))
  }

  /** Appending a row keeps the elapsed-time invariant and the rows before it. */
  lemma AdvanceConsistent(st: RowState, scan: int, ts: Instant, values: map<int, real>)
    requires Consistent(st)
    ensures var next := Advance(st, scan, ts, values);
      Consistent(next) && next.rows[..|st.rows|] == st.rows && |next.rows| == |st.rows| + 1
  {
    var next := Advance(st, scan, ts, values);
    assert forall i :: 0 <= i < |st.rows| ==> next.rows[i] == st.rows[i];
    assert next.rows[..|st.rows|] == st.rows;
  }

  /** What one line's outcome does to the state. */
  function Apply(st: RowState, o: LineOutcome): Result<RowState, ParseError> {
    match o
    case Skip => Success(st)
    case Fatal(e) => Failure(e)
    case Row(scan, ts, values) => Success(Advance(st, scan, ts, values))
  }

  /** One line's outcome keeps the elapsed-time invariant. */
  lemma ApplyConsistent(st: RowState, o: LineOutcome)
    requires Consistent(st)
    ensures Apply(st, o).Success? ==> Consistent(Apply(st, o).value)
  {
    if o.Row? {
      AdvanceConsistent(st, o.scan, o.ts, o.values);
    }
  }

  /** The row loop over `lines[from..stop]`, stopping at the first fatal line. */
  function RowScan(lines: seq<string>, from: nat, stop: nat, d: Delim, chs: seq<int>, num: NumberParser): (r: Result<RowState, ParseError>)
    requires from <= stop <= |lines|
    ensures r.Success? ==> |r.value.rows| <= stop - from
    decreases stop
  {
    if stop == from then Success(RowState([], None))
    else
      match RowScan(lines, from, stop - 1, d, chs, num)
      case Failure(e) => Failure(e)
      case Success(st) => Apply(st, ClassifyLine(lines[stop - 1], d, chs, num))
  }

  /** Every state the row loop reaches keeps the elapsed-time invariant. */
  lemma {:induction false} RowScanConsistent(lines: seq<string>, from: nat, stop: nat, d: Delim, chs: seq<int>, num: NumberParser)
    requires from <= stop <= |lines|
    ensures RowScan(lines, from, stop, d, chs, num).Success? ==> Consistent(RowScan(lines, from, stop, d, chs, num).value)
    decreases stop
  {
    if stop > from {
      var prev := RowScan(lines, from, stop - 1, d, chs, num);
      RowScanConsistent(lines, from, stop - 1, d, chs, num);
      if prev.Success? {
        ApplyConsistent(prev.value, ClassifyLine(lines[stop - 1], d, chs, num));
      }
    }
  }

  /** The first emitted row has elapsed time 0, and every row's elapsed time
      is its own timestamp minus row 0's. */
  lemma FirstRowElapsedZero(lines: seq<string>, from: nat, stop: nat, d: Delim, chs: seq<int>, num: NumberParser)
    requires from <= stop <= |lines|
    requires RowScan(lines, from, stop, d, chs, num).Success? && RowScan(lines, from, stop, d, chs, num).value.rows != []
    ensures var rows := RowScan(lines, from, stop, d, chs, num).value.rows;
      && rows[0].elapsed == 0.0
      && (forall i :: 0 <= i < |rows| ==> IsInstant(TimestampOf(rows[i])))
      && (forall i :: 0 <= i < |rows| ==>
            rows[i].elapsed == ElapsedMinutes(TimestampOf(rows[0]), TimestampOf(rows[i])))
  {
    RowScanConsistent(lines, from, stop, d, chs, num);
  }

  // ---------------------------------------------------------------------
  // The whole parse
  // ---------------------------------------------------------------------

  /** `parse_logger_csv` on the decoded lines of the file. */
  function ParseLogger(lines: seq<string>, num: NumberParser): (r: Result<ParsedLoggerFile, ParseError>)
    ensures r.Success? ==> r.value.channels != [] && r.value.rows != []
  {
    var d := Detect(lines);
    var meta := Metadata(Window(lines, MetadataWindow));
    match ChannelBlock(lines, d)
    case Failure(e) => Failure(e)
    case Success(block) =>
      match Channels(lines, block.0, block.1, d)
      case Failure(e) => Failure(e)
      case Success(chs) => ParseData(lines, d, meta, chs, num)
  }

  /** The stages of `parse_logger_csv` after the channel list: the data
      header, the row loop, and the check that some row was read. */
  function ParseData(lines: seq<string>, d: Delim, meta: map<string, string>, chs: seq<int>, num: NumberParser)
    : (r: Result<ParsedLoggerFile, ParseError>)
    ensures r.Success? ==> r.value.metadata == meta && r.value.channels == chs && r.value.rows != []
  {
    match DataHeader(lines, d)
    case Failure(e) => Failure(e)
    case Success(h) => Finish(meta, chs, RowScan(lines, h + 1, |lines|, d, chs, num))
  }

  /** The structural errors, in the order the stages run: without a channel
      header the parse fails for it, whatever else the file holds; with a
      header but no end marker after the first one, it fails for the marker. */
  lemma ParseLoggerBlockErrors(lines: seq<string>, num: NumberParser)
    ensures (forall i :: 0 <= i < |lines| ==> !IsChannelHeader(lines[i], Detect(lines))) ==>
      ParseLogger(lines, num) == Failure(ChannelHeaderMissing)
    ensures (exists h: nat :: FirstHeaderAt(lines, Detect(lines), h) &&
                forall j :: h < j < |lines| ==> !IsBlockEnd(lines[j])) ==>
      ParseLogger(lines, num) == Failure(ChannelBlockEndMissing)
  {
    ChannelBlockSpec(lines, Detect(lines));
    ChannelBlockEndMissingIff(lines, Detect(lines));
  }

  /** After the channel list: a missing data header fails for it, and a row
      loop that reads no row fails with the no-data error. */
  lemma ParseDataErrors(lines: seq<string>, d: Delim, meta: map<string, string>, chs: seq<int>, num: NumberParser)
    ensures DataHeader(lines, d).Failure? ==> ParseData(lines, d, meta, chs, num) == Failure(DataHeaderMissing)
    ensures DataHeader(lines, d).Success? ==>
      var scan := RowScan(lines, DataHeader(lines, d).value + 1, |lines|, d, chs, num);
      (scan.Success? && scan.value.rows == [] ==> ParseData(lines, d, meta, chs, num) == Failure(NoDataRows)) &&
      (scan.Failure? ==> ParseData(lines, d, meta, chs, num) == Failure(scan.error))
  {
  }

  /** Every parsed file starts at elapsed time 0, and every row's elapsed time
      is its own timestamp minus the first row's, in exact minutes. */
  lemma ParsedElapsed(lines: seq<string>, num: NumberParser)
    requires ParseLogger(lines, num).Success?
    ensures var rows := ParseLogger(lines, num).value.rows;
      && rows != [] && rows[0].elapsed == 0.0
      && (forall i :: 0 <= i < |rows| ==> IsInstant(TimestampOf(rows[i])))
      && (forall i :: 0 <= i < |rows| ==>
            rows[i].elapsed == ElapsedMinutes(TimestampOf(rows[0]), TimestampOf(rows[i])))
  {
    var d := Detect(lines);
    var meta := Metadata(Window(lines, MetadataWindow));
    var block := ChannelBlock(lines, d).value;
    var chs := Channels(lines, block.0, block.1, d).value;
    assert ParseLogger(lines, num) == ParseData(lines, d, meta, chs, num);
    var h := DataHeader(lines, d).value;
    var scan := RowScan(lines, h + 1, |lines|, d, chs, num);
    assert ParseData(lines, d, meta, chs, num) == Finish(meta, chs, scan);
    FirstRowElapsedZero(lines, h + 1, |lines|, d, chs, num);
  }

  /** The end of `parse_logger_csv`: the row loop's error, the error for a
      file without rows, or the parsed file. */
  function Finish(meta: map<string, string>, chs: seq<int>, scan: Result<RowState, ParseError>)
    : (r: Result<ParsedLoggerFile, ParseError>)
    ensures r.Success? ==> r.value.metadata == meta && r.value.channels == chs && r.value.rows != []
  {
    match scan
    case Failure(e) => Failure(e)
    case Success(st) =>
      if st.rows == [] then Failure(NoDataRows)
      else Success(ParsedLoggerFile(meta, chs, st.rows))
  }

  /** The rest of the row loop's body once the line is classified: a
      skipped line changes nothing, a bad timestamp stops the parse, and a
      row fixes `first_ts` if it is the first, then is appended with its
      elapsed minutes. */
  method ApplyOutcome(rows: seq<Reading>, firstTs: Option<Instant>, o: LineOutcome)
    returns (r: Result<RowState, ParseError>)
    ensures r == Apply(RowState(rows, firstTs), o)
  {
    match o {
      case Skip =>
        return Success(RowState(rows, firstTs));
      case Fatal(e) =>
        return Failure(e);
      case Row(scan, ts, values) =>
        var first := firstTs;
        if first.None? {
          first := Some(ts);
        }
        var elapsedMin := ElapsedMinutes(first.value, ts);
        return Success(RowState(rows + [Reading(scan, ts.date, ts.time, elapsedMin, values)], first));
    }
  }

  /** The row loop of `parse_logger_csv` over `lines[from..]`. */
  method ScanRows(lines: seq<string>, from: nat, d: Delim, chs: seq<int>, num: NumberParser)
    returns (r: Result<RowState, ParseError>)
    requires from <= |lines|
    ensures r == RowScan(lines, from, |lines|, d, chs, num)
  {
    var rows: seq<Reading> := [];
    var firstTs: Option<Instant> := None;
    for i := from to |lines|
      invariant RowScan(lines, from, i, d, chs, num) == Success(RowState(rows, firstTs))
    {
      var outcome := ParseRow(lines[i], d, chs, num);
      RowScanStep(lines, from, i, d, chs, num, RowState(rows, firstTs));
      var next := ApplyOutcome(rows, firstTs, outcome);
      if next.Failure? {
        RowScanFails(lines, from, i, |lines|, d, chs, num);
        return next;
      }
      rows, firstTs := next.value.rows, next.value.first;
    }
    return Success(RowState(rows, firstTs));
  }

  /** One more line applies its outcome to the state reached so far. */
  lemma RowScanStep(lines: seq<string>, from: nat, i: nat, d: Delim, chs: seq<int>, num: NumberParser, st: RowState)
    requires from <= i < |lines| && RowScan(lines, from, i, d, chs, num) == Success(st)
    ensures RowScan(lines, from, i + 1, d, chs, num) == Apply(st, ClassifyLine(lines[i], d, chs, num))
  {
  }

  /** A fatal line ends the scan of every longer stretch with its error. */
  lemma {:induction false} RowScanFails(lines: seq<string>, from: nat, i: nat, j: nat, d: Delim, chs: seq<int>, num: NumberParser)
    requires from <= i < j <= |lines|
    requires RowScan(lines, from, i + 1, d, chs, num).Failure?
    ensures RowScan(lines, from, j, d, chs, num) == RowScan(lines, from, i + 1, d, chs, num)
    decreases j - i
  {
    if j > i + 1 {
      RowScanFails(lines, from, i, j - 1, d, chs, num);
    }
  }

  /** `parse_logger_csv`: the stages run in the source's order, so the first
      stage that fails decides the error. */
  method ParseLoggerCsv(lines: seq<string>, num: NumberParser) returns (r: Result<ParsedLoggerFile, ParseError>)
    ensures r == ParseLogger(lines, num)
  {
    var d := DetectDelimiter(lines);
    var meta := ParseMetadata(lines);
    var block := FindChannelDefBlock(lines, d);
    if block.Failure? {
      return Failure(block.error);
    }
    var channels := ParseChannels(lines, block.value.0, block.value.1, d);
    if channels.Failure? {
      return Failure(channels.error);
    }
    r := ReadData(lines, d, meta, channels.value, num);
  }

  /** The data header search and the row loop of `parse_logger_csv`. */
  method ReadData(lines: seq<string>, d: Delim, meta: map<string, string>, chs: seq<int>, num: NumberParser)
    returns (r: Result<ParsedLoggerFile, ParseError>)
    ensures r == ParseData(lines, d, meta, chs, num)
  {
    var header := FindDataHeader(lines, d);
    if header.Failure? {
      return Failure(header.error);
    }
    r := ReadRows(lines, header.value + 1, d, meta, chs, num);
  }

  /** The row loop of `parse_logger_csv` and its check that some row was read. */
  method ReadRows(lines: seq<string>, from: nat, d: Delim, meta: map<string, string>, chs: seq<int>, num: NumberParser)
    returns (r: Result<ParsedLoggerFile, ParseError>)
    requires from <= |lines|
    ensures r == Finish(meta, chs, RowScan(lines, from, |lines|, d, chs, num))
  {
    var scan := ScanRows(lines, from, d, chs, num);
    if scan.Failure? {
      return Failure(scan.error);
    }
    if scan.value.rows == [] {
      return Failure(NoDataRows);
    }
    return Success(ParsedLoggerFile(meta, chs, scan.value.rows));
  }
}
