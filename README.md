# Logger export to report: a Dafny model

This project models the conversion pipeline of `logger_to_report.py`. The
pipeline turns a thermal-test data-logger export into a spreadsheet report.
It has three stages:

- **Parsing the export.** The export comes in two layouts, tab-delimited and
  comma-delimited. The parser detects the layout, reads the metadata fields,
  finds the channel definition table and its end marker, and finds the data
  table header. It then reads every data row into a `Reading`: scan number,
  date, time, elapsed minutes since the first row, and the channel readings.
  Each row is either skipped, read, or fatal (a malformed timestamp).
- **Downsampling to whole minutes.** The first (ambient) row is always kept.
  A later row is kept when its elapsed time lies within a tolerance of a whole
  minute, and it is then relabelled with that minute.
- **Building the report.** Channels are classified as furnace (ids in
  [300, 400)) or specimen, each group sorted and capped. Then the four-sheet
  workbook is written: the Config defaults, the Raw Data sheet's
  column blocks and two header rows, the hidden rise columns, the readings,
  the formula text in every data row, and the three chart descriptors.

Modules, one per component:

| file | module | what it holds |
|---|---|---|
| `wrappers.dfy` | `Wrappers` | `Option`, `Result`, and `Present` (the values of the present entries, in order) |
| `errors.dfy` | `ParseErrors` | the fatal parse errors (the source's `ValueError`s) |
| `text.dfy` | `Text` | Python `strip`, `split`, `join`, `startswith`, `in`, ASCII `lower`, base-10 `int` |
| `timestamps.dfy` | `Timestamps` | the `dd/mm/yyyy` date and `h:mm:ss[:f]` time grammars, and an exact millisecond clock on day ordinals |
| `logger_format.dfy` | `LoggerFormat` | delimiter detection, metadata, channel block, channel ids, data header |
| `data_rows.dfy` | `DataRows` | one data line, the row loop, and the whole `parse_logger_csv` |
| `downsample.dfy` | `Downsampler` | round-half-to-even and `downsample_full_minutes` |
| `columns.dfy` | `Columns` | A1 column letters (bijective base 26) and cell addresses |
| `report_layout.dfy` | `ReportLayout` | classification, Config defaults, column layout, header labels, formula text, chart descriptors |
| `workbook.dfy` | `Report` | the `Workbook` class and `build_report` as methods that write it phase by phase |

Each loop in the source is a method with a `while`/`for` loop. Each method is
proved equal to a specification function. The properties are proved as lemmas
about those functions. `build_report` is a method on a `Workbook` object whose
cell map, hidden-column set and chart list it updates. Its postcondition gives
every cell of the finished workbook as the function `ExpectedCell`.

Numbers are exact. A timestamp is an integer count of milliseconds:
proleptic Gregorian day ordinal × 86 400 000 + milliseconds of the day. Elapsed
minutes are that difference divided by 60 000, as a `real`. Python's `round`
is modelled as round-half-to-even on reals. `float(v)` is the parameter
`num: string -> Option<real>`.

The model follows the code in these details:

- The delimiter vote gives a tie to tab.
- The block-end marker is any line that starts with `Scan` after leading
  whitespace and contains `Control:` anywhere.
- The furnace bounds are fixed at [300, 400).
- Rows are not required to have non-decreasing elapsed time. The code does
  not enforce that order, so the model proves only that row 0 has elapsed 0
  and that every row's elapsed time is its timestamp minus row 0's.

## Model

| member | source | states |
|---|---|---|
| `LoggerFormat.DetectDecidedBy` | logger_to_report.py:59-65 | the first line among the first 200 that is a channel header decides the delimiter; a tab-joined header is checked before a comma-joined one |
| `LoggerFormat.DetectFallback` | logger_to_report.py:66-69 | with no header line in the first 200, lines with a tab are counted against lines with a comma among the first 50, and a tie goes to Tab |
| `LoggerFormat.CountLinesWith` | logger_to_report.py:67-68 | the counting loop returns the number of lines that contain the character |
| `LoggerFormat.DetectDelimiter` | logger_to_report.py:57-69 | the loop with early return computes `Detect`, so the result is always one of Tab and Comma |
| `LoggerFormat.MetaEntry` | logger_to_report.py:83-92 | a line defines a metadata field only when its colon-stripped first field is one of the six known keys |
| `LoggerFormat.MetadataLastWins` | logger_to_report.py:79-93 | a key is in the metadata exactly when some line defines it; its value is the one the last such line gives; only the six known keys appear |
| `LoggerFormat.ParseMetadata` | logger_to_report.py:79-93 | the dict-update loop over the first 60 lines builds `Metadata` of those lines |
| `LoggerFormat.ChannelBlockSpec` | logger_to_report.py:96-118 | no channel header gives the missing-header error whatever else the file holds; a header with no end marker after it gives the end-marker error; on success the block starts after the first header and ends at the first end marker after it, with no marker in between |
| `LoggerFormat.ChannelBlockFound` | logger_to_report.py:96-118 | the block is found exactly when some channel header line has an end-marker line after it |
| `LoggerFormat.ChannelBlockEndMissingIff` | logger_to_report.py:106-117 | the end-marker error is given exactly when there is a channel header and no line after the first one is an end marker |
| `LoggerFormat.ChannelBlock` | logger_to_report.py:96-118 | found bounds lie inside the file and after the header line: 1 ≤ start ≤ end < number of lines |
| `LoggerFormat.FindChannelHeader` | logger_to_report.py:101-105 | the search returns the index of the first channel header line, or none |
| `LoggerFormat.FindBlockEnd` | logger_to_report.py:109-115 | the search returns the first end-marker line at or after the block start, or none |
| `LoggerFormat.FindChannelDefBlock` | logger_to_report.py:96-118 | the two searches together return the block bounds or the error of the first search that failed |
| `LoggerFormat.ChannelIdOfRow` | logger_to_report.py:121-131 | every row with an integer first field contributes that id, after the ids of the rows before it, so ids come in row order with duplicates kept |
| `LoggerFormat.ChannelIdsFromRows` | logger_to_report.py:121-131 | every channel id comes from some row of the block |
| `LoggerFormat.Channels` | logger_to_report.py:132-134 | a successful channel list is never empty |
| `LoggerFormat.ParseChannels` | logger_to_report.py:121-134 | the append loop returns the ids of the rows strictly between header and marker, or the no-channels error |
| `LoggerFormat.DataHeader` | logger_to_report.py:137-147 | the data header is the first line with the layout's `Scan`/`Time` prefix; with no such line the result is the missing-data-header error |
| `LoggerFormat.FindDataHeader` | logger_to_report.py:137-147 | the search loop with early return computes `DataHeader` |
| `LoggerFormat.CommaDataHeaderIsPrefix` | logger_to_report.py:145 | in the comma layout, the test for `Scan,Time,` adds nothing to the test for `Scan,Time` |
| `Timestamps.ParseDate` | logger_to_report.py:150-152 | an accepted date is a real calendar day in years 1 to 9999 |
| `Timestamps.ParseDateAccepts` | logger_to_report.py:150-152 | every `d{1,2}/m{1,2}/yyyy` text naming a real calendar day is accepted, read day first, then month, then year |
| `Timestamps.ParseDateOnlyGrammar` | logger_to_report.py:150-152 | only such texts are accepted: an accepted date is, after stripping, its day, month and year pieces joined by `/`, and its value is read from them in that order |
| `Timestamps.ParseTime` | logger_to_report.py:155-160 | an accepted time has hour ≤ 23, minute ≤ 59, second ≤ 59 and milliseconds ≤ 999; a refused time is a grammar error or a range error naming the text |
| `Timestamps.ParseTimeAccepts` | logger_to_report.py:155-160 | every `h{1,2}:mm:ss[:f{1,3}]` text with values in range is accepted, and its fields are read as written |
| `Timestamps.ParseTimeOnlyGrammar` | logger_to_report.py:155-157 | only such texts are accepted: an accepted time is, after stripping, its pieces joined by colons, with values in range |
| `Timestamps.ShortFractionIsMillis` | logger_to_report.py:158-160 | the optional group is taken literally as milliseconds: `14:30:21:7` is 7 ms |
| `Timestamps.ParseTimestamp` | logger_to_report.py:150-161 | a timestamp is accepted exactly when both its date and its time are, and is then that date combined with that time; the date is read first, so a bad date is the error even when the time is bad too, and otherwise a bad time gives the time error |
| `Timestamps.ParseTimestampOneField` | logger_to_report.py:164-172 | a combined field without a space is an error naming the field |
| `Timestamps.OneFieldAgreesWithTwoFields` | logger_to_report.py:164-172 | `date + " " + time` in the comma layout gives the same timestamp as the two tab-layout fields |
| `Timestamps.NextDayOrdinal` | logger_to_report.py:223 | day ordinals have no gaps: the next calendar day, across month and year ends, is the next ordinal |
| `Timestamps.MidnightIsOneMilli` | logger_to_report.py:223 | elapsed time is exact across midnight: 23:59:59.999 and the next day's 00:00:00.000 are 1 ms apart |
| `DataRows.ReadValuesAt` | logger_to_report.py:227-239 | channel position ci has a value exactly when field `data_start + 2·ci` exists, is not blank and parses, and the value is that parse |
| `DataRows.ReadValuesTruncated` | logger_to_report.py:229-232 | once a channel's field lies past the end of the row, no later channel reads anything |
| `DataRows.ReadRowValues` | logger_to_report.py:225-239 | the inner loop, with its `break`, builds `ReadValues` |
| `DataRows.SkipRules` | logger_to_report.py:190-219 | a line is skipped exactly when it is blank, has fewer than 3 fields, restates the header, has a non-integer scan, or (tab layout) has fewer than 4 fields; otherwise its timestamp is read from fields 1 and 2 (tab) or field 1 (comma), the line is fatal exactly when that timestamp fails, with its error, and a row carries that timestamp, the integer scan and the values read from `data_start` |
| `DataRows.ParseRow` | logger_to_report.py:190-241 | one iteration of the row loop returns `ClassifyLine`: skip, row, or the timestamp error |
| `DataRows.AdvanceConsistent` | logger_to_report.py:221-223 | appending a row fixes `first_ts` on the first row, keeps the earlier rows, and keeps every elapsed time equal to its timestamp minus the first |
| `DataRows.RowScanConsistent` | logger_to_report.py:190-241 | every state the row loop reaches keeps that elapsed-time invariant |
| `DataRows.ApplyOutcome` | logger_to_report.py:221-241 | one step of the row loop computes `Apply`, the step whose invariant `AdvanceConsistent` proves |
| `DataRows.FirstRowElapsedZero` | logger_to_report.py:221-223 | the first emitted row has elapsed 0 and every row's elapsed time is its timestamp minus row 0's |
| `DataRows.ScanRows` | logger_to_report.py:187-241 | the row loop returns `RowScan`, stopping at the first fatal line |
| `DataRows.RowScanFails` | logger_to_report.py:215-218 | a fatal line ends the parse: no later line changes the error |
| `DataRows.ParseLogger` | logger_to_report.py:243-246 | a successful parse has a non-empty channel list and at least one row |
| `DataRows.ParseLoggerBlockErrors` | logger_to_report.py:177-182 | without a channel header line the parse fails for it; when no line after the first header is an end marker it fails for the marker |
| `DataRows.ParseDataErrors` | logger_to_report.py:184-244 | a missing data header fails for it; a row loop that reads nothing fails with the no-data error; a timestamp error is the parse's error |
| `DataRows.ParsedElapsed` | logger_to_report.py:221-223 | every parsed file starts at elapsed 0, and every row's elapsed time is its timestamp minus row 0's, in exact minutes |
| `DataRows.ReadRows` | logger_to_report.py:243-246 | the loop and the empty check together return `Finish` of the row scan |
| `DataRows.ReadData` | logger_to_report.py:184-246 | the data header search followed by the row loop returns `ParseData` |
| `DataRows.ParseLoggerCsv` | logger_to_report.py:175-246 | the stages run in the source's order, so the first stage that fails decides the error |
| `Downsampler.RoundHalfEven` | logger_to_report.py:258 | the result is within 0.5 of its argument, and a tie goes to the even integer |
| `Downsampler.RoundIsNearest` | logger_to_report.py:258 | no integer is nearer to the argument than its rounding |
| `Downsampler.KeepRow` | logger_to_report.py:251-260 | row 0 is kept unchanged; a kept row keeps its scan, date, time and values |
| `Downsampler.KeptIffNearMinute` | logger_to_report.py:256-259 | a later row is kept exactly when some whole minute lies within `tol` seconds of it; the boundary distance equal to `tol` is kept |
| `Downsampler.KeptMinuteIsUnique` | logger_to_report.py:260 | with a tolerance under 30 s, a kept row's new elapsed time is the whole minute within the tolerance |
| `Downsampler.DownsampleSelects` | logger_to_report.py:248-261 | the output is an order-preserving selection of the input rows, no longer than the input, starting with row 0, each row kept exactly when `KeepRow` keeps it |
| `Downsampler.DownsampleIdempotent` | logger_to_report.py:248-261 | with `tol ≥ 0`, downsampling twice gives the same rows as downsampling once |
| `Downsampler.TenSecondSampleDropped` | logger_to_report.py:248-261 | samples at 0 s, 10 s and 60 s with the default 0.6 s tolerance leave the rows at minutes 0 and 1 |
| `Downsampler.DownsampleFullMinutes` | logger_to_report.py:248-261 | the loop builds `Downsample` of the rows and passes metadata and channels through |
| `ReportLayout.SortAsc` | logger_to_report.py:279-280 | `list.sort()` on ids: ascending order and the same elements |
| `ReportLayout.Classify` | logger_to_report.py:277-284 | both groups are sorted ascending and capped at 35 specimen and 5 furnace channels |
| `ReportLayout.ClassifySpec` | logger_to_report.py:277-284 | the furnace group is the 5 smallest ids in [300, 400), the specimen group the 35 smallest others, each sorted ascending, and every id in a group is a channel of that kind |
| `ReportLayout.ClassifyBoundaries` | logger_to_report.py:277 | the range is half open: 299 and 400 are specimen channels, 300 and 399 furnace channels |
| `ReportLayout.MakeLayout` | logger_to_report.py:337-389 | the layout has the group sizes it was built for, and its last column is 4 + 2·(S+F) + 5 |
| `ReportLayout.DefaultConfigFits` | logger_to_report.py:303-307 | B3=1, B4=min(5,S), B6=6, B7=min(5,max(0,S−5)): the default groups use existing specimen channels, do not overlap, cover the first min(S,10), and are 1-5 and 6-10 when S ≥ 10 |
| `ReportLayout.LayoutTiles` | logger_to_report.py:337-389 | the blocks (base 1–4, specimen absolute, specimen rise, furnace absolute, furnace rise, 5 summaries) tile columns 1 to 4+2S+2F+5 without gaps or overlaps |
| `ReportLayout.HiddenAreRise` | logger_to_report.py:402-407 | a column is hidden exactly when it is in one of the two rise blocks |
| `ReportLayout.HeaderExtent` | logger_to_report.py:337-389 | row 12 has labels exactly on columns 5 to the last summary column; row 13 on columns 1 to it |
| `ReportLayout.RiseRefersToOwnChannel` | logger_to_report.py:436-452 | each rise cell holds `=IF(X{r}="","",X{r}-X14)` with X the absolute column headed by the same channel's id, and the addresses read back as that column and row |
| `ReportLayout.RowFormula` | logger_to_report.py:435-482 | a data row has a formula exactly in the rise columns and the five summary columns |
| `ReportLayout.SheetRefRoundTrip` | logger_to_report.py:462-470 | a `Sheet!$C$R` reference reads back as the sheet, column and row it was written for |
| `ReportLayout.DefaultWindowsInRiseBlock` | logger_to_report.py:454-470 | with the default Config values, both OFFSET windows stay inside the specimen rise block |
| `ReportLayout.FurnaceMeans` | logger_to_report.py:472-482 | the furnace means average exactly the furnace absolute and rise blocks, and are `""` when there are no furnace channels |
| `ReportLayout.ChartsPlotSummaries` | logger_to_report.py:504-522 | each chart plots one of the first three summary columns, which are not hidden, against column 4 (Elapsed), over exactly the data rows |
| `Columns.LetterNumber` | logger_to_report.py:440 | `get_column_letter(n)` is a run of capital letters that reads back as n |
| `Columns.NumberLetter` | logger_to_report.py:440 | every run of capital letters is the letters of exactly one column number, so the mapping is a bijection |
| `Columns.AddrRoundTrip` | logger_to_report.py:440-441 | an A1 address reads back as the column and row it was written for |
| `Columns.AddrInjective` | logger_to_report.py:440-441 | distinct cells have distinct addresses |
| `Text.JoinSplit` | logger_to_report.py:72-76 | joining the pieces of a split gives the line back |
| `Text.SplitJoin` | logger_to_report.py:72-76 | splitting a join of separator-free fields gives the fields back |
| `Text.StripIsTrim` | logger_to_report.py:60 | `strip()` removes exactly the surrounding whitespace |
| `Report.Workbook.constructor` | logger_to_report.py:286-288 | a new workbook has one sheet and no cells, hidden columns or charts |
| `Report.Workbook.CreateSheet` | logger_to_report.py:290-292 | appends a sheet and changes nothing else |
| `Report.Workbook.SetCell` | logger_to_report.py:413 | `ws.cell(r, c, v)` writes v, and writes nothing when v is None |
| `Report.Workbook.HideColumn` | logger_to_report.py:404 | adds one hidden column and changes nothing else |
| `Report.Workbook.AddChart` | logger_to_report.py:518 | appends one chart and changes nothing else |
| `Report.NewReportWorkbook` | logger_to_report.py:286-292 | the four sheets in order Summary of Results, Observations, Raw Data, Config |
| `Report.WriteConfig` | logger_to_report.py:297-307 | writes exactly the Config sheet's labels and defaults over what was there |
| `Report.WriteConfigLabels` | logger_to_report.py:297-302 | writes the Config title and the four labels in column A |
| `Report.WriteConfigDefaults` | logger_to_report.py:304-307 | writes the four default values in B3, B4, B6 and B7 |
| `Report.WriteRawTitle` | logger_to_report.py:314-329 | writes the Raw Data title and the seven metadata rows from row 3 |
| `Report.WriteHeaders` | logger_to_report.py:337-389 | the running column counter produces `MakeLayout`, and rows 12 and 13 get exactly `GroupLabel` and `ColumnHeader` |
| `Report.WriteSpecimenAbs` | logger_to_report.py:343-350 | `TC{i}` over each specimen id, advancing the counter by S |
| `Report.WriteSpecimenRise` | logger_to_report.py:352-358 | `TC{i} ΔT` over `ΔT{i}`, advancing the counter by S |
| `Report.WriteFurnaceAbs` | logger_to_report.py:360-366 | `Furnace TC{i}` over each furnace id, advancing the counter by F |
| `Report.WriteFurnaceRise` | logger_to_report.py:368-374 | `Furnace TC{i} ΔT` over `FΔT{i}`, advancing the counter by F |
| `Report.WriteSummaryHeaders` | logger_to_report.py:376-389 | `Summary` over the five summary names, advancing the counter by 5 |
| `Report.HideRiseColumns` | logger_to_report.py:402-407 | the hidden set gains exactly the two rise blocks |
| `Report.FillData` | logger_to_report.py:410-429 | data row i is written at sheet row 14+i |
| `Report.FillRow` | logger_to_report.py:411-429 | one row: base cells, then each kept channel's reading or nothing |
| `Report.FillBaseCells` | logger_to_report.py:412-416 | scan, date, time and elapsed minutes in columns 1-4 |
| `Report.FillSpecimenValues` | logger_to_report.py:421-424 | `values.get(ch)` under each specimen channel |
| `Report.FillFurnaceValues` | logger_to_report.py:426-429 | `values.get(ch)` under each furnace channel |
| `Report.WriteFormulas` | logger_to_report.py:431-485 | every data row, and only those, gets `RowFormula` |
| `Report.WriteFormulaRow` | logger_to_report.py:435-482 | one row's rise, window and furnace-mean formulas |
| `Report.FormulaStep` | logger_to_report.py:442 | writing the next column's formula extends the written formulas by that column |
| `Report.WriteFormulaCell` | logger_to_report.py:442 | writing one formula cell extends the written formulas by that column and leaves sheets, hidden columns and charts alone |
| `Report.WriteRiseFormulas` | logger_to_report.py:436-452 | the string built from `get_column_letter` is `RiseFormula` of the matching absolute column |
| `Report.WindowTexts` | logger_to_report.py:455-470 | the strings the source builds are the window formulas |
| `Report.WindowsReadDefaultConfig` | logger_to_report.py:454-470 | the three window cells of each data row hold OFFSET windows anchored at that row's first specimen rise cell, and the Config references they name read back, in the built workbook, to the default start and count cells |
| `Report.ConfigRefReads` | logger_to_report.py:303-307 | a Config reference of the formulas resolves to the value cell of that Config row |
| `Report.WriteWindowFormulas` | logger_to_report.py:462-470 | writes the three window formulas in the first three summary columns |
| `Report.FurnaceMeanTexts` | logger_to_report.py:472-482 | the strings the source builds are the furnace-mean formulas, or `""` |
| `Report.WriteFurnaceMeans` | logger_to_report.py:472-482 | writes them in the last two summary columns |
| `Report.WriteSummary` | logger_to_report.py:490-499 | writes exactly the summary sheet's labels and values |
| `Report.WriteSummaryLabels` | logger_to_report.py:490-498 | the summary title and labels in column A |
| `Report.WriteSummaryValues` | logger_to_report.py:493-499 | source file, group sizes and note in column B |
| `Report.AddLineChart` | logger_to_report.py:504-518 | appends the chart descriptor of one summary column |
| `Report.AddCharts` | logger_to_report.py:520-522 | the three charts, anchored at A9, A25 and A41 |
| `Report.WriteObservations` | logger_to_report.py:527-529 | the Observations title and note |
| `Report.WriteRawData` | logger_to_report.py:314-485 | the Raw Data sheet is `RawDataCell`, later writes over earlier ones, and exactly the rise columns are hidden |
| `Report.ReadingsUnderTheirChannel` | logger_to_report.py:421-429 | each kept channel's column is headed by its id, and each data row holds that channel's reading there, or nothing |
| `Report.BaseColumnsOfRow` | logger_to_report.py:411-416 | each data row starts with its scan, date, time and elapsed minutes |
| `Report.RiseCellsOfRow` | logger_to_report.py:436-452 | each rise cell holds the rise formula of the same channel's absolute column against row 14, and is hidden |
| `Report.NothingOutsideTheTable` | logger_to_report.py:410-485 | nothing is written below the last data row, nor right of the last summary column from row 12 down |
| `Report.ExpectedCell` | logger_to_report.py:286-529 | outside Raw Data, only columns A and B hold anything |
| `Report.BuildReport` | logger_to_report.py:275-537 | the saved workbook: four sheets in order, every cell as `ExpectedCell` gives it, exactly the rise columns hidden, and the three charts |

## Left out

- Reading the UTF-16 file (`_read_lines_utf16`, logger_to_report.py:47-54) and `wb.save` (537) are I/O. The model takes the decoded lines as input and returns the workbook object.
- The command line (`main`, 540-555) and the tkinter front end in `app.py` are plumbing. `app.py` rewrites the Config cells after the build and uses a 0.5 s tolerance; it is not part of this model. The tolerance is a parameter here, and `DefaultTolerance` is the 0.6 s default of `downsample_full_minutes`.
- Styling is not modelled: fonts, fills, alignment, column widths, row heights, number formats, gridlines and the freeze panes at E14 (397). Touching a cell only to style it (393-394) creates no content in the model.
- Charts are modelled as descriptors: title, plotted column, category column, row range, anchor and axis titles. The openpyxl chart object, its style number, size and missing legend are not modelled.
- `float(v)` is the abstract parameter `num`. Python's float grammar and float rounding are not modelled. Elapsed time is exact (integer milliseconds, then a `real`), so the float drift of `total_seconds() / 60.0` and of `elapsed_min * 60.0` is not captured.
- `int()`, `strptime` and the time regular expression accept only ASCII digits here. Python also accepts other Unicode decimal digits there, and those inputs are not modelled.
- `str.lower()` is modelled on ASCII letters only. This is exact for the `scan`/`time` tests, but not for `lower()` in general.
- Timestamp errors carry the offending text, not Python's exact message strings.
- What the emitted formulas evaluate to, including editing Config after generation, would need a spreadsheet evaluator. Only the formula text is modelled.
- DataRows.ReadValuesAt: stated for distinct channel ids only. With duplicate ids, `ReadValues` still follows the source, where the later position wins, but the per-position statement does not hold.
- Downsampler.KeptMinuteIsUnique: stated for tolerances under 30 s. With larger tolerances two whole minutes can be in range, and the rounding rule in `KeepRow` still decides.
