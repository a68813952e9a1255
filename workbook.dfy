/**
 * `build_report`: the workbook it fills, as a class whose cells, hidden
 * columns and charts its phases update, and the cell contents it produces,
 * stated sheet by sheet as functions of the parsed file.
 */
module Report {
  import opened Wrappers
  import opened Text
  import opened DataRows
  import opened Columns
  import opened ReportLayout

  datatype Sheet = SummarySheet | ObservationsSheet | RawDataSheet | ConfigSheet

  function SheetTitle(s: Sheet): string {
    match s
    case SummarySheet => "Summary of Results"
    case ObservationsSheet => "Observations"
    case RawDataSheet => "Raw Data"
    case ConfigSheet => "Config"
  }

  /** The sheets in the order the workbook lists them. */
  const SheetOrder: seq<Sheet> := [SummarySheet, ObservationsSheet, RawDataSheet, ConfigSheet]

  /** A cell position: sheet, 1-based row and 1-based column. */
  datatype Key = Key(sheet: Sheet, row: nat, col: nat)

  function Get(m: map<Key, Cell>, k: Key): Option<Cell> {
    if k in m then Some(m[k]) else None
  }

  /** A later write `a` over an earlier content `b`. */
  function Overlay(a: Option<Cell>, b: Option<Cell>): Option<Cell> {
    if a.Some? then a else b
  }

  class Workbook {
    var sheets: seq<Sheet>
    var cells: map<Key, Cell>
    var hidden: set<(Sheet, nat)>
    var charts: seq<Chart>

    /** A new workbook: one sheet, used as the summary sheet, and nothing in it. */
    constructor ()
      ensures sheets == [SummarySheet] && cells == map[] && hidden == {} && charts == []
    {
      sheets := [SummarySheet];
      cells := map[];
      hidden := {};
      charts := [];
    }

    method CreateSheet(s: Sheet)
      modifies this
      ensures sheets == old(sheets) + [s]
      ensures cells == old(cells) && hidden == old(hidden) && charts == old(charts)
    {
      sheets := sheets + [s];
    }

    /** `ws.cell(row, col, v)`: a value of None leaves the cell as it was. */
    method SetCell(s: Sheet, row: nat, col: nat, v: Option<Cell>)
      modifies this
      ensures cells == if v.Some? then old(cells)[Key(s, row, col) := v.value] else old(cells)
      ensures sheets == old(sheets) && hidden == old(hidden) && charts == old(charts)
    {
      if v.Some? {
        cells := cells[Key(s, row, col) := v.value];
      }
    }

    method HideColumn(s: Sheet, col: nat)
      modifies this
      ensures hidden == old(hidden) + {(s, col)}
      ensures sheets == old(sheets) && cells == old(cells) && charts == old(charts)
    {
      hidden := hidden + {(s, col)};
    }

    method AddChart(c: Chart)
      modifies this
      ensures charts == old(charts) + [c]
      ensures sheets == old(sheets) && cells == old(cells) && hidden == old(hidden)
    {
      charts := charts + [c];
    }
  }

  // ---------------------------------------------------------------------
  // What each sheet holds
  // ---------------------------------------------------------------------

  const ConfigTitle: string := "Group configuration (edit these if your TC layout differs)"

  /** Column A of the Config sheet: the title and the four labels. */
  function ConfigLabel(row: nat): Option<Cell> {
    if row == 1 then Some(Str(ConfigTitle))
    else if row == FaceStartRow then Some(Str("Face start TC #"))
    else if row == FaceCountRow then Some(Str("Face count"))
    else if row == CoreStartRow then Some(Str("Core start TC #"))
    else if row == CoreCountRow then Some(Str("Core count"))
    else None
  }

  /** Column B of the Config sheet: the default groups in B3, B4, B6 and B7. */
  function ConfigValue(specimenCount: nat, row: nat): Option<Cell> {
    var c := DefaultConfig(specimenCount);
    if row == FaceStartRow then Some(Int(c.faceStart))
    else if row == FaceCountRow then Some(Int(c.faceCount))
    else if row == CoreStartRow then Some(Int(c.coreStart))
    else if row == CoreCountRow then Some(Int(c.coreCount))
    else None
  }

  function ConfigCell(specimenCount: nat, row: nat, col: nat): Option<Cell> {
    if col == 1 then ConfigLabel(row)
    else if col == 2 then ConfigValue(specimenCount, row)
    else None
  }

  const RawTitle: string := "Imported logger data (absolute and temperature rise)"
  const MetaStartRow: nat := 3

  /** `metadata.get(key, "")`. */
  function MetaGet(m: map<string, string>, key: string): string {
    if key in m then m[key] else ""
  }

  /** The key/value pairs of the metadata block on the Raw Data sheet. */
  function MetaRows(parsed: ParsedLoggerFile, source: string, g: Groups): seq<(string, string)> {
    [("Source file", source),
     ("Name", MetaGet(parsed.metadata, "Name")),
     ("Owner", MetaGet(parsed.metadata, "Owner")),
     ("Acquisition", MetaGet(parsed.metadata, "Acquisition")),
     ("Total channels", NatToString(|parsed.channels|)),
     ("Specimen TCs", NatToString(|g.specimen|)),
     ("Furnace TCs", NatToString(|g.furnace|))]
  }

  /** The title and the metadata block of the Raw Data sheet (rows 1 to 9). */
  function RawTitleCell(parsed: ParsedLoggerFile, source: string, g: Groups, row: nat, col: nat): Option<Cell> {
    var meta := MetaRows(parsed, source, g);
    if row == 1 && col == 1 then Some(Str(RawTitle))
    else if MetaStartRow <= row < MetaStartRow + |meta| && col == 1 then Some(Str(meta[row - MetaStartRow].0))
    else if MetaStartRow <= row < MetaStartRow + |meta| && col == 2 then Some(Str(meta[row - MetaStartRow].1))
    else None
  }

  /** The two header rows. */
  function HeaderCell(g: Groups, row: nat, col: nat): Option<Cell> {
    if row == GroupRow then GroupLabel(g, col)
    else if row == HeaderRow then ColumnHeader(g, col)
    else None
  }

  /** `values.get(ch)` written to a cell: nothing when the reading is absent. */
  function ValueCell(values: map<int, real>, ch: int): Option<Cell> {
    if ch in values then Some(Real(values[ch])) else None
  }

  /** What the data loop writes in row `row`: scan, date, time, elapsed
      minutes and the absolute readings of the kept channels. */
  function DataCell(g: Groups, rows: seq<Reading>, row: nat, col: nat): Option<Cell> {
    var l := MakeLayout(|g.specimen|, |g.furnace|);
    if row < DataStartRow || row - DataStartRow >= |rows| then None
    else
      var rd := rows[row - DataStartRow];
      if col == 1 then Some(Int(rd.scan))
      else if col == 2 then Some(DateVal(rd.date))
      else if col == 3 then Some(TimeVal(rd.time))
      else if col == 4 then Some(Real(rd.elapsed))
      else if l.specAbsStart <= col < l.specRiseStart then ValueCell(rd.values, g.specimen[col - l.specAbsStart])
      else if l.furnAbsStart <= col < l.furnRiseStart then ValueCell(rd.values, g.furnace[col - l.furnAbsStart])
      else None
  }

  /** The formulas written to the data rows. */
  function FormulaCell(l: ColumnLayout, rowCount: nat, row: nat, col: nat): Option<Cell> {
    if DataStartRow <= row < DataStartRow + rowCount then RowFormula(l, row, col) else None
  }

  function GroupsOf(parsed: ParsedLoggerFile): Groups {
    Classify(parsed.channels)
  }

  function LayoutOf(g: Groups): ColumnLayout {
    MakeLayout(|g.specimen|, |g.furnace|)
  }

  /** The Raw Data sheet, the later writes over the earlier ones. */
  function RawDataCell(parsed: ParsedLoggerFile, source: string, g: Groups, row: nat, col: nat): Option<Cell> {
    Overlay(FormulaCell(LayoutOf(g), |parsed.rows|, row, col),
      Overlay(DataCell(g, parsed.rows, row, col),
        Overlay(HeaderCell(g, row, col), RawTitleCell(parsed, source, g, row, col))))
  }

  const SummaryTitle: string := "Test summary (auto-generated)"
  const SummaryNote: string := "Edit Config tab if face/core grouping differs (defaults: face 1-5, core 6-10)."

  /** Column A of the summary sheet. */
  function SummaryLabel(row: nat): Option<Cell> {
    if row == 1 then Some(Str(SummaryTitle))
    else if row == 3 then Some(Str("Source file"))
    else if row == 4 then Some(Str("Total specimen TCs"))
    else if row == 5 then Some(Str("Total furnace TCs"))
    else if row == 6 then Some(Str("Note"))
    else None
  }

  /** Column B of the summary sheet: the source file, the group sizes and
      the note. */
  function SummaryValue(source: string, g: Groups, row: nat): Option<Cell> {
    if row == 3 then Some(Str(source))
    else if row == 4 then Some(Int(|g.specimen|))
    else if row == 5 then Some(Int(|g.furnace|))
    else if row == 6 then Some(Str(SummaryNote))
    else None
  }

  function SummaryCell(source: string, g: Groups, row: nat, col: nat): Option<Cell> {
    if col == 1 then SummaryLabel(row)
    else if col == 2 then SummaryValue(source, g, row)
    else None
  }

  const ObservationsNote: string :=
    "(This tab is intentionally free-form. Paste or type your test-specific notes here.)"

  function ObservationCell(row: nat, col: nat): Option<Cell> {
    if col == 1 && row == 1 then Some(Str("Observations"))
    else if col == 1 && row == 3 then Some(Str(ObservationsNote))
    else None
  }

  /** The content of every cell of the report. */
  function ExpectedCell(parsed: ParsedLoggerFile, source: string, k: Key): (c: Option<Cell>)
    ensures k.sheet != RawDataSheet && c.Some? ==> k.col == 1 || k.col == 2
  {
    match k.sheet
    case ConfigSheet => ConfigCell(|GroupsOf(parsed).specimen|, k.row, k.col)
    case RawDataSheet => RawDataCell(parsed, source, GroupsOf(parsed), k.row, k.col)
    case SummarySheet => SummaryCell(source, GroupsOf(parsed), k.row, k.col)
    case ObservationsSheet => ObservationCell(k.row, k.col)
  }

  // ---------------------------------------------------------------------
  // Properties of the report
  // ---------------------------------------------------------------------

  /** Every kept channel's readings sit in the column headed by its id: the
      specimen (or furnace) channel at group index `j` heads its absolute
      column, and each data row holds that channel's reading there, or
      nothing when the row has none. */
  lemma ReadingsUnderTheirChannel(parsed: ParsedLoggerFile, source: string, g: Groups, i: nat, j: nat, furnace: bool)
    requires i < |parsed.rows|
    requires j < if furnace then |g.furnace| else |g.specimen|
    ensures var l := LayoutOf(g);
      var ch := if furnace then g.furnace[j] else g.specimen[j];
      var col := (if furnace then l.furnAbsStart else l.specAbsStart) + j;
      && RawDataCell(parsed, source, g, HeaderRow, col) == Some(Int(ch))
      && RawDataCell(parsed, source, g, DataStartRow + i, col) == ValueCell(parsed.rows[i].values, ch)
  {
  }

  /** Each data row starts with the row's scan number, date, time and
      elapsed minutes. */
  lemma BaseColumnsOfRow(parsed: ParsedLoggerFile, source: string, g: Groups, i: nat)
    requires i < |parsed.rows|
    ensures var rd := parsed.rows[i];
      var r := DataStartRow + i;
      && RawDataCell(parsed, source, g, r, 1) == Some(Int(rd.scan))
      && RawDataCell(parsed, source, g, r, 2) == Some(DateVal(rd.date))
      && RawDataCell(parsed, source, g, r, 3) == Some(TimeVal(rd.time))
      && RawDataCell(parsed, source, g, r, 4) == Some(Real(rd.elapsed))
  {
  }

  /** Each rise cell of a data row holds the rise formula of the absolute
      column of the same channel, against the first (ambient) row, and its
      column is hidden. */
  lemma RiseCellsOfRow(parsed: ParsedLoggerFile, source: string, g: Groups, i: nat, j: nat, furnace: bool)
    requires i < |parsed.rows|
    requires j < if furnace then |g.furnace| else |g.specimen|
    ensures var l := LayoutOf(g);
      var abs := (if furnace then l.furnAbsStart else l.specAbsStart) + j;
      var rise := (if furnace then l.furnRiseStart else l.specRiseStart) + j;
      && RawDataCell(parsed, source, g, DataStartRow + i, rise) == Some(Str(RiseFormula(abs, DataStartRow + i)))
      && rise in HiddenColumns(l)
  {
    var l := LayoutOf(g);
    var rise := (if furnace then l.furnRiseStart else l.specRiseStart) + j;
    assert BlockOf(l, rise) == Some(if furnace then FurnaceRise else SpecimenRise);
  }

  /** Nothing is written below the last data row, nor right of the last
      summary column from the header rows down. */
  lemma NothingOutsideTheTable(parsed: ParsedLoggerFile, source: string, g: Groups, row: nat, col: nat)
    requires row >= DataStartRow + |parsed.rows| || (row >= GroupRow && col > LayoutOf(g).summaryEnd)
    ensures RawDataCell(parsed, source, g, row, col) == None
  {
  }

  /** The sheet with title `name`, if the report has one. */
  function SheetTitled(name: string): (r: Option<Sheet>)
    ensures r.Some? ==> r.value in SheetOrder && SheetTitle(r.value) == name
    ensures r.None? ==> forall sh :: sh in SheetOrder ==> SheetTitle(sh) != name
  {
    if name == SheetTitle(SummarySheet) then Some(SummarySheet)
    else if name == SheetTitle(ObservationsSheet) then Some(ObservationsSheet)
    else if name == SheetTitle(RawDataSheet) then Some(RawDataSheet)
    else if name == SheetTitle(ConfigSheet) then Some(ConfigSheet)
    else None
  }

  /** What a `Sheet!$X$n` reference reads in the finished report. */
  function Deref(parsed: ParsedLoggerFile, source: string, ref: string): Option<Cell> {
    match ReadSheetRef(ref)
    case None => None
    case Some(t) =>
      match SheetTitled(t.0)
      case None => None
      case Some(sh) => ExpectedCell(parsed, source, Key(sh, t.2, t.1))
  }

  /** The three window summaries of every data row: each is an OFFSET window
      anchored at the row's first specimen rise cell, and its start and count
      references lead, in the finished report, to the Config cells that hold
      the default face group (mean and max face) or core group (mean core). */
  lemma WindowsReadDefaultConfig(parsed: ParsedLoggerFile, source: string, i: nat, k: nat)
    requires i < |parsed.rows| && k < 3
    ensures var g := GroupsOf(parsed);
      var l := LayoutOf(g);
      var r := DataStartRow + i;
      var c := DefaultConfig(|g.specimen|);
      var startRow := if k < 2 then FaceStartRow else CoreStartRow;
      var countRow := if k < 2 then FaceCountRow else CoreCountRow;
      && RawDataCell(parsed, source, g, r, l.summaryStart + k) ==
           Some(Str(WindowFormula(if k == 1 then "MAX" else "AVERAGE", startRow, countRow, Addr(l.specRiseStart, r))))
      && ParseAddr(Addr(l.specRiseStart, r)) == Some((l.specRiseStart, r))
      && Deref(parsed, source, ConfigRef(startRow)) == Some(Int(if k < 2 then c.faceStart else c.coreStart))
      && Deref(parsed, source, ConfigRef(countRow)) == Some(Int(if k < 2 then c.faceCount else c.coreCount))
  {
    var l := LayoutOf(GroupsOf(parsed));
    WindowCell(parsed, source, i, k);
    AddrRoundTrip(l.specRiseStart, DataStartRow + i);
    if k < 2 {
      ConfigRefReads(parsed, source, FaceStartRow);
      ConfigRefReads(parsed, source, FaceCountRow);
    } else {
      ConfigRefReads(parsed, source, CoreStartRow);
      ConfigRefReads(parsed, source, CoreCountRow);
    }
  }

  /** The window summary `k` of data row `i` in the Raw Data sheet. */
  lemma WindowCell(parsed: ParsedLoggerFile, source: string, i: nat, k: nat)
    requires i < |parsed.rows| && k < 3
    ensures var l := LayoutOf(GroupsOf(parsed));
      var r := DataStartRow + i;
      RawDataCell(parsed, source, GroupsOf(parsed), r, l.summaryStart + k) ==
        Some(Str(WindowFormula(if k == 1 then "MAX" else "AVERAGE",
                               if k < 2 then FaceStartRow else CoreStartRow,
                               if k < 2 then FaceCountRow else CoreCountRow, Addr(l.specRiseStart, r))))
  {
    var g := GroupsOf(parsed);
    var l := LayoutOf(g);
    var r := DataStartRow + i;
    var col := l.summaryStart + k;
    WindowFormulasAt(l, r);
    assert FormulaCell(l, |parsed.rows|, r, col) == RowFormula(l, r, col);
    FormulaCellWins(parsed, source, g, r, col);
  }

  /** Where `build_report` writes a formula, the formula is what the cell holds. */
  lemma FormulaCellWins(parsed: ParsedLoggerFile, source: string, g: Groups, r: nat, col: nat)
    requires FormulaCell(LayoutOf(g), |parsed.rows|, r, col).Some?
    ensures RawDataCell(parsed, source, g, r, col) == FormulaCell(LayoutOf(g), |parsed.rows|, r, col)
  {
  }

  /** A Config reference reads the Config value cell of its row. */
  lemma ConfigRefReads(parsed: ParsedLoggerFile, source: string, row: nat)
    ensures Deref(parsed, source, ConfigRef(row)) == ConfigCell(|GroupsOf(parsed).specimen|, row, ConfigValueColumn)
  {
    assert '!' !in "Config";
    SheetRefRoundTrip("Config", ConfigValueColumn, row);
    DerefConfig(parsed, source, ConfigRef(row), row, ConfigValueColumn);
  }

  lemma DerefConfig(parsed: ParsedLoggerFile, source: string, ref: string, row: nat, col: nat)
    requires ReadSheetRef(ref) == Some(("Config", col, row))
    ensures Deref(parsed, source, ref) == ConfigCell(|GroupsOf(parsed).specimen|, row, col)
  {
    assert SheetTitled("Config") == Some(ConfigSheet);
  }

  // ---------------------------------------------------------------------
  // The phases of build_report
  // ---------------------------------------------------------------------

  method WriteConfig(wb: Workbook, specimenCount: nat)
    modifies wb
    ensures forall k :: Get(wb.cells, k) ==
              Overlay(if k.sheet == ConfigSheet then ConfigCell(specimenCount, k.row, k.col) else None, Get(old(wb.cells), k))
    ensures wb.sheets == old(wb.sheets) && wb.hidden == old(wb.hidden) && wb.charts == old(wb.charts)
  {
    WriteConfigLabels(wb);
    WriteConfigDefaults(wb, specimenCount);
  }

  method WriteConfigLabels(wb: Workbook)
    modifies wb
    ensures forall k :: Get(wb.cells, k) ==
              Overlay(if k.sheet == ConfigSheet && k.col == 1 then ConfigLabel(k.row) else None, Get(old(wb.cells), k))
    ensures wb.sheets == old(wb.sheets) && wb.hidden == old(wb.hidden) && wb.charts == old(wb.charts)
  {
    wb.SetCell(ConfigSheet, 1, 1, Some(Str(ConfigTitle)));
    wb.SetCell(ConfigSheet, 3, 1, Some(Str("Face start TC #")));
    wb.SetCell(ConfigSheet, 4, 1, Some(Str("Face count")));
    wb.SetCell(ConfigSheet, 6, 1, Some(Str("Core start TC #")));
    wb.SetCell(ConfigSheet, 7, 1, Some(Str("Core count")));
  }

  /** The defaults, face 1-5 and core 6-10, shortened to the specimen
      channels there are. */
  method WriteConfigDefaults(wb: Workbook, specimenCount: nat)
    modifies wb
    ensures forall k :: Get(wb.cells, k) ==
              Overlay(if k.sheet == ConfigSheet && k.col == 2 then ConfigValue(specimenCount, k.row) else None, Get(old(wb.cells), k))
    ensures wb.sheets == old(wb.sheets) && wb.hidden == old(wb.hidden) && wb.charts == old(wb.charts)
  {
    wb.SetCell(ConfigSheet, 3, 2, Some(Int(1)));
    wb.SetCell(ConfigSheet, 4, 2, Some(Int(Min(5, specimenCount))));
    wb.SetCell(ConfigSheet, 6, 2, Some(Int(6)));
    wb.SetCell(ConfigSheet, 7, 2, Some(Int(Min(5, Max(0, specimenCount - 5)))));
  }

  method WriteRawTitle(wb: Workbook, parsed: ParsedLoggerFile, source: string, g: Groups)
    modifies wb
    ensures forall k :: Get(wb.cells, k) ==
              Overlay(if k.sheet == RawDataSheet then RawTitleCell(parsed, source, g, k.row, k.col) else None, Get(old(wb.cells), k))
    ensures wb.sheets == old(wb.sheets) && wb.hidden == old(wb.hidden) && wb.charts == old(wb.charts)
  {
    wb.SetCell(RawDataSheet, 1, 1, Some(Str(RawTitle)));
    var meta := MetaRows(parsed, source, g);
    for i := 0 to |meta|
      invariant forall k :: Get(wb.cells, k) ==
                  Overlay(if k.sheet == RawDataSheet && k.row < MetaStartRow + i then RawTitleCell(parsed, source, g, k.row, k.col) else None,
                  Get(old(wb.cells), k))
      invariant wb.sheets == old(wb.sheets) && wb.hidden == old(wb.hidden) && wb.charts == old(wb.charts)
    {
      wb.SetCell(RawDataSheet, MetaStartRow + i, 1, Some(Str(meta[i].0)));
      wb.SetCell(RawDataSheet, MetaStartRow + i, 2, Some(Str(meta[i].1)));
    }
  }

  /** The header cells at columns below `c` written over `before`. */
  ghost predicate HeadersUpTo(after: map<Key, Cell>, before: map<Key, Cell>, g: Groups, c: nat) {
    forall k :: Get(after, k) ==
      Overlay(if k.sheet == RawDataSheet && k.col < c then HeaderCell(g, k.row, k.col) else None, Get(before, k))
  }

  /** The header loops with their running column counter; the block starts
      they record are those of `MakeLayout`. */
  method WriteHeaders(wb: Workbook, g: Groups) returns (l: ColumnLayout)
    modifies wb
    ensures l == MakeLayout(|g.specimen|, |g.furnace|)
    ensures forall k :: Get(wb.cells, k) ==
              Overlay(if k.sheet == RawDataSheet then HeaderCell(g, k.row, k.col) else None, Get(old(wb.cells), k))
    ensures wb.sheets == old(wb.sheets) && wb.hidden == old(wb.hidden) && wb.charts == old(wb.charts)
  {
    ghost var before := wb.cells;
    for c := 1 to |BaseHeaders| + 1
      invariant HeadersUpTo(wb.cells, before, g, c)
      invariant wb.sheets == old(wb.sheets) && wb.hidden == old(wb.hidden) && wb.charts == old(wb.charts)
    {
      wb.SetCell(RawDataSheet, HeaderRow, c, Some(Str(BaseHeaders[c - 1])));
    }
    var col := 5;
    var specAbsStart := col;
    col := WriteSpecimenAbs(wb, g, col, before);
    var specRiseStart := col;
    col := WriteSpecimenRise(wb, g, col, before);
    var furnAbsStart := col;
    col := WriteFurnaceAbs(wb, g, col, before);
    var furnRiseStart := col;
    col := WriteFurnaceRise(wb, g, col, before);
    var summaryStart := col;
    col := WriteSummaryHeaders(wb, g, col, before);
    l := Layout(|g.specimen|, |g.furnace|, specAbsStart, specRiseStart, furnAbsStart, furnRiseStart, summaryStart, col - 1);
    forall k ensures Get(wb.cells, k) ==
      Overlay(if k.sheet == RawDataSheet then HeaderCell(g, k.row, k.col) else None, Get(before, k))
    {
      if k.col >= col {
        HeaderExtent(g, k.col);
      }
    }
  }

  /** Specimen absolute columns: `TC{i}` over the channel id. */
  method WriteSpecimenAbs(wb: Workbook, g: Groups, start: nat, ghost before: map<Key, Cell>) returns (col: nat)
    requires start == MakeLayout(|g.specimen|, |g.furnace|).specAbsStart
    requires HeadersUpTo(wb.cells, before, g, start)
    modifies wb
    ensures col == start + |g.specimen| && HeadersUpTo(wb.cells, before, g, col)
    ensures wb.sheets == old(wb.sheets) && wb.hidden == old(wb.hidden) && wb.charts == old(wb.charts)
  {
    col := start;
    for i := 1 to |g.specimen| + 1
      invariant col == start + i - 1 && HeadersUpTo(wb.cells, before, g, col)
      invariant wb.sheets == old(wb.sheets) && wb.hidden == old(wb.hidden) && wb.charts == old(wb.charts)
    {
      wb.SetCell(RawDataSheet, GroupRow, col, Some(Str("TC" + NatToString(i))));
      wb.SetCell(RawDataSheet, HeaderRow, col, Some(Int(g.specimen[i - 1])));
      col := col + 1;
    }
  }

  /** Specimen rise columns: `TC{i} ΔT` over `ΔT{i}`. */
  method WriteSpecimenRise(wb: Workbook, g: Groups, start: nat, ghost before: map<Key, Cell>) returns (col: nat)
    requires start == MakeLayout(|g.specimen|, |g.furnace|).specRiseStart
    requires HeadersUpTo(wb.cells, before, g, start)
    modifies wb
    ensures col == start + |g.specimen| && HeadersUpTo(wb.cells, before, g, col)
    ensures wb.sheets == old(wb.sheets) && wb.hidden == old(wb.hidden) && wb.charts == old(wb.charts)
  {
    col := start;
    for i := 1 to |g.specimen| + 1
      invariant col == start + i - 1 && HeadersUpTo(wb.cells, before, g, col)
      invariant wb.sheets == old(wb.sheets) && wb.hidden == old(wb.hidden) && wb.charts == old(wb.charts)
    {
      wb.SetCell(RawDataSheet, GroupRow, col, Some(Str("TC" + NatToString(i) + " " + Delta + "T")));
      wb.SetCell(RawDataSheet, HeaderRow, col, Some(Str(Delta + "T" + NatToString(i))));
      col := col + 1;
    }
  }

  /** Furnace absolute columns: `Furnace TC{i}` over the channel id. */
  method WriteFurnaceAbs(wb: Workbook, g: Groups, start: nat, ghost before: map<Key, Cell>) returns (col: nat)
    requires start == MakeLayout(|g.specimen|, |g.furnace|).furnAbsStart
    requires HeadersUpTo(wb.cells, before, g, start)
    modifies wb
    ensures col == start + |g.furnace| && HeadersUpTo(wb.cells, before, g, col)
    ensures wb.sheets == old(wb.sheets) && wb.hidden == old(wb.hidden) && wb.charts == old(wb.charts)
  {
    col := start;
    for i := 1 to |g.furnace| + 1
      invariant col == start + i - 1 && HeadersUpTo(wb.cells, before, g, col)
      invariant wb.sheets == old(wb.sheets) && wb.hidden == old(wb.hidden) && wb.charts == old(wb.charts)
    {
      wb.SetCell(RawDataSheet, GroupRow, col, Some(Str("Furnace TC" + NatToString(i))));
      wb.SetCell(RawDataSheet, HeaderRow, col, Some(Int(g.furnace[i - 1])));
      col := col + 1;
    }
  }

  /** Furnace rise columns: `Furnace TC{i} ΔT` over `FΔT{i}`. */
  method WriteFurnaceRise(wb: Workbook, g: Groups, start: nat, ghost before: map<Key, Cell>) returns (col: nat)
    requires start == MakeLayout(|g.specimen|, |g.furnace|).furnRiseStart
    requires HeadersUpTo(wb.cells, before, g, start)
    modifies wb
    ensures col == start + |g.furnace| && HeadersUpTo(wb.cells, before, g, col)
    ensures wb.sheets == old(wb.sheets) && wb.hidden == old(wb.hidden) && wb.charts == old(wb.charts)
  {
    col := start;
    for i := 1 to |g.furnace| + 1
      invariant col == start + i - 1 && HeadersUpTo(wb.cells, before, g, col)
      invariant wb.sheets == old(wb.sheets) && wb.hidden == old(wb.hidden) && wb.charts == old(wb.charts)
    {
      wb.SetCell(RawDataSheet, GroupRow, col, Some(Str("Furnace TC" + NatToString(i) + " " + Delta + "T")));
      wb.SetCell(RawDataSheet, HeaderRow, col, Some(Str("F" + Delta + "T" + NatToString(i))));
      col := col + 1;
    }
  }

  /** The five summary columns, grouped under "Summary". */
  method WriteSummaryHeaders(wb: Workbook, g: Groups, start: nat, ghost before: map<Key, Cell>) returns (col: nat)
    requires start == MakeLayout(|g.specimen|, |g.furnace|).summaryStart
    requires HeadersUpTo(wb.cells, before, g, start)
    modifies wb
    ensures col == start + SummaryCount && HeadersUpTo(wb.cells, before, g, col)
    ensures wb.sheets == old(wb.sheets) && wb.hidden == old(wb.hidden) && wb.charts == old(wb.charts)
  {
    col := start;
    for h := 0 to |SummaryHeaders|
      invariant col == start + h && HeadersUpTo(wb.cells, before, g, col)
      invariant wb.sheets == old(wb.sheets) && wb.hidden == old(wb.hidden) && wb.charts == old(wb.charts)
    {
      wb.SetCell(RawDataSheet, GroupRow, col, Some(Str("Summary")));
      wb.SetCell(RawDataSheet, HeaderRow, col, Some(Str(SummaryHeaders[h])));
      col := col + 1;
    }
  }

  /** Hides the specimen rise and the furnace rise columns. */
  method HideRiseColumns(wb: Workbook, l: ColumnLayout)
    modifies wb
    ensures forall sh, c :: (sh, c) in wb.hidden <==>
              (sh, c) in old(wb.hidden) || (sh == RawDataSheet && c in HiddenColumns(l))
    ensures wb.sheets == old(wb.sheets) && wb.cells == old(wb.cells) && wb.charts == old(wb.charts)
  {
    for c := l.specRiseStart to l.furnAbsStart
      invariant forall sh, c' :: (sh, c') in wb.hidden <==>
                  (sh, c') in old(wb.hidden) || (sh == RawDataSheet && l.specRiseStart <= c' < c)
      invariant wb.sheets == old(wb.sheets) && wb.cells == old(wb.cells) && wb.charts == old(wb.charts)
    {
      wb.HideColumn(RawDataSheet, c);
    }
    for c := l.furnRiseStart to l.summaryStart
      invariant forall sh, c' :: (sh, c') in wb.hidden <==>
                  (sh, c') in old(wb.hidden) ||
                  (sh == RawDataSheet && (l.specRiseStart <= c' < l.furnAbsStart || l.furnRiseStart <= c' < c))
      invariant wb.sheets == old(wb.sheets) && wb.cells == old(wb.cells) && wb.charts == old(wb.charts)
    {
      wb.HideColumn(RawDataSheet, c);
    }
  }

  /** The data cells of rows below `r` written over `before`. */
  ghost predicate DataUpTo(after: map<Key, Cell>, before: map<Key, Cell>, g: Groups, rows: seq<Reading>, r: nat) {
    forall k :: Get(after, k) ==
                Overlay(if k.sheet == RawDataSheet && k.row < r then DataCell(g, rows, k.row, k.col) else None, Get(before, k))
  }

  /** The data cells of row `r` at columns below `c` written over `before`. */
  ghost predicate RowUpTo(after: map<Key, Cell>, before: map<Key, Cell>, g: Groups, rows: seq<Reading>, r: nat, c: nat) {
    forall k :: Get(after, k) ==
                Overlay(if k.sheet == RawDataSheet && k.row == r && k.col < c then DataCell(g, rows, r, k.col) else None,
                        Get(before, k))
  }

  /** The data loop: one row per reading from row 14 on. */
  method FillData(wb: Workbook, g: Groups, l: ColumnLayout, rows: seq<Reading>)
    requires l == MakeLayout(|g.specimen|, |g.furnace|)
    modifies wb
    ensures forall k :: Get(wb.cells, k) ==
              Overlay(if k.sheet == RawDataSheet then DataCell(g, rows, k.row, k.col) else None, Get(old(wb.cells), k))
    ensures wb.sheets == old(wb.sheets) && wb.hidden == old(wb.hidden) && wb.charts == old(wb.charts)
  {
    ghost var before := wb.cells;
    for i := 0 to |rows|
      invariant DataUpTo(wb.cells, before, g, rows, DataStartRow + i)
      invariant wb.sheets == old(wb.sheets) && wb.hidden == old(wb.hidden) && wb.charts == old(wb.charts)
    {
      ghost var mid := wb.cells;
      FillRow(wb, g, l, rows, i);
      forall k ensures Get(wb.cells, k) ==
        Overlay(if k.sheet == RawDataSheet && k.row < DataStartRow + i + 1 then DataCell(g, rows, k.row, k.col) else None,
                Get(before, k))
      {
        assert Get(wb.cells, k) ==
          Overlay(if k.sheet == RawDataSheet && k.row == DataStartRow + i then DataCell(g, rows, k.row, k.col) else None, Get(mid, k));
      }
    }
  }

  /** One data row: scan, date, time, elapsed minutes, then `values.get(ch)`
      for each specimen and each furnace channel. */
  method FillRow(wb: Workbook, g: Groups, l: ColumnLayout, rows: seq<Reading>, i: nat)
    requires l == MakeLayout(|g.specimen|, |g.furnace|) && i < |rows|
    modifies wb
    ensures forall k :: Get(wb.cells, k) ==
              Overlay(if k.sheet == RawDataSheet && k.row == DataStartRow + i then DataCell(g, rows, k.row, k.col) else None,
                      Get(old(wb.cells), k))
    ensures wb.sheets == old(wb.sheets) && wb.hidden == old(wb.hidden) && wb.charts == old(wb.charts)
  {
    ghost var before := wb.cells;
    var r := DataStartRow + i;
    FillBaseCells(wb, g, l, rows, i);
    FillSpecimenValues(wb, g, l, rows, i, before);
    assert RowUpTo(wb.cells, before, g, rows, r, l.furnAbsStart);
    FillFurnaceValues(wb, g, l, rows, i, before);
    forall k ensures Get(wb.cells, k) ==
      Overlay(if k.sheet == RawDataSheet && k.row == r then DataCell(g, rows, k.row, k.col) else None, Get(before, k))
    {
      assert RowUpTo(wb.cells, before, g, rows, r, l.furnRiseStart);
    }
  }

  method FillBaseCells(wb: Workbook, g: Groups, l: ColumnLayout, rows: seq<Reading>, i: nat)
    requires l == MakeLayout(|g.specimen|, |g.furnace|) && i < |rows|
    modifies wb
    ensures RowUpTo(wb.cells, old(wb.cells), g, rows, DataStartRow + i, l.specAbsStart)
    ensures wb.sheets == old(wb.sheets) && wb.hidden == old(wb.hidden) && wb.charts == old(wb.charts)
  {
    var rd := rows[i];
    var r := DataStartRow + i;
    wb.SetCell(RawDataSheet, r, 1, Some(Int(rd.scan)));
    wb.SetCell(RawDataSheet, r, 2, Some(DateVal(rd.date)));
    wb.SetCell(RawDataSheet, r, 3, Some(TimeVal(rd.time)));
    wb.SetCell(RawDataSheet, r, 4, Some(Real(rd.elapsed)));
  }

  method FillSpecimenValues(wb: Workbook, g: Groups, l: ColumnLayout, rows: seq<Reading>, i: nat, ghost before: map<Key, Cell>)
    requires l == MakeLayout(|g.specimen|, |g.furnace|) && i < |rows|
    requires RowUpTo(wb.cells, before, g, rows, DataStartRow + i, l.specAbsStart)
    modifies wb
    ensures RowUpTo(wb.cells, before, g, rows, DataStartRow + i, l.specRiseStart)
    ensures wb.sheets == old(wb.sheets) && wb.hidden == old(wb.hidden) && wb.charts == old(wb.charts)
  {
    var rd := rows[i];
    var r := DataStartRow + i;
    for j := 0 to |g.specimen|
      invariant RowUpTo(wb.cells, before, g, rows, r, l.specAbsStart + j)
      invariant wb.sheets == old(wb.sheets) && wb.hidden == old(wb.hidden) && wb.charts == old(wb.charts)
    {
      var ch := g.specimen[j];
      var v := if ch in rd.values then Some(Real(rd.values[ch])) else None;
      wb.SetCell(RawDataSheet, r, l.specAbsStart + j, v);
    }
  }

  method FillFurnaceValues(wb: Workbook, g: Groups, l: ColumnLayout, rows: seq<Reading>, i: nat, ghost before: map<Key, Cell>)
    requires l == MakeLayout(|g.specimen|, |g.furnace|) && i < |rows|
    requires RowUpTo(wb.cells, before, g, rows, DataStartRow + i, l.furnAbsStart)
    modifies wb
    ensures RowUpTo(wb.cells, before, g, rows, DataStartRow + i, l.furnRiseStart)
    ensures wb.sheets == old(wb.sheets) && wb.hidden == old(wb.hidden) && wb.charts == old(wb.charts)
  {
    var rd := rows[i];
    var r := DataStartRow + i;
    for j := 0 to |g.furnace|
      invariant RowUpTo(wb.cells, before, g, rows, r, l.furnAbsStart + j)
      invariant wb.sheets == old(wb.sheets) && wb.hidden == old(wb.hidden) && wb.charts == old(wb.charts)
    {
      var ch := g.furnace[j];
      var v := if ch in rd.values then Some(Real(rd.values[ch])) else None;
      wb.SetCell(RawDataSheet, r, l.furnAbsStart + j, v);
    }
  }

  /** The formulas of data row `r` at columns below `c` written over `before`. */
  ghost predicate FormulasUpTo(after: map<Key, Cell>, before: map<Key, Cell>, l: ColumnLayout, r: nat, c: nat) {
    forall k :: Get(after, k) ==
                Overlay(if k.sheet == RawDataSheet && k.row == r && k.col < c then RowFormula(l, r, k.col) else None,
                        Get(before, k))
  }

  /** The formula loop over the data rows. */
  method WriteFormulas(wb: Workbook, l: ColumnLayout, rowCount: nat)
    modifies wb
    ensures forall k :: Get(wb.cells, k) ==
              Overlay(if k.sheet == RawDataSheet then FormulaCell(l, rowCount, k.row, k.col) else None, Get(old(wb.cells), k))
    ensures wb.sheets == old(wb.sheets) && wb.hidden == old(wb.hidden) && wb.charts == old(wb.charts)
  {
    ghost var before := wb.cells;
    var lastDataRow := DataStartRow + rowCount - 1;
    for r := DataStartRow to lastDataRow + 1
      invariant forall k :: Get(wb.cells, k) ==
                  Overlay(if k.sheet == RawDataSheet && k.row < r then FormulaCell(l, rowCount, k.row, k.col) else None,
                          Get(before, k))
      invariant wb.sheets == old(wb.sheets) && wb.hidden == old(wb.hidden) && wb.charts == old(wb.charts)
    {
      ghost var mid := wb.cells;
      WriteFormulaRow(wb, l, r);
      forall k ensures Get(wb.cells, k) ==
        Overlay(if k.sheet == RawDataSheet && k.row < r + 1 then FormulaCell(l, rowCount, k.row, k.col) else None,
                Get(before, k))
      {
        assert Get(wb.cells, k) ==
          Overlay(if k.sheet == RawDataSheet && k.row == r then RowFormula(l, r, k.col) else None, Get(mid, k));
      }
    }
  }

  /** The formulas of one data row: rises, then the five summaries. */
  method WriteFormulaRow(wb: Workbook, l: ColumnLayout, r: nat)
    modifies wb
    ensures forall k :: Get(wb.cells, k) ==
              Overlay(if k.sheet == RawDataSheet && k.row == r then RowFormula(l, r, k.col) else None, Get(old(wb.cells), k))
    ensures wb.sheets == old(wb.sheets) && wb.hidden == old(wb.hidden) && wb.charts == old(wb.charts)
  {
    ghost var before := wb.cells;
    assert FormulasUpTo(wb.cells, before, l, r, l.specRiseStart);
    WriteRiseFormulas(wb, l, r, l.specAbsStart, l.specRiseStart, l.specimenCount, before);
    assert FormulasUpTo(wb.cells, before, l, r, l.furnRiseStart);
    WriteRiseFormulas(wb, l, r, l.furnAbsStart, l.furnRiseStart, l.furnaceCount, before);
    WriteWindowFormulas(wb, l, r, before);
    WriteFurnaceMeans(wb, l, r, before);
    forall k ensures Get(wb.cells, k) ==
      Overlay(if k.sheet == RawDataSheet && k.row == r then RowFormula(l, r, k.col) else None, Get(before, k))
    {
      assert FormulasUpTo(wb.cells, before, l, r, l.summaryEnd + 1);
    }
  }

  /** Writing the formula of column `c` extends the written formulas by one column. */
  lemma FormulaStep(m: map<Key, Cell>, before: map<Key, Cell>, l: ColumnLayout, r: nat, c: nat, v: Cell)
    requires FormulasUpTo(m, before, l, r, c) && RowFormula(l, r, c) == Some(v)
    ensures FormulasUpTo(m[Key(RawDataSheet, r, c) := v], before, l, r, c + 1)
  {
    var m' := m[Key(RawDataSheet, r, c) := v];
    forall k ensures Get(m', k) ==
      Overlay(if k.sheet == RawDataSheet && k.row == r && k.col < c + 1 then RowFormula(l, r, k.col) else None, Get(before, k))
    {
      if k != Key(RawDataSheet, r, c) {
        assert Get(m', k) == Get(m, k);
      }
    }
  }

  /** Writes the formula of column `c`, the next one of row `r`. */
  method WriteFormulaCell(wb: Workbook, l: ColumnLayout, r: nat, c: nat, v: Cell, ghost before: map<Key, Cell>)
    requires FormulasUpTo(wb.cells, before, l, r, c) && RowFormula(l, r, c) == Some(v)
    modifies wb
    ensures FormulasUpTo(wb.cells, before, l, r, c + 1)
    ensures wb.sheets == old(wb.sheets) && wb.hidden == old(wb.hidden) && wb.charts == old(wb.charts)
  {
    FormulaStep(wb.cells, before, l, r, c, v);
    wb.SetCell(RawDataSheet, r, c, Some(v));
  }

  /** The rise formulas of one block: the cell `j` columns into the rise
      block tests and subtracts the cell `j` columns into the absolute block. */
  method WriteRiseFormulas(wb: Workbook, l: ColumnLayout, r: nat, absStart: nat, riseStart: nat, count: nat,
                           ghost before: map<Key, Cell>)
    requires (absStart, riseStart, count) == (l.specAbsStart, l.specRiseStart, l.specimenCount) ||
             (absStart, riseStart, count) == (l.furnAbsStart, l.furnRiseStart, l.furnaceCount)
    requires FormulasUpTo(wb.cells, before, l, r, riseStart)
    modifies wb
    ensures FormulasUpTo(wb.cells, before, l, r, riseStart + count)
    ensures wb.sheets == old(wb.sheets) && wb.hidden == old(wb.hidden) && wb.charts == old(wb.charts)
  {
    for j := 0 to count
      invariant FormulasUpTo(wb.cells, before, l, r, riseStart + j)
      invariant wb.sheets == old(wb.sheets) && wb.hidden == old(wb.hidden) && wb.charts == old(wb.charts)
    {
      var absCol := absStart + j;
      var riseCol := riseStart + j;
      var absAddr := ColumnLetter(absCol) + NatToString(r);
      var ambAddr := ColumnLetter(absCol) + NatToString(DataStartRow);
      var formula := "=IF(" + absAddr + "=\"\",\"\"," + absAddr + "-" + ambAddr + ")";
      assert formula == RiseFormula(absCol, r);
      assert RowFormula(l, r, riseCol) == Some(Str(formula));
      WriteFormulaCell(wb, l, r, riseCol, Str(formula), before);
    }
  }

  /** The three window formulas of data row `r`, as `RowFormula` gives them. */
  lemma WindowFormulasAt(l: ColumnLayout, r: nat)
    ensures var first := Addr(l.specRiseStart, r);
      && RowFormula(l, r, l.summaryStart) == Some(Str(WindowFormula("AVERAGE", FaceStartRow, FaceCountRow, first)))
      && RowFormula(l, r, l.summaryStart + 1) == Some(Str(WindowFormula("MAX", FaceStartRow, FaceCountRow, first)))
      && RowFormula(l, r, l.summaryStart + 2) == Some(Str(WindowFormula("AVERAGE", CoreStartRow, CoreCountRow, first)))
  {
  }

  /** The window formulas of data row `r`: mean face, max face and mean
      core over OFFSET windows whose start and size the Config sheet holds. */
  method WindowTexts(l: ColumnLayout, r: nat) returns (meanFace: string, maxFace: string, meanCore: string)
    ensures RowFormula(l, r, l.summaryStart) == Some(Str(meanFace))
    ensures RowFormula(l, r, l.summaryStart + 1) == Some(Str(maxFace))
    ensures RowFormula(l, r, l.summaryStart + 2) == Some(Str(meanCore))
  {
    WindowFormulasAt(l, r);
    var tc1 := ColumnLetter(l.specRiseStart) + NatToString(r);
    meanFace := "=IF(" + ConfigRef(4) + "=0,\"\"," + "AVERAGE" + "(OFFSET(" + tc1 + ",0," + ConfigRef(3) + "-1,1," + ConfigRef(4) + ")))";
    maxFace := "=IF(" + ConfigRef(4) + "=0,\"\"," + "MAX" + "(OFFSET(" + tc1 + ",0," + ConfigRef(3) + "-1,1," + ConfigRef(4) + ")))";
    meanCore := "=IF(" + ConfigRef(7) + "=0,\"\"," + "AVERAGE" + "(OFFSET(" + tc1 + ",0," + ConfigRef(6) + "-1,1," + ConfigRef(7) + ")))";
  }

  method WriteWindowFormulas(wb: Workbook, l: ColumnLayout, r: nat, ghost before: map<Key, Cell>)
    requires FormulasUpTo(wb.cells, before, l, r, l.summaryStart)
    modifies wb
    ensures FormulasUpTo(wb.cells, before, l, r, l.summaryStart + 3)
    ensures wb.sheets == old(wb.sheets) && wb.hidden == old(wb.hidden) && wb.charts == old(wb.charts)
  {
    var f0, f1, f2 := WindowTexts(l, r);
    var meanFaceCol := l.summaryStart;
    WriteFormulaCell(wb, l, r, meanFaceCol, Str(f0), before);
    WriteFormulaCell(wb, l, r, meanFaceCol + 1, Str(f1), before);
    WriteFormulaCell(wb, l, r, meanFaceCol + 2, Str(f2), before);
  }

  /** The furnace mean formulas of data row `r`: the averages over the
      furnace absolute and rise blocks, or blank text without furnace
      channels. */
  method FurnaceMeanTexts(l: ColumnLayout, r: nat) returns (meanAbs: string, meanRise: string)
    ensures RowFormula(l, r, l.summaryStart + 3) == Some(Str(meanAbs))
    ensures RowFormula(l, r, l.summaryStart + 4) == Some(Str(meanRise))
  {
    FurnaceMeans(l.specimenCount, l.furnaceCount, r);
    if l.furnaceCount > 0 {
      var absStart := ColumnLetter(l.furnAbsStart) + NatToString(r);
      var absEnd := ColumnLetter(l.furnRiseStart - 1) + NatToString(r);
      var riseStart := ColumnLetter(l.furnRiseStart) + NatToString(r);
      var riseEnd := ColumnLetter(l.summaryStart - 1) + NatToString(r);
      meanAbs := "=AVERAGE(" + absStart + ":" + absEnd + ")";
      meanRise := "=AVERAGE(" + riseStart + ":" + riseEnd + ")";
    } else {
      meanAbs := "";
      meanRise := "";
    }
  }

  method WriteFurnaceMeans(wb: Workbook, l: ColumnLayout, r: nat, ghost before: map<Key, Cell>)
    requires FormulasUpTo(wb.cells, before, l, r, l.summaryStart + 3)
    modifies wb
    ensures FormulasUpTo(wb.cells, before, l, r, l.summaryEnd + 1)
    ensures wb.sheets == old(wb.sheets) && wb.hidden == old(wb.hidden) && wb.charts == old(wb.charts)
  {
    var f3, f4 := FurnaceMeanTexts(l, r);
    var meanAbsCol := l.summaryStart + 3;
    WriteFormulaCell(wb, l, r, meanAbsCol, Str(f3), before);
    WriteFormulaCell(wb, l, r, meanAbsCol + 1, Str(f4), before);
    assert meanAbsCol + 2 == l.summaryEnd + 1;
  }

  method WriteSummary(wb: Workbook, source: string, g: Groups)
    modifies wb
    ensures forall k :: Get(wb.cells, k) ==
              Overlay(if k.sheet == SummarySheet then SummaryCell(source, g, k.row, k.col) else None, Get(old(wb.cells), k))
    ensures wb.sheets == old(wb.sheets) && wb.hidden == old(wb.hidden) && wb.charts == old(wb.charts)
  {
    WriteSummaryLabels(wb);
    WriteSummaryValues(wb, source, g);
  }

  method WriteSummaryLabels(wb: Workbook)
    modifies wb
    ensures forall k :: Get(wb.cells, k) ==
              Overlay(if k.sheet == SummarySheet && k.col == 1 then SummaryLabel(k.row) else None, Get(old(wb.cells), k))
    ensures wb.sheets == old(wb.sheets) && wb.hidden == old(wb.hidden) && wb.charts == old(wb.charts)
  {
    wb.SetCell(SummarySheet, 1, 1, Some(Str(SummaryTitle)));
    wb.SetCell(SummarySheet, 3, 1, Some(Str("Source file")));
    wb.SetCell(SummarySheet, 4, 1, Some(Str("Total specimen TCs")));
    wb.SetCell(SummarySheet, 5, 1, Some(Str("Total furnace TCs")));
    wb.SetCell(SummarySheet, 6, 1, Some(Str("Note")));
  }

  method WriteSummaryValues(wb: Workbook, source: string, g: Groups)
    modifies wb
    ensures forall k :: Get(wb.cells, k) ==
              Overlay(if k.sheet == SummarySheet && k.col == 2 then SummaryValue(source, g, k.row) else None, Get(old(wb.cells), k))
    ensures wb.sheets == old(wb.sheets) && wb.hidden == old(wb.hidden) && wb.charts == old(wb.charts)
  {
    wb.SetCell(SummarySheet, 3, 2, Some(Str(source)));
    wb.SetCell(SummarySheet, 4, 2, Some(Int(|g.specimen|)));
    wb.SetCell(SummarySheet, 5, 2, Some(Int(|g.furnace|)));
    wb.SetCell(SummarySheet, 6, 2, Some(Str(SummaryNote)));
  }

  /** `add_line_chart`: a line chart of column `yCol` against the elapsed
      minutes over the data rows. */
  method AddLineChart(wb: Workbook, title: string, yCol: nat, anchor: string, lastDataRow: nat)
    requires lastDataRow >= DataStartRow - 1
    modifies wb
    ensures wb.charts == old(wb.charts) + [LineChart(title, yCol, anchor, lastDataRow)]
    ensures wb.sheets == old(wb.sheets) && wb.cells == old(wb.cells) && wb.hidden == old(wb.hidden)
  {
    var chart := Chart(title, yCol, 4, DataStartRow, lastDataRow, anchor, "Temperature rise (\U{00B0}C)", "Elapsed (min)");
    wb.AddChart(chart);
  }

  method AddCharts(wb: Workbook, l: ColumnLayout, rowCount: nat)
    modifies wb
    ensures wb.charts == old(wb.charts) + Charts(l, rowCount)
    ensures wb.sheets == old(wb.sheets) && wb.cells == old(wb.cells) && wb.hidden == old(wb.hidden)
  {
    var lastDataRow := DataStartRow + rowCount - 1;
    AddLineChart(wb, "Mean temperature rise (face)", l.summaryStart, "A9", lastDataRow);
    AddLineChart(wb, "Maximum temperature rise (face)", l.summaryStart + 1, "A25", lastDataRow);
    AddLineChart(wb, "Mean temperature rise (core)", l.summaryStart + 2, "A41", lastDataRow);
  }

  method WriteObservations(wb: Workbook)
    modifies wb
    ensures forall k :: Get(wb.cells, k) ==
              Overlay(if k.sheet == ObservationsSheet then ObservationCell(k.row, k.col) else None, Get(old(wb.cells), k))
    ensures wb.sheets == old(wb.sheets) && wb.hidden == old(wb.hidden) && wb.charts == old(wb.charts)
  {
    wb.SetCell(ObservationsSheet, 1, 1, Some(Str("Observations")));
    wb.SetCell(ObservationsSheet, 3, 1, Some(Str(ObservationsNote)));
  }

  // ---------------------------------------------------------------------
  // build_report
  // ---------------------------------------------------------------------

  /** The Raw Data sheet: title and metadata, header rows, hidden rise
      columns, readings and formulas, in that order. */
  method WriteRawData(wb: Workbook, parsed: ParsedLoggerFile, source: string, g: Groups) returns (l: ColumnLayout)
    modifies wb
    ensures l == LayoutOf(g)
    ensures forall k :: Get(wb.cells, k) ==
              Overlay(if k.sheet == RawDataSheet then RawDataCell(parsed, source, g, k.row, k.col) else None, Get(old(wb.cells), k))
    ensures forall sh, c :: (sh, c) in wb.hidden <==>
              (sh, c) in old(wb.hidden) || (sh == RawDataSheet && c in HiddenColumns(l))
    ensures wb.sheets == old(wb.sheets) && wb.charts == old(wb.charts)
  {
    ghost var c0 := wb.cells;
    WriteRawTitle(wb, parsed, source, g);
    ghost var c1 := wb.cells;
    l := WriteHeaders(wb, g);
    ghost var c2 := wb.cells;
    HideRiseColumns(wb, l);
    FillData(wb, g, l, parsed.rows);
    ghost var c3 := wb.cells;
    WriteFormulas(wb, l, |parsed.rows|);
    forall k ensures Get(wb.cells, k) ==
      Overlay(if k.sheet == RawDataSheet then RawDataCell(parsed, source, g, k.row, k.col) else None, Get(c0, k))
    {
      assert Get(c1, k) == Overlay(if k.sheet == RawDataSheet then RawTitleCell(parsed, source, g, k.row, k.col) else None, Get(c0, k));
      assert Get(c2, k) == Overlay(if k.sheet == RawDataSheet then HeaderCell(g, k.row, k.col) else None, Get(c1, k));
      assert Get(c3, k) == Overlay(if k.sheet == RawDataSheet then DataCell(g, parsed.rows, k.row, k.col) else None, Get(c2, k));
    }
  }

  /** The empty workbook with the four sheets in order; the first one is
      the workbook's initial sheet, renamed. */
  method NewReportWorkbook() returns (wb: Workbook)
    ensures fresh(wb)
    ensures wb.sheets == SheetOrder && wb.cells == map[] && wb.hidden == {} && wb.charts == []
  {
    wb := new Workbook();
    wb.CreateSheet(ObservationsSheet);
    wb.CreateSheet(RawDataSheet);
    wb.CreateSheet(ConfigSheet);
  }

  /** The workbook `build_report` saves: its four sheets in order, every
      cell as `ExpectedCell` gives it, exactly the rise columns hidden and the
      three summary charts. */
  method BuildReport(parsed: ParsedLoggerFile, source: string) returns (wb: Workbook)
    ensures fresh(wb)
    ensures wb.sheets == SheetOrder
    ensures forall k :: Get(wb.cells, k) == ExpectedCell(parsed, source, k)
    ensures forall sh, c :: (sh, c) in wb.hidden <==> sh == RawDataSheet && c in HiddenColumns(LayoutOf(GroupsOf(parsed)))
    ensures wb.charts == Charts(LayoutOf(GroupsOf(parsed)), |parsed.rows|)
  {
    var g := Classify(parsed.channels);
    wb := NewReportWorkbook();
    ghost var c0 := wb.cells;
    WriteConfig(wb, |g.specimen|);
    ghost var c1 := wb.cells;
    var l := WriteRawData(wb, parsed, source, g);
    ghost var c2 := wb.cells;
    WriteSummary(wb, source, g);
    ghost var c3 := wb.cells;
    AddCharts(wb, l, |parsed.rows|);
    WriteObservations(wb);
    forall k ensures Get(wb.cells, k) == ExpectedCell(parsed, source, k) {
      assert Get(c0, k) == None;
      assert Get(c1, k) == Overlay(if k.sheet == ConfigSheet then ConfigCell(|g.specimen|, k.row, k.col) else None, None);
      assert Get(c2, k) == Overlay(if k.sheet == RawDataSheet then RawDataCell(parsed, source, g, k.row, k.col) else None, Get(c1, k));
      assert Get(c3, k) == Overlay(if k.sheet == SummarySheet then SummaryCell(source, g, k.row, k.col) else None, Get(c2, k));
    }
  }
}
