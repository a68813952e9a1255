/**
 * The structure of the report that `build_report` writes, stated as values:
 * which channels are furnace and which specimen channels, the default
 * face/core groups of the Config sheet, the column blocks of the Raw Data
 * sheet, its two header rows, the formula text of every data row and the
 * three chart descriptors.
 */
module ReportLayout {
  import opened Wrappers
  import opened Text
  import opened Timestamps
  import opened Columns

  // ---------------------------------------------------------------------
  // Channel classification
  // ---------------------------------------------------------------------

  const FurnaceLow: int := 300
  const FurnaceHigh: int := 400
  const MaxSpecimen: nat := 35
  const MaxFurnace: nat := 5

  predicate IsFurnace(ch: int) {
    FurnaceLow <= ch < FurnaceHigh
  }

  /** `[ch for ch in channels if 300 <= ch < 400]`. */
  function FurnaceChannels(chs: seq<int>): seq<int> {
    if chs == [] then []
    else (if IsFurnace(chs[0]) then [chs[0]] else []) + FurnaceChannels(chs[1..])
  }

  /** `[ch for ch in channels if ch not in excluded]`. */
  function Without(chs: seq<int>, excluded: seq<int>): seq<int> {
    if chs == [] then []
    else (if chs[0] !in excluded then [chs[0]] else []) + Without(chs[1..], excluded)
  }

  /** The channels that are not furnace channels, in their order. */
  function NonFurnace(chs: seq<int>): seq<int> {
    if chs == [] then []
    else (if !IsFurnace(chs[0]) then [chs[0]] else []) + NonFurnace(chs[1..])
  }

  /** The furnace channels are the channels in [300, 400), duplicates kept. */
  lemma {:induction false} FurnaceChannelsMembers(chs: seq<int>)
    ensures forall x :: x in FurnaceChannels(chs) <==> x in chs && IsFurnace(x)
  {
    if chs != [] {
      FurnaceChannelsMembers(chs[1..]);
      assert chs == [chs[0]] + chs[1..];
    }
  }

  /** Dropping what is in a list that holds exactly the furnace ids among
      `chs` keeps exactly the non-furnace channels. */
  lemma {:induction false} WithoutFurnace(chs: seq<int>, excluded: seq<int>)
    requires forall x :: x in chs ==> (x in excluded <==> IsFurnace(x))
    ensures Without(chs, excluded) == NonFurnace(chs)
  {
    if chs != [] {
      assert chs[0] in chs;
      forall x | x in chs[1..] ensures x in excluded <==> IsFurnace(x) {
        assert x in chs;
      }
      WithoutFurnace(chs[1..], excluded);
    }
  }

  /** Every channel is in exactly one of the two groups. */
  lemma {:induction false} PartitionCounts(chs: seq<int>)
    ensures multiset(FurnaceChannels(chs)) + multiset(NonFurnace(chs)) == multiset(chs)
    ensures forall x :: x in NonFurnace(chs) <==> x in chs && !IsFurnace(x)
  {
    if chs != [] {
      PartitionCounts(chs[1..]);
      assert chs == [chs[0]] + chs[1..];
    }
  }

  predicate SortedAsc(s: seq<int>) {
    forall i, j :: 0 <= i < j < |s| ==> s[i] <= s[j]
  }

  lemma SortedCons(a: int, s: seq<int>)
    requires SortedAsc(s) && (s == [] || a <= s[0])
    ensures SortedAsc([a] + s)
  {
    var t := [a] + s;
    forall i, j | 0 <= i < j < |t| ensures t[i] <= t[j] {
      if i == 0 {
        assert s[0] <= s[j - 1];
      }
    }
  }

  /** Inserting into a sorted list keeps it sorted and adds one element. */
  function Insert(x: int, s: seq<int>): (r: seq<int>)
    requires SortedAsc(s)
    ensures SortedAsc(r) && multiset(r) == multiset(s) + multiset{x}
    ensures |r| == |s| + 1 && (r[0] == x || (s != [] && r[0] == s[0]))
  {
    if s == [] || x <= s[0] then
      SortedCons(x, s);
      [x] + s
    else
      var rest := Insert(x, s[1..]);
      assert s == [s[0]] + s[1..];
      assert s[1..] != [] ==> s[0] <= s[1];
      SortedCons(s[0], rest);
      [s[0]] + rest
  }

  /** `list.sort()` on integers: ascending order, same elements. */
  function SortAsc(s: seq<int>): (r: seq<int>)
    ensures SortedAsc(r) && multiset(r) == multiset(s)
  {
    if s == [] then []
    else
      assert s == [s[0]] + s[1..];
      Insert(s[0], SortAsc(s[1..]))
  }

  /** `s[:n]`: the first `n` elements, or all of them. */
  function Take(s: seq<int>, n: nat): (r: seq<int>)
    ensures |r| == (if |s| <= n then |s| else n) && r == s[..|r|]
  {
    if |s| <= n then s else s[..n]
  }

  /** The two channel groups of the report. */
  datatype Groups = Groups(specimen: seq<int>, furnace: seq<int>)

  /** The classification at the top of `build_report`: furnace ids in
      [300, 400), specimen ids all others, each sorted ascending, then at most
      35 specimen and 5 furnace channels. */
  function Classify(chs: seq<int>): (g: Groups)
    ensures SortedAsc(g.specimen) && |g.specimen| <= MaxSpecimen
    ensures SortedAsc(g.furnace) && |g.furnace| <= MaxFurnace
  {
    var furnace := FurnaceChannels(chs);
    var specimen := Without(chs, furnace);
    Groups(Take(SortAsc(specimen), MaxSpecimen), Take(SortAsc(furnace), MaxFurnace))
  }

  /** `kept` is the `cap` smallest of `all`, in ascending order: all of them
      when there are at most `cap`, and otherwise no dropped id is smaller
      than a kept one. */
  predicate SmallestSorted(kept: seq<int>, all: seq<int>, cap: nat) {
    && SortedAsc(kept)
    && |kept| == (if |all| <= cap then |all| else cap)
    && multiset(kept) <= multiset(all)
    && (forall x, y :: x in multiset(all) - multiset(kept) && y in kept ==> y <= x)
  }

  lemma SortedSplit(r: seq<int>, n: nat)
    requires SortedAsc(r) && n <= |r|
    ensures forall x, y :: x in r[n..] && y in r[..n] ==> y <= x
  {
    forall x, y | x in r[n..] && y in r[..n] ensures y <= x {
      var j :| 0 <= j < |r[n..]| && r[n..][j] == x;
      var i :| 0 <= i < n && r[..n][i] == y;
      assert r[i] == y && r[n + j] == x;
    }
  }

  lemma SortedPrefix(r: seq<int>, n: nat)
    requires SortedAsc(r) && n <= |r|
    ensures SortedAsc(r[..n])
  {
    forall i, j | 0 <= i < j < n ensures r[..n][i] <= r[..n][j] {
      assert r[..n][i] == r[i] && r[..n][j] == r[j];
    }
  }

  /** Splitting a sequence splits its multiset. */
  lemma SplitMultiset(r: seq<int>, n: nat)
    requires n <= |r|
    ensures multiset(r) - multiset(r[..n]) == multiset(r[n..])
    ensures multiset(r[..n]) <= multiset(r)
  {
    assert r == r[..n] + r[n..];
  }

  lemma TakeSmallestOf(r: seq<int>, all: seq<int>, cap: nat)
    requires SortedAsc(r) && multiset(r) == multiset(all)
    ensures SmallestSorted(Take(r, cap), all, cap)
  {
    var k := Take(r, cap);
    var n := |k|;
    assert |all| == |r| by {
      assert |multiset(all)| == |multiset(r)|;
    }
    SplitMultiset(r, n);
    SortedSplit(r, n);
    SortedPrefix(r, n);
    forall x, y | x in multiset(all) - multiset(k) && y in k ensures y <= x {
      assert x in multiset(r[n..]);
    }
  }

  lemma TakeSmallest(all: seq<int>, cap: nat)
    ensures SmallestSorted(Take(SortAsc(all), cap), all, cap)
  {
    TakeSmallestOf(SortAsc(all), all, cap);
  }

  /** The groups hold the smallest specimen and furnace ids, sorted, up to
      the caps; every furnace id is in [300, 400) and no specimen id is. */
  lemma ClassifySpec(chs: seq<int>)
    ensures SmallestSorted(Classify(chs).specimen, NonFurnace(chs), MaxSpecimen)
    ensures SmallestSorted(Classify(chs).furnace, FurnaceChannels(chs), MaxFurnace)
    ensures forall x :: x in Classify(chs).furnace ==> x in chs && IsFurnace(x)
    ensures forall x :: x in Classify(chs).specimen ==> x in chs && !IsFurnace(x)
  {
    var furnace := FurnaceChannels(chs);
    FurnaceChannelsMembers(chs);
    WithoutFurnace(chs, furnace);
    PartitionCounts(chs);
    TakeSmallest(NonFurnace(chs), MaxSpecimen);
    TakeSmallest(furnace, MaxFurnace);
    var g := Classify(chs);
    forall x | x in g.furnace ensures x in chs && IsFurnace(x) {
      assert x in multiset(g.furnace);
    }
    forall x | x in g.specimen ensures x in chs && !IsFurnace(x) {
      assert x in multiset(g.specimen);
    }
  }

  /** Two ids in descending order sort into ascending order. */
  lemma SortPair(x: int, y: int)
    requires y < x
    ensures SortAsc([x, y]) == [y, x]
  {
    assert [x, y][1..] == [y];
    assert [y][1..] == [];
    assert SortAsc([y]) == Insert(y, []) == [y];
    assert [y][1..] == [];
    assert Insert(x, [y]) == [y] + Insert(x, []);
  }

  /** The furnace range is half open: 299 and 400 are specimen channels,
      300 and 399 furnace channels. */
  lemma ClassifyBoundaries()
    ensures Classify([400, 399, 300, 299]) == Groups([299, 400], [300, 399])
  {
    var chs := [400, 399, 300, 299];
    assert chs[1..] == [399, 300, 299] && chs[1..][1..] == [300, 299] && chs[1..][1..][1..] == [299];
    assert FurnaceChannels(chs) == [399, 300];
    assert Without(chs, [399, 300]) == [400, 299];
    SortPair(399, 300);
    SortPair(400, 299);
  }

  // ---------------------------------------------------------------------
  // Config defaults
  // ---------------------------------------------------------------------

  function Min(a: int, b: int): int { if a <= b then a else b }
  function Max(a: int, b: int): int { if a >= b then a else b }

  /** Config!B3, B4, B6 and B7: the first specimen channel of the face group
      and its size, the first of the core group and its size. */
  datatype GroupConfig = GroupConfig(faceStart: int, faceCount: int, coreStart: int, coreCount: int)

  /** The defaults written to the Config sheet: face channels 1-5 and core
      channels 6-10, shortened to the specimen channels there are. */
  function DefaultConfig(specimenCount: nat): GroupConfig {
    GroupConfig(1, Min(5, specimenCount), 6, Min(5, Max(0, specimenCount - 5)))
  }

  /** The default groups use only existing specimen channels, do not overlap,
      and together cover the first min(S, 10) of them; with ten or more
      specimen channels they are exactly 1-5 and 6-10. */
  lemma DefaultConfigFits(s: nat)
    ensures var c := DefaultConfig(s);
      && 0 <= c.faceCount && 0 <= c.coreCount
      && c.faceStart + c.faceCount - 1 <= s
      && (c.coreCount == 0 || c.coreStart + c.coreCount - 1 <= s)
      && c.faceStart + c.faceCount <= c.coreStart
      && c.faceCount + c.coreCount == Min(s, 10)
    ensures s >= 10 ==> DefaultConfig(s) == GroupConfig(1, 5, 6, 5)
  {
  }

  // ---------------------------------------------------------------------
  // Column layout of the Raw Data sheet
  // ---------------------------------------------------------------------

  const GroupRow: nat := 12
  const HeaderRow: nat := 13
  const DataStartRow: nat := 14
  const SummaryCount: nat := 5

  /** The first column of each block and the last summary column. */
  datatype Layout = Layout(
    specimenCount: nat, furnaceCount: nat,
    specAbsStart: nat, specRiseStart: nat, furnAbsStart: nat, furnRiseStart: nat,
    summaryStart: nat, summaryEnd: nat)

  /** The column blocks as `build_report` lays them out with its `col`
      counter: four base columns, then specimen absolute, specimen rise,
      furnace absolute, furnace rise and five summary columns. */
  function MakeLayout(s: nat, f: nat): (l: Layout)
    ensures l.specimenCount == s && l.furnaceCount == f
    ensures l.summaryEnd == 4 + 2 * (s + f) + SummaryCount
  {
    Layout(s, f, 5, 5 + s, 5 + 2 * s, 5 + 2 * s + f, 5 + 2 * s + 2 * f, 5 + 2 * s + 2 * f + SummaryCount - 1)
  }

  /** A layout that the column counter produces. */
  type ColumnLayout = l: Layout | l == MakeLayout(l.specimenCount, l.furnaceCount)
    witness Layout(0, 0, 5, 5, 5, 5, 5, 9)

  datatype Block = Base | SpecimenAbs | SpecimenRise | FurnaceAbs | FurnaceRise | SummaryBlock

  /** The columns of a block, first and last (an empty block has last < first). */
  function BlockFirst(l: ColumnLayout, b: Block): nat {
    match b
    case Base => 1
    case SpecimenAbs => l.specAbsStart
    case SpecimenRise => l.specRiseStart
    case FurnaceAbs => l.furnAbsStart
    case FurnaceRise => l.furnRiseStart
    case SummaryBlock => l.summaryStart
  }

  function BlockSize(l: ColumnLayout, b: Block): nat {
    match b
    case Base => 4
    case SpecimenAbs => l.specimenCount
    case SpecimenRise => l.specimenCount
    case FurnaceAbs => l.furnaceCount
    case FurnaceRise => l.furnaceCount
    case SummaryBlock => SummaryCount
  }

  predicate InBlock(l: ColumnLayout, b: Block, c: nat) {
    BlockFirst(l, b) <= c < BlockFirst(l, b) + BlockSize(l, b)
  }

  /** The block column `c` belongs to. */
  function BlockOf(l: ColumnLayout, c: nat): Option<Block> {
    if 1 <= c < l.specAbsStart then Some(Base)
    else if l.specAbsStart <= c < l.specRiseStart then Some(SpecimenAbs)
    else if l.specRiseStart <= c < l.furnAbsStart then Some(SpecimenRise)
    else if l.furnAbsStart <= c < l.furnRiseStart then Some(FurnaceAbs)
    else if l.furnRiseStart <= c < l.summaryStart then Some(FurnaceRise)
    else if l.summaryStart <= c <= l.summaryEnd then Some(SummaryBlock)
    else None
  }

  /** The blocks tile columns 1 to the last summary column without gaps or
      overlaps, each block as wide as its channel group. */
  lemma LayoutTiles(s: nat, f: nat, c: nat, b: Block)
    ensures var l := MakeLayout(s, f);
      (InBlock(l, b, c) <==> BlockOf(l, c) == Some(b)) &&
      (BlockOf(l, c).Some? <==> 1 <= c <= l.summaryEnd)
  {
  }

  /** Only the two rise blocks are hidden. */
  predicate IsRiseColumn(l: ColumnLayout, c: nat) {
    l.specRiseStart <= c < l.furnAbsStart || l.furnRiseStart <= c < l.summaryStart
  }

  function HiddenColumns(l: ColumnLayout): set<nat> {
    set c: nat | c < l.summaryStart && IsRiseColumn(l, c)
  }

  lemma HiddenAreRise(s: nat, f: nat, c: nat)
    ensures var l := MakeLayout(s, f);
      c in HiddenColumns(l) <==> BlockOf(l, c) == Some(SpecimenRise) || BlockOf(l, c) == Some(FurnaceRise)
  {
  }

  // ---------------------------------------------------------------------
  // Cells and header labels
  // ---------------------------------------------------------------------

  /** A cell value as the report writes it; text starting with "=" is a formula. */
  datatype Cell = Str(text: string) | Int(n: int) | Real(x: real) | DateVal(date: Date) | TimeVal(time: Time)

  const Delta: string := "\U{0394}"

  const BaseHeaders: seq<string> := ["Scan", "Date", "Time", "Elapsed (min)"]

  const SummaryHeaders: seq<string> :=
    ["Mean face " + Delta + "T", "Max face " + Delta + "T", "Mean core " + Delta + "T",
     "Furnace mean (abs)", "Furnace mean " + Delta + "T"]

  function Num(i: nat): string { NatToString(i) }

  /** Row 12 (group names) at column `c`. */
  function GroupLabel(g: Groups, c: nat): Option<Cell> {
    var l := MakeLayout(|g.specimen|, |g.furnace|);
    match BlockOf(l, c)
    case None => None
    case Some(b) =>
      match b
      case Base => None
      case SpecimenAbs => Some(Str("TC" + Num(c - l.specAbsStart + 1)))
      case SpecimenRise => Some(Str("TC" + Num(c - l.specRiseStart + 1) + " " + Delta + "T"))
      case FurnaceAbs => Some(Str("Furnace TC" + Num(c - l.furnAbsStart + 1)))
      case FurnaceRise => Some(Str("Furnace TC" + Num(c - l.furnRiseStart + 1) + " " + Delta + "T"))
      case SummaryBlock => Some(Str("Summary"))
  }

  /** Row 13 (column headers) at column `c`: the base names, the channel id
      over each absolute column, `ΔT{i}` / `FΔT{i}` over the rise columns and
      the summary names. */
  function ColumnHeader(g: Groups, c: nat): Option<Cell> {
    var l := MakeLayout(|g.specimen|, |g.furnace|);
    match BlockOf(l, c)
    case None => None
    case Some(b) =>
      match b
      case Base => Some(Str(BaseHeaders[c - 1]))
      case SpecimenAbs => Some(Int(g.specimen[c - l.specAbsStart]))
      case SpecimenRise => Some(Str(Delta + "T" + Num(c - l.specRiseStart + 1)))
      case FurnaceAbs => Some(Int(g.furnace[c - l.furnAbsStart]))
      case FurnaceRise => Some(Str("F" + Delta + "T" + Num(c - l.furnRiseStart + 1)))
      case SummaryBlock => Some(Str(SummaryHeaders[c - l.summaryStart]))
  }

  /** Both header rows are filled exactly on columns 5 to the last summary
      column; row 13 also names the four base columns. */
  lemma HeaderExtent(g: Groups, c: nat)
    ensures var l := MakeLayout(|g.specimen|, |g.furnace|);
      (GroupLabel(g, c).Some? <==> 5 <= c <= l.summaryEnd) &&
      (ColumnHeader(g, c).Some? <==> 1 <= c <= l.summaryEnd)
  {
  }

  // ---------------------------------------------------------------------
  // Formula text
  // ---------------------------------------------------------------------

  /** `=IF(X{r}="","",X{r}-X14)` for absolute column X: blank when the
      reading is blank, otherwise the rise over the first (ambient) row. */
  function RiseFormula(absCol: nat, r: nat): string
    requires absCol >= 1
  {
    var a := Addr(absCol, r);
    "=IF(" + a + "=\"\",\"\"," + a + "-" + Addr(absCol, DataStartRow) + ")"
  }

  /** `Sheet!$X$n`: an absolute reference to cell Xn of another sheet. */
  function SheetRef(sheet: string, col: nat, row: nat): string
    requires col >= 1
  {
    sheet + "!$" + ColumnLetter(col) + "$" + NatToString(row)
  }

  /** Reads a `Sheet!$X$n` reference back into its sheet name, column and row. */
  function ReadSheetRef(s: string): Option<(string, nat, nat)> {
    if '!' !in s then None
    else
      var k := IndexOf(s, '!');
      var a := s[k + 1..];
      if a == [] || a[0] != '$' || '$' !in a[1..] then None
      else
        var b := a[1..];
        var j := IndexOf(b, '$');
        match ParseAddr(b[..j] + b[j + 1..])
        case None => None
        case Some(cr) => Some((s[..k], cr.0, cr.1))
  }

  /** A reference to another sheet reads back as the cell it was written for. */
  lemma SheetRefRoundTrip(sheet: string, col: nat, row: nat)
    requires col >= 1 && '!' !in sheet
    ensures ReadSheetRef(SheetRef(sheet, col, row)) == Some((sheet, col, row))
  {
    var letters := ColumnLetter(col);
    var digits := NatToString(row);
    var s := SheetRef(sheet, col, row);
    assert s == sheet + ['!'] + (['$'] + letters + ['$'] + digits);
    assert s[..|sheet|] == sheet;
    IndexOfIs(s, '!', |sheet|);
    var a := s[|sheet| + 1..];
    assert a == ['$'] + (letters + ['$'] + digits);
    var b := a[1..];
    assert b == letters + ['$'] + digits;
    LetterNumber(col);
    assert '$' !in letters by {
      forall i | 0 <= i < |letters| ensures letters[i] != '$' {
        assert IsUpper(letters[i]);
      }
    }
    assert b[..|letters|] == letters;
    IndexOfIs(b, '$', |letters|);
    assert b[..|letters|] + b[|letters| + 1..] == Addr(col, row);
    AddrRoundTrip(col, row);
  }

  /** The column of the Config values: B. */
  const ConfigValueColumn: nat := 2

  /** An absolute reference to cell B{row} of the Config sheet. */
  function ConfigRef(row: nat): string {
    SheetRef("Config", ConfigValueColumn, row)
  }

  /** `=IF({count}=0,"",{agg}(OFFSET({first},0,{start}-1,1,{count})))`: blank
      for an empty group, otherwise `agg` over `count` cells starting
      `start - 1` columns right of `first`, where the Config cells in rows
      `startRow` and `countRow` give start and count. */
  function WindowFormula(agg: string, startRow: nat, countRow: nat, first: string): string {
    var count := ConfigRef(countRow);
    "=IF(" + count + "=0,\"\"," + agg + "(OFFSET(" + first + ",0," + ConfigRef(startRow) + "-1,1," + count + ")))"
  }

  /** `=AVERAGE({lo}{r}:{hi}{r})`. */
  function AverageFormula(lo: nat, hi: nat, r: nat): string
    requires lo >= 1 && hi >= 1
  {
    "=AVERAGE(" + Addr(lo, r) + ":" + Addr(hi, r) + ")"
  }

  /** The Config rows of B3/B4 (face) and B6/B7 (core). */
  const FaceStartRow: nat := 3
  const FaceCountRow: nat := 4
  const CoreStartRow: nat := 6
  const CoreCountRow: nat := 7

  /** What `build_report` writes at column `c` of data row `r`: the rise
      formulas, the three window summaries and the two furnace means (blank
      text without furnace channels). */
  function RowFormula(l: ColumnLayout, r: nat, c: nat): (v: Option<Cell>)
    ensures v.Some? <==> IsRiseColumn(l, c) || l.summaryStart <= c <= l.summaryEnd
  {
    match BlockOf(l, c)
    case None => None
    case Some(b) =>
      match b
      case Base => None
      case SpecimenAbs => None
      case FurnaceAbs => None
      case SpecimenRise => Some(Str(RiseFormula(c - l.specimenCount, r)))
      case FurnaceRise => Some(Str(RiseFormula(c - l.furnaceCount, r)))
      case SummaryBlock =>
        var first := Addr(l.specRiseStart, r);
        var k := c - l.summaryStart;
        if k == 0 then Some(Str(WindowFormula("AVERAGE", FaceStartRow, FaceCountRow, first)))
        else if k == 1 then Some(Str(WindowFormula("MAX", FaceStartRow, FaceCountRow, first)))
        else if k == 2 then Some(Str(WindowFormula("AVERAGE", CoreStartRow, CoreCountRow, first)))
        else if l.furnaceCount == 0 then Some(Str(""))
        else if k == 3 then Some(Str(AverageFormula(l.furnAbsStart, l.furnRiseStart - 1, r)))
        else Some(Str(AverageFormula(l.furnRiseStart, l.summaryStart - 1, r)))
  }

  /** The rise column of a channel refers to that channel's own absolute
      column: the same group index `i`, whose row-13 header is the channel id,
      and the ambient reading is the first data row. */
  lemma RiseRefersToOwnChannel(g: Groups, r: nat, c: nat)
    requires var l := MakeLayout(|g.specimen|, |g.furnace|);
      BlockOf(l, c) == Some(SpecimenRise) || BlockOf(l, c) == Some(FurnaceRise)
    ensures var l := MakeLayout(|g.specimen|, |g.furnace|);
      var specimen := BlockOf(l, c) == Some(SpecimenRise);
      var abs := if specimen then c - |g.specimen| else c - |g.furnace|;
      var i := if specimen then c - l.specRiseStart else c - l.furnRiseStart;
      && BlockOf(l, abs) == Some(if specimen then SpecimenAbs else FurnaceAbs)
      && ColumnHeader(g, abs) == Some(Int(if specimen then g.specimen[i] else g.furnace[i]))
      && RowFormula(l, r, c) == Some(Str(RiseFormula(abs, r)))
      && ParseAddr(Addr(abs, r)) == Some((abs, r))
      && ParseAddr(Addr(abs, DataStartRow)) == Some((abs, DataStartRow))
  {
    var l := MakeLayout(|g.specimen|, |g.furnace|);
    var specimen := BlockOf(l, c) == Some(SpecimenRise);
    var abs := if specimen then c - |g.specimen| else c - |g.furnace|;
    RiseOwnAbsColumn(g, c);
    AddrRoundTrip(abs, r);
    AddrRoundTrip(abs, DataStartRow);
  }

  /** The absolute column a rise column subtracts from is headed by the same channel. */
  lemma RiseOwnAbsColumn(g: Groups, c: nat)
    requires var l := MakeLayout(|g.specimen|, |g.furnace|);
      BlockOf(l, c) == Some(SpecimenRise) || BlockOf(l, c) == Some(FurnaceRise)
    ensures var l := MakeLayout(|g.specimen|, |g.furnace|);
      var specimen := BlockOf(l, c) == Some(SpecimenRise);
      var abs := if specimen then c - |g.specimen| else c - |g.furnace|;
      var i := if specimen then c - l.specRiseStart else c - l.furnRiseStart;
      && BlockOf(l, abs) == Some(if specimen then SpecimenAbs else FurnaceAbs)
      && ColumnHeader(g, abs) == Some(Int(if specimen then g.specimen[i] else g.furnace[i]))
  {
  }

  /** The face and core windows the summaries average over: `count` columns
      from the first specimen rise column shifted by `start - 1`. */
  predicate WindowInRiseBlock(l: ColumnLayout, start: int, count: int) {
    count == 0 || (1 <= start && l.specRiseStart + start - 1 + count - 1 < l.furnAbsStart)
  }

  /** With the default config every OFFSET window stays inside the specimen
      rise block, and the two windows are disjoint. */
  lemma DefaultWindowsInRiseBlock(s: nat, f: nat)
    ensures var l := MakeLayout(s, f);
      var c := DefaultConfig(s);
      WindowInRiseBlock(l, c.faceStart, c.faceCount) && WindowInRiseBlock(l, c.coreStart, c.coreCount)
  {
  }

  /** Furnace means average exactly the furnace absolute and rise blocks, and
      are blank text when there are no furnace channels. */
  lemma FurnaceMeans(s: nat, f: nat, r: nat)
    ensures var l := MakeLayout(s, f);
      && (f == 0 ==> RowFormula(l, r, l.summaryStart + 3) == Some(Str("")) &&
                     RowFormula(l, r, l.summaryStart + 4) == Some(Str("")))
      && (f > 0 ==>
            RowFormula(l, r, l.summaryStart + 3) == Some(Str(AverageFormula(l.furnAbsStart, l.furnAbsStart + f - 1, r))) &&
            RowFormula(l, r, l.summaryStart + 4) == Some(Str(AverageFormula(l.furnRiseStart, l.furnRiseStart + f - 1, r))))
  {
  }

  // ---------------------------------------------------------------------
  // Charts
  // ---------------------------------------------------------------------

  /** A line chart on the summary sheet: its title, the column plotted, the
      category column, the rows and the anchor cell. */
  datatype Chart = Chart(title: string, yColumn: nat, xColumn: nat, firstRow: nat, lastRow: nat,
                         anchor: string, yAxisTitle: string, xAxisTitle: string)

  const ElapsedColumn: nat := 4

  function LineChart(title: string, yCol: nat, anchor: string, lastRow: int): Chart
    requires lastRow >= DataStartRow - 1
  {
    Chart(title, yCol, ElapsedColumn, DataStartRow, lastRow, anchor,
          "Temperature rise (\U{00B0}C)", "Elapsed (min)")
  }

  /** `add_line_chart` three times: mean face, max face and mean core rise. */
  function Charts(l: ColumnLayout, rowCount: nat): seq<Chart> {
    var last := DataStartRow + rowCount - 1;
    [LineChart("Mean temperature rise (face)", l.summaryStart, "A9", last),
     LineChart("Maximum temperature rise (face)", l.summaryStart + 1, "A25", last),
     LineChart("Mean temperature rise (core)", l.summaryStart + 2, "A41", last)]
  }

  /** Each chart plots one of the first three summary columns, none of them
      hidden, against the Elapsed column, over exactly the data rows. */
  lemma ChartsPlotSummaries(s: nat, f: nat, rowCount: nat, k: nat)
    requires k < 3
    ensures var l := MakeLayout(s, f);
      var ch := Charts(l, rowCount)[k];
      && BlockOf(l, ch.yColumn) == Some(SummaryBlock)
      && ch.yColumn !in HiddenColumns(l)
      && SummaryHeaders[ch.yColumn - l.summaryStart] == SummaryHeaders[k]
      && BaseHeaders[ch.xColumn - 1] == "Elapsed (min)"
      && ch.firstRow == DataStartRow && ch.lastRow - ch.firstRow + 1 == rowCount
  {
  }
}
