/**
 * The structural part of the logger export: which delimiter the file uses,
 * the free-form metadata fields, the channel definition table and the
 * position of the data table header.
 */
module LoggerFormat {
  import opened Wrappers
  import opened Text
  import opened ParseErrors

  /** The two layouts of the export. */
  datatype Delim = Tab | Comma

  function DelimChar(d: Delim): char {
    if d == Tab then '\t' else ','
  }

  /** `_split_fields`: split on the delimiter and strip every field. */
  function SplitFields(line: string, d: Delim): seq<string> {
    SplitStripped(line, DelimChar(d))
  }

  function ChannelHeader(d: Delim): string {
    if d == Tab then "Channel\tName\tFunction" else "Channel,Name,Function"
  }

  // ---------------------------------------------------------------------
  // Delimiter detection
  // ---------------------------------------------------------------------

  /** How many of the first lines the header search and the vote look at. */
  const HeaderWindow: nat := 200
  const VoteWindow: nat := 50

  function Window(lines: seq<string>, n: nat): (w: seq<string>)
    ensures |w| == if |lines| < n then |lines| else n
    ensures w == lines[..|w|]
  {
    if |lines| < n then lines else lines[..n]
  }

  /** What one line of the header window says about the delimiter: a line that
      starts with "Channel", mentions "Name" and "Function" and holds the
      tab-joined (checked first) or comma-joined header names. */
  function HeaderVerdict(line: string): Option<Delim> {
    var s := Strip(line);
    if StartsWith(s, "Channel") && Contains(s, "Name") && Contains(s, "Function") then
      if '\t' in s && Contains(s, ChannelHeader(Tab)) then Some(Tab)
      else if ',' in s && Contains(s, ChannelHeader(Comma)) then Some(Comma)
      else None
    else None
  }

  /** The first present value of `vs`. */
  function FirstSome<T>(vs: seq<Option<T>>): (r: Option<T>)
    ensures r.None? <==> forall i :: 0 <= i < |vs| ==> vs[i].None?
  {
    if vs == [] then None
    else if vs[0].Some? then vs[0]
    else
      var r := FirstSome(vs[1..]);
      assert forall i :: 1 <= i < |vs| ==> vs[i] == vs[1..][i - 1];
      r
  }

  /** The first present value is the one at the first index that has one. */
  lemma {:induction false} FirstSomeIs<T>(vs: seq<Option<T>>, i: nat)
    requires i < |vs| && vs[i].Some?
    requires forall j :: 0 <= j < i ==> vs[j].None?
    ensures FirstSome(vs) == vs[i]
  {
    if i > 0 {
      assert vs[1..][i - 1] == vs[i];
      FirstSomeIs(vs[1..], i - 1);
    }
  }

  /** The verdict of every line. */
  function Verdicts(ls: seq<string>): (vs: seq<Option<Delim>>)
    ensures |vs| == |ls| && forall i :: 0 <= i < |ls| ==> vs[i] == HeaderVerdict(ls[i])
  {
    seq(|ls|, i requires 0 <= i < |ls| => HeaderVerdict(ls[i]))
  }

  /** The number of lines that contain the character `c`. */
  function CountWith(ls: seq<string>, c: char): (n: nat)
    ensures n <= |ls|
  {
    if ls == [] then 0
    else CountWith(ls[..|ls| - 1], c) + (if c in ls[|ls| - 1] then 1 else 0)
  }

  /** `_detect_delimiter_from_channel_header` as a definition. */
  function Detect(lines: seq<string>): Delim {
    match FirstSome(Verdicts(Window(lines, HeaderWindow)))
    case Some(d) => d
    case None =>
      var w := Window(lines, VoteWindow);
      if CountWith(w, '\t') >= CountWith(w, ',') then Tab else Comma
  }

  /** The first header line among the first 200 decides; failing that, the
      majority of tab-bearing against comma-bearing lines among the first 50,
      with a tie going to Tab. */
  lemma DetectDecidedBy(lines: seq<string>, i: nat)
    requires i < |lines| && i < HeaderWindow
    requires HeaderVerdict(lines[i]).Some?
    requires forall j :: 0 <= j < i ==> HeaderVerdict(lines[j]).None?
    ensures Detect(lines) == HeaderVerdict(lines[i]).value
  {
    var vs := Verdicts(Window(lines, HeaderWindow));
    assert forall j :: 0 <= j <= i ==> vs[j] == HeaderVerdict(lines[j]);
    FirstSomeIs(vs, i);
  }

  lemma DetectFallback(lines: seq<string>)
    requires forall i :: 0 <= i < |lines| && i < HeaderWindow ==> HeaderVerdict(lines[i]).None?
    ensures var w := Window(lines, VoteWindow);
      Detect(lines) == if CountWith(w, '\t') >= CountWith(w, ',') then Tab else Comma
  {
    var vs := Verdicts(Window(lines, HeaderWindow));
    forall i | 0 <= i < |vs| ensures vs[i].None? {
      assert vs[i] == HeaderVerdict(lines[i]);
    }
  }

  /** `sum(1 for l in ls if c in l)`. */
  method CountLinesWith(ls: seq<string>, c: char) returns (n: nat)
    ensures n == CountWith(ls, c)
  {
    n := 0;
    for i := 0 to |ls|
      invariant n == CountWith(ls[..i], c)
    {
      assert ls[..i + 1][..i] == ls[..i];
      if c in ls[i] { n := n + 1; }
    }
    assert ls[..|ls|] == ls;
  }

  /** `_detect_delimiter_from_channel_header`. */
  method DetectDelimiter(lines: seq<string>) returns (d: Delim)
    ensures d == Detect(lines)
  {
    var n := if |lines| < HeaderWindow then |lines| else HeaderWindow;
    for i := 0 to n
      invariant forall j :: 0 <= j < i ==> HeaderVerdict(lines[j]).None?
    {
      var verdict := HeaderVerdict(lines[i]);
      if verdict.Some? {
        DetectDecidedBy(lines, i);
        return verdict.value;
      }
    }
    DetectFallback(lines);
    var w := if |lines| < VoteWindow then lines else lines[..VoteWindow];
    var tabHits := CountLinesWith(w, '\t');
    var commaHits := CountLinesWith(w, ',');
    d := if tabHits >= commaHits then Tab else Comma;
  }

  // ---------------------------------------------------------------------
  // Metadata
  // ---------------------------------------------------------------------

  const MetadataWindow: nat := 60

  const MetadataKeys: set<string> :=
    {"Name", "Owner", "Comments", "Total", "Acquisition", "Acquisition Date"}

  /** The non-empty strings of `ps`, in order. */
  function NonEmpty(ps: seq<string>): (r: seq<string>)
    ensures forall i :: 0 <= i < |r| ==> r[i] != []
  {
    if ps == [] then []
    else (if ps[0] == [] then [] else [ps[0]]) + NonEmpty(ps[1..])
  }

  /** The metadata field a line defines, if any: the line is split on tab when
      it has one and on comma otherwise; the key is the first field without
      surrounding colons; the value is the other non-empty fields joined by
      single spaces. */
  function MetaEntry(line: string): (r: Option<(string, string)>)
    ensures r.Some? ==> r.value.0 in MetadataKeys
  {
    var parts := if '\t' in line then SplitStripped(line, '\t') else SplitStripped(line, ',');
    var key := StripColons(Strip(parts[0]));
    if key in MetadataKeys then Some((key, Join(NonEmpty(parts[1..]), ' '))) else None
  }

  /** The entry each line defines. */
  function MetaEntries(ls: seq<string>): (es: seq<Option<(string, string)>>)
    ensures |es| == |ls|
  {
    if ls == [] then [] else MetaEntries(ls[..|ls| - 1]) + [MetaEntry(ls[|ls| - 1])]
  }

  lemma {:induction false} MetaEntriesAt(ls: seq<string>, i: nat)
    requires i < |ls|
    ensures MetaEntries(ls)[i] == MetaEntry(ls[i])
    decreases |ls|
  {
    if i < |ls| - 1 {
      MetaEntriesAt(ls[..|ls| - 1], i);
    }
  }

  /** The map a run of entries builds, later entries overwriting earlier ones. */
  function Assign(es: seq<Option<(string, string)>>): map<string, string> {
    if es == [] then map[]
    else
      var m := Assign(es[..|es| - 1]);
      match es[|es| - 1]
      case Some(kv) => m[kv.0 := kv.1]
      case None => m
  }

  /** Some entry of `es` sets key `k`. */
  predicate Sets(e: Option<(string, string)>, k: string) {
    e.Some? && e.value.0 == k
  }

  /** Entry `i` sets `k` to `v` and no later entry sets `k`. */
  predicate LastSetting(es: seq<Option<(string, string)>>, i: nat, k: string, v: string)
    requires i < |es|
  {
    es[i] == Some((k, v)) && forall j :: i < j < |es| ==> !Sets(es[j], k)
  }

  /** A key is in the map exactly when some entry sets it, and its value is the
      one the last such entry gives. */
  lemma {:induction false} AssignLastWins(es: seq<Option<(string, string)>>, k: string)
    ensures k in Assign(es) <==> exists i :: 0 <= i < |es| && Sets(es[i], k)
    ensures k in Assign(es) ==> exists i :: 0 <= i < |es| && LastSetting(es, i, k, Assign(es)[k])
    decreases |es|
  {
    if es != [] {
      var p := es[..|es| - 1];
      AssignLastWins(p, k);
      assert forall i :: 0 <= i < |p| ==> p[i] == es[i];
      var last := |es| - 1;
      if Sets(es[last], k) {
        assert LastSetting(es, last, k, Assign(es)[k]);
      } else if k in Assign(p) {
        var i :| 0 <= i < |p| && LastSetting(p, i, k, Assign(p)[k]);
        assert LastSetting(es, i, k, Assign(es)[k]);
      }
    }
  }

  /** The metadata map built from `ls`, later lines overwriting earlier ones. */
  function Metadata(ls: seq<string>): map<string, string> {
    Assign(MetaEntries(ls))
  }

  /** A key is present exactly when some line defines it, and its value is the
      one the last such line gives; only the six known keys ever appear. */
  lemma MetadataLastWins(ls: seq<string>, k: string)
    ensures k in Metadata(ls) <==> exists i :: 0 <= i < |ls| && Sets(MetaEntry(ls[i]), k)
    ensures k in Metadata(ls) ==> k in MetadataKeys
    ensures k in Metadata(ls) ==> exists i :: (0 <= i < |ls| &&
      LastSetting(MetaEntries(ls), i, k, Metadata(ls)[k]) && MetaEntry(ls[i]) == Some((k, Metadata(ls)[k])))
  {
    var es := MetaEntries(ls);
    forall i | 0 <= i < |ls| ensures es[i] == MetaEntry(ls[i]) {
      MetaEntriesAt(ls, i);
    }
    AssignLastWins(es, k);
    if k in Metadata(ls) {
      var i :| 0 <= i < |es| && LastSetting(es, i, k, Assign(es)[k]);
    }
  }

  /** One more line adds its entry, if it has one, to the map. */
  lemma MetadataSnoc(lines: seq<string>, i: nat)
    requires i < |lines|
    ensures Metadata(lines[..i + 1]) ==
      match MetaEntry(lines[i])
      case Some(kv) => Metadata(lines[..i])[kv.0 := kv.1]
      case None => Metadata(lines[..i])
  {
    var ls := lines[..i + 1];
    assert ls[..i] == lines[..i] && ls[i] == lines[i];
    var es := MetaEntries(ls);
    assert es == MetaEntries(lines[..i]) + [MetaEntry(lines[i])];
    assert es[..|es| - 1] == MetaEntries(lines[..i]);
  }

  /** `_parse_metadata`: reads the first 60 lines. */
  method ParseMetadata(lines: seq<string>) returns (meta: map<string, string>)
    ensures meta == Metadata(Window(lines, MetadataWindow))
  {
    var n := if |lines| < MetadataWindow then |lines| else MetadataWindow;
    meta := map[];
    for i := 0 to n
      invariant meta == Metadata(lines[..i])
    {
      MetadataSnoc(lines, i);
      var entry := MetaEntry(lines[i]);
      if entry.Some? {
        meta := meta[entry.value.0 := entry.value.1];
      }
    }
    assert lines[..n] == Window(lines, MetadataWindow);
  }

  // ---------------------------------------------------------------------
  // Line searches
  // ---------------------------------------------------------------------

  /** The channel table header: the stripped line starts with the
      delimiter-joined names `Channel`, `Name`, `Function`. */
  predicate IsChannelHeader(line: string, d: Delim) {
    StartsWith(Strip(line), ChannelHeader(d))
  }

  /** The end of the channel block: after leading whitespace the line starts
      with `Scan` and contains `Control:` somewhere. */
  predicate IsBlockEnd(line: string) {
    StartsWith(LStrip(line), "Scan") && Contains(LStrip(line), "Control:")
  }

  /** The data table header: `Scan<tab>Time<tab>` in the tab layout,
      `Scan,Time,` or `Scan,Time` in the comma layout. */
  predicate IsDataHeader(line: string, d: Delim) {
    if d == Tab then StartsWith(Strip(line), "Scan\tTime\t")
    else StartsWith(Strip(line), "Scan,Time,") || StartsWith(Strip(line), "Scan,Time")
  }

  function ChannelHeaderHits(lines: seq<string>, d: Delim): (bs: seq<bool>)
    ensures |bs| == |lines| && forall i :: 0 <= i < |lines| ==> bs[i] == IsChannelHeader(lines[i], d)
  {
    seq(|lines|, i requires 0 <= i < |lines| => IsChannelHeader(lines[i], d))
  }

  function BlockEndHits(lines: seq<string>): (bs: seq<bool>)
    ensures |bs| == |lines| && forall i :: 0 <= i < |lines| ==> bs[i] == IsBlockEnd(lines[i])
  {
    seq(|lines|, i requires 0 <= i < |lines| => IsBlockEnd(lines[i]))
  }

  function DataHeaderHits(lines: seq<string>, d: Delim): (bs: seq<bool>)
    ensures |bs| == |lines| && forall i :: 0 <= i < |lines| ==> bs[i] == IsDataHeader(lines[i], d)
  {
    seq(|lines|, i requires 0 <= i < |lines| => IsDataHeader(lines[i], d))
  }

  /** The index of the first `true` at or after `from`: a line search with
      early return, over the list of which lines match. */
  function FirstTrue(bs: seq<bool>, from: nat): (r: Option<nat>)
    ensures r.Some? ==> from <= r.value < |bs| && bs[r.value] &&
                        forall j :: from <= j < r.value ==> !bs[j]
    ensures r.None? ==> forall j :: from <= j < |bs| ==> !bs[j]
    decreases |bs| - from
  {
    if from >= |bs| then None
    else if bs[from] then Some(from)
    else FirstTrue(bs, from + 1)
  }

  /** The search finds the match that no earlier entry (from `from` on) has. */
  lemma {:induction false} FirstTrueIs(bs: seq<bool>, from: nat, i: nat)
    requires from <= i < |bs| && bs[i]
    requires forall j :: from <= j < i ==> !bs[j]
    ensures FirstTrue(bs, from) == Some(i)
    decreases i - from
  {
    if from < i {
      FirstTrueIs(bs, from + 1, i);
    }
  }

  /** Where the channel rows lie: from just after the header line to just
      before the first end marker that follows it. */
  function ChannelBlock(lines: seq<string>, d: Delim): (r: Result<(nat, nat), ParseError>)
    ensures r.Success? ==> 1 <= r.value.0 <= r.value.1 < |lines|
  {
    match FirstTrue(ChannelHeaderHits(lines, d), 0)
    case None => Failure(ChannelHeaderMissing)
    case Some(h) =>
      match FirstTrue(BlockEndHits(lines), h + 1)
      case None => Failure(ChannelBlockEndMissing)
      case Some(e) => Success((h + 1, e))
  }

  /** The block is found exactly when some line is a channel header and a later
      line ends the block; it starts after the first header, ends at the first
      end line after it, and holds no other end line. Without a header the
      error is the missing header, whatever else the file holds; with a
      header but no end line after the first one, it is the missing end. */
  lemma ChannelBlockSpec(lines: seq<string>, d: Delim)
    ensures ChannelBlock(lines, d) == Failure(ChannelHeaderMissing) <==>
      forall i :: 0 <= i < |lines| ==> !IsChannelHeader(lines[i], d)
    ensures ChannelBlock(lines, d).Success? ==>
      var (s, e) := ChannelBlock(lines, d).value;
      && 1 <= s <= e < |lines| && IsChannelHeader(lines[s - 1], d) && IsBlockEnd(lines[e])
      && (forall j :: 0 <= j < s - 1 ==> !IsChannelHeader(lines[j], d))
      && (forall j :: s <= j < e ==> !IsBlockEnd(lines[j]))
  {
    ChannelHeaderMissingIff(lines, d);
    ChannelBlockBounds(lines, d);
  }

  lemma ChannelHeaderMissingIff(lines: seq<string>, d: Delim)
    ensures ChannelBlock(lines, d) == Failure(ChannelHeaderMissing) <==>
      forall i :: 0 <= i < |lines| ==> !IsChannelHeader(lines[i], d)
  {
    var hs := ChannelHeaderHits(lines, d);
    var h := FirstTrue(hs, 0);
    if h.Some? {
      assert hs[h.value];
      assert ChannelBlock(lines, d) != Failure(ChannelHeaderMissing);
    }
  }

  lemma ChannelBlockBounds(lines: seq<string>, d: Delim)
    ensures ChannelBlock(lines, d).Success? ==>
      var (s, e) := ChannelBlock(lines, d).value;
      && 1 <= s <= e < |lines| && IsChannelHeader(lines[s - 1], d) && IsBlockEnd(lines[e])
      && (forall j :: 0 <= j < s - 1 ==> !IsChannelHeader(lines[j], d))
      && (forall j :: s <= j < e ==> !IsBlockEnd(lines[j]))
  {
    var hs, es := ChannelHeaderHits(lines, d), BlockEndHits(lines);
    ChannelBlockHits(lines, d);
    if ChannelBlock(lines, d).Success? {
      var (s, e) := ChannelBlock(lines, d).value;
      assert hs[s - 1] && es[e];
      forall j | 0 <= j < s - 1 ensures !IsChannelHeader(lines[j], d) {
        assert !hs[j];
      }
      forall j | s <= j < e ensures !IsBlockEnd(lines[j]) {
        assert !es[j];
      }
    }
  }

  /** `ChannelBlockBounds` on the lists of which lines match. */
  lemma ChannelBlockHits(lines: seq<string>, d: Delim)
    ensures ChannelBlock(lines, d).Success? ==>
      var hs, es := ChannelHeaderHits(lines, d), BlockEndHits(lines);
      var (s, e) := ChannelBlock(lines, d).value;
      && 1 <= s <= e < |lines| && hs[s - 1] && es[e]
      && (forall j :: 0 <= j < s - 1 ==> !hs[j])
      && (forall j :: s <= j < e ==> !es[j])
  {
  }

  /** The block is found exactly when some channel header has an end line
      after it. */
  lemma ChannelBlockFound(lines: seq<string>, d: Delim)
    ensures ChannelBlock(lines, d).Success? <==>
      exists h, e :: 0 <= h < e < |lines| && IsChannelHeader(lines[h], d) && IsBlockEnd(lines[e])
  {
    var hs, es := ChannelHeaderHits(lines, d), BlockEndHits(lines);
    FollowedBy(hs, es);
    assert (exists h, e :: 0 <= h < e < |hs| && hs[h] && es[e]) <==>
      exists h, e :: 0 <= h < e < |lines| && IsChannelHeader(lines[h], d) && IsBlockEnd(lines[e]);
  }

  /** With a header, the end marker is missing exactly when no line after the
      first header ends the block. */
  lemma ChannelBlockEndMissingIff(lines: seq<string>, d: Delim)
    ensures ChannelBlock(lines, d) == Failure(ChannelBlockEndMissing) <==>
      exists h: nat :: FirstHeaderAt(lines, d, h) && forall j :: h < j < |lines| ==> !IsBlockEnd(lines[j])
  {
    var hs, es := ChannelHeaderHits(lines, d), BlockEndHits(lines);
    var h := FirstTrue(hs, 0);
    if h.Some? {
      assert FirstHeaderAt(lines, d, h.value);
      forall h': nat | FirstHeaderAt(lines, d, h') ensures h' == h.value {
        FirstTrueIs(hs, 0, h');
      }
      var e := FirstTrue(es, h.value + 1);
      if e.Some? {
        assert ChannelBlock(lines, d) == Success((h.value + 1, e.value));
        assert es[e.value];
      } else {
        assert ChannelBlock(lines, d) == Failure(ChannelBlockEndMissing);
        assert forall j :: h.value < j < |lines| ==> !es[j];
      }
    } else {
      forall h': nat ensures !FirstHeaderAt(lines, d, h') {
        if h' < |lines| {
          assert !hs[h'];
        }
      }
    }
  }

  /** A first `true` of `hs` followed later by a `true` of `es` is found
      exactly when some `true` of `hs` has a later `true` of `es`. */
  lemma FollowedBy(hs: seq<bool>, es: seq<bool>)
    requires |hs| == |es|
    ensures (FirstTrue(hs, 0).Some? && FirstTrue(es, FirstTrue(hs, 0).value + 1).Some?) <==>
      exists h, e :: 0 <= h < e < |hs| && hs[h] && es[e]
  {
    var h0 := FirstTrue(hs, 0);
    if h0.Some? && FirstTrue(es, h0.value + 1).Some? {
      var e0 := FirstTrue(es, h0.value + 1).value;
      assert hs[h0.value] && es[e0];
    }
    if exists h, e :: 0 <= h < e < |hs| && hs[h] && es[e] {
      var h, e :| 0 <= h < e < |hs| && hs[h] && es[e];
      assert h0.Some?;
      assert h0.value <= h;
      assert es[e];
    }
  }

  /** Line `h` is the first channel header of the file. */
  predicate FirstHeaderAt(lines: seq<string>, d: Delim, h: nat) {
    h < |lines| && IsChannelHeader(lines[h], d) && forall j :: 0 <= j < h ==> !IsChannelHeader(lines[j], d)
  }

  /** The first loop of `_find_channel_def_block`: the first header line. */
  method FindChannelHeader(lines: seq<string>, d: Delim) returns (h: Option<nat>)
    ensures h == FirstTrue(ChannelHeaderHits(lines, d), 0)
  {
    for i := 0 to |lines|
      invariant forall j :: 0 <= j < i ==> !IsChannelHeader(lines[j], d)
    {
      if IsChannelHeader(lines[i], d) {
        FirstTrueIs(ChannelHeaderHits(lines, d), 0, i);
        return Some(i);
      }
    }
    return None;
  }

  /** The second loop of `_find_channel_def_block`: the first end line at or
      after `from`. */
  method FindBlockEnd(lines: seq<string>, from: nat) returns (e: Option<nat>)
    ensures e == FirstTrue(BlockEndHits(lines), from)
  {
    var i := from;
    while i < |lines|
      invariant from <= i
      invariant forall j :: from <= j < i && j < |lines| ==> !IsBlockEnd(lines[j])
    {
      if IsBlockEnd(lines[i]) {
        FirstTrueIs(BlockEndHits(lines), from, i);
        return Some(i);
      }
      i := i + 1;
    }
    return None;
  }

  /** `_find_channel_def_block`. */
  method FindChannelDefBlock(lines: seq<string>, d: Delim) returns (r: Result<(nat, nat), ParseError>)
    ensures r == ChannelBlock(lines, d)
  {
    var h := FindChannelHeader(lines, d);
    if h.None? {
      return Failure(ChannelHeaderMissing);
    }
    var start := h.value + 1;
    var e := FindBlockEnd(lines, start);
    if e.None? {
      return Failure(ChannelBlockEndMissing);
    }
    assert FirstTrue(ChannelHeaderHits(lines, d), 0) == Some(h.value);
    assert FirstTrue(BlockEndHits(lines), h.value + 1) == Some(e.value);
    return Success((start, e.value));
  }

  /** The index of the data table header line, or the error for its absence. */
  function DataHeader(lines: seq<string>, d: Delim): (r: Result<nat, ParseError>)
    ensures r.Success? ==> (r.value < |lines| && IsDataHeader(lines[r.value], d) &&
      forall j :: 0 <= j < r.value ==> !IsDataHeader(lines[j], d))
    ensures r.Failure? ==> (r.error == DataHeaderMissing &&
      forall j :: 0 <= j < |lines| ==> !IsDataHeader(lines[j], d))
  {
    match FirstTrue(DataHeaderHits(lines, d), 0)
    case None => Failure(DataHeaderMissing)
    case Some(i) => Success(i)
  }

  /** `_find_data_header`. */
  method FindDataHeader(lines: seq<string>, d: Delim) returns (r: Result<nat, ParseError>)
    ensures r == DataHeader(lines, d)
  {
    for i := 0 to |lines|
      invariant forall j :: 0 <= j < i ==> !IsDataHeader(lines[j], d)
    {
      var s := Strip(lines[i]);
      if d == Tab {
        if StartsWith(s, "Scan\tTime\t") {
          FirstTrueIs(DataHeaderHits(lines, d), 0, i);
          return Success(i);
        }
      } else {
        if StartsWith(s, "Scan,Time,") || StartsWith(s, "Scan,Time") {
          FirstTrueIs(DataHeaderHits(lines, d), 0, i);
          return Success(i);
        }
      }
    }
    return Failure(DataHeaderMissing);
  }

  /** In the comma layout `"Scan,Time,"` adds nothing to `"Scan,Time"`: every
      line with the first prefix has the second. */
  lemma CommaDataHeaderIsPrefix(line: string)
    ensures IsDataHeader(line, Comma) <==> StartsWith(Strip(line), "Scan,Time")
  {
    var s := Strip(line);
    if StartsWith(s, "Scan,Time,") {
      assert s[..9] == s[..10][..9];
    }
  }

  // ---------------------------------------------------------------------
  // Channel table
  // ---------------------------------------------------------------------

  /** The integer id a channel row carries in its first field, if any. */
  function RowChannelId(line: string, d: Delim): Option<int> {
    ParseInt(Strip(SplitFields(line, d)[0]))
  }

  /** The id of every row of `ls`. */
  function RowIds(ls: seq<string>, d: Delim): (os: seq<Option<int>>)
    ensures |os| == |ls|
  {
    if ls == [] then [] else RowIds(ls[..|ls| - 1], d) + [RowChannelId(ls[|ls| - 1], d)]
  }

  lemma {:induction false} RowIdsAt(ls: seq<string>, d: Delim, i: nat)
    requires i < |ls|
    ensures RowIds(ls, d)[i] == RowChannelId(ls[i], d)
    decreases |ls|
  {
    if i < |ls| - 1 {
      RowIdsAt(ls[..|ls| - 1], d, i);
    }
  }

  lemma RowIdsPrefix(ls: seq<string>, d: Delim, i: nat)
    requires i <= |ls|
    ensures RowIds(ls[..i], d) == RowIds(ls, d)[..i]
  {
    forall k | 0 <= k < i ensures RowIds(ls[..i], d)[k] == RowIds(ls, d)[k] {
      RowIdsAt(ls[..i], d, k);
      RowIdsAt(ls, d, k);
    }
  }

  /** The ids of the rows of `ls`, in row order, duplicates kept. */
  function ChannelIds(ls: seq<string>, d: Delim): (ids: seq<int>)
    ensures |ids| <= |ls|
  {
    Present(RowIds(ls, d))
  }

  /** Every row with an integer id contributes exactly that id, at the position
      given by the number of ids before it: ids appear in row order and no
      row's id is dropped or merged. */
  lemma ChannelIdOfRow(ls: seq<string>, d: Delim, i: nat)
    requires i < |ls| && RowChannelId(ls[i], d).Some?
    ensures var k := |ChannelIds(ls[..i], d)|;
      k < |ChannelIds(ls, d)| && ChannelIds(ls, d)[k] == RowChannelId(ls[i], d).value
  {
    RowIdsAt(ls, d, i);
    RowIdsPrefix(ls, d, i);
    PresentAt(RowIds(ls, d), i);
  }

  /** Every id comes from some row of the block. */
  lemma ChannelIdsFromRows(ls: seq<string>, d: Delim, k: nat)
    requires k < |ChannelIds(ls, d)|
    ensures exists i :: 0 <= i < |ls| && RowChannelId(ls[i], d) == Some(ChannelIds(ls, d)[k])
  {
    var i := PresentFrom(RowIds(ls, d), k);
    RowIdsAt(ls, d, i);
  }

  /** One more row adds its id, if it has one. */
  lemma ChannelIdsSnoc(ls: seq<string>, d: Delim, j: nat, ch: Option<int>)
    requires j < |ls| && ch == RowChannelId(ls[j], d)
    ensures ChannelIds(ls[..j + 1], d) == ChannelIds(ls[..j], d) + (if ch.Some? then [ch.value] else [])
  {
    assert ls[..j + 1][..j] == ls[..j];
    PresentSnoc(RowIds(ls[..j], d), RowChannelId(ls[j], d));
  }

  /** The channel list of a block, or the error for an empty one. */
  function Channels(lines: seq<string>, start: nat, end: nat, d: Delim): (r: Result<seq<int>, ParseError>)
    requires start <= end <= |lines|
    ensures r.Success? ==> r.value != []
  {
    var ids := ChannelIds(lines[start..end], d);
    if ids == [] then Failure(NoChannels) else Success(ids)
  }

  /** `_parse_channels`. */
  method ParseChannels(lines: seq<string>, start: nat, end: nat, d: Delim) returns (r: Result<seq<int>, ParseError>)
    requires start <= end <= |lines|
    ensures r == Channels(lines, start, end, d)
  {
    var channels: seq<int> := [];
    var block := lines[start..end];
    for j := 0 to |block|
      invariant channels == ChannelIds(block[..j], d)
    {
      var parts := SplitFields(block[j], d);
      var ch := ParseInt(Strip(parts[0]));
      ChannelIdsSnoc(block, d, j, ch);
      if ch.Some? {
        channels := channels + [ch.value];
      }
    }
    assert block[..|block|] == block;
    if channels == [] {
      return Failure(NoChannels);
    }
    return Success(channels);
  }

}
