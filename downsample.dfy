/**
 * `downsample_full_minutes`: keep the first (ambient) row and every later
 * row whose elapsed time lies within a tolerance of a whole minute,
 * relabelling a kept row's elapsed time with that whole minute.
 * Arithmetic is exact on reals.
 */
module Downsampler {
  import opened Wrappers
  import opened DataRows

  /** The default tolerance, in seconds. */
  const DefaultTolerance: real := 0.6

  function Abs(x: real): real {
    if x < 0.0 then -x else x
  }

  /** Python 3 `round(x)`: the nearest integer, ties to the even one. */
  function RoundHalfEven(x: real): (n: int)
    ensures (n as real) - 0.5 <= x <= (n as real) + 0.5
    ensures x == (n as real) - 0.5 || x == (n as real) + 0.5 ==> n % 2 == 0
  {
    var f := x.Floor;
    var frac := x - f as real;
    if frac < 0.5 then f
    else if frac > 0.5 then f + 1
    else if f % 2 == 0 then f else f + 1
  }

  /** No integer is nearer to `x` than its rounding. */
  lemma RoundIsNearest(x: real, m: int)
    ensures Abs(x - RoundHalfEven(x) as real) <= Abs(x - m as real)
  {
    var n := RoundHalfEven(x);
    if m < n {
      assert m as real <= n as real - 1.0;
    } else if m > n {
      assert m as real >= n as real + 1.0;
    }
  }

  /** Rounding leaves an integer unchanged. */
  lemma RoundOfInteger(m: int)
    ensures RoundHalfEven(m as real) == m
  {
  }

  const SecondsPerMinute: real := 60.0

  /** How far a row's elapsed time is from the nearest whole minute, in seconds. */
  function MinuteDistance(elapsedMin: real): real {
    var elapsedSec := elapsedMin * SecondsPerMinute;
    Abs(elapsedSec - RoundHalfEven(elapsedSec / SecondsPerMinute) as real * SecondsPerMinute)
  }

  /** The loop body of `downsample_full_minutes` for the row at `idx`: row 0
      stays as it is; a later row within `tol` seconds of a whole minute stays
      with that minute as its elapsed time; any other row is dropped. */
  function KeepRow(idx: nat, r: Reading, tol: real): (k: Option<Reading>)
    ensures k.Some? ==> k.value.scan == r.scan && k.value.date == r.date &&
                        k.value.time == r.time && k.value.values == r.values
    ensures idx == 0 ==> k == Some(r)
  {
    if idx == 0 then Some(r)
    else
      var elapsedSec := r.elapsed * SecondsPerMinute;
      if MinuteDistance(r.elapsed) <= tol then
        Some(r.(elapsed := RoundHalfEven(elapsedSec / SecondsPerMinute) as real))
      else None
  }

  /** Whole minute `m` lies within `tol` seconds of `elapsedMin` minutes. */
  predicate NearMinute(elapsedMin: real, m: int, tol: real) {
    Abs(elapsedMin * SecondsPerMinute - m as real * SecondsPerMinute) <= tol
  }

  /** A later row is kept exactly when some whole minute lies within `tol`
      seconds of its elapsed time. */
  lemma KeptIffNearMinute(idx: nat, r: Reading, tol: real)
    requires idx > 0
    ensures KeepRow(idx, r, tol).Some? <==> exists m: int :: NearMinute(r.elapsed, m, tol)
  {
    var x := r.elapsed * SecondsPerMinute / SecondsPerMinute;
    assert x == r.elapsed;
    var n := RoundHalfEven(x);
    if KeepRow(idx, r, tol).Some? {
      assert NearMinute(r.elapsed, n, tol);
    } else {
      forall m: int ensures !NearMinute(r.elapsed, m, tol) {
        RoundIsNearest(x, m);
        ScaleDistance(x, n, m);
      }
    }
  }

  /** Distances to whole minutes scale with the minute length. */
  lemma ScaleDistance(x: real, n: int, m: int)
    requires Abs(x - n as real) <= Abs(x - m as real)
    ensures Abs(x * SecondsPerMinute - n as real * SecondsPerMinute) <= Abs(x * SecondsPerMinute - m as real * SecondsPerMinute)
  {
    assert x * SecondsPerMinute - n as real * SecondsPerMinute == (x - n as real) * SecondsPerMinute;
    assert x * SecondsPerMinute - m as real * SecondsPerMinute == (x - m as real) * SecondsPerMinute;
  }

  /** With a tolerance under half a minute, a kept row's new elapsed time is
      the one whole minute within the tolerance. */
  lemma KeptMinuteIsUnique(idx: nat, r: Reading, tol: real, m: int)
    requires idx > 0 && tol < 30.0
    requires NearMinute(r.elapsed, m, tol)
    ensures KeepRow(idx, r, tol) == Some(r.(elapsed := m as real))
  {
    var x := r.elapsed * SecondsPerMinute / SecondsPerMinute;
    assert x == r.elapsed;
    var n := RoundHalfEven(x);
    RoundIsNearest(x, m);
    ScaleDistance(x, n, m);
    OneMinuteApart(x, n, m, tol);
  }

  /** Two whole minutes both within under half a minute of `x` are the same. */
  lemma OneMinuteApart(x: real, n: int, m: int, tol: real)
    requires tol < 30.0
    requires Abs(x * SecondsPerMinute - n as real * SecondsPerMinute) <= tol
    requires Abs(x * SecondsPerMinute - m as real * SecondsPerMinute) <= tol
    ensures n == m
  {
    assert Abs(n as real - m as real) * SecondsPerMinute < 60.0;
  }

  /** Every row's keep-or-drop decision. */
  function Decisions(rows: seq<Reading>, tol: real): (ds: seq<Option<Reading>>)
    ensures |ds| == |rows| && forall i :: 0 <= i < |rows| ==> ds[i] == KeepRow(i, rows[i], tol)
  {
    seq(|rows|, i requires 0 <= i < |rows| => KeepRow(i, rows[i], tol))
  }

  /** The rows that `downsample_full_minutes` keeps, in order. */
  function Downsample(rows: seq<Reading>, tol: real): seq<Reading> {
    Present(Decisions(rows, tol))
  }

  /** The output is an ordered selection of the input rows: the kept
      positions increase, position 0 is always kept, every other position is
      kept exactly when `KeepRow` keeps it, and each kept row carries the
      scan, date, time and readings of the row it came from. */
  lemma DownsampleSelects(rows: seq<Reading>, tol: real) returns (idx: seq<nat>)
    ensures var out := Downsample(rows, tol);
      && |idx| == |out| <= |rows|
      && (forall k :: 0 <= k < |idx| ==> idx[k] < |rows| && Some(out[k]) == KeepRow(idx[k], rows[idx[k]], tol))
      && (forall k1, k2 :: 0 <= k1 < k2 < |idx| ==> idx[k1] < idx[k2])
      && (forall i :: 0 <= i < |rows| ==> (KeepRow(i, rows[i], tol).Some? <==> i in idx))
    ensures rows != [] ==> Downsample(rows, tol) != [] && Downsample(rows, tol)[0] == rows[0]
  {
    var ds := Decisions(rows, tol);
    idx := PresentIndices(ds);
    if rows != [] {
      assert ds[0] == Some(rows[0]);
      PresentAt(ds, 0);
      assert ds[..0] == [];
    }
  }

  /** A row after the first whose elapsed time is a whole number of minutes
      is kept unchanged, whatever the (non-negative) tolerance. */
  lemma WholeMinuteKept(idx: nat, r: Reading, tol: real, m: int)
    requires tol >= 0.0 && r.elapsed == m as real
    ensures KeepRow(idx, r, tol) == Some(r)
  {
    assert r.elapsed * SecondsPerMinute / SecondsPerMinute == m as real;
    RoundOfInteger(m);
  }

  /** Rows that all sit on whole minutes (row 0 excepted) pass unchanged. */
  lemma {:induction false} DownsampleOfWholeMinutes(rows: seq<Reading>, tol: real)
    requires tol >= 0.0
    requires forall i :: 0 < i < |rows| ==> rows[i].elapsed == rows[i].elapsed.Floor as real
    ensures Downsample(rows, tol) == rows
    decreases |rows|
  {
    if rows != [] {
      var p := rows[..|rows| - 1];
      var ds := Decisions(rows, tol);
      DownsampleOfWholeMinutes(p, tol);
      assert ds[..|ds| - 1] == Decisions(p, tol);
      var last := rows[|rows| - 1];
      if |rows| > 1 {
        WholeMinuteKept(|rows| - 1, last, tol, last.elapsed.Floor);
      }
      assert rows == p + [last];
    }
  }

  /** Downsampling twice is downsampling once. */
  lemma DownsampleIdempotent(rows: seq<Reading>, tol: real)
    requires tol >= 0.0
    ensures Downsample(Downsample(rows, tol), tol) == Downsample(rows, tol)
  {
    var out := Downsample(rows, tol);
    var idx := DownsampleSelects(rows, tol);
    forall k | 0 < k < |out| ensures out[k].elapsed == out[k].elapsed.Floor as real {
      assert idx[0] < idx[k];
      assert idx[k] > 0;
    }
    DownsampleOfWholeMinutes(out, tol);
  }

  /** Samples at 0 s, 10 s and 60 s with the default tolerance leave the
      ambient row and the one-minute row. */
  lemma TenSecondSampleDropped(r0: Reading, r1: Reading, r2: Reading)
    requires r0.elapsed == 0.0 && r1.elapsed == 10.0 / 60.0 && r2.elapsed == 1.0
    ensures Downsample([r0, r1, r2], DefaultTolerance) == [r0, r2]
  {
    var rows := [r0, r1, r2];
    var ds := Decisions(rows, DefaultTolerance);
    assert RoundHalfEven(r1.elapsed * SecondsPerMinute / SecondsPerMinute) == 0;
    assert ds[1] == None;
    WholeMinuteKept(2, r2, DefaultTolerance, 1);
    assert ds == [Some(r0), None, Some(r2)];
    assert ds[..2] == [Some(r0), None] && ds[..2][..1] == [Some(r0)] && [Some(r0)][..0] == [];
    assert Present(ds[..2]) == Present([Some(r0)]) == [r0];
  }

  /** `downsample_full_minutes`: the metadata and channels pass through. */
  method DownsampleFullMinutes(parsed: ParsedLoggerFile, tol: real) returns (r: ParsedLoggerFile)
    ensures r == ParsedLoggerFile(parsed.metadata, parsed.channels, Downsample(parsed.rows, tol))
  {
    var kept: seq<Reading> := [];
    ghost var ds := Decisions(parsed.rows, tol);
    for idx := 0 to |parsed.rows|
      invariant kept == Present(ds[..idx])
    {
      var row := parsed.rows[idx];
      assert ds[..idx + 1] == ds[..idx] + [ds[idx]];
      PresentSnoc(ds[..idx], ds[idx]);
      if idx == 0 {
        kept := kept + [row];
        continue;
      }
      var elapsedSec := row.elapsed * SecondsPerMinute;
      var minute := RoundHalfEven(elapsedSec / SecondsPerMinute);
      var dist := Abs(elapsedSec - minute as real * SecondsPerMinute);
      if dist <= tol {
        kept := kept + [row.(elapsed := minute as real)];
      }
    }
    assert ds[..|parsed.rows|] == ds;
    return ParsedLoggerFile(parsed.metadata, parsed.channels, kept);
  }
}
