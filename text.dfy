/**
 * The string primitives the converter relies on, stated with Python's
 * semantics: `str.strip`, `str.split(sep)`, `sep.join`, `str.startswith`,
 * substring search, ASCII `str.lower` and `int(str)` for base-10 text.
 */
module Text {
  import opened Wrappers

  /** The code points for which Python's `str.isspace()` holds. */
  predicate IsSpace(c: char) {
    ('\U{9}' <= c <= '\U{D}') || ('\U{1C}' <= c <= '\U{20}') ||
    c == '\U{85}' || c == '\U{A0}' || c == '\U{1680}' ||
    ('\U{2000}' <= c <= '\U{200A}') || c == '\U{2028}' || c == '\U{2029}' ||
    c == '\U{202F}' || c == '\U{205F}' || c == '\U{3000}'
  }

  predicate IsColon(c: char) { c == ':' }

  predicate IsDigit(c: char) { '0' <= c <= '9' }

  /** Drops the longest prefix whose characters all satisfy `drop`. */
  function TrimLeft(s: string, drop: char -> bool): string
    decreases |s|
  {
    if |s| > 0 && drop(s[0]) then TrimLeft(s[1..], drop) else s
  }

  /** Drops the longest suffix whose characters all satisfy `drop`. */
  function TrimRight(s: string, drop: char -> bool): string
    decreases |s|
  {
    if |s| > 0 && drop(s[|s| - 1]) then TrimRight(s[..|s| - 1], drop) else s
  }

  /** TrimLeft leaves a suffix of its input, cuts off only characters that
      satisfy `drop`, and stops at the first one that does not. */
  lemma {:induction false} TrimLeftCuts(s: string, drop: char -> bool)
    ensures var r := TrimLeft(s, drop);
      && |r| <= |s| && r == s[|s| - |r|..]
      && (forall i :: 0 <= i < |s| - |r| ==> drop(s[i]))
      && (r != [] ==> !drop(r[0]))
    decreases |s|
  {
    if |s| > 0 && drop(s[0]) {
      TrimLeftCuts(s[1..], drop);
    }
  }

  /** TrimRight leaves a prefix of its input, cuts off only characters that
      satisfy `drop`, and stops at the last one that does not. */
  lemma {:induction false} TrimRightCuts(s: string, drop: char -> bool)
    ensures var r := TrimRight(s, drop);
      && |r| <= |s| && r == s[..|r|]
      && (forall i :: |r| <= i < |s| ==> drop(s[i]))
      && (r != [] ==> !drop(r[|r| - 1]))
    decreases |s|
  {
    if |s| > 0 && drop(s[|s| - 1]) {
      TrimRightCuts(s[..|s| - 1], drop);
      var r := TrimRight(s, drop);
      forall i | |r| <= i < |s| - 1 ensures drop(s[i]) {
        assert s[..|s| - 1][i] == s[i];
      }
    }
  }

  /** Python `s.strip()`. */
  function Strip(s: string): string {
    TrimRight(TrimLeft(s, IsSpace), IsSpace)
  }

  /** Python `s.lstrip()`. */
  function LStrip(s: string): string {
    TrimLeft(s, IsSpace)
  }

  /** Python `s.strip(":")`. */
  function StripColons(s: string): string {
    TrimRight(TrimLeft(s, IsColon), IsColon)
  }

  /** Strip removes exactly the surrounding whitespace: what remains is the
      piece `s[a..b]` with `a` the length of the leading whitespace, it neither
      starts nor ends with whitespace, and everything cut off is whitespace. */
  lemma StripIsTrim(s: string)
    ensures |Strip(s)| <= |LStrip(s)| <= |s|
    ensures var a := |s| - |LStrip(s)|; var b := a + |Strip(s)|;
      && b <= |s| && Strip(s) == s[a..b]
      && (forall i :: 0 <= i < a ==> IsSpace(s[i]))
      && (forall i :: b <= i < |s| ==> IsSpace(s[i]))
      && (Strip(s) != [] ==> !IsSpace(Strip(s)[0]) && !IsSpace(Strip(s)[|Strip(s)| - 1]))
  {
    TrimBoth(s, IsSpace);
  }

  /** Trimming both ends leaves the slice between the cut-off characters. */
  lemma TrimBoth(s: string, drop: char -> bool)
    ensures var l := TrimLeft(s, drop); var r := TrimRight(l, drop); var a := |s| - |l|;
      && |r| <= |l| <= |s| && r == s[a..a + |r|]
      && (forall i :: 0 <= i < a ==> drop(s[i]))
      && (forall i :: a + |r| <= i < |s| ==> drop(s[i]))
      && (r != [] ==> !drop(r[0]) && !drop(r[|r| - 1]))
  {
    var l := TrimLeft(s, drop);
    var r := TrimRight(l, drop);
    var a := |s| - |l|;
    TrimLeftCuts(s, drop);
    TrimRightCuts(l, drop);
    assert l == s[a..] && r == l[..|r|];
    forall i | a + |r| <= i < |s| ensures drop(s[i]) {
      assert s[i] == l[i - a];
    }
    if r != [] {
      assert r[0] == l[0];
    }
  }

  /** Text with no whitespace at its ends is left alone by Strip. */
  lemma StripUnchanged(s: string)
    requires s == [] || (!IsSpace(s[0]) && !IsSpace(s[|s| - 1]))
    ensures Strip(s) == s
  {
  }

  predicate StartsWith(s: string, prefix: string) {
    |prefix| <= |s| && s[..|prefix|] == prefix
  }

  /** Python `sub in s` for strings. */
  predicate Contains(s: string, sub: string) {
    exists i :: 0 <= i <= |s| && OccursAt(s, sub, i)
  }

  /** `sub` occurs in `s` starting at index `i`. */
  predicate OccursAt(s: string, sub: string, i: nat) {
    i + |sub| <= |s| && s[i..i + |sub|] == sub
  }

  /** Index of the first occurrence of `d` in `s`. */
  function IndexOf(s: string, d: char): (k: nat)
    requires d in s
    ensures k < |s| && s[k] == d
  {
    if s[0] == d then 0 else IndexOf(s[1..], d) + 1
  }

  /** It is the first occurrence: `d` does not occur before it. */
  lemma {:induction false} IndexOfFirst(s: string, d: char)
    requires d in s
    ensures d !in s[..IndexOf(s, d)]
  {
    if s[0] != d {
      var k := IndexOf(s[1..], d);
      IndexOfFirst(s[1..], d);
      assert s[..k + 1] == [s[0]] + s[1..][..k];
    }
  }

  /** The first occurrence is the only index with `d` and no `d` before it. */
  lemma {:induction false} IndexOfIs(s: string, d: char, k: nat)
    requires k < |s| && s[k] == d && d !in s[..k]
    ensures IndexOf(s, d) == k
  {
    if k > 0 {
      assert s[0] in s[..k];
      assert s[1..][..k - 1] == s[1..k];
      assert forall c :: c in s[1..k] ==> c in s[..k];
      IndexOfIs(s[1..], d, k - 1);
    }
  }

  /** Python `s.split(d)` for a one-character separator. */
  function Split(s: string, d: char): (parts: seq<string>)
    ensures |parts| >= 1
    decreases |s|
  {
    if d !in s then [s]
    else
      var k := IndexOf(s, d);
      [s[..k]] + Split(s[k + 1..], d)
  }

  /** Python `d.join(parts)` for a one-character separator. */
  function Join(parts: seq<string>, d: char): string
    decreases |parts|
  {
    if |parts| == 0 then ""
    else if |parts| == 1 then parts[0]
    else parts[0] + [d] + Join(parts[1..], d)
  }

  /** Joining the pieces of a split gives the original text back. */
  lemma {:induction false} JoinSplit(s: string, d: char)
    ensures Join(Split(s, d), d) == s
    decreases |s|
  {
    if d in s {
      var k := IndexOf(s, d);
      var rest := Split(s[k + 1..], d);
      JoinSplit(s[k + 1..], d);
      assert Split(s, d)[1..] == rest;
      assert Join(Split(s, d), d) == s[..k] + [d] + Join(rest, d);
      assert s == s[..k] + [d] + s[k + 1..];
    }
  }

  /** Splitting a join of separator-free pieces recovers the pieces. */
  lemma {:induction false} SplitJoin(parts: seq<string>, d: char)
    requires |parts| >= 1
    requires forall i :: 0 <= i < |parts| ==> d !in parts[i]
    ensures Split(Join(parts, d), d) == parts
    decreases |parts|
  {
    if |parts| > 1 {
      var s := Join(parts, d);
      var rest := Join(parts[1..], d);
      assert s == parts[0] + [d] + rest;
      assert s[|parts[0]|] == d;
      assert s[..|parts[0]|] == parts[0];
      IndexOfIs(s, d, |parts[0]|);
      assert s[|parts[0]| + 1..] == rest;
      SplitJoin(parts[1..], d);
    } else {
      assert Join(parts, d) == parts[0];
    }
  }

  /** Every string of `ps`, stripped. */
  function StripAll(ps: seq<string>): (r: seq<string>)
    ensures |r| == |ps|
  {
    if ps == [] then [] else [Strip(ps[0])] + StripAll(ps[1..])
  }

  lemma {:induction false} StripAllAt(ps: seq<string>, i: nat)
    requires i < |ps|
    ensures StripAll(ps)[i] == Strip(ps[i])
  {
    if i > 0 {
      StripAllAt(ps[1..], i - 1);
    }
  }

  /** Python `[p.strip() for p in s.split(d)]`. */
  function SplitStripped(s: string, d: char): (parts: seq<string>)
    ensures |parts| == |Split(s, d)| >= 1
  {
    StripAll(Split(s, d))
  }

  /** Python `str.lower()` restricted to ASCII letters. */
  function LowerChar(c: char): char {
    if 'A' <= c <= 'Z' then (c as int + 32) as char else c
  }

  function Lower(s: string): (r: string)
    ensures |r| == |s|
    ensures forall i :: 0 <= i < |s| ==> r[i] == LowerChar(s[i])
  {
    seq(|s|, i requires 0 <= i < |s| => LowerChar(s[i]))
  }

  function DigitValue(c: char): nat
    requires IsDigit(c)
  {
    c as int - '0' as int
  }

  function DigitChar(n: nat): (c: char)
    requires n < 10
    ensures IsDigit(c) && DigitValue(c) == n
  {
    ('0' as int + n) as char
  }

  predicate AllDigits(s: string) {
    forall i :: 0 <= i < |s| ==> IsDigit(s[i])
  }

  /** The value of a string of decimal digits, most significant first. */
  function DigitsValue(s: string): nat
    requires AllDigits(s)
    decreases |s|
  {
    if s == [] then 0 else 10 * DigitsValue(s[..|s| - 1]) + DigitValue(s[|s| - 1])
  }

  /** Python `str(n)` for a natural number. */
  function NatToString(n: nat): (s: string)
    decreases n
  {
    if n < 10 then [DigitChar(n)] else NatToString(n / 10) + [DigitChar(n % 10)]
  }

  /** `str(n)` is a non-empty run of digits without a superfluous leading zero
      whose decimal value is `n`. */
  lemma {:induction false} NatToStringDigits(n: nat)
    ensures var s := NatToString(n);
      s != [] && AllDigits(s) && DigitsValue(s) == n && (s[0] == '0' ==> n == 0)
    decreases n
  {
    var s := NatToString(n);
    if n >= 10 {
      NatToStringDigits(n / 10);
      var p := NatToString(n / 10);
      assert s[..|s| - 1] == p;
      assert s[0] == p[0];
    }
  }

  /** The digits of a Python integer literal body: digits, with single
      underscores allowed between two digits (as `int("1_000")` accepts). */
  predicate IsIntBody(s: string) {
    && |s| > 0 && IsDigit(s[0]) && IsDigit(s[|s| - 1])
    && (forall i :: 0 <= i < |s| ==> IsDigit(s[i]) || s[i] == '_')
    && (forall i :: 0 <= i < |s| - 1 ==> !(s[i] == '_' && s[i + 1] == '_'))
  }

  function RemoveUnderscores(s: string): (r: string)
    requires forall i :: 0 <= i < |s| ==> IsDigit(s[i]) || s[i] == '_'
    ensures AllDigits(r)
    ensures AllDigits(s) ==> r == s
    decreases |s|
  {
    if s == [] then []
    else if s[0] == '_' then RemoveUnderscores(s[1..])
    else [s[0]] + RemoveUnderscores(s[1..])
  }

  /** Python `int(s)` in base 10: surrounding whitespace, an optional sign and
      an integer body; anything else is the `ValueError` case, `None`. */
  function ParseInt(s: string): Option<int> {
    var t := Strip(s);
    if |t| > 0 && (t[0] == '+' || t[0] == '-') then
      var body := t[1..];
      if IsIntBody(body) then
        var v := DigitsValue(RemoveUnderscores(body)) as int;
        Some(if t[0] == '-' then -v else v)
      else None
    else if IsIntBody(t) then Some(DigitsValue(RemoveUnderscores(t)))
    else None
  }
}
