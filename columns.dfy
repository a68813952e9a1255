/**
 * Spreadsheet A1 addresses: column letters in bijective base 26
 * (1 is "A", 26 is "Z", 27 is "AA"), as openpyxl's `get_column_letter`
 * writes them, followed by the decimal row number.
 */
module Columns {
  import opened Wrappers
  import opened Text

  predicate IsUpper(c: char) { 'A' <= c <= 'Z' }

  predicate AllUpper(s: string) {
    forall i :: 0 <= i < |s| ==> IsUpper(s[i])
  }

  /** A column name: a non-empty run of capital letters. */
  predicate IsColumnName(s: string) {
    |s| > 0 && AllUpper(s)
  }

  /** The letter of digit `d` in base 26. */
  function LetterOf(d: nat): (c: char)
    requires d < 26
    ensures IsUpper(c)
  {
    ('A' as int + d) as char
  }

  /** `get_column_letter(n)`. */
  function ColumnLetter(n: nat): string
    requires n >= 1
    decreases n
  {
    var q := (n - 1) / 26;
    (if q == 0 then "" else ColumnLetter(q)) + [LetterOf((n - 1) % 26)]
  }

  /** The column number a column name stands for ("A" is 1). */
  function ColumnNumber(s: string): nat
    requires AllUpper(s)
    decreases |s|
  {
    if s == [] then 0
    else 26 * ColumnNumber(s[..|s| - 1]) + (s[|s| - 1] as int - 'A' as int + 1)
  }

  lemma AllUpperSnoc(p: string, c: char)
    requires AllUpper(p) && IsUpper(c)
    ensures AllUpper(p + [c])
  {
    var s := p + [c];
    forall i | 0 <= i < |s| ensures IsUpper(s[i]) {
      if i < |p| {
        assert s[i] == p[i];
      }
    }
  }

  /** Column letters are a column name that reads back as the same number. */
  lemma {:induction false} LetterNumber(n: nat)
    requires n >= 1
    ensures IsColumnName(ColumnLetter(n)) && ColumnNumber(ColumnLetter(n)) == n
    decreases n
  {
    var q := (n - 1) / 26;
    var d := (n - 1) % 26;
    var c := LetterOf(d);
    var p := if q == 0 then "" else ColumnLetter(q);
    if q != 0 {
      LetterNumber(q);
    }
    assert AllUpper(p) && ColumnNumber(p) == q;
    var s := p + [c];
    assert s == ColumnLetter(n);
    AllUpperSnoc(p, c);
    assert s[..|s| - 1] == p;
    assert ColumnNumber(s) == 26 * q + d + 1;
  }

  /** Every column name is the letters of exactly one column number. */
  lemma {:induction false} NumberLetter(s: string)
    requires IsColumnName(s)
    ensures ColumnNumber(s) >= 1 && ColumnLetter(ColumnNumber(s)) == s
    decreases |s|
  {
    var p := s[..|s| - 1];
    var d := s[|s| - 1] as int - 'A' as int;
    var n := ColumnNumber(s);
    assert AllUpper(p) by {
      forall i | 0 <= i < |p| ensures IsUpper(p[i]) {
        assert p[i] == s[i];
      }
    }
    assert n == 26 * ColumnNumber(p) + d + 1;
    assert (n - 1) / 26 == ColumnNumber(p) && (n - 1) % 26 == d;
    if p != [] {
      NumberLetter(p);
    } else {
      assert ColumnNumber(p) == 0;
    }
    assert s == p + [s[|s| - 1]];
  }

  /** The A1 address of a cell, such as "E14". */
  function Addr(col: nat, row: nat): string
    requires col >= 1
  {
    ColumnLetter(col) + NatToString(row)
  }

  /** The number of capital letters at the start of `s`. */
  function LeadingUpper(s: string): (k: nat)
    ensures k <= |s|
    decreases |s|
  {
    if s != [] && IsUpper(s[0]) then 1 + LeadingUpper(s[1..]) else 0
  }

  lemma {:induction false} LeadingUpperPrefix(s: string)
    ensures AllUpper(s[..LeadingUpper(s)])
    decreases |s|
  {
    if s != [] && IsUpper(s[0]) {
      LeadingUpperPrefix(s[1..]);
      var k := LeadingUpper(s[1..]);
      assert s[..k + 1] == [s[0]] + s[1..][..k];
    }
  }

  /** Letters followed by a non-letter: the leading run is the letters. */
  lemma {:induction false} LeadingUpperOf(letters: string, rest: string)
    requires AllUpper(letters) && rest != [] && !IsUpper(rest[0])
    ensures LeadingUpper(letters + rest) == |letters|
    decreases |letters|
  {
    if letters != [] {
      assert (letters + rest)[1..] == letters[1..] + rest;
      LeadingUpperOf(letters[1..], rest);
    } else {
      assert letters + rest == rest;
    }
  }

  /** Reads an A1 address back into its column and row. */
  function ParseAddr(s: string): Option<(nat, nat)> {
    var k := LeadingUpper(s);
    LeadingUpperPrefix(s);
    var digits := s[k..];
    if k > 0 && digits != [] && AllDigits(digits) then Some((ColumnNumber(s[..k]), DigitsValue(digits)))
    else None
  }

  /** Reading an address back gives the cell it was written for. */
  lemma AddrRoundTrip(col: nat, row: nat)
    requires col >= 1
    ensures ParseAddr(Addr(col, row)) == Some((col, row))
  {
    var letters := ColumnLetter(col);
    var digits := NatToString(row);
    var s := Addr(col, row);
    LetterNumber(col);
    NatToStringDigits(row);
    LeadingUpperOf(letters, digits);
    assert s[..|letters|] == letters;
    assert s[|letters|..] == digits;
  }

  /** Distinct cells have distinct addresses. */
  lemma AddrInjective(c1: nat, r1: nat, c2: nat, r2: nat)
    requires c1 >= 1 && c2 >= 1 && Addr(c1, r1) == Addr(c2, r2)
    ensures c1 == c2 && r1 == r2
  {
    AddrRoundTrip(c1, r1);
    AddrRoundTrip(c2, r2);
  }
}
