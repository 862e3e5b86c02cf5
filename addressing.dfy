/**
 * Column addressing: spreadsheet letter names (A = 1 ... Z = 26, AA = 27, ...)
 * against 1-based column numbers, and the two normalisers of the tool,
 * `_normalize_cell_key` and `_normalize_column_index`.
 *
 * The spreadsheet library behind the tool knows the column names "A" to
 * "ZZZ" only, i.e. the numbers 1 to 18278; both of its conversions raise
 * ValueError outside that range.
 */
module Addressing {
  import opened Wrappers
  import opened Decimal

  /** The number of the column named "ZZZ": 26 + 26^2 + 26^3. */
  const MaxColumn: nat := 18278

  predicate IsUpper(c: char) {
    'A' <= c <= 'Z'
  }

  predicate IsLower(c: char) {
    'a' <= c <= 'z'
  }

  predicate IsLetter(c: char) {
    IsUpper(c) || IsLower(c)
  }

  function UpperChar(c: char): (u: char)
    ensures IsLetter(c) ==> IsUpper(u)
    ensures !IsLower(c) ==> u == c
  {
    if IsLower(c) then (c as int - 32) as char else c
  }

  /** `s.upper()`, on ASCII letters. */
  function Upper(s: string): (u: string)
    ensures |u| == |s|
    ensures forall k :: 0 <= k < |s| ==> u[k] == UpperChar(s[k])
  {
    seq(|s|, k requires 0 <= k < |s| => UpperChar(s[k]))
  }

  /** `s.isalpha()`: non-empty and made of letters only. */
  predicate IsAlpha(s: string) {
    s != [] && forall k :: 0 <= k < |s| ==> IsLetter(s[k])
  }

  /** A column name: non-empty, upper-case letters only. */
  predicate IsColumnName(s: string) {
    s != [] && forall k :: 0 <= k < |s| ==> IsUpper(s[k])
  }

  /** Bijective base-26 value of a run of upper-case letters. */
  function ColumnNumber(s: string): nat
    requires forall k :: 0 <= k < |s| ==> IsUpper(s[k])
  {
    if s == [] then 0
    else
      assert IsUpper(s[|s| - 1]);
      26 * ColumnNumber(s[..|s| - 1]) + (s[|s| - 1] as int - 'A' as int + 1)
  }

  /** The name of column `n` (1-based). */
  function ColumnLetter(n: nat): (s: string)
    requires n >= 1
    ensures IsColumnName(s)
  {
    var q, d := (n - 1) / 26, (n - 1) % 26;
    (if q == 0 then [] else ColumnLetter(q)) + [('A' as int + d) as char]
  }

  /** Number -> name -> number is the identity. */
  lemma {:induction false} NumberLetterNumber(n: nat)
    requires n >= 1
    ensures ColumnNumber(ColumnLetter(n)) == n
  {
    var s := ColumnLetter(n);
    var q := (n - 1) / 26;
    if q == 0 {
      assert s[..|s| - 1] == [];
    } else {
      assert s[..|s| - 1] == ColumnLetter(q);
      NumberLetterNumber(q);
    }
  }

  /** Name -> number -> name is the identity: every column name is reached. */
  lemma {:induction false} LetterNumberLetter(s: string)
    requires IsColumnName(s)
    ensures ColumnNumber(s) >= 1
    ensures ColumnLetter(ColumnNumber(s)) == s
  {
    var init := s[..|s| - 1];
    var d := s[|s| - 1] as int - 'A' as int;
    assert 0 <= d < 26;
    var m := ColumnNumber(init);
    Base26Digit(m, d);
    if init != [] {
      LetterNumberLetter(init);
    }
    assert s == init + [s[|s| - 1]];
  }

  lemma Base26Digit(m: nat, d: int)
    requires 0 <= d < 26
    ensures (26 * m + d) / 26 == m && (26 * m + d) % 26 == d
  {
  }

  /** `column_index_from_string(u)`: the number of `u` if `u` is one of the
      library's column names, otherwise ValueError (`None`). */
  function ColumnIndexFromString(u: string): (r: Option<nat>)
    ensures r.Some? ==> 1 <= r.value <= MaxColumn && ColumnLetter(r.value) == u
  {
    if IsColumnName(u) && ColumnNumber(u) <= MaxColumn then
      LetterNumberLetter(u);
      Some(ColumnNumber(u))
    else None
  }

  /** The lookup finds every name of a column in range, i.e. it is a lookup
      in the table of the names of columns 1 to MaxColumn. */
  lemma ColumnIndexFromStringComplete(n: nat)
    requires 1 <= n <= MaxColumn
    ensures ColumnIndexFromString(ColumnLetter(n)) == Some(n)
  {
    NumberLetterNumber(n);
  }

  /** `get_column_letter(n)`: the name of column `n`, or ValueError. */
  function GetColumnLetter(n: int): (r: Result<string, string>)
    ensures r.Success? <==> 1 <= n <= MaxColumn
    ensures r.Success? ==> IsColumnName(r.value) && ColumnIndexFromString(r.value) == Some(n)
  {
    if 1 <= n <= MaxColumn then
      NumberLetterNumber(n);
      Success(ColumnLetter(n))
    else Failure("Invalid column index")
  }

  /** A column address as the normalisers receive it: a Python int or a str. */
  datatype ColumnRef = ColNum(n: int) | ColName(s: string)

  /** `_normalize_cell_key(row, col)`: `"row,number"`, where a str column is
      upper-cased and converted, and kept verbatim when it is not a column name. */
  function NormalizeCellKey(row: int, col: ColumnRef): string {
    match col
    case ColNum(n) => IntToString(row) + "," + IntToString(n)
    case ColName(s) =>
      match ColumnIndexFromString(Upper(s))
      case Some(n) => IntToString(row) + "," + IntToString(n)
      case None => IntToString(row) + "," + s
  }

  /** `_normalize_column_index(col)`: a column name for the width directive. */
  function NormalizeColumnIndex(col: ColumnRef): (r: Result<string, string>)
    ensures col.ColName? ==> r.Success?
    ensures col.ColName? && IsAlpha(col.s) ==> r.value == Upper(col.s)
    ensures col.ColName? && ParseInt(col.s).Some? && 1 <= ParseInt(col.s).value <= MaxColumn ==>
      r.value == ColumnLetter(ParseInt(col.s).value)
    ensures (col.ColName? && !IsAlpha(col.s) &&
      (ParseInt(col.s).None? || !(1 <= ParseInt(col.s).value <= MaxColumn))) ==> r.value == col.s
    ensures col.ColNum? ==> (r.Success? <==> 1 <= col.n <= MaxColumn)
    ensures col.ColNum? && r.Success? ==> r.value == ColumnLetter(col.n)
  {
    match col
    case ColNum(n) => GetColumnLetter(n)
    case ColName(s) =>
      if IsAlpha(s) then Success(Upper(s))
      else match ParseInt(s)
        case None => Success(s)
        case Some(n) =>
          match GetColumnLetter(n)
          case Success(name) => Success(name)
          case Failure(_) => Success(s)
  }

  lemma UpperIdempotent(s: string)
    ensures Upper(Upper(s)) == Upper(s)
  {
  }

  lemma ColumnNameIsUpper(s: string)
    requires IsColumnName(s)
    ensures IsAlpha(s) && Upper(s) == s
  {
  }

  /** Whatever the column, the key starts with the row in decimal and a comma. */
  lemma CellKeyRow(row: int, col: ColumnRef)
    ensures IntToString(row) + "," <= NormalizeCellKey(row, col)
  {
  }

  /** A letter column in either case and its number give the same key; a
      str column that is not a column name stays verbatim. */
  lemma CellKeyLetterOrNumber(row: int, s: string)
    ensures ColumnIndexFromString(Upper(s)).Some? ==>
      NormalizeCellKey(row, ColName(s)) == NormalizeCellKey(row, ColNum(ColumnNumber(Upper(s))))
    ensures ColumnIndexFromString(Upper(s)).Some? ==>
      NormalizeCellKey(row, ColName(s)) == NormalizeCellKey(row, ColName(Upper(s)))
    ensures ColumnIndexFromString(Upper(s)).None? ==>
      NormalizeCellKey(row, ColName(s)) == IntToString(row) + "," + s
  {
    UpperIdempotent(s);
  }

  /** For every column in range, its name, its lower-case name, its number
      and its decimal string all give one and the same key. */
  lemma CellKeySchemesAgree(row: int, n: int)
    requires 1 <= n <= MaxColumn
    ensures NormalizeCellKey(row, ColName(ColumnLetter(n))) == NormalizeCellKey(row, ColNum(n))
    ensures NormalizeCellKey(row, ColName(Lower(ColumnLetter(n)))) == NormalizeCellKey(row, ColNum(n))
    ensures NormalizeCellKey(row, ColName(IntToString(n))) == NormalizeCellKey(row, ColNum(n))
  {
    var name := ColumnLetter(n);
    NumberLetterNumber(n);
    CellKeyOfName(row, name, n);
    ColumnNameIsUpper(name);
    assert Upper(Lower(name)) == name;
    CellKeyOfName(row, Lower(name), n);
    CellKeyOfDigits(row, n);
  }

  /** A str column whose upper-case form is the name of column `n`. */
  lemma CellKeyOfName(row: int, s: string, n: int)
    requires 1 <= n <= MaxColumn && Upper(s) == ColumnLetter(n)
    ensures NormalizeCellKey(row, ColName(s)) == NormalizeCellKey(row, ColNum(n))
  {
    ColumnIndexFromStringComplete(n);
  }

  /** The decimal form of a column number is not a column name: the key
      keeps it verbatim, which is the number's own key. */
  lemma CellKeyOfDigits(row: int, n: int)
    requires 1 <= n <= MaxColumn
    ensures NormalizeCellKey(row, ColName(IntToString(n))) == NormalizeCellKey(row, ColNum(n))
  {
    var digits := IntToString(n);
    assert !IsLetter(digits[0]);
    assert ColumnIndexFromString(Upper(digits)).None? by {
      assert !IsColumnName(Upper(digits));
    }
  }

  /** `s.lower()`, on ASCII letters. */
  function Lower(s: string): (l: string)
    ensures |l| == |s|
    ensures forall k :: 0 <= k < |s| ==> (IsUpper(s[k]) ==> l[k] == (s[k] as int + 32) as char)
    ensures forall k :: 0 <= k < |s| ==> (!IsUpper(s[k]) ==> l[k] == s[k])
  {
    seq(|s|, k requires 0 <= k < |s| => if IsUpper(s[k]) then (s[k] as int + 32) as char else s[k])
  }

  /** The position of the first comma of `s` (`|s|` when there is none). */
  function FirstComma(s: string): (i: nat)
    ensures i <= |s|
  {
    if s == [] || s[0] == ',' then 0 else 1 + FirstComma(s[1..])
  }

  lemma {:induction false} FirstCommaAfter(a: string, b: string)
    requires ',' !in a
    ensures FirstComma(a + "," + b) == |a|
  {
    if a != [] {
      assert (a + "," + b)[1..] == a[1..] + "," + b;
      FirstCommaAfter(a[1..], b);
    }
  }

  /** Splitting `a,b` at the comma is unique when neither part has a comma. */
  lemma CommaSplit(a: string, b: string, c: string, d: string)
    requires ',' !in a && ',' !in c
    requires a + "," + b == c + "," + d
    ensures a == c && b == d
  {
    var x := a + "," + b;
    FirstCommaAfter(a, b);
    FirstCommaAfter(c, d);
    assert a == x[..|a|] && c == x[..|c|];
    assert b == x[|a| + 1..] && d == x[|c| + 1..];
  }

  /** The key of an emitted cell determines its row and column. */
  lemma CellKeyInjective(r1: int, c1: int, r2: int, c2: int)
    requires NormalizeCellKey(r1, ColNum(c1)) == NormalizeCellKey(r2, ColNum(c2))
    ensures r1 == r2 && c1 == c2
  {
    CommaSplit(IntToString(r1), IntToString(c1), IntToString(r2), IntToString(c2));
    IntToStringInjective(r1, r2);
    IntToStringInjective(c1, c2);
  }

  /** A key that holds a letter anywhere (such as `"1,A"`) is never the key
      of an emitted cell, which is built from two integers. */
  lemma LetterKeyNeverMatches(key: string, i: nat, row: int, col: int)
    requires i < |key| && IsLetter(key[i])
    ensures key != NormalizeCellKey(row, ColNum(col))
  {

  }

  /** The width normaliser is idempotent on its own results. */
  lemma ColumnIndexIdempotent(col: ColumnRef)
    requires NormalizeColumnIndex(col).Success?
    ensures NormalizeColumnIndex(ColName(NormalizeColumnIndex(col).value)) == NormalizeColumnIndex(col)
  {
    var r := NormalizeColumnIndex(col).value;
    match col
    case ColNum(n) =>
      ColumnNameIsUpper(r);
    case ColName(s) =>
      if IsAlpha(s) {
        UpperIdempotent(s);
      } else {
        match ParseInt(s)
        case None =>
        case Some(n) =>
          if 1 <= n <= MaxColumn {
            ColumnNameIsUpper(r);
          }
      }
  }

  /** A name in either case, a number and a decimal string for the same
      column all select the same sheet column; and that column's cell key
      is the one of its number. */
  lemma ColumnIndexSchemesAgree(n: int)
    requires 1 <= n <= MaxColumn
    ensures NormalizeColumnIndex(ColNum(n)) == Success(ColumnLetter(n))
    ensures NormalizeColumnIndex(ColName(IntToString(n))) == Success(ColumnLetter(n))
    ensures NormalizeColumnIndex(ColName(ColumnLetter(n))) == Success(ColumnLetter(n))
    ensures NormalizeColumnIndex(ColName(Lower(ColumnLetter(n)))) == Success(ColumnLetter(n))
    ensures forall row :: NormalizeCellKey(row, ColName(ColumnLetter(n))) == NormalizeCellKey(row, ColNum(n))
  {
    var name := ColumnLetter(n);
    ColumnNameIsUpper(name);
    IntRoundTrip(n);
    assert !IsLetter(IntToString(n)[0]);
    assert Upper(Lower(name)) == name;
    forall row: int
      ensures NormalizeCellKey(row, ColName(name)) == NormalizeCellKey(row, ColNum(n))
    {
      CellKeySchemesAgree(row, n);
    }
  }
}
