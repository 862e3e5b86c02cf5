/**
 * The worksheet the tool fills in (`generate_excel_bytes`): the layout loop
 * that writes the table from `start_row` with an optional header row, and
 * the sheet-wide directives for column widths, row heights and merged
 * ranges (`_apply_column_width`, `_apply_row_height`, `_apply_merge_cells`).
 */
module Worksheet {
  import opened Wrappers
  import opened JsonValue
  import opened Decimal
  import opened Addressing
  import opened CellFormat
  import opened Parsing

  /** A 1-based (row, column) position. */
  datatype Coord = Coord(row: int, col: int)

  datatype Cell = Cell(value: Json, style: Style)

  /** The cell a position holds before anything is written to it. */
  const EmptyCell: Cell := Cell(JNull, DefaultStyle)

  // ---------------------------------------------------------------------
  // Layout

  /** The rows the frame yields: the column labels first when the header is
      shown, then one row per record. */
  function EmittedRows(t: Table, header: bool): (rows: seq<seq<Json>>)
    ensures |rows| == HeaderRows(header) + |t.rows|
    ensures header ==> rows[0] == t.columns
    ensures rows[HeaderRows(header)..] == t.rows
  {
    (if header then [t.columns] else []) + t.rows
  }

  /** Position `p` receives an element when emitted row `p.row - start` exists
      and has at least `p.col` elements. */
  predicate InLayout(rows: seq<seq<Json>>, start: int, p: Coord) {
    start <= p.row < start + |rows| && 1 <= p.col <= |rows[p.row - start]|
  }

  /** The key under which the style of the cell at `p` is looked up. */
  function CellKey(p: Coord): string {
    NormalizeCellKey(p.row, ColNum(p.col))
  }

  /** `_apply_cell_format` for the cell at `p`: the override found under
      the cell's own key. */
  function Resolver(fmt: Json): Coord -> Result<Style, string> {
    p => CellOverride(fmt, CellKey(p))
  }

  /** Writing at `p` neither hits the library's "at least 1" check nor a
      malformed style entry. */
  predicate CellWritable(resolve: Coord -> Result<Style, string>, p: Coord) {
    p.row >= 1 && resolve(p).Success?
  }

  /** Saving names every written cell by its column letter, so no emitted
      row may be wider than the last column. */
  predicate RowsSavable(rows: seq<seq<Json>>) {
    forall k :: 0 <= k < |rows| ==> |rows[k]| <= MaxColumn
  }

  /** The rows fit exactly when every laid-out position has a column letter. */
  lemma RowsSavableLetters(rows: seq<seq<Json>>, start: int)
    ensures RowsSavable(rows) <==> forall p :: InLayout(rows, start, p) ==> GetColumnLetter(p.col).Success?
  {
    if !RowsSavable(rows) {
      var k :| 0 <= k < |rows| && |rows[k]| > MaxColumn;
      var p := Coord(start + k, MaxColumn + 1);
      assert InLayout(rows, start, p) && GetColumnLetter(p.col).Failure?;
    }
  }

  ghost predicate LayoutOk(rows: seq<seq<Json>>, start: int, resolve: Coord -> Result<Style, string>) {
    forall p :: InLayout(rows, start, p) ==> CellWritable(resolve, p)
  }

  function Prior(cells: map<Coord, Cell>, p: Coord): Cell {
    if p in cells then cells[p] else EmptyCell
  }

  /** The cell at `p` once its element is written over `cells`: the element
      (a None element leaves the value alone) styled by the entry found
      under the cell's own key. */
  function Placed(cells: map<Coord, Cell>, rows: seq<seq<Json>>, start: int,
                  resolve: Coord -> Result<Style, string>, p: Coord): Cell
    requires InLayout(rows, start, p) && CellWritable(resolve, p)
  {
    Written(Prior(cells, p), rows[p.row - start][p.col - 1], resolve(p).value)
  }

  /** `ws.cell(row, col, value=v)` followed by the style override `o`. */
  function Written(prior: Cell, v: Json, o: Style): Cell {
    Cell(if v == JNull then prior.value else v, Apply(prior.style, o))
  }

  /** The positions emitted row `i` fills. */
  predicate RowCell(rows: seq<seq<Json>>, start: int, i: int, p: Coord)
    requires 0 <= i < |rows|
  {
    p.row == start + i && 1 <= p.col <= |rows[i]|
  }

  /** The cells of row `i` up to column `j`, and all rows before `i`. */
  predicate Done(rows: seq<seq<Json>>, start: int, i: int, j: int, p: Coord) {
    InLayout(rows, start, p) && (p.row < start + i || (p.row == start + i && p.col <= j))
  }

  /** Writing cell `j + 1` of row `i` over its first `j` cells gives the first `j + 1`. */
  lemma CellStep(base: map<Coord, Cell>, before: map<Coord, Cell>,
                 rows: seq<seq<Json>>, start: int, resolve: Coord -> Result<Style, string>, i: nat, j: nat)
    requires i < |rows| && j < |rows[i]|
    requires CellWritable(resolve, Coord(start + i, j + 1))
    requires forall p :: RowCell(rows, start, i, p) && p.col <= j ==> CellWritable(resolve, p)
    requires forall p :: p in before <==> p in base || (RowCell(rows, start, i, p) && p.col <= j)
    requires forall p :: RowCell(rows, start, i, p) && p.col <= j ==> before[p] == Placed(base, rows, start, resolve, p)
    requires forall p :: p in base && !(RowCell(rows, start, i, p) && p.col <= j) ==> before[p] == base[p]
    ensures var q := Coord(start + i, j + 1);
      var after := before[q := Written(Prior(before, q), rows[i][j], resolve(q).value)];
      && (forall p :: RowCell(rows, start, i, p) && p.col <= j + 1 ==> CellWritable(resolve, p))
      && (forall p :: p in after <==> p in base || (RowCell(rows, start, i, p) && p.col <= j + 1))
      && (forall p :: RowCell(rows, start, i, p) && p.col <= j + 1 ==> after[p] == Placed(base, rows, start, resolve, p))
      && (forall p :: p in base && !(RowCell(rows, start, i, p) && p.col <= j + 1) ==> after[p] == base[p])
  {
    var q := Coord(start + i, j + 1);
    assert RowCell(rows, start, i, q);
    assert Prior(before, q) == Prior(base, q);
  }

  /** Writing row `i` over the first `i` rows gives the first `i + 1`. */
  lemma RowsStep(base: map<Coord, Cell>, before: map<Coord, Cell>, after: map<Coord, Cell>,
                 rows: seq<seq<Json>>, start: int, resolve: Coord -> Result<Style, string>, i: nat)
    requires i < |rows|
    requires forall p :: Done(rows, start, i, 0, p) ==> CellWritable(resolve, p)
    requires forall p :: p in before <==> p in base || Done(rows, start, i, 0, p)
    requires forall p :: Done(rows, start, i, 0, p) ==> before[p] == Placed(base, rows, start, resolve, p)
    requires forall p :: p in base && !Done(rows, start, i, 0, p) ==> before[p] == base[p]
    requires forall p :: RowCell(rows, start, i, p) ==> CellWritable(resolve, p)
    requires forall p :: p in after <==> p in before || RowCell(rows, start, i, p)
    requires forall p :: RowCell(rows, start, i, p) ==> after[p] == Placed(before, rows, start, resolve, p)
    requires forall p :: p in before && !RowCell(rows, start, i, p) ==> after[p] == before[p]
    ensures forall p :: Done(rows, start, i + 1, 0, p) ==> CellWritable(resolve, p)
    ensures forall p :: p in after <==> p in base || Done(rows, start, i + 1, 0, p)
    ensures forall p :: p in base && !Done(rows, start, i + 1, 0, p) ==> after[p] == base[p]
  {
  }

  /** The values of the first `i + 1` rows, as in `RowsStep`. */
  lemma RowsStepValues(base: map<Coord, Cell>, before: map<Coord, Cell>, after: map<Coord, Cell>,
                 rows: seq<seq<Json>>, start: int, resolve: Coord -> Result<Style, string>, i: nat)
    requires i < |rows|
    requires forall p :: Done(rows, start, i, 0, p) ==> CellWritable(resolve, p)
    requires forall p :: p in before <==> p in base || Done(rows, start, i, 0, p)
    requires forall p :: Done(rows, start, i, 0, p) ==> before[p] == Placed(base, rows, start, resolve, p)
    requires forall p :: p in base && !Done(rows, start, i, 0, p) ==> before[p] == base[p]
    requires forall p :: RowCell(rows, start, i, p) ==> CellWritable(resolve, p)
    requires forall p :: p in after <==> p in before || RowCell(rows, start, i, p)
    requires forall p :: RowCell(rows, start, i, p) ==> after[p] == Placed(before, rows, start, resolve, p)
    requires forall p :: p in before && !RowCell(rows, start, i, p) ==> after[p] == before[p]
    requires forall p :: Done(rows, start, i + 1, 0, p) ==> CellWritable(resolve, p) && p in after
    ensures forall p :: Done(rows, start, i + 1, 0, p) ==> after[p] == Placed(base, rows, start, resolve, p)
  {
    forall p | RowCell(rows, start, i, p)
      ensures Placed(before, rows, start, resolve, p) == Placed(base, rows, start, resolve, p)
    {
      assert !Done(rows, start, i, 0, p);
      assert Prior(before, p) == Prior(base, p);
    }
  }

  // ---------------------------------------------------------------------
  // Sheet-wide directives, as specifications

  /** `m[k] = v` for each pair in order, starting from `base`. */
  function Assign<K(==), V>(base: map<K, V>, pairs: seq<(K, V)>): map<K, V> {
    if pairs == [] then base
    else Assign(base, pairs[..|pairs| - 1])[pairs[|pairs| - 1].0 := pairs[|pairs| - 1].1]
  }

  /** A key is set exactly when it was set before or some pair names it; it
      holds the value of the last pair naming it, and a key no pair names
      keeps its old value. */
  lemma {:induction false} LastWriteWins<K, V>(base: map<K, V>, pairs: seq<(K, V)>, key: K)
    ensures key in Assign(base, pairs) <==> key in base || exists k :: 0 <= k < |pairs| && pairs[k].0 == key
    ensures forall k :: (0 <= k < |pairs| && pairs[k].0 == key &&
      (forall m :: k < m < |pairs| ==> pairs[m].0 != key)) ==> Assign(base, pairs)[key] == pairs[k].1
    ensures key in base && (forall k :: 0 <= k < |pairs| ==> pairs[k].0 != key) ==>
      Assign(base, pairs)[key] == base[key]
  {
    if pairs != [] {
      var init := pairs[..|pairs| - 1];
      LastWriteWins(base, init, key);
      forall k | 0 <= k < |init| ensures init[k] == pairs[k] { }
      if key in Assign(base, init) && key !in base {
        var k :| 0 <= k < |init| && init[k].0 == key;
        assert pairs[k].0 == key;
      }
    }
  }

  /** One more pair updates its key. */
  lemma AssignSnoc<K, V>(base: map<K, V>, pairs: seq<(K, V)>, key: K, value: V)
    ensures Assign(base, pairs + [(key, value)]) == Assign(base, pairs)[key := value]
  {
    assert (pairs + [(key, value)])[..|pairs|] == pairs;
  }

  /** `format_config.get(key, default)` is readable and is a dict. */
  predicate DictDirective(fmt: Json, key: string) {
    fmt.JObj? && DictGet(fmt.fields, key, JObj([])).JObj?
  }

  function DirectiveFields(fmt: Json, key: string): seq<(string, Json)>
    requires DictDirective(fmt, key)
  {
    DictGet(fmt.fields, key, JObj([])).fields
  }

  function Pow2(n: nat): nat {
    if n == 0 then 1 else 2 * Pow2(n - 1)
  }

  /** The magnitude from which `float(n)` of an int rounds past the largest
      double and raises OverflowError. */
  const FloatIntLimit: int := Pow2(1024) - Pow2(970)

  /** `float(v)`, which the dimension's `Float` descriptor applies to an
      assigned width or height: bools, floats and ints below the overflow
      limit convert; a str converts when `floatText` (Python's reading of a
      float literal) accepts it; None, lists and dicts raise. */
  predicate FloatConvertible(v: Json, floatText: string -> bool) {
    match v
    case JBool(_) => true
    case JInt(i) => -FloatIntLimit < i < FloatIntLimit
    case JFloat(_, _) => true
    case JStr(s) => floatText(s)
    case _ => false
  }

  /** A column width must convert to a float. */
  predicate WidthValuesOk(pairs: seq<(string, Json)>, floatText: string -> bool) {
    forall k :: 0 <= k < |pairs| ==> FloatConvertible(pairs[k].1, floatText)
  }

  /** A row height must convert to a float, or be None (`allow_none`). */
  predicate HeightValueOk(v: Json, floatText: string -> bool) {
    v.JNull? || FloatConvertible(v, floatText)
  }

  predicate HeightValuesOk(fields: seq<(string, Json)>, floatText: string -> bool) {
    forall k :: 0 <= k < |fields| ==> HeightValueOk(fields[k].1, floatText)
  }

  /** The column a `column_widths` key selects (the str path never fails). */
  function ColumnOf(key: string): string {
    NormalizeColumnIndex(ColName(key)).value
  }

  /** (column, width) assignments of `column_widths`, in the dict's order. */
  function WidthPairs(fmt: Json): (pairs: seq<(string, Json)>)
    requires DictDirective(fmt, "column_widths")
    ensures |pairs| == |DirectiveFields(fmt, "column_widths")|
    ensures forall k :: 0 <= k < |pairs| ==>
      pairs[k] == (ColumnOf(DirectiveFields(fmt, "column_widths")[k].0), DirectiveFields(fmt, "column_widths")[k].1)
  {
    var f := DirectiveFields(fmt, "column_widths");
    seq(|f|, k requires 0 <= k < |f| => (ColumnOf(f[k].0), f[k].1))
  }

  /** Saving the workbook reads every width key back as a column name;
      a key that is none (`"A1"`, `"0"`, `"ABCD"`) makes the save raise. */
  predicate WidthsSavable(widths: map<string, Json>) {
    forall c :: c in widths ==> ColumnIndexFromString(c).Some?
  }

  /** A cell address and an out-of-range number are kept verbatim as width
      keys, and neither is a column name. */
  lemma UnsavableWidthKeys()
    ensures ColumnOf("A1") == "A1" && ColumnIndexFromString("A1").None?
    ensures ColumnOf("0") == "0" && ColumnIndexFromString("0").None?
  {
    assert !IsDigit("A1"[0]) && !IsLetter("A1"[1]);
    assert !IsAlpha("0") && ParseInt("0") == Some(0);
    assert !IsColumnName("A1") && !IsColumnName("0");
  }

  /** A width the float conversion refuses, such as `"wide"` or None, makes
      `column_widths` fail. */
  lemma WidthValueExamples(floatText: string -> bool)
    requires !floatText("wide")
    ensures !ColumnWidthsOk(JObj([("column_widths", JObj([("A", JStr("wide"))]))]), floatText)
    ensures !ColumnWidthsOk(JObj([("column_widths", JObj([("A", JNull)]))]), floatText)
  {
    var wide := JObj([("column_widths", JObj([("A", JStr("wide"))]))]);
    var none := JObj([("column_widths", JObj([("A", JNull)]))]);
    assert WidthPairs(wide)[0].1 == JStr("wide");
    assert WidthPairs(none)[0].1 == JNull;
  }

  /** A height may be None or a float. */
  lemma HeightValueExamples(floatText: string -> bool)
    ensures RowHeightsOk(JObj([("row_heights", JObj([("1", JNull)]))]), floatText)
    ensures RowHeightsOk(JObj([("row_heights", JObj([("1", JFloat(255, 1))]))]), floatText)
  {
    assert ParseInt("1") == Some(1);
  }

  /** Every key of a `row_heights` dict reads as an integer. */
  predicate RowKeysOk(fields: seq<(string, Json)>) {
    forall k :: 0 <= k < |fields| ==> ParseInt(fields[k].0).Some?
  }

  /** `int(row_num)` paired with its height, for each entry. */
  function RowPairs(fields: seq<(string, Json)>): (pairs: seq<(int, Json)>)
    requires RowKeysOk(fields)
    ensures |pairs| == |fields|
    ensures forall k :: 0 <= k < |pairs| ==> pairs[k] == (ParseInt(fields[k].0).value, fields[k].1)
  {
    seq(|fields|, k requires 0 <= k < |fields| => (ParseInt(fields[k].0).value, fields[k].1))
  }

  lemma RowPairsSnoc(fields: seq<(string, Json)>, i: nat)
    requires i < |fields| && RowKeysOk(fields[..i]) && ParseInt(fields[i].0).Some?
    ensures RowKeysOk(fields[..i + 1])
    ensures RowPairs(fields[..i + 1]) == RowPairs(fields[..i]) + [(ParseInt(fields[i].0).value, fields[i].1)]
  {
    assert fields[..i + 1] == fields[..i] + [fields[i]];
  }

  /** `column_widths` is a dict and every width converts. */
  predicate ColumnWidthsOk(fmt: Json, floatText: string -> bool) {
    DictDirective(fmt, "column_widths") && WidthValuesOk(WidthPairs(fmt), floatText)
  }

  /** `row_heights` is a dict, every key reads as an int and every height
      converts. */
  predicate RowHeightsOk(fmt: Json, floatText: string -> bool) {
    && DictDirective(fmt, "row_heights")
    && RowKeysOk(DirectiveFields(fmt, "row_heights"))
    && HeightValuesOk(DirectiveFields(fmt, "row_heights"), floatText)
  }

  function HeightPairs(fmt: Json): seq<(int, Json)>
    requires DictDirective(fmt, "row_heights") && RowKeysOk(DirectiveFields(fmt, "row_heights"))
  {
    RowPairs(DirectiveFields(fmt, "row_heights"))
  }

  /** `str(v)` for None, bools, ints and strings; the text of a float or a
      container is not modelled (`None`). */
  function PyText(j: Json): (r: Option<string>)
    ensures j.JStr? ==> r == Some(j.s)
    ensures j.JInt? ==> r.Some? && ParseInt(r.value) == Some(j.i)
    ensures (j.JFloat? || j.JArr? || j.JObj?) ==> r.None?
  {
    match j
    case JNull => Some("None")
    case JBool(b) => Some(if b then "True" else "False")
    case JInt(i) => IntRoundTrip(i); Some(IntToString(i))
    case JStr(s) => Some(s)
    case _ => None
  }

  /** `f"{start}:{end}"`. */
  function RangeText(start: Json, end: Json): (r: Option<string>)
    ensures r.Some? <==> PyText(start).Some? && PyText(end).Some?
    ensures r.Some? ==> r.value == PyText(start).value + ":" + PyText(end).value
  {
    match (PyText(start), PyText(end))
    case (Some(a), Some(b)) => Some(a + ":" + b)
    case _ => None
  }

  /** The range one `merge_cells` directive asks for, if any. */
  function MergeRequest(d: Json): (r: Option<string>)
    ensures d.JStr? ==> r == Some(d.s)
    ensures d.JObj? && !(Truthy(DictGet(d.fields, "start", JNull)) && Truthy(DictGet(d.fields, "end", JNull))) ==> r.None?
    ensures d.JObj? && Truthy(DictGet(d.fields, "start", JNull)) && Truthy(DictGet(d.fields, "end", JNull)) ==>
      r == RangeText(DictGet(d.fields, "start", JNull), DictGet(d.fields, "end", JNull))
    ensures d.JArr? && |d.items| != 2 ==> r.None?
    ensures d.JArr? && |d.items| == 2 ==> r == RangeText(d.items[0], d.items[1])
    ensures (d.JNull? || d.JBool? || d.JInt? || d.JFloat?) ==> r.None?
  {
    match d
    case JStr(s) => Some(s)
    case JObj(f) =>
      var start, end := DictGet(f, "start", JNull), DictGet(f, "end", JNull);
      if Truthy(start) && Truthy(end) then RangeText(start, end) else None
    case JArr(items) => if |items| == 2 then RangeText(items[0], items[1]) else None
    case _ => None
  }

  /** The ranges merged from a list of directives: those requested and
      accepted by the library's range check, in order. */
  function Merges(items: seq<Json>, accepts: string -> bool): (r: seq<string>)
    ensures |r| <= |items|
  {
    if items == [] then []
    else
      var d := items[|items| - 1];
      var req := MergeRequest(d);
      Merges(items[..|items| - 1], accepts) + (if req.Some? && accepts(req.value) then [req.value] else [])
  }

  /** Every merged range was requested by some directive and accepted. */
  lemma {:induction false} MergesRequested(items: seq<Json>, accepts: string -> bool, s: string)
    requires s in Merges(items, accepts)
    ensures accepts(s)
    ensures exists k :: 0 <= k < |items| && MergeRequest(items[k]) == Some(s)
  {
    var init := items[..|items| - 1];
    var req := MergeRequest(items[|items| - 1]);
    if s in Merges(init, accepts) {
      MergesRequested(init, accepts, s);
      var k :| 0 <= k < |init| && MergeRequest(init[k]) == Some(s);
      assert init[k] == items[k];
    } else {
      assert req == Some(s);
    }
  }

  /** Every directive whose requested range the library accepts is merged. */
  lemma {:induction false} MergesComplete(items: seq<Json>, accepts: string -> bool, k: nat)
    requires k < |items| && MergeRequest(items[k]).Some? && accepts(MergeRequest(items[k]).value)
    ensures MergeRequest(items[k]).value in Merges(items, accepts)
  {
    var xs, ys := items[..k], items[k + 1..];
    assert items == xs + [items[k]] + ys;
    MergesAround(xs, items[k], ys, accepts);
  }

  /** An accepted directive between two lists adds its range between theirs. */
  lemma {:induction false} MergesAround(xs: seq<Json>, d: Json, ys: seq<Json>, accepts: string -> bool)
    requires MergeRequest(d).Some? && accepts(MergeRequest(d).value)
    ensures MergeRequest(d).value in Merges(xs + [d] + ys, accepts)
  {
    var v := MergeRequest(d).value;
    MergesAppend(xs + [d], ys, accepts);
    MergesAppend(xs, [d], accepts);
    assert [d][..0] == [];
    var m := Merges(xs, accepts) + [v] + Merges(ys, accepts);
    assert Merges(xs + [d] + ys, accepts) == m;
    assert m[|Merges(xs, accepts)|] == v;
  }

  lemma MergesSnoc(items: seq<Json>, i: nat, accepts: string -> bool)
    requires i < |items|
    ensures Merges(items[..i + 1], accepts) == Merges(items[..i], accepts) +
      (if MergeRequest(items[i]).Some? && accepts(MergeRequest(items[i]).value) then [MergeRequest(items[i]).value] else [])
  {
    assert items[..i + 1][..i] == items[..i];
  }

  /** `for merge_range in merge_cells` is possible: the directive is a list, dict or str. */
  predicate MergesOk(fmt: Json) {
    fmt.JObj? && Iterate(DictGet(fmt.fields, "merge_cells", JArr([]))).Success?
  }

  function MergeItems(fmt: Json): seq<Json>
    requires MergesOk(fmt)
  {
    Iterate(DictGet(fmt.fields, "merge_cells", JArr([]))).value
  }

  lemma {:induction false} MergesAppend(xs: seq<Json>, ys: seq<Json>, accepts: string -> bool)
    ensures Merges(xs + ys, accepts) == Merges(xs, accepts) + Merges(ys, accepts)
    decreases |ys|
  {
    if ys != [] {
      var init := ys[..|ys| - 1];
      assert (xs + ys)[..|xs + ys| - 1] == xs + init;
      MergesAppend(xs, init, accepts);
    } else {
      assert xs + ys == xs;
    }
  }

  /** A directive that requests nothing, or whose range is refused, is
      skipped without affecting the directives around it. */
  lemma SkippedDirective(xs: seq<Json>, d: Json, ys: seq<Json>, accepts: string -> bool)
    requires MergeRequest(d).None? || !accepts(MergeRequest(d).value)
    ensures Merges(xs + [d] + ys, accepts) == Merges(xs, accepts) + Merges(ys, accepts)
  {
    MergesAppend(xs + [d], ys, accepts);
    MergesAppend(xs, [d], accepts);
    MergesSingle(d, accepts);
  }

  lemma MergesSingle(d: Json, accepts: string -> bool)
    ensures MergeRequest(d).None? || !accepts(MergeRequest(d).value) ==> Merges([d], accepts) == []
  {
    assert [d][..0] == [];
  }

  /** The three shapes of a directive ask for the same range. */
  lemma MergeShapesAgree(a: string, b: string, f: seq<(string, Json)>)
    requires a != [] && b != []
    requires DictGet(f, "start", JNull) == JStr(a) && DictGet(f, "end", JNull) == JStr(b)
    ensures MergeRequest(JStr(a + ":" + b)) == Some(a + ":" + b)
    ensures MergeRequest(JObj(f)) == Some(a + ":" + b)
    ensures MergeRequest(JArr([JStr(a), JStr(b)])) == Some(a + ":" + b)
  {
    assert Truthy(JStr(a)) && Truthy(JStr(b));
  }

  /** The literal `{"start": a, "end": b}`, in either key order, is such a dict. */
  lemma StartEndDict(a: string, b: string)
    ensures DictGet([("start", JStr(a)), ("end", JStr(b))], "start", JNull) == JStr(a)
    ensures DictGet([("start", JStr(a)), ("end", JStr(b))], "end", JNull) == JStr(b)
    ensures DictGet([("end", JStr(b)), ("start", JStr(a))], "start", JNull) == JStr(a)
    ensures DictGet([("end", JStr(b)), ("start", JStr(a))], "end", JNull) == JStr(b)
  {
    var f := [("start", JStr(a)), ("end", JStr(b))];
    assert FindKey(f[1..], "end") == Some(0);
    var g := [("end", JStr(b)), ("start", JStr(a))];
    assert FindKey(g[1..], "start") == Some(0);
  }

  // ---------------------------------------------------------------------
  // Reading `show_header` and `start_row`

  /** `format_config.get('show_header', True)`, as `if header:` reads it. */
  function ShowHeader(fmt: Json): (r: bool)
    requires fmt.JObj?
    ensures !HasMember(fmt.fields, "show_header") ==> r
    ensures HasMember(fmt.fields, "show_header") ==> r == Truthy(MemberValue(fmt.fields, "show_header"))
  {
    Truthy(DictGet(fmt.fields, "show_header", JBool(true)))
  }

  /** `format_config.get('start_row', 1)` as `enumerate` takes it: an int
      (a bool counts as 0 or 1); anything else is a TypeError. */
  function StartRow(fmt: Json): (r: Result<int, string>)
    requires fmt.JObj?
    ensures !HasMember(fmt.fields, "start_row") ==> r == Success(1)
    ensures r.Success? <==> (DictGet(fmt.fields, "start_row", JInt(1)).JInt? || DictGet(fmt.fields, "start_row", JInt(1)).JBool?)
    ensures HasMember(fmt.fields, "start_row") && MemberValue(fmt.fields, "start_row").JInt? ==>
      r == Success(MemberValue(fmt.fields, "start_row").i)
    ensures HasMember(fmt.fields, "start_row") && MemberValue(fmt.fields, "start_row").JBool? ==>
      r == Success(if MemberValue(fmt.fields, "start_row").b then 1 else 0)
  {
    match DictGet(fmt.fields, "start_row", JInt(1))
    case JInt(n) => Success(n)
    case JBool(b) => Success(if b then 1 else 0)
    case _ => Failure("object cannot be interpreted as an integer")
  }

  // ---------------------------------------------------------------------
  // Properties of the layout and of the style lookup

  /** The number of rows the header takes. */
  function HeaderRows(header: bool): nat {
    if header then 1 else 0
  }

  /** The header, when shown, fills row `start`, label `j` in column `j + 1`. */
  lemma HeaderPlacement(t: Table, start: int, j: nat)
    requires j < |t.columns|
    ensures InLayout(EmittedRows(t, true), start, Coord(start, j + 1))
    ensures EmittedRows(t, true)[0][j] == t.columns[j]
  {
  }

  /** Data row `k` fills row `start + 1 + k` with the header and `start + k`
      without, its element `j` in column `j + 1`. */
  lemma DataPlacement(t: Table, header: bool, start: int, k: nat, j: nat)
    requires k < |t.rows| && j < |t.rows[k]|
    ensures InLayout(EmittedRows(t, header), start, Coord(start + HeaderRows(header) + k, j + 1))
    ensures EmittedRows(t, header)[HeaderRows(header) + k][j] == t.rows[k][j]
  {
    var rows := EmittedRows(t, header);
    assert rows[HeaderRows(header)..][k] == t.rows[k];
  }

  /** Nothing is placed above row `start` or left of column 1. */
  lemma NothingAboveStart(t: Table, header: bool, start: int, p: Coord)
    requires InLayout(EmittedRows(t, header), start, p)
    ensures p.row >= start && p.col >= 1
  {
  }

  /** What `ws.cell(row, col, value=v)` and `_apply_cell_format` leave at a
      laid-out position whose entry under its own key is a dict: the element
      (a None element keeps the old value), and each style group built from
      the entry when the entry has it, the old group otherwise. */
  lemma PlacedCell(cells: map<Coord, Cell>, rows: seq<seq<Json>>, start: int, fmt: Json, p: Coord)
    requires InLayout(rows, start, p) && CellWritable(Resolver(fmt), p)
    requires CellEntry(fmt, CellKey(p)).Success? && CellEntry(fmt, CellKey(p)).value.JObj?
    ensures var c := Placed(cells, rows, start, Resolver(fmt), p);
      var v := rows[p.row - start][p.col - 1];
      var was := Prior(cells, p);
      var e := CellEntry(fmt, CellKey(p)).value.fields;
      && c.value == (if v == JNull then was.value else v)
      && c.style.font == (if HasMember(e, "font") then Some(FontFrom(MemberValue(e, "font")).value) else was.style.font)
      && c.style.fill == (if HasMember(e, "background_color")
                          then Some(SolidFill(MemberValue(e, "background_color"), MemberValue(e, "background_color")))
                          else was.style.fill)
      && c.style.border == (if HasMember(e, "border") then Some(BorderFrom(MemberValue(e, "border")).value)
                            else was.style.border)
      && c.style.alignment == (if HasMember(e, "alignment") then Some(AlignmentFrom(MemberValue(e, "alignment")).value)
                               else was.style.alignment)
  {
    var key := CellKey(p);
    assert Resolver(fmt)(p) == CellOverride(fmt, key);
    OverrideApplied(Prior(cells, p).style, fmt, key);
  }

  /** The style entry used for a cell is the one under its own key, and
      that key belongs to no other cell. */
  lemma StyleKeyIsOwn(fmt: Json, p: Coord, q: Coord)
    ensures Resolver(fmt)(p) == CellOverride(fmt, NormalizeCellKey(p.row, ColNum(p.col)))
    ensures CellKey(p) == CellKey(q) ==> p == q
  {
    if CellKey(p) == CellKey(q) {
      CellKeyInjective(p.row, p.col, q.row, q.col);
    }
  }

  /** An entry of `format.cells` whose key holds a letter (`"1,A"`) is the
      entry of no cell: keys are used verbatim, only the cell's is normalised. */
  lemma LetterEntryIsNeverUsed(key: string, i: nat, p: Coord)
    requires i < |key| && IsLetter(key[i])
    ensures CellKey(p) != key
  {
    LetterKeyNeverMatches(key, i, p.row, p.col);
  }

  /** A column name in either case and its decimal number select one column. */
  lemma ColumnOfExamples()
    ensures ColumnOf("A") == "A" && ColumnOf("a") == "A" && ColumnOf("1") == "A"
  {
    assert IsAlpha("A") && Upper("A") == "A";
    assert IsAlpha("a") && Upper("a") == "A";
    assert ParseInt("1") == Some(1) && !IsAlpha("1");
    assert ColumnLetter(1) == "A";
  }

  /** `"A"` and `"1"` in `column_widths` select the same column: the later wins. */
  lemma MixedWidthKeysCollide(first: Json, second: Json)
    ensures Assign(map[], [(ColumnOf("A"), first), (ColumnOf("1"), second)]) == map["A" := second]
  {
    ColumnOfExamples();
    var pairs := [("A", first), ("A", second)];
    assert [(ColumnOf("A"), first), (ColumnOf("1"), second)] == pairs;
    assert Assign(map[], [("A", first)]) == map["A" := first] by {
      assert [("A", first)][..0] == [];
    }
    assert pairs[..1] == [("A", first)];
    assert Assign(map[], pairs) == Assign(map[], pairs[..1])["A" := second];
  }

  // ---------------------------------------------------------------------
  // The sheet

  class Sheet {
    var cells: map<Coord, Cell>
    var widths: map<string, Json>
    var heights: map<int, Json>
    var merged: seq<string>

    constructor ()
      ensures cells == map[] && widths == map[] && heights == map[] && merged == []
    {
      cells, widths, heights, merged := map[], map[], map[], [];
    }

    /** The layout loop: emitted row `i` goes to row `start + i`, its element
        `j` to column `j + 1`, and each written cell is styled by `resolve`
        (the tool passes `Resolver(fmt)`). */
    method WriteRows(rows: seq<seq<Json>>, start: int, resolve: Coord -> Result<Style, string>) returns (err: Option<ToolError>)
      modifies this
      ensures err.None? <==> LayoutOk(rows, start, resolve)
      ensures err.Some? ==> err.value.RenderError?
      ensures err.None? ==> forall p :: p in cells <==> p in old(cells) || InLayout(rows, start, p)
      ensures err.None? ==> forall p :: InLayout(rows, start, p) ==> cells[p] == Placed(old(cells), rows, start, resolve, p)
      ensures err.None? ==> forall p :: p in old(cells) && !InLayout(rows, start, p) ==> cells[p] == old(cells)[p]
      ensures widths == old(widths) && heights == old(heights) && merged == old(merged)
    {
      var i := 0;
      while i < |rows|
        invariant 0 <= i <= |rows|
        invariant widths == old(widths) && heights == old(heights) && merged == old(merged)
        invariant forall p :: Done(rows, start, i, 0, p) ==> CellWritable(resolve, p)
        invariant forall p :: p in cells <==> p in old(cells) || Done(rows, start, i, 0, p)
        invariant forall p :: Done(rows, start, i, 0, p) ==> cells[p] == Placed(old(cells), rows, start, resolve, p)
        invariant forall p :: p in old(cells) && !Done(rows, start, i, 0, p) ==> cells[p] == old(cells)[p]
      {
        ghost var before := cells;
        err := WriteRow(rows, start, resolve, i);
        if err.Some? {
          ghost var p :| RowCell(rows, start, i, p) && !CellWritable(resolve, p);
          assert InLayout(rows, start, p);
          return;
        }
        RowsStep(old(cells), before, cells, rows, start, resolve, i);
        RowsStepValues(old(cells), before, cells, rows, start, resolve, i);
        i := i + 1;
      }
      return None;
    }

    /** One emitted row: element `j` of row `i` goes to (`start + i`, `j + 1`). */
    method WriteRow(rows: seq<seq<Json>>, start: int, resolve: Coord -> Result<Style, string>, i: nat) returns (err: Option<ToolError>)
      requires i < |rows|
      modifies this
      ensures err.None? <==> forall p :: RowCell(rows, start, i, p) ==> CellWritable(resolve, p)
      ensures err.Some? ==> err.value.RenderError?
      ensures err.None? ==> forall p :: p in cells <==> p in old(cells) || RowCell(rows, start, i, p)
      ensures err.None? ==> forall p :: RowCell(rows, start, i, p) ==> cells[p] == Placed(old(cells), rows, start, resolve, p)
      ensures err.None? ==> forall p :: p in old(cells) && !RowCell(rows, start, i, p) ==> cells[p] == old(cells)[p]
      ensures widths == old(widths) && heights == old(heights) && merged == old(merged)
    {
      var row := rows[i];
      var j := 0;
      while j < |row|
        invariant 0 <= j <= |row|
        invariant widths == old(widths) && heights == old(heights) && merged == old(merged)
        invariant forall p :: RowCell(rows, start, i, p) && p.col <= j ==> CellWritable(resolve, p)
        invariant forall p :: p in cells <==> p in old(cells) || (RowCell(rows, start, i, p) && p.col <= j)
        invariant forall p :: RowCell(rows, start, i, p) && p.col <= j ==> cells[p] == Placed(old(cells), rows, start, resolve, p)
        invariant forall p :: p in old(cells) && !(RowCell(rows, start, i, p) && p.col <= j) ==> cells[p] == old(cells)[p]
      {
        var p := Coord(start + i, j + 1);
        assert RowCell(rows, start, i, p);
        if start + i < 1 {
          return Some(RenderError("Row or column values must be at least 1"));
        }
        var o := resolve(p);
        if o.Failure? {
          return Some(RenderError(o.error));
        }
        CellStep(old(cells), cells, rows, start, resolve, i, j);
        cells := cells[p := Written(Prior(cells, p), row[j], o.value)];
        j := j + 1;
      }
      return None;
    }

    /** `_apply_column_width`: each entry sets the width of the column its
        key resolves to; `floatText` stands for Python's reading of a float
        literal. */
    method ApplyColumnWidths(fmt: Json, floatText: string -> bool) returns (err: Option<ToolError>)
      modifies this
      ensures err.None? <==> ColumnWidthsOk(fmt, floatText)
      ensures err.Some? ==> err.value.RenderError?
      ensures err.None? ==> widths == Assign(old(widths), WidthPairs(fmt))
      ensures cells == old(cells) && heights == old(heights) && merged == old(merged)
    {
      if !fmt.JObj? {
        return Some(RenderError("object has no attribute 'get'"));
      }
      var cw := DictGet(fmt.fields, "column_widths", JObj([]));
      if !cw.JObj? {
        return Some(RenderError("object has no attribute 'items'"));
      }
      err := SetWidths(WidthPairs(fmt), floatText);
    }

    /** `ws.column_dimensions[col].width = width` for each pair in order; a
        width that does not convert to a float raises. */
    method SetWidths(pairs: seq<(string, Json)>, floatText: string -> bool) returns (err: Option<ToolError>)
      modifies this
      ensures err.None? <==> WidthValuesOk(pairs, floatText)
      ensures err.Some? ==> err.value.RenderError?
      ensures err.None? ==> widths == Assign(old(widths), pairs)
      ensures cells == old(cells) && heights == old(heights) && merged == old(merged)
    {
      var i := 0;
      while i < |pairs|
        invariant 0 <= i <= |pairs|
        invariant WidthValuesOk(pairs[..i], floatText)
        invariant widths == Assign(old(widths), pairs[..i])
        invariant cells == old(cells) && heights == old(heights) && merged == old(merged)
      {
        if !FloatConvertible(pairs[i].1, floatText) {
          return Some(RenderError("expected <class 'float'>"));
        }
        AssignSnoc(old(widths), pairs[..i], pairs[i].0, pairs[i].1);
        assert pairs[..i + 1] == pairs[..i] + [pairs[i]];
        widths := widths[pairs[i].0 := pairs[i].1];
        i := i + 1;
      }
      assert pairs[..i] == pairs;
      return None;
    }

    /** `_apply_row_height`: each entry sets the height of row `int(key)`;
        a key that is not an integer, or a height that does not convert to a
        float, raises. */
    method ApplyRowHeights(fmt: Json, floatText: string -> bool) returns (err: Option<ToolError>)
      modifies this
      ensures err.None? <==> RowHeightsOk(fmt, floatText)
      ensures err.Some? ==> err.value.RenderError?
      ensures err.None? ==> heights == Assign(old(heights), HeightPairs(fmt))
      ensures cells == old(cells) && widths == old(widths) && merged == old(merged)
    {
      if !fmt.JObj? {
        return Some(RenderError("object has no attribute 'get'"));
      }
      var rh := DictGet(fmt.fields, "row_heights", JObj([]));
      if !rh.JObj? {
        return Some(RenderError("object has no attribute 'items'"));
      }
      err := SetHeights(rh.fields, floatText);
    }

    /** `ws.row_dimensions[int(row_num)].height = height` for each entry in
        order; a key that is not an integer, or a height that does not convert
        to a float, raises. */
    method SetHeights(fields: seq<(string, Json)>, floatText: string -> bool) returns (err: Option<ToolError>)
      modifies this
      ensures err.None? <==> RowKeysOk(fields) && HeightValuesOk(fields, floatText)
      ensures err.Some? ==> err.value.RenderError?
      ensures err.None? ==> heights == Assign(old(heights), RowPairs(fields))
      ensures cells == old(cells) && widths == old(widths) && merged == old(merged)
    {
      var i := 0;
      while i < |fields|
        invariant 0 <= i <= |fields|
        invariant RowKeysOk(fields[..i]) && HeightValuesOk(fields[..i], floatText)
        invariant heights == Assign(old(heights), RowPairs(fields[..i]))
        invariant cells == old(cells) && widths == old(widths) && merged == old(merged)
      {
        var row := ParseInt(fields[i].0);
        if row.None? {
          return Some(RenderError("invalid literal for int() with base 10"));
        }
        if !HeightValueOk(fields[i].1, floatText) {
          return Some(RenderError("expected <class 'float'>"));
        }
        assert fields[..i + 1] == fields[..i] + [fields[i]];
        RowPairsSnoc(fields, i);
        AssignSnoc(old(heights), RowPairs(fields[..i]), row.value, fields[i].1);
        heights := heights[row.value := fields[i].1];
        i := i + 1;
      }
      assert fields[..i] == fields;
      return None;
    }

    /** `_apply_merge_cells`: every directive that yields a range the library
        accepts adds it; any other directive is skipped. */
    method ApplyMergeCells(fmt: Json, accepts: string -> bool) returns (err: Option<ToolError>)
      modifies this
      ensures err.None? <==> MergesOk(fmt)
      ensures err.Some? ==> err.value.RenderError?
      ensures err.None? ==> merged == old(merged) + Merges(MergeItems(fmt), accepts)
      ensures cells == old(cells) && widths == old(widths) && heights == old(heights)
    {
      if !fmt.JObj? {
        return Some(RenderError("object has no attribute 'get'"));
      }
      var it := Iterate(DictGet(fmt.fields, "merge_cells", JArr([])));
      if it.Failure? {
        return Some(RenderError(it.error));
      }
      MergeAll(it.value, accepts);
      return None;
    }

    /** `ws.merge_cells` for each directive in order; a directive that asks
        for nothing or whose range is refused is skipped. */
    method MergeAll(items: seq<Json>, accepts: string -> bool)
      modifies this
      ensures merged == old(merged) + Merges(items, accepts)
      ensures cells == old(cells) && widths == old(widths) && heights == old(heights)
    {
      var i := 0;
      while i < |items|
        invariant 0 <= i <= |items|
        invariant merged == old(merged) + Merges(items[..i], accepts)
        invariant cells == old(cells) && widths == old(widths) && heights == old(heights)
      {
        var req := MergeRequest(items[i]);
        MergesSnoc(items, i, accepts);
        if req.Some? && accepts(req.value) {
          merged := merged + [req.value];
        }
        i := i + 1;
      }
      assert items[..i] == items;
    }
  }
}
