/**
 * `generate_excel_bytes`: the parse phase, then a fresh sheet filled by the
 * layout loop and the three sheet-wide directives, then the final file name.
 * A failure of the parse phase is a ParseError; any failure while filling
 * the sheet is a RenderError.
 */
module Generate {
  import opened Wrappers
  import opened JsonValue
  import opened CellFormat
  import opened Parsing
  import opened Worksheet

  datatype Output = Output(sheet: Sheet, filename: string)

  /** Filling the sheet raises nothing for this parse result; `floatText`
      stands for Python's reading of a float literal. */
  ghost predicate RenderOk(parsed: Parsed, floatText: string -> bool) {
    var fmt := parsed.format;
    && fmt.JObj?
    && StartRow(fmt).Success?
    && LayoutOk(EmittedRows(parsed.table, ShowHeader(fmt)), StartRow(fmt).value, Resolver(fmt))
    && ColumnWidthsOk(fmt, floatText)
    && RowHeightsOk(fmt, floatText)
    && MergesOk(fmt)
    && RowsSavable(EmittedRows(parsed.table, ShowHeader(fmt)))
    && WidthsSavable(Assign(map[], WidthPairs(fmt)))
  }

  /** The sheet holds a cell at exactly the laid-out positions, each as
      written and styled, plus the widths, the heights and the merged ranges
      the configuration asks for. */
  ghost predicate Rendered(s: Sheet, parsed: Parsed, accepts: string -> bool, floatText: string -> bool)
    reads s
    requires RenderOk(parsed, floatText)
  {
    var fmt := parsed.format;
    var rows := EmittedRows(parsed.table, ShowHeader(fmt));
    var start := StartRow(fmt).value;
    && (forall p :: p in s.cells <==> InLayout(rows, start, p))
    && (forall p :: InLayout(rows, start, p) ==> s.cells[p] == Placed(map[], rows, start, Resolver(fmt), p))
    && s.widths == Assign(map[], WidthPairs(fmt))
    && s.heights == Assign(map[], HeightPairs(fmt))
    && s.merged == Merges(MergeItems(fmt), accepts)
  }

  /** `frame` stands for the table builder, `accepts` for the library's
      check of a merge range, `floatText` for Python's reading of a float
      literal. */
  method GenerateExcel(input: Decoded, filename: string,
                       frame: Json -> Result<Table, string>, accepts: string -> bool,
                       floatText: string -> bool)
    returns (r: Result<Output, ToolError>)
    ensures Parse(input, frame).Failure? ==> r == Failure(Parse(input, frame).error)
    ensures r.Failure? ==> (r.error.ParseError? <==> Parse(input, frame).Failure?)
    ensures r.Success? <==> Parse(input, frame).Success? && RenderOk(Parse(input, frame).value, floatText)
    ensures r.Success? ==>
      && fresh(r.value.sheet)
      && r.value.filename == FinalFilename(filename)
      && Rendered(r.value.sheet, Parse(input, frame).value, accepts, floatText)
  {
    var parsed := Parse(input, frame);
    if parsed.Failure? {
      return Failure(parsed.error);
    }
    var table, fmt := parsed.value.table, parsed.value.format;
    if !fmt.JObj? {
      return Failure(RenderError("object has no attribute 'get'"));
    }
    var start := StartRow(fmt);
    if start.Failure? {
      return Failure(RenderError(start.error));
    }
    var rows := EmittedRows(table, ShowHeader(fmt));
    var sheet := new Sheet();
    var err := sheet.WriteRows(rows, start.value, Resolver(fmt));
    if err.Some? {
      return Failure(err.value);
    }
    err := sheet.ApplyColumnWidths(fmt, floatText);
    if err.Some? {
      return Failure(err.value);
    }
    err := sheet.ApplyRowHeights(fmt, floatText);
    if err.Some? {
      return Failure(err.value);
    }
    err := sheet.ApplyMergeCells(fmt, accepts);
    if err.Some? {
      return Failure(err.value);
    }
    if !RowsSavable(rows) {
      return Failure(RenderError("column index out of range"));
    }
    if !WidthsSavable(sheet.widths) {
      return Failure(RenderError("invalid column index in column_dimensions"));
    }
    r := Success(Output(sheet, FinalFilename(filename)));
  }

  /** On success no cell lies above `start_row`. */
  lemma NothingAboveStartRow(s: Sheet, parsed: Parsed, accepts: string -> bool, floatText: string -> bool, p: Coord)
    requires RenderOk(parsed, floatText) && Rendered(s, parsed, accepts, floatText)
    requires p in s.cells
    ensures p.row >= StartRow(parsed.format).value
  {
  }
}
