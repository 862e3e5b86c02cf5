# writeExcel core in Dafny

A model of the JSON-to-worksheet transformation of the `WriteExcelTool`
plugin (`tools/writeExcel.py`): a decoded JSON payload, either a bare record
source or a `{data, format}` envelope, becomes a worksheet. The table is laid
out from `start_row`, with an optional header row. Every written cell is
styled from the `format.cells` entry stored under its own `"row,col"` key.
Column widths, row heights and merged ranges are then applied to the whole
sheet, and the final file name is derived from the requested one.

Modules, one per stage of the tool:

- `Wrappers`: the `Option` and `Result` values.
- `JsonValue`: decoded JSON values, plus the Python operations the tool
  applies to them (`dict.get`, `in`, `[key]`, truthiness, iteration).
- `Decimal`: `str()` of an integer and `int()` of a string.
- `Addressing`: spreadsheet column names against 1-based numbers (bijective
  base 26, limited to `A`..`ZZZ` = 1..18278 as the spreadsheet library is),
  and the normalisers `_normalize_cell_key` and `_normalize_column_index`.
- `CellFormat`: per-cell style resolution (`_apply_cell_format`).
- `Parsing`: envelope dispatch, the single-record wrapping, the two error
  kinds and the file-name rule.
- `Worksheet`: the `Sheet` class. It holds four fields: a map of cells, a map
  of column widths, a map of row heights and a list of merged ranges. Its
  methods carry the layout loop and the three directive loops.
- `Generate`: `generate_excel_bytes` end to end.

A `format.cells` entry is looked up under the emitted cell's own key only.
That key is built from two integers (tools/writeExcel.py:65-68, 96-99), so
`_normalize_cell_key` always takes its last branch. A configuration key is
used verbatim. An entry written `"1,A"`, as in the integration tests at
tests/test_write_excel.py:623 and tests/test_write_excel.py:681, therefore
applies to no cell (`LetterEntryIsNeverUsed`). Those tests check only the
number of messages returned, so they do not show whether the style was
applied.

Four kinds of out-of-range or malformed configuration raise, and the model
raises in each case with a RenderError:

- A `row_heights` key that is not an integer raises at `int(row_num)`
  (tools/writeExcel.py:170).
- A width or height that the dimension cannot convert to a float raises
  when it is assigned (tools/writeExcel.py:164 and 170). Examples are
  `"wide"`, a list, a dict, and None as a width. None is allowed as a height
  (`WidthValueExamples`, `HeightValueExamples`).
- A `column_widths` key that normalises to no column name raises: `"A1"`,
  `"0"` or `"ABCD"`. The dimension is stored at tools/writeExcel.py:164, and
  the save at tools/writeExcel.py:72 fails (`UnsavableWidthKeys`).
- A row wider than 18278 elements is written, but the save at
  tools/writeExcel.py:72 needs a column letter for each cell and fails
  (`RowsSavableLetters`).

`_normalize_column_index` also raises for an integer column outside
`1..18278`. The model gives a `Failure` there (`NormalizeColumnIndex`), but
JSON object keys are always strings, so no configuration reaches that path.

## Model

| member | source | states |
|---|---|---|
| `Decimal.IntRoundTrip` | tools/writeExcel.py:85-91 | reading back `str(n)` with `int()` gives `n`, for every integer |
| `Decimal.IntToStringInjective` | tools/writeExcel.py:85-91 | distinct integers have distinct decimal forms |
| `Decimal.ParseInt` | tools/writeExcel.py:170 | `int(s)` succeeds exactly on one or more digits with an optional leading sign; an unsigned string reads as a non-negative number |
| `Addressing.NumberLetterNumber` | tools/writeExcel.py:151-156 | the name of column `n` converts back to `n` |
| `Addressing.LetterNumberLetter` | tools/writeExcel.py:84 | every column name is the name of its own number, which is at least 1 |
| `Addressing.ColumnIndexFromString` | tools/writeExcel.py:84 | a successful lookup returns a number in `1..18278` whose name is the input |
| `Addressing.ColumnIndexFromStringComplete` | tools/writeExcel.py:84 | the name of every column in range is found, with its own number |
| `Addressing.GetColumnLetter` | tools/writeExcel.py:151-156 | succeeds exactly on `1..18278`, and gives a column name that converts back to the input |
| `Addressing.CellKeyLetterOrNumber` | tools/writeExcel.py:79-88 | a valid letter column, in any case, gives the same key as its number; an invalid str column is kept verbatim as `"row,"+s` |
| `Addressing.CellKeySchemesAgree` | tools/writeExcel.py:79-91 | for every column in range: its upper-case name, its lower-case name, its number and its decimal string all give the same key |
| `Addressing.CellKeyOfName` | tools/writeExcel.py:82-85 | a str column whose upper-case form names column `n` gives the key of `n` |
| `Addressing.CellKeyOfDigits` | tools/writeExcel.py:86-88 | the decimal string of a column number is no column name, so it is kept verbatim, and that is the number's own key |
| `Addressing.CellKeyRow` | tools/writeExcel.py:79-91 | whatever the column, a cell key starts with the row in decimal followed by a comma |
| `Addressing.CellKeyInjective` | tools/writeExcel.py:91 | the key of an emitted cell determines both its row and its column |
| `Addressing.LetterKeyNeverMatches` | tools/writeExcel.py:91 | a key holding a letter is never the key of an (int, int) cell |
| `Addressing.NormalizeColumnIndex` | tools/writeExcel.py:143-156 | a str never fails; an alphabetic str is upper-cased; a numeric str in range becomes its column name; any other str is returned unchanged; an int succeeds exactly in range, with its column name |
| `Addressing.ColumnIndexIdempotent` | tools/writeExcel.py:143-156 | normalising a result of the normaliser gives it back |
| `Addressing.ColumnIndexSchemesAgree` | tools/writeExcel.py:143-156 | the number, the decimal string and the name in either case of one column all normalise to that column's name, and that name gives the number's cell key |
| `JsonValue.GetOr` | tools/writeExcel.py:99 | `.get` succeeds exactly on a dict; it gives the default when the key is absent, else the key's value |
| `JsonValue.Contains` | tools/writeExcel.py:102 | `in` is a member test on a dict; it raises for values that are not iterable |
| `JsonValue.Index` | tools/writeExcel.py:103 | `[key]` succeeds exactly on a dict that has the key |
| `JsonValue.Iterate` | tools/writeExcel.py:175 | a loop visits the items of a list, the keys of a dict and the characters of a str, and raises on any other value |
| `CellFormat.FontFrom` | tools/writeExcel.py:102-111 | fails exactly when the font group is not a dict; each attribute defaults independently to Calibri / 11 / not bold / not italic / `000000` |
| `CellFormat.BorderFrom` | tools/writeExcel.py:123-131 | each side defaults independently to `thin` |
| `CellFormat.AlignmentFrom` | tools/writeExcel.py:133-141 | defaults are left, bottom and no wrap |
| `CellFormat.Group` | tools/writeExcel.py:102-103 | in a dict entry, a group is present exactly when the key is, with the key's value |
| `CellFormat.EntryOverride` | tools/writeExcel.py:101-141 | for a dict entry: succeeds iff every present font, border or alignment group is a dict; overrides exactly the groups present; the fill is solid, with start colour = end colour = `background_color`. A str or list entry succeeds, overriding nothing, exactly when it names no group (as a substring or an element); any other entry fails |
| `CellFormat.CellEntry` | tools/writeExcel.py:99 | the entry under the key, `{}` when there is none; fails when the config or its `cells` is not a dict |
| `CellFormat.CellOverride` | tools/writeExcel.py:96-141 | the override succeeds exactly when the entry lookup succeeds (the config is a dict, and so is its `cells` when present) and `EntryOverride` accepts the entry found: a dict whose present groups are dicts, or a str or list that names no group; a config without `cells` styles nothing |
| `CellFormat.OverrideApplied` | tools/writeExcel.py:99-141 | for a dict entry, group by group: the font, border and alignment present are built from the entry, the fill from `background_color` is solid with start = end colour, and each absent group keeps the cell's own |
| `CellFormat.NoEntryNoChange` | tools/writeExcel.py:99 | a cell whose key has no entry keeps its style |
| `Parsing.MessageNamesPhase` | tools/writeExcel.py:55-75 | an error's message starts `Error parsing JSON string: ` (line 56) exactly for a ParseError, and `Error creating Excel file: ` (line 75) exactly for a RenderError |
| `Parsing.ParseEnvelope` | tools/writeExcel.py:38-56 | for a dict with both `data` and `format`: the table is built from `data` (a dict as a list of one) and the format is `format`; a builder failure is a ParseError with its message |
| `Parsing.ParseBare` | tools/writeExcel.py:47-56 | for any other value: the table is built from the value itself (a dict as a list of one) and the format is `{}`; a builder failure is a ParseError with its message |
| `Parsing.Parse` | tools/writeExcel.py:36-56 | a decode failure or a table-builder failure is a ParseError; on success the table is the builder's result for the dispatched source |
| `Parsing.DispatchCases` | tools/writeExcel.py:38-54 | outside an envelope the format is empty; a dict record source, bare or in `data`, becomes one row |
| `Parsing.FinalFilename` | tools/writeExcel.py:76 | no spaces; length = input length + 5; each space becomes `_` and every other character is kept; ends in `.xlsx` |
| `Parsing.DefaultFinalFilename` | tools/writeExcel.py:18 | `Formatted Data` gives `Formatted_Data.xlsx`, and `test file` gives `test_file.xlsx` |
| `Worksheet.EmittedRows` | tools/writeExcel.py:65 | the header (when shown) comes first, then data row `k` at position `k` plus the header count |
| `Worksheet.HeaderPlacement` | tools/writeExcel.py:62-68 | with the header shown, label `j` goes to (`start_row`, `j+1`) |
| `Worksheet.DataPlacement` | tools/writeExcel.py:62-68 | data row `k`, element `j` goes to (`start_row+1+k`, `j+1`) with a header, or to (`start_row+k`, `j+1`) without |
| `Worksheet.NothingAboveStart` | tools/writeExcel.py:65-67 | no position above `start_row` or left of column 1 is written |
| `Worksheet.RowsSavableLetters` | tools/writeExcel.py:65-72 | the emitted rows are at most 18278 wide exactly when every laid-out position has a column letter, which saving needs |
| `Worksheet.StartRow` | tools/writeExcel.py:64-65 | `start_row` defaults to 1; a present int is used as it is, a bool as 0 or 1; any other value fails |
| `Worksheet.ShowHeader` | tools/writeExcel.py:62-65 | the header is shown when `show_header` is absent; otherwise exactly when its value is truthy |
| `Worksheet.PlacedCell` | tools/writeExcel.py:65-141 | a laid-out cell whose entry is a dict holds its element (a `None` element keeps the old value); each style group present in the entry is built from it, and each absent group keeps the old one |
| `Worksheet.StyleKeyIsOwn` | tools/writeExcel.py:96-99 | a cell's entry is the one under its own normalised key, and no other cell has that key |
| `Worksheet.LetterEntryIsNeverUsed` | tools/writeExcel.py:96-99 | an entry keyed with a letter (`"1,A"`) styles no cell |
| `Worksheet.LastWriteWins` | tools/writeExcel.py:161-164 | after the assignments, a key is set exactly when it was set before or some entry names it; it holds the value of the last entry naming it, and a key no entry names keeps its old value |
| `Worksheet.WidthPairs` | tools/writeExcel.py:160-163 | each `column_widths` entry assigns its width to its key's normalised column, in the dict's order |
| `Worksheet.RowPairs` | tools/writeExcel.py:169-170 | each `row_heights` entry assigns its height to row `int(key)`, in the dict's order |
| `Worksheet.UnsavableWidthKeys` | tools/writeExcel.py:164 | the width keys `"A1"` and `"0"` are stored under themselves at line 164, and neither names a column, so the save at line 72 fails |
| `Worksheet.WidthValueExamples` | tools/writeExcel.py:164 | a width of `"wide"` (which `float()` refuses) or of None makes `column_widths` fail |
| `Worksheet.HeightValueExamples` | tools/writeExcel.py:170 | a height of None or of a float is accepted |
| `Worksheet.ColumnOfExamples` | tools/writeExcel.py:145-153 | `"A"`, `"a"` and `"1"` all select column `A` |
| `Worksheet.MixedWidthKeysCollide` | tools/writeExcel.py:161-164 | with `"A"` then `"1"`, column `A` ends up with the second width |
| `Worksheet.MergeRequest` | tools/writeExcel.py:178-190 | a str is a range itself; a dict with a truthy `start` and a truthy `end` asks for `f"{start}:{end}"`, and any other dict asks for nothing; a two-element list asks for `f"{first}:{second}"`, and any other list asks for nothing; every other type asks for nothing |
| `Worksheet.PyText` | tools/writeExcel.py:186-190 | in the f-string, a str stands for itself and an int for a decimal text that reads back as that int |
| `Worksheet.RangeText` | tools/writeExcel.py:186-190 | `f"{start}:{end}"` is the two texts joined by a colon |
| `Worksheet.MergeShapesAgree` | tools/writeExcel.py:178-190 | for non-empty `a` and `b`: `"a:b"`, any dict whose `start` is `a` and whose `end` is `b` (in any key order, with any other keys), and `[a, b]` all ask for the same range `a:b` |
| `Worksheet.StartEndDict` | tools/writeExcel.py:183-185 | the literal `{"start": a, "end": b}` gives `a` and `b` in either key order |
| `Worksheet.Merges` | tools/writeExcel.py:174-193 | at most one range per directive; which ranges, in which order, is stated by `MergesRequested`, `MergesComplete`, `MergesAppend` and `SkippedDirective` |
| `Worksheet.MergesRequested` | tools/writeExcel.py:174-193 | every merged range passed the library's check and was requested by some directive |
| `Worksheet.MergesComplete` | tools/writeExcel.py:174-193 | every directive whose requested range the library accepts is merged |
| `Worksheet.MergesAppend` | tools/writeExcel.py:175-193 | the merges of concatenated directive lists are the concatenation of their merges |
| `Worksheet.SkippedDirective` | tools/writeExcel.py:191-193 | a directive that asks for nothing, or whose range is refused, is skipped; the directives around it apply as if it were absent |
| `Worksheet.Sheet.constructor` | tools/writeExcel.py:60-61 | a new sheet has no cells, widths, heights or merges |
| `Worksheet.Sheet.WriteRows` | tools/writeExcel.py:65-68 | fails (RenderError) exactly when some emitted position is above row 1 or has a malformed entry; on success, exactly the laid-out positions are added, each holding its element and its resolved style, and all other cells are unchanged |
| `Worksheet.Sheet.WriteRow` | tools/writeExcel.py:66-68 | one emitted row: element `j` goes to column `j+1` of its row; nothing else changes |
| `Worksheet.Sheet.ApplyColumnWidths` | tools/writeExcel.py:158-164 | fails (RenderError) exactly when the config or `column_widths` is not a dict, or a width does not convert to a float; otherwise widths = old widths updated by the entries in order |
| `Worksheet.Sheet.SetWidths` | tools/writeExcel.py:161-164 | fails (RenderError) exactly when some width does not convert to a float; otherwise widths = old widths updated by the (column, width) pairs in order; nothing else changes |
| `Worksheet.Sheet.ApplyRowHeights` | tools/writeExcel.py:166-170 | fails (RenderError) exactly when the config is not a dict, its `row_heights` is not a dict, a key of it is not an integer, or a height is neither None nor convertible to a float; otherwise heights = old heights updated by the entries in order |
| `Worksheet.Sheet.SetHeights` | tools/writeExcel.py:169-170 | fails (RenderError) exactly when some key does not read as an integer or some height is neither None nor convertible to a float; otherwise heights = old heights updated by (`int(key)`, height) in order; nothing else changes |
| `Worksheet.Sheet.ApplyMergeCells` | tools/writeExcel.py:172-193 | fails (RenderError) exactly when the config is not a dict or its `merge_cells` cannot be iterated; otherwise the accepted requested ranges are appended in order, and cells, widths and heights are unchanged |
| `Worksheet.Sheet.MergeAll` | tools/writeExcel.py:175-193 | merged = old merged followed by the requested ranges that the library accepts, in order; nothing else changes |
| `Generate.GenerateExcel` | tools/writeExcel.py:34-77 | a parse failure is returned as it is, before any sheet is made; a render failure is a RenderError, including a row wider than the last column, a width key that names no column, and a width or height that does not convert to a float; on success the fresh sheet holds the laid-out table at exactly its positions, plus the widths, heights and merges, and the name is the derived file name |
| `Generate.NothingAboveStartRow` | tools/writeExcel.py:62-68 | in a generated sheet, no cell lies above `start_row` |

## Left out

- `_invoke` (tools/writeExcel.py:16-32) is host-plugin glue: it builds the messages, writes the debug file and returns the MIME metadata.
- `json.loads` is not modelled. Its outcome is the input: either a decoded value or a decode diagnostic.
- The pandas table builder is the `frame` parameter, from the argument to a table or an error. This covers column-order inference and the padding of missing keys.
- `wb.save`, and so the byte stream, is not modelled. The generated sheet stands for the document. Reading the document back is therefore not modelled either.
- The library's range check in `ws.merge_cells` is the `accepts` parameter. Rewriting a range to canonical form and removing duplicates are not modelled: a merged range is recorded as the string requested.
- Validation of style values (`Font`, `Side`, `PatternFill`, `Alignment`) and of cell values by the spreadsheet library is not modelled. Such values are stored as the JSON values given.
- Python's reading of a float literal, which decides whether a str width or height converts, is the `floatText` parameter. Its grammar covers whitespace, underscores, `inf` and `nan`. Apart from that conversion check, widths and heights are stored as the JSON values given, never converted or computed with.
- The library's upper bound on rows is not modelled. Its "at least 1" check on a written cell is modelled.
- The warning `print` on a skipped merge (tools/writeExcel.py:192) is not modelled.
- Error detail texts are not modelled exactly. Only the phase and its message prefix are.
- When a render step fails, the half-filled sheet is not described, because the tool discards it.
- Decimal.ParseInt: Python's `int()` also accepts surrounding whitespace, underscores between digits and non-ASCII digits. The model rejects these.
- Addressing.Upper: upper-cases ASCII letters only. Python's `str.upper` also maps other letters.
- Addressing.IsAlpha: recognises ASCII letters only. Python's `str.isalpha` accepts any Unicode letter.
- Worksheet.PyText: the text of a float or a container in a merge directive is not modelled; the model asks for no range. A finite float's text contains `.`, `e+` or `e-`, and a list's or dict's text contains `[` or `{`, so no such text is a spreadsheet range. The texts `inf` and `nan`, from the `Infinity` and `NaN` literals, are not covered by that argument.
- Worksheet.Sheet.ApplyMergeCells: `ws.merge_cells` also replaces every covered cell except the top-left one with an empty merged cell, and it formats the range's border. Neither effect is modelled, because a range is kept as the string requested. The merged ranges are recorded, and the cell map keeps the values written under them.
- Worksheet.Sheet.MergeAll: for the same reason, its contract keeps every cell as it was; the cells a merged range covers beyond its top-left one are not emptied, and no border is formatted.
- Generate.GenerateExcel: for the same reason, the generated sheet still holds the written values of cells that a merged range covers, beyond its top-left cell.
- Duplicate keys: a JSON object is modelled as a sequence of members, so it may repeat a key. A decoded dict never does. Every lookup reads the first occurrence of a key.
- Addressing.NormalizeColumnIndex: a Python `bool` passed as the column is not modelled (it behaves as an `int`).
