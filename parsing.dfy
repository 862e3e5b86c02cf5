/**
 * The parse phase of `generate_excel_bytes`: envelope dispatch, the
 * wrapping of a single record, the error of the phase, and the rule that
 * derives the final file name.
 */
module Parsing {
  import opened Wrappers
  import opened JsonValue
  import opened CellFormat

  /** The outcome of `json.loads`: a value, or the decoder's diagnostic. */
  datatype Decoded = DecodeError(detail: string) | Decoded(value: Json)

  /** The frame the table builder produces: column labels and rows. */
  datatype Table = Table(columns: seq<Json>, rows: seq<seq<Json>>)

  const ParsePrefix: string := "Error parsing JSON string: "
  const RenderPrefix: string := "Error creating Excel file: "

  /** The two errors the tool raises, one per phase. */
  datatype ToolError = ParseError(detail: string) | RenderError(detail: string) {
    function Message(): (m: string)
      ensures ParseError? ==> m == ParsePrefix + detail
      ensures RenderError? ==> m == RenderPrefix + detail
    {
      match this
      case ParseError(d) => ParsePrefix + d
      case RenderError(d) => RenderPrefix + d
    }
  }

  /** The message names the phase: the two prefixes differ. */
  lemma MessageNamesPhase(f: ToolError)
    ensures f.ParseError? <==> ParsePrefix <= f.Message()
    ensures f.RenderError? <==> RenderPrefix <= f.Message()
  {
    assert ParsePrefix[6] != RenderPrefix[6];
    if f.ParseError? {
      assert f.Message()[6] == ParsePrefix[6];
    } else {
      assert f.Message()[6] == RenderPrefix[6];
    }
  }

  /** A decoded value is an envelope when it is a dict with both keys. */
  predicate IsEnvelope(v: Json) {
    v.JObj? && HasMember(v.fields, "data") && HasMember(v.fields, "format")
  }

  /** What is handed to the table builder: a single dict becomes a list of one. */
  function FrameArgument(source: Json): (arg: Json)
    ensures source.JObj? ==> arg == JArr([source])
    ensures !source.JObj? ==> arg == source
  {
    if source.JObj? then JArr([source]) else source
  }

  /** The record source and the format configuration of a decoded value. */
  function Dispatch(v: Json): (r: (Json, Json))
    ensures IsEnvelope(v) ==> r == (MemberValue(v.fields, "data"), MemberValue(v.fields, "format"))
    ensures !IsEnvelope(v) ==> r == (v, JObj([]))
  {
    if IsEnvelope(v) then (DictGet(v.fields, "data", JNull), DictGet(v.fields, "format", JObj([])))
    else (v, JObj([]))
  }

  datatype Parsed = Parsed(table: Table, format: Json)

  /** The parse phase. `frame` stands for the table builder, which may fail. */
  function Parse(d: Decoded, frame: Json -> Result<Table, string>): (r: Result<Parsed, ToolError>)
    ensures d.DecodeError? ==> r == Failure(ParseError(d.detail))
    ensures r.Failure? ==> r.error.ParseError?
    ensures r.Success? <==> d.Decoded? && frame(FrameArgument(Dispatch(d.value).0)).Success?
    ensures r.Success? ==>
      && r.value.table == frame(FrameArgument(Dispatch(d.value).0)).value
      && r.value.format == Dispatch(d.value).1
  {
    match d
    case DecodeError(e) => Failure(ParseError(e))
    case Decoded(v) =>
      var (source, fmt) := Dispatch(v);
      match frame(FrameArgument(source))
      case Failure(e) => Failure(ParseError(e))
      case Success(t) => Success(Parsed(t, fmt))
  }

  /** An envelope: the table is built from `data` (a dict as a list of one)
      and the format is the envelope's `format`; a builder failure is a
      ParseError. */
  lemma ParseEnvelope(v: Json, frame: Json -> Result<Table, string>)
    requires IsEnvelope(v)
    ensures var data := MemberValue(v.fields, "data");
      var arg := if data.JObj? then JArr([data]) else data;
      && (frame(arg).Success? ==>
            Parse(Decoded(v), frame) == Success(Parsed(frame(arg).value, MemberValue(v.fields, "format"))))
      && (frame(arg).Failure? ==> Parse(Decoded(v), frame) == Failure(ParseError(frame(arg).error)))
  {
  }

  /** Any other value: the table is built from the value itself (a dict as a
      list of one) and the format is `{}`. */
  lemma ParseBare(v: Json, frame: Json -> Result<Table, string>)
    requires !IsEnvelope(v)
    ensures var arg := if v.JObj? then JArr([v]) else v;
      && (frame(arg).Success? ==> Parse(Decoded(v), frame) == Success(Parsed(frame(arg).value, JObj([]))))
      && (frame(arg).Failure? ==> Parse(Decoded(v), frame) == Failure(ParseError(frame(arg).error)))
  {
  }

  /** Outside an envelope the format configuration is empty; inside one the
      records come from `data` and the configuration from `format`, and a
      single record becomes a one-row list. */
  lemma DispatchCases(v: Json)
    ensures !IsEnvelope(v) ==> Dispatch(v).1 == JObj([])
    ensures !IsEnvelope(v) && v.JObj? ==> FrameArgument(Dispatch(v).0) == JArr([v])
    ensures IsEnvelope(v) && MemberValue(v.fields, "data").JObj? ==>
      FrameArgument(Dispatch(v).0) == JArr([MemberValue(v.fields, "data")])
  {
  }

  const DefaultFilename: string := "Formatted Data"

  /** `filename.replace(' ', '_') + ".xlsx"`. */
  function FinalFilename(name: string): (r: string)
    ensures |r| == |name| + 5
    ensures forall i :: 0 <= i < |r| ==> r[i] != ' '
    ensures forall i :: 0 <= i < |name| && name[i] != ' ' ==> r[i] == name[i]
    ensures forall i :: 0 <= i < |name| && name[i] == ' ' ==> r[i] == '_'
    ensures r[|name|..] == ".xlsx"
  {
    seq(|name|, i requires 0 <= i < |name| => if name[i] == ' ' then '_' else name[i]) + ".xlsx"
  }

  lemma DefaultFinalFilename()
    ensures FinalFilename(DefaultFilename) == "Formatted_Data.xlsx"
    ensures FinalFilename("test file") == "test_file.xlsx"
  {
  }
}
