/**
 * Per-cell style resolution (`_apply_cell_format`): the entry of
 * `format.cells` stored under a cell's key is read group by group (font,
 * background colour, border, alignment); each group that is present
 * replaces the cell's setting for that group, with per-attribute defaults,
 * and each group that is absent leaves the cell's setting alone.
 *
 * Attribute values are kept as the JSON values the configuration gives;
 * their validation by the spreadsheet library is not part of this model.
 */
module CellFormat {
  import opened Wrappers
  import opened JsonValue

  datatype Font = Font(name: Json, size: Json, bold: Json, italic: Json, color: Json)

  /** A solid pattern fill. */
  datatype Fill = SolidFill(startColor: Json, endColor: Json)

  /** Line style of each side. */
  datatype Border = Border(left: Json, right: Json, top: Json, bottom: Json)

  datatype Alignment = Alignment(horizontal: Json, vertical: Json, wrapText: Json)

  /** The four attribute groups of a cell; `None` is the document default.
      The same shape, read as an override, says which groups to replace. */
  datatype Style = Style(font: Option<Font>, fill: Option<Fill>,
                         border: Option<Border>, alignment: Option<Alignment>)

  const DefaultStyle: Style := Style(None, None, None, None)

  /** The value of the member `key` of `fields`, which has it. */
  function MemberValue(fields: seq<(string, Json)>, key: string): Json
    requires HasMember(fields, key)
  {
    fields[FindKey(fields, key).value].1
  }

  /** `config.get(key, default)` on a dict: the member if present, else the default. */
  predicate Defaulted(fields: seq<(string, Json)>, key: string, default: Json, v: Json) {
    if HasMember(fields, key) then v == MemberValue(fields, key) else v == default
  }

  /** `Font(name=..., size=..., ...)` from the `font` group of an entry. */
  function FontFrom(fc: Json): (r: Result<Font, string>)
    ensures r.Success? <==> fc.JObj?
    ensures r.Success? ==>
      && Defaulted(fc.fields, "name", JStr("Calibri"), r.value.name)
      && Defaulted(fc.fields, "size", JInt(11), r.value.size)
      && Defaulted(fc.fields, "bold", JBool(false), r.value.bold)
      && Defaulted(fc.fields, "italic", JBool(false), r.value.italic)
      && Defaulted(fc.fields, "color", JStr("000000"), r.value.color)
  {
    match fc
    case JObj(f) =>
      Success(Font(DictGet(f, "name", JStr("Calibri")), DictGet(f, "size", JInt(11)),
                   DictGet(f, "bold", JBool(false)), DictGet(f, "italic", JBool(false)),
                   DictGet(f, "color", JStr("000000"))))
    case _ => Failure("'font' has no attribute 'get'")
  }

  /** `Border(left=Side(...), ...)` from the `border` group: every side "thin" unless given. */
  function BorderFrom(bc: Json): (r: Result<Border, string>)
    ensures r.Success? <==> bc.JObj?
    ensures r.Success? ==>
      && Defaulted(bc.fields, "left", JStr("thin"), r.value.left)
      && Defaulted(bc.fields, "right", JStr("thin"), r.value.right)
      && Defaulted(bc.fields, "top", JStr("thin"), r.value.top)
      && Defaulted(bc.fields, "bottom", JStr("thin"), r.value.bottom)
  {
    match bc
    case JObj(f) =>
      Success(Border(DictGet(f, "left", JStr("thin")), DictGet(f, "right", JStr("thin")),
                     DictGet(f, "top", JStr("thin")), DictGet(f, "bottom", JStr("thin"))))
    case _ => Failure("'border' has no attribute 'get'")
  }

  /** `Alignment(...)` from the `alignment` group: left, bottom, no wrap unless given. */
  function AlignmentFrom(ac: Json): (r: Result<Alignment, string>)
    ensures r.Success? <==> ac.JObj?
    ensures r.Success? ==>
      && Defaulted(ac.fields, "horizontal", JStr("left"), r.value.horizontal)
      && Defaulted(ac.fields, "vertical", JStr("bottom"), r.value.vertical)
      && Defaulted(ac.fields, "wrap_text", JBool(false), r.value.wrapText)
  {
    match ac
    case JObj(f) =>
      Success(Alignment(DictGet(f, "horizontal", JStr("left")), DictGet(f, "vertical", JStr("bottom")),
                        DictGet(f, "wrap_text", JBool(false))))
    case _ => Failure("'alignment' has no attribute 'get'")
  }

  /** `if key in entry: ... entry[key]`: the group's configuration, if present. */
  function Group(entry: Json, key: string): (r: Result<Option<Json>, string>)
    ensures entry.JObj? ==> r.Success?
    ensures entry.JObj? ==> (r.value.Some? <==> HasMember(entry.fields, key))
    ensures entry.JObj? && r.value.Some? ==> r.value.value == MemberValue(entry.fields, key)
  {
    var present :- Contains(entry, key);
    if present then
      var v :- Index(entry, key);
      Success(Some(v))
    else Success(None)
  }

  function FontGroup(entry: Json): Result<Option<Font>, string> {
    var g :- Group(entry, "font");
    match g
    case None => Success(None)
    case Some(fc) =>
      var f :- FontFrom(fc);
      Success(Some(f))
  }

  function FillGroup(entry: Json): Result<Option<Fill>, string> {
    var g :- Group(entry, "background_color");
    match g
    case None => Success(None)
    case Some(color) => Success(Some(SolidFill(color, color)))
  }

  function BorderGroup(entry: Json): Result<Option<Border>, string> {
    var g :- Group(entry, "border");
    match g
    case None => Success(None)
    case Some(bc) =>
      var b :- BorderFrom(bc);
      Success(Some(b))
  }

  function AlignmentGroup(entry: Json): Result<Option<Alignment>, string> {
    var g :- Group(entry, "alignment");
    match g
    case None => Success(None)
    case Some(ac) =>
      var a :- AlignmentFrom(ac);
      Success(Some(a))
  }

  /** `key in entry` holds: a member of a dict, a substring of a str, an
      element of a list. */
  predicate Mentions(entry: Json, key: string) {
    Contains(entry, key) == Success(true)
  }

  /** The override an entry of `format.cells` asks for. A dict entry fails
      only when a present font, border or alignment group is not a dict;
      each group is overridden exactly when the entry has it. A str or list
      entry overrides nothing, and fails as soon as it names a group, since
      it cannot be indexed by the group's name; any other entry fails at the
      first `in`. */
  function EntryOverride(entry: Json): (r: Result<Style, string>)
    ensures (entry.JStr? || entry.JArr?) ==> (r.Success? <==>
      !Mentions(entry, "font") && !Mentions(entry, "background_color") &&
      !Mentions(entry, "border") && !Mentions(entry, "alignment"))
    ensures (entry.JStr? || entry.JArr?) && r.Success? ==> r.value == DefaultStyle
    ensures !(entry.JObj? || entry.JStr? || entry.JArr?) ==> r.Failure?
    ensures entry.JObj? ==> (r.Success? <==>
      && (HasMember(entry.fields, "font") ==> MemberValue(entry.fields, "font").JObj?)
      && (HasMember(entry.fields, "border") ==> MemberValue(entry.fields, "border").JObj?)
      && (HasMember(entry.fields, "alignment") ==> MemberValue(entry.fields, "alignment").JObj?))
    ensures entry.JObj? && r.Success? ==>
      && (r.value.font.Some? <==> HasMember(entry.fields, "font"))
      && (r.value.fill.Some? <==> HasMember(entry.fields, "background_color"))
      && (r.value.border.Some? <==> HasMember(entry.fields, "border"))
      && (r.value.alignment.Some? <==> HasMember(entry.fields, "alignment"))
    ensures entry.JObj? && r.Success? && r.value.fill.Some? ==>
      r.value.fill.value == SolidFill(MemberValue(entry.fields, "background_color"),
                                      MemberValue(entry.fields, "background_color"))
    ensures entry.JObj? && r.Success? && r.value.font.Some? ==>
      FontFrom(MemberValue(entry.fields, "font")) == Success(r.value.font.value)
    ensures entry.JObj? && r.Success? && r.value.border.Some? ==>
      BorderFrom(MemberValue(entry.fields, "border")) == Success(r.value.border.value)
    ensures entry.JObj? && r.Success? && r.value.alignment.Some? ==>
      AlignmentFrom(MemberValue(entry.fields, "alignment")) == Success(r.value.alignment.value)
  {
    var font :- FontGroup(entry);
    var fill :- FillGroup(entry);
    var border :- BorderGroup(entry);
    var alignment :- AlignmentGroup(entry);
    Success(Style(font, fill, border, alignment))
  }

  /** `format_config.get('cells', {}).get(key, {})`. */
  function CellEntry(fmt: Json, key: string): (r: Result<Json, string>)
    ensures r.Success? <==> fmt.JObj? && (!HasMember(fmt.fields, "cells") || MemberValue(fmt.fields, "cells").JObj?)
    ensures r.Success? && !HasMember(fmt.fields, "cells") ==> r.value == JObj([])
    ensures r.Success? && HasMember(fmt.fields, "cells") ==>
      Defaulted(MemberValue(fmt.fields, "cells").fields, key, JObj([]), r.value)
  {
    var cells :- GetOr(fmt, "cells", JObj([]));
    GetOr(cells, key, JObj([]))
  }

  /** The override for the cell whose key is `key`. */
  function CellOverride(fmt: Json, key: string): (r: Result<Style, string>)
    ensures r.Success? <==> CellEntry(fmt, key).Success? && EntryOverride(CellEntry(fmt, key).value).Success?
    ensures r.Success? ==> fmt.JObj?
    ensures fmt.JObj? && !HasMember(fmt.fields, "cells") ==> r == Success(DefaultStyle)
  {
    var entry :- CellEntry(fmt, key);
    EntryOverride(entry)
  }

  /** Replace the groups the override has; keep the others. */
  function Apply(s: Style, o: Style): (t: Style)
    ensures t.font == (if o.font.Some? then o.font else s.font)
    ensures t.fill == (if o.fill.Some? then o.fill else s.fill)
    ensures t.border == (if o.border.Some? then o.border else s.border)
    ensures t.alignment == (if o.alignment.Some? then o.alignment else s.alignment)
  {
    Style(if o.font.Some? then o.font else s.font,
          if o.fill.Some? then o.fill else s.fill,
          if o.border.Some? then o.border else s.border,
          if o.alignment.Some? then o.alignment else s.alignment)
  }

  /** The style a cell ends with, group by group, from the dict entry under
      its key: a group the entry has is built from it (the fill from
      `background_color`), a group it lacks keeps the cell's own. */
  lemma OverrideApplied(s: Style, fmt: Json, key: string)
    requires CellOverride(fmt, key).Success?
    requires CellEntry(fmt, key).value.JObj?
    ensures var e := CellEntry(fmt, key).value.fields;
      var t := Apply(s, CellOverride(fmt, key).value);
      && t.font == (if HasMember(e, "font") then Some(FontFrom(MemberValue(e, "font")).value) else s.font)
      && t.fill == (if HasMember(e, "background_color")
                    then Some(SolidFill(MemberValue(e, "background_color"), MemberValue(e, "background_color")))
                    else s.fill)
      && t.border == (if HasMember(e, "border") then Some(BorderFrom(MemberValue(e, "border")).value) else s.border)
      && t.alignment == (if HasMember(e, "alignment") then Some(AlignmentFrom(MemberValue(e, "alignment")).value)
                         else s.alignment)
  {
    var entry := CellEntry(fmt, key).value;
    assert CellOverride(fmt, key) == EntryOverride(entry);
  }

  /** A cell whose key has no entry keeps its style. */
  lemma NoEntryNoChange(fmt: Json, key: string, s: Style)
    requires fmt.JObj?
    requires !HasMember(fmt.fields, "cells") ||
      (MemberValue(fmt.fields, "cells").JObj? && !HasMember(MemberValue(fmt.fields, "cells").fields, key))
    ensures CellOverride(fmt, key).Success?
    ensures Apply(s, CellOverride(fmt, key).value) == s
  {
    assert CellEntry(fmt, key) == Success(JObj([]));
  }
}
