/**
 * A decoded JSON value, as the tool sees it after `json.loads`, together with
 * the few Python operations the tool applies to such values: `dict.get`,
 * the `in` operator, indexing by a string key, truthiness, `str()` and
 * iteration.
 */
module JsonValue {
  import opened Wrappers

  /** An object keeps its members in insertion order, as a Python dict does.
      A decoded dict has distinct keys; where a sequence repeats a key, every
      lookup reads its first occurrence. A number written with a fraction or
      an exponent (a Python float, even `3.0` or `1e2`) is a `JFloat`, kept as
      `num / 10^scale`. */
  datatype Json =
    | JNull
    | JBool(b: bool)
    | JInt(i: int)
    | JFloat(num: int, scale: nat)
    | JStr(s: string)
    | JArr(items: seq<Json>)
    | JObj(fields: seq<(string, Json)>)

  /** The position of the first member named `key`, if any. */
  function FindKey(fields: seq<(string, Json)>, key: string): (r: Option<nat>)
    ensures r.Some? ==> r.value < |fields| && fields[r.value].0 == key
    ensures r.Some? ==> forall k :: 0 <= k < r.value ==> fields[k].0 != key
    ensures r.None? ==> forall k :: 0 <= k < |fields| ==> fields[k].0 != key
  {
    if |fields| == 0 then None
    else if fields[0].0 == key then Some(0)
    else match FindKey(fields[1..], key)
      case None => None
      case Some(k) => Some(k + 1)
  }

  /** `key in d` for a dict `d`. */
  predicate HasMember(fields: seq<(string, Json)>, key: string) {
    FindKey(fields, key).Some?
  }

  /** `d.get(key, default)` on a dict. */
  function DictGet(fields: seq<(string, Json)>, key: string, default: Json): Json {
    match FindKey(fields, key)
    case Some(k) => fields[k].1
    case None => default
  }

  /** `d.get(key, default)`; any value other than a dict has no `get` and raises. */
  function GetOr(j: Json, key: string, default: Json): (r: Result<Json, string>)
    ensures r.Success? <==> j.JObj?
    ensures r.Success? && !HasMember(j.fields, key) ==> r.value == default
    ensures r.Success? && HasMember(j.fields, key) ==>
      exists k :: 0 <= k < |j.fields| && j.fields[k] == (key, r.value)
  {
    match j
    case JObj(fields) => Success(DictGet(fields, key, default))
    case _ => Failure("object has no attribute 'get'")
  }

  /** Python's `needle in s` on strings: a substring test. */
  predicate IsSubstring(needle: string, s: string)
    decreases |s|
  {
    needle <= s || (s != [] && IsSubstring(needle, s[1..]))
  }

  /** `key in j`: a member test on a dict, a substring test on a string, an
      element test on a list; the other values are not iterable and raise. */
  function Contains(j: Json, key: string): (r: Result<bool, string>)
    ensures r.Success? <==> (j.JObj? || j.JStr? || j.JArr?)
    ensures j.JObj? ==> r == Success(HasMember(j.fields, key))
  {
    match j
    case JObj(fields) => Success(HasMember(fields, key))
    case JStr(s) => Success(IsSubstring(key, s))
    case JArr(items) => Success(JStr(key) in items)
    case _ => Failure("argument is not iterable")
  }

  /** `j[key]`: only a dict that has the key can be indexed by a string. */
  function Index(j: Json, key: string): (r: Result<Json, string>)
    ensures r.Success? <==> (j.JObj? && HasMember(j.fields, key))
  {
    match j
    case JObj(fields) =>
      (match FindKey(fields, key)
       case Some(k) => Success(fields[k].1)
       case None => Failure("key not found"))
    case _ => Failure("indices must be integers")
  }

  /** Python truthiness of a decoded value. */
  predicate Truthy(j: Json) {
    match j
    case JNull => false
    case JBool(b) => b
    case JInt(i) => i != 0
    case JFloat(num, _) => num != 0
    case JStr(s) => s != []
    case JArr(items) => items != []
    case JObj(fields) => fields != []
  }

  /** The values a `for` loop visits: a list's items, a dict's keys, a
      string's characters; any other value raises. */
  function Iterate(j: Json): (r: Result<seq<Json>, string>)
    ensures r.Success? <==> (j.JArr? || j.JObj? || j.JStr?)
    ensures j.JArr? ==> r == Success(j.items)
    ensures j.JObj? ==> (|r.value| == |j.fields| &&
      forall k :: 0 <= k < |j.fields| ==> r.value[k] == JStr(j.fields[k].0))
    ensures j.JStr? ==> (|r.value| == |j.s| &&
      forall k :: 0 <= k < |j.s| ==> r.value[k] == JStr([j.s[k]]))
  {
    match j
    case JArr(items) => Success(items)
    case JObj(fields) => Success(seq(|fields|, k requires 0 <= k < |fields| => JStr(fields[k].0)))
    case JStr(s) => Success(seq(|s|, k requires 0 <= k < |s| => JStr([s[k]])))
    case _ => Failure("object is not iterable")
  }
}
