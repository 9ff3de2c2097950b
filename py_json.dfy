/**
 * JSON values as the Python book service and client receive them: the
 * decoded body of a request, or a field of a book.
 */
module PyJson {
  import opened JavaText

  datatype Json =
    | JNull
    | JBool(b: bool)
    | JInt(i: int)
    | JString(s: string)
    | JArray(items: seq<Json>)
    | JObject(fields: map<string, Json>)

  /** A decoded JSON object, as a Python `dict`. */
  type Dict = map<string, Json>

  /** `d.get(key, default)`. */
  function Get(d: Dict, key: string, default: Json): (r: Json)
    ensures key in d ==> r == d[key]
    ensures key !in d ==> r == default
  {
    if key in d then d[key] else default
  }

  /** Values whose Python `str` the model writes out: everything but lists and dicts. */
  predicate IsScalar(j: Json)
  {
    !j.JArray? && !j.JObject?
  }

  /** Python's `str` of a scalar JSON value. */
  function Str(j: Json): (r: string)
    requires IsScalar(j)
    ensures j.JString? ==> r == j.s
    ensures j.JInt? ==> r == Decimal(j.i)
  {
    match j
    case JNull => "None"
    case JBool(b) => if b then "True" else "False"
    case JInt(i) => Decimal(i)
    case JString(s) => s
  }
}
