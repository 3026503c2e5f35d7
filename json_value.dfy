/**
 * A decoded JSON value as the Python `json` module hands it to the code
 * modelled here, with Python's notion of truthiness (`if x:`).
 */
module JsonValue {

  /** `None`, `bool`, a number, `str`, `list` or `dict`. */
  datatype Json =
    | JNull
    | JBool(b: bool)
    | JNum(r: real)
    | JStr(s: string)
    | JArr(items: seq<Json>)
    | JObj(fields: map<string, Json>)

  /** Python truthiness: `None`, `False`, zero and empty containers are falsy. */
  predicate Truthy(v: Json) {
    match v
    case JNull => false
    case JBool(b) => b
    case JNum(r) => r != 0.0
    case JStr(s) => |s| > 0
    case JArr(items) => |items| > 0
    case JObj(fields) => |fields| > 0
  }

  /** Dictionary lookup with a fallback for a missing key. */
  function Get(fields: map<string, Json>, key: string, default: Json): (r: Json)
    ensures key in fields ==> r == fields[key]
    ensures key !in fields ==> r == default
  {
    if key in fields then fields[key] else default
  }
}
