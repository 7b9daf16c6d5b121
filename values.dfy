/**
 * Values shared by the modelled Python code: optional values, the JSON
 * documents that flow through the client untouched, the scalar values a
 * query-parameter dictionary may hold, and Python's truthiness rules for
 * the few types whose truthiness the code tests with `if x:`.
 */
module Values {

  /** Python's `Optional[T]`: `None` or a value. */
  datatype Option<+T> = None | Some(value: T)

  /** A parsed JSON document (the result of `response.json()`), kept opaque. */
  datatype Json =
    | JNull
    | JBool(b: bool)
    | JNum(n: int)
    | JStr(s: string)
    | JArray(items: seq<Json>)
    | JObject(fields: map<string, Json>)

  /** A value stored in a query-parameter dictionary. */
  datatype Value = Str(s: string) | Int(i: int) | Bool(b: bool) | Null

  /** `bool(x)` for an `Optional[str]`: neither `None` nor the empty string. */
  predicate TruthyStr(x: Option<string>)
  {
    x.Some? && x.value != ""
  }

  /** `bool(x)` for an `Optional[bool]`. */
  predicate TruthyBool(x: Option<bool>)
  {
    x == Some(true)
  }

  /** `bool(x)` for a JSON value as Python holds it after `json()`. */
  predicate TruthyJson(j: Json)
  {
    match j
    case JNull => false
    case JBool(b) => b
    case JNum(n) => n != 0
    case JStr(s) => s != ""
    case JArray(items) => |items| > 0
    case JObject(fields) => |fields| > 0
  }

  /** `bool(x)` for an `Optional` holding a JSON value. */
  predicate TruthyOptJson(x: Option<Json>)
  {
    x.Some? && TruthyJson(x.value)
  }

  /** The outcome of a call into a library: it raised, or it returned. */
  datatype Raises<+T> = Raised | Returns(value: T)

  /** A JSON value as Python holds it: JSON `null` is Python's `None`. */
  function AsPython(j: Json): Option<Json>
  {
    if j == JNull then None else Some(j)
  }

  /** `d.get(key)` on a parsed JSON object: `None` when the key is absent or
      holds `null`. */
  function GetJson(fields: map<string, Json>, key: string): Option<Json>
  {
    if key in fields then AsPython(fields[key]) else None
  }
}
