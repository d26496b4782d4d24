/**
 * JSON values as Python's `json` module decodes them, and the Python
 * conversions (`float(x)`, `int(x)`, truth value) the dashboard applies to
 * them. Parsing text (ISO-8601 timestamps, numerals inside strings) is done by
 * library code outside this model and is supplied as `Parsers`.
 */
module Json {
  import opened Prelude

  datatype Json =
    | JNull
    | JBool(b: bool)
    | JNum(n: real)
    | JStr(s: string)
    | JArr(items: seq<Json>)
    | JObj(fields: map<string, Json>)

  /** Library parsers the dashboard relies on. */
  datatype Parsers = Parsers(
    /** Django's `parse_datetime` on a string, giving the parsed value's `isoformat()`; None if not ISO-8601. */
    parseDatetime: string -> Option<string>,
    /** `float(s)` on a string; None where it raises ValueError. */
    floatOfString: string -> Option<real>,
    /** `int(s)` on a string; None where it raises ValueError. */
    intOfString: string -> Option<int>,
    /** `str(x)`, which the ORM applies to a non-string value stored in a text column. */
    display: Json -> string,
    /** `isoformat()` of the server's wall-clock instant, for `created_at` and `updated_at`. */
    formatInstant: real -> string)

  /** Python's truth value of a decoded JSON value. */
  predicate Truthy(j: Json) {
    match j
    case JNull => false
    case JBool(b) => b
    case JNum(n) => n != 0.0
    case JStr(s) => s != ""
    case JArr(items) => items != []
    case JObj(fields) => fields != map[]
  }

  /** `payload.get(key)`: a missing key reads as `None`. */
  function Get(fields: map<string, Json>, key: string): Json {
    if key in fields then fields[key] else JNull
  }

  /** `float(x)`; None where Python raises TypeError or ValueError. */
  function PyFloat(j: Json, parsers: Parsers): (r: Option<real>)
    ensures j.JNum? ==> r == Some(j.n)
    ensures j.JNull? || j.JArr? || j.JObj? ==> r == None
  {
    match j
    case JNull => None
    case JBool(b) => Some(if b then 1.0 else 0.0)
    case JNum(n) => Some(n)
    case JStr(s) => parsers.floatOfString(s)
    case JArr(_) => None
    case JObj(_) => None
  }

  /** `int(x)`: a float is truncated toward zero; None where Python raises TypeError or ValueError. */
  function PyInt(j: Json, parsers: Parsers): (r: Option<int>)
    ensures j.JNum? ==> r.Some?
    ensures j.JNum? && 0.0 <= j.n ==> r.value as real <= j.n < r.value as real + 1.0
    ensures j.JNum? && j.n < 0.0 ==> r.value as real - 1.0 < j.n <= r.value as real
    ensures j.JNull? || j.JArr? || j.JObj? ==> r == None
  {
    match j
    case JNull => None
    case JBool(b) => Some(if b then 1 else 0)
    case JNum(n) => Some(Trunc(n))
    case JStr(s) => parsers.intOfString(s)
    case JArr(_) => None
    case JObj(_) => None
  }
}
