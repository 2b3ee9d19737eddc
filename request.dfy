/** The JSON documents that arrive as request parameters, as the handlers
    see them once parsed: typed lookups that either find a value of the
    asked type or report an error. Parsing the text itself is not part of
    this model; a request that does not parse is represented by the error
    message of the parser. */
module Requests {
  import opened Wrappers

  /** A parsed JSON value. Integers are unbounded here; `GetInt64` applies
      the 64-bit range of the reader. Non-integral numbers carry no value:
      no handler of the model reads one. */
  datatype Json =
    | JNull
    | JBool(b: bool)
    | JInt(i: int)
    | JReal
    | JString(s: string)
    | JArray(items: seq<Json>)
    | JObject(fields: map<string, Json>)

  /** The document of a handler that looks its fields up on the parse
      result without unwrapping it: after a failed parse every lookup
      reports an error, as on `null`. */
  function Fields(request: Result<Json>): Json {
    match request
    case Ok(doc) => doc
    case Err(_) => JNull
  }

  const MinInt64: int := -0x8000_0000_0000_0000
  const MaxInt64: int := 0x7FFF_FFFF_FFFF_FFFF

  /** `v[key]`: an error unless `v` is an object holding `key`. */
  function Get(v: Json, key: string): Option<Json> {
    if v.JObject? && key in v.fields then Some(v.fields[key]) else None
  }

  /** `v[key].get_string()` */
  function GetString(v: Json, key: string): Option<string> {
    match Get(v, key)
    case Some(JString(s)) => Some(s)
    case _ => None
  }

  /** `v[key].get_bool()` */
  function GetBool(v: Json, key: string): Option<bool> {
    match Get(v, key)
    case Some(JBool(b)) => Some(b)
    case _ => None
  }

  /** `v[key].get_int64()`: integers outside the signed 64-bit range are an
      error. */
  function GetInt64(v: Json, key: string): Option<int> {
    match Get(v, key)
    case Some(JInt(i)) => if MinInt64 <= i <= MaxInt64 then Some(i) else None
    case _ => None
  }

  /** `v[key].get_array()` */
  function GetArray(v: Json, key: string): Option<seq<Json>> {
    match Get(v, key)
    case Some(JArray(items)) => Some(items)
    case _ => None
  }

  /** The value of an optional field, or the value it keeps when the field
      is absent or of another type. */
  function StringOr(v: Json, key: string, otherwise: string): string {
    match GetString(v, key)
    case Some(s) => s
    case None => otherwise
  }

  function BoolOr(v: Json, key: string, otherwise: bool): bool {
    match GetBool(v, key)
    case Some(b) => b
    case None => otherwise
  }
}
