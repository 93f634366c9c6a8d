/** The values a decoded JSON log line can hold, and what Python's `str()`
    makes of each of them. Floats, lists and objects are kept opaque: only
    their `str()` text is carried. */
module Json {
  import opened Text
  import opened Wrappers

  datatype JsonValue =
    | JNull
    | JBool(b: bool)
    | JInt(i: int)
    | JStr(s: string)
    | JOther(repr: string)

  /** Python's `str(v)` of a decoded JSON value. */
  function PyStr(v: JsonValue): (s: string)
    ensures v.JStr? ==> s == v.s
    ensures v.JInt? ==> ParseInt(s) == Some(v.i)
  {
    match v
    case JNull => "None"
    case JBool(b) => if b then "True" else "False"
    case JInt(i) => IntToStringRoundTrip(i); IntToString(i)
    case JStr(s) => s
    case JOther(repr) => repr
  }

  /** A JSON object as decoded by `json.loads`. */
  type Object = map<string, JsonValue>
}
