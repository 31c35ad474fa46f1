/**
  Decoded JSON values, as `json.loads` hands them to the converter, and the
  few Python operations the converter applies to them: truth value,
  subscript by key, subscript by position and use as a number.
  A subscript that Python would answer with an exception yields `None`.
 */
module JsonValues {
  import opened Wrappers

  datatype Json =
    | JNull
    | JBool(b: bool)
    | JNum(n: real)
    | JStr(s: string)
    | JArr(elems: seq<Json>)
    | JObj(members: map<string, Json>)

  /** A mission item: a JSON object. */
  type JsonObject = map<string, Json>

  /** Python's `bool(j)`: null, false, zero and empty containers are falsy. */
  predicate Truthy(j: Json) {
    match j
    case JNull => false
    case JBool(b) => b
    case JNum(n) => n != 0.0
    case JStr(s) => s != ""
    case JArr(a) => a != []
    case JObj(m) => m != map[]
  }

  /** `j[key]`; Python raises unless `j` is an object holding `key`. */
  function Member(j: Json, key: string): Option<Json> {
    if j.JObj? && key in j.members then Some(j.members[key]) else None
  }

  /** `j[i]` for a list; Python raises on a short list (IndexError) or a non-list. */
  function Index(j: Json, i: nat): Option<Json> {
    if j.JArr? && i < |j.elems| then Some(j.elems[i]) else None
  }

  /** The value as a Python number (`bool` counts as 0 or 1); `None` where arithmetic raises. */
  function AsNumber(j: Json): Option<real> {
    match j
    case JNum(n) => Some(n)
    case JBool(b) => Some(if b then 1.0 else 0.0)
    case _ => None
  }

  /** An optional `float` command-line argument: `None` when it was not given. */
  function FromFloatArg(a: Option<real>): Json {
    match a
    case None => JNull
    case Some(x) => JNum(x)
  }
}
