/** Dynamic values as the services return them (JSON-like Python objects),
    with Python's truthiness, `dict.get` and `or`. */
module Json {

  datatype Json =
    | JNull
    | JBool(b: bool)
    | JNum(n: real)
    | JStr(s: string)
    | JList(items: seq<Json>)
    | JObj(fields: map<string, Json>)

  /** Python `bool(v)`. */
  predicate Truthy(v: Json) {
    match v
    case JNull => false
    case JBool(b) => b
    case JNum(n) => n != 0.0
    case JStr(s) => s != ""
    case JList(items) => items != []
    case JObj(fields) => fields != map[]
  }

  /** `d.get(key)`: `None` for a missing key. */
  function Get(d: map<string, Json>, key: string): (v: Json)
    ensures key !in d ==> v == JNull
  {
    if key in d then d[key] else JNull
  }

  /** Python `a or b`: the first operand when it is truthy, else the second. */
  function Or(a: Json, b: Json): (v: Json)
    ensures Truthy(a) ==> v == a
    ensures !Truthy(a) ==> v == b
  {
    if Truthy(a) then a else b
  }

  /** Python `str(v)` for a string; other values are shown by `show`. */
  function Str(v: Json, show: Json -> string): (r: string)
    ensures v.JStr? ==> r == v.s
  {
    if v.JStr? then v.s else show(v)
  }
}
