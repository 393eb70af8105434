/**
 * Decoded JSON values as the relay sees them after the request body has been
 * parsed, with Python's truthiness, `dict.get` and the `or` operator.
 */
module Json {

  /** A parsed JSON document: None, bool, int, float, str, list or dict. */
  datatype Json =
    | JNull
    | JBool(b: bool)
    | JInt(i: int)
    | JFloat(x: real)
    | JStr(s: string)
    | JArr(items: seq<Json>)
    | JObj(fields: map<string, Json>)

  /** The empty dict `{}`. */
  const EmptyObject: Json := JObj(map[])

  /** Python's `bool(v)`: None, False, zero, and empty strings, lists and dicts are falsy. */
  predicate Truthy(v: Json)
    ensures !Truthy(v) <==> v in {JNull, JBool(false), JInt(0), JFloat(0.0), JStr(""), JArr([]), EmptyObject}
  {
    match v
    case JNull => false
    case JBool(b) => b
    case JInt(i) => i != 0
    case JFloat(x) => x != 0.0
    case JStr(s) => s != ""
    case JArr(items) => items != []
    case JObj(fields) => fields != map[]
  }

  /** `d.get(key)` on a dict: the stored value, or None when the key is missing. */
  function Get(fields: map<string, Json>, key: string): (r: Json)
    ensures key in fields ==> r == fields[key]
    ensures key !in fields ==> r == JNull && !Truthy(r)
  {
    if key in fields then fields[key] else JNull
  }

  /** Python's `a or b`: `a` when it is truthy, otherwise `b` (which is not inspected). */
  function Or(a: Json, b: Json): (r: Json)
    ensures Truthy(r) <==> Truthy(a) || Truthy(b)
    ensures Truthy(a) ==> r == a
    ensures !Truthy(a) ==> r == b
  {
    if Truthy(a) then a else b
  }
}
