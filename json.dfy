/**
 * The JSON-shaped values the configuration store and the plugin contexts
 * hold: Python's None, bool, int, float, str, list and dict.
 */
module JsonValue {
  datatype Json =
    | JNull
    | JBool(b: bool)
    | JInt(i: int)
    | JReal(r: real)
    | JStr(s: string)
    | JList(items: seq<Json>)
    | JObj(obj: map<string, Json>)

  /** Python's truth value of the value (`if value:`). */
  predicate Truthy(v: Json) {
    match v
    case JNull => false
    case JBool(b) => b
    case JInt(i) => i != 0
    case JReal(r) => r != 0.0
    case JStr(s) => s != ""
    case JList(items) => items != []
    case JObj(obj) => obj != map[]
  }
}
