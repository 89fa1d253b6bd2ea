/**
 * The JSON-shaped values the agent keeps in its key/value memory and exchanges with
 * its collaborators: Python dicts, lists, strings, booleans, numbers and None.
 */
module Json {

  datatype Json =
    | JNull
    | JBool(b: bool)
    | JNum(n: int)
    | JStr(s: string)
    | JArr(items: seq<Json>)
    | JObj(fields: map<string, Json>)

  /** Python truthiness: None, False, 0, "", [] and {} are falsy. */
  predicate Truthy(v: Json) {
    match v
    case JNull => false
    case JBool(b) => b
    case JNum(n) => n != 0
    case JStr(s) => s != ""
    case JArr(items) => items != []
    case JObj(fields) => fields != map[]
  }

  /** Python's `a or b`: the first operand when it is truthy, otherwise the second. */
  function Or(a: Json, b: Json): Json {
    if Truthy(a) then a else b
  }

  /** `d.get(key, default)` on a dict. */
  function Lookup(fields: map<string, Json>, key: string, default: Json): Json {
    if key in fields then fields[key] else default
  }

  /** A string, or None (the only shapes the text inputs of the pipeline take). */
  predicate IsTextOrNull(v: Json) {
    v.JStr? || v.JNull?
  }
}
