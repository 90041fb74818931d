/**
 * JSON-like values: the payloads of tool responses and of UI events.
 */
module Payload {
  datatype Json =
    | JNull
    | JBool(b: bool)
    | JInt(i: int)
    | JNum(r: real)
    | JStr(s: string)
    | JList(items: seq<Json>)
    | JObject(entries: map<string, Json>)

  /** A list of strings as a JSON list. */
  function StrList(xs: seq<string>): (j: Json)
    ensures j.JList? && |j.items| == |xs|
    ensures forall i :: 0 <= i < |xs| ==> j.items[i] == JStr(xs[i])
  {
    JList(seq(|xs|, i requires 0 <= i < |xs| => JStr(xs[i])))
  }

  /** Python truthiness of a value: `None`, `False`, `0`, `""`, `[]` and `{}` are false. */
  predicate Truthy(j: Json) {
    match j
    case JNull => false
    case JBool(b) => b
    case JInt(i) => i != 0
    case JNum(r) => r != 0.0
    case JStr(s) => s != []
    case JList(items) => items != []
    case JObject(entries) => entries != map[]
  }
}
