/**
 * The untyped value tree encoding/json produces when it decodes into `interface{}`:
 * nil, bool, float64 (here an integer), string, []interface{} and map[string]interface{}.
 */
module Json {
  datatype Value =
    | Null
    | Bool(b: bool)
    | Number(n: int)
    | Str(s: string)
    | List(items: seq<Value>)
    | Object(members: map<string, Value>)

  /** Reading a missing key of a Go map of interface values gives nil. */
  function Lookup(members: map<string, Value>, key: string): (v: Value)
    ensures key !in members ==> v == Null
    ensures key in members ==> v == members[key]
  {
    if key in members then members[key] else Null
  }
}
