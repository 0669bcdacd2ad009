/**
 JSON values as the gateway builds and receives them: Python dicts, lists,
 strings, integers, floats, booleans and `None` after `json` encoding.
 Object keys are held in a map, so the insertion order a Python dict keeps
 is not represented.
 */
module Json {

  datatype Json =
    | Null
    | Bool(b: bool)
    | Int(i: int)
    | Float(x: real)
    | Str(s: string)
    | Array(items: seq<Json>)
    | Object(fields: map<string, Json>)

  /** A JSON array of strings, as a Python `List[str]` is encoded. */
  function StrArray(xs: seq<string>): (j: Json)
    ensures j.Array? && |j.items| == |xs|
    ensures forall i | 0 <= i < |xs| :: j.items[i] == Str(xs[i])
  {
    Array(seq(|xs|, i requires 0 <= i < |xs| => Str(xs[i])))
  }

  /** A JSON object whose values are all strings, as a Python `Dict[str, str]` is encoded. */
  function StrObject(m: map<string, string>): (j: Json)
    ensures j.Object? && j.fields.Keys == m.Keys
    ensures forall k | k in m :: j.fields[k] == Str(m[k])
  {
    Object(map k | k in m :: Str(m[k]))
  }
}
