/** JSON values as the Python code sees them after decoding. */
module Json {
  datatype Json =
    | Null
    | Bool(b: bool)
    | Int(n: int)
    | Str(s: string)
    | List(items: seq<Json>)
    | Dict(fields: map<string, Json>)

  type Fields = map<string, Json>

  /** Python truth value. */
  predicate Truthy(v: Json) {
    match v
    case Null => false
    case Bool(b) => b
    case Int(n) => n != 0
    case Str(s) => s != []
    case List(items) => items != []
    case Dict(fields) => fields != map[]
  }

  /** Exactly six kinds of values are false: None, False, zero, and whatever is empty. */
  lemma FalseExactly(v: Json)
    ensures !Truthy(v) <==>
              || v == Null || v == Bool(false) || v == Int(0) || v == Str("") || v == List([]) || v == Dict(map[])
  {}

  /** `d.get(key)`: a missing key reads as None. */
  function Get(d: Fields, key: string): Json {
    if key in d then d[key] else Null
  }
}
