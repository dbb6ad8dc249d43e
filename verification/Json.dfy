/** JSON (and TOML) values as Python sees them, with its notion of truth. */
module Json {
  datatype Json =
    | Null
    | Bool(b: bool)
    | Int(n: int)
    | Float(x: real)
    | NonFinite
    | Str(s: string)
    | Arr(items: seq<Json>)
    | Obj(fields: Fields)

  type Fields = map<string, Json>

  predicate Truthy(j: Json) {
    match j
    case Null => false
    case Bool(b) => b
    case Int(n) => n != 0
    case Float(x) => x != 0.0
    case NonFinite => true
    case Str(s) => s != ""
    case Arr(items) => items != []
    case Obj(fields) => fields != map[]
  }

  /** `dict.get`: an absent key reads as None. */
  function Get(fields: Fields, key: string): Json {
    if key in fields then fields[key] else Null
  }

  /** `value or default`. */
  function Or(j: Json, default: Json): Json {
    if Truthy(j) then j else default
  }
}
