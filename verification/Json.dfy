/** JSON values as the turn loops read them, with Python's lookups on them. */
module Json {
  import Decimal

  datatype Json =
    | Null
    | Bool(b: bool)
    | Num(n: int)
    | Str(s: string)
    | Arr(items: seq<Json>)
    | Obj(fields: map<string, Json>)

  type Message = map<string, Json>

  predicate Truthy(j: Json) {
    match j
    case Null => false
    case Bool(b) => b
    case Num(n) => n != 0
    case Str(s) => s != ""
    case Arr(items) => items != []
    case Obj(fields) => fields != map[]
  }

  /** `message.get(key)` */
  function Get(m: Message, key: string): Json {
    if key in m then m[key] else Null
  }

  /** `(j or {}).get(...)` works: `j` is an object, or falsy. */
  predicate Dict(j: Json) {
    !Truthy(j) || j.Obj?
  }

  function In(j: Json, key: string): Json {
    if j.Obj? then Get(j.fields, key) else Null
  }

  /** Lists and objects cannot be members of a Python set. */
  predicate Hashable(j: Json) {
    !j.Arr? && !j.Obj?
  }

  /** `str(j)` of a scalar; the text of a list or an object is not modelled further. */
  function Rendered(j: Json): string {
    match j
    case Null => "None"
    case Bool(b) => if b then "True" else "False"
    case Num(n) => Decimal.Show(n)
    case Str(s) => s
    case _ => "<value>"
  }

  /** `str(j or "")` */
  function Text(j: Json): string {
    if Truthy(j) then Rendered(j) else ""
  }
}
