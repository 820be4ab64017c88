/** The JSON values that FuseKit reads, redacts and publishes.

    `S` is the type of text: `string` where text is only compared, a sequence of
    code points where the exact encoding matters (module ScriptJson).
    An object is a map: the order of its members carries no meaning. */
module Json {
  datatype Json<S> =
    | Null
    | Bool(b: bool)
    | Int(n: int)
    | Str(s: S)
    | Arr(items: seq<Json<S>>)
    | Obj(fields: map<S, Json<S>>)

  type Value = Json<string>

  /** Python's `raw.get(key, default)`. */
  function Get(fields: map<string, Value>, key: string, default: Value): Value {
    if key in fields then fields[key] else default
  }

  /** Python's truth test of a JSON value. */
  predicate Truthy(v: Value) {
    match v
    case Null => false
    case Bool(b) => b
    case Int(n) => n != 0
    case Str(s) => s != ""
    case Arr(items) => items != []
    case Obj(fields) => fields != map[]
  }

  /** Python's `str(v)`.  How it renders a value that is not text is left to `show`. */
  function TextOf(v: Value, show: Value -> string): string {
    if v.Str? then v.s else show(v)
  }

  /** Python's `str(raw.get(key, "") or otherwise)`. */
  function TextField(fields: map<string, Value>, key: string, otherwise: string, show: Value -> string): string {
    if key in fields && Truthy(fields[key]) then TextOf(fields[key], show) else otherwise
  }
}
