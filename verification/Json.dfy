/** JSON values as the relay handles them.  Objects are finite maps: the JSON library is
    built with its default ordered map, so an object has no insertion order to remember. */
module Json {
  import opened Wrappers

  /** `Int` covers the 64-bit signed and unsigned integers, `Float` keeps the literal that
      the library prints for a floating-point number. */
  datatype Value =
    | Null
    | Bool(b: bool)
    | Int(n: int)
    | Float(lit: string)
    | Str(s: string)
    | Arr(items: seq<Value>)
    | Obj(fields: map<string, Value>)

  /** `v.get(key)`: a field of an object, nothing for any other value. */
  function Get(v: Value, key: string): Option<Value> {
    if v.Obj? && key in v.fields then Some(v.fields[key]) else None
  }

  function AsStr(v: Option<Value>): Option<string> {
    if v.Some? && v.value.Str? then Some(v.value.s) else None
  }

  /** The string field `key`, or the empty string. */
  function StrField(v: Value, key: string): string {
    AsStr(Get(v, key)).GetOr("")
  }
}
