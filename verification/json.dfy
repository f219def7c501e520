/** Decoded JSON values, as far as the relay's control messages look into them. */
module Json {
  import opened Wrappers

  /** `Composite` is an array or a nested object; nothing in the relay looks inside one. */
  datatype Value = Str(s: string) | Num(x: real) | Bool(b: bool) | Null | Composite

  /** A decoded object; a repeated key keeps its last value, as a map does. */
  type Object = map<string, Value>

  /** `dict.get`: the value under `key`, `None` when the key is absent. */
  function Get(o: Object, key: string): Option<Value> {
    if key in o then Some(o[key]) else None
  }
}
