/**
 * JSON values as serde_json represents them. An object is a map from keys to
 * values: serde_json's default `Map` is ordered by key, so two objects are equal
 * exactly when their key sets and values agree, which is what Dafny's `map`
 * equality gives. Floating-point numbers are not modelled.
 */
module Json {
  import opened Wrappers

  datatype Value =
    | Null
    | Bool(b: bool)
    | Num(n: int)
    | Str(s: string)
    | Arr(items: seq<Value>)
    | Object(fields: map<string, Value>)

  /** `Value::Object(Map::new())` */
  const EmptyObject: Value := Object(map[])

  /** Follows a sequence of object keys from `v`; `None` when a key is missing. */
  function Lookup(v: Value, path: seq<string>): Option<Value>
    decreases |path|
  {
    if path == [] then Some(v)
    else if v.Object? && path[0] in v.fields then Lookup(v.fields[path[0]], path[1..])
    else None
  }
}
