/** The part of `serde_json::Value` the build macro reads: indexing by key
    (which yields `Null` when the key is absent or the value is not an object),
    `as_str`, `is_boolean` and matching on `Value::Array`. */
module Json {
  import opened Wrappers

  /** A JSON value. An object keeps its fields in iteration order; keys are
      distinct (with serde_json's default map that order is sorted by key). */
  datatype Value =
    | Null
    | Bool(b: bool)
    | Number(n: int)
    | String(s: string)
    | Array(items: seq<Value>)
    | Object(fields: seq<(string, Value)>)

  /** The value stored under `key` among `fields`, or `Null`. */
  function Lookup(fields: seq<(string, Value)>, key: string): Value
  {
    if fields == [] then Null
    else if fields[0].0 == key then fields[0].1
    else Lookup(fields[1..], key)
  }

  /** `v[key]` */
  function Index(v: Value, key: string): Value
  {
    if v.Object? then Lookup(v.fields, key) else Null
  }

  /** `v.as_str()` */
  function AsStr(v: Value): Option<string>
  {
    if v.String? then Some(v.s) else None
  }

  /** The elements visited by `if let Value::Array(arr) = v { for i in arr … }`:
      none at all when `v` is not an array. */
  function ArrayItems(v: Value): seq<Value>
  {
    if v.Array? then v.items else []
  }
}
