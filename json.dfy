/**
 * An abstract `serde_json::Value`: the server only inspects and builds
 * values, it never depends on their textual form.
 */
module Json {
  import opened Wrappers

  datatype Json =
    | JNull
    | JBool(b: bool)
    | JInt(i: int)         // a Number that holds an integer
    | JFloat(f: real)      // a Number that holds a floating-point value
    | JString(s: string)
    | JArray(items: seq<Json>)
    | JObject(fields: map<string, Json>)

  /** `Value::get(key)`: only an object has members. */
  function Get(v: Json, key: string): Option<Json> {
    if v.JObject? && key in v.fields then Some(v.fields[key]) else None
  }

  /** `Value::as_str`. */
  function AsStr(v: Json): Option<string> {
    if v.JString? then Some(v.s) else None
  }

  const I64_MIN: int := -0x8000_0000_0000_0000
  const I64_MAX: int := 0x7FFF_FFFF_FFFF_FFFF

  /** `Value::as_i64`: an integer Number that fits in an i64. */
  function AsI64(v: Json): Option<int> {
    if v.JInt? && I64_MIN <= v.i <= I64_MAX then Some(v.i) else None
  }
}
