/**
  Decoded MQTT payloads. The gateway unmarshals every inbound payload into a
  `map[string]interface{}`; encoding/json then yields float64 for every JSON
  number, string for strings, a nested map for objects, and other dynamic types
  (bool, nil, slices) that no part of the core inspects.
 */
module Messages {
  import opened Wrappers

  /** One decoded JSON value as the gateway sees it. */
  datatype Value = Num(n: real) | Str(s: string) | Obj(fields: map<string, Value>) | Other

  /** A decoded JSON object. */
  type Object = map<string, Value>

  /** `m[key].(string)`: None exactly where Go's unchecked assertion panics. */
  function StringField(m: Object, key: string): (r: Option<string>)
    ensures r.Some? <==> key in m && m[key].Str?
    ensures r.Some? ==> m[key] == Str(r.value)
  {
    if key in m && m[key].Str? then Some(m[key].s) else None
  }

  /** `m[key].(float64)`: None exactly where Go's unchecked assertion panics. */
  function NumberField(m: Object, key: string): (r: Option<real>)
    ensures r.Some? <==> key in m && m[key].Num?
    ensures r.Some? ==> m[key] == Num(r.value)
  {
    if key in m && m[key].Num? then Some(m[key].n) else None
  }

  /** `m[key].(map[string]interface{})`: None exactly where the assertion panics. */
  function ObjectField(m: Object, key: string): (r: Option<Object>)
    ensures r.Some? <==> key in m && m[key].Obj?
    ensures r.Some? ==> m[key] == Obj(r.value)
  {
    if key in m && m[key].Obj? then Some(m[key].fields) else None
  }
}
