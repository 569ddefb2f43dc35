/**
 * The JSON values that travel through the client, as serde_json's `Value`:
 * integers (serde's PosInt/NegInt) and floats (serde's f64 numbers) are two
 * distinct kinds of number, and objects are maps from keys to values.
 */
module Json {
  import opened Common

  datatype Json =
    | Null
    | Bool(b: bool)
    | Int(i: int)
    | Float(x: real)
    | Str(s: string)
    | Arr(items: seq<Json>)
    | Obj(fields: map<string, Json>)

  const U64Bound: int := 0x1_0000_0000_0000_0000
  const I64Min: int := -0x8000_0000_0000_0000
  const I64Bound: int := 0x8000_0000_0000_0000

  /** `Value::is_number`. */
  predicate IsNumber(v: Json) {
    v.Int? || v.Float?
  }

  /** `Value::as_u64`: only an integer in the unsigned 64-bit range. */
  function AsU64(v: Json): (r: Option<nat>)
    ensures r.Some? <==> v.Int? && 0 <= v.i < U64Bound
    ensures r.Some? ==> v == Int(r.value)
  {
    if v.Int? && 0 <= v.i < U64Bound then Some(v.i) else None
  }

  /** `Value::as_i64`: only an integer in the signed 64-bit range; a float never converts. */
  function AsI64(v: Json): (r: Option<int>)
    ensures r.Some? <==> v.Int? && I64Min <= v.i < I64Bound
    ensures r.Some? ==> v == Int(r.value)
  {
    if v.Int? && I64Min <= v.i < I64Bound then Some(v.i) else None
  }

  /** `Value::as_str`. */
  function AsStr(v: Json): (r: Option<string>)
    ensures r.Some? <==> v.Str?
    ensures r.Some? ==> v == Str(r.value)
  {
    if v.Str? then Some(v.s) else None
  }

  /** `Value::as_bool`. */
  function AsBool(v: Json): (r: Option<bool>)
    ensures r.Some? <==> v.Bool?
    ensures r.Some? ==> v == Bool(r.value)
  {
    if v.Bool? then Some(v.b) else None
  }

  /** `Value::as_array`. */
  function AsArray(v: Json): (r: Option<seq<Json>>)
    ensures r.Some? <==> v.Arr?
    ensures r.Some? ==> v == Arr(r.value)
  {
    if v.Arr? then Some(v.items) else None
  }

  /** `Value::get` on a key: only an object has members. */
  function Get(v: Json, key: string): (r: Option<Json>)
    ensures r.Some? <==> v.Obj? && key in v.fields
    ensures r.Some? ==> r.value == v.fields[key]
  {
    if v.Obj? && key in v.fields then Some(v.fields[key]) else None
  }

  /** `HashMap::get(..).cloned()`. */
  function Lookup<V>(m: map<string, V>, key: string): (r: Option<V>)
    ensures r.Some? <==> key in m
    ensures r.Some? ==> r.value == m[key]
  {
    if key in m then Some(m[key]) else None
  }
}
