/** Option and Result, shared by every other module. */
module Prelude {
  datatype Option<+T> = None | Some(value: T)
  datatype Result<+T, +E> = Ok(value: T) | Err(error: E)
}

/** JSON values and the accessors the repository uses on them. */
module Json {
  import opened Prelude

  datatype Json =
    | Null
    | Bool(b: bool)
    | Int(n: int)
    | Float(text: string)
    | Str(s: string)
    | Arr(items: seq<Json>)
    | Obj(fields: map<string, Json>)

  // Value::get with a string key: anything but an object has no fields.
  function Get(v: Json, key: string): Option<Json> {
    if v.Obj? && key in v.fields then Some(v.fields[key]) else None
  }

  function AsStr(v: Option<Json>): Option<string> {
    if v.Some? && v.value.Str? then Some(v.value.s) else None
  }

  function AsBool(v: Option<Json>): Option<bool> {
    if v.Some? && v.value.Bool? then Some(v.value.b) else None
  }

  // Only integers in the signed 64-bit range are visible through as_i64.
  function AsI64(v: Option<Json>): Option<int> {
    if v.Some? && v.value.Int? && -0x8000_0000_0000_0000 <= v.value.n < 0x8000_0000_0000_0000
    then Some(v.value.n)
    else None
  }

  function OrElse<T>(v: Option<T>, default: T): T {
    if v.Some? then v.value else default
  }

  // as_object().cloned().unwrap_or_default()
  function FieldsOf(v: Json): map<string, Json> {
    if v.Obj? then v.fields else map[]
  }
}
