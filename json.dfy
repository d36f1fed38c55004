/** The dynamic tree the serde adapters work on: serde_json's `Value`.
    Parsing and the library's own map type are not modelled; an object is
    a finite map from keys to values. */
module Json {
  newtype u64 = x: int | 0 <= x < 0x1_0000_0000_0000_0000
  newtype i64 = x: int | -0x8000_0000_0000_0000 <= x < 0x8000_0000_0000_0000

  datatype Value =
    | Null
    | Bool(b: bool)
    | I64(i: i64)
    | U64(u: u64)
    | String(s: string)
    | Array(items: seq<Value>)
    | Object(fields: map<string, Value>)
}
