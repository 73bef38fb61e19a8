/** Go `interface{}` values as the core receives them: what
    `encoding/json` decodes (null, booleans, strings, float64 numbers,
    arrays, objects) plus the typed values a caller of `analyseCashFlow`
    may place in a transaction map (float32, int, int64, time.Time). */
module Dynamic {

  datatype Value =
    | Null
    | Bool(b: bool)
    | Str(s: string)
    | Float64(f64: real)
    | Float32(f32: real)
    | Int(i: int)
    | Int64(i64: int)
    /** A `time.Time`, as whole seconds since Go's zero instant
        (0001-01-01T00:00:00Z), so that `IsZero()` is `t == 0`. */
    | Time(t: int)
    | Array(items: seq<Value>)
    | Object(fields: map<string, Value>)

  /** A `map[string]interface{}`. */
  type Record = map<string, Value>

  /** The key is present and holds a string, so `r[key].(string)` does
      not panic. */
  predicate HasString(r: Record, key: string)
  {
    key in r && r[key].Str?
  }
}
