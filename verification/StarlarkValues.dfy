/** The Starlark values and the Go JSON trees that cistarlark converts between. */
module StarlarkValues {
  /** A float64, by its bits. */
  datatype Float64 = Float64(bits: bv64)

  /**
    Starlark values, by the type switch of `convertValueToJSON`. A dictionary keeps
    its entries in insertion order; `Other` is any kind the switch does not name.
   */
  datatype Value =
    | NoneValue
    | Bool(b: bool)
    | Int(n: int)
    | Float(f: Float64)
    | String(s: string)
    | Bytes(bs: string)
    | List(elems: seq<Value>)
    | Dict(entries: seq<(Value, Value)>)
    | Builtin
    | Other(kind: string)
}
