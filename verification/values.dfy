/**
  Go's dynamically typed values (`interface{}`), restricted to the kinds the
  program passes around: nil, `int`, `int64`, `float64`, `string` and slices.
 */
module Values {

  /** Go's 64-bit signed integers. `int` is taken to be 64 bits wide, as on the usual 64-bit platforms. */
  newtype Int64 = x: int | -0x8000_0000_0000_0000 <= x < 0x8000_0000_0000_0000

  /** An IEEE-754 double, kept as its bit pattern: the model does no floating-point arithmetic. */
  datatype Float64 = Float64(bits: bv64)

  datatype Value =
    | GoNil
    | GoInt(n: Int64)
    | GoInt64(n: Int64)
    | GoFloat64(f: Float64)
    | GoString(s: string)
    | GoSlice(items: seq<Value>)

  /** The dynamic type a Go type switch or type assertion inspects. */
  datatype Kind = NilKind | IntKind | Int64Kind | Float64Kind | StringKind | SliceKind

  function KindOf(v: Value): Kind
  {
    match v
    case GoNil => NilKind
    case GoInt(_) => IntKind
    case GoInt64(_) => Int64Kind
    case GoFloat64(_) => Float64Kind
    case GoString(_) => StringKind
    case GoSlice(_) => SliceKind
  }
}
