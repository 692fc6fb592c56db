/**
  The numeric coercions `double` and `long` of main.go.

  Each is a type switch on the dynamic kind of its argument: two kinds are
  converted explicitly and the default branch asserts the third kind, which
  panics for anything else. The float conversions themselves are not computed:
  a converted value is kept as the symbolic conversion the source performs.
 */
module Coercion {
  import opened Wrappers
  import opened Values

  /** The panic of a failed Go type assertion: the kind found and the kind asserted. */
  datatype TypeMismatch = TypeMismatch(found: Kind, asserted: Kind)

  /** A `float64` produced by `double`: the input itself, or `float64(n)` of an integer. */
  datatype DoubleValue = AsIs(f: Float64) | FromInteger(n: Int64)

  /** An `int64` produced by `long`: an exact integer, or `int64(f)` (truncation) of a float. */
  datatype LongValue = Exact(n: Int64) | Truncated(f: Float64)

  /** The kinds both coercions accept. */
  predicate IsNumeric(v: Value)
  {
    v.GoInt? || v.GoInt64? || v.GoFloat64?
  }

  /** `double`: `int` and `int64` are converted, the default branch asserts `float64`. */
  function Double(x: Value): (r: Result<DoubleValue, TypeMismatch>)
    ensures r.Ok? <==> IsNumeric(x)
    ensures x.GoFloat64? ==> r == Ok(AsIs(x.f))
    ensures (x.GoInt? || x.GoInt64?) ==> r == Ok(FromInteger(x.n))
    ensures r.Err? ==> r.error.found == KindOf(x) != Float64Kind && r.error.asserted == Float64Kind
  {
    match x
    case GoInt(n) => Ok(FromInteger(n))
    case GoInt64(n) => Ok(FromInteger(n))
    // the default branch: `x.(float64)`
    case GoFloat64(f) => Ok(AsIs(f))
    case _ => Err(TypeMismatch(KindOf(x), Float64Kind))
  }

  /** `long`: `int` and `float64` are converted, the default branch asserts `int64`. */
  function Long(x: Value): (r: Result<LongValue, TypeMismatch>)
    ensures r.Ok? <==> IsNumeric(x)
    ensures (x.GoInt? || x.GoInt64?) ==> r == Ok(Exact(x.n))
    ensures x.GoFloat64? ==> r == Ok(Truncated(x.f))
    ensures r.Err? ==> r.error.found == KindOf(x) != Int64Kind && r.error.asserted == Int64Kind
  {
    match x
    case GoInt(n) => Ok(Exact(n))
    case GoFloat64(f) => Ok(Truncated(f))
    // the default branch: `x.(int64)`
    case GoInt64(n) => Ok(Exact(n))
    case _ => Err(TypeMismatch(KindOf(x), Int64Kind))
  }

  /** Both coercions accept exactly the same kinds, and both reject a string, a slice or nil. */
  lemma {:induction false} CoercionsShareDomain(x: Value)
    ensures Double(x).Ok? <==> Long(x).Ok?
    ensures (x.GoString? || x.GoSlice? || x.GoNil?) ==> Double(x).Err? && Long(x).Err?
  {
  }

  /** On an integer both coercions keep the integer's value: `long` returns it unchanged, `double` converts that same number. */
  lemma {:induction false} IntegerCoercionsAgree(x: Value)
    requires x.GoInt? || x.GoInt64?
    ensures Long(x) == Ok(Exact(x.n))
    ensures Double(x) == Ok(FromInteger(Long(x).value.n))
  {
  }
}
