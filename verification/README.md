# Arity dispatch and the key/value object builder, in Dafny

This project models the two pieces of logic in the cljs2go example program:

- **Arity dispatch** (`main.go`). `Foo.Bar(xs...)` and `Foo.Bar_ApplyTo(xs)` choose a
  handler by the number of arguments alone. With more than two arguments they call the variadic
  handler `Bar_2_VA(x, y, xs...)`: the first two arguments are fixed and the rest form the tail.
  `Bar_1` handles one argument and `Bar_2` handles two. Any other count, which can only be zero,
  panics with `Invalid arity: <n>`. Each handler returns its own name as a string. The coercions
  `double` and `long` pick a conversion by the dynamic kind of their argument and panic on a kind
  they do not handle.
- **Object builder** (`goog/object/object.go`). `Create(keyvals...)` walks a flat argument list
  two positions at a time. It stores each string key with the value that follows it in a fresh
  map, and later pairs overwrite earlier ones. It panics on an odd-length list or a non-string
  key. `ForEach` calls a callback once per map entry and returns nil.

Modules:

- `Values` (values.dfy) covers Go's dynamically typed `interface{}` values: nil, `int`, `int64`,
  `float64` (kept as an opaque bit pattern), `string` and slices.
- `Dispatch` (dispatch.dfy) covers the handlers and both entry points. It also covers the
  reflective call as written and the `Invalid arity` message.
- `Coercion` (coercion.dfy) covers `double` and `long`.
- `GoogObject` (object.dfy) covers `Create` and `ForEach`.
- `Wrappers` (wrappers.dfy) holds `Option` and `Result`.

`main.go` is pure, so it is modelled with functions and lemmas. A handler invocation is a `Call`
value that records the arguments the handler received. The model returns a Go panic as an
outcome instead of aborting.

`goog/object/object.go` fills a map in a counted loop. `Create` is therefore a method with a
`while` loop, proved equal to `CreateSpec`, which is a left fold of the pairs. `ForEach` is a
loop over the keys that returns the trace of callback calls.

## Model

| member | source | states |
|---|---|---|
| `Dispatch.Invoke` | main.go:10-23 | Each handler returns a string tag naming it: "Bar_1" exactly for `Bar_1`, "Bar_2" for `Bar_2`, "Bar_2_VA" for `Bar_2_VA`. |
| `Dispatch.HandlerResultIsConstant` | main.go:10-23 | Two handler calls return the same value exactly when they go to the same handler. The result ignores the argument values and the tail length. |
| `Dispatch.BarApplyTo` | main.go:25-41 | Meets the dispatch contract. It fails with `InvalidArity(n)` exactly when the routing table has no handler for `n`, which is only `n == 0`. Otherwise it runs the handler the table names, that handler receives exactly `xs` in order, and the result is that handler's. |
| `Dispatch.Bar` | main.go:43-54 | Meets the same dispatch contract as `Bar_ApplyTo`. |
| `Dispatch.DispatchIsDeterministic` | main.go:25-54 | At most one outcome meets the dispatch contract: the contract fixes the handler, its arguments and the result. |
| `Dispatch.EntryPointsAgree` | main.go:25-54 | `Bar(xs) == Bar_ApplyTo(xs)` for every argument list. |
| `Dispatch.VariadicSplit` | main.go:28-34 | With more than two arguments, `Bar` calls `Bar_2_VA(xs[0], xs[1], xs[2..])` and returns "Bar_2_VA". The fixed arguments followed by the tail rebuild `xs`, and the tail is non-empty. |
| `Dispatch.SingleArgument` | main.go:35-36 | One argument: both entry points call `Bar_1(x)` and return "Bar_1". |
| `Dispatch.TwoArguments` | main.go:37-38 | Two arguments: both entry points call `Bar_2(x, y)` and return "Bar_2". |
| `Dispatch.NoArgument` | main.go:40 | No argument: both entry points fail with `InvalidArity(0)` and no handler runs. |
| `Dispatch.OnlyLengthMatters` | main.go:26-39 | Two argument lists of the same length select the same handler and get the same result, or fail identically. |
| `Dispatch.Decimal` | main.go:40 | `%d` of a natural number is a non-empty string of decimal digits with no leading zero. It has one digit exactly for numbers below 10. |
| `Dispatch.DecimalRoundTrip` | main.go:40 | Reading the decimal digits back gives the original number. |
| `Dispatch.PanicMessage` | main.go:53 | A message exists exactly when the call panicked. An arity panic's message starts with "Invalid arity: ". |
| `Dispatch.PanicMessageCarriesArity` | main.go:53 | After "Invalid arity: ", the message is the decimal form of the attempted arity, and it reads back as that arity. |
| `Dispatch.EmptyCallMessage` | main.go:115 | `Bar()` panics with exactly "Invalid arity: 0". |
| `Dispatch.DemoCalls` | main.go:86-114 | The results of the demo calls: "Bar_1", "Bar_2_VA", "Bar_1", "Bar_2", "Bar_2", and the variadic call of `Bar(2, 3, 4)` with tail `[4]`. |
| `Dispatch.FirstNil` | main.go:31-34 | Gives the position of the first nil argument, or none exactly when no argument is nil. |
| `Dispatch.ReflectiveBar2VA` | main.go:29-34 | The reflective call panics exactly when some argument is nil, at the first nil position. Otherwise it equals the direct call of `Bar_2_VA` with the same arguments. |
| `Dispatch.BarApplyToAsWritten` | main.go:25-41 | `Bar_ApplyTo` as written panics in reflection exactly when there are more than two arguments and one is nil. Otherwise it meets the dispatch contract. |
| `Dispatch.ReflectionAgreesWithoutNil` | main.go:29-34 | Without a nil argument, the as-written `Bar_ApplyTo` equals the modelled one. |
| `Dispatch.ReflectionRejectsNil` | main.go:29-34 | On three nil arguments, the as-written `Bar_ApplyTo` panics at position 0, while the direct call returns "Bar_2_VA". |
| `Coercion.Double` | main.go:56-65 | `double` accepts exactly `int`, `int64` and `float64`. It converts an integer to `float64(n)` and passes a float through unchanged. For any other kind it fails, because the assertion to `float64` fails. |
| `Coercion.Long` | main.go:67-76 | `long` accepts exactly `int`, `float64` and `int64`. It returns an integer unchanged and truncates a float. For any other kind it fails, because the assertion to `int64` fails. |
| `Coercion.CoercionsShareDomain` | main.go:56-76 | `double` and `long` accept the same kinds. Both reject a string, a slice and nil. |
| `Coercion.IntegerCoercionsAgree` | main.go:56-76 | On an integer, `long` returns it unchanged and `double` converts that same number. |
| `GoogObject.FirstBadPair` | goog/object/object.go:5-7 | When some pair is ill-formed, this finds the first one. It lies within the list, is ill-formed, and every pair before it is well formed. |
| `GoogObject.Create` | goog/object/object.go:3-10 | The loop's result equals `CreateSpec`. That is the left fold of all pairs into an empty map, or the panic at the position of the first ill-formed pair. The invariant: after `i/2` pairs, the map equals the fold of those pairs. |
| `GoogObject.WellFormedIff` | goog/object/object.go:6 | `Create` accepts a list exactly when its length is even and every even position holds a string. |
| `GoogObject.CreateEmpty` | goog/object/object.go:4-9 | An empty argument list gives an empty map. |
| `GoogObject.CreateFailsOnOddLength` | goog/object/object.go:6 | An odd-length list panics, because the last key has no value. |
| `GoogObject.CreateFailsOnNonStringKey` | goog/object/object.go:6 | A non-string at any key position makes `Create` panic. |
| `GoogObject.CreatePanicsAtFirstBadPair` | goog/object/object.go:5-7 | A panic names an even position inside the list. Either its value position is out of range or its key is not a string, and every pair before it is well formed. |
| `GoogObject.BuildKeys` | goog/object/object.go:5-8 | After `k` pairs, the map's keys are exactly the keys of those pairs. |
| `GoogObject.BuildSize` | goog/object/object.go:5-7 | After `k` pairs, the map holds at most `k` entries. |
| `GoogObject.BuildLastWins` | goog/object/object.go:6 | A key maps to the value of its last occurrence among the pairs stored so far. |
| `GoogObject.CreateContents` | goog/object/object.go:5-9 | A successful `Create` has exactly the keys of the list and at most `len(keyvals)/2` entries. Each key maps to the value that follows its last occurrence. |
| `GoogObject.ForEach` | goog/object/object.go:12-17 | Returns nil. It calls the callback once per entry: each call gets a key of the map and its value, no key twice, as many calls as entries, and every key is visited. |

## Left out

- The `fmt.Printf` output of the handlers and of `main` (main.go:11, 16, 21, 83-115) is observability only and does not affect any returned value.
- The loop that fills the `reflect.Value` slice, and `MethodByName`/`Call` (main.go:29-34), are replaced by a direct call of `Bar_2_VA` with the same arguments in the same order. The one visible difference, a nil argument, is kept as `Dispatch.BarApplyToAsWritten` (see Findings).
- The floating-point arithmetic is left out: `float64(n)` rounding, `int64(f)` truncation and `plus_one` (main.go:59-63, 72, 78-80). A float is an opaque bit pattern, and a conversion is kept as the symbolic value `FromInteger(n)` or `Truncated(f)`. Only the kind-based branch and the failure are modelled.
- The loops in `main` that copy `[]int` into `[]interface{}` (main.go:88-106) are demo plumbing.
- Go's `int` is taken to be 64 bits wide. On a 32-bit platform its range is narrower, but `int64(int)` still keeps the value, so no contract changes.
- A panic is returned as an outcome (`InvalidArity`, `ZeroValueArgument`, `Err(BadPair(at))`, `Err(TypeMismatch(...))`). Unwinding and `recover` are not modelled.
- `GoogObject.Create`: the panic records the position of the first ill-formed pair, not which runtime error fires there. The out-of-range index and the failed `.(string)` assertion are one outcome, as Go fixes no order between them.
- `GoogObject.ForEach`: the callback is opaque. Its effects, its return value (which the source discards) and the iteration order (randomised by Go) are not modelled. The model returns the trace of `(key, value)` calls, and the third argument is always the map itself.

## Findings

| source | as written | input that shows it | evidently intended | confidence | as-written member | corrected member |
|---|---|---|---|---|---|---|
| main.go:29-34 | `reflect.ValueOf(x)` of a nil argument is the zero `reflect.Value`, and `Value.Call` panics on it ("reflect: Call using zero Value argument") | `Bar(nil, nil, nil)` or `Bar_ApplyTo([]interface{}{nil, nil, nil})` | the reflective call behaves like the direct call `Bar_2_VA(nil, nil, nil)` and returns "Bar_2_VA" | not executed; the panic comes from Go's reflect package, which is not part of this model | `Dispatch.BarApplyToAsWritten`, `Dispatch.ReflectionRejectsNil` | `Dispatch.BarApplyTo`, `Dispatch.ReflectionAgreesWithoutNil` |
