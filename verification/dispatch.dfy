/**
  Arity dispatch of `Foo.Bar` and `Foo.Bar_ApplyTo` (main.go).

  Both entry points look only at the number of arguments: more than two go to the
  variadic handler `Bar_2_VA`, one to `Bar_1`, two to `Bar_2`, and anything else
  (only the empty list) panics with "Invalid arity: <n>". A handler call is
  recorded as a `Call` value holding the arguments it received; the reflective
  call of `Bar_2_VA` in `Bar_ApplyTo` is a direct call with the same arguments.
 */
module Dispatch {
  import opened Wrappers
  import opened Values

  /** The three handlers of `Foo`. */
  datatype Handler = Unary | Binary | Variadic

  /** A handler invocation together with the arguments it was given. */
  datatype Call =
    | Bar1(x: Value)
    | Bar2(x: Value, y: Value)
    | Bar2VA(x: Value, y: Value, rest: seq<Value>)
  {
    function Handler(): Handler
    {
      match this
      case Bar1(_) => Unary
      case Bar2(_, _) => Binary
      case Bar2VA(_, _, _) => Variadic
    }

    /** The arguments in call order: the fixed ones, then the variadic tail. */
    function Args(): (args: seq<Value>)
      ensures |args| >= 1
      ensures args[0] == x
      ensures Bar1? <==> |args| == 1
      ensures !Bar1? ==> args[1] == y
      ensures Bar2VA? ==> args[2..] == rest
    {
      match this
      case Bar1(x) => [x]
      case Bar2(x, y) => [x, y]
      case Bar2VA(x, y, rest) => [x, y] + rest
    }
  }

  /**
    What a call of `Bar` or `Bar_ApplyTo` ends in: a handler's result, the arity
    panic, or (only in the reflective call as written) the panic `reflect.Value.Call`
    raises for the zero `reflect.Value` that `reflect.ValueOf(nil)` yields.
   */
  datatype Outcome =
    | Returned(call: Call, result: Value)
    | InvalidArity(arity: nat)
    | ZeroValueArgument(index: nat)

  /** The result tag of each handler. */
  const TagBar1: string := "Bar_1"
  const TagBar2: string := "Bar_2"
  const TagBar2VA: string := "Bar_2_VA"

  /** `Foo.Bar_1`, `Foo.Bar_2` and `Foo.Bar_2_VA`: each returns its own name (the printing is left out). */
  function Invoke(c: Call): (r: Value)
    ensures r.GoString?
    ensures c.Bar1? <==> r.s == TagBar1
    ensures c.Bar2? <==> r.s == TagBar2
    ensures c.Bar2VA? <==> r.s == TagBar2VA
  {
    match c
    case Bar1(_) => GoString(TagBar1)
    case Bar2(_, _) => GoString(TagBar2)
    case Bar2VA(_, _, _) => GoString(TagBar2VA)
  }

  function Run(c: Call): Outcome
  {
    Returned(c, Invoke(c))
  }

  /**
    The routing table as a reference: which handler an arity selects, written
    independently of the order in which the source tests the cases.
   */
  function Route(n: nat): Option<Handler>
  {
    if n == 0 then None
    else if n == 1 then Some(Unary)
    else if n == 2 then Some(Binary)
    else Some(Variadic)
  }

  /** The dispatch contract both entry points meet. */
  ghost predicate Dispatches(xs: seq<Value>, r: Outcome)
  {
    && !r.ZeroValueArgument?
    && (r.InvalidArity? <==> Route(|xs|).None?)
    && (r.InvalidArity? ==> r.arity == |xs|)
    && (r.Returned? ==>
          && Route(|xs|) == Some(r.call.Handler())
          && r.call.Args() == xs
          && r.result == Invoke(r.call))
  }

  /** `Foo.Bar_ApplyTo`: dispatch on an argument slice; the variadic handler is reached by reflection. */
  function BarApplyTo(xs: seq<Value>): (r: Outcome)
    ensures Dispatches(xs, r)
  {
    var l := |xs|;
    if l > 2 then
      Run(Bar2VA(xs[0], xs[1], xs[2..]))
    else if l == 1 then
      Run(Bar1(xs[0]))
    else if l == 2 then
      Run(Bar2(xs[0], xs[1]))
    else
      InvalidArity(l)
  }

  /** `Foo.Bar`: the variadic entry point; more than two arguments are passed on to `Bar_ApplyTo`. */
  function Bar(xs: seq<Value>): (r: Outcome)
    ensures Dispatches(xs, r)
  {
    var l := |xs|;
    if l > 2 then
      BarApplyTo(xs)
    else if l == 1 then
      Run(Bar1(xs[0]))
    else if l == 2 then
      Run(Bar2(xs[0], xs[1]))
    else
      InvalidArity(l)
  }

  /** At most one outcome meets the dispatch contract: it fixes the handler, its arguments and the result. */
  lemma {:induction false} DispatchIsDeterministic(xs: seq<Value>, r1: Outcome, r2: Outcome)
    requires Dispatches(xs, r1) && Dispatches(xs, r2)
    ensures r1 == r2
  {
    if r1.Returned? {
      var c1, c2 := r1.call, r2.call;
      assert c1.Handler() == c2.Handler();
      assert c1.Args() == c2.Args() == xs;
      match c1
      case Bar1(_) =>
        assert c1.x == xs[0] == c2.x;
      case Bar2(_, _) =>
        assert c1.x == xs[0] == c2.x && c1.y == xs[1] == c2.y;
      case Bar2VA(_, _, _) =>
        assert c1.x == xs[0] == c2.x && c1.y == xs[1] == c2.y;
        assert c1.rest == xs[2..] == c2.rest;
    }
  }

  // ---------------------------------------------------------------------------
  // The reflective call of `Bar_2_VA`, as written
  // ---------------------------------------------------------------------------

  /** The position of the first nil argument, if any. */
  function FirstNil(xs: seq<Value>): (r: Option<nat>)
    ensures r.None? <==> forall i :: 0 <= i < |xs| ==> xs[i] != GoNil
    ensures r.Some? ==> r.value < |xs| && xs[r.value] == GoNil
    ensures r.Some? ==> forall i :: 0 <= i < r.value ==> xs[i] != GoNil
  {
    if xs == [] then None
    else if xs[0] == GoNil then Some(0)
    else
      match FirstNil(xs[1..])
      case None => None
      case Some(i) => Some(i + 1)
  }

  /**
    `v.MethodByName("Bar_2_VA").Call(vs)` with `vs[i] == reflect.ValueOf(xs[i])`:
    `Call` refuses a zero `reflect.Value`, which is what a nil argument becomes,
    before it calls the method.
   */
  function ReflectiveBar2VA(xs: seq<Value>): (r: Outcome)
    requires |xs| > 2
    ensures r.ZeroValueArgument? <==> GoNil in xs
    ensures r.ZeroValueArgument? ==> r.index < |xs| && xs[r.index] == GoNil
    ensures r.ZeroValueArgument? ==> forall i :: 0 <= i < r.index ==> xs[i] != GoNil
    ensures !r.ZeroValueArgument? ==> r == Run(Bar2VA(xs[0], xs[1], xs[2..]))
  {
    match FirstNil(xs)
    case Some(i) => ZeroValueArgument(i)
    case None => Run(Bar2VA(xs[0], xs[1], xs[2..]))
  }

  /** `Foo.Bar_ApplyTo` exactly as written, reflection included. */
  function BarApplyToAsWritten(xs: seq<Value>): (r: Outcome)
    ensures r.ZeroValueArgument? <==> |xs| > 2 && GoNil in xs
    ensures !r.ZeroValueArgument? ==> Dispatches(xs, r)
  {
    var l := |xs|;
    if l > 2 then
      ReflectiveBar2VA(xs)
    else if l == 1 then
      Run(Bar1(xs[0]))
    else if l == 2 then
      Run(Bar2(xs[0], xs[1]))
    else
      InvalidArity(l)
  }

  /** Without a nil argument the reflective call is the direct call the model uses. */
  lemma {:induction false} ReflectionAgreesWithoutNil(xs: seq<Value>)
    requires GoNil !in xs
    ensures BarApplyToAsWritten(xs) == BarApplyTo(xs)
  {
    DispatchIsDeterministic(xs, BarApplyToAsWritten(xs), BarApplyTo(xs));
  }

  /** `Bar(nil, nil, nil)`: the reflective call panics where the direct call returns "Bar_2_VA". */
  lemma ReflectionRejectsNil()
    ensures BarApplyToAsWritten([GoNil, GoNil, GoNil]) == ZeroValueArgument(0)
    ensures BarApplyTo([GoNil, GoNil, GoNil]).result == GoString(TagBar2VA)
  {
  }

  /** The two entry points give the same outcome on every argument list. */
  lemma EntryPointsAgree(xs: seq<Value>)
    ensures Bar(xs) == BarApplyTo(xs)
  {
    DispatchIsDeterministic(xs, Bar(xs), BarApplyTo(xs));
  }

  /** More than two arguments: `Bar_2_VA` gets the first two as fixed arguments and the rest, non-empty and in order, as its tail. */
  lemma VariadicSplit(xs: seq<Value>)
    requires |xs| > 2
    ensures Bar(xs) == Returned(Bar2VA(xs[0], xs[1], xs[2..]), GoString(TagBar2VA))
    ensures [xs[0], xs[1]] + xs[2..] == xs && |xs[2..]| >= 1
  {
  }

  /** One argument: `Bar_1` receives it and the result is "Bar_1", through either entry point. */
  lemma SingleArgument(x: Value)
    ensures Bar([x]) == BarApplyTo([x]) == Returned(Bar1(x), GoString(TagBar1))
  {
  }

  /** Two arguments: `Bar_2(xs[0], xs[1])` runs and the result is "Bar_2", through either entry point. */
  lemma TwoArguments(x: Value, y: Value)
    ensures Bar([x, y]) == BarApplyTo([x, y]) == Returned(Bar2(x, y), GoString(TagBar2))
  {
  }

  /** No argument: both entry points panic with arity 0 and no handler runs. */
  lemma NoArgument()
    ensures Bar([]) == BarApplyTo([]) == InvalidArity(0)
  {
  }

  /** The handler chosen and the result returned depend only on the length of the argument list. */
  lemma {:induction false} OnlyLengthMatters(xs: seq<Value>, ys: seq<Value>)
    requires |xs| == |ys|
    ensures Bar(xs).Returned? <==> Bar(ys).Returned?
    ensures Bar(xs).Returned? ==>
              Bar(xs).call.Handler() == Bar(ys).call.Handler() && Bar(xs).result == Bar(ys).result
    ensures Bar(xs).InvalidArity? ==> Bar(xs) == Bar(ys)
  {
    var rx, ry := Bar(xs), Bar(ys);
    if rx.Returned? {
      assert Some(rx.call.Handler()) == Route(|xs|) == Some(ry.call.Handler());
      HandlerResultIsConstant(rx.call, ry.call);
    }
  }

  /** A handler's result is a constant: it is the same for two calls exactly when they go to the same handler. */
  lemma {:induction false} HandlerResultIsConstant(c1: Call, c2: Call)
    ensures Invoke(c1) == Invoke(c2) <==> c1.Handler() == c2.Handler()
  {
    match c1
    case Bar1(_) =>
      assert Invoke(c1).s == TagBar1;
    case Bar2(_, _) =>
      assert Invoke(c1).s == TagBar2;
    case Bar2VA(_, _, _) =>
      assert Invoke(c1).s == TagBar2VA;
  }

  // ---------------------------------------------------------------------------
  // The panic message "Invalid arity: %d"
  // ---------------------------------------------------------------------------

  const ArityPrefix: string := "Invalid arity: "

  predicate IsDigits(s: string)
  {
    forall i :: 0 <= i < |s| ==> '0' <= s[i] <= '9'
  }

  function DigitChar(d: nat): (c: char)
    requires d < 10
    ensures '0' <= c <= '9' && c as int - '0' as int == d
  {
    ('0' as int + d) as char
  }

  /** `%d` of a non-negative integer: its decimal digits, without leading zeros. */
  function Decimal(n: nat): (s: string)
    ensures 1 <= |s| && IsDigits(s)
    ensures s[0] == '0' <==> n == 0
    ensures n < 10 <==> |s| == 1
  {
    if n < 10 then [DigitChar(n)] else Decimal(n / 10) + [DigitChar(n % 10)]
  }

  /** The number a string of decimal digits denotes. */
  function DecimalValue(s: string): nat
    requires IsDigits(s)
  {
    if s == [] then 0
    else DecimalValue(s[..|s| - 1]) * 10 + (s[|s| - 1] as int - '0' as int)
  }

  lemma {:induction false} DecimalRoundTrip(n: nat)
    ensures DecimalValue(Decimal(n)) == n
  {
    if n >= 10 {
      var s := Decimal(n);
      assert s[..|s| - 1] == Decimal(n / 10);
      DecimalRoundTrip(n / 10);
    }
  }

  /** The panic message, or None when the call returned. */
  function PanicMessage(o: Outcome): (m: Option<string>)
    ensures m.Some? <==> !o.Returned?
    ensures o.InvalidArity? ==> |m.value| > |ArityPrefix| && m.value[..|ArityPrefix|] == ArityPrefix
  {
    match o
    case Returned(_, _) => None
    case InvalidArity(n) => Some(ArityPrefix + Decimal(n))
    case ZeroValueArgument(_) => Some("reflect: Call using zero Value argument")
  }

  /** The panic message carries the attempted arity: it can be read back from the text. */
  lemma PanicMessageCarriesArity(xs: seq<Value>)
    requires Bar(xs).InvalidArity?
    ensures
      var m := PanicMessage(Bar(xs)).value;
      IsDigits(m[|ArityPrefix|..]) && DecimalValue(m[|ArityPrefix|..]) == |xs|
  {
    var m := PanicMessage(Bar(xs)).value;
    assert m[|ArityPrefix|..] == Decimal(|xs|);
    DecimalRoundTrip(|xs|);
  }

  /** The demo calls of `main`: `Bar()` panics with exactly "Invalid arity: 0". */
  lemma EmptyCallMessage()
    ensures PanicMessage(Bar([])) == Some("Invalid arity: 0")
  {
    assert DigitChar(0) == '0';
    assert Decimal(0) == "0";
    assert ArityPrefix + "0" == "Invalid arity: 0";
  }

  /** The demo calls of `main` and the tags they return. */
  lemma DemoCalls()
    ensures Bar([GoInt(8)]).result == GoString("Bar_1")
    ensures BarApplyTo([GoInt(4), GoInt(5), GoInt(6), GoInt(7)]).result == GoString("Bar_2_VA")
    ensures BarApplyTo([GoInt(4)]).result == GoString("Bar_1")
    ensures BarApplyTo([GoInt(8), GoInt(9)]).result == GoString("Bar_2")
    ensures Bar([GoInt(2), GoInt(3)]).result == GoString("Bar_2")
    ensures Bar([GoInt(2), GoInt(3), GoInt(4)]).call == Bar2VA(GoInt(2), GoInt(3), [GoInt(4)])
  {
  }
}
