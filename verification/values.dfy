/** The JavaScript values the RPC core inspects, and the few JavaScript
    operations on them that the core relies on (property access, string
    conversion, the `+` operator, relational comparison with a counter). */
module Values {

  datatype Option<+T> = None | Some(value: T)

  datatype Result<+T, +E> = Ok(value: T) | Err(error: E)

  /** The functions the core defines, plus any function defined elsewhere. */
  datatype Func =
    | Noop            // NOOP, the default `configure` hook
    | LogHandler      // the `utils.log` handler
    | AddHandler      // the `math.add` handler
    | SumHandler      // the `math.sum` handler
    | RestHandler     // the `rest.call` handler (wraps an HTTP client)
    | SoakHandler     // the `loadtest.soak` handler
    | RegistryHook    // the `loadtest.soak` configure hook
    | Foreign(id: nat)

  /** An `RpcMethodSpec` instance; `exec` and `configure` are already bound. */
  datatype MethodSpec = MethodSpec(key: string, exec: Func, configure: Func)

  datatype Value =
    | Undefined
    | Null
    | Bool(b: bool)
    | Num(n: int)
      /** A number that is not an integer kept exactly as `num / den`;
          `den == 0` stands for NaN (`num == 0`) or an infinity. */
    | Rational(num: int, den: int)
    | Str(s: string)
    | List(items: seq<Value>)
    | Record(fields: map<string, Value>)
    | Fn(f: Func)
    | Spec(spec: MethodSpec)

  /** How a call ends as its caller sees it: a returned value (or a promise
      that resolves), a synchronous throw, a promise that rejects, or a
      promise that never settles. */
  datatype Outcome<+T> = Resolved(value: T) | Threw(error: Value) | Rejected(error: Value) | Pending
  {
    predicate Fails() { Threw? || Rejected? }
  }

  predicate Nullish(v: Value) { v.Undefined? || v.Null? }

  /** `v[name]` for a value that is not null or undefined (reading a
      property of those throws). */
  function Prop(v: Value, name: string): Value
    requires !Nullish(v)
  {
    match v
    case Record(fs) => if name in fs then fs[name] else Undefined
    case Spec(s) =>
      if name == "key" then Str(s.key)
      else if name == "exec" then Fn(s.exec)
      else if name == "configure" then Fn(s.configure)
      else Undefined
    case Str(s) => if name == "length" then Num(|s|) else Undefined
    case List(xs) => if name == "length" then Num(|xs|) else Undefined
    case _ => Undefined
  }

  /** An `Error` object whose `message` is `message`; it has no `code`
      and no `data`. */
  function ErrorObject(message: string): Value {
    Record(map["message" := Str(message)])
  }

  function Digit(d: nat): char
    requires d < 10
  {
    "0123456789"[d]
  }

  function NatText(n: nat): (r: string)
    ensures |r| >= 1 && forall k :: 0 <= k < |r| ==> '0' <= r[k] <= '9'
  {
    if n < 10 then [Digit(n)] else NatText(n / 10) + [Digit(n % 10)]
  }

  function IntText(n: int): string {
    if n < 0 then "-" + NatText(-n) else NatText(n)
  }

  /** `String(v)`, the conversion used by template literals, property keys
      and string concatenation. */
  function Text(v: Value): string {
    match v
    case Undefined => "undefined"
    case Null => "null"
    case Bool(b) => if b then "true" else "false"
    case Num(n) => IntText(n)
    case Rational(a, d) =>
      if d == 0 then (if a == 0 then "NaN" else if a > 0 then "Infinity" else "-Infinity")
      else IntText(a) + "/" + IntText(d)
    case Str(s) => s
    case List(xs) => Join(xs)
    case Record(_) => "[object Object]"
    case Spec(_) => "[object Object]"
    case Fn(_) => "function"
  }

  /** `Array.prototype.join` with ",": null and undefined elements print as "". */
  function Join(xs: seq<Value>): string {
    if xs == [] then ""
    else
      var head := if Nullish(xs[0]) then "" else Text(xs[0]);
      if |xs| == 1 then head else head + "," + Join(xs[1..])
  }

  /** The quotient `a / b` as a JavaScript number, for `b >= 0`: an
      integer exactly when `b` divides `a`, otherwise the exact fraction
      (an infinity or NaN when `b` is 0). */
  function Quotient(a: int, b: int): (r: Value)
    requires b >= 0
    ensures r.Num? || r.Rational?
    ensures r.Num? <==> b > 0 && a % b == 0
    ensures r.Num? ==> r.n * b == a
    ensures r.Rational? ==> r.num == a && r.den == b
  {
    if b == 0 then Rational(a, 0)
    else if a % b == 0 then Num(a / b)
    else Rational(a, b)
  }

  /** Values whose primitive form is a string: `+` concatenates if either
      operand is one of these. */
  predicate Stringy(v: Value) {
    v.Str? || v.List? || v.Record? || v.Fn? || v.Spec?
  }

  /** `Number(v)` as a pair `(num, den)` for a value that is not stringy. */
  function Numeric(v: Value): (int, int)
    requires !Stringy(v)
  {
    match v
    case Undefined => (0, 0)
    case Null => (0, 1)
    case Bool(b) => (if b then 1 else 0, 1)
    case Num(n) => (n, 1)
    case Rational(a, d) => (a, d)
  }

  function AddNumbers(x: (int, int), y: (int, int)): Value {
    var (a, b) := x;
    var (c, d) := y;
    if b != 0 && d != 0 then
      (if b * d == 1 then Num(a * d + c * b) else Rational(a * d + c * b, b * d))
    else if b != 0 then Rational(c, 0)
    else if d != 0 then Rational(a, 0)
    else if a != 0 && c != 0 && (a > 0) == (c > 0) then Rational(a, 0)
    else Rational(0, 0)
  }

  /** The JavaScript binary `+`. */
  function Plus(x: Value, y: Value): (r: Value)
    ensures x.Num? && y.Num? ==> r == Num(x.n + y.n)
    ensures x.Str? && y.Str? ==> r == Str(x.s + y.s)
  {
    if Stringy(x) || Stringy(y) then Str(Text(x) + Text(y))
    else AddNumbers(Numeric(x), Numeric(y))
  }

  /** The integer `m` such that, for every counter `i >= 0`, the comparison
      `i < v` holds exactly when `i < m`. NaN compares false, so it acts
      like 0. */
  function Bound(v: Value): (m: int)
    ensures v.Num? ==> m == v.n
    ensures Nullish(v) || v.Record? || v.Fn? || v.Spec? ==> m == 0
  {
    match v
    case Num(n) => n
    case Bool(b) => if b then 1 else 0
    case Rational(a, d) =>
      if d > 0 then (a + d - 1) / d
      else if d < 0 then (-a - d - 1) / -d
      else 0
    case _ => 0
  }

  lemma MulLe(x: int, y: int, d: int)
    requires x <= y && d >= 0
    ensures x * d <= y * d
  {
    assert y * d - x * d == (y - x) * d;
  }

  /** A fractional bound `a / d`: the counter `i` is below it exactly when
      `i < Bound(Rational(a, d))`, so the count of `for` iterations is the
      fraction rounded up. */
  lemma {:induction false} BoundRational(a: int, d: int, i: int)
    requires d > 0
    ensures i * d < a <==> i < Bound(Rational(a, d))
  {
    var m := Bound(Rational(a, d));
    var r := (a + d - 1) % d;
    assert a + d - 1 == m * d + r && 0 <= r < d;
    if i < m {
      MulLe(i, m - 1, d);
      assert (m - 1) * d == m * d - d;
    } else {
      MulLe(m, i, d);
    }
  }
}
