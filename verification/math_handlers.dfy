/** The two pure handlers: `math.add` adds `params.a` and `params.b`;
    `math.sum` reduces its array argument with `+` from 0. Both run
    synchronously, so a failure is a synchronous throw. */
module MathHandlers {
  import opened Values
  import Envelopes

  /** Stands for the engine's message when `params.reduce` is not a
      function (params is null or not an array). */
  const NotReducibleMessage: string := "params.reduce is not a function"

  /** `({ a, b }) => a + b` */
  function MathAdd(params: Value): (o: Outcome<Value>)
    ensures o.Threw? <==> Nullish(params)
    ensures !o.Rejected? && !o.Pending?
    ensures !Nullish(params) && Prop(params, "a").Num? && Prop(params, "b").Num? ==>
              o == Resolved(Num(Prop(params, "a").n + Prop(params, "b").n))
    ensures !Nullish(params) && Prop(params, "a").Str? && Prop(params, "b").Str? ==>
              o == Resolved(Str(Prop(params, "a").s + Prop(params, "b").s))
  {
    if Nullish(params) then Threw(ErrorObject(Envelopes.DestructureMessage))
    else Resolved(Plus(Prop(params, "a"), Prop(params, "b")))
  }

  /** `(p, c) => p + c` folded over `xs` from `acc`, left to right. Once
      the accumulator is a string, every later element is appended to it. */
  function Reduce(acc: Value, xs: seq<Value>): (r: Value)
    ensures acc.Str? ==> r.Str? && acc.s <= r.s
    decreases |xs|
  {
    if xs == [] then acc else Reduce(Plus(acc, xs[0]), xs[1..])
  }

  /** `(params = []) => params.reduce((p, c) => p + c, 0)` */
  function MathSum(params: Value): (o: Outcome<Value>)
    ensures o.Threw? <==> !params.Undefined? && !params.List?
    ensures params.Undefined? ==> o == Resolved(Num(0))
    ensures params.List? ==> o.Resolved?
  {
    var list := if params.Undefined? then List([]) else params;
    if list.List? then Resolved(Reduce(Num(0), list.items))
    else Threw(ErrorObject(NotReducibleMessage))
  }

  /** The arithmetic sum of `ns`, the reference `math.sum` is checked
      against. */
  function Total(ns: seq<int>): int {
    if ns == [] then 0 else ns[0] + Total(ns[1..])
  }

  /** The integers `ns` as JavaScript numbers. */
  function Nums(ns: seq<int>): (vs: seq<Value>)
    ensures |vs| == |ns| && forall k :: 0 <= k < |ns| ==> vs[k] == Num(ns[k])
  {
    seq(|ns|, k requires 0 <= k < |ns| => Num(ns[k]))
  }

  /** Reducing integers from `acc` adds their total to `acc`. */
  lemma {:induction false} ReduceNums(acc: int, ns: seq<int>)
    ensures Reduce(Num(acc), Nums(ns)) == Num(acc + Total(ns))
    decreases |ns|
  {
    if ns != [] {
      assert Nums(ns)[1..] == Nums(ns[1..]);
      ReduceNums(acc + ns[0], ns[1..]);
    }
  }

  /** `math.sum` over an array of integers returns their sum. */
  lemma SumOfIntegers(ns: seq<int>)
    ensures MathSum(List(Nums(ns))) == Resolved(Num(Total(ns)))
  {
    ReduceNums(0, ns);
  }

  /** `math.add` with integer operands `{a: 1, b: 2}` returns 3. */
  lemma AddExample()
    ensures MathAdd(Record(map["a" := Num(1), "b" := Num(2)])) == Resolved(Num(3))
  {
  }
}
