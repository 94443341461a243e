/** `RpcRegistry` and the handlers that need more than their parameters:
    `rest.call`, which goes through an HTTP client, and `loadtest.soak`,
    which looks its sub-method up in the registry and invokes it in
    batches. */
module Rpc {
  import opened Values
  import opened MethodSpecs
  import opened Envelopes
  import opened Tables
  import opened Worlds
  import opened SoakSpec
  import MathHandlers

  const RegisterMessage := "`methodSpec` MUST be an `RpcMethodSpec`"
  const RegisterAllMessage := "`methodSpecs` MUST be an array"

  /** Stands for the engine's message for the ReferenceError the soak's
      not-found branch raises: it names `method`, which is not declared
      there. */
  const UndeclaredMessage := "method is not defined"

  /** The outcome of the handlers that need neither the registry nor the
      world: `utils.log` and the two hooks return undefined, `math.add` and
      `math.sum` compute. None for the others. */
  function Direct(f: Func, params: Value): (r: Option<Outcome<Value>>)
    ensures r.Some? <==> !(f.RestHandler? || f.SoakHandler? || f.Foreign?)
    ensures f.AddHandler? ==> r == Some(MathHandlers.MathAdd(params))
    ensures f.SumHandler? ==> r == Some(MathHandlers.MathSum(params))
    ensures f.LogHandler? || f.Noop? || f.RegistryHook? ==> r == Some(Resolved(Undefined))
  {
    match f
    case AddHandler => Some(MathHandlers.MathAdd(params))
    case SumHandler => Some(MathHandlers.MathSum(params))
    case RestHandler => None
    case SoakHandler => None
    case Foreign(_) => None
    case _ => Some(Resolved(Undefined))
  }

  /** `{ status, data, headers }` picked from an HTTP response or error. */
  function Response(v: Value): (r: Value)
    requires !Nullish(v)
    ensures r.Record? && r.fields.Keys == {"status", "data", "headers"}
    ensures r.fields["status"] == Prop(v, "status") && r.fields["data"] == Prop(v, "data")
    ensures r.fields["headers"] == Prop(v, "headers")
  {
    Record(map["status" := Prop(v, "status"), "data" := Prop(v, "data"), "headers" := Prop(v, "headers")])
  }

  /** The `rest.call` handler once the HTTP client's call of `req` has
      ended with `sent`. A response and an error alike resolve to their
      status, data and headers. A response that is null or undefined makes
      the destructuring in the `try` throw a TypeError, which the `catch`
      picks apart instead, so the handler still resolves. It rejects only
      when the client fails with null or undefined, and it is async, so it
      never throws synchronously. */
  function RestCall(sent: Outcome<Value>): (o: Outcome<Value>)
    ensures !o.Threw?
    ensures o.Pending? <==> sent.Pending?
    ensures o.Rejected? <==> sent.Fails() && Nullish(sent.error)
    ensures sent.Resolved? && !Nullish(sent.value) ==> o == Resolved(Response(sent.value))
    ensures sent.Resolved? && Nullish(sent.value) ==>
              o == Resolved(Record(map["status" := Undefined, "data" := Undefined, "headers" := Undefined]))
    ensures sent.Fails() && !Nullish(sent.error) ==> o == Resolved(Response(sent.error))
  {
    match sent
    case Pending => Pending
    case Resolved(v) => Resolved(Response(if Nullish(v) then ErrorObject(DestructureMessage) else v))
    case Threw(e) => if Nullish(e) then Rejected(ErrorObject(DestructureMessage)) else Resolved(Response(e))
    case Rejected(e) => if Nullish(e) then Rejected(ErrorObject(DestructureMessage)) else Resolved(Response(e))
  }

  /** Whether calling `f` with `params` makes one call into code outside
      the core: a foreign handler does, and so does `rest.call` once its
      parameters destructure. */
  predicate CallsOut(f: Func, params: Value) {
    f.Foreign? || (f.RestHandler? && !Nullish(params))
  }

  /** The world's call counter after `k` invocations of `f` with `params`
      that started at `c0`, when `f` is not the soak handler. */
  function CallIndex(f: Func, params: Value, c0: nat, k: nat): nat {
    if CallsOut(f, params) then c0 + k else c0
  }

  /** The outcome of calling a handler other than the soak's when the
      world's answer to the call it makes (if any) is the `c`-th: pure
      handlers compute, foreign handlers are the world's answer, and
      `rest.call` settles on the HTTP client's answer for `params.req`
      (it rejects when `params` cannot be destructured). None for the
      soak handler, whose outcome depends on how many calls it makes. */
  function Answer(f: Func, params: Value, external: (Func, Value, nat) -> Outcome<Value>, c: nat): (r: Option<Outcome<Value>>)
    ensures r.None? <==> f.SoakHandler?
    ensures Direct(f, params).Some? ==> r == Direct(f, params)
    ensures f.RestHandler? ==> !r.value.Threw?
    ensures f.RestHandler? && Nullish(params) ==> r.value.Rejected?
    ensures f.Foreign? ==> r == Some(external(f, params, c))
    ensures f.RestHandler? && !Nullish(params) ==> r == Some(RestCall(external(RestHandler, Prop(params, "req"), c)))
  {
    match f
    case SoakHandler => None
    case Foreign(_) => Some(external(f, params, c))
    case RestHandler =>
      if Nullish(params) then Some(Rejected(ErrorObject(DestructureMessage)))
      else Some(RestCall(external(RestHandler, Prop(params, "req"), c)))
    case _ => Direct(f, params)
  }

  /** `t` holds, in order, the outcomes of invocations of `f` with `params`
      made from call counter `c0` on, when `f` is not the soak handler. */
  ghost predicate Answers(t: seq<Outcome<Value>>, f: Func, params: Value, external: (Func, Value, nat) -> Outcome<Value>, c0: nat) {
    !f.SoakHandler? ==>
      forall k {:trigger Answer(f, params, external, CallIndex(f, params, c0, k))} ::
        0 <= k < |t| ==> Answer(f, params, external, CallIndex(f, params, c0, k)) == Some(t[k])
  }

  /** `Answers`, with the world's call counter `calls` where the
      invocations in `t` left it. */
  ghost predicate Made(t: seq<Outcome<Value>>, f: Func, params: Value, external: (Func, Value, nat) -> Outcome<Value>,
                       c0: nat, calls: nat) {
    Answers(t, f, params, external, c0) && (!f.SoakHandler? ==> calls == CallIndex(f, params, c0, |t|))
  }

  /** One more invocation, answered by the world's `calls`-th answer. */
  lemma MadeSnoc(t: seq<Outcome<Value>>, o: Outcome<Value>, f: Func, params: Value,
                 external: (Func, Value, nat) -> Outcome<Value>, c0: nat, calls: nat, calls': nat)
    requires Made(t, f, params, external, c0, calls)
    requires !f.SoakHandler? ==> Some(o) == Answer(f, params, external, calls) && calls' == CallIndex(f, params, calls, 1)
    ensures Made(t + [o], f, params, external, c0, calls')
  {
  }

  /** How deeply soak parameters nest other soak parameters through
      `sub.params`; it bounds how deeply a soak can invoke soaks. */
  ghost function Nest(p: Value): nat {
    if !p.Record? then 0
    else if "sub" in p.fields && p.fields["sub"].Record? && "params" in p.fields["sub"].fields then
      1 + Nest(p.fields["sub"].fields["params"])
    else 1
  }

  lemma NestShrinks(params: Value)
    requires !Nullish(params) && !Nullish(Prop(params, "sub"))
    ensures Nest(Prop(Prop(params, "sub"), "params")) < Nest(params)
  {
  }

  /** `iterations` as the bound `i` is compared with: an absent one stops
      the loop before its first batch. */
  function Iterations(params: Value): (n: int)
    requires !Nullish(params)
    ensures Prop(params, "iterations").Num? ==> n == Prop(params, "iterations").n
    ensures Nullish(Prop(params, "iterations")) ==> n == 0
  {
    Bound(Prop(params, "iterations"))
  }

  /** `concurrency = 1` as the bound `j` is compared with. */
  function Concurrency(params: Value): (c: int)
    ensures !Nullish(params) && Prop(params, "concurrency").Undefined? ==> c == 1
  {
    if Nullish(params) then 0
    else
      var c := Prop(params, "concurrency");
      Bound(if c.Undefined? then Num(1) else c)
  }

  /** The spec a soak invokes: the one its `sub.method` names in a
      registry's table, looked up as `get` does. */
  function Target(table: map<string, MethodSpec>, sub: Value): (r: Option<MethodSpec>)
    requires !Nullish(sub)
    ensures r.Some? <==> Text(Prop(sub, "method")) in table
    ensures r.Some? ==> r.value == table[Text(Prop(sub, "method"))]
  {
    var key := Text(Prop(sub, "method"));
    if key in table then Some(table[key]) else None
  }

  /** What the `loadtest.soak` handler promises when called with `params`
      against a registry whose table is `table`: `o` is its outcome, `end` how its loop ended and
      `trace` the outcomes of the sub-invocations it made; the world's
      clock readings ran from `t0` to `t1` and its call counter started at
      `c0`.
      - `params` or `sub` null or undefined: the destructuring rejects.
      - no spec under `sub.method`: the not-found branch rejects with the
        ReferenceError its template literal raises.
      - otherwise the loop ends as `Run` says on `trace`, and `trace` holds
        the sub-method's answers, one per invocation; a loop that never
        ends leaves the handler pending, one that ends resolves with the
        report built from the first and last clock readings. */
  ghost predicate SoakContract(params: Value, table: map<string, MethodSpec>, o: Outcome<Value>, end: Option<SoakEnd>,
                               trace: seq<Outcome<Value>>, clock: nat -> int,
                               external: (Func, Value, nat) -> Outcome<Value>, t0: nat, t1: nat, c0: nat)
  {
    && !o.Threw?
    && t0 + 1 <= t1
    && (Nullish(params) || Nullish(Prop(params, "sub")) ==>
          o == Rejected(ErrorObject(DestructureMessage)) && end == None)
    && (!Nullish(params) && !Nullish(Prop(params, "sub")) && Target(table, Prop(params, "sub")).None? ==>
          o == Rejected(ErrorObject(UndeclaredMessage)) && end == None)
    && (!Nullish(params) && !Nullish(Prop(params, "sub")) && Target(table, Prop(params, "sub")).Some? ==>
          && end.Some?
          && Run(trace, 0, Iterations(params), Concurrency(params)) == end
          && Answers(trace, Target(table, Prop(params, "sub")).value.exec, Prop(Prop(params, "sub"), "params"), external, c0))
    && (end == Some(Hung) ==> o == Pending)
    && (end.Some? && end.value.Done? ==>
          t0 + 2 <= t1
          && o == Resolved(ReportValue(Summarise(end.value.iterations, clock(t0), clock(t1 - 1), end.value.errorCount))))
  }

  class Registry {
    var methodSpecs: map<string, MethodSpec>
    /** The specs whose `configure` hook has been called with this
        registry, in order. */
    ghost var configured: seq<MethodSpec>

    ghost predicate Valid()
      reads this
    {
      Keyed(methodSpecs)
    }

    constructor ()
      ensures methodSpecs == map[] && configured == [] && Valid()
    {
      methodSpecs := map[];
      configured := [];
    }

    /** `get(method)`: the spec stored under the property key
        `String(method)`, or undefined. */
    function Get(name: Value): (v: Value)
      reads this
      ensures Test(v) <==> Text(name) in methodSpecs
      ensures !Test(v) ==> v == Undefined
      ensures Valid() && Test(v) ==> v.spec.key == Text(name)
    {
      if Text(name) in methodSpecs then Spec(methodSpecs[Text(name)]) else Undefined
    }

    /** `register(methodSpec)`: refuses anything that is not a spec;
        otherwise stores it under its key, replacing any earlier entry,
        and calls its `configure` hook with the registry. */
    method Register(v: Value) returns (r: Result<(), string>)
      requires Valid()
      modifies this
      ensures Valid()
      ensures !Test(v) ==> r == Err(RegisterMessage) && methodSpecs == old(methodSpecs) && configured == old(configured)
      ensures Test(v) ==> r == Ok(()) && configured == old(configured) + [v.spec]
      ensures Test(v) ==> methodSpecs == old(methodSpecs)[v.spec.key := v.spec]
      ensures Test(v) ==> Get(Str(v.spec.key)) == v
    {
      if !Test(v) {
        return Err(RegisterMessage);
      }
      methodSpecs := methodSpecs[v.spec.key := v.spec];
      configured := configured + [v.spec];
      r := Ok(());
    }

    /** `registerAll(methodSpecs)`: refuses anything that is not an array;
        otherwise registers its items in order and stops, with the error
        of `register`, at the first item that is not a spec, keeping the
        items registered before it. */
    method RegisterAll(v: Value) returns (r: Result<(), string>)
      requires Valid()
      modifies this
      ensures Valid()
      ensures !v.List? ==> r == Err(RegisterAllMessage) && methodSpecs == old(methodSpecs) && configured == old(configured)
      ensures v.List? ==> methodSpecs == Install(old(methodSpecs), Registered(v.items))
      ensures v.List? ==> configured == old(configured) + Registered(v.items)
      ensures v.List? ==> (r.Ok? <==> forall k :: 0 <= k < |v.items| ==> v.items[k].Spec?)
      ensures v.List? && r.Err? ==> r.error == RegisterMessage
    {
      if !v.List? {
        return Err(RegisterAllMessage);
      }
      r := RegisterEach(v.items);
    }

    /** `forEach(register)` over `items`. */
    method RegisterEach(items: seq<Value>) returns (r: Result<(), string>)
      requires Valid()
      modifies this
      ensures Valid()
      ensures methodSpecs == Install(old(methodSpecs), Registered(items))
      ensures configured == old(configured) + Registered(items)
      ensures r.Ok? <==> forall k :: 0 <= k < |items| ==> items[k].Spec?
      ensures r.Err? ==> r.error == RegisterMessage
    {
      ghost var t0 := methodSpecs;
      ghost var c0 := configured;
      var j := 0;
      ghost var done: seq<MethodSpec> := [];
      while j < |items|
        invariant 0 <= j <= |items| && Valid()
        invariant forall k :: 0 <= k < j ==> items[k].Spec?
        invariant done == Specs(items, j)
        invariant methodSpecs == Install(t0, done) && configured == c0 + done
      {
        r := Register(items[j]);
        if r.Err? {
          RegisteredUpTo(items, j);
          return;
        }
        RegisterStep(t0, items, j);
        done := done + [items[j].spec];
        j := j + 1;
      }
      RegisteredUpTo(items, j);
      r := Ok(());
    }

    /** `handle(rpcRequest)`: reads the clock, looks the request's method
        up, invokes its handler with the request's params and settles on
        an envelope with the request's id, exactly one of `results` and
        `error`, and the metrics of the two clock readings. `handled` is
        the handler's outcome when one was invoked; `end` and `trace` are
        the soak's, when the handler is the soak's. */
    method Handle(request: Value, world: World)
        returns (r: Outcome<Envelope>, ghost handled: Option<Outcome<Value>>,
                 ghost end: Option<SoakEnd>, ghost trace: seq<Outcome<Value>>, ghost settledAt: nat)
      requires Valid()
      modifies world`ticks, world`calls
      ensures !r.Threw?
      ensures Nullish(Request(request)) ==> r == Rejected(ErrorObject(DestructureMessage)) && handled == None
      ensures !Nullish(Request(request)) && !Test(Get(Prop(Request(request), "method"))) ==>
                handled == None && r.Resolved? && r.value.body == NotFound(Prop(Request(request), "method"))
      ensures !Nullish(Request(request)) && Test(Get(Prop(Request(request), "method"))) ==>
                handled.Some? && (r.Resolved? <==> Settle(handled.value).Resolved?)
                && (r.Resolved? ==> r.value.body == Settle(handled.value).value)
                && (r.Rejected? <==> Settle(handled.value).Rejected?)
                && (r.Rejected? ==> r.error == Settle(handled.value).error)
      ensures r.Resolved? ==> r.value.id == Prop(Request(request), "id")
      ensures old(world.ticks) + 1 <= world.ticks
      ensures settledAt == (if r.Resolved? then world.ticks - 1 else world.ticks)
      ensures r.Resolved? ==>
                old(world.ticks) + 2 <= world.ticks
                && r.value.metrics.startTime == world.clock(old(world.ticks))
                && r.value.metrics.durationMs == world.clock(world.ticks - 1) - world.clock(old(world.ticks))
      ensures !Nullish(Request(request)) && Test(Get(Prop(Request(request), "method"))) ==>
                var exec := Get(Prop(Request(request), "method")).spec.exec;
                !exec.SoakHandler? ==>
                  handled == Answer(exec, Prop(Request(request), "params"), world.external, old(world.calls))
      ensures !Nullish(Request(request)) && Test(Get(Prop(Request(request), "method"))) ==>
                var exec := Get(Prop(Request(request), "method")).spec.exec;
                !exec.SoakHandler? ==>
                  world.calls == CallIndex(exec, Prop(Request(request), "params"), old(world.calls), 1)
                  && world.ticks == old(world.ticks) + (if r.Resolved? then 2 else 1)
      ensures Nullish(Request(request)) || !Test(Get(Prop(Request(request), "method"))) ==>
                world.calls == old(world.calls) && world.ticks == old(world.ticks) + (if r.Resolved? then 2 else 1)
      ensures !Nullish(Request(request)) && Test(Get(Prop(Request(request), "method"))) ==>
                var exec := Get(Prop(Request(request), "method")).spec.exec;
                exec.SoakHandler? ==>
                  SoakContract(Prop(Request(request), "params"), methodSpecs, handled.value, end, trace,
                               world.clock, world.external, old(world.ticks) + 1, settledAt, old(world.calls))
    {
      var startTime := world.Now();
      var req := Request(request);
      handled, end, trace, settledAt := None, None, [], world.ticks;
      if Nullish(req) {
        return Rejected(ErrorObject(DestructureMessage)), handled, end, trace, settledAt;
      }
      var name, params, id := Prop(req, "method"), Prop(req, "params"), Prop(req, "id");
      var spec := Get(name);
      var settled := Resolved(NotFound(name));
      if Test(spec) {
        var o;
        ghost var t0 := world.ticks;
        assert t0 == old(world.ticks) + 1;
        o, end, trace := Invoke(spec.spec.exec, params, this, world);
        handled := Some(o);
        settled := Settle(o);
      }
      settledAt := world.ticks;
      assert !Test(spec) || !spec.spec.exec.SoakHandler? ==> settledAt == old(world.ticks) + 1;
      match settled
      case Resolved(body) =>
        var endTime := world.Now();
        r := Resolved(Envelope(id, body, Metrics(startTime, endTime - startTime)));
      case Rejected(e) =>
        r := Rejected(e);
      case _ =>
        r := Pending;
    }
  }

  /** A handler `f` called with `params`: every handler but the soak's
      gives its `Answer` for the world's next call, and the soak's keeps
      its `SoakContract`, with `end` and `trace` as the soak's. */
  method Invoke(f: Func, params: Value, reg: Registry, world: World)
      returns (o: Outcome<Value>, ghost end: Option<SoakEnd>, ghost trace: seq<Outcome<Value>>)
    modifies world`ticks, world`calls
    ensures !f.SoakHandler? ==>
              Some(o) == Answer(f, params, world.external, old(world.calls))
              && world.ticks == old(world.ticks) && world.calls == CallIndex(f, params, old(world.calls), 1)
    ensures f.SoakHandler? ==>
              SoakContract(params, reg.methodSpecs, o, end, trace, world.clock, world.external,
                           old(world.ticks), world.ticks, old(world.calls))
    ensures old(world.ticks) <= world.ticks
    decreases Nest(params), 1
  {
    end, trace := None, [];
    match f
    case RestHandler =>
      if Nullish(params) {
        o := Rejected(ErrorObject(DestructureMessage));
      } else {
        var sent := world.Call(RestHandler, Prop(params, "req"));
        o := RestCall(sent);
      }
    case SoakHandler =>
      o, end, trace := RunSoak(params, reg, world);
    case Foreign(_) =>
      o := world.Call(f, params);
    case _ =>
      o := Direct(f, params).value;
  }

  /** The `loadtest.soak` handler, resolving its sub-method in `reg`.
      `end` is how its loop ended and `trace` the outcomes of the
      sub-invocations it made, when it got as far as the loop. */
  method RunSoak(params: Value, reg: Registry, world: World)
      returns (o: Outcome<Value>, ghost end: Option<SoakEnd>, ghost trace: seq<Outcome<Value>>)
    modifies world`ticks, world`calls
    ensures SoakContract(params, reg.methodSpecs, o, end, trace, world.clock, world.external,
                         old(world.ticks), world.ticks, old(world.calls))
    decreases Nest(params), 0
  {
    var startTime := world.Now();
    end, trace := None, [];
    if Nullish(params) || Nullish(Prop(params, "sub")) {
      o := Rejected(ErrorObject(DestructureMessage));
    } else {
      var sub := Prop(params, "sub");
      var target := Target(reg.methodSpecs, sub);
      if target.None? {
        o := Rejected(ErrorObject(UndeclaredMessage));
      } else {
        NestShrinks(params);
        var e;
        e, trace := RunBatches(target.value.exec, Prop(sub, "params"), Iterations(params), Concurrency(params), reg, world);
        end := Some(e);
        if e.Hung? {
          o := Pending;
        } else {
          ghost var t1 := world.ticks;
          var now := world.Now();
          assert world.ticks - 1 == t1 && now == world.clock(world.ticks - 1);
          assert startTime == world.clock(old(world.ticks)) && end.value == e;
          o := Resolved(ReportValue(Summarise(e.iterations, startTime, now, e.errorCount)));
        }
      }
    }
  }

  /** The soak's loop: while `i < N`, a batch of C invocations of `exec`
      with `subParams`, then the await of the whole batch. */
  method RunBatches(exec: Func, subParams: Value, N: int, C: int, reg: Registry, world: World)
      returns (end: SoakEnd, ghost trace: seq<Outcome<Value>>)
    modifies world`ticks, world`calls
    ensures Run(trace, 0, N, C) == Some(end)
    ensures Answers(trace, exec, subParams, world.external, old(world.calls))
    ensures old(world.ticks) <= world.ticks
    decreases Nest(subParams), 3
  {
    trace := [];
    if 0 < N && C < 1 {
      // `j < concurrency` never holds, so `i` never reaches N
      return Hung, trace;
    }
    ghost var c0 := world.calls;
    var i: nat := 0;
    ghost var b: nat := 0;
    while i < N
      invariant i == |trace|
      invariant Batches(trace, b, N, C) || (N <= 0 && i == 0 && b == 0)
      invariant Made(trace, exec, subParams, world.external, c0, world.calls)
      invariant old(world.ticks) <= world.ticks
      decreases N - i
    {
      var batch := IssueBatch(exec, subParams, C, reg, world, trace, c0);
      ghost var before := trace;
      trace := trace + batch;
      var last := |batch| - 1;
      if batch[last].Threw? {
        // the throw leaves the `for` before its `i++`
        BatchThrows(before, batch, b, N, C);
        return Done(i + last, 1), trace;
      }
      i := i + C;
      BatchAwaited(before, batch, b, N, C);
      match All(batch)
      case Rejects =>
        return Done(i, 1), trace;
      case Stalls =>
        return Hung, trace;
      case Fulfils =>
        b := b + 1;
    }
    if C >= 1 {
      BatchesDone(trace, b, N, C);
    }
    end := Done(i, 0);
  }

  /** The soak's `for` over one batch: up to C invocations, cut short by
      the first that throws synchronously, which is the batch's last. */
  method IssueBatch(exec: Func, subParams: Value, C: int, reg: Registry, world: World,
                    ghost before: seq<Outcome<Value>>, ghost c0: nat)
      returns (batch: seq<Outcome<Value>>)
    requires C >= 1
    requires Made(before, exec, subParams, world.external, c0, world.calls)
    modifies world`ticks, world`calls
    ensures 1 <= |batch| <= C
    ensures forall k :: 0 <= k < |batch| - 1 ==> !batch[k].Threw?
    ensures |batch| < C ==> batch[|batch| - 1].Threw?
    ensures Made(before + batch, exec, subParams, world.external, c0, world.calls)
    ensures old(world.ticks) <= world.ticks
    decreases Nest(subParams), 2
  {
    batch := [];
    var j := 0;
    while j < C
      invariant 0 <= j <= C && |batch| == j
      invariant forall k :: 0 <= k < j ==> !batch[k].Threw?
      invariant Made(before + batch, exec, subParams, world.external, c0, world.calls)
      invariant old(world.ticks) <= world.ticks
      decreases C - j
    {
      var o;
      ghost var calls, end, trace := world.calls, None, [];
      o, end, trace := Invoke(exec, subParams, reg, world);
      MadeSnoc(before + batch, o, exec, subParams, world.external, c0, calls, world.calls);
      assert before + batch + [o] == before + (batch + [o]);
      batch := batch + [o];
      if o.Threw? {
        return;
      }
      j := j + 1;
    }
  }
}
