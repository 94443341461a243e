/** The program's own registry: `METHODS`, the registry built from them at
    load time, and requests handled by it. */
module Program {
  import opened Values
  import opened MethodSpecs
  import opened Envelopes
  import opened Tables
  import opened Worlds
  import opened SoakSpec
  import opened Rpc
  import MathHandlers

  /** `METHODS`; each passes the checks of `new RpcMethodSpec`, which
      `Built` records. */
  const Methods: seq<Value> := [
    Spec(MethodSpec("utils.log", LogHandler, Noop)),
    Spec(MethodSpec("math.add", AddHandler, Noop)),
    Spec(MethodSpec("math.sum", SumHandler, Noop)),
    Spec(MethodSpec("rest.call", RestHandler, Noop)),
    Spec(MethodSpec("loadtest.soak", SoakHandler, RegistryHook))]

  /** The table `registerAll(METHODS)` fills in an empty registry. */
  const Table: map<string, MethodSpec> := map[
    "utils.log" := Methods[0].spec,
    "math.add" := Methods[1].spec,
    "math.sum" := Methods[2].spec,
    "rest.call" := Methods[3].spec,
    "loadtest.soak" := Methods[4].spec]

  /** Every entry of `METHODS` is what `new RpcMethodSpec` builds from its
      key, handler and hook (the default hook where none is given). */
  lemma Built()
    ensures forall k :: 0 <= k < |Methods| ==> Methods[k].Spec?
    ensures forall k :: 0 <= k < 4 ==>
              NewMethodSpec(Str(Methods[k].spec.key), Fn(Methods[k].spec.exec), Undefined) == Ok(Methods[k].spec)
    ensures NewMethodSpec(Str("loadtest.soak"), Fn(SoakHandler), Fn(RegistryHook)) == Ok(Methods[4].spec)
  {
  }

  lemma MethodsTable()
    ensures Registered(Methods) == [Methods[0].spec, Methods[1].spec, Methods[2].spec, Methods[3].spec, Methods[4].spec]
    ensures Install(map[], Registered(Methods)) == Table
  {
    var s0, s1, s2, s3, s4 := Methods[0].spec, Methods[1].spec, Methods[2].spec, Methods[3].spec, Methods[4].spec;
    RegisteredUpTo(Methods, 5);
    assert Specs(Methods, 1) == [s0];
    assert Specs(Methods, 2) == [s0, s1];
    assert Specs(Methods, 3) == [s0, s1, s2];
    assert Specs(Methods, 4) == [s0, s1, s2, s3];
    assert Specs(Methods, 5) == [s0, s1, s2, s3, s4];
    InstallStep(map[], [], s0);
    InstallStep(map[], [s0], s1);
    InstallStep(map[], [s0, s1], s2);
    InstallStep(map[], [s0, s1, s2], s3);
    InstallStep(map[], [s0, s1, s2, s3], s4);
  }

  lemma NoDefaultMethod()
    ensures "utils.error" !in Table
  {
  }

  /** `new RpcRegistry()` then `registerAll(METHODS)`: every spec is
      registered under its key, in order, and `utils.error` is not. */
  method Boot() returns (reg: Registry)
    ensures fresh(reg) && reg.Valid()
    ensures reg.methodSpecs == Table
    ensures reg.configured == [Methods[0].spec, Methods[1].spec, Methods[2].spec, Methods[3].spec, Methods[4].spec]
    ensures "utils.error" !in reg.methodSpecs
  {
    reg := new Registry();
    var r := reg.RegisterAll(List(Methods));
    MethodsTable();
    NoDefaultMethod();
  }

  /** `handle()` with no request: the default one names `utils.error`,
      which is not registered, so the envelope carries 30404 and id null. */
  method HandleDefault(world: World) returns (r: Outcome<Envelope>)
    modifies world`ticks, world`calls
    ensures r.Resolved? && r.value.id == Null
    ensures r.value.body == NotFound(Str("utils.error"))
  {
    var reg := Boot();
    ghost var handled, end, trace, settledAt;
    r, handled, end, trace, settledAt := reg.Handle(Undefined, world);
  }

  /** `handle({method: 'math.add', params: {a: 1, b: 2}, id})` resolves
      with `results == 3` and the request's id. */
  method HandleAdd(id: Value, world: World) returns (r: Outcome<Envelope>)
    modifies world`ticks, world`calls
    ensures r.Resolved? && r.value.id == id && r.value.body == Results(Num(3))
  {
    var reg := Boot();
    var params := Record(map["a" := Num(1), "b" := Num(2)]);
    var request := Record(map["method" := Str("math.add"), "params" := params, "id" := id]);
    MathHandlers.AddExample();
    ghost var handled, end, trace, settledAt;
    r, handled, end, trace, settledAt := reg.Handle(request, world);
  }

  /** `{ iterations: 10, concurrency: 3, sub: { method: 'math.add',
      params: { a: 100, b: 47 } } }` */
  const SoakAddParams: Value :=
    Record(map[
      "iterations" := Num(10),
      "concurrency" := Num(3),
      "sub" := Record(map["method" := Str("math.add"), "params" := Record(map["a" := Num(100), "b" := Num(47)])])])

  /** `math.add` is registered in `reg` with its own handler. */
  ghost predicate AddRegistered(reg: Registry)
    reads reg
  {
    Test(reg.Get(Str("math.add"))) && reg.Get(Str("math.add")).spec.exec == AddHandler
  }

  lemma SoakAddParts(reg: Registry)
    requires AddRegistered(reg)
    ensures !Nullish(Prop(SoakAddParams, "sub"))
    ensures Target(reg.methodSpecs, Prop(SoakAddParams, "sub")).Some?
    ensures Target(reg.methodSpecs, Prop(SoakAddParams, "sub")).value.exec == AddHandler
    ensures Iterations(SoakAddParams) == 10 && Concurrency(SoakAddParams) == 3
    ensures Direct(AddHandler, Prop(Prop(SoakAddParams, "sub"), "params")) == Some(Resolved(Num(147)))
  {
  }

  /** Whatever the clock and the outside world do, a soak of `math.add`
      with `iterations: 10, concurrency: 3` makes 12 invocations, all
      counted, and reports no error. */
  lemma SoakAddReport(params: Value, reg: Registry, o: Outcome<Value>, end: Option<SoakEnd>, trace: seq<Outcome<Value>>,
                      clock: nat -> int, external: (Func, Value, nat) -> Outcome<Value>, t0: nat, t1: nat, c0: nat)
    requires AddRegistered(reg) && params == SoakAddParams
    requires SoakContract(params, reg.methodSpecs, o, end, trace, clock, external, t0, t1, c0)
    ensures |trace| == 12 && end == Some(Done(12, 0))
    ensures o.Resolved? && o.value.Record?
    ensures Prop(o.value, "iterations") == Num(12) && Prop(o.value, "errorCount") == Num(0)
    ensures Prop(o.value, "errorRate") == Num(0)
  {
    SoakAddParts(reg);
    var subParams := Prop(Prop(SoakAddParams, "sub"), "params");
    assert forall k :: 0 <= k < |trace| ==> Answer(AddHandler, subParams, external, CallIndex(AddHandler, subParams, c0, k)) == Some(trace[k]);
    SoakOfResolved(trace, 10, 3, end.value);
    PlannedIsCeiling(10, 3);
    RunFacts(trace, 0, 10, 3, end.value);
  }

  /** `{method: 'loadtest.soak', params: SoakAddParams, id}` */
  function SoakRequest(id: Value): Value {
    Record(map["method" := Str("loadtest.soak"), "params" := SoakAddParams, "id" := id])
  }

  lemma SoakRequestParts(reg: Registry, id: Value)
    requires reg.methodSpecs == Table
    ensures AddRegistered(reg)
    ensures !Nullish(Request(SoakRequest(id)))
    ensures Test(reg.Get(Prop(Request(SoakRequest(id)), "method")))
    ensures reg.Get(Prop(Request(SoakRequest(id)), "method")).spec.exec == SoakHandler
    ensures Prop(Request(SoakRequest(id)), "params") == SoakAddParams
    ensures Prop(Request(SoakRequest(id)), "id") == id
  {
  }

  /** `handle({method: 'loadtest.soak', params: {iterations: 10,
      concurrency: 3, sub: {method: 'math.add', ...}}, id})` on the booted
      registry resolves with the request's id and a report of 12
      iterations and no error. */
  method SoakAdd(id: Value, world: World) returns (r: Outcome<Envelope>)
    modifies world`ticks, world`calls
    ensures r.Resolved? && r.value.id == id && r.value.body.Results?
    ensures var report := r.value.body.value;
            report.Record? && Prop(report, "iterations") == Num(12) && Prop(report, "errorCount") == Num(0)
            && Prop(report, "errorRate") == Num(0)
  {
    var reg := Boot();
    SoakRequestParts(reg, id);
    r := HandleSoak(reg, SoakRequest(id), id, world);
  }

  /** What `handle` promises for the soak request, read off for these
      parameters. */
  lemma SoakHandled(reg: Registry, request: Value, id: Value, r: Outcome<Envelope>, handled: Option<Outcome<Value>>,
                    end: Option<SoakEnd>, trace: seq<Outcome<Value>>, clock: nat -> int,
                    external: (Func, Value, nat) -> Outcome<Value>, t0: nat, t1: nat, c0: nat)
    requires AddRegistered(reg) && !Nullish(Request(request))
    requires Prop(Request(request), "params") == SoakAddParams && Prop(Request(request), "id") == id
    requires handled.Some? && (r.Resolved? <==> Settle(handled.value).Resolved?)
    requires r.Resolved? ==> r.value.body == Settle(handled.value).value
    requires r.Resolved? ==> r.value.id == Prop(Request(request), "id")
    requires SoakContract(Prop(Request(request), "params"), reg.methodSpecs, handled.value, end, trace, clock, external, t0, t1, c0)
    ensures r.Resolved? && r.value.id == id && r.value.body.Results?
    ensures var report := r.value.body.value;
            report.Record? && Prop(report, "iterations") == Num(12) && Prop(report, "errorCount") == Num(0)
            && Prop(report, "errorRate") == Num(0)
  {
    SoakAddReport(Prop(Request(request), "params"), reg, handled.value, end, trace, clock, external, t0, t1, c0);
  }

  /** A soak request with those parameters, handled by a registry that
      holds the soak and `math.add`. */
  method HandleSoak(reg: Registry, request: Value, id: Value, world: World) returns (r: Outcome<Envelope>)
    requires reg.Valid() && AddRegistered(reg) && !Nullish(Request(request))
    requires Test(reg.Get(Prop(Request(request), "method")))
    requires reg.Get(Prop(Request(request), "method")).spec.exec == SoakHandler
    requires Prop(Request(request), "params") == SoakAddParams && Prop(Request(request), "id") == id
    modifies world`ticks, world`calls
    ensures r.Resolved? && r.value.id == id && r.value.body.Results?
    ensures var report := r.value.body.value;
            report.Record? && Prop(report, "iterations") == Num(12) && Prop(report, "errorCount") == Num(0)
            && Prop(report, "errorRate") == Num(0)
  {
    ghost var handled, end, trace, settledAt;
    r, handled, end, trace, settledAt := reg.Handle(request, world);
    SoakHandled(reg, request, id, r, handled, end, trace, world.clock, world.external,
                old(world.ticks) + 1, settledAt, old(world.calls));
  }
}
