# A JSON-RPC method registry and its soak load-tester, modelled in Dafny

The system is a small JSON-RPC style dispatcher, `src/main.js`. An
`RpcMethodSpec` binds a string key to an `exec` handler and an optional
`configure` hook. An `RpcRegistry` stores specs under their keys.
`registerAll` and `register` fill the registry and call each spec's hook.
`handle(request)` looks the request's `method` up, awaits its handler on
`params`, and answers with an envelope. The envelope carries the request's
`id`, either `results` or a normalised `error` (`decorateRpcError`), and
`metrics` taken from two clock readings. The program registers five
methods: `utils.log`, `math.add`, `math.sum`, `rest.call` and
`loadtest.soak`. The last one invokes a sub-method in batches (of
`concurrency` rounded up) until `iterations` is reached. It stops at the first failing
batch and reports counters and rates.

The model is organised by module:

- `Values`: the JavaScript values the core looks at. This covers property
  access, `String(v)`, the binary `+`, and how a counter compares with a
  bound.
- `MethodSpecs`: the `RpcMethodSpec` constructor and `test`.
- `Envelopes`: the request default, the not-found error, and the
  normalisation of a caught error.
- `MathHandlers`: `math.add` and `math.sum`, with `math.sum` checked
  against an arithmetic sum.
- `Tables`: what a sequence of `register` calls leaves in the table, and
  which specs `registerAll` reaches.
- `SoakSpec`: `Run`, a specification function of the soak loop over the
  outcomes of its sub-invocations, with the loop's properties proved about
  it. Also the report with its `durationMs`, `ratePerSecond` and
  `errorRate`.
- `Worlds`: the clock and foreign code as oracles, with counters.
- `Rpc`: the `Registry` class (`register`, `registerAll`, `get`,
  `handle`), handler invocation, `rest.call`, and the soak handler. The
  soak handler's imperative loop is proved against `Run`.
- `Program`: `METHODS`, booting the registry, and a few concrete requests.

A handler ends in one of four ways. It resolves, it throws synchronously
(`Threw`), it returns a promise that rejects (`Rejected`), or it returns a
promise that never settles (`Pending`). The soak loop needs the difference
between a synchronous throw and a rejection: a throw leaves the `for`
before its `i++`, while a rejection is only seen at `await Promise.all`.
JavaScript numbers are modelled as integers, plus exact rationals for
quotients. `Rational(n, 0)` stands for NaN and the infinities.

The model follows what the code does, including these behaviours:

- `handle` can fail. `handle(null)` rejects, because destructuring null
  throws inside the async function. A handler that throws or rejects with
  `null` or `undefined` also makes `handle` reject, because the
  `const { code, ... } = err` pattern in the `catch` throws. A handler
  whose promise never settles leaves `handle` pending.
- The code never produces 30400. The default request names `utils.error`,
  which is never registered, so a missing request gets 30404 and id
  `null`.
- The soak's not-found branch evaluates a template literal that names
  `method`. No variable `method` is declared in that scope, so the branch
  raises a ReferenceError instead of producing a 30404 error. Through
  `handle` this surfaces as code 500 with that error's message.
- The soak handler can fail outward. It rejects when `params` or `sub` is
  null or undefined. It never settles when `concurrency` is not positive
  (0, negative, NaN, null or an object), so that `j < concurrency` never
  holds, while `iterations > 0`. It also never settles when a batch
  element never settles and no element of that batch fails.
- The soak counts in `i`. That is every invocation started in completed
  batches, plus those started before a synchronous throw. A batch holds
  C invocations, where C is the least integer `j` with `j < concurrency`
  false (`Values.Bound`): `concurrency: 2.5` gives batches of 3. With
  every sub-invocation succeeding the counter overshoots `iterations` to
  the next multiple of C. With `i == 0`, `errorRate` is
  `errorCount / 0`: NaN or Infinity.

## Model

| member | source | states |
|---|---|---|
| Values.Plus | src/main.js:125 | Two numbers add; two strings concatenate |
| Values.Bound | src/main.js:95-97 | For a number bound, the counter comparison `i < v` compares with that number; null, undefined, objects and functions act as 0 |
| Values.BoundRational | src/main.js:95-97 | For a fractional bound `a / d`, the counter comparison `i < a / d` holds exactly when `i` is below `Bound`, the fraction rounded up |
| Values.Quotient | src/main.js:106-107 | A JavaScript division `a / b` with `b >= 0` is always a number: an integer `q` with `q * b == a` exactly when `b > 0` divides `a`, otherwise the exact fraction `a / b`; division by zero gives NaN or an infinity |
| MethodSpecs.NewMethodSpec | src/main.js:7-21 | Construction succeeds iff key is a string, exec a function, and configure a function or undefined (undefined defaults to NOOP). The first bad argument in the order key, exec, configure names the thrown message |
| MethodSpecs.ConstructedSpecs | src/main.js:7-24 | Every spec is what the constructor builds from its own parts, and what the constructor builds passes `test` |
| MethodSpecs.TestAcceptsConstructed | src/main.js:22-24 | `test` accepts a value exactly when it is a spec, that is, exactly what the constructor builds from a key, an exec and a configure hook |
| Envelopes.Request | src/main.js:27-31 | An undefined request is replaced by the default one, which names `utils.error` with id null; any other request is kept |
| Envelopes.NotFound | src/main.js:33-34 | The not-found error has code 30404, message `Method "<method>" not found`, and no data |
| Envelopes.Normalise | src/main.js:71-72 | A caught error is normalised iff it is not null or undefined. The code defaults to 500 and the message to "Unknown error"; otherwise both are passed through, and data is always kept |
| Envelopes.Settle | src/main.js:68-73 | A resolved handler gives `results`; a failed one gives its normalised error, or a rejection when the error is nullish; never a synchronous throw; pending iff the handler is pending |
| Envelopes.BareFailure | src/main.js:71-72 | A failure with neither code nor message, thrown or rejected, becomes code 500, "Unknown error", with its data |
| MathHandlers.MathAdd | src/main.js:125 | Throws iff params is null or undefined, and never rejects. Integer operands give their sum; string operands give their concatenation |
| MathHandlers.MathSum | src/main.js:126-128 | Throws iff params is neither undefined nor an array; undefined defaults to the empty array, giving 0 |
| MathHandlers.Reduce | src/main.js:127 | The `+` fold keeps a string accumulator a string and only appends to it |
| MathHandlers.ReduceNums | src/main.js:127 | Folding `+` over integers from an integer accumulator adds their arithmetic total |
| MathHandlers.SumOfIntegers | src/main.js:126-128 | `math.sum` over an array of integers resolves with their arithmetic sum |
| MathHandlers.AddExample | src/main.js:125 | `math.add` on `{a: 1, b: 2}` resolves with 3 |
| Tables.InstallLastWins | src/main.js:45-52 | After a sequence of registrations, a shared key maps to the last spec with it; keys none of them has keep their earlier entry or stay absent |
| Tables.InstallKeys | src/main.js:51-52 | The table after a sequence of registrations has exactly the earlier keys plus the keys of the specs registered |
| Tables.InstallKeyed | src/main.js:52 | Registration keeps every table entry stored under its own key |
| Tables.AllSpecs | src/main.js:45 | When every item is a spec, the specs taken from the items are all of them, in order |
| Tables.FirstNonSpec | src/main.js:45-50 | The first item that is not a spec: every item before it is a spec |
| Tables.RegisteredUpTo | src/main.js:45-50 | `forEach(register)` stops at the first item that is not a spec, after registering exactly the items before it |
| Tables.InstallStep | src/main.js:52 | Registering one more spec updates the table at that spec's key |
| Tables.RegisterStep | src/main.js:45-52 | One more item that is a spec: the specs registered grow by it, and the table is updated at its key |
| Worlds.World.Now | src/main.js:61 | `Date.now()` reads the clock's next value |
| Worlds.World.Call | src/main.js:131 | A call into code outside the core returns the world's answer for that call |
| Rpc.Direct | src/main.js:124-128 | The handlers that need neither registry nor network: `math.add` and `math.sum` compute; `utils.log` and the hooks return undefined |
| Rpc.RestCall | src/main.js:129-138 | A response and an HTTP error both resolve with their status, data and headers. A response of null or undefined makes the destructuring throw inside the `try`, so the handler resolves with all three undefined. It rejects exactly when the client fails with null or undefined, is pending exactly when the client is, and never throws synchronously |
| Rpc.Response | src/main.js:132-136 | The object `rest.call` builds has exactly `status`, `data` and `headers`, each read from what it destructures |
| Rpc.Answer | src/main.js:124-139 | What a handler other than the soak's settles on: pure handlers compute, foreign code is the world's answer, `rest.call` settles on the client's answer and rejects when `params` cannot be destructured |
| Rpc.MadeSnoc | src/main.js:97-98 | Recording one more invocation keeps the outcomes in step with the sub-method's answers and the call counter |
| Rpc.Iterations | src/main.js:84 | `iterations` bounds the loop as its number; an absent one stops the loop before its first batch |
| Rpc.Concurrency | src/main.js:84 | An absent `concurrency` defaults to 1 |
| Rpc.Target | src/main.js:85-88 | The soak finds a spec iff the registry holds one under `sub.method` |
| Rpc.Registry.constructor | src/main.js:37-39 | A new registry has an empty table and no configured specs |
| Rpc.Registry.Get | src/main.js:56-58 | Returns a spec iff the table has the key `String(method)`, otherwise undefined; the spec found is stored under its own key |
| Rpc.Registry.Register | src/main.js:48-54 | A non-spec is refused and nothing changes. A spec is stored under its key, replacing any earlier entry, its hook is called, and `get` finds it |
| Rpc.Registry.RegisterAll | src/main.js:41-46 | A non-array is refused and nothing changes. An array's items are registered in order up to the first non-spec, which makes it fail with the `register` error; the table is the result of those registrations |
| Rpc.Registry.RegisterEach | src/main.js:45 | The `forEach` loop: the table and the configured hooks are exactly those of the specs before the first non-spec; it succeeds iff all items are specs |
| Rpc.Registry.Handle | src/main.js:60-78 | A null request rejects; an undefined one takes the default request. An unknown method gives the 30404 error. Otherwise the handler's outcome settles the envelope: results, normalised error, rejection or pending. That outcome is the handler's `Answer` for the world's next call, and for the soak handler it keeps `SoakContract`. The id is the request's, and the metrics are the two clock readings and their difference. For every handler but the soak's, the world's call counter moves by the one outside call the handler makes (if any), and the clock is read twice when the request resolves and once otherwise |
| Rpc.Invoke | src/main.js:124-139 | A handler call. Every handler but the soak's gives its `Answer` for the world's next call, makes one outside call exactly when it calls out, and reads no clock. The soak handler keeps `SoakContract` |
| Rpc.RunSoak | src/main.js:82-118 | Nullish params or sub reject. An unknown sub-method rejects with the ReferenceError. Otherwise the loop ends as `Run` says on the sub-method's answers to the calls it made, and the handler resolves with the report from its two clock readings, or stays pending when the loop never ends |
| Rpc.RunBatches | src/main.js:92-104 | The loop's end equals `Run` on the sequence of sub-invocations it made, and that sequence holds, in order, the sub-method's answers to the world's calls from the starting call counter on |
| Rpc.IssueBatch | src/main.js:96-99 | A batch has 1 to C invocations, C being the per-batch count `Values.Bound(concurrency)`, and is cut short exactly by a synchronous throw, which is its last element. Each element is the sub-method's answer to the next call, and the call counter advances with them |
| SoakSpec.AllFate | src/main.js:100 | `Promise.all` rejects iff some element fails, fulfils iff all resolve, and never settles iff none fails and some never settles |
| SoakSpec.FirstThrow | src/main.js:97-98 | The first synchronous throw in a range: every invocation before it returned |
| SoakSpec.PlannedFrom | src/main.js:95-99 | With no failure, the counter ends at or past both its start and `iterations`, and each batch started below `iterations` advances it by the per-batch count C |
| SoakSpec.Planned | src/main.js:95-99 | With no failure and `iterations > 0`, the counter reaches at least `iterations` |
| SoakSpec.PlannedIsCeiling | src/main.js:95-99 | With no failure and a positive per-batch count C, the counter ends at `ceil(N / C) * C` for the bound N of `iterations`, or at 0 when `N <= 0` |
| SoakSpec.All | src/main.js:100 | `Promise.all` fulfils only when every element resolves, and rejects only when some element fails |
| SoakSpec.Run | src/main.js:92-104 | The loop's reference definition over the outcomes of its sub-invocations; a loop that ends counts at most one error |
| SoakSpec.FirstBatchFails | src/main.js:95-104 | A batch with a synchronous throw or a rejection ends the loop with one error |
| SoakSpec.FailedBatchFails | src/main.js:102-104 | A run stopped by a failing batch holds a failed invocation |
| SoakSpec.FirstBatchPasses | src/main.js:95-101 | A batch that neither throws nor rejects either hands the run on to the next batch, or never settles |
| SoakSpec.RunFacts | src/main.js:92-104 | A finished loop's counter lies between its start and the planned count; `errorCount` is 0 or 1, and 0 only when every invocation resolved and the planned count was reached |
| SoakSpec.RunHangs | src/main.js:95-101 | The loop never ends only when no invocation failed and some never settles |
| SoakSpec.RunFailure | src/main.js:92-104 | A loop that counted an error stopped in a batch before which every invocation resolved |
| SoakSpec.RunOneBatch | src/main.js:95-101 | A complete, all-resolved batch started below `iterations` moves the loop to the next batch |
| SoakSpec.RunSkip | src/main.js:95-101 | Several complete, all-resolved batches carry the loop forward unchanged |
| SoakSpec.RunToBatch | src/main.js:95-101 | The loop reaches a batch boundary unchanged when everything before it resolved |
| SoakSpec.RunThrowsInBatch | src/main.js:97-98 | A synchronous throw inside a batch ends the loop with the counter at the throwing invocation and one error |
| SoakSpec.RunBatchEnds | src/main.js:100-104 | A complete batch that rejects ends the loop with one error; one that stalls never ends |
| SoakSpec.BatchThrows | src/main.js:97-103 | From the loop's state, a batch cut short by a throw ends the loop at that throw |
| SoakSpec.BatchAwaited | src/main.js:100-103 | From the loop's state, an awaited batch either adds a batch, or ends the loop with one error, or never ends |
| SoakSpec.BatchesDone | src/main.js:95 | Once the counter reaches `iterations`, the loop ends with no error |
| SoakSpec.RunResolved | src/main.js:95-101 | All invocations resolving, up to the planned count, end the loop there with no error |
| SoakSpec.SoakWithoutFailures | src/main.js:92-104 | A sub-method that always resolves gives exactly the planned number of invocations and no error |
| SoakSpec.SoakErrorCount | src/main.js:92-104 | `errorCount` is 0 or 1. It is 0 iff every invocation made resolved, and then the counter equals the planned count |
| SoakSpec.SoakStopsAtFailingBatch | src/main.js:94-104 | A counted error means that `iterations > 0` and the per-batch count C is at least 1 (so `concurrency: 0.5` can count an error), that no batch follows the failing one, and that the counter never exceeds the planned count |
| SoakSpec.SoakHangs | src/main.js:95-101 | The soak never ends only when the per-batch count C is not positive (`concurrency` 0, negative, NaN, null or an object) with `iterations > 0`, or some invocation never settles and none fails |
| SoakSpec.SoakOfResolved | src/main.js:92-104 | A sub-method whose every invocation resolves ends with the planned count and no error, or never ends when the per-batch count C is not positive |
| SoakSpec.SoakOfThrowing | src/main.js:97-103 | A sub-method that always throws synchronously is invoked once and reports 0 iterations and 1 error |
| SoakSpec.Summarise | src/main.js:105 | `durationMs` is the elapsed time when that is at least 1, and exactly 1 otherwise; the counters and start time are passed through |
| SoakSpec.ReportValue | src/main.js:106-115 | The report has exactly the six fields: the counters, the start time, `durationMs`, `ratePerSecond` as the quotient `iterations * 1000 / durationMs` and `errorRate` as `errorCount / iterations`. The rate is positive when something ran; the error rate is 0 with no error |
| Program.Built | src/main.js:123-140 | Every `METHODS` entry is what the constructor builds from its key, handler and hook |
| Program.MethodsTable | src/main.js:141-142 | `registerAll(METHODS)` registers all five specs in order, and the table maps each key to its spec |
| Program.NoDefaultMethod | src/main.js:27-31 | The default request's `utils.error` is not registered |
| Program.Boot | src/main.js:141-142 | The booted registry holds exactly the five methods, has called their hooks in order, and lacks `utils.error` |
| Program.HandleDefault | src/main.js:60-78 | `handle()` with no request resolves with id null and the 30404 error for `utils.error` |
| Program.HandleAdd | src/main.js:60-78 | `handle` of `math.add` on `{a: 1, b: 2}` resolves with results 3 and the request's id |
| Program.SoakAdd | src/main.js:60-118 | `handle` of a soak of `math.add` with `iterations: 10, concurrency: 3` on the booted registry resolves with the request's id and a report of 12 iterations, no error and error rate 0 |
| Program.SoakAddReport | src/main.js:82-118 | Whatever the clock and the outside world do, the soak of `math.add` with `iterations: 10, concurrency: 3` makes 12 invocations, all resolved, and reports 12 iterations, no error and error rate 0 |
| Program.SoakRequestParts | src/main.js:60-63 | The soak request names the registered soak handler, with the request's params and id |
| Program.SoakHandled | src/main.js:60-78 | What `handle` promises for that soak request gives an envelope with the request's id and that report |
| Program.HandleSoak | src/main.js:60-118 | `handle` of that soak request, on a registry holding the soak and `math.add`, resolves with the request's id and that report |

## Left out

- Floating point. Numbers are integers and exact rationals. Rates are
  exact quotients rather than IEEE doubles. `String(v)` of a fraction is
  not JavaScript's decimal text.
- Numeric strings, arrays and `Infinity` as soak bounds. `Values.Bound`
  treats such bounds like a string or object (as 0), and the infinities
  like NaN. JavaScript would convert them with `Number(...)`.
- Engine error texts. The TypeError and ReferenceError messages are fixed
  stand-in strings.
- Property lookup through the prototype chain. Keys such as `__proto__`
  or `toString` are not special in the table or in `get`, and
  user-defined `toString` on a key is not modelled.
- `bind`: no core handler reads the `this` that `bind` supplies; they are
  arrow functions, which ignore it.
- The soak's registry reference. The soak hook stores the registry on the
  module's `this`, and the handler reads it from there. The model resolves
  the sub-method in the registry that handles the request, which is the
  same object in this program.
- Configure hooks are assumed to return normally. A hook of foreign code,
  or a handler used as a hook, could throw after its spec is stored;
  `Register` records the call in `configured` only.
- Interleaving. Sub-invocations run to completion one after another, and
  concurrent requests are not modelled.
- Rejections of batch elements that nobody awaits, and an early-rejecting
  `Promise.all` that does not wait for pending elements, are not
  modelled beyond the batch's fate.
- `forEach` skipping holes in sparse arrays.
- Console output of `utils.log` and of the `test` helper. The `test`
  helper, the start-up demo and `nanoid` ids are not part of this model.
- The HTTP client (axios). Its answer to each call is an oracle of the
  world, and request building, timeouts and retries are not modelled.
- Values.Bound: records are plain data. An object bound is 0, while
  `i < iterations` would call its `valueOf` or `toString` when it has one.
- Values.Plus: records are plain data. `a + b` on an object with a
  `valueOf` or `toString` method would call it; the model uses
  "[object Object]".
- MathHandlers.MathSum: records are plain data. A `params` object with its
  own `reduce` method would have it called; the model throws as for any
  non-array.
- Values.Text: `String(f)` of a function is the stand-in text
  "function", not the function's source text. A function used as a method
  name therefore gives a different 30404 message and table key.
- Values.AddNumbers: sums of fractions are not reduced, so ½ + ½ is
  `Rational(4, 4)` rather than the number 1.
- Rpc.RunBatches: when the sub-method is itself the soak handler, the
  trace elements recorded for the nested soaks are not tied to what those
  soaks do. The loop's end is still `Run` over them.
- Rpc.IssueBatch: when the sub-method is itself the soak handler, the
  batch elements are not tied to the nested soaks' outcomes.
- Rpc.RunSoak: when the sub-method is itself the soak handler, its trace
  is not tied to the nested soaks' outcomes, only its end to `Run` over
  that trace.
- MethodSpecs.TestAcceptsConstructed: specs are values built by the
  validated constructor. `instanceof` would also accept an object made
  with `Object.create(RpcMethodSpec.prototype)`, or a spec whose `key`,
  `exec` or `configure` was reassigned after construction; neither can
  be expressed in the model.
- Wall-clock time. The clock is an oracle whose readings need not
  increase.
