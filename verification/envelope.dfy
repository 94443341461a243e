/** The response envelope `handle` returns, and how a handler's outcome is
    turned into its `results` or its normalised `error`. */
module Envelopes {
  import opened Values

  /** Exactly one of `results` and `error`. */
  datatype Body = Results(value: Value) | Error(code: Value, message: Value, data: Value)

  datatype Metrics = Metrics(startTime: int, durationMs: int)

  datatype Envelope = Envelope(id: Value, body: Body, metrics: Metrics)

  const NotFoundCode: int := 30404
  const DefaultCode: int := 500
  const UnknownMessage: string := "Unknown error"

  /** Stands for the engine's message when an object pattern is matched
      against null or undefined. */
  const DestructureMessage: string := "Cannot destructure null or undefined"

  /** `DEFAULT_RPC_REQUEST`: it names `utils.error`, which is never
      registered. */
  const DefaultRequest: Value :=
    Record(map[
      "method" := Str("utils.error"),
      "params" := Record(map["code" := Num(30400), "message" := Str("missing")]),
      "id" := Null])

  /** The request `handle` works on: its argument, or the default one when
      the argument is undefined. */
  function Request(request: Value): (r: Value)
    ensures request.Undefined? ==> !Nullish(r) && Prop(r, "method") == Str("utils.error") && Prop(r, "id") == Null
    ensures !request.Undefined? ==> r == request
  {
    if request.Undefined? then DefaultRequest else request
  }

  /** The error `decorateRpcError` attaches when no spec is registered
      under `method`. */
  function NotFound(name: Value): (b: Body)
    ensures b.Error? && b.code == Num(NotFoundCode) && b.data == Undefined
    ensures b.message == Str("Method \"" + Text(name) + "\" not found")
  {
    Error(Num(NotFoundCode), Str("Method \"" + Text(name) + "\" not found"), Undefined)
  }

  /** `const { code = 500, message = 'Unknown error', data } = err`, then
      `decorateRpcError`: None when `err` is null or undefined, because
      the pattern itself then throws. */
  function Normalise(err: Value): (r: Option<Body>)
    ensures r.None? <==> Nullish(err)
    ensures r.Some? ==> r.value.Error? && r.value.data == Prop(err, "data")
    ensures r.Some? && Prop(err, "code").Undefined? ==> r.value.code == Num(DefaultCode)
    ensures r.Some? && !Prop(err, "code").Undefined? ==> r.value.code == Prop(err, "code")
    ensures r.Some? && Prop(err, "message").Undefined? ==> r.value.message == Str(UnknownMessage)
    ensures r.Some? && !Prop(err, "message").Undefined? ==> r.value.message == Prop(err, "message")
  {
    if Nullish(err) then None
    else
      var code := Prop(err, "code");
      var message := Prop(err, "message");
      Some(Error(
        if code.Undefined? then Num(DefaultCode) else code,
        if message.Undefined? then Str(UnknownMessage) else message,
        Prop(err, "data")))
  }

  /** `try { res.results = await exec(params) } catch (err) { ... }`: the
      body `handle` settles on, a rejection when normalising itself throws,
      or Pending when the handler's promise never settles. */
  function Settle(o: Outcome<Value>): (r: Outcome<Body>)
    ensures !r.Threw?
    ensures r.Pending? <==> o.Pending?
    ensures r.Rejected? <==> o.Fails() && Nullish(o.error)
    ensures o.Resolved? ==> r == Resolved(Results(o.value))
    ensures o.Fails() && !Nullish(o.error) ==> r.Resolved? && r.value.Error? && Some(r.value) == Normalise(o.error)
  {
    match o
    case Resolved(v) => Resolved(Results(v))
    case Pending => Pending
    case _ =>
      match Normalise(o.error)
      case Some(b) => Resolved(b)
      case None => Rejected(ErrorObject(DestructureMessage))
  }

  /** A failure that carries neither `code` nor `message` is reported with
      the defaults, and its `data` is kept. */
  lemma BareFailure(err: Value, async: bool)
    requires !Nullish(err) && Prop(err, "code").Undefined? && Prop(err, "message").Undefined?
    ensures var o := if async then Rejected(err) else Threw(err);
            Settle(o) == Resolved(Error(Num(DefaultCode), Str(UnknownMessage), Prop(err, "data")))
  {
  }
}
