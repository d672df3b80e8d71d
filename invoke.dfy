/**
 * The invocation pipeline: the operation check, the scope check, decoding of
 * the configuration, the render context, rendering, and the assembly of the
 * component result, for both the JSON entry point and the CBOR one.
 */
module Invoke {
  import opened Wrappers
  import opened Json
  import opened Text
  import opened Config
  import opened Normalize
  import opened Shaping
  import opened Errors

  /**
   * The channel message envelope, as far as the component looks into it: the
   * tenant and environment identifiers, the session identifier, and the rest of
   * the message, which is only passed on to the template.
   */
  datatype Envelope = Envelope(tenant: string, env: string, sessionId: string, rest: Value)

  /** One invocation: the configuration, the message, the payload and the connection names. */
  datatype Invocation = Invocation(config: Value, msg: Envelope, payload: Value, connections: seq<string>)

  datatype ComponentResult = ComponentResult(
    payload: Value,
    stateUpdates: Value,
    control: Option<Value>,
    error: Option<ComponentError>)

  /** What the CBOR entry point hands back: the encoded result and the new state. */
  datatype RunOutput = RunOutput(result: ComponentResult, newState: Value)

  /**
   * The code the component calls but does not define:
   * `render` is the Handlebars engine with strict mode off, applied to a
   * template text and a context; `envelopeToValue` and `toJsonText` are
   * serde_json's `to_value` and `to_string` (`None` when they fail);
   * `parseInvocation` and `decodeInvocation` read an invocation from JSON text
   * and from CBOR bytes, giving the decoder's message on failure.
   */
  datatype Host = Host(
    render: (string, Value) -> Result<string, RenderError>,
    envelopeToValue: Envelope -> Option<Value>,
    toJsonText: Value -> Option<string>,
    parseInvocation: string -> Result<Invocation, string>,
    decodeInvocation: seq<bv8> -> Result<Invocation, string>)

  /** The one operation the component offers. */
  const SupportedOperation: string := "text"

  const MissingScopeMessage: string := "missing scope identifiers (tenant/env/session)"

  /** `ensure_scope`: refuses a message that lacks its tenant, environment or session. */
  function EnsureScope(msg: Envelope): (r: Result<(), InvokeFailure>)
    ensures r.Err? <==> msg.tenant == "" || msg.env == "" || msg.sessionId == ""
    ensures r.Err? ==> r.error == InvalidScope(MissingScopeMessage)
  {
    if msg.tenant == "" || msg.env == "" || msg.sessionId == "" then Err(InvalidScope(MissingScopeMessage))
    else Ok(())
  }

  /** The message as the template sees it: `null` when it cannot be converted. */
  function MsgValue(h: Host, msg: Envelope): Value
  {
    match h.envelopeToValue(msg)
    case Some(v) => v
    case None => Null
  }

  /** The payload's JSON text: empty when it cannot be written. */
  function PayloadJson(h: Host, payload: Value): string
  {
    match h.toJsonText(payload)
    case Some(text) => text
    case None => ""
  }

  /** The render context: the message, the payload, and the payload's JSON text. */
  function ContextOf(h: Host, inv: Invocation): Value
  {
    Object(map[
      "msg" := MsgValue(h, inv.msg),
      "payload" := inv.payload,
      "payload_json" := Str(PayloadJson(h, inv.payload))])
  }

  /** `build_context`: fills the context object entry by entry. */
  method BuildContext(h: Host, inv: Invocation) returns (context: Value)
    ensures context == ContextOf(h, inv)
  {
    var msgValue := MsgValue(h, inv.msg);
    var root: map<string, Value> := map[];
    root := root["msg" := msgValue];
    root := root["payload" := inv.payload];
    root := root["payload_json" := Str(PayloadJson(h, inv.payload))];
    context := Object(root);
  }

  /**
   * The context holds exactly the three documented names; every path into the
   * payload reads in the template as it reads in the payload itself, and
   * `payload_json` reads as the payload's JSON text.
   */
  lemma ContextExposesPayload(h: Host, inv: Invocation, path: seq<string>)
    ensures ContextOf(h, inv).fields.Keys == {"msg", "payload", "payload_json"}
    ensures Lookup(ContextOf(h, inv), ["payload"] + path) == Lookup(inv.payload, path)
    ensures Lookup(ContextOf(h, inv), ["payload_json"]) == Some(Str(PayloadJson(h, inv.payload)))
    ensures Lookup(ContextOf(h, inv), ["msg"]) == Some(MsgValue(h, inv.msg))
  {
  }

  /**
   * `render_template`: the engine receives the normalised template text, and
   * a failure of the engine becomes a template error.
   */
  function RenderTemplate(h: Host, cfg: TemplatesConfig, context: Value): (r: Result<string, TemplateError>)
    ensures r.Ok? <==> h.render(Normalized(cfg.text), context).Ok?
    ensures r.Ok? ==> r.value == h.render(Normalized(cfg.text), context).value
    ensures r.Err? ==> r.error == TemplateErrorOf(h.render(Normalized(cfg.text), context).error)
  {
    match h.render(Normalized(cfg.text), context)
    case Ok(rendered) => Ok(rendered)
    case Err(e) => Err(TemplateErrorOf(e))
  }

  /** The result for a rendering outcome. */
  function ResultOf(outcome: Result<string, TemplateError>, cfg: TemplatesConfig): ComponentResult
  {
    match outcome
    case Ok(rendered) => ComponentResult(BuildPayload(rendered, cfg), EmptyObject, BuildControl(cfg), None)
    case Err(err) => ComponentResult(Null, EmptyObject, None, Some(IntoComponentError(err)))
  }

  /**
   * `invoke_template_from_invocation`. The scope is checked before anything
   * else, then the configuration is decoded; past those two checks the
   * invocation succeeds, and a template that fails to render is reported
   * inside the result: no payload, no control, a `TemplateError`.
   */
  function InvokeFromInvocation(h: Host, inv: Invocation): (r: Result<ComponentResult, InvokeFailure>)
    ensures EnsureScope(inv.msg).Err? ==> r == Err(InvalidScope(MissingScopeMessage))
    ensures EnsureScope(inv.msg).Ok? && DecodeConfig(inv.config).Err?
      ==> r == Err(InvalidInput(DecodeConfig(inv.config).error))
    ensures r.Ok? <==> EnsureScope(inv.msg).Ok? && Accepted(inv.config)
    ensures r.Ok? ==> r.value.stateUpdates == EmptyObject
    ensures r.Ok? ==> (r.value.error.Some? <==> r.value.payload.Null?)
    ensures r.Ok? ==> (r.value.error.Some? <==> r.value.control.None?)
    ensures r.Ok? && r.value.error.Some? ==> r.value.error.value.kind == TemplateErrorKind
  {
    match EnsureScope(inv.msg)
    case Err(failure) => Err(failure)
    case Ok(_) =>
      match DecodeConfig(inv.config)
      case Err(message) => Err(InvalidInput(message))
      case Ok(cfg) =>
        var context := ContextOf(h, inv);
        Ok(ResultOf(RenderTemplate(h, cfg, context), cfg))
  }

  /**
   * What a rendered text turns into: the payload built from it under the
   * configuration, the routing control, and no error.
   */
  lemma RenderedResult(h: Host, inv: Invocation)
    requires EnsureScope(inv.msg).Ok? && DecodeConfig(inv.config).Ok?
    requires h.render(Normalized(DecodeConfig(inv.config).value.text), ContextOf(h, inv)).Ok?
    ensures var cfg := DecodeConfig(inv.config).value;
      var rendered := h.render(Normalized(cfg.text), ContextOf(h, inv)).value;
      && InvokeFromInvocation(h, inv).Ok?
      && InvokeFromInvocation(h, inv).value.payload == BuildPayload(rendered, cfg)
      && InvokeFromInvocation(h, inv).value.control == BuildControl(cfg)
      && InvokeFromInvocation(h, inv).value.error == None
  {
  }

  /**
   * What a render failure turns into: kind `TemplateError`, the engine's text
   * as the message, exactly `DetailsOf` as the details, and the engine's text
   * and position recoverable from them.
   */
  lemma RenderFailureResult(h: Host, inv: Invocation)
    requires EnsureScope(inv.msg).Ok? && DecodeConfig(inv.config).Ok?
    requires h.render(Normalized(DecodeConfig(inv.config).value.text), ContextOf(h, inv)).Err?
    ensures var e := h.render(Normalized(DecodeConfig(inv.config).value.text), ContextOf(h, inv)).error;
      && InvokeFromInvocation(h, inv).Ok?
      && InvokeFromInvocation(h, inv).value.payload == Null
      && InvokeFromInvocation(h, inv).value.error.Some?
      && InvokeFromInvocation(h, inv).value.error.value.kind == TemplateErrorKind
      && InvokeFromInvocation(h, inv).value.error.value.message == e.description
      && InvokeFromInvocation(h, inv).value.error.value.details == Some(Object(DetailsOf(e)))
      && RenderErrorOf(InvokeFromInvocation(h, inv).value.error.value) == Some(e)
  {
    var e := h.render(Normalized(DecodeConfig(inv.config).value.text), ContextOf(h, inv)).error;
    RenderFailureReported(e);
  }

  /** The message for an operation other than `text`; it names both. */
  function UnsupportedMessage(operation: string): (r: string)
    ensures Contains(r, operation) && Contains(r, SupportedOperation)
  {
    var before := "operation `";
    var middle := "` is not supported; use `";
    ContainsSurrounded(before, operation, middle + SupportedOperation + "`");
    assert before + operation + middle + SupportedOperation + "`"
      == before + operation + (middle + SupportedOperation + "`");
    ContainsSurrounded(before + operation + middle, SupportedOperation, "`");
    before + operation + middle + SupportedOperation + "`"
  }

  /**
   * `invoke_template` up to the final serialisation: the operation is checked
   * before the input is even read, then the input is parsed, then the
   * invocation runs.
   */
  function InvokeTemplate(h: Host, operation: string, input: string): (r: Result<ComponentResult, InvokeFailure>)
    ensures operation != SupportedOperation ==> r == Err(UnsupportedOperation(UnsupportedMessage(operation)))
    ensures operation == SupportedOperation && h.parseInvocation(input).Err?
      ==> r == Err(InvalidInput(h.parseInvocation(input).error))
    ensures operation == SupportedOperation && h.parseInvocation(input).Ok?
      ==> r == InvokeFromInvocation(h, h.parseInvocation(input).value)
  {
    if operation != SupportedOperation then Err(UnsupportedOperation(UnsupportedMessage(operation)))
    else
      match h.parseInvocation(input)
      case Err(message) => Err(InvalidInput(message))
      case Ok(inv) => InvokeFromInvocation(h, inv)
  }

  /**
   * The result reported in place of a refused invocation: no payload, no
   * state updates, no control, and an `InvalidInput` error carrying the
   * failure's display.
   */
  function RefusedResult(failure: InvokeFailure): (r: ComponentResult)
    ensures r.payload == Null && r.stateUpdates == EmptyObject && r.control == None
    ensures r.error == Some(ComponentError(InvalidInputKind, failure.message, None))
  {
    ComponentResult(Null, EmptyObject, None, Some(InvalidInputError(failure)))
  }

  /**
   * `run_component_cbor`: never fails. A refused invocation, whatever the
   * reason, is reported as `InvalidInput` with its display as the message, and
   * the state handed back is always empty, whatever state came in.
   */
  function RunComponentCbor(h: Host, input: seq<bv8>, state: seq<bv8>): (r: RunOutput)
    ensures r.newState == EmptyObject
    ensures r.result.stateUpdates == EmptyObject
    ensures r.result.error.Some? <==> r.result.payload.Null?
    ensures h.decodeInvocation(input).Err?
      ==> r.result == RefusedResult(InvalidInput(h.decodeInvocation(input).error))
    ensures h.decodeInvocation(input).Ok? && InvokeFromInvocation(h, h.decodeInvocation(input).value).Err?
      ==> r.result == RefusedResult(InvokeFromInvocation(h, h.decodeInvocation(input).value).error)
    ensures h.decodeInvocation(input).Ok? && InvokeFromInvocation(h, h.decodeInvocation(input).value).Ok?
      ==> r.result == InvokeFromInvocation(h, h.decodeInvocation(input).value).value
  {
    var result :=
      match h.decodeInvocation(input)
      case Err(message) => RefusedResult(InvalidInput(message))
      case Ok(inv) =>
        match InvokeFromInvocation(h, inv)
        case Ok(result) => result
        case Err(failure) => RefusedResult(failure);
    RunOutput(result, EmptyObject)
  }

  /** Over CBOR a missing scope is reported as invalid input, not as a scope error. */
  lemma ScopeFailureReportedAsInvalidInput(h: Host, input: seq<bv8>, state: seq<bv8>)
    requires h.decodeInvocation(input).Ok?
    requires EnsureScope(h.decodeInvocation(input).value.msg).Err?
    ensures RunComponentCbor(h, input, state).result
      == ComponentResult(Null, EmptyObject, None, Some(ComponentError(InvalidInputKind, MissingScopeMessage, None)))
  {
  }

  /** Nothing carries over between calls: the incoming state has no effect. */
  lemma StateIgnored(h: Host, input: seq<bv8>, state1: seq<bv8>, state2: seq<bv8>)
    ensures RunComponentCbor(h, input, state1) == RunComponentCbor(h, input, state2)
  {
  }

  /** A well-scoped message, as every example below uses. */
  predicate Scoped(inv: Invocation)
  {
    inv.msg.tenant != "" && inv.msg.env != "" && inv.msg.sessionId != ""
  }

  /**
   * The template `Hi` under `output_path` `reply.body` with `wrap` on yields
   * `{"reply": {"body": "Hi"}}`, routed to `out`.
   */
  lemma OutputPathExample(h: Host, inv: Invocation)
    requires Scoped(inv)
    requires inv.config == Object(map["templates" := Object(map[
      "text" := Str("Hi"), "output_path" := Str("reply.body"), "wrap" := Bool(true)])])
    requires h.render("Hi", ContextOf(h, inv)) == Ok("Hi")
    ensures InvokeFromInvocation(h, inv)
      == Ok(ComponentResult(
           Object(map["reply" := Object(map["body" := Str("Hi")])]),
           EmptyObject,
           Some(Object(map["routing" := Str(DefaultRouting)])),
           None))
  {
    var cfg := TemplatesConfig("Hi", Some("reply.body"), true, None);
    assert DecodeConfig(inv.config) == Ok(cfg);
    NormalizedWithoutBraces("Hi");
    ReplyBodyExample();
    assert BuildControl(cfg) == Some(Object(map["routing" := Str(DefaultRouting)]));
  }

  /** With `wrap` off the rendered text is the payload itself. */
  lemma UnwrappedExample(h: Host, inv: Invocation)
    requires Scoped(inv)
    requires inv.config == Object(map["templates" := Object(map["text" := Str("Hi"), "wrap" := Bool(false)])])
    requires h.render("Hi", ContextOf(h, inv)) == Ok("Hi")
    ensures InvokeFromInvocation(h, inv).Ok?
    ensures InvokeFromInvocation(h, inv).value.payload == Str("Hi")
  {
  }

  /** An operation other than `text` is refused whatever the input. */
  lemma UnsupportedOperationExample(h: Host, input: string)
    ensures InvokeTemplate(h, "handlebars", input).Err?
    ensures InvokeTemplate(h, "handlebars", input).error.UnsupportedOperation?
  {
  }
}
