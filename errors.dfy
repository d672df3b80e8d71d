/**
 * The component's failures: the `InvokeFailure` an invocation can end in,
 * and the template error built from a render error of the engine, which the
 * component reports inside its result as a `ComponentError`.
 */
module Errors {
  import opened Wrappers
  import opened Json

  /** Why an invocation was refused. Its display is the carried message alone. */
  datatype InvokeFailure =
    | InvalidInput(message: string)
    | InvalidScope(message: string)
    | UnsupportedOperation(message: string)

  /**
   * What the template engine reports when rendering fails: its display text
   * and, when known, the line and column of the offending template text.
   */
  datatype RenderError = RenderError(description: string, lineNo: Option<nat>, columnNo: Option<nat>)

  datatype TemplateError = TemplateError(message: string, details: Option<Value>)

  /** The error part of a component result. */
  datatype ComponentError = ComponentError(kind: string, message: string, details: Option<Value>)

  /** The kind under which render failures are reported. */
  const TemplateErrorKind: string := "TemplateError"

  /** The kind under which refused invocations are reported. */
  const InvalidInputKind: string := "InvalidInput"

  /**
   * The details of a render failure: the engine's text under `error`, and the
   * position under `line` and `column` when, and only when, the engine knows it.
   */
  function DetailsOf(e: RenderError): (r: map<string, Value>)
    ensures r.Keys <= {"error", "line", "column"}
    ensures "error" in r && r["error"] == Str(e.description)
    ensures "line" in r <==> e.lineNo.Some?
    ensures "line" in r ==> r["line"] == Num(e.lineNo.value)
    ensures "column" in r <==> e.columnNo.Some?
    ensures "column" in r ==> r["column"] == Num(e.columnNo.value)
  {
    map["error" := Str(e.description)]
    + (if e.lineNo.Some? then map["line" := Num(e.lineNo.value)] else map[])
    + (if e.columnNo.Some? then map["column" := Num(e.columnNo.value)] else map[])
  }

  /** The template error a render error becomes. */
  function TemplateErrorOf(e: RenderError): TemplateError
  {
    TemplateError(e.description, Some(Object(DetailsOf(e))))
  }

  /** `TemplateError::from_render_error`: fills the details map entry by entry. */
  method FromRenderError(e: RenderError) returns (t: TemplateError)
    ensures t == TemplateErrorOf(e)
  {
    var details: map<string, Value> := map[];
    details := details["error" := Str(e.description)];
    if e.lineNo.Some? {
      details := details["line" := Num(e.lineNo.value)];
    }
    if e.columnNo.Some? {
      details := details["column" := Num(e.columnNo.value)];
    }
    assert details == DetailsOf(e);
    t := TemplateError(e.description, Some(Object(details)));
  }

  /** Reads a position back out of the details; absent or not a number reads as unknown. */
  function PositionOf(details: map<string, Value>, key: string): Option<nat>
  {
    if key in details && details[key].Num? && details[key].n >= 0 then Some(details[key].n as nat)
    else None
  }

  /** Reads the render error back out of a reported component error. */
  function RenderErrorOf(c: ComponentError): Option<RenderError>
  {
    match c.details
    case Some(Object(d)) =>
      if "error" in d && d["error"].Str?
      then Some(RenderError(d["error"].s, PositionOf(d, "line"), PositionOf(d, "column")))
      else None
    case _ => None
  }

  /** `TemplateError::into_component_error` */
  function IntoComponentError(t: TemplateError): (r: ComponentError)
    ensures r.kind == TemplateErrorKind
    ensures r.message == t.message && r.details == t.details
  {
    ComponentError(TemplateErrorKind, t.message, t.details)
  }

  /**
   * A reported render failure loses nothing: its kind is `TemplateError`, its
   * message is the engine's text, and text, line and column can all be read
   * back from its details.
   */
  lemma RenderFailureReported(e: RenderError)
    ensures IntoComponentError(TemplateErrorOf(e)).kind == TemplateErrorKind
    ensures IntoComponentError(TemplateErrorOf(e)).message == e.description
    ensures RenderErrorOf(IntoComponentError(TemplateErrorOf(e))) == Some(e)
  {
  }

  /** The error reported for a refused invocation: its display, with no details. */
  function InvalidInputError(f: InvokeFailure): (r: ComponentError)
    ensures r.kind == InvalidInputKind && r.details == None
    ensures r.message == f.message
  {
    ComponentError(InvalidInputKind, f.message, None)
  }
}
