# component-templates: the invocation pipeline, modelled in Dafny

This project models the greentic `templates` component. The component renders one
Handlebars template per invocation and wraps the text in a component result.
The model covers the pipeline in `src/lib.rs`. The steps follow the source's order:

1. The operation gate accepts only the operation `text`.
2. The scope guard needs a tenant, an environment and a session identifier.
3. The configuration is decoded: `text`, `output_path`, `wrap` (default true) and `routing`.
4. The render context is built with exactly `msg`, `payload` and `payload_json`.
5. The template is normalised: bare `payload` spellings become the `payload_json` alias.
6. The template is rendered.
7. The payload is shaped: either the bare text, or the text nested along a dotted output path.
8. The routing control is built.
9. A render error is folded into a `TemplateError`. At the CBOR entry point, every refused invocation (a CBOR decode failure, a missing scope or an undecodable configuration) is folded into an `InvalidInput` result; a render failure keeps its `TemplateError`.

The configuration merge used by setup answers is modelled as well.

Modules, one file each:
- `Wrappers`: `Option` and `Result`.
- `Json`: JSON values, with objects as maps.
- `Text`: Rust's `split`, `replace` and `trim`, defined and proved.
- `Config`: configuration decoding and the answers merge.
- `Shaping`: `nest_payload`, `build_payload` and `build_control`.
- `Normalize`: `normalize_template`.
- `Errors`: the failure and error types and the render-error folding.
- `Invoke`: the scope guard, the context, the orchestration and both entry points.

Several steps mutate local state in the source: the loops of `nest_payload` and `normalize_template`, and the map inserts of `build_context` and `from_render_error`. Each is a `method` that mirrors those steps. Each is proved equal to a specification function, and the rest of the model uses that function.

Code that the component calls but does not define is passed in as a `Host` value of functions:
- the Handlebars engine;
- serde_json's `to_value` and `to_string`;
- JSON parsing and CBOR decoding of an invocation.

## Model

| member | source | states |
|---|---|---|
| Config.DecodeConfig | src/lib.rs:109-123 | Decoding succeeds exactly on configurations with a `templates` object whose `text` is a string, whose `output_path` and `routing` are absent, null or strings, and whose `wrap` is absent or a boolean. An empty `text` is accepted, as serde's `String` accepts it. On success, `wrap` defaults to true and a null optional string reads as absent. A missing `templates` key is an error. |
| Config.DecodeEncode | src/lib.rs:109-123 | Every configuration is what decoding its JSON form gives back, so every configuration can be decoded. The source only derives `Deserialize`; the encoder `Config.EncodeConfig` is the model's own. |
| Config.WrapDefaultsToTrue | src/lib.rs:114-115 | A configuration without `wrap` decodes with `wrap` on and no path or routing. |
| Config.MergeAnswers | src/lib.rs:457-461 | The kept configuration is always an object. It is the answers when they decoded to an object, else the current configuration when that is an object, else `{}`. |
| Text.SplitJoin | src/lib.rs:612 | Joining the pieces of `split('.')` gives back the path, and no piece holds a dot. |
| Text.NoPiecesIffOnlySeparators | src/lib.rs:612 | After empty pieces are dropped, nothing is left exactly when the path consists of dots only (or is empty). |
| Text.ReplaceAllAbsent | src/lib.rs:630 | `replace` leaves a string without the pattern unchanged. |
| Text.ReplaceAllLeading | src/lib.rs:630 | `replace` rewrites a leading occurrence and resumes scanning right after it. |
| Text.ReplaceAllPlainPrefix | src/lib.rs:630 | `replace` copies text without the pattern's first character unchanged. |
| Text.TrimEmptyIffBlank | src/lib.rs:641 | `trim()` is empty exactly when every character is Unicode whitespace. |
| Shaping.NestPayload | src/lib.rs:610-618 | The loop over the reversed, non-empty segments builds the value that nests the text along the path's non-empty segments. |
| Shaping.NestReachesText | src/lib.rs:610-618 | Following the segments through the nested value leads to the rendered text. |
| Shaping.NestLevels | src/lib.rs:610-618 | Each level is an object whose one key is the next segment, and the innermost value is the text. |
| Shaping.OnlyDotsGiveBareText | src/lib.rs:610-618 | The text comes back bare exactly when the path consists of dots only (or is empty). |
| Shaping.ReplyBodyExample | src/lib.rs:610-618 | `reply.body` with `Hi` gives `{"reply":{"body":"Hi"}}`, and `.` gives the bare `"Hi"`. |
| Shaping.BuildPayload | src/lib.rs:596-608 | With `wrap` off the payload is the bare text. With `wrap` on, it is exactly the text nested along the non-empty segments of the output path, which defaults to `text`: `{"text": text}` when `output_path` is absent or empty. The text is then reachable along that path. |
| Shaping.BuildControl | src/lib.rs:636-644 | The control is always `{"routing": r}`. `r` is the configured routing, untrimmed, when it is not all whitespace, and `out` when it is absent or blank. |
| Normalize.NormalizeTemplate | src/lib.rs:620-634 | The loop over the table applies the four replacements in table order: `Normalized`. |
| Normalize.NormalizedWithoutSpellings | src/lib.rs:620-634 | A template with none of the four spellings is returned unchanged. |
| Normalize.NormalizedDoubleBrace | src/lib.rs:626 | `{{payload}}` becomes `{{payload_json}}`. |
| Normalize.NormalizedDoubleBraceSpaced | src/lib.rs:625 | `{{ payload }}` becomes `{{payload_json}}`. |
| Normalize.NormalizedTripleBrace | src/lib.rs:624 | `{{{payload}}}` becomes `{{{payload_json}}}`. |
| Normalize.NormalizedTripleBraceSpaced | src/lib.rs:623 | `{{{ payload }}}` becomes `{{{payload_json}}}`, and the later passes leave the alias alone. |
| Normalize.NormalizedLeavesPaths | src/lib.rs:620-634 | A path into the payload, `{{payload.text}}`, is left as it is. |
| Normalize.NormalizedPlainPrefix | src/lib.rs:620-634 | Text before the first `{` is never touched. |
| Normalize.NormalizedWithoutBraces | src/lib.rs:620-634 | A template without `{` reaches the engine unchanged. |
| Normalize.NormalizedInsideText | src/lib.rs:825-845 | `payload={{payload}}` after plain text becomes `payload={{payload_json}}`. |
| Errors.DetailsOf | src/lib.rs:668-681 | The details always hold `error` with the engine's text. They hold `line` and `column`, as numbers, exactly when the engine reports them, and no other key. |
| Errors.FromRenderError | src/lib.rs:668-681 | Inserting the entries one by one gives the template error whose message is the engine's text and whose details are `DetailsOf`. |
| Errors.IntoComponentError | src/lib.rs:683-689 | The component error has kind `TemplateError` and carries the message and details over. |
| Errors.RenderFailureReported | src/lib.rs:668-689 | A reported render failure has kind `TemplateError` and the engine's text as its message. The engine's text, line and column can all be read back from it. |
| Errors.InvalidInputError | src/lib.rs:485-505 | A refused invocation is reported with kind `InvalidInput`, its display as the message, and no details. |
| Invoke.EnsureScope | src/lib.rs:646-659 | Fails exactly when the tenant, environment or session id is empty, always with `InvalidScope("missing scope identifiers (tenant/env/session)")`. |
| Invoke.BuildContext | src/lib.rs:574-585 | The inserts build the context object of `msg`, `payload` and `payload_json`. |
| Invoke.ContextExposesPayload | src/lib.rs:574-585 | The context has exactly the keys `msg`, `payload` and `payload_json`. Every path into the payload reads through `payload` as in the payload itself. `payload_json` reads as the payload's JSON text, empty if that fails. `msg` is the serialised message, null if that fails. |
| Invoke.RenderTemplate | src/lib.rs:587-594 | The engine receives the normalised template. A render failure becomes the template error of the engine's error. |
| Invoke.InvokeFromInvocation | src/lib.rs:545-572 | A missing scope fails with `InvalidScope` before the configuration or the engine is consulted. A scoped invocation with an undecodable configuration fails with `InvalidInput`. Success happens exactly when both checks pass. A successful result always has `state_updates` `{}`. Its error is present exactly when its payload is null, and exactly when its control is absent. That error has kind `TemplateError`. |
| Invoke.RenderedResult | src/lib.rs:557-562 | A rendered text gives payload `build_payload`, control `build_control` and no error. |
| Invoke.RenderFailureResult | src/lib.rs:563-568 | A render failure gives a null payload and an error of kind `TemplateError` whose message is the engine's text and whose details are exactly `DetailsOf` of the engine error: `error`, plus `line` and `column` only when the engine reports them, and nothing else. The engine error is recovered from them. |
| Invoke.UnsupportedMessage | src/lib.rs:530-535 | The refusal message names both the requested operation and `text`. |
| Invoke.InvokeTemplate | src/lib.rs:529-543 | Any operation other than `text` fails with `UnsupportedOperation`, whatever the input. Otherwise unparsable input fails with `InvalidInput`, and parsed input runs the invocation. |
| Invoke.RefusedResult | src/lib.rs:485-505 | A refused invocation is reported with a null payload, `state_updates` `{}`, no control, and an `InvalidInput` error whose message is the failure's display. |
| Invoke.RunComponentCbor | src/lib.rs:481-508 | The new state is always `{}`, and so are the result's `state_updates`. A decode failure, or any refused invocation including a missing scope, becomes a result with a null payload, no control and an `InvalidInput` error whose message is the failure's display. Otherwise the result is the invocation's result, so a render failure keeps kind `TemplateError`. The error is present exactly when the payload is null. |
| Invoke.ScopeFailureReportedAsInvalidInput | src/lib.rs:481-508 | Over CBOR, a missing scope is reported as `InvalidInput` with the scope message, a null payload and no control. |
| Invoke.StateIgnored | src/lib.rs:481 | The incoming state has no effect on the output. |
| Invoke.OutputPathExample | src/lib.rs:780-793 | `Hi` with `output_path` `reply.body` and `wrap` on yields `{"reply":{"body":"Hi"}}`, routed to `out`, with no error, given the engine renders `Hi` as itself. |
| Invoke.UnwrappedExample | src/lib.rs:795-807 | `Hi` with `wrap` off yields the bare string `"Hi"`, given the engine renders `Hi` as itself. |
| Invoke.UnsupportedOperationExample | src/lib.rs:886-893 | The operation `handlebars` is refused with `UnsupportedOperation`. |

## Left out

- The WIT bindings and wasm exports (src/lib.rs:25-98) are host plumbing. The `run` export only forwards to `run_component_cbor`.
- The schema builders, `component_info`, `component_describe` and `describe_payload` (src/lib.rs:177-410, 510-526) are static data, not behaviour.
- The QA specification and the i18n key collection (src/lib.rs:412-479) are static questionnaire data. Only the merge choice of `apply_answers_cbor` is modelled. The merge ignores the QA mode, as the source does.
- The Handlebars engine is the abstract `Host.render`. Its non-strict resolution of missing paths and its HTML escaping belong to the library. The tests that rest on them are not restated: `missing_fields_render_empty` and the escaping checks of `debug_stringification_is_compact`. The normalisation that test depends on is restated.
- serde_json's `to_value` and `to_string`, JSON parsing of an invocation, and CBOR decoding are abstract `Host` functions. A failure of any of them is modelled as an absent value or an error message.
- `ChannelMessageEnvelope` is reduced to its tenant, environment and session identifiers plus an opaque remainder.
- Config.DecodeConfig: only the object form of the configuration is modelled. The sequence form that serde's derived decoder also accepts is left out. The error messages are worded by the model, except serde's `missing field` message. The order of the checks follows the key order of serde_json's map.
- Invoke.InvokeTemplate: returns the component result as a value. The final `serde_json::to_string` is left out.
- Invoke.RunComponentCbor: returns values. `encode_cbor` of the result and of the new state is left out. This includes the fields that `skip_serializing_if` omits.
- Floating-point JSON numbers are not modelled. Line and column numbers are unbounded naturals, not `usize`.
- The `_connections` field is carried in the invocation but never read, as in the source.
- The `different_scopes_do_not_leak` test needs no separate statement. Every result is a function of its own invocation and the host, and no state survives between calls (`Invoke.StateIgnored`).
- Text.ReplaceAll: requires a non-empty pattern. Rust's `replace` with an empty pattern is never used here, because all four patterns are non-empty.
- `tests/conformance.rs` is not part of this model. It calls a `handle_message` that `src/lib.rs` does not define, and it expects an older component world.
