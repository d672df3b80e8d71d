/**
 * Response assembly on the success path: the payload shaper, which returns
 * the rendered text bare or nests it along a dotted output path, and the
 * routing control attached to every successful result.
 */
module Shaping {
  import opened Wrappers
  import opened Json
  import opened Text
  import opened Config

  /** The path used when `output_path` is absent or empty. */
  const DefaultOutputPath: string := "text"

  /** The rendered text nested under `keys`, the first key outermost. */
  function Nest(keys: seq<string>, rendered: string): Value
    decreases |keys|
  {
    if keys == [] then Str(rendered)
    else Object(map[keys[0] := Nest(keys[1..], rendered)])
  }

  /** The keys a dotted path names: its pieces between dots, empty ones dropped. */
  function PathKeys(path: string): seq<string>
  {
    NonEmptyPieces(Split(path, '.'))
  }

  /** What nesting along `path` produces. */
  function NestPath(path: string, rendered: string): Value
  {
    Nest(PathKeys(path), rendered)
  }

  /**
   * `nest_payload`: walks the pieces of the path from last to first, skipping
   * empty ones, and wraps the value built so far in a one-key object each step.
   */
  method NestPayload(path: string, rendered: string) returns (value: Value)
    ensures value == NestPath(path, rendered)
  {
    var pieces := Split(path, '.');
    value := Str(rendered);
    var i := |pieces|;
    while i > 0
      invariant 0 <= i <= |pieces|
      invariant value == Nest(NonEmptyPieces(pieces[i..]), rendered)
    {
      i := i - 1;
      var piece := pieces[i];
      ghost var inner := NonEmptyPieces(pieces[i + 1..]);
      assert pieces[i..][1..] == pieces[i + 1..];
      assert NonEmptyPieces(pieces[i..]) == (if piece == "" then [] else [piece]) + inner;
      if piece != "" {
        assert ([piece] + inner)[1..] == inner;
        value := Object(map[piece := value]);
        assert value == Nest([piece] + inner, rendered);
      } else {
        assert [] + inner == inner;
      }
    }
    assert pieces[0..] == pieces;
  }

  /** Following the keys through the nested value leads to the rendered text. */
  lemma {:induction false} NestReachesText(keys: seq<string>, rendered: string)
    ensures Lookup(Nest(keys, rendered), keys) == Some(Str(rendered))
    decreases |keys|
  {
    if keys != [] {
      NestReachesText(keys[1..], rendered);
    }
  }

  /**
   * Each level of the nested value is an object with exactly one key, the
   * next key of the path, and the innermost value is the rendered text.
   */
  lemma {:induction false} NestLevels(keys: seq<string>, rendered: string, k: nat)
    requires k <= |keys|
    ensures Lookup(Nest(keys, rendered), keys[..k]) == Some(Nest(keys[k..], rendered))
    ensures k < |keys| ==>
              Nest(keys[k..], rendered).Object? && Nest(keys[k..], rendered).fields.Keys == {keys[k]}
    ensures k == |keys| ==> Nest(keys[k..], rendered) == Str(rendered)
    decreases k
  {
    if k > 0 {
      NestLevels(keys[1..], rendered, k - 1);
      assert keys[..k][1..] == keys[1..][..k - 1];
      assert keys[1..][k - 1..] == keys[k..];
    }
  }

  /** A path made only of dots (or empty) nests nothing: the text comes back bare. */
  lemma OnlyDotsGiveBareText(path: string, rendered: string)
    ensures NestPath(path, rendered) == Str(rendered)
        <==> forall i | 0 <= i < |path| :: path[i] == '.'
  {
    NoPiecesIffOnlySeparators(path, '.');
  }

  /** `"reply.body"` and `"Hi"` give `{"reply": {"body": "Hi"}}`; `"."` gives `"Hi"`. */
  lemma ReplyBodyExample()
    ensures NestPath("reply.body", "Hi") == Object(map["reply" := Object(map["body" := Str("Hi")])])
    ensures NestPath(".", "Hi") == Str("Hi")
  {
    assert "reply.body" == "reply" + ['.'] + "body";
    SplitAtFirst("reply", '.', "body");
    SplitWithoutSeparator("body", '.');
    var pieces := ["reply", "body"];
    assert NonEmptyPieces(pieces[1..]) == ["body"];
    assert "." == "" + ['.'] + "";
    SplitAtFirst("", '.', "");
  }

  /** The path the payload is nested along: `output_path` unless absent or empty. */
  function OutputPath(cfg: TemplatesConfig): string
  {
    if cfg.outputPath.Some? && cfg.outputPath.value != "" then cfg.outputPath.value
    else DefaultOutputPath
  }

  /**
   * `build_payload`: the rendered text bare when `wrap` is off, else nested
   * along the output path, which defaults to `"text"`.
   */
  function BuildPayload(rendered: string, cfg: TemplatesConfig): (r: Value)
    ensures !cfg.wrap ==> r == Str(rendered)
    ensures cfg.wrap && (cfg.outputPath == None || cfg.outputPath == Some(""))
      ==> r == Object(map["text" := Str(rendered)])
    ensures cfg.wrap ==> r == NestPath(OutputPath(cfg), rendered)
    ensures cfg.wrap ==> Lookup(r, PathKeys(OutputPath(cfg))) == Some(Str(rendered))
    ensures r.Str? || r.Object?
  {
    if !cfg.wrap then Str(rendered)
    else
      var path := OutputPath(cfg);
      NestReachesText(PathKeys(path), rendered);
      SplitWithoutSeparator(DefaultOutputPath, '.');
      NestPath(path, rendered)
  }

  /** The routing used when none is configured or the configured one is blank. */
  const DefaultRouting: string := "out"

  /**
   * `build_control`: always `{"routing": r}`, where `r` is the configured
   * routing, untrimmed, unless it is absent or all whitespace, and `"out"`
   * otherwise.
   */
  function BuildControl(cfg: TemplatesConfig): (r: Option<Value>)
    ensures r.Some? && r.value.Object? && r.value.fields.Keys == {"routing"}
    ensures cfg.routing.Some? && !IsBlank(cfg.routing.value)
      ==> r.value.fields["routing"] == Str(cfg.routing.value)
    ensures cfg.routing.None? || IsBlank(cfg.routing.value)
      ==> r.value.fields["routing"] == Str(DefaultRouting)
  {
    var routing :=
      if cfg.routing.Some? && Trim(cfg.routing.value) != "" then cfg.routing.value
      else DefaultRouting;
    TrimEmptyIffBlank(if cfg.routing.Some? then cfg.routing.value else "");
    Some(Object(map["routing" := Str(routing)]))
  }
}
