/**
 * The template normaliser: before rendering, the bare spellings of the
 * `payload` placeholder are rewritten to the `payload_json` alias, which the
 * context binds to the payload's JSON text. The rewrite is plain substring
 * replacement over a fixed table, applied entry by entry in table order.
 */
module Normalize {
  import opened Text

  /** The rewrite table: triple-brace spellings first, then double-brace ones. */
  const Replacements: seq<(string, string)> := [
    ("{{{ payload }}}", "{{{payload_json}}}"),
    ("{{{payload}}}", "{{{payload_json}}}"),
    ("{{ payload }}", "{{payload_json}}"),
    ("{{payload}}", "{{payload_json}}")
  ]

  /** Every pattern of the table is non-empty. */
  predicate PatternsNonEmpty(table: seq<(string, string)>)
  {
    forall i | 0 <= i < |table| :: |table[i].0| > 0
  }

  /** Applies the replacements of `table` to `s`, first entry first. */
  function ApplyReplacements(s: string, table: seq<(string, string)>): string
    requires PatternsNonEmpty(table)
    decreases |table|
  {
    if table == [] then s
    else ApplyReplacements(ReplaceAll(s, table[0].0, table[0].1), table[1..])
  }

  /** The template text handed to the engine. */
  function Normalized(raw: string): string
  {
    ApplyReplacements(raw, Replacements)
  }

  /** `normalize_template`: one pass over the table, rewriting the text each step. */
  method NormalizeTemplate(raw: string) returns (normalized: string)
    ensures normalized == Normalized(raw)
  {
    normalized := raw;
    for i := 0 to |Replacements|
      invariant ApplyReplacements(normalized, Replacements[i..]) == Normalized(raw)
    {
      var (from, to) := Replacements[i];
      assert Replacements[i..][1..] == Replacements[i + 1..];
      normalized := ReplaceAll(normalized, from, to);
    }
  }

  /** A text in which no pattern of the table occurs passes through unchanged. */
  lemma {:induction false} ApplyAbsent(s: string, table: seq<(string, string)>)
    requires PatternsNonEmpty(table)
    requires forall i | 0 <= i < |table| :: !Contains(s, table[i].0)
    ensures ApplyReplacements(s, table) == s
    decreases |table|
  {
    if table != [] {
      ReplaceAllAbsent(s, table[0].0, table[0].1);
      ApplyAbsent(s, table[1..]);
    }
  }

  /** A template without any bare `payload` spelling is not touched. */
  lemma NormalizedWithoutSpellings(raw: string)
    requires !Contains(raw, "{{{ payload }}}") && !Contains(raw, "{{{payload}}}")
    requires !Contains(raw, "{{ payload }}") && !Contains(raw, "{{payload}}")
    ensures Normalized(raw) == raw
  {
    ApplyAbsent(raw, Replacements);
  }

  /** The table written out: four replacements, in order. */
  lemma NormalizedUnfold(raw: string)
    ensures Normalized(raw) == ReplaceAll(ReplaceAll(ReplaceAll(ReplaceAll(raw,
      "{{{ payload }}}", "{{{payload_json}}}"), "{{{payload}}}", "{{{payload_json}}}"),
      "{{ payload }}", "{{payload_json}}"), "{{payload}}", "{{payload_json}}")
  {
  }

  /** The four passes of the table, one intermediate text after each. */
  lemma NormalizedStages(raw: string, r1: string, r2: string, r3: string, out: string)
    requires ReplaceAll(raw, "{{{ payload }}}", "{{{payload_json}}}") == r1
    requires ReplaceAll(r1, "{{{payload}}}", "{{{payload_json}}}") == r2
    requires ReplaceAll(r2, "{{ payload }}", "{{payload_json}}") == r3
    requires ReplaceAll(r3, "{{payload}}", "{{payload_json}}") == out
    ensures Normalized(raw) == out
  {
  }

  // Single passes over fixed texts. Each is its own lemma: the solver
  // evaluates functions on literal arguments, and several such evaluations
  // in one proof multiply its cost. Each pass is shown to find nothing by a
  // `MismatchWitness`: entry i is the index into the pattern of a character
  // that differs from the text when the pattern is laid at offset i.

  /** The `{{payload}}` pass leaves `{{payload_json}}` alone. */
  lemma BarePassKeepsAlias()
    ensures ReplaceAll("{{payload_json}}", "{{payload}}", "{{payload_json}}") == "{{payload_json}}"
  {
    // Witness: offset 0: the pattern's `}` (index 9) meets `_`; offset 1: its second `{` meets `p`; offsets 2-5: its first `{` meets a letter.
    ReplaceAllMismatched("{{payload_json}}", "{{payload}}", "{{payload_json}}", [9, 1, 0, 0, 0, 0]);
  }

  /** The `{{{payload}}}` pass leaves `{{ payload }}` alone. */
  lemma TriplePassKeepsSpacedDouble()
    ensures ReplaceAll("{{ payload }}", "{{{payload}}}", "{{{payload_json}}}") == "{{ payload }}"
  {
    // Witness: offset 0: the pattern's third `{` (index 2) meets the space.
    ReplaceAllMismatched("{{ payload }}", "{{{payload}}}", "{{{payload_json}}}", [2]);
  }

  /** The `{{{payload}}}` pass leaves `{{{payload_json}}}` alone. */
  lemma TriplePassKeepsTripleAlias()
    ensures ReplaceAll("{{{payload_json}}}", "{{{payload}}}", "{{{payload_json}}}") == "{{{payload_json}}}"
  {
    // Witness: offset 0: the pattern's `}` (index 10) meets `_`; offset 1: its third `{` meets `p`; offset 2: its second `{` meets `p`; offsets 3-5: its first `{` meets a letter.
    ReplaceAllMismatched("{{{payload_json}}}", "{{{payload}}}", "{{{payload_json}}}", [10, 2, 1, 0, 0, 0]);
  }

  /** The `{{ payload }}` pass leaves `{{{payload_json}}}` alone. */
  lemma SpacedPassKeepsTripleAlias()
    ensures ReplaceAll("{{{payload_json}}}", "{{ payload }}", "{{payload_json}}") == "{{{payload_json}}}"
  {
    // Witness: every offset: the pattern's space (index 2) meets a `{` or a letter.
    ReplaceAllMismatched("{{{payload_json}}}", "{{ payload }}", "{{payload_json}}", [2, 2, 2, 2, 2, 2]);
  }

  /** The `{{payload}}` pass leaves `{{{payload_json}}}` alone. */
  lemma BarePassKeepsTripleAlias()
    ensures ReplaceAll("{{{payload_json}}}", "{{payload}}", "{{payload_json}}") == "{{{payload_json}}}"
  {
    // Witness: offset 0: the pattern's `p` (index 2) meets the third `{`; offset 1: its `}` (index 9) meets `_`; offset 2: its second `{` meets `p`; offsets 3-7: its first `{` meets a letter.
    ReplaceAllMismatched("{{{payload_json}}}", "{{payload}}", "{{payload_json}}", [2, 9, 1, 0, 0, 0, 0, 0]);
  }

  /** The `{{{ payload }}}` pass leaves `{{payload.text}}` alone. */
  lemma SpacedTriplePassKeepsPath()
    ensures ReplaceAll("{{payload.text}}", "{{{ payload }}}", "{{{payload_json}}}") == "{{payload.text}}"
  {
    // Witness: both offsets: the pattern's space (index 3) meets a letter.
    ReplaceAllMismatched("{{payload.text}}", "{{{ payload }}}", "{{{payload_json}}}", [3, 3]);
  }

  /** The `{{{payload}}}` pass leaves `{{payload.text}}` alone. */
  lemma TriplePassKeepsPath()
    ensures ReplaceAll("{{payload.text}}", "{{{payload}}}", "{{{payload_json}}}") == "{{payload.text}}"
  {
    // Witness: offset 0: the pattern's third `{` (index 2) meets `p`; offset 1: its second `{` meets `p`; offsets 2-3: its first `{` meets a letter.
    ReplaceAllMismatched("{{payload.text}}", "{{{payload}}}", "{{{payload_json}}}", [2, 1, 0, 0]);
  }

  /** The `{{ payload }}` pass leaves `{{payload.text}}` alone. */
  lemma SpacedPassKeepsPath()
    ensures ReplaceAll("{{payload.text}}", "{{ payload }}", "{{payload_json}}") == "{{payload.text}}"
  {
    // Witness: every offset: the pattern's space (index 2) meets a letter.
    ReplaceAllMismatched("{{payload.text}}", "{{ payload }}", "{{payload_json}}", [2, 2, 2, 2]);
  }

  /** The `{{payload}}` pass leaves `{{payload.text}}` alone. */
  lemma BarePassKeepsPath()
    ensures ReplaceAll("{{payload.text}}", "{{payload}}", "{{payload_json}}") == "{{payload.text}}"
  {
    // Witness: offset 0: the pattern's `}` (index 9) meets `.`; offset 1: its second `{` meets `p`; offsets 2-5: its first `{` meets a letter.
    ReplaceAllMismatched("{{payload.text}}", "{{payload}}", "{{payload_json}}", [9, 1, 0, 0, 0, 0]);
  }

  /** `{{payload}}` becomes `{{payload_json}}`. */
  lemma NormalizedDoubleBrace()
    ensures Normalized("{{payload}}") == "{{payload_json}}"
  {
    var raw := "{{payload}}";
    ReplaceAllWhole(raw, "{{payload_json}}");
    NormalizedStages(raw, raw, raw, raw, "{{payload_json}}");
  }

  /** `{{ payload }}` becomes `{{payload_json}}`. */
  lemma NormalizedDoubleBraceSpaced()
    ensures Normalized("{{ payload }}") == "{{payload_json}}"
  {
    var raw := "{{ payload }}";
    TriplePassKeepsSpacedDouble();
    ReplaceAllWhole(raw, "{{payload_json}}");
    BarePassKeepsAlias();
    NormalizedStages(raw, raw, raw, "{{payload_json}}", "{{payload_json}}");
  }

  /** `{{{payload}}}` becomes `{{{payload_json}}}`. */
  lemma NormalizedTripleBrace()
    ensures Normalized("{{{payload}}}") == "{{{payload_json}}}"
  {
    var raw, alias := "{{{payload}}}", "{{{payload_json}}}";
    ReplaceAllWhole(raw, alias);
    SpacedPassKeepsTripleAlias();
    BarePassKeepsTripleAlias();
    NormalizedStages(raw, raw, alias, alias, alias);
  }

  /** `{{{ payload }}}` becomes `{{{payload_json}}}`. */
  lemma NormalizedTripleBraceSpaced()
    ensures Normalized("{{{ payload }}}") == "{{{payload_json}}}"
  {
    var raw, alias := "{{{ payload }}}", "{{{payload_json}}}";
    ReplaceAllWhole(raw, alias);
    TriplePassKeepsTripleAlias();
    SpacedPassKeepsTripleAlias();
    BarePassKeepsTripleAlias();
    NormalizedStages(raw, alias, alias, alias, alias);
  }

  /** A path into the payload, `{{payload.text}}`, is not a bare spelling and is left alone. */
  lemma NormalizedLeavesPaths()
    ensures Normalized("{{payload.text}}") == "{{payload.text}}"
  {
    var raw := "{{payload.text}}";
    SpacedTriplePassKeepsPath();
    TriplePassKeepsPath();
    SpacedPassKeepsPath();
    BarePassKeepsPath();
    NormalizedStages(raw, raw, raw, raw, raw);
  }

  /** Text before the first brace is never touched: every pattern starts with `{`. */
  lemma NormalizedPlainPrefix(plain: string, rest: string)
    requires '{' !in plain
    ensures Normalized(plain + rest) == plain + Normalized(rest)
  {
    NormalizedUnfold(plain + rest);
    NormalizedUnfold(rest);
    var r0 := ReplaceAll(rest, "{{{ payload }}}", "{{{payload_json}}}");
    var r1 := ReplaceAll(r0, "{{{payload}}}", "{{{payload_json}}}");
    var r2 := ReplaceAll(r1, "{{ payload }}", "{{payload_json}}");
    ReplaceAllPlainPrefix(plain, rest, "{{{ payload }}}", "{{{payload_json}}}");
    ReplaceAllPlainPrefix(plain, r0, "{{{payload}}}", "{{{payload_json}}}");
    ReplaceAllPlainPrefix(plain, r1, "{{ payload }}", "{{payload_json}}");
    ReplaceAllPlainPrefix(plain, r2, "{{payload}}", "{{payload_json}}");
  }

  /** A template without any `{` is handed to the engine as it is. */
  lemma NormalizedWithoutBraces(raw: string)
    requires '{' !in raw
    ensures Normalized(raw) == raw
  {
    NormalizedPlainPrefix(raw, "");
    assert raw + "" == raw;
    NormalizedStages("", "", "", "", "");
  }

  /** A bare spelling after plain text, as in `payload={{payload}}`, is rewritten in place. */
  lemma NormalizedInsideText(plain: string)
    requires '{' !in plain
    ensures Normalized(plain + "{{payload}}") == plain + "{{payload_json}}"
  {
    NormalizedPlainPrefix(plain, "{{payload}}");
    NormalizedDoubleBrace();
  }
}
