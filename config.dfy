/**
 * The component's configuration, `{"templates": {"text", "output_path",
 * "wrap", "routing"}}`, as the derived deserializer reads it out of a JSON
 * value, and the merge of setup answers into an existing configuration.
 */
module Config {
  import opened Wrappers
  import opened Json

  /** The settings under the `templates` key. */
  datatype TemplatesConfig = TemplatesConfig(
    text: string,
    outputPath: Option<string>,
    wrap: bool,
    routing: Option<string>)

  /** The value `wrap` takes when the configuration leaves it out. */
  const DefaultWrap: bool := true

  function InvalidType(field: string, expected: string): string
  {
    "invalid type for field `" + field + "`: expected " + expected
  }

  function MissingField(field: string): string
  {
    "missing field `" + field + "`"
  }

  /** An `Option<String>` field marked `#[serde(default)]`: absent and null both read as `None`. */
  function OptionalString(fields: map<string, Value>, key: string): Result<Option<string>, string>
  {
    if key !in fields || fields[key].Null? then Ok(None)
    else if fields[key].Str? then Ok(Some(fields[key].s))
    else Err(InvalidType(key, "a string"))
  }

  /**
   * Reads the `templates` object. Unknown keys are ignored. Present fields are
   * checked in key order (`output_path`, `routing`, `text`, `wrap`) and the
   * missing required `text` is reported after them, as the derived
   * deserializer does over a key-ordered map.
   */
  function DecodeTemplates(v: Value): Result<TemplatesConfig, string>
  {
    if !v.Object? then Err("invalid type: expected struct TemplatesConfig")
    else
      var f := v.fields;
      var outputPath := OptionalString(f, "output_path");
      var routing := OptionalString(f, "routing");
      if outputPath.Err? then Err(outputPath.error)
      else if routing.Err? then Err(routing.error)
      else if "text" in f && !f["text"].Str? then Err(InvalidType("text", "a string"))
      else if "wrap" in f && !f["wrap"].Bool? then Err(InvalidType("wrap", "a boolean"))
      else if "text" !in f then Err(MissingField("text"))
      else
        var wrap := if "wrap" in f then f["wrap"].b else DefaultWrap;
        Ok(TemplatesConfig(f["text"].s, outputPath.value, wrap, routing.value))
  }

  /** A field that may be left out or null, or else holds a string. */
  predicate OptionalStringField(f: map<string, Value>, key: string)
  {
    key !in f || f[key].Null? || f[key].Str?
  }

  /** The `templates` object, when the configuration has one. */
  function TemplatesObject(config: Value): Option<map<string, Value>>
  {
    if config.Object? && "templates" in config.fields && config.fields["templates"].Object?
    then Some(config.fields["templates"].fields)
    else None
  }

  /** The configurations the deserializer accepts, stated field by field. */
  predicate Accepted(config: Value)
  {
    && TemplatesObject(config).Some?
    && var f := TemplatesObject(config).value;
    && "text" in f && f["text"].Str?
    && OptionalStringField(f, "output_path")
    && OptionalStringField(f, "routing")
    && ("wrap" !in f || f["wrap"].Bool?)
  }

  /**
   * `serde_json::from_value::<TemplateConfig>(config)`: succeeds exactly on the
   * accepted configurations; the template text is taken as it is (an empty
   * text is accepted), `wrap` defaults to true, and a null optional string
   * reads as absent.
   */
  function DecodeConfig(config: Value): (r: Result<TemplatesConfig, string>)
    ensures r.Ok? <==> Accepted(config)
    ensures r.Ok? ==> var f := TemplatesObject(config).value;
      && r.value.text == f["text"].s
      && r.value.wrap == (if "wrap" in f then f["wrap"].b else true)
      && r.value.outputPath == (if "output_path" in f && f["output_path"].Str? then Some(f["output_path"].s) else None)
      && r.value.routing == (if "routing" in f && f["routing"].Str? then Some(f["routing"].s) else None)
    ensures !config.Object? || "templates" !in config.fields ==> r.Err?
  {
    if !config.Object? then Err("invalid type: expected struct TemplateConfig")
    else if "templates" !in config.fields then Err(MissingField("templates"))
    else DecodeTemplates(config.fields["templates"])
  }

  function OptionalEntry(key: string, value: Option<string>): map<string, Value>
  {
    if value.Some? then map[key := Str(value.value)] else map[]
  }

  /**
   * The configuration written out as JSON, leaving out absent optional fields.
   * The component only ever reads a configuration; this encoder belongs to the
   * model and serves to show that every configuration can be decoded.
   */
  function EncodeConfig(c: TemplatesConfig): Value
  {
    var templates := map["text" := Str(c.text), "wrap" := Bool(c.wrap)]
      + OptionalEntry("output_path", c.outputPath)
      + OptionalEntry("routing", c.routing);
    Object(map["templates" := Object(templates)])
  }

  /** Every configuration survives being written out and read back. */
  lemma DecodeEncode(c: TemplatesConfig)
    ensures DecodeConfig(EncodeConfig(c)) == Ok(c)
  {
  }

  /** A configuration without `wrap` decodes with `wrap` on. */
  lemma WrapDefaultsToTrue(text: string)
    ensures DecodeConfig(Object(map["templates" := Object(map["text" := Str(text)])]))
         == Ok(TemplatesConfig(text, None, true, None))
  {
  }

  /**
   * The configuration kept after setup answers: the answers when they decoded
   * to an object, else the current configuration when it did, else `{}`.
   * `None` stands for input that did not decode.
   */
  function MergeAnswers(current: Option<Value>, answers: Option<Value>): (r: Value)
    ensures r.Object?
    ensures answers.Some? && answers.value.Object? ==> r == answers.value
    ensures !(answers.Some? && answers.value.Object?) && current.Some? && current.value.Object?
      ==> r == current.value
    ensures !(answers.Some? && answers.value.Object?) && !(current.Some? && current.value.Object?)
      ==> r == EmptyObject
  {
    match (current, answers)
    case (_, Some(Object(_))) => answers.value
    case (Some(Object(_)), _) => current.value
    case _ => EmptyObject
  }
}
