/**
 * The wire envelope (hop/io.py): what a producer wraps around a plain value and
 * how a consumer turns a decoded JSON payload back into a value or a model.
 *
 * JSON text is not modelled: a payload is the `Value` that `json.dumps` would
 * write and `json.loads` would read back.
 */
module Messages {
  import opened Basics
  import opened Text
  import opened Values

  /** What a producer is asked to write: a plain value, or an object with its own `serialize()`. */
  datatype Outgoing = Plain(v: Value) | Serializable(serialized: Value)

  /** What deserialization hands back. */
  datatype Decoded =
    | Content(content: Value)                              // a BLOB: the content itself
    | Model(format: string, fields: map<string, Value>)    // `Deserializer[format].value(**content)`
    | UnknownBlob(content: Value)                          // `Blob(content=..., missing_schema=True)`

  datatype DeserializeError =
    | IncorrectlyFormatted   // ValueError "Message is incorrectly formatted"
    | FormatNotText          // AttributeError: the tag has no `upper()`
    | ContentNotMapping      // TypeError: `**content` needs a mapping

  /** hop/io.py Producer._pack. */
  function Pack(m: Outgoing): (r: Value)
    ensures m.Plain? ==> r.Table? && r.fields.Keys == {"format", "content"}
                         && r.fields["format"] == Str("blob") && r.fields["content"] == m.v
  {
    match m
    case Serializable(p) => p
    case Plain(v) => Table(map["format" := Str("blob"), "content" := v])
  }

  /**
   * hop/io.py _DeserializerMixin.deserialize; `plugins` holds the upper-cased
   * names of the registered message models (BLOB among them).
   */
  function Deserialize(plugins: set<string>, message: Value): (r: Result<Decoded, DeserializeError>)
    ensures r.Ok? ==> message.Table? && "format" in message.fields && message.fields["format"].Str?
                      && "content" in message.fields
    ensures r.Ok? ==> (r.value.Content? <==> Upper(message.fields["format"].s) == "BLOB")
    ensures r.Ok? && !r.value.Model? ==> r.value.content == message.fields["content"]
    ensures r.Ok? && r.value.Model? ==> r.value.format in plugins && r.value.format == Upper(message.fields["format"].s)
                                        && message.fields["content"] == Table(r.value.fields)
  {
    if !message.Table? || "format" !in message.fields then Err(IncorrectlyFormatted)
    else if !message.fields["format"].Str? then Err(FormatNotText)
    else if "content" !in message.fields then Err(IncorrectlyFormatted)
    else
      var format := Upper(message.fields["format"].s);
      var content := message.fields["content"];
      if format == "BLOB" then Ok(Content(content))
      else if format in plugins then
        if content.Table? then Ok(Model(format, content.fields)) else Err(ContentNotMapping)
      else Ok(UnknownBlob(content))
  }

  /** A plain value survives the envelope unchanged. */
  lemma PackRoundTrip(plugins: set<string>, v: Value)
    ensures Deserialize(plugins, Pack(Plain(v))) == Ok(Content(v))
  {
    assert Upper("blob") == "BLOB";
  }

  /** The format tag is compared without regard to ASCII letter case. */
  lemma FormatCaseInsensitive(plugins: set<string>, fields: map<string, Value>, f: string, g: string)
    requires Upper(f) == Upper(g)
    ensures Deserialize(plugins, Table(fields["format" := Str(f)])) == Deserialize(plugins, Table(fields["format" := Str(g)]))
  {
  }

  /** Anything but a mapping holding both keys is refused as incorrectly formatted (a tag that is not text aside). */
  lemma MalformedEnvelope(plugins: set<string>, message: Value)
    ensures !message.Table? ==> Deserialize(plugins, message) == Err(IncorrectlyFormatted)
    ensures message.Table? && "format" !in message.fields ==> Deserialize(plugins, message) == Err(IncorrectlyFormatted)
    ensures message.Table? && "format" in message.fields && message.fields["format"].Str? && "content" !in message.fields
        ==> Deserialize(plugins, message) == Err(IncorrectlyFormatted)
  {
  }

  /** An unrecognised tag is not an error: the content comes back as a Blob marked as missing its schema. */
  lemma UnknownFormatIsBlob(plugins: set<string>, tag: string, content: Value)
    requires Upper(tag) != "BLOB" && Upper(tag) !in plugins
    ensures Deserialize(plugins, Table(map["format" := Str(tag), "content" := content])) == Ok(UnknownBlob(content))
  {
  }

  /** A registered tag builds that model from the content's fields. */
  lemma KnownFormatIsModel(plugins: set<string>, tag: string, fields: map<string, Value>)
    requires Upper(tag) != "BLOB" && Upper(tag) in plugins
    ensures Deserialize(plugins, Table(map["format" := Str(tag), "content" := Table(fields)]))
         == Ok(Model(Upper(tag), fields))
  {
  }
}
