/** The events of a streamed response (src/streaming.rs) and the tagged
    JSON decoding serde derives for them. */
module Streaming {
  import opened Base
  import opened Json
  import opened Types
  import opened TypesCodec

  /** Message metadata sent with `message_start`. */
  datatype MessageMetadata = MessageMetadata(
    id: string,
    messageType: string,
    role: Role,
    content: seq<ContentBlock>,
    model: string,
    stopReason: Option<StopReason>,
    stopSequence: Option<string>,
    usage: Usage)

  /** An incremental update to one content block: a closed set of two variants. */
  datatype ContentDelta = TextDelta(text: string) | InputJsonDelta(partialJson: string)

  /** The stop information carried by `message_delta`. */
  datatype MessageDelta = MessageDelta(stopReason: Option<StopReason>, stopSequence: Option<string>)

  /** An error the server reports inside the stream. */
  datatype StreamError = StreamError(errorType: string, message: string)

  datatype StreamEvent =
    | MessageStart(message: MessageMetadata)
    | ContentBlockStart(index: usize, contentBlock: ContentBlock)
    | ContentBlockDelta(index: usize, delta: ContentDelta)
    | ContentBlockStop(index: usize)
    | MessageDeltaEvent(messageDelta: MessageDelta, usage: Usage)
    | MessageStop
    | Ping
    | ErrorEvent(error: StreamError)

  /** `ContentDelta::text`. */
  function DeltaText(d: ContentDelta): (r: Option<string>)
    ensures r.Some? <==> d.TextDelta?
    ensures r.Some? ==> d == TextDelta(r.value)
  {
    match d
    case TextDelta(t) => Some(t)
    case _ => None
  }

  /** `ContentDelta::partial_json`. */
  function DeltaPartialJson(d: ContentDelta): (r: Option<string>)
    ensures r.Some? <==> d.InputJsonDelta?
    ensures r.Some? ==> d == InputJsonDelta(r.value)
  {
    match d
    case InputJsonDelta(p) => Some(p)
    case _ => None
  }

  /** Exactly one of the two accessors answers for any delta. */
  lemma AccessorsExclusive(d: ContentDelta)
    ensures DeltaText(d).Some? != DeltaPartialJson(d).Some?
  {
  }

  // ---- ContentDelta: tagged, snake_case ----

  function EncodeContentDelta(d: ContentDelta): Json
  {
    match d
    case TextDelta(t) => Object(map["type" := Str("text_delta"), "text" := Str(t)])
    case InputJsonDelta(p) => Object(map["type" := Str("input_json_delta"), "partial_json" := Str(p)])
  }

  /** Any `type` other than the two variant names is refused. */
  function DecodeContentDelta(j: Json): (r: Result<ContentDelta, DecodeError>)
    ensures r.Ok? ==> j.Object? && "type" in j.fields
    ensures r.Ok? && r.value.TextDelta? ==> j.fields["type"] == Str("text_delta")
    ensures r.Ok? && r.value.InputJsonDelta? ==> j.fields["type"] == Str("input_json_delta")
  {
    var o :- AsObject(j);
    var tag :- Tag(o);
    if tag == "text_delta" then
      var t :- Required(o, "text", AsString);
      Ok(TextDelta(t))
    else if tag == "input_json_delta" then
      var p :- Required(o, "partial_json", AsString);
      Ok(InputJsonDelta(p))
    else Err(UnknownVariant(tag))
  }

  lemma ContentDeltaRoundTrip(d: ContentDelta)
    ensures DecodeContentDelta(EncodeContentDelta(d)) == Ok(d)
  {
  }

  /** A delta whose `type` names neither variant never decodes. */
  lemma ContentDeltaClosed(j: Json)
    requires j.Object? && "type" in j.fields && j.fields["type"].Str?
    requires j.fields["type"].s != "text_delta" && j.fields["type"].s != "input_json_delta"
    ensures DecodeContentDelta(j).Err?
  {
  }

  // ---- StreamError: `{"type": error_type, "message": message}` ----

  function EncodeStreamError(e: StreamError): Json
  {
    Object(map["type" := Str(e.errorType), "message" := Str(e.message)])
  }

  function DecodeStreamError(j: Json): (r: Result<StreamError, DecodeError>)
    ensures r.Ok? <==> j.Object? && "type" in j.fields && j.fields["type"].Str?
                       && "message" in j.fields && j.fields["message"].Str?
    ensures r.Ok? ==> r.value == StreamError(j.fields["type"].s, j.fields["message"].s)
  {
    var o :- AsObject(j);
    var t :- Required(o, "type", AsString);
    var m :- Required(o, "message", AsString);
    Ok(StreamError(t, m))
  }

  lemma StreamErrorRoundTrip(e: StreamError)
    ensures DecodeStreamError(EncodeStreamError(e)) == Ok(e)
  {
  }

  // ---- MessageMetadata and MessageDelta ----

  /** `content` may be absent (then empty); the stop fields may be absent or null. */
  function DecodeMessageMetadata(j: Json): (r: Result<MessageMetadata, DecodeError>)
    ensures r.Ok? ==> j.Object? && "id" in j.fields && j.fields["id"] == Str(r.value.id)
    ensures r.Ok? ==> "role" in j.fields && EncodeRole(r.value.role) == j.fields["role"]
    ensures r.Ok? && "content" !in j.fields ==> r.value.content == []
    ensures r.Ok? && ("stop_reason" !in j.fields || j.fields["stop_reason"] == Null) ==> r.value.stopReason.None?
    ensures r.Ok? && ("stop_sequence" !in j.fields || j.fields["stop_sequence"] == Null) ==> r.value.stopSequence.None?
  {
    var o :- AsObject(j);
    var id :- Required(o, "id", AsString);
    var t :- Required(o, "type", AsString);
    var role :- Required(o, "role", DecodeRole);
    var content :- if "content" in o then DecodeContentBlocks(o["content"]) else Ok([]);
    var model :- Required(o, "model", AsString);
    var stopReason :- Optional(o, "stop_reason", DecodeStopReason);
    var stopSequence :- Optional(o, "stop_sequence", AsString);
    var usage :- Required(o, "usage", DecodeUsage);
    Ok(MessageMetadata(id, t, role, content, model, stopReason, stopSequence, usage))
  }

  function DecodeMessageDelta(j: Json): Result<MessageDelta, DecodeError>
  {
    var o :- AsObject(j);
    var stopReason :- Optional(o, "stop_reason", DecodeStopReason);
    var stopSequence :- Optional(o, "stop_sequence", AsString);
    Ok(MessageDelta(stopReason, stopSequence))
  }

  // ---- StreamEvent: tagged, snake_case ----

  /** The `type` discriminator serde writes for each event variant. */
  function EventTag(e: StreamEvent): string
  {
    match e
    case MessageStart(_) => "message_start"
    case ContentBlockStart(_, _) => "content_block_start"
    case ContentBlockDelta(_, _) => "content_block_delta"
    case ContentBlockStop(_) => "content_block_stop"
    case MessageDeltaEvent(_, _) => "message_delta"
    case MessageStop => "message_stop"
    case Ping => "ping"
    case ErrorEvent(_) => "error"
  }

  /** Decoding a self-describing event: the variant is chosen by the
      payload's own `type` field, and the decoded event carries that tag. */
  function DecodeStreamEvent(j: Json): (r: Result<StreamEvent, DecodeError>)
    ensures r.Ok? ==> j.Object? && "type" in j.fields && j.fields["type"] == Str(EventTag(r.value))
  {
    var o :- AsObject(j);
    var tag :- Tag(o);
    if tag == "message_start" then
      var m :- Required(o, "message", DecodeMessageMetadata);
      Ok(MessageStart(m))
    else if tag == "content_block_start" then
      var index :- Required(o, "index", AsUsize);
      var block :- Required(o, "content_block", DecodeContentBlock);
      Ok(ContentBlockStart(index, block))
    else if tag == "content_block_delta" then
      var index :- Required(o, "index", AsUsize);
      var delta :- Required(o, "delta", DecodeContentDelta);
      Ok(ContentBlockDelta(index, delta))
    else if tag == "content_block_stop" then
      var index :- Required(o, "index", AsUsize);
      Ok(ContentBlockStop(index))
    else if tag == "message_delta" then
      var delta :- Required(o, "delta", DecodeMessageDelta);
      var usage :- Required(o, "usage", DecodeUsage);
      Ok(MessageDeltaEvent(delta, usage))
    else if tag == "message_stop" then Ok(MessageStop)
    else if tag == "ping" then Ok(Ping)
    else if tag == "error" then
      var e :- Required(o, "error", DecodeStreamError);
      Ok(ErrorEvent(e))
    else Err(UnknownVariant(tag))
  }

  // ---- Serialisation (the derived `Serialize`) ----

  /** The stop fields are left out when absent (`skip_serializing_if`). */
  function EncodeMessageMetadata(m: MessageMetadata): Json
  {
    var o := map[
      "id" := Str(m.id), "type" := Str(m.messageType), "role" := EncodeRole(m.role),
      "content" := Array(EncodeEach(m.content, EncodeContentBlock)), "model" := Str(m.model),
      "usage" := EncodeUsage(m.usage)];
    Object(PutOptional(PutOptional(o, "stop_reason", m.stopReason, EncodeStopReason),
                       "stop_sequence", m.stopSequence, (s: string) => Str(s)))
  }

  function EncodeMessageDelta(d: MessageDelta): Json
  {
    Object(PutOptional(PutOptional(map[], "stop_reason", d.stopReason, EncodeStopReason),
                       "stop_sequence", d.stopSequence, (s: string) => Str(s)))
  }

  /** An event as the `type`-tagged object serde writes for it. */
  function EncodeStreamEvent(e: StreamEvent): Json
  {
    match e
    case MessageStart(m) => Object(map["type" := Str("message_start"), "message" := EncodeMessageMetadata(m)])
    case ContentBlockStart(i, b) =>
      Object(map["type" := Str("content_block_start"), "index" := Num(Int(i)), "content_block" := EncodeContentBlock(b)])
    case ContentBlockDelta(i, d) =>
      Object(map["type" := Str("content_block_delta"), "index" := Num(Int(i)), "delta" := EncodeContentDelta(d)])
    case ContentBlockStop(i) => Object(map["type" := Str("content_block_stop"), "index" := Num(Int(i))])
    case MessageDeltaEvent(d, u) =>
      Object(map["type" := Str("message_delta"), "delta" := EncodeMessageDelta(d), "usage" := EncodeUsage(u)])
    case MessageStop => Object(map["type" := Str("message_stop")])
    case Ping => Object(map["type" := Str("ping")])
    case ErrorEvent(err) => Object(map["type" := Str("error"), "error" := EncodeStreamError(err)])
  }

  /** Does `o` hold the fields of the metadata `m`, the stop fields read as
      `m`'s own? */
  predicate MetadataFields(o: map<string, Json>, m: MessageMetadata)
  {
    && "id" in o && o["id"] == Str(m.id)
    && "type" in o && o["type"] == Str(m.messageType)
    && "role" in o && o["role"] == EncodeRole(m.role)
    && "content" in o && o["content"] == Array(EncodeEach(m.content, EncodeContentBlock))
    && "model" in o && o["model"] == Str(m.model)
    && Optional(o, "stop_reason", DecodeStopReason) == Ok(m.stopReason)
    && Optional(o, "stop_sequence", AsString) == Ok(m.stopSequence)
    && "usage" in o && o["usage"] == EncodeUsage(m.usage)
  }

  /** An object holding the fields of `m` decodes to `m`. */
  lemma DecodeMetadataFields(o: map<string, Json>, m: MessageMetadata)
    requires MetadataFields(o, m)
    ensures DecodeMessageMetadata(Object(o)) == Ok(m)
  {
    RoleRoundTrip(m.role);
    ContentBlocksRoundTrip(m.content);
    UsageRoundTrip(m.usage);
  }

  lemma MessageMetadataRoundTrip(m: MessageMetadata)
    ensures DecodeMessageMetadata(EncodeMessageMetadata(m)) == Ok(m)
  {
    var o0 := map[
      "id" := Str(m.id), "type" := Str(m.messageType), "role" := EncodeRole(m.role),
      "content" := Array(EncodeEach(m.content, EncodeContentBlock)), "model" := Str(m.model),
      "usage" := EncodeUsage(m.usage)];
    var o1 := PutOptional(o0, "stop_reason", m.stopReason, EncodeStopReason);
    var o2 := PutOptional(o1, "stop_sequence", m.stopSequence, (s: string) => Str(s));
    if m.stopReason.Some? { StopReasonRoundTrip(m.stopReason.value); }
    OptionalRoundTrip(o0, "stop_reason", m.stopReason, EncodeStopReason, DecodeStopReason);
    OptionalRoundTrip(o1, "stop_sequence", m.stopSequence, (s: string) => Str(s), AsString);
    OptionalOther(o1, "stop_sequence", m.stopSequence, (s: string) => Str(s), "stop_reason", DecodeStopReason);
    assert o2["id"] == o0["id"] && o2["type"] == o0["type"] && o2["role"] == o0["role"];
    assert o2["content"] == o0["content"] && o2["model"] == o0["model"] && o2["usage"] == o0["usage"];
    DecodeMetadataFields(o2, m);
  }

  lemma MessageDeltaRoundTrip(d: MessageDelta)
    ensures DecodeMessageDelta(EncodeMessageDelta(d)) == Ok(d)
  {
    var o1 := PutOptional(map[], "stop_reason", d.stopReason, EncodeStopReason);
    if d.stopReason.Some? { StopReasonRoundTrip(d.stopReason.value); }
    OptionalRoundTrip(map[], "stop_reason", d.stopReason, EncodeStopReason, DecodeStopReason);
    OptionalRoundTrip(o1, "stop_sequence", d.stopSequence, (s: string) => Str(s), AsString);
    OptionalOther(o1, "stop_sequence", d.stopSequence, (s: string) => Str(s), "stop_reason", DecodeStopReason);
  }

  lemma MessageStartRoundTrip(m: MessageMetadata)
    ensures DecodeStreamEvent(EncodeStreamEvent(MessageStart(m))) == Ok(MessageStart(m))
  {
    MessageMetadataRoundTrip(m);
  }

  lemma ContentBlockStartRoundTrip(i: usize, b: ContentBlock)
    ensures DecodeStreamEvent(EncodeStreamEvent(ContentBlockStart(i, b))) == Ok(ContentBlockStart(i, b))
  {
    ContentBlockRoundTrip(b);
  }

  lemma ContentBlockDeltaRoundTrip(i: usize, d: ContentDelta)
    ensures DecodeStreamEvent(EncodeStreamEvent(ContentBlockDelta(i, d))) == Ok(ContentBlockDelta(i, d))
  {
    ContentDeltaRoundTrip(d);
  }

  lemma MessageDeltaEventRoundTrip(d: MessageDelta, u: Usage)
    ensures DecodeStreamEvent(EncodeStreamEvent(MessageDeltaEvent(d, u))) == Ok(MessageDeltaEvent(d, u))
  {
    MessageDeltaRoundTrip(d);
    UsageRoundTrip(u);
  }

  lemma ErrorEventRoundTrip(err: StreamError)
    ensures DecodeStreamEvent(EncodeStreamEvent(ErrorEvent(err))) == Ok(ErrorEvent(err))
  {
    StreamErrorRoundTrip(err);
  }

  /** Every event decodes back from the object serde writes for it: the
      payload's tag selects the variant and its fields come back intact. */
  lemma StreamEventRoundTrip(e: StreamEvent)
    ensures DecodeStreamEvent(EncodeStreamEvent(e)) == Ok(e)
  {
    match e
    case MessageStart(m) => MessageStartRoundTrip(m);
    case ContentBlockStart(i, b) => ContentBlockStartRoundTrip(i, b);
    case ContentBlockDelta(i, d) => ContentBlockDeltaRoundTrip(i, d);
    case ContentBlockStop(_) =>
    case MessageDeltaEvent(d, u) => MessageDeltaEventRoundTrip(d, u);
    case MessageStop =>
    case Ping =>
    case ErrorEvent(err) => ErrorEventRoundTrip(err);
  }

  /** The example delta of the source's tests decodes to text "Hello" at index 0. */
  lemma DecodeTextDeltaExample()
    ensures DecodeStreamEvent(Object(map[
      "type" := Str("content_block_delta"),
      "index" := Num(Int(0)),
      "delta" := Object(map["type" := Str("text_delta"), "text" := Str("Hello")])]))
      == Ok(ContentBlockDelta(0, TextDelta("Hello")))
  {
  }

  /** Does `o` hold the `message` object of the source's `message_start`
      test, with any id, model and token counts (and any further fields)? */
  predicate StartExampleFields(o: map<string, Json>, id: string, model: string, input: u32, output: u32)
  {
    && "id" in o && o["id"] == Str(id)
    && "type" in o && o["type"] == Str("message")
    && "role" in o && o["role"] == Str("assistant")
    && "content" in o && o["content"] == Array([])
    && "model" in o && o["model"] == Str(model)
    && "stop_reason" in o && o["stop_reason"] == Null
    && "stop_sequence" in o && o["stop_sequence"] == Null
    && "usage" in o && o["usage"].Object?
    && var u := o["usage"].fields;
       && "input_tokens" in u && u["input_tokens"] == Num(Int(input))
       && "output_tokens" in u && u["output_tokens"] == Num(Int(output))
       && "cache_creation_input_tokens" !in u && "cache_read_input_tokens" !in u
  }

  /** Such metadata decodes with its id and role, empty content, no stop
      reason or sequence, and the two token counts. */
  lemma DecodeMetadataExample(o: map<string, Json>, id: string, model: string, input: u32, output: u32)
    requires StartExampleFields(o, id, model, input, output)
    ensures DecodeMessageMetadata(Object(o))
      == Ok(MessageMetadata(id, "message", Assistant, [], model, None, None, Usage(input, output, None, None)))
  {
    assert DecodeUsage(o["usage"]) == Ok(Usage(input, output, None, None));
    assert DecodeContentBlocks(Array([])) == Ok([]);
  }

  /** The `message_start` event of the source's tests decodes to a
      `MessageStart` carrying that metadata. */
  lemma DecodeMessageStartExample(o: map<string, Json>, id: string, model: string, input: u32, output: u32)
    requires StartExampleFields(o, id, model, input, output)
    ensures DecodeStreamEvent(Object(map["type" := Str("message_start"), "message" := Object(o)]))
      == Ok(MessageStart(MessageMetadata(id, "message", Assistant, [], model, None, None,
                                         Usage(input, output, None, None))))
  {
    DecodeMetadataExample(o, id, model, input, output);
  }

  /** A usage object lacking `input_tokens` is refused, whatever else it holds. */
  lemma UsageNeedsInputTokens(o: map<string, Json>)
    requires "input_tokens" !in o
    ensures DecodeUsage(Object(o)).Err?
  {
  }
}
