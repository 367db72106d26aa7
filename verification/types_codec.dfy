/** The JSON shapes serde derives for the records of src/types.rs: unit
    enums as lower-case or snake_case strings, content blocks and sources
    as objects tagged by `"type"`, `Option` fields omitted when `None`. Each
    decoder is paired with the encoder it inverts. */
module TypesCodec {
  import opened Base
  import opened Json
  import opened Types

  // ---- Role (`rename_all = "lowercase"`) ----

  function EncodeRole(r: Role): Json
  {
    match r
    case User => Str("user")
    case Assistant => Str("assistant")
  }

  function DecodeRole(j: Json): (r: Result<Role, DecodeError>)
    ensures r.Ok? ==> EncodeRole(r.value) == j
  {
    var s :- AsString(j);
    if s == "user" then Ok(User)
    else if s == "assistant" then Ok(Assistant)
    else Err(UnknownVariant(s))
  }

  // ---- StopReason (`rename_all = "snake_case"`) ----

  function EncodeStopReason(s: StopReason): Json
  {
    match s
    case EndTurn => Str("end_turn")
    case MaxTokens => Str("max_tokens")
    case StopSequence => Str("stop_sequence")
    case ToolUseStop => Str("tool_use")
    case PauseTurn => Str("pause_turn")
  }

  function DecodeStopReason(j: Json): (r: Result<StopReason, DecodeError>)
    ensures r.Ok? ==> EncodeStopReason(r.value) == j
  {
    var s :- AsString(j);
    if s == "end_turn" then Ok(EndTurn)
    else if s == "max_tokens" then Ok(MaxTokens)
    else if s == "stop_sequence" then Ok(StopSequence)
    else if s == "tool_use" then Ok(ToolUseStop)
    else if s == "pause_turn" then Ok(PauseTurn)
    else Err(UnknownVariant(s))
  }

  // ---- CacheControl: `{"type": "ephemeral"}` ----

  function EncodeCacheControl(c: CacheControl): Json
  {
    Object(map["type" := Str("ephemeral")])
  }

  function DecodeCacheControl(j: Json): (r: Result<CacheControl, DecodeError>)
    ensures r.Ok? <==> j.Object? && "type" in j.fields && j.fields["type"] == Str("ephemeral")
  {
    var o :- AsObject(j);
    var t :- Required(o, "type", AsString);
    if t == "ephemeral" then Ok(CacheControl(Ephemeral)) else Err(UnknownVariant(t))
  }

  // ---- CitationConfig, Citation, TextBlock ----

  function EncodeCitationConfig(c: CitationConfig): Json
  {
    Object(map["enabled" := Bool(c.enabled)])
  }

  function DecodeCitationConfig(j: Json): (r: Result<CitationConfig, DecodeError>)
    ensures r.Ok? <==> j.Object? && "enabled" in j.fields && j.fields["enabled"].Bool?
  {
    var o :- AsObject(j);
    var e :- Required(o, "enabled", AsBool);
    Ok(CitationConfig(e))
  }

  function EncodeCitation(c: Citation): Json
  {
    Object(PutOptional(map[
      "type" := Str(c.citationType),
      "source" := Str(c.source),
      "cited_text" := Str(c.citedText),
      "search_result_index" := Num(Int(c.searchResultIndex)),
      "start_block_index" := Num(Int(c.startBlockIndex)),
      "end_block_index" := Num(Int(c.endBlockIndex))], "title", c.title, s => Str(s)))
  }

  function DecodeCitation(j: Json): Result<Citation, DecodeError>
  {
    var o :- AsObject(j);
    var t :- Required(o, "type", AsString);
    var source :- Required(o, "source", AsString);
    var title :- Optional(o, "title", AsString);
    var cited :- Required(o, "cited_text", AsString);
    var sri :- Required(o, "search_result_index", AsUsize);
    var sbi :- Required(o, "start_block_index", AsUsize);
    var ebi :- Required(o, "end_block_index", AsUsize);
    Ok(Citation(t, source, title, cited, sri, sbi, ebi))
  }

  function DecodeCitations(j: Json): Result<seq<Citation>, DecodeError>
  {
    AsArray(j, DecodeCitation)
  }

  function EncodeTextBlock(b: TextBlock): Json
  {
    Object(map["type" := Str(b.blockType), "text" := Str(b.text)])
  }

  function DecodeTextBlock(j: Json): Result<TextBlock, DecodeError>
  {
    var o :- AsObject(j);
    var t :- Required(o, "type", AsString);
    var text :- Required(o, "text", AsString);
    Ok(TextBlock(t, text))
  }

  // ---- Image and document sources (tagged, snake_case) ----

  function EncodeImageSource(s: ImageSource): Json
  {
    match s
    case Base64Image(mt, d) => Object(map["type" := Str("base64"), "media_type" := Str(mt), "data" := Str(d)])
    case UrlImage(u) => Object(map["type" := Str("url"), "url" := Str(u)])
    case FileImage(f) => Object(map["type" := Str("file"), "file_id" := Str(f)])
  }

  function DecodeImageSource(j: Json): Result<ImageSource, DecodeError>
  {
    var o :- AsObject(j);
    var tag :- Tag(o);
    if tag == "base64" then
      var mt :- Required(o, "media_type", AsString);
      var d :- Required(o, "data", AsString);
      Ok(Base64Image(mt, d))
    else if tag == "url" then
      var u :- Required(o, "url", AsString);
      Ok(UrlImage(u))
    else if tag == "file" then
      var f :- Required(o, "file_id", AsString);
      Ok(FileImage(f))
    else Err(UnknownVariant(tag))
  }

  function EncodeDocumentSource(s: DocumentSource): Json
  {
    match s
    case FileDocument(f) => Object(map["type" := Str("file"), "file_id" := Str(f)])
    case TextDocument(mt, d) => Object(map["type" := Str("text"), "media_type" := Str(mt), "data" := Str(d)])
  }

  function DecodeDocumentSource(j: Json): Result<DocumentSource, DecodeError>
  {
    var o :- AsObject(j);
    var tag :- Tag(o);
    if tag == "file" then
      var f :- Required(o, "file_id", AsString);
      Ok(FileDocument(f))
    else if tag == "text" then
      var mt :- Required(o, "media_type", AsString);
      var d :- Required(o, "data", AsString);
      Ok(TextDocument(mt, d))
    else Err(UnknownVariant(tag))
  }

  // ---- ContentBlock (tagged, snake_case) ----

  function EncodeContentBlock(b: ContentBlock): Json
  {
    match b
    case Text(text, cc, cites) =>
      Object(PutOptional(PutOptional(map["type" := Str("text"), "text" := Str(text)],
        "cache_control", cc, EncodeCacheControl),
        "citations", cites, (cs: seq<Citation>) => Array(EncodeEach(cs, EncodeCitation))))
    case Image(src, cc) =>
      Object(PutOptional(map["type" := Str("image"), "source" := EncodeImageSource(src)],
        "cache_control", cc, EncodeCacheControl))
    case Document(src, title, context, cfg, cc) =>
      Object(PutOptional(PutOptional(PutOptional(PutOptional(
        map["type" := Str("document"), "source" := EncodeDocumentSource(src)],
        "title", title, s => Str(s)),
        "context", context, s => Str(s)),
        "citations", cfg, EncodeCitationConfig),
        "cache_control", cc, EncodeCacheControl))
    case ToolUse(id, name, input, cc) =>
      Object(PutOptional(map["type" := Str("tool_use"), "id" := Str(id), "name" := Str(name), "input" := input],
        "cache_control", cc, EncodeCacheControl))
    case ToolResult(toolUseId, content, isError) =>
      Object(PutOptional(PutOptional(map["type" := Str("tool_result"), "tool_use_id" := Str(toolUseId)],
        "content", content, s => Str(s)),
        "is_error", isError, b => Bool(b)))
    case Thinking(thinking, signature) =>
      Object(PutOptional(map["type" := Str("thinking"), "thinking" := Str(thinking)],
        "signature", signature, s => Str(s)))
    case RedactedThinking(data) =>
      Object(map["type" := Str("redacted_thinking"), "data" := Str(data)])
    case SearchResult(source, title, content, cfg, cc) =>
      Object(PutOptional(PutOptional(
        map["type" := Str("search_result"), "source" := Str(source), "title" := Str(title),
            "content" := Array(EncodeEach(content, EncodeTextBlock))],
        "citations", cfg, EncodeCitationConfig),
        "cache_control", cc, EncodeCacheControl))
  }

  function DecodeContentBlock(j: Json): (r: Result<ContentBlock, DecodeError>)
    ensures r.Ok? ==> j.Object? && "type" in j.fields
  {
    var o :- AsObject(j);
    var tag :- Tag(o);
    if tag == "text" then
      var text :- Required(o, "text", AsString);
      var cc :- Optional(o, "cache_control", DecodeCacheControl);
      var cites :- Optional(o, "citations", DecodeCitations);
      Ok(Text(text, cc, cites))
    else if tag == "image" then
      var src :- Required(o, "source", DecodeImageSource);
      var cc :- Optional(o, "cache_control", DecodeCacheControl);
      Ok(Image(src, cc))
    else if tag == "document" then DecodeDocumentFields(o)
    else if tag == "tool_use" then
      var id :- Required(o, "id", AsString);
      var name :- Required(o, "name", AsString);
      var input :- Required(o, "input", AsValue);
      var cc :- Optional(o, "cache_control", DecodeCacheControl);
      Ok(ToolUse(id, name, input, cc))
    else if tag == "tool_result" then
      var id :- Required(o, "tool_use_id", AsString);
      var content :- Optional(o, "content", AsString);
      var isError :- Optional(o, "is_error", AsBool);
      Ok(ToolResult(id, content, isError))
    else if tag == "thinking" then
      var thinking :- Required(o, "thinking", AsString);
      var signature :- Optional(o, "signature", AsString);
      Ok(Thinking(thinking, signature))
    else if tag == "redacted_thinking" then
      var data :- Required(o, "data", AsString);
      Ok(RedactedThinking(data))
    else if tag == "search_result" then DecodeSearchResultFields(o)
    else Err(UnknownVariant(tag))
  }

  /** The fields of a `document` block. */
  function DecodeDocumentFields(o: map<string, Json>): (r: Result<ContentBlock, DecodeError>)
    ensures r.Ok? ==> r.value.Document?
  {
    var src :- Required(o, "source", DecodeDocumentSource);
    var title :- Optional(o, "title", AsString);
    var context :- Optional(o, "context", AsString);
    var cfg :- Optional(o, "citations", DecodeCitationConfig);
    var cc :- Optional(o, "cache_control", DecodeCacheControl);
    Ok(Document(src, title, context, cfg, cc))
  }

  /** The fields of a `search_result` block. */
  function DecodeSearchResultFields(o: map<string, Json>): (r: Result<ContentBlock, DecodeError>)
    ensures r.Ok? ==> r.value.SearchResult?
  {
    var source :- Required(o, "source", AsString);
    var title :- Required(o, "title", AsString);
    var content :- Required(o, "content", (c: Json) => AsArray(c, DecodeTextBlock));
    var cfg :- Optional(o, "citations", DecodeCitationConfig);
    var cc :- Optional(o, "cache_control", DecodeCacheControl);
    Ok(SearchResult(source, title, content, cfg, cc))
  }

  function DecodeContentBlocks(j: Json): Result<seq<ContentBlock>, DecodeError>
  {
    AsArray(j, DecodeContentBlock)
  }

  // ---- Usage ----

  function EncodeUsage(u: Usage): Json
  {
    Object(PutOptional(PutOptional(
      map["input_tokens" := Num(Int(u.inputTokens)), "output_tokens" := Num(Int(u.outputTokens))],
      "cache_creation_input_tokens", u.cacheCreationInputTokens, (n: u32) => Num(Int(n))),
      "cache_read_input_tokens", u.cacheReadInputTokens, (n: u32) => Num(Int(n))))
  }

  /** Both token counters are required; the cache counters are optional. */
  function DecodeUsage(j: Json): (r: Result<Usage, DecodeError>)
    ensures r.Ok? ==> j.Object? && "input_tokens" in j.fields && "output_tokens" in j.fields
  {
    var o :- AsObject(j);
    var input :- Required(o, "input_tokens", AsU32);
    var output :- Required(o, "output_tokens", AsU32);
    var creation :- Optional(o, "cache_creation_input_tokens", AsU32);
    var read :- Optional(o, "cache_read_input_tokens", AsU32);
    Ok(Usage(input, output, creation, read))
  }

  // ---- MessagesResponse ----

  function DecodeMessagesResponse(j: Json): Result<MessagesResponse, DecodeError>
  {
    var o :- AsObject(j);
    var id :- Required(o, "id", AsString);
    var t :- Required(o, "type", AsString);
    var role :- Required(o, "role", DecodeRole);
    var content :- Required(o, "content", DecodeContentBlocks);
    var model :- Required(o, "model", AsString);
    var stopReason :- Optional(o, "stop_reason", DecodeStopReason);
    var stopSequence :- Optional(o, "stop_sequence", AsString);
    var usage :- Required(o, "usage", DecodeUsage);
    Ok(MessagesResponse(id, t, role, content, model, stopReason, stopSequence, usage))
  }

  /** The stop fields are left out when absent (`skip_serializing_if`). */
  function EncodeMessagesResponse(m: MessagesResponse): Json
  {
    var o := map[
      "id" := Str(m.id), "type" := Str(m.responseType), "role" := EncodeRole(m.role),
      "content" := Array(EncodeEach(m.content, EncodeContentBlock)), "model" := Str(m.model),
      "usage" := EncodeUsage(m.usage)];
    Object(PutOptional(PutOptional(o, "stop_reason", m.stopReason, EncodeStopReason),
                       "stop_sequence", m.stopSequence, (s: string) => Str(s)))
  }

  // ---- Round trips ----

  lemma RoleRoundTrip(r: Role)
    ensures DecodeRole(EncodeRole(r)) == Ok(r)
  {
  }

  lemma StopReasonRoundTrip(s: StopReason)
    ensures DecodeStopReason(EncodeStopReason(s)) == Ok(s)
  {
  }

  lemma CacheControlRoundTrip(c: CacheControl)
    ensures DecodeCacheControl(EncodeCacheControl(c)) == Ok(c)
  {
    match c
    case CacheControl(Ephemeral) =>
  }

  lemma CitationRoundTrip(c: Citation)
    ensures DecodeCitation(EncodeCitation(c)) == Ok(c)
  {
    var o := EncodeCitation(c).fields;
    assert "title" in o ==> o["title"] == Str(c.title.value);
  }

  lemma CitationsRoundTrip(cs: seq<Citation>)
    ensures DecodeCitations(Array(EncodeEach(cs, EncodeCitation))) == Ok(cs)
  {
    forall i | 0 <= i < |cs| ensures DecodeCitation(EncodeCitation(cs[i])) == Ok(cs[i]) {
      CitationRoundTrip(cs[i]);
    }
    EachRoundTrip(cs, EncodeCitation, DecodeCitation);
  }

  lemma TextBlocksRoundTrip(bs: seq<TextBlock>)
    ensures AsArray(Array(EncodeEach(bs, EncodeTextBlock)), DecodeTextBlock) == Ok(bs)
  {
    EachRoundTrip(bs, EncodeTextBlock, DecodeTextBlock);
  }

  lemma ImageSourceRoundTrip(s: ImageSource)
    ensures DecodeImageSource(EncodeImageSource(s)) == Ok(s)
  {
  }

  lemma DocumentSourceRoundTrip(s: DocumentSource)
    ensures DecodeDocumentSource(EncodeDocumentSource(s)) == Ok(s)
  {
  }

  /** Every content block survives serialisation and deserialisation unchanged. */
  lemma ContentBlockRoundTrip(b: ContentBlock)
    ensures DecodeContentBlock(EncodeContentBlock(b)) == Ok(b)
  {
    match b
    case Text(_, _, _) => TextRoundTrip(b);
    case Image(_, _) => ImageRoundTrip(b);
    case Document(_, _, _, _, _) => DocumentRoundTrip(b);
    case ToolUse(_, _, _, _) => ToolUseRoundTrip(b);
    case ToolResult(_, _, _) => ToolResultRoundTrip(b);
    case Thinking(_, _) => ThinkingRoundTrip(b);
    case RedactedThinking(_) =>
    case SearchResult(_, _, _, _, _) => SearchResultRoundTrip(b);
  }

  lemma OptionalCacheControlRoundTrip(o: map<string, Json>, cc: Option<CacheControl>)
    requires "cache_control" !in o
    ensures Optional(PutOptional(o, "cache_control", cc, EncodeCacheControl), "cache_control", DecodeCacheControl) == Ok(cc)
  {
    if cc.Some? { CacheControlRoundTrip(cc.value); }
    OptionalRoundTrip(o, "cache_control", cc, EncodeCacheControl, DecodeCacheControl);
  }

  lemma TextRoundTrip(b: ContentBlock)
    requires b.Text?
    ensures DecodeContentBlock(EncodeContentBlock(b)) == Ok(b)
  {
    var base := map["type" := Str("text"), "text" := Str(b.text)];
    OptionalCacheControlRoundTrip(base, b.cacheControl);
    var withCc := PutOptional(base, "cache_control", b.cacheControl, EncodeCacheControl);
    var enc := (cs: seq<Citation>) => Array(EncodeEach(cs, EncodeCitation));
    if b.citations.Some? { CitationsRoundTrip(b.citations.value); }
    OptionalRoundTrip(withCc, "citations", b.citations, enc, DecodeCitations);
    var o := PutOptional(withCc, "citations", b.citations, enc);
    assert Optional(o, "cache_control", DecodeCacheControl) == Ok(b.cacheControl);
  }

  lemma ImageRoundTrip(b: ContentBlock)
    requires b.Image?
    ensures DecodeContentBlock(EncodeContentBlock(b)) == Ok(b)
  {
    ImageSourceRoundTrip(b.imageSource);
    OptionalCacheControlRoundTrip(map["type" := Str("image"), "source" := EncodeImageSource(b.imageSource)], b.cacheControl);
  }

  lemma DocumentRoundTrip(b: ContentBlock)
    requires b.Document?
    ensures DecodeContentBlock(EncodeContentBlock(b)) == Ok(b)
  {
    DocumentSourceRoundTrip(b.documentSource);
    var o0 := map["type" := Str("document"), "source" := EncodeDocumentSource(b.documentSource)];
    var o1 := PutOptional(o0, "title", b.title, s => Str(s));
    var o2 := PutOptional(o1, "context", b.context, s => Str(s));
    var o3 := PutOptional(o2, "citations", b.citationConfig, EncodeCitationConfig);
    var o4 := PutOptional(o3, "cache_control", b.cacheControl, EncodeCacheControl);
    OptionalRoundTrip(o0, "title", b.title, s => Str(s), AsString);
    OptionalRoundTrip(o1, "context", b.context, s => Str(s), AsString);
    OptionalRoundTrip(o2, "citations", b.citationConfig, EncodeCitationConfig, DecodeCitationConfig);
    OptionalCacheControlRoundTrip(o3, b.cacheControl);
    OptionalOther(o3, "cache_control", b.cacheControl, EncodeCacheControl, "citations", DecodeCitationConfig);
    OptionalOther(o2, "citations", b.citationConfig, EncodeCitationConfig, "context", AsString);
    OptionalOther(o3, "cache_control", b.cacheControl, EncodeCacheControl, "context", AsString);
    OptionalOther(o1, "context", b.context, s => Str(s), "title", AsString);
    OptionalOther(o2, "citations", b.citationConfig, EncodeCitationConfig, "title", AsString);
    OptionalOther(o3, "cache_control", b.cacheControl, EncodeCacheControl, "title", AsString);
    assert DecodeDocumentFields(o4) == Ok(b);
  }

  lemma ToolUseRoundTrip(b: ContentBlock)
    requires b.ToolUse?
    ensures DecodeContentBlock(EncodeContentBlock(b)) == Ok(b)
  {
    OptionalCacheControlRoundTrip(
      map["type" := Str("tool_use"), "id" := Str(b.id), "name" := Str(b.name), "input" := b.input], b.cacheControl);
  }

  lemma ToolResultRoundTrip(b: ContentBlock)
    requires b.ToolResult?
    ensures DecodeContentBlock(EncodeContentBlock(b)) == Ok(b)
  {
    var o0 := map["type" := Str("tool_result"), "tool_use_id" := Str(b.toolUseId)];
    var o1 := PutOptional(o0, "content", b.content, s => Str(s));
    var o2 := PutOptional(o1, "is_error", b.isError, b => Bool(b));
    OptionalRoundTrip(o0, "content", b.content, s => Str(s), AsString);
    OptionalRoundTrip(o1, "is_error", b.isError, b => Bool(b), AsBool);
    assert Optional(o2, "content", AsString) == Ok(b.content);
  }

  lemma ThinkingRoundTrip(b: ContentBlock)
    requires b.Thinking?
    ensures DecodeContentBlock(EncodeContentBlock(b)) == Ok(b)
  {
    var o0 := map["type" := Str("thinking"), "thinking" := Str(b.thinking)];
    OptionalRoundTrip(o0, "signature", b.signature, s => Str(s), AsString);
  }

  lemma SearchResultRoundTrip(b: ContentBlock)
    requires b.SearchResult?
    ensures DecodeContentBlock(EncodeContentBlock(b)) == Ok(b)
  {
    TextBlocksRoundTrip(b.searchContent);
    var o0 := map["type" := Str("search_result"), "source" := Str(b.source), "title" := Str(b.resultTitle),
                  "content" := Array(EncodeEach(b.searchContent, EncodeTextBlock))];
    var o1 := PutOptional(o0, "citations", b.citationConfig, EncodeCitationConfig);
    var o2 := PutOptional(o1, "cache_control", b.cacheControl, EncodeCacheControl);
    OptionalRoundTrip(o0, "citations", b.citationConfig, EncodeCitationConfig, DecodeCitationConfig);
    OptionalCacheControlRoundTrip(o1, b.cacheControl);
    OptionalOther(o1, "cache_control", b.cacheControl, EncodeCacheControl, "citations", DecodeCitationConfig);
    assert o2["content"] == o0["content"] && o2["source"] == o0["source"] && o2["title"] == o0["title"];
    assert DecodeSearchResultFields(o2) == Ok(b);
  }

  lemma ContentBlocksRoundTrip(bs: seq<ContentBlock>)
    ensures DecodeContentBlocks(Array(EncodeEach(bs, EncodeContentBlock))) == Ok(bs)
  {
    forall i | 0 <= i < |bs| ensures DecodeContentBlock(EncodeContentBlock(bs[i])) == Ok(bs[i]) {
      ContentBlockRoundTrip(bs[i]);
    }
    EachRoundTrip(bs, EncodeContentBlock, DecodeContentBlock);
  }

  /** Does `o` hold the fields of the response `m`, the stop fields read as
      `m`'s own? */
  predicate ResponseFields(o: map<string, Json>, m: MessagesResponse)
  {
    && "id" in o && o["id"] == Str(m.id)
    && "type" in o && o["type"] == Str(m.responseType)
    && "role" in o && o["role"] == EncodeRole(m.role)
    && "content" in o && o["content"] == Array(EncodeEach(m.content, EncodeContentBlock))
    && "model" in o && o["model"] == Str(m.model)
    && Optional(o, "stop_reason", DecodeStopReason) == Ok(m.stopReason)
    && Optional(o, "stop_sequence", AsString) == Ok(m.stopSequence)
    && "usage" in o && o["usage"] == EncodeUsage(m.usage)
  }

  /** An object holding the fields of `m` decodes to `m`. */
  lemma DecodeResponseFields(o: map<string, Json>, m: MessagesResponse)
    requires ResponseFields(o, m)
    ensures DecodeMessagesResponse(Object(o)) == Ok(m)
  {
    RoleRoundTrip(m.role);
    ContentBlocksRoundTrip(m.content);
    UsageRoundTrip(m.usage);
  }

  lemma MessagesResponseRoundTrip(m: MessagesResponse)
    ensures DecodeMessagesResponse(EncodeMessagesResponse(m)) == Ok(m)
  {
    var o0 := map[
      "id" := Str(m.id), "type" := Str(m.responseType), "role" := EncodeRole(m.role),
      "content" := Array(EncodeEach(m.content, EncodeContentBlock)), "model" := Str(m.model),
      "usage" := EncodeUsage(m.usage)];
    var o1 := PutOptional(o0, "stop_reason", m.stopReason, EncodeStopReason);
    var o2 := PutOptional(o1, "stop_sequence", m.stopSequence, (s: string) => Str(s));
    if m.stopReason.Some? { StopReasonRoundTrip(m.stopReason.value); }
    OptionalRoundTrip(o0, "stop_reason", m.stopReason, EncodeStopReason, DecodeStopReason);
    OptionalRoundTrip(o1, "stop_sequence", m.stopSequence, (s: string) => Str(s), AsString);
    OptionalOther(o1, "stop_sequence", m.stopSequence, (s: string) => Str(s), "stop_reason", DecodeStopReason);
    assert o2["id"] == o0["id"] && o2["type"] == o0["type"] && o2["role"] == o0["role"];
    assert o2["content"] == o0["content"] && o2["model"] == o0["model"] && o2["usage"] == o0["usage"];
    DecodeResponseFields(o2, m);
  }

  lemma UsageRoundTrip(u: Usage)
    ensures DecodeUsage(EncodeUsage(u)) == Ok(u)
  {
  }
}
