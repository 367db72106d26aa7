# claude-agent-sdk-rust, modelled in Dafny

This project models the decision and transformation logic of the Rust
client library for the Claude Messages API. The library itself is mostly an
HTTP client. The modelled parts are:

- **Errors** (`errors.dfy`): the error enum; which errors are retryable and
  which carry a server-requested delay; the API's error body.
- **Types** (`types.dfy`, `types_codec.dfy`): messages, content blocks, tools,
  tool choices, cache control and the request record with its builders. It
  also has the serde JSON form of the response types, with encode/decode
  round trips.
- **Streaming** (`streaming.dfy`, `client.dfy`): the streaming event types
  and their `type`-tagged decoding. The client turns server-sent-event items
  into events in two stages: per-item dispatch, then dropping "no event"
  results. It also maps a non-success HTTP status to an error variant.
- **Batch** (`batch.dfy`):
  - batch records;
  - the `wait_for_completion` exit condition;
  - the JSONL reader of a results download. The reader keeps a byte buffer
    across chunks and cuts it at `\n`. It trims each line and skips blank
    ones. At the end it flushes an unterminated last line.
  - The reader gives the same results however the bytes are split into
    chunks. It stops at the first failure.
- **Retry** (`retry.dfy`): the retry configuration and its builders; the
  retry-after branch of the backoff; the attempt-counting loop, run over a
  given sequence of outcomes.
- **Models** (`models.dfy`):
  - the nine-model catalogue;
  - Bedrock region prefixes;
  - the first-match lookups by Anthropic, Bedrock and Vertex id, with the
    Bedrock round trip proved for every model and region;
  - `validate_request`.
- **Conversation** (`conversation.dfy`): the conversation builder, with
  `&mut self` methods as functions from the old builder to the new one.
- **Tokens** (`tokens.dfy`): the fixed token overheads and the context-window
  check. The text tokenizer and the JSON renderer are parameters.
- **Structured output and prompts** (`structured.dfy`, `prompts.dfy`): the
  schema tool, the forced tool choice, and the parallel-tool-use prompt
  suffix.

`base.dfy` holds `Option`/`Result`, the Rust integer widths and decimal
printing and parsing of `u64`. `json.dfy` holds a JSON value type and the
serde conventions the decoders follow:

- a missing or `null` optional field becomes `None`;
- unknown fields are ignored;
- an internally tagged enum dispatches on `"type"`.

Turning JSON text into a value is a parameter `Parser = string -> Option<Json>`.

Where the code and its documentation differ, the model follows the code:

- A `ping` frame is yielded as a `Ping` event; it is not swallowed
  (src/client.rs:242).
- A frame with an empty data payload is not skipped. Its data goes to the
  parser, and a parse failure ends the stream with `StreamParse`.
- `ContentDelta` has exactly two variants, `text_delta` and
  `input_json_delta`.
- The conversation builder documents alternating roles but does not enforce
  them, so the model does not either.
- `src/lib.rs` does not declare the batch, retry, tokens, structured and
  prompts modules. They are modelled as written, except where the code
  would not compile (see "Left out").

## Model

| member | source | states |
|---|---|---|
| Errors.IsRetryable | src/error.rs:57-64 | rate-limit and network errors are retryable; a server error is retryable exactly when its status is at least 500; every other variant never is |
| Errors.RetryAfter | src/error.rs:67-72 | only a rate-limit error carries a delay, the one it was built with; a delay is only ever reported for a retryable error |
| Errors.DecodeApiErrorResponse | src/error.rs:74-89 | an API error body decodes exactly when it has a string `type` and an `error` object with string `type` and `message`, and then carries those values |
| Types.EphemeralCache | src/types.rs:165-169 | the cache control has the ephemeral cache type |
| Types.UserMessage | src/types.rs:181-190 | a user message holding one plain text block with the given text, no cache control and no citations |
| Types.AssistantMessage | src/types.rs:193-202 | an assistant message holding one plain text block with the given text |
| Types.ToolResultMessage | src/types.rs:205-214 | a user message with one tool result for the given call id, content present and no error flag |
| Types.ChooseAuto | src/types.rs:273-275 | the automatic tool choice |
| Types.ChooseAny | src/types.rs:278-280 | the any-tool choice |
| Types.ChooseTool | src/types.rs:283-285 | the choice naming exactly the given tool |
| Types.ChooseNone | src/types.rs:288-290 | the no-tool choice |
| Types.NewRequest | src/types.rs:451-468 | a request with the given model, token limit and messages and every optional field unset |
| Types.WithSystem | src/types.rs:471-474 | sets the system prompt to the given string; every other field is unchanged |
| Types.WithTools | src/types.rs:477-480 | sets the tool list; every other field is unchanged |
| Types.WithToolChoice | src/types.rs:483-486 | sets the tool choice; every other field is unchanged |
| Types.WithDisableParallelToolUse | src/types.rs:489-492 | sets the parallel-tool-use flag; every other field is unchanged |
| Types.WithTemperature | src/types.rs:495-498 | sets the temperature; every other field is unchanged |
| Types.WithEffort | src/types.rs:503-508 | the output configuration carries the given effort; every other field is unchanged |
| Types.WithThinking | src/types.rs:514-517 | extended thinking is enabled with the given budget; every other field is unchanged |
| TypesCodec.DecodeRole | src/types.rs:8-12 | a decoded role is one whose encoding is the input |
| TypesCodec.DecodeStopReason | src/types.rs:520-537 | a decoded stop reason is one whose snake_case encoding is the input |
| TypesCodec.DecodeCacheControl | src/types.rs:150-162 | decoding succeeds exactly on an object whose `type` is "ephemeral" |
| TypesCodec.DecodeContentBlock | src/types.rs:14-88 | a decoded content block came from an object with a `type` discriminator |
| TypesCodec.DecodeUsage | src/types.rs:295-306 | decoded usage came from an object with both input and output token counts |
| TypesCodec.RoleRoundTrip | src/types.rs:8-12 | every role decodes back from its encoding |
| TypesCodec.StopReasonRoundTrip | src/types.rs:520-537 | every stop reason decodes back from its encoding |
| TypesCodec.CacheControlRoundTrip | src/types.rs:150-162 | every cache control decodes back from its encoding |
| TypesCodec.CitationRoundTrip | src/types.rs:130-148 | every citation decodes back from its encoding |
| TypesCodec.CitationsRoundTrip | src/types.rs:130-148 | every list of citations decodes back from its encoding, element by element |
| TypesCodec.ImageSourceRoundTrip | src/types.rs:98-110 | every image source decodes back from its tagged encoding |
| TypesCodec.DocumentSourceRoundTrip | src/types.rs:112-120 | every document source decodes back from its tagged encoding |
| TypesCodec.ContentBlockRoundTrip | src/types.rs:14-88 | every content block, of every kind, decodes back from its tagged encoding |
| TypesCodec.ContentBlocksRoundTrip | src/types.rs:14-88 | every list of content blocks decodes back from its encoding |
| TypesCodec.UsageRoundTrip | src/types.rs:295-306 | every usage record decodes back from its encoding |
| TypesCodec.DecodeResponseFields | src/types.rs:539-560 | an object holding the fields of some response decodes to exactly that response |
| TypesCodec.MessagesResponseRoundTrip | src/types.rs:539-560 | every response decodes back from its encoding, the absent stop fields left out |
| Streaming.DeltaText | src/streaming.rs:77-82 | present exactly for a text delta, and then it is that delta's text |
| Streaming.DeltaPartialJson | src/streaming.rs:85-90 | present exactly for an input-JSON delta, and then it is that delta's partial JSON |
| Streaming.AccessorsExclusive | src/streaming.rs:167-179 | exactly one of the two delta accessors gives a value for any delta |
| Streaming.DecodeContentDelta | src/streaming.rs:64-73 | a decoded delta came from an object whose `type` names its variant |
| Streaming.ContentDeltaRoundTrip | src/streaming.rs:64-73 | every delta decodes back from its tagged encoding |
| Streaming.ContentDeltaClosed | src/streaming.rs:64-73 | any delta `type` other than the two known ones is a decode failure |
| Streaming.DecodeStreamError | src/streaming.rs:103-110 | decoding succeeds exactly on an object with string `type` and `message`, which become the error's type and message |
| Streaming.StreamErrorRoundTrip | src/streaming.rs:103-110 | every stream error decodes back from its encoding |
| Streaming.DecodeMessageMetadata | src/streaming.rs:41-62 | the id and role come from the object; a missing `content` is empty and a missing or null stop reason or sequence is absent |
| Streaming.DecodeStreamEvent | src/streaming.rs:8-39 | a decoded event came from an object whose `type` is that event's snake_case tag |
| Streaming.DecodeMetadataFields | src/streaming.rs:41-62 | an object holding the fields of some message metadata decodes to exactly that metadata |
| Streaming.MessageMetadataRoundTrip | src/streaming.rs:41-62 | every message metadata decodes back from its encoding, the absent stop fields left out |
| Streaming.MessageDeltaRoundTrip | src/streaming.rs:93-101 | every message delta decodes back from its encoding, the absent stop fields left out |
| Streaming.MessageStartRoundTrip | src/streaming.rs:12-13 | a `message_start` event decodes back with its metadata |
| Streaming.ContentBlockStartRoundTrip | src/streaming.rs:15-19 | a `content_block_start` event decodes back with its index and block |
| Streaming.ContentBlockDeltaRoundTrip | src/streaming.rs:21-22 | a `content_block_delta` event decodes back with its index and delta |
| Streaming.MessageDeltaEventRoundTrip | src/streaming.rs:27-28 | a `message_delta` event decodes back with its delta and usage |
| Streaming.ErrorEventRoundTrip | src/streaming.rs:36-37 | an `error` event decodes back with its error |
| Streaming.StreamEventRoundTrip | src/streaming.rs:8-38 | every stream event decodes back from the `type`-tagged object serde writes for it |
| Streaming.DecodeTextDeltaExample | src/streaming.rs:146-164 | a `content_block_delta` at index 0 with text delta "Hello" decodes to that event |
| Streaming.DecodeMetadataExample | src/streaming.rs:117-143 | message metadata shaped like the test's, with any id, model and token counts, decodes to exactly that metadata: assistant role, empty content, no stop reason or sequence |
| Streaming.DecodeMessageStartExample | src/streaming.rs:117-143 | the test's `message_start` event decodes to a `MessageStart` carrying that metadata |
| Streaming.UsageNeedsInputTokens | src/types.rs:295-306 | usage without `input_tokens` does not decode |
| Client.ParseRetryAfter | src/client.rs:287-292 | no header gives no delay; a header holding the decimal form of a `u64` gives that number; any delay comes from a header that is an optionally `+`-signed run of digits, and is their value |
| Base.ParseU64 | src/client.rs:292 | `str::parse::<u64>`: text that is an optionally `+`-signed, non-empty run of digits with a value below 2^64 parses to that value, and nothing else parses |
| Base.ParseDecimalRoundTrip | src/client.rs:292 | the decimal rendering of every `u64` parses back to it |
| Base.ParseRejectsNonDigit | src/client.rs:292 | text with a character that is neither a digit nor a leading `+` does not parse |
| Client.RetryAfterRejectsNonNumeric | src/client.rs:292 | a header with a character that is neither a digit nor a leading `+`, such as an HTTP date, gives no delay |
| Client.HandleErrorResponse | src/client.rs:281-332 | 429 is a rate limit carrying the parsed delay; 401 and 403 are authentication errors; 400 is a typed API error or an invalid request; 5xx is a server error; any other status is an untyped API error |
| Client.BadRequestClassification | src/client.rs:304-315 | a 400 body that decodes as an API error gives a typed API error with its message, and any other body is an invalid request carrying the body |
| Client.SendMessageOutcome | src/client.rs:103-158 | only status 200 can succeed; a 200 succeeds exactly when its body parses and decodes as a response, and then gives that response; a 200 whose body does not decode is an `Http` error |
| Client.SendPathsAgree | src/client.rs:106-158 | the unary call classifies every non-200 status the way the streaming call's error helper does |
| Client.DecodeMessage | src/client.rs:239-257 | a `ping` frame is a ping whatever its data; an `error` frame is an error event or a parse failure; any other frame is the event its payload's `type` selects |
| Client.Dispatch | src/client.rs:234-260 | an open item yields nothing; a frame is decoded by its event name; a transport error fails with a stream parse error; every failure is a stream parse error |
| Client.StreamErrorsAreParse | src/client.rs:243-259 | every error the source's event stream yields is a stream parse error |
| Client.EventStreamStep | src/client.rs:230-275 | a non-failing item contributes its events and decoding carries on; a failing item ends the stream with its error |
| Client.EmptySourceEndsCleanly | src/client.rs:260-272 | an exhausted source ends the event stream with no error |
| Client.OpenYieldsNothing | src/client.rs:235-238 | an open item yields no event and decoding continues with the next item |
| Client.PingYieldsPing | src/client.rs:242 | a ping frame yields exactly one ping event, then decoding continues |
| Client.TransportErrorEndsStream | src/client.rs:259 | a transport error ends the stream with a parse failure and nothing after it |
| Client.EventStreamAppend | src/client.rs:264-275 | decoding a sequence whose prefix cannot fail is decoding the prefix, then the rest |
| Client.FirstFailure | src/client.rs:244-259 | the position of the first failing item; every item before it decodes |
| Client.EventStreamShape | src/client.rs:230-275 | the stream is the events of the items before the first failure, in order, followed by that failure if there is one |
| Client.EventStreamFailsOnlyAtEnd | src/client.rs:244-259 | an error can only be the last element of the event stream |
| Client.DrainStream | src/client.rs:264-275 | reading the stream to its end gives its events in order and, at most once, a trailing failure, for any per-item step |
| Client.SendStreaming | src/client.rs:197-279 | a success status gives the event stream; any other status gives the classified error |
| Batch.DecodeStatus | src/batch.rs:102-108 | a decoded status is one whose snake_case name is the input |
| Batch.StatusRoundTrip | src/batch.rs:455-464 | every status decodes back from its name; `InProgress` is "in_progress" and `Ended` is "ended" |
| Batch.DecodeMessageBatch | src/batch.rs:77-99 | a decoded batch came from an object with a processing status; a missing or null results URL is absent |
| Batch.DecodeBatchResultType | src/batch.rs:127-135 | a decoded result kind came from an object whose lowercase `type` names it |
| Batch.DecodeBatchResult | src/batch.rs:120-124 | a result decodes exactly when it has a string custom id and a `result` that decodes, and then carries both |
| Batch.BatchResultTypeRoundTrip | src/batch.rs:127-135 | every result kind, succeeded, errored, canceled and expired, decodes back from its tagged encoding |
| Batch.BatchResultRoundTrip | src/batch.rs:120-135 | every batch result decodes back from its encoding |
| Batch.BatchResultTypeClosed | src/batch.rs:127-135 | a result whose `type` names none of the four kinds never decodes |
| Batch.ErroredResultRoundTrip | src/batch.rs:127-143 | an errored result decodes with its error's type and message |
| Batch.BatchStatusError | src/batch.rs:229-236 | a non-success batch call is an untyped API error with the status and body, which is not retryable |
| Batch.FirstStop | src/batch.rs:331-336 | the position of the first poll answer that is a failure or an ended batch; every answer before it is a batch still processing |
| Batch.WaitForCompletion | src/batch.rs:328-345 | the wait returns only an ended batch, one the polls produced; its answer is exactly the first poll that failed or ended; it runs on exactly when no poll failed or ended |
| Batch.ResultsUrl | src/batch.rs:378-380 | a batch without a results URL is refused with "Batch has no results yet"; otherwise the URL is used |
| Batch.TrimStart | src/batch.rs:419 | removes a white-space prefix, and what remains does not start with white space |
| Batch.TrimEnd | src/batch.rs:419 | removes a white-space suffix, and what remains does not end with white space |
| Batch.Trim | src/batch.rs:419 | the trimmed line is an infix of the line with only white space before and after it; it is empty exactly when the line is all white space, and otherwise starts and ends with a non-space |
| Batch.TrimIsInfix | src/batch.rs:419 | trimming the start and then the end leaves the part of the line between a white-space prefix and a white-space suffix |
| Batch.Find | src/batch.rs:417 | the first newline position, or the length when there is none |
| Batch.FindIsFirst | src/batch.rs:417 | no newline comes before the found position |
| Batch.FindAppend | src/batch.rs:417 | searching a concatenation finds the first part's newline, or else searches on into the second part |
| Batch.Tail | src/batch.rs:417-426 | what the inner loop leaves in the buffer has no newline |
| Batch.LinesAreLines | src/batch.rs:417-418 | every cut line ends in its only newline |
| Batch.LinesTailJoin | src/batch.rs:414-426 | the cut lines followed by the left-over bytes are exactly the buffer |
| Batch.LinesAppend | src/batch.rs:414-426 | cutting two pieces of bytes equals cutting the first, then its left-over followed by the second |
| Batch.DecodeLine | src/batch.rs:419-423 | a line yields nothing exactly when it is blank after lossy decoding and trimming; otherwise it yields its parse as a batch result, a `Json` error on failure |
| Batch.DecodeLinesAppend | src/batch.rs:417-426 | decoding two runs of lines is decoding the first and, unless it failed, the second |
| Batch.SegmentsAppend | src/batch.rs:410-438 | the lines a body is cut into split at any buffer boundary |
| Batch.ChunkInvariance | src/batch.rs:410-438 | without transport failures the results depend only on the concatenated bytes, not on where the chunks break |
| Batch.SameBodySameResults | src/batch.rs:410-438 | two chunkings of the same bytes give the same results |
| Batch.ChunkFailure | src/batch.rs:413 | a transport failure ends the stream with a `Network` error after the results of the complete lines before it, and the unterminated bytes are dropped |
| Batch.DecodeLinesFailsOnlyAtEnd | src/batch.rs:422-423 | the first line that fails to parse ends the run, and a run that did not stop has no failure |
| Batch.ResultsFailOnlyAtEnd | src/batch.rs:422-434 | nothing is yielded after an error |
| Batch.BlankLinesYieldNothing | src/batch.rs:419-421 | a body made only of blank lines yields no result |
| Batch.DrainLines | src/batch.rs:417-426 | the inner loop decodes every complete line in the buffer and leaves a newline-free tail |
| Batch.ChunkStreamCons | src/batch.rs:412-426 | a transport failure as the next chunk ends the stream with a `Network` error; a chunk of bytes cuts the complete lines of the grown buffer and resumes with the rest |
| Batch.ReadResults | src/batch.rs:406-438 | the loop over chunks with its growing buffer and final flush yields exactly the chunked reader's results, for any per-line step |
| Retry.MinDuration | src/retry.rs:75-79 | the smaller of the two durations, which is one of them |
| Retry.DefaultConfig | src/retry.rs:30-46 | three attempts, 500 ms initial backoff, 60 s maximum backoff, multiplier 2.0, and retry-after respected |
| Retry.WithMaxAttempts | src/retry.rs:49-52 | sets the attempt limit and leaves every other setting |
| Retry.WithInitialBackoff | src/retry.rs:55-58 | sets the initial backoff and leaves every other setting |
| Retry.WithMaxBackoff | src/retry.rs:61-64 | sets the maximum backoff and leaves every other setting |
| Retry.WithBackoffMultiplier | src/retry.rs:67-70 | sets the multiplier and leaves every other setting |
| Retry.BuilderChainExample | src/retry.rs:173-182 | chained builders each land in their own field and the others keep their defaults |
| Retry.CalculateBackoff | src/retry.rs:73-86 | with retry-after respected and a server delay, the wait is that delay capped at the maximum backoff; otherwise it is the exponential delay for the attempt index |
| Retry.RetryAfterIgnoresAttempt | src/retry.rs:75-79 | a server-requested delay does not depend on the attempt number |
| Retry.RetryAfterExample | src/retry.rs:201-207 | a 10 s request under the defaults is honoured as is |
| Retry.CallLimit | src/retry.rs:111-139 | the most calls made: the attempt limit, and never fewer than one |
| Retry.RetryWithBackoff | src/retry.rs:106-154 | at least one and at most the limit of calls; the result is the last call's outcome; the loop stops at the first success, non-retryable error or exhausted limit; the delay after the n-th failure uses index n-1 |
| Retry.SucceedsAfterFailures | src/retry.rs:118-124 | a success after retryable failures is returned by exactly the call that produced it |
| Retry.NonRetryableStops | src/retry.rs:127-130 | a non-retryable first error is returned after one call |
| Retry.ExhaustsAttempts | src/retry.rs:133-139 | when every call fails retryably, the loop makes exactly the limit of calls |
| Models.Prefix | src/models.rs:101-109 | only the standard region has no prefix; every other prefix ends in a dot |
| Models.PrefixInjective | src/models.rs:101-109 | different regions have different prefixes |
| Models.BedrockIdForRegion | src/models.rs:142-151 | absent exactly when the model has no Bedrock id; otherwise the region's prefix followed by that id, and the id itself for the standard region |
| Models.MaxExtendedContext | src/models.rs:169-186 | present exactly when the model supports extended context, and then it is the extended window |
| Models.ValidateRequest | src/models.rs:193-213 | fails exactly when the output limit is exceeded or unsupported extended context is asked for, reporting the output limit first |
| Models.FirstWhere | src/models.rs:458-503 | the first position satisfying the predicate, with none before it |
| Models.Find | src/models.rs:458-503 | a found model is in the catalogue and satisfies the predicate; nothing is found exactly when no model does |
| Models.ByAnthropicId | src/models.rs:458-460 | a found model has that Anthropic id; nothing is found exactly when no model has it |
| Models.StripPrefix | src/models.rs:480-484 | succeeds exactly when the prefix is a prefix, giving the rest |
| Models.BaseBedrockId | src/models.rs:480-485 | the id itself, or the id with one of global., us., eu., ap. removed; an id with none of these keeps itself |
| Models.ByBedrockId | src/models.rs:470-491 | a found model has the id as its regional or global Bedrock id, or as its regional id under one prefix; an exact match always wins; with no exact match, a model is found exactly when some regional id equals the prefix-stripped id |
| Models.ByVertexId | src/models.rs:494-496 | a found model has that Vertex id; nothing is found exactly when no model has it |
| Models.GetModel | src/models.rs:499-503 | the Anthropic lookup, else the Bedrock lookup, else the Vertex lookup |
| Models.AnthropicIdRoundTrip | src/models.rs:527-531 | with unique Anthropic ids, looking up a model's Anthropic id finds that model |
| Models.BaseOfRegional | src/models.rs:480-485 | stripping a region's prefix from a prefixed unprefixed id gives back the id |
| Models.ExactHitIsOwn | src/models.rs:471-477 | in a well-formed catalogue, a model whose regional or global id equals a model's regional id under a region prefix is that model |
| Models.BedrockRoundTrip | src/models.rs:533-566 | in a well-formed catalogue, looking up a model's Bedrock id for any region finds that model |
| Models.DerivedIdsWellFormed | src/models.rs:232-455 | a catalogue whose Bedrock ids derive from distinct Anthropic ids is well formed for the Bedrock lookup |
| Models.AllModelsAnthropicIdsUnique | src/models.rs:663-668 | the shipped catalogue's Anthropic ids are distinct |
| Models.AllModelsIdsDerived | src/models.rs:232-455 | every shipped model's Bedrock ids have the derived shape |
| Models.CatalogueRoundTrip | src/models.rs:458-503 | in a catalogue with unique Anthropic ids and Bedrock ids derived from them, every model is found by its Anthropic id and by its Bedrock id for every region, directly and through `get_model` |
| Models.AllModelsRoundTrip | src/models.rs:527-615 | every shipped model is found by its Anthropic id and by its Bedrock id for every region, directly and through `get_model` |
| Models.CatalogueExamples | src/models.rs:569-626 | the regional and global ids of Claude Sonnet 4.5 and the four `validate_request` test cases |
| Conversation.New | src/conversation.rs:39-45 | no messages, no tools and no system prompt |
| Conversation.WithSystem | src/conversation.rs:57-60 | the system prompt becomes the given string; messages and tools are unchanged |
| Conversation.WithCachedSystem | src/conversation.rs:74-81 | the system prompt becomes one "text" block with ephemeral caching |
| Conversation.WithTool | src/conversation.rs:108-111 | appends exactly that tool |
| Conversation.WithTools | src/conversation.rs:114-117 | appends the tools in the given order |
| Conversation.WithCachedTool | src/conversation.rs:122-126 | appends the tool with its cache control forced to ephemeral and every other field kept |
| Conversation.WithToolsIsRepeatedWithTool | src/conversation.rs:108-117 | adding a list of tools is adding them one at a time |
| Conversation.AddUserMessage | src/conversation.rs:138-141 | appends exactly one plain user message; everything else is unchanged |
| Conversation.AddAssistantMessage | src/conversation.rs:146-149 | appends exactly one plain assistant message; everything else is unchanged |
| Conversation.AddAssistantWithBlocks | src/conversation.rs:154-160 | appends exactly one assistant message holding the given blocks |
| Conversation.AddToolResult | src/conversation.rs:172-180 | appends exactly one user message with one successful tool result |
| Conversation.AddToolError | src/conversation.rs:183-197 | appends exactly one user message with one tool result flagged as an error |
| Conversation.ToolErrorDiffersOnlyInFlag | src/conversation.rs:172-197 | a tool error and a tool result for the same call differ only in the error flag |
| Conversation.ClearMessages | src/conversation.rs:215-218 | empties the history and keeps tools and system prompt |
| Conversation.Build | src/conversation.rs:234-246 | the request copies messages and system prompt, has tools exactly when there are some, and sets nothing else |
| Conversation.IntoRequest | src/conversation.rs:249-251 | the same request `build` gives |
| Conversation.BuildAfterAdd | src/conversation.rs:138-246 | adding a message to the builder adds exactly that message to the built request |
| Conversation.BuildAfterClear | src/conversation.rs:215-246 | building after clearing gives the same request without its history |
| Conversation.BasicConversationExample | src/conversation.rs:266-275 | three added messages alternate user, assistant, user |
| Tokens.CountContentBlock | src/tokens.rs:70-96 | a text block costs 2 plus its text; a tool use costs 4 plus name and rendered input; a tool result costs 4 plus id and content when present |
| Tokens.AbsentContentIsEmpty | src/tokens.rs:82-94 | a tool result without content costs what one with empty content costs |
| Tokens.CountBlocks | src/tokens.rs:55-67 | the sum of the block counts, at least 2 per block |
| Tokens.CountBlocksAppend | src/tokens.rs:55-67 | the count of two block lists together is the sum of their counts |
| Tokens.CountMessage | src/tokens.rs:55-67 | a message costs 4 plus its blocks |
| Tokens.PlainMessageCount | src/tokens.rs:255-263 | a one-line user or assistant message costs 6 plus its text |
| Tokens.CountMessagesAppend | src/tokens.rs:141-165 | the count of two message lists together is the sum of their counts |
| Tokens.CountSystemPrompt | src/tokens.rs:99-107 | a string prompt costs its text; a block prompt costs the sum of its block texts |
| Tokens.CachedSystemCostsTheSame | src/tokens.rs:99-107 | one cached block costs what the same prompt costs as a string |
| Tokens.CountTool | src/tokens.rs:112-120 | a tool costs 10 plus its name, description and rendered schema |
| Tokens.CountRequest | src/tokens.rs:141-165 | at least 10 plus 4 per message, at least 10 per tool, and exactly 10 plus the messages when there is no system prompt or tool list |
| Tokens.CountRequestAddMessage | src/tokens.rs:141-165 | appending a message adds exactly that message's count |
| Tokens.CountRequestAddSystem | src/tokens.rs:144-147 | giving a request without a system prompt a string prompt adds exactly the prompt's text count |
| Tokens.CountRequestAddTools | src/tokens.rs:154-159 | giving a request without tools a tool list adds exactly the tools' counts |
| Tokens.ContextLimit | src/tokens.rs:200-206 | the extended window when asked for and available, else the standard one |
| Tokens.ValidateContextWindow | src/tokens.rs:190-221 | passes exactly when input plus output tokens fit the limit; otherwise reports the totals, model name and limit |
| Tokens.ExtendedNeverStricter | src/tokens.rs:333-358 | asking for extended context never turns a passing request into a failing one |
| Tokens.NoExtendedSameCheck | src/tokens.rs:200-206 | for a model without extended context the flag does not matter |
| Structured.JsonSchemaTool | src/structured.rs:36-48 | keeps name, description and schema; user input disabled; no examples or cache control |
| Structured.ForceTool | src/structured.rs:76-79 | the choice naming exactly that tool |
| Structured.ForcedToolIsOffered | src/structured.rs:86-111 | a request offering the schema tool and forcing it names an offered tool and keeps its other fields |
| Prompts.WithParallelTools | src/prompts.rs:101-103 | the base prompt, a blank line, then the parallel-tool-use guidance, with the matching length |
| Prompts.CombinedMentionsTag | src/prompts.rs:117-122 | the combined prompt names the `use_parallel_tool_calls` tag right after the base prompt |
| Prompts.WithParallelToolsInjective | src/prompts.rs:101-103 | different base prompts give different combined prompts |

## Left out

- HTTP I/O is not modelled: building and sending requests, headers and body
  reads. Status, the `retry-after` header and body text are inputs. The
  batch `create`, `list` and `cancel` calls are left out for the same
  reason: each is a request followed by the same status check that
  `Batch.BatchStatusError` states.
- `src/files.rs`, the REPL and changelog binaries and the examples are not
  part of this model.
- Server-sent-event framing (`eventsource_stream`) is replaced by a sequence
  of items: open, message, transport error. The end of the sequence is the
  end of the source.
- JSON text parsing (`serde_json::from_str`) is a parameter. The error
  texts of serde are abstract strings. A `StreamParse` message keeps the
  source's wording around them and the frame name.
- The serde array form of structs and duplicate object keys are not modelled.
  JSON objects are maps.
- `String::from_utf8_lossy` is a parameter of the batch reader.
- Async streams, `try_unfold`, pinning, `tokio::time::sleep` and logging are
  not modelled. Streams are sequences and the loops run over given inputs.
- Batch.WaitForCompletion: it runs over a finite sequence of poll answers and
  answers "still waiting" when they run out. The source loops for as long as
  the server says the batch is not ended.
- Retry.CalculateBackoff: the exponential branch computes in `f64` in the
  source. The model returns the attempt index the delay is computed from,
  not the delay itself.
- Retry.RetryWithBackoff: the operation is a given sequence of outcomes.
  Sleeping is reported as the list of delays.
- Floating point is not modelled: `estimate_cost` and the price fields of
  models, the backoff multiplier, and temperature and `top_p`. The
  multiplier and temperature are kept as bit patterns.
- The BPE tokenizer and `serde_json::Value::to_string` are parameters of the
  token counter.
- The results reader of `src/batch.rs` (lines 406-438) uses `?` inside
  `async_stream::stream!`, which does not accept it, so the code does not
  compile as written. The model reads it as `try_stream!` does: the error
  is yielded as the stream's last item and the stream ends.
- `count_content_block` in `src/tokens.rs` (lines 70-95) matches only three
  of the eight content block kinds and has no catch-all arm, so it does not
  compile as written. The model counts those three kinds and leaves the
  others undefined; see the next line.
- Tokens.CountContentBlock: it requires a text, tool-use or tool-result
  block, because the source's match covers only those three of the content
  block kinds.
- Token counts and limits are unbounded naturals; `usize` overflow is not
  modelled.
- The accessors `messages()`, `tools()`, `system()`, `anthropic_id()`,
  `bedrock_id()`, `bedrock_global_id()` and `vertex_id()` are plain field
  reads of the datatypes.
- The lookups take the catalogue as a parameter. The source fixes it to
  `ALL_MODELS`, and the `AllModels` lemmas state the facts for that
  catalogue.
- The other fixed system-prompt constants of `src/prompts.rs` are plain
  text that no operation inspects.
- `build` leaving the builder unchanged holds by construction, because the
  builder is a value.
