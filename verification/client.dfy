/** The decision logic of the Messages client (src/client.rs): classifying
    an unsuccessful HTTP status, and turning the server-sent-event items of
    a streamed response into the caller's event stream.

    The HTTP exchange itself is not modelled: the status code, the
    `retry-after` header and the body text are inputs. The splitting of the
    byte stream into SSE items is done by the `eventsource_stream` crate and
    is not modelled either: its output is the input sequence of `SseItem`s,
    and the end of that sequence is the end of the byte stream. */
module Client {
  import opened Base
  import opened Json
  import opened Errors
  import opened Types
  import opened TypesCodec
  import opened Streaming

  /** An HTTP status code as `reqwest::StatusCode` holds it. */
  type StatusCode = x: int | 100 <= x < 1000 witness 200

  predicate IsSuccess(status: StatusCode) { 200 <= status < 300 }

  predicate IsServerError(status: StatusCode) { 500 <= status < 600 }

  /** The `retry-after` value: the header, if present and readable as text, parsed as `u64`. */
  function ParseRetryAfter(header: Option<string>): (r: Option<u64>)
    ensures header.None? ==> r.None?
    ensures forall n: u64 :: header == Some(Decimal(n)) ==> r == Some(n)
    ensures r.Some? ==> header.Some? && var s := header.value;
      var d := if |s| > 0 && s[0] == '+' then s[1..] else s;
      |d| > 0 && AllDigits(d) && r.value == DigitsValue(d)
  {
    if header.None? then None else ParseU64(header.value)
  }

  /** A header that is not an optionally `+`-signed run of digits, such as
      an HTTP date, gives no delay. */
  lemma RetryAfterRejectsNonNumeric(h: string, k: nat)
    requires k < |h| && !IsDigit(h[k]) && !(k == 0 && h[k] == '+')
    ensures ParseRetryAfter(Some(h)) == None
  {
    ParseRejectsNonDigit(h, k);
  }

  /** `handle_error_response`: the error reported for an unsuccessful status.
      `body` is the response text (empty if it could not be read). */
  function HandleErrorResponse(parse: Parser, status: StatusCode, retryAfter: Option<string>, body: string): (e: Error)
    ensures status == 429 ==> e == RateLimit(ParseRetryAfter(retryAfter), body)
    ensures status == 401 || status == 403 ==> e == Authentication(body)
    ensures status == 400 ==> (e.Api? || e.InvalidRequest?)
    ensures status == 400 && e.InvalidRequest? ==> e.message == body
    ensures status == 400 && e.Api? ==>
      && parse(body).Some?
      && DecodeApiErrorResponse(parse(body).value).Ok?
      && var resp := DecodeApiErrorResponse(parse(body).value).value;
      e == Api(400, resp.error.message, Some(resp.error.errorType))
    ensures IsServerError(status) ==> e == Server(status, body)
    ensures status !in {400, 401, 403, 429} && !IsServerError(status) ==> e == Api(status, body, None)
  {
    if status == 429 then RateLimit(ParseRetryAfter(retryAfter), body)
    else if status == 401 || status == 403 then Authentication(body)
    else if status == 400 then
      var parsed := if parse(body).Some? then DecodeApiErrorResponse(parse(body).value) else Err("invalid JSON");
      if parsed.Ok? then Api(400, parsed.value.error.message, Some(parsed.value.error.errorType))
      else InvalidRequest(body)
    else if IsServerError(status) then Server(status, body)
    else Api(status, body, None)
  }

  /** A 400 body that is a well-formed API error is reported as `Api` with the
      nested error's type; any other 400 body is reported verbatim. */
  lemma BadRequestClassification(parse: Parser, retryAfter: Option<string>, body: string)
    ensures var e := HandleErrorResponse(parse, 400, retryAfter, body);
      e.Api? <==> parse(body).Some? && DecodeApiErrorResponse(parse(body).value).Ok?
  {
  }

  /** `send_message`'s handling of the response: 200 decodes the body (a
      decoding failure is a `reqwest` error), anything else is an error. */
  function SendMessageOutcome(parse: Parser, status: StatusCode, retryAfter: Option<string>, body: string)
    : (r: Result<MessagesResponse, Error>)
    ensures r.Ok? ==> status == 200
    ensures status == 200 ==>
      (r.Ok? <==> parse(body).Some? && DecodeMessagesResponse(parse(body).value).Ok?)
    ensures r.Ok? ==> r.value == DecodeMessagesResponse(parse(body).value).value
    ensures status == 200 && r.Err? ==> r.error.Http?
  {
    if status == 200 then
      if parse(body).None? then Err(Http("error decoding response body"))
      else match DecodeMessagesResponse(parse(body).value)
        case Ok(resp) => Ok(resp)
        case Err(m) => Err(Http("error decoding response body: " + m))
    else if status == 429 then Err(RateLimit(ParseRetryAfter(retryAfter), body))
    else if status == 401 || status == 403 then Err(Authentication(body))
    else if status == 400 then
      var parsed := if parse(body).Some? then DecodeApiErrorResponse(parse(body).value) else Err("invalid JSON");
      if parsed.Ok? then Err(Api(400, parsed.value.error.message, Some(parsed.value.error.errorType)))
      else Err(InvalidRequest(body))
    else if IsServerError(status) then Err(Server(status, body))
    else Err(Api(status, body, None))
  }

  /** The non-streaming and the streaming paths classify every status other
      than 200 the same way; they differ only on 201..299, which the
      streaming path accepts. */
  lemma SendPathsAgree(parse: Parser, status: StatusCode, retryAfter: Option<string>, body: string)
    requires status != 200
    ensures SendMessageOutcome(parse, status, retryAfter, body) == Err(HandleErrorResponse(parse, status, retryAfter, body))
  {
  }

  // ---- Streaming ----

  /** One item produced by the SSE framing layer. */
  datatype SseItem =
    | Open
    | Frame(event: string, data: string)
    | TransportError(cause: string)

  /** The per-message dispatch on the SSE event name. */
  function DecodeMessage(parse: Parser, name: string, data: string): (r: Result<Option<StreamEvent>, Error>)
    ensures name == "ping" ==> r == Ok(Some(Ping))
    ensures name == "error" ==>
      match ParseWith(parse, data, DecodeStreamError)
      case Ok(e) => r == Ok(Some(ErrorEvent(e)))
      case Err(m) => r == Err(StreamParse(m))
    ensures name != "ping" && name != "error" ==>
      match ParseWith(parse, data, DecodeStreamEvent)
      case Ok(e) => r == Ok(Some(e))
      case Err(m) => r == Err(StreamParse("Failed to parse event " + name + ": " + m))
    ensures r.Ok? ==> r.value.Some?
  {
    if name == "ping" then Ok(Some(Ping))
    else if name == "error" then
      match ParseWith(parse, data, DecodeStreamError)
      case Ok(e) => Ok(Some(ErrorEvent(e)))
      case Err(m) => Err(StreamParse(m))
    else
      match ParseWith(parse, data, DecodeStreamEvent)
      case Ok(e) => Ok(Some(e))
      case Err(m) => Err(StreamParse("Failed to parse event " + name + ": " + m))
  }

  /** What the first stage makes of one item: nothing for the open marker,
      the dispatch for a message, and a parse failure for a transport
      error. */
  function Dispatch(parse: Parser, item: SseItem): (r: Result<Option<StreamEvent>, Error>)
    ensures item.Open? ==> r == Ok(None)
    ensures item.TransportError? ==> r == Err(StreamParse(item.cause))
    ensures item.Frame? ==> r == DecodeMessage(parse, item.event, item.data)
    ensures r.Err? ==> r.error.StreamParse?
  {
    match item
    case Open => Ok(None)
    case Frame(name, data) => DecodeMessage(parse, name, data)
    case TransportError(cause) => Err(StreamParse(cause))
  }

  /** A per-item step of the first stage. The stream lemmas below hold for
      any step; the client's step is `ItemStep(parse)`. */
  type ItemDecoder = SseItem -> Result<Option<StreamEvent>, Error>

  /** The client's step. */
  function ItemStep(parse: Parser): ItemDecoder
  {
    item => Dispatch(parse, item)
  }

  /** The first stage: one result per item, stopping right after the first
      failure. */
  function RawEvents(dec: ItemDecoder, items: seq<SseItem>): (raw: seq<Result<Option<StreamEvent>, Error>>)
    ensures |raw| <= |items|
    ensures forall i :: 0 <= i < |raw| - 1 ==> raw[i].Ok?
  {
    if items == [] then []
    else
      var r := dec(items[0]);
      if r.Err? then [r] else [r] + RawEvents(dec, items[1..])
  }

  /** The second stage: drop the `None` results, pass events and the
      terminating failure through. */
  function Flatten(raw: seq<Result<Option<StreamEvent>, Error>>): (out: seq<Result<StreamEvent, Error>>)
    ensures |out| <= |raw|
  {
    if raw == [] then []
    else
      match raw[0]
      case Ok(None) => Flatten(raw[1..])
      case Ok(Some(e)) => [Ok(e)] + Flatten(raw[1..])
      case Err(err) => [Err(err)]
  }

  /** The stream `send_streaming` returns once the response is successful. */
  function EventStream(dec: ItemDecoder, items: seq<SseItem>): seq<Result<StreamEvent, Error>>
  {
    Flatten(RawEvents(dec, items))
  }

  /** Does an item end the stream with an error? */
  predicate Fails(dec: ItemDecoder, item: SseItem)
  {
    dec(item).Err?
  }

  /** The events an item that does not fail contributes: none or one. */
  function ItemEvents(dec: ItemDecoder, item: SseItem): (r: seq<StreamEvent>)
    requires !Fails(dec, item)
    ensures r == [] <==> dec(item) == Ok(None)
    ensures r != [] ==> r == [dec(item).value.value]
  {
    match dec(item).value
    case None => []
    case Some(e) => [e]
  }

  /** The error a failing item ends the stream with. */
  function ItemError(dec: ItemDecoder, item: SseItem): (e: Error)
    requires Fails(dec, item)
    ensures dec(item) == Err(e)
  {
    dec(item).error
  }

  function Oks(es: seq<StreamEvent>): (r: seq<Result<StreamEvent, Error>>)
    ensures |r| == |es|
    ensures forall i :: 0 <= i < |es| ==> r[i] == Ok(es[i])
  {
    seq(|es|, i requires 0 <= i < |es| => Ok(es[i]))
  }

  lemma OksAppend(a: seq<StreamEvent>, b: seq<StreamEvent>)
    ensures Oks(a + b) == Oks(a) + Oks(b)
  {
  }

  /** The stream is built item by item: an item that does not fail
      contributes its events in place and decoding continues with the next
      item; a failing item ends the stream with its error, and nothing of
      what follows it is read. */
  lemma {:induction false} EventStreamStep(dec: ItemDecoder, item: SseItem, rest: seq<SseItem>)
    ensures !Fails(dec, item) ==>
      EventStream(dec, [item] + rest) == Oks(ItemEvents(dec, item)) + EventStream(dec, rest)
    ensures Fails(dec, item) ==>
      EventStream(dec, [item] + rest) == [Err(ItemError(dec, item))]
  {
    var items := [item] + rest;
    assert items[0] == item && items[1..] == rest;
  }

  /** Exhausting the source ends the stream without an error. */
  lemma EmptySourceEndsCleanly(dec: ItemDecoder)
    ensures EventStream(dec, []) == []
  {
  }

  /** An open marker yields nothing; decoding continues with the next item. */
  lemma OpenYieldsNothing(parse: Parser, rest: seq<SseItem>)
    ensures EventStream(ItemStep(parse), [Open] + rest) == EventStream(ItemStep(parse), rest)
  {
    EventStreamStep(ItemStep(parse), Open, rest);
  }

  /** A `ping` message yields exactly `Ping`, whatever its data. */
  lemma PingYieldsPing(parse: Parser, data: string, rest: seq<SseItem>)
    ensures EventStream(ItemStep(parse), [Frame("ping", data)] + rest) == [Ok(Ping)] + EventStream(ItemStep(parse), rest)
  {
    EventStreamStep(ItemStep(parse), Frame("ping", data), rest);
  }

  /** A transport failure ends the stream with `StreamParse`; nothing follows. */
  lemma TransportErrorEndsStream(parse: Parser, cause: string, rest: seq<SseItem>)
    ensures EventStream(ItemStep(parse), [TransportError(cause)] + rest) == [Err(StreamParse(cause))]
  {
    EventStreamStep(ItemStep(parse), TransportError(cause), rest);
  }

  /** Streams compose: decoding a prefix that does not fail and then the
      rest yields the prefix's events followed by the rest's. */
  lemma {:induction false} EventStreamAppend(dec: ItemDecoder, a: seq<SseItem>, b: seq<SseItem>)
    requires forall i :: 0 <= i < |a| ==> !Fails(dec, a[i])
    ensures EventStream(dec, a + b) == EventStream(dec, a) + EventStream(dec, b)
  {
    if a == [] {
      assert a + b == b;
    } else {
      assert !Fails(dec, a[0]);
      EventStreamAppend(dec, a[1..], b);
      assert a + b == [a[0]] + (a[1..] + b);
      assert a == [a[0]] + a[1..];
      EventStreamStep(dec, a[0], a[1..] + b);
      EventStreamStep(dec, a[0], a[1..]);
    }
  }

  /** The events contributed by a run of items none of which fails, in order. */
  function AllEvents(dec: ItemDecoder, items: seq<SseItem>): seq<StreamEvent>
    requires forall i :: 0 <= i < |items| ==> !Fails(dec, items[i])
  {
    if items == [] then [] else ItemEvents(dec, items[0]) + AllEvents(dec, items[1..])
  }

  /** Where the stream stops: the index of the first failing item, or the length. */
  function FirstFailure(dec: ItemDecoder, items: seq<SseItem>): (k: nat)
    ensures k <= |items|
    ensures forall i :: 0 <= i < k ==> !Fails(dec, items[i])
    ensures k < |items| ==> Fails(dec, items[k])
  {
    if items == [] then 0
    else if Fails(dec, items[0]) then 0
    else 1 + FirstFailure(dec, items[1..])
  }

  /** The whole stream in one statement: the events of every item before
      the first failure, in input order, then that failure's error if there
      is one. Only items that decode to no event are dropped. */
  lemma {:induction false} EventStreamShape(dec: ItemDecoder, items: seq<SseItem>)
    ensures var k := FirstFailure(dec, items);
      EventStream(dec, items) ==
        Oks(AllEvents(dec, items[..k])) + (if k < |items| then [Err(ItemError(dec, items[k]))] else [])
  {
    var k := FirstFailure(dec, items);
    if items == [] {
    } else {
      EventStreamStep(dec, items[0], items[1..]);
      assert items == [items[0]] + items[1..];
      if !Fails(dec, items[0]) {
        var k' := FirstFailure(dec, items[1..]);
        assert k == 1 + k';
        EventStreamShape(dec, items[1..]);
        assert items[..k][0] == items[0];
        assert items[..k][1..] == items[1..][..k'];
        assert AllEvents(dec, items[..k]) == ItemEvents(dec, items[0]) + AllEvents(dec, items[1..][..k']);
        OksAppend(ItemEvents(dec, items[0]), AllEvents(dec, items[1..][..k']));
      }
    }
  }

  /** The stream never yields anything after a failure. */
  lemma EventStreamFailsOnlyAtEnd(dec: ItemDecoder, items: seq<SseItem>)
    ensures FailsOnlyAtEnd(EventStream(dec, items))
  {
    EventStreamShape(dec, items);
  }

  /** The two stages collapsed into one pull loop over the items, as a
      single state machine: the events gathered so far and, once an item
      fails, the error that ends the stream. */
  method DrainStream(dec: ItemDecoder, items: seq<SseItem>) returns (events: seq<StreamEvent>, failure: Option<Error>)
    ensures EventStream(dec, items) == Oks(events) + (if failure.Some? then [Err(failure.value)] else [])
  {
    events := [];
    failure := None;
    var i := 0;
    while i < |items| && !Fails(dec, items[i])
      invariant 0 <= i <= |items|
      invariant forall j :: 0 <= j < i ==> !Fails(dec, items[j])
      invariant events == AllEvents(dec, items[..i])
    {
      AllEventsSnoc(dec, items[..i], items[i]);
      assert items[..i + 1] == items[..i] + [items[i]];
      events := events + ItemEvents(dec, items[i]);
      i := i + 1;
    }
    FirstFailureAt(dec, items, i);
    if i < |items| {
      failure := Some(ItemError(dec, items[i]));
    }
    EventStreamShape(dec, items);
  }

  /** Every error the client's stream ends with is a `StreamParse` error. */
  lemma StreamErrorsAreParse(parse: Parser, items: seq<SseItem>)
    ensures forall i :: 0 <= i < |EventStream(ItemStep(parse), items)| && EventStream(ItemStep(parse), items)[i].Err? ==>
      EventStream(ItemStep(parse), items)[i].error.StreamParse?
  {
    var dec := ItemStep(parse);
    EventStreamShape(dec, items);
    var k := FirstFailure(dec, items);
    if k < |items| {
      assert dec(items[k]) == Dispatch(parse, items[k]);
    }
  }

  lemma {:induction false} FirstFailureAt(dec: ItemDecoder, items: seq<SseItem>, i: nat)
    requires i <= |items|
    requires forall j :: 0 <= j < i ==> !Fails(dec, items[j])
    requires i < |items| ==> Fails(dec, items[i])
    ensures FirstFailure(dec, items) == i
  {
    if i > 0 {
      FirstFailureAt(dec, items[1..], i - 1);
    }
  }

  lemma {:induction false} AllEventsSnoc(dec: ItemDecoder, items: seq<SseItem>, item: SseItem)
    requires forall i :: 0 <= i < |items| ==> !Fails(dec, items[i])
    requires !Fails(dec, item)
    ensures AllEvents(dec, items + [item]) == AllEvents(dec, items) + ItemEvents(dec, item)
  {
    if items == [] {
      assert [item][1..] == [];
    } else {
      assert (items + [item])[1..] == items[1..] + [item];
      AllEventsSnoc(dec, items[1..], item);
    }
  }

  /** `send_streaming` after the request is sent: an unsuccessful status is
      classified as an error before any event is read; a successful one
      yields the event stream of the response body. */
  function SendStreaming(parse: Parser, status: StatusCode, retryAfter: Option<string>, body: string, items: seq<SseItem>)
    : (r: Result<seq<Result<StreamEvent, Error>>, Error>)
    ensures r.Ok? <==> IsSuccess(status)
    ensures r.Ok? ==> r.value == EventStream(ItemStep(parse), items)
    ensures r.Err? ==> r.error == HandleErrorResponse(parse, status, retryAfter, body)
  {
    if IsSuccess(status) then Ok(EventStream(ItemStep(parse), items))
    else Err(HandleErrorResponse(parse, status, retryAfter, body))
  }
}
