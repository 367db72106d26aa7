/** The Message Batches client (src/batch.rs): batch records and their JSON
    form, the polling loop's exit condition, and the JSONL reader that turns
    the chunked body of a results download into a stream of results.

    The HTTP exchanges are not modelled. The download arrives as a sequence
    of chunks, each either bytes or a transport failure; UTF-8 decoding with
    replacement (`String::from_utf8_lossy`) is a parameter of the reader. */
module Batch {
  import opened Base
  import opened Json
  import opened Errors
  import opened Types
  import opened TypesCodec

  type byte = x: int | 0 <= x < 256

  datatype BatchProcessingStatus = InProgress | Canceling | Ended

  datatype RequestCounts = RequestCounts(processing: u32, succeeded: u32, errored: u32, canceled: u32, expired: u32)

  /** Batch metadata as the API returns it. */
  datatype MessageBatch = MessageBatch(
    id: string,
    batchType: string,
    processingStatus: BatchProcessingStatus,
    requestCounts: RequestCounts,
    endedAt: Option<string>,
    createdAt: string,
    expiresAt: string,
    cancelInitiatedAt: Option<string>,
    resultsUrl: Option<string>)

  datatype BatchError = BatchError(errorType: string, message: string)

  /** The outcome of one request of a batch; tagged by a lowercase `type`. */
  datatype BatchResultType =
    | Succeeded(message: MessagesResponse)
    | Errored(error: BatchError)
    | Canceled
    | Expired

  datatype BatchResult = BatchResult(customId: string, result: BatchResultType)

  // ---- JSON forms ----

  /** The snake_case name serde gives each status. */
  function StatusName(s: BatchProcessingStatus): string
  {
    match s
    case InProgress => "in_progress"
    case Canceling => "canceling"
    case Ended => "ended"
  }

  function EncodeStatus(s: BatchProcessingStatus): Json
  {
    Str(StatusName(s))
  }

  function DecodeStatus(j: Json): (r: Result<BatchProcessingStatus, DecodeError>)
    ensures r.Ok? ==> j == EncodeStatus(r.value)
  {
    var name :- AsString(j);
    if name == "in_progress" then Ok(InProgress)
    else if name == "canceling" then Ok(Canceling)
    else if name == "ended" then Ok(Ended)
    else Err(UnknownVariant(name))
  }

  /** Every status reads back as itself, and `InProgress` and `Ended` are
      written "in_progress" and "ended". */
  lemma StatusRoundTrip(s: BatchProcessingStatus)
    ensures DecodeStatus(EncodeStatus(s)) == Ok(s)
    ensures EncodeStatus(InProgress) == Str("in_progress") && EncodeStatus(Ended) == Str("ended")
  {
  }

  function DecodeRequestCounts(j: Json): Result<RequestCounts, DecodeError>
  {
    var o :- AsObject(j);
    var processing :- Required(o, "processing", AsU32);
    var succeeded :- Required(o, "succeeded", AsU32);
    var errored :- Required(o, "errored", AsU32);
    var canceled :- Required(o, "canceled", AsU32);
    var expired :- Required(o, "expired", AsU32);
    Ok(RequestCounts(processing, succeeded, errored, canceled, expired))
  }

  function DecodeMessageBatch(j: Json): (r: Result<MessageBatch, DecodeError>)
    ensures r.Ok? ==> j.Object? && "processing_status" in j.fields
                      && j.fields["processing_status"] == EncodeStatus(r.value.processingStatus)
    ensures r.Ok? && ("results_url" !in j.fields || j.fields["results_url"] == Null) ==> r.value.resultsUrl.None?
  {
    var o :- AsObject(j);
    var id :- Required(o, "id", AsString);
    var t :- Required(o, "type", AsString);
    var status :- Required(o, "processing_status", DecodeStatus);
    var counts :- Required(o, "request_counts", DecodeRequestCounts);
    var endedAt :- Optional(o, "ended_at", AsString);
    var createdAt :- Required(o, "created_at", AsString);
    var expiresAt :- Required(o, "expires_at", AsString);
    var cancelAt :- Optional(o, "cancel_initiated_at", AsString);
    var url :- Optional(o, "results_url", AsString);
    Ok(MessageBatch(id, t, status, counts, endedAt, createdAt, expiresAt, cancelAt, url))
  }

  function EncodeBatchError(e: BatchError): Json
  {
    Object(map["type" := Str(e.errorType), "message" := Str(e.message)])
  }

  function DecodeBatchError(j: Json): Result<BatchError, DecodeError>
  {
    var o :- AsObject(j);
    var t :- Required(o, "type", AsString);
    var m :- Required(o, "message", AsString);
    Ok(BatchError(t, m))
  }

  /** The lowercase discriminator of each result kind. */
  function ResultTag(r: BatchResultType): string
  {
    match r
    case Succeeded(_) => "succeeded"
    case Errored(_) => "errored"
    case Canceled => "canceled"
    case Expired => "expired"
  }

  function DecodeBatchResultType(j: Json): (r: Result<BatchResultType, DecodeError>)
    ensures r.Ok? ==> j.Object? && "type" in j.fields && j.fields["type"] == Str(ResultTag(r.value))
  {
    var o :- AsObject(j);
    var tag :- Tag(o);
    if tag == "succeeded" then
      var m :- Required(o, "message", DecodeMessagesResponse);
      Ok(Succeeded(m))
    else if tag == "errored" then
      var e :- Required(o, "error", DecodeBatchError);
      Ok(Errored(e))
    else if tag == "canceled" then Ok(Canceled)
    else if tag == "expired" then Ok(Expired)
    else Err(UnknownVariant(tag))
  }

  function DecodeBatchResult(j: Json): (r: Result<BatchResult, DecodeError>)
    ensures r.Ok? ==> j.Object? && "custom_id" in j.fields && j.fields["custom_id"] == Str(r.value.customId)
    ensures r.Ok? ==> "result" in j.fields && DecodeBatchResultType(j.fields["result"]) == Ok(r.value.result)
    ensures (j.Object? && "custom_id" in j.fields && j.fields["custom_id"].Str?
             && "result" in j.fields && DecodeBatchResultType(j.fields["result"]).Ok?) ==> r.Ok?
  {
    var o :- AsObject(j);
    var id :- Required(o, "custom_id", AsString);
    var result :- Required(o, "result", DecodeBatchResultType);
    Ok(BatchResult(id, result))
  }

  /** A result kind as the `type`-tagged object serde writes for it. */
  function EncodeBatchResultType(r: BatchResultType): Json
  {
    match r
    case Succeeded(m) => Object(map["type" := Str("succeeded"), "message" := EncodeMessagesResponse(m)])
    case Errored(e) => Object(map["type" := Str("errored"), "error" := EncodeBatchError(e)])
    case Canceled => Object(map["type" := Str("canceled")])
    case Expired => Object(map["type" := Str("expired")])
  }

  function EncodeBatchResult(r: BatchResult): Json
  {
    Object(map["custom_id" := Str(r.customId), "result" := EncodeBatchResultType(r.result)])
  }

  lemma BatchResultTypeRoundTrip(r: BatchResultType)
    ensures DecodeBatchResultType(EncodeBatchResultType(r)) == Ok(r)
  {
    if r.Succeeded? { MessagesResponseRoundTrip(r.message); }
  }

  /** Every batch result decodes back from its encoding. */
  lemma BatchResultRoundTrip(r: BatchResult)
    ensures DecodeBatchResult(EncodeBatchResult(r)) == Ok(r)
  {
    BatchResultTypeRoundTrip(r.result);
  }

  /** A result whose `type` names none of the four kinds never decodes. */
  lemma BatchResultTypeClosed(j: Json)
    requires j.Object? && "type" in j.fields && j.fields["type"].Str?
    requires j.fields["type"].s !in {"succeeded", "errored", "canceled", "expired"}
    ensures DecodeBatchResultType(j).Err?
  {
  }

  /** An errored result carries the error's type and message, whatever its kind. */
  lemma ErroredResultRoundTrip(customId: string, e: BatchError)
    ensures DecodeBatchResult(Object(map[
      "custom_id" := Str(customId),
      "result" := Object(map["type" := Str("errored"), "error" := EncodeBatchError(e)])]))
      == Ok(BatchResult(customId, Errored(e)))
  {
  }

  // ---- Status and polling ----

  /** Every non-success status of a batch call is `Api` with the body as
      message and no error type; in particular a 429 here is not a rate-limit
      error and carries no retry-after value. */
  function BatchStatusError(status: u16, body: string): (e: Error)
    ensures e.Api? && e.status == status && e.message == body && e.errorType.None?
    ensures !IsRetryable(e) && RetryAfter(e).None?
  {
    Api(status, body, None)
  }

  /** Does a poll answer end the wait: a failed call, or an ended batch? */
  predicate StopsWaiting(poll: Result<MessageBatch, Error>)
  {
    poll.Err? || poll.value.processingStatus == Ended
  }

  /** The index of the first answer that ends the wait, or the length. */
  function FirstStop(polls: seq<Result<MessageBatch, Error>>): (k: nat)
    ensures k <= |polls|
    ensures k < |polls| ==> StopsWaiting(polls[k])
    ensures forall i :: 0 <= i < k ==> !StopsWaiting(polls[i])
  {
    if polls == [] then 0
    else if StopsWaiting(polls[0]) then 0
    else 1 + FirstStop(polls[1..])
  }

  /** `wait_for_completion` over the answers of successive `retrieve` calls:
      `None` while every answer so far is a batch still being processed. */
  function WaitForCompletion(polls: seq<Result<MessageBatch, Error>>): (r: Option<Result<MessageBatch, Error>>)
    ensures r.Some? && r.value.Ok? ==> r.value.value.processingStatus == Ended
    ensures r.Some? && r.value.Ok? ==> r.value.value in OkBatches(polls)
    ensures r.Some? && r.value.Err? ==> Err(r.value.error) in polls
    ensures r.None? <==> forall i :: 0 <= i < |polls| ==> polls[i].Ok? && polls[i].value.processingStatus != Ended
    ensures r.Some? ==> FirstStop(polls) < |polls| && r.value == polls[FirstStop(polls)]
  {
    if polls == [] then None
    else if polls[0].Err? then Some(Err(polls[0].error))
    else if polls[0].value.processingStatus == Ended then Some(Ok(polls[0].value))
    else
      var r := WaitForCompletion(polls[1..]);
      assert forall i :: 1 <= i < |polls| ==> polls[i] == polls[1..][i - 1];
      r
  }

  /** The batches among successful answers. */
  function OkBatches(polls: seq<Result<MessageBatch, Error>>): (r: set<MessageBatch>)
    ensures forall i :: 0 <= i < |polls| && polls[i].Ok? ==> polls[i].value in r
    ensures forall b :: b in r ==> Ok(b) in polls
  {
    set i | 0 <= i < |polls| && polls[i].Ok? :: polls[i].value
  }

  /** `results` refuses a batch that has no results URL yet. */
  function ResultsUrl(batch: MessageBatch): (r: Result<string, Error>)
    ensures batch.resultsUrl.None? ==> r == Err(InvalidRequest("Batch has no results yet"))
    ensures batch.resultsUrl.Some? ==> r == Ok(batch.resultsUrl.value)
  {
    if batch.resultsUrl.Some? then Ok(batch.resultsUrl.value)
    else Err(InvalidRequest("Batch has no results yet"))
  }

  // ---- Trimming ----

  /** The Unicode White_Space characters, which `str::trim` removes. */
  predicate IsWhitespace(c: char)
  {
    || c == ' ' || '\t' <= c <= '\r' || c == '\U{85}' || c == '\U{A0}' || c == '\U{1680}'
    || '\U{2000}' <= c <= '\U{200A}' || c == '\U{2028}' || c == '\U{2029}' || c == '\U{202F}'
    || c == '\U{205F}' || c == '\U{3000}'
  }

  predicate AllWhitespace(s: string)
  {
    forall i :: 0 <= i < |s| ==> IsWhitespace(s[i])
  }

  function TrimStart(s: string): (r: string)
    ensures |r| <= |s| && r == s[|s| - |r|..]
    ensures AllWhitespace(s[..|s| - |r|])
    ensures r == [] || !IsWhitespace(r[0])
  {
    if s != [] && IsWhitespace(s[0]) then
      var r := TrimStart(s[1..]);
      assert s[..|s| - |r|] == [s[0]] + s[1..][..|s| - 1 - |r|];
      r
    else s
  }

  function TrimEnd(s: string): (r: string)
    ensures |r| <= |s| && r == s[..|r|]
    ensures AllWhitespace(s[|r|..])
    ensures r == [] || !IsWhitespace(r[|r| - 1])
  {
    if s != [] && IsWhitespace(s[|s| - 1]) then
      var r := TrimEnd(s[..|s| - 1]);
      assert s[|r|..] == s[..|s| - 1][|r|..] + [s[|s| - 1]];
      r
    else s
  }

  /** `str::trim`: the longest infix that neither starts nor ends with white space. */
  function Trim(s: string): (r: string)
    ensures r == [] <==> AllWhitespace(s)
    ensures r != [] ==> !IsWhitespace(r[0]) && !IsWhitespace(r[|r| - 1])
    ensures exists a, b :: 0 <= a <= b <= |s| && r == s[a..b] && AllWhitespace(s[..a]) && AllWhitespace(s[b..])
  {
    var t := TrimStart(s);
    TrimBothEnds(s, t, TrimEnd(t));
    TrimIsInfix(s, t, TrimEnd(t));
    TrimEnd(t)
  }

  /** What both trims leave is the part of `s` between a white-space prefix
      and a white-space suffix. */
  lemma TrimIsInfix(s: string, t: string, r: string)
    requires |t| <= |s| && t == s[|s| - |t|..] && AllWhitespace(s[..|s| - |t|])
    requires |r| <= |t| && r == t[..|r|] && AllWhitespace(t[|r|..])
    ensures var a := |s| - |t|;
      a + |r| <= |s| && r == s[a..a + |r|] && AllWhitespace(s[..a]) && AllWhitespace(s[a + |r|..])
  {
    var a := |s| - |t|;
    assert r == s[a..a + |r|];
    assert s[a + |r|..] == t[|r|..];
  }

  /** Trimming the end of what `TrimStart` left is empty exactly when the
      whole string is white space, and otherwise keeps the first
      non-space character. */
  lemma TrimBothEnds(s: string, t: string, r: string)
    requires t == TrimStart(s) && r == TrimEnd(t)
    ensures r == [] <==> AllWhitespace(s)
    ensures r != [] ==> !IsWhitespace(r[0])
  {
    var n := |s| - |t|;
    if r == [] {
      assert t[|r|..] == t;
      assert t == [];
      assert s[..n] == s;
    } else {
      assert r[0] == t[0] == s[n];
    }
  }

  // ---- Cutting bytes into lines ----

  const NEWLINE: byte := 10

  /** The position of the first newline of `s`, or `|s|` when there is none. */
  function Find(s: seq<byte>): (k: nat)
    ensures k <= |s|
    ensures k < |s| ==> s[k] == NEWLINE
  {
    if s == [] then 0
    else if s[0] == NEWLINE then 0
    else 1 + Find(s[1..])
  }

  predicate NoNewline(s: seq<byte>)
  {
    Find(s) == |s|
  }

  /** `Find` finds the first newline: there is none before it. */
  lemma {:induction false} FindIsFirst(s: seq<byte>)
    ensures forall i :: 0 <= i < Find(s) ==> s[i] != NEWLINE
  {
    if s != [] && s[0] != NEWLINE {
      FindIsFirst(s[1..]);
      assert forall i :: 1 <= i < Find(s) ==> s[i] == s[1..][i - 1];
    }
  }

  /** Searching `a + b` finds the first newline of `a`, or else searches on into `b`. */
  lemma {:induction false} FindAppend(a: seq<byte>, b: seq<byte>)
    ensures Find(a + b) == if Find(a) < |a| then Find(a) else |a| + Find(b)
  {
    if a == [] {
      assert a + b == b;
    } else {
      assert (a + b)[0] == a[0] && (a + b)[1..] == a[1..] + b;
      FindAppend(a[1..], b);
    }
  }

  /** A complete line as the reader cuts it: ending in its only newline. */
  predicate IsLine(p: seq<byte>)
  {
    |p| > 0 && Find(p) == |p| - 1
  }

  /** The complete lines of `s`, each with its newline, in order. */
  function Lines(s: seq<byte>): seq<seq<byte>>
    decreases |s|
  {
    var k := Find(s);
    if k == |s| then [] else [s[..k + 1]] + Lines(s[k + 1..])
  }

  /** What follows the last newline of `s`. */
  function Tail(s: seq<byte>): (r: seq<byte>)
    ensures NoNewline(r)
    decreases |s|
  {
    var k := Find(s);
    if k == |s| then s else Tail(s[k + 1..])
  }

  /** Every cut line ends in its only newline. */
  lemma {:induction false} LinesAreLines(s: seq<byte>)
    ensures forall i :: 0 <= i < |Lines(s)| ==> IsLine(Lines(s)[i])
    decreases |s|
  {
    var k := Find(s);
    if k < |s| {
      var p := s[..k + 1];
      assert s == p + s[k + 1..];
      FindAppend(p, s[k + 1..]);
      LinesAreLines(s[k + 1..]);
      assert Lines(s) == [p] + Lines(s[k + 1..]);
    }
  }

  function Concat<T>(ls: seq<seq<T>>): seq<T>
  {
    if ls == [] then [] else ls[0] + Concat(ls[1..])
  }

  lemma ConcatCons<T>(x: seq<T>, xs: seq<seq<T>>)
    ensures Concat([x] + xs) == x + Concat(xs)
  {
    assert ([x] + xs)[1..] == xs;
  }

  /** Cutting loses nothing: the lines followed by the tail give back the bytes. */
  lemma {:induction false} LinesTailJoin(s: seq<byte>)
    ensures Concat(Lines(s)) + Tail(s) == s
    decreases |s|
  {
    var k := Find(s);
    if k < |s| {
      var p := s[..k + 1];
      var t := s[k + 1..];
      assert Lines(s) == [p] + Lines(t);
      assert Tail(s) == Tail(t);
      ConcatCons(p, Lines(t));
      AppendAssoc(p, Concat(Lines(t)), Tail(t));
      assert s == p + t;
      LinesTailJoin(t);
    }
  }

  lemma ConsParts<T>(x: T, xs: seq<T>)
    ensures ([x] + xs)[0] == x && ([x] + xs)[1..] == xs
  {
  }

  lemma AppendAssoc<T>(a: seq<T>, b: seq<T>, c: seq<T>)
    ensures (a + b) + c == a + (b + c)
  {
  }

  /** Cutting `a + b` is cutting `a`, then cutting what `a` left over followed by `b`. */
  lemma {:induction false} LinesAppend(a: seq<byte>, b: seq<byte>)
    ensures Lines(a + b) == Lines(a) + Lines(Tail(a) + b)
    ensures Tail(a + b) == Tail(Tail(a) + b)
    decreases |a|
  {
    var k := Find(a);
    FindAppend(a, b);
    if k < |a| {
      var ab := a + b;
      var p := a[..k + 1];
      var t := a[k + 1..];
      assert ab[..k + 1] == p;
      assert ab[k + 1..] == t + b;
      LinesAppend(t, b);
      assert Lines(ab) == [p] + Lines(t + b);
      assert Lines(a) == [p] + Lines(t);
      assert Tail(a) == Tail(t);
      assert Tail(ab) == Tail(t + b);
      AppendAssoc([p], Lines(t), Lines(Tail(t) + b));
    } else {
      assert Tail(a) == a;
    }
  }

  // ---- Decoding lines ----

  /** `String::from_utf8_lossy`. */
  type Utf8Lossy = seq<byte> -> string

  /** One cut line: nothing when it is blank after trimming, else its decoding. */
  function DecodeLine(parse: Parser, lossy: Utf8Lossy, piece: seq<byte>): (r: Option<Result<BatchResult, Error>>)
    ensures r.None? <==> Trim(lossy(piece)) == ""
    ensures r.Some? ==> match ParseWith(parse, Trim(lossy(piece)), DecodeBatchResult)
                        case Ok(b) => r.value == Ok(b)
                        case Err(m) => r.value == Err(Error.Json(m))
  {
    var line := Trim(lossy(piece));
    if line == "" then None
    else match ParseWith(parse, line, DecodeBatchResult)
      case Ok(b) => Some(Ok(b))
      case Err(m) => Some(Err(Error.Json(m)))
  }

  /** What the reader does with one cut line; the reader itself does not depend on it. */
  type LineStep = seq<byte> -> Option<Result<BatchResult, Error>>

  /** The line step of `results`. */
  function ResultsStep(parse: Parser, lossy: Utf8Lossy): LineStep
  {
    p => DecodeLine(parse, lossy, p)
  }

  /** Has the stream ended with an error? */
  predicate Stopped(out: seq<Result<BatchResult, Error>>)
  {
    |out| > 0 && out[|out| - 1].Err?
  }

  /** Decoding a run of lines: blank ones are skipped and the first failure ends the stream. */
  function DecodeLines(step: LineStep, pieces: seq<seq<byte>>): (out: seq<Result<BatchResult, Error>>)
    ensures |out| <= |pieces|
  {
    if pieces == [] then []
    else
      var d := step(pieces[0]);
      if d.None? then DecodeLines(step, pieces[1..])
      else if d.value.Err? then [d.value]
      else [d.value] + DecodeLines(step, pieces[1..])
  }

  lemma {:induction false} DecodeLinesAppend(step: LineStep, xs: seq<seq<byte>>, ys: seq<seq<byte>>)
    ensures var o := DecodeLines(step, xs);
      DecodeLines(step, xs + ys) == if Stopped(o) then o else o + DecodeLines(step, ys)
    decreases |xs|
  {
    if xs == [] {
      assert xs + ys == ys;
    } else {
      var zs := xs + ys;
      assert zs[0] == xs[0] && zs[1..] == xs[1..] + ys;
      DecodeLinesAppend(step, xs[1..], ys);
      var d := step(xs[0]);
      var o := DecodeLines(step, xs[1..]);
      var later := DecodeLines(step, xs[1..] + ys);
      if d.None? {
        assert DecodeLines(step, xs) == o;
        assert DecodeLines(step, zs) == later;
      } else if d.value.Err? {
        assert DecodeLines(step, xs) == [d.value];
        assert DecodeLines(step, zs) == [d.value];
      } else {
        assert DecodeLines(step, xs) == [d.value] + o;
        assert DecodeLines(step, zs) == [d.value] + later;
        assert Stopped([d.value] + o) == Stopped(o);
        if !Stopped(o) {
          assert [d.value] + (o + DecodeLines(step, ys)) == ([d.value] + o) + DecodeLines(step, ys);
        }
      }
    }
  }

  /** The lines the reader hands to the decoder for a whole body: the
      complete lines, then the unterminated tail if there is one. */
  function Segments(s: seq<byte>): (ps: seq<seq<byte>>)
    ensures |Lines(s)| <= |ps| <= |Lines(s)| + 1
  {
    Lines(s) + (if Tail(s) == [] then [] else [Tail(s)])
  }

  /** The results of a whole body, defined without chunks. */
  function BodyResults(step: LineStep, body: seq<byte>): seq<Result<BatchResult, Error>>
  {
    DecodeLines(step, Segments(body))
  }

  // ---- The chunked reader ----

  datatype Chunk = Bytes(data: seq<byte>) | ChunkError(cause: string)

  /** The reader at end of input: an unterminated last line is still decoded. */
  function Flush(step: LineStep, buffer: seq<byte>): seq<Result<BatchResult, Error>>
  {
    if buffer == [] then [] else DecodeLines(step, [buffer])
  }

  /** The reader from a buffer that holds the unconsumed bytes of earlier
      chunks: each chunk is appended, its complete lines are decoded, and the
      bytes after its last newline stay in the buffer. */
  function ChunkStream(step: LineStep, buffer: seq<byte>, chunks: seq<Chunk>): seq<Result<BatchResult, Error>>
    decreases |chunks|, 0
  {
    if chunks == [] then Flush(step, buffer)
    else
      match chunks[0]
      case ChunkError(cause) => [Err(Network("Stream error: " + cause))]
      case Bytes(data) => Resume(step, Lines(buffer + data), Tail(buffer + data), chunks[1..])
  }

  /** Decode `pieces`, then, unless that failed, carry on reading `chunks` from `buffer`. */
  function Resume(step: LineStep, pieces: seq<seq<byte>>, buffer: seq<byte>, chunks: seq<Chunk>)
    : seq<Result<BatchResult, Error>>
    decreases |chunks|, 1
  {
    var o := DecodeLines(step, pieces);
    if Stopped(o) then o else o + ChunkStream(step, buffer, chunks)
  }

  /** The results of a download. */
  function Results(parse: Parser, lossy: Utf8Lossy, chunks: seq<Chunk>): seq<Result<BatchResult, Error>>
  {
    ChunkStream(ResultsStep(parse, lossy), [], chunks)
  }

  predicate AllBytes(chunks: seq<Chunk>)
  {
    forall i :: 0 <= i < |chunks| ==> chunks[i].Bytes?
  }

  function Body(chunks: seq<Chunk>): seq<byte>
    requires AllBytes(chunks)
  {
    if chunks == [] then [] else chunks[0].data + Body(chunks[1..])
  }

  /** Decoding the lines of `B + rest` where `B` is what the reader holds
      after appending a chunk: first `B`'s complete lines, then the rest
      from `B`'s tail on. */
  lemma SegmentsAppend(b: seq<byte>, rest: seq<byte>)
    ensures Segments(b + rest) == Lines(b) + Segments(Tail(b) + rest)
  {
    LinesAppend(b, rest);
    var t := Tail(Tail(b) + rest);
    AppendAssoc(Lines(b), Lines(Tail(b) + rest), if t == [] then [] else [t]);
  }

  /** Without transport failures the reader's output depends only on the
      bytes, not on where the chunk boundaries fall: it is the decoding of
      the body's non-blank lines in order, the unterminated last one
      included. */
  lemma {:induction false} ChunkInvariance(step: LineStep, buffer: seq<byte>, chunks: seq<Chunk>)
    requires NoNewline(buffer)
    requires AllBytes(chunks)
    ensures ChunkStream(step, buffer, chunks) == BodyResults(step, buffer + Body(chunks))
    decreases |chunks|
  {
    if chunks == [] {
      assert buffer + Body(chunks) == buffer;
      assert Lines(buffer) == [] && Tail(buffer) == buffer;
    } else {
      var data := chunks[0].data;
      var b := buffer + data;
      var rest := Body(chunks[1..]);
      assert AllBytes(chunks[1..]) by {
        assert forall i :: 0 <= i < |chunks| - 1 ==> chunks[1..][i] == chunks[i + 1];
      }
      AppendAssoc(buffer, data, rest);
      SegmentsAppend(b, rest);
      DecodeLinesAppend(step, Lines(b), Segments(Tail(b) + rest));
      ChunkInvariance(step, Tail(b), chunks[1..]);
    }
  }

  /** Two chunkings of the same bytes give the same results. */
  lemma SameBodySameResults(parse: Parser, lossy: Utf8Lossy, c1: seq<Chunk>, c2: seq<Chunk>)
    requires AllBytes(c1) && AllBytes(c2) && Body(c1) == Body(c2)
    ensures Results(parse, lossy, c1) == Results(parse, lossy, c2)
  {
    ChunkInvariance(ResultsStep(parse, lossy), [], c1);
    ChunkInvariance(ResultsStep(parse, lossy), [], c2);
  }

  /** A transport failure ends the stream with `Network`, after the results
      of the complete lines received before it, unless one of those already
      failed; the unterminated bytes before it are dropped. */
  lemma {:induction false} ChunkFailure(step: LineStep, buffer: seq<byte>, chunks: seq<Chunk>, k: nat)
    requires NoNewline(buffer)
    requires k < |chunks| && chunks[k].ChunkError? && AllBytes(chunks[..k])
    ensures var o := DecodeLines(step, Lines(buffer + Body(chunks[..k])));
      ChunkStream(step, buffer, chunks) ==
        if Stopped(o) then o else o + [Err(Network("Stream error: " + chunks[k].cause))]
    decreases k
  {
    if k == 0 {
      assert buffer + Body(chunks[..k]) == buffer;
      assert Lines(buffer) == [];
    } else {
      var data := chunks[0].data;
      var b := buffer + data;
      var before := chunks[1..][..k - 1];
      assert chunks[..k][0] == chunks[0] && chunks[..k][1..] == before;
      assert AllBytes(before) by {
        assert forall i :: 0 <= i < k - 1 ==> before[i] == chunks[..k][i + 1];
      }
      var rest := Body(before);
      AppendAssoc(buffer, data, rest);
      LinesAppend(b, rest);
      DecodeLinesAppend(step, Lines(b), Lines(Tail(b) + rest));
      ChunkFailure(step, Tail(b), chunks[1..], k - 1);
      var o1 := DecodeLines(step, Lines(b));
      var o2 := DecodeLines(step, Lines(Tail(b) + rest));
      var e := [Err(Network("Stream error: " + chunks[k].cause))];
      if !Stopped(o1) && !Stopped(o2) {
        AppendAssoc(o1, o2, e);
      }
      if !Stopped(o1) {
        assert Stopped(o1 + o2) == Stopped(o2) by {
          if o2 == [] { assert o1 + o2 == o1; }
        }
      }
    }
  }

  /** A run of results with no failure at all. */
  predicate AllOk(out: seq<Result<BatchResult, Error>>)
  {
    forall i :: 0 <= i < |out| ==> out[i].Ok?
  }

  lemma {:induction false} DecodeLinesFailsOnlyAtEnd(step: LineStep, pieces: seq<seq<byte>>)
    ensures FailsOnlyAtEnd(DecodeLines(step, pieces))
    ensures !Stopped(DecodeLines(step, pieces)) ==> AllOk(DecodeLines(step, pieces))
  {
    if pieces != [] {
      DecodeLinesFailsOnlyAtEnd(step, pieces[1..]);
    }
  }

  /** The reader never yields anything after an error. */
  lemma {:induction false} ResultsFailOnlyAtEnd(step: LineStep, buffer: seq<byte>, chunks: seq<Chunk>)
    ensures FailsOnlyAtEnd(ChunkStream(step, buffer, chunks))
    decreases |chunks|
  {
    if chunks == [] {
      if buffer != [] {
        DecodeLinesFailsOnlyAtEnd(step, [buffer]);
      }
    } else if chunks[0].Bytes? {
      var b := buffer + chunks[0].data;
      DecodeLinesFailsOnlyAtEnd(step, Lines(b));
      ResultsFailOnlyAtEnd(step, Tail(b), chunks[1..]);
      var o := DecodeLines(step, Lines(b));
      var later := ChunkStream(step, Tail(b), chunks[1..]);
      if !Stopped(o) {
        assert forall i :: |o| <= i < |o| + |later| ==> (o + later)[i] == later[i - |o|];
      }
    }
  }

  /** A body made only of blank lines yields no result. */
  lemma {:induction false} BlankLinesYieldNothing(parse: Parser, lossy: Utf8Lossy, pieces: seq<seq<byte>>)
    requires forall i :: 0 <= i < |pieces| ==> AllWhitespace(lossy(pieces[i]))
    ensures DecodeLines(ResultsStep(parse, lossy), pieces) == []
  {
    if pieces != [] {
      BlankLinesYieldNothing(parse, lossy, pieces[1..]);
    }
  }

  /** Decoding a run of lines that starts with `p`. */
  lemma DecodeLinesCons(step: LineStep, p: seq<byte>, ps: seq<seq<byte>>)
    ensures var d := step(p);
      DecodeLines(step, [p] + ps) ==
        if d.None? then DecodeLines(step, ps) else if d.value.Err? then [d.value] else [d.value] + DecodeLines(step, ps)
  {
    ConsParts(p, ps);
  }

  /** The inner loop of the reader: decode every complete line held in the
      buffer, stopping at the first failure, and keep what follows the last
      newline. */
  method DrainLines(step: LineStep, buffer: seq<byte>) returns (emitted: seq<Result<BatchResult, Error>>, rest: seq<byte>, stopped: bool)
    ensures emitted == DecodeLines(step, Lines(buffer))
    ensures rest == Tail(buffer) && NoNewline(rest)
    ensures stopped <==> Stopped(emitted)
  {
    emitted := [];
    rest := buffer;
    while !NoNewline(rest)
      invariant Tail(rest) == Tail(buffer)
      invariant !Stopped(emitted)
      invariant emitted + DecodeLines(step, Lines(rest)) == DecodeLines(step, Lines(buffer))
      decreases |rest|
    {
      var pos := Find(rest);
      var piece := rest[..pos + 1];
      DecodeLinesCons(step, piece, Lines(rest[pos + 1..]));
      var line := step(piece);
      rest := rest[pos + 1..];
      if line.Some? {
        AppendAssoc(emitted, [line.value], DecodeLines(step, Lines(rest)));
        emitted := emitted + [line.value];
        if line.value.Err? {
          return emitted, Tail(buffer), true;
        }
      }
    }
    assert Lines(rest) == [];
    stopped := false;
  }

  /** Reading a run of chunks that starts with `c`. */
  lemma ChunkStreamCons(step: LineStep, buffer: seq<byte>, c: Chunk, rest: seq<Chunk>)
    ensures c.ChunkError? ==> ChunkStream(step, buffer, [c] + rest) == [Err(Network("Stream error: " + c.cause))]
    ensures c.Bytes? ==>
      ChunkStream(step, buffer, [c] + rest) == Resume(step, Lines(buffer + c.data), Tail(buffer + c.data), rest)
  {
    ConsParts(c, rest);
  }

  /** The reader as the source runs it: a buffer that grows by a chunk and
      is drained of every complete line before the next chunk is read, then
      flushed at end of input. With `ResultsStep(parse, lossy)` as the line
      step its output is `Results(parse, lossy, chunks)`. */
  method ReadResults(step: LineStep, chunks: seq<Chunk>) returns (out: seq<Result<BatchResult, Error>>)
    ensures out == ChunkStream(step, [], chunks)
  {
    out := [];
    var buffer: seq<byte> := [];
    var i := 0;
    while i < |chunks|
      invariant 0 <= i <= |chunks|
      invariant NoNewline(buffer)
      invariant out + ChunkStream(step, buffer, chunks[i..]) == ChunkStream(step, [], chunks)
    {
      assert chunks[i..] == [chunks[i]] + chunks[i + 1..];
      ChunkStreamCons(step, buffer, chunks[i], chunks[i + 1..]);
      if chunks[i].ChunkError? {
        out := out + [Err(Network("Stream error: " + chunks[i].cause))];
        return;
      }
      var emitted, rest, stopped := DrainLines(step, buffer + chunks[i].data);
      if stopped {
        out := out + emitted;
        return;
      }
      AppendAssoc(out, emitted, ChunkStream(step, rest, chunks[i + 1..]));
      out := out + emitted;
      buffer := rest;
      i := i + 1;
    }
    if buffer != [] {
      DecodeLinesCons(step, buffer, []);
      var line := step(buffer);
      if line.Some? {
        out := out + [line.value];
      }
    }
  }
}
