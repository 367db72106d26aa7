/** The crate's error taxonomy (src/error.rs) and its retry classification. */
module Errors {
  import opened Base
  import opened Json

  /** Every failure the crate reports. The wrapped `reqwest::Error` and
      `serde_json::Error` of `Http` and `Json` are kept as their messages. */
  datatype Error =
    | Http(cause: string)
    | Json(cause: string)
    | Api(status: u16, message: string, errorType: Option<string>)
    | RateLimit(retryAfter: Option<u64>, message: string)
    | InvalidRequest(message: string)
    | Authentication(message: string)
    | Server(status: u16, message: string)
    | Network(message: string)
    | StreamParse(message: string)

  /** `Error::is_retryable`: rate limits, 5xx server errors and network errors. */
  function IsRetryable(e: Error): (r: bool)
    ensures e.RateLimit? || e.Network? ==> r
    ensures e.Server? ==> (r <==> e.status >= 500)
    ensures e.Http? || e.Json? || e.Api? || e.InvalidRequest? || e.Authentication? || e.StreamParse? ==> !r
  {
    match e
    case RateLimit(_, _) => true
    case Server(status, _) => status >= 500
    case Network(_) => true
    case _ => false
  }

  /** `Error::retry_after`: the server's requested delay, in seconds. */
  function RetryAfter(e: Error): (r: Option<u64>)
    ensures e.RateLimit? ==> r == e.retryAfter
    ensures !e.RateLimit? ==> r.None?
    ensures r.Some? ==> IsRetryable(e)
  {
    match e
    case RateLimit(retryAfter, _) => retryAfter
    case _ => None
  }

  /** `ApiErrorDetail`: the `error` object of an API error body. */
  datatype ApiErrorDetail = ApiErrorDetail(errorType: string, message: string)

  /** `ApiErrorResponse`: `{"type": ..., "error": {"type": ..., "message": ...}}`. */
  datatype ApiErrorResponse = ApiErrorResponse(errorType: string, error: ApiErrorDetail)

  function DecodeApiErrorDetail(j: Json): (r: Result<ApiErrorDetail, DecodeError>)
    ensures r.Ok? ==> j.Object? && "type" in j.fields && j.fields["type"] == Str(r.value.errorType)
    ensures r.Ok? ==> "message" in j.fields && j.fields["message"] == Str(r.value.message)
    ensures (j.Object? && "type" in j.fields && j.fields["type"].Str?
             && "message" in j.fields && j.fields["message"].Str?) ==> r.Ok?
  {
    var o :- AsObject(j);
    var t :- Required(o, "type", AsString);
    var m :- Required(o, "message", AsString);
    Ok(ApiErrorDetail(t, m))
  }

  function DecodeApiErrorResponse(j: Json): (r: Result<ApiErrorResponse, DecodeError>)
    ensures r.Ok? ==> j.Object? && "type" in j.fields && j.fields["type"] == Str(r.value.errorType)
    ensures r.Ok? ==> "error" in j.fields && DecodeApiErrorDetail(j.fields["error"]) == Ok(r.value.error)
    ensures (j.Object? && "type" in j.fields && j.fields["type"].Str?
             && "error" in j.fields && DecodeApiErrorDetail(j.fields["error"]).Ok?) ==> r.Ok?
  {
    var o :- AsObject(j);
    var t :- Required(o, "type", AsString);
    var d :- Required(o, "error", DecodeApiErrorDetail);
    Ok(ApiErrorResponse(t, d))
  }

  /** A stream of results in which a failure can only be the last element. */
  predicate FailsOnlyAtEnd<T>(s: seq<Result<T, Error>>)
  {
    forall i :: 0 <= i < |s| - 1 ==> s[i].Ok?
  }
}
