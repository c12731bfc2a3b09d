/** Values shared by every part of the client pipeline: nullable strings, the
    string tests of .NET that the pipeline relies on, HTTP methods, raw
    responses, the error objects and the exceptions the pipeline throws. */
module Common {

  /** A C# reference that may be null. */
  datatype Option<+T> = None | Some(value: T) {
    function GetOr(default: T): T {
      match this
      case Some(v) => v
      case None => default
    }
  }

  /** A computation that either produces a value or throws. */
  datatype Result<+R, +E> = Success(value: R) | Failure(error: E)

  /** The C# null-coalescing operator `a ?? b`. */
  function Coalesce<T>(a: Option<T>, b: Option<T>): Option<T> {
    if a.Some? then a else b
  }

  /** `string.IsNullOrEmpty`. */
  predicate IsNullOrEmpty(s: Option<string>) {
    s.None? || s.value == ""
  }

  /** `char.IsWhiteSpace`: the Unicode separators (Zs, Zl, Zp) and the
      control characters U+0009 to U+000D and U+0085. */
  predicate IsWhiteSpace(c: char) {
    ('\U{0009}' <= c <= '\U{000D}') || c == '\U{0020}' || c == '\U{0085}' || c == '\U{00A0}'
    || c == '\U{1680}' || ('\U{2000}' <= c <= '\U{200A}') || c == '\U{2028}' || c == '\U{2029}'
    || c == '\U{202F}' || c == '\U{205F}' || c == '\U{3000}'
  }

  /** `StringUtils.ContainsWhitespace`: some character is white space. */
  predicate ContainsWhitespace(s: string) {
    exists i :: 0 <= i < |s| && IsWhiteSpace(s[i])
  }

  /** `string.IsNullOrWhiteSpace`: null, or every character is white space
      (so the empty string qualifies). */
  predicate IsNullOrWhiteSpace(s: Option<string>) {
    s.None? || forall i :: 0 <= i < |s.value| ==> IsWhiteSpace(s.value[i])
  }

  /** The HTTP methods the client issues. */
  datatype HttpMethod = Get | Post | Delete

  const StatusOK: int := 200

  /** API version used by the library (`StripeConfiguration.ApiVersion`). */
  const ApiVersion: string := "2019-03-14"

  /** A raw HTTP response as handed back by the HTTP client. */
  datatype StripeResponse = StripeResponse(statusCode: int, headers: map<string, string>, content: string)

  /** The error object decoded from an error response. */
  datatype StripeError = StripeError(
    code: Option<string>,
    message: Option<string>,
    errorDescription: Option<string>,
    stripeResponse: Option<StripeResponse>)

  /** `StripeException`: status code, decoded error, message and the response. */
  datatype StripeException = StripeException(
    httpStatusCode: Option<int>,
    stripeError: Option<StripeError>,
    message: Option<string>,
    stripeResponse: Option<StripeResponse>)

  /** Everything the modelled code can throw. `JsonError` is a failure of the
      error decoder, which the response classifier does not catch;
      `Transport` is whatever the HTTP client throws when it gets no
      response (the connection fails after its retries, or the call is
      cancelled). */
  datatype Exception =
    | ArgumentNull(nullParam: string)
    | Argument(message: string, paramName: Option<string>)
    | Stripe(ex: StripeException)
    | JsonError
    | Transport(reason: string)
    | NullReference

  /** A decoded entity together with the response it came from
      (the entity's `StripeResponse` property). */
  datatype Decoded<T> = Decoded(entity: T, stripeResponse: StripeResponse)

  /** One page of a list endpoint (`StripeList<T>`). */
  datatype StripeList<T> = StripeList(data: seq<T>, hasMore: bool)

  /** A JSON value, as far as the response classifier inspects it. */
  datatype Json =
    | JNull
    | JBool(b: bool)
    | JNumber(n: int)
    | JString(s: string)
    | JArray(items: seq<Json>)
    | JObject(members: map<string, Json>)

  /** The HTTP client a `StripeClient` sends through. A client built by the
      library is a `SystemNetHttpClient` with the configured retry count; a
      caller may supply any client, told apart by a handle. */
  datatype HttpClient = SystemNetHttpClient(maxNetworkRetries: int) | SuppliedHttpClient(handle: nat)
}
