/** `StripeClient`: builds one request, sends it through its HTTP client and
    classifies the response into a decoded entity or an exception. */
module Client {
  import opened Common
  import opened Options
  import opened Request

  const DefaultApiBase := "https://api.stripe.com"
  const DefaultConnectBase := "https://connect.stripe.com"
  const DefaultFilesBase := "https://files.stripe.com"

  /** The collaborators the pipeline calls and that lie outside this model:
      the form encoder, `WebUtility.UrlEncode`, `JObject.Parse` (None when it
      throws, including for JSON that is not an object), `JToken.ToString`,
      `StripeError.FromJson` (None when it fails) and the HTTP send of an
      `IHttpClient` (`MakeRequestAsync`), which either answers or fails with
      the reason it throws. */
  datatype Foreign = Foreign(
    form: FormEncoder,
    urlEncode: string -> string,
    parseObject: string -> Option<map<string, Json>>,
    tokenText: Json -> string,
    errorFromJson: string -> Option<StripeError>,
    send: (HttpClient, StripeRequest) -> Result<StripeResponse, string>)

  const InvalidResponsePrefix := "Invalid response object from API: \""

  /** `BuildInvalidResponseException`: the status and the response, no
      decoded error, and a message that quotes the whole body, which can be
      read back from it. */
  function InvalidResponse(response: StripeResponse): (e: StripeException)
    ensures e.httpStatusCode == Some(response.statusCode) && e.stripeError.None? && e.stripeResponse == Some(response)
    ensures e.message.Some? && |e.message.value| == |InvalidResponsePrefix| + |response.content| + 1
    ensures e.message.value[..|InvalidResponsePrefix|] == InvalidResponsePrefix
    ensures e.message.value[|InvalidResponsePrefix|..|e.message.value| - 1] == response.content
    ensures e.message.value[|e.message.value| - 1] == '"'
  {
    var message := InvalidResponsePrefix + response.content + "\"";
    assert message[..|InvalidResponsePrefix|] == InvalidResponsePrefix;
    assert message[|InvalidResponsePrefix|..|message| - 1] == response.content;
    StripeException(Some(response.statusCode), None, Some(message), Some(response))
  }

  /** The JSON text an error response's `StripeError` is decoded from: the
      whole body when the `error` member is a string (an OAuth error), the
      `error` value alone otherwise. None when the body is not a JSON object
      or has no `error` member. */
  function ErrorEnvelope(response: StripeResponse, f: Foreign): (text: Option<string>)
    ensures text.Some? <==> f.parseObject(response.content).Some? && "error" in f.parseObject(response.content).value
    ensures text.Some? && f.parseObject(response.content).value["error"].JString? ==> text == Some(response.content)
    ensures text.Some? && !f.parseObject(response.content).value["error"].JString? ==>
      text == Some(f.tokenText(f.parseObject(response.content).value["error"]))
  {
    match f.parseObject(response.content)
    case None => None
    case Some(obj) =>
      if "error" !in obj then None
      else if obj["error"].JString? then Some(response.content)
      else Some(f.tokenText(obj["error"]))
  }

  /** `BuildStripeException`. A failure of `StripeError.FromJson` is not
      caught here and escapes as `JsonError`. */
  function BuildStripeException(response: StripeResponse, f: Foreign): (e: Exception)
    ensures e.Stripe? || e == JsonError
    ensures e.Stripe? ==> e.ex.httpStatusCode == Some(response.statusCode) && e.ex.stripeResponse == Some(response)
    ensures ErrorEnvelope(response, f).None? ==> e == Stripe(InvalidResponse(response))
    ensures ErrorEnvelope(response, f).Some? ==>
      (e == JsonError <==> f.errorFromJson(ErrorEnvelope(response, f).value).None?)
    ensures ErrorEnvelope(response, f).Some? && e.Stripe? ==>
      var err := f.errorFromJson(ErrorEnvelope(response, f).value).value;
      && e.ex.stripeError == Some(err.(stripeResponse := Some(response)))
      && e.ex.message == Coalesce(err.message, err.errorDescription)
  {
    match ErrorEnvelope(response, f)
    case None => Stripe(InvalidResponse(response))
    case Some(text) =>
      match f.errorFromJson(text)
      case None => JsonError
      case Some(err) =>
        var stripeError := err.(stripeResponse := Some(response));
        Stripe(StripeException(Some(response.statusCode), Some(stripeError),
                               Coalesce(stripeError.message, stripeError.errorDescription), Some(response)))
  }

  /** `ProcessResponse`: only a 200 response is decoded; the entity carries
      the response it was decoded from. */
  function ProcessResponse<T>(response: StripeResponse, decode: string -> Option<T>, f: Foreign)
    : (r: Result<Decoded<T>, Exception>)
    ensures response.statusCode != StatusOK ==> r == Failure(BuildStripeException(response, f))
    ensures r.Success? <==> response.statusCode == StatusOK && decode(response.content).Some?
    ensures r.Success? ==> decode(response.content) == Some(r.value.entity) && r.value.stripeResponse == response
    ensures response.statusCode == StatusOK && decode(response.content).None? ==>
      r == Failure(Stripe(InvalidResponse(response)))
  {
    if response.statusCode != StatusOK then Failure(BuildStripeException(response, f))
    else
      match decode(response.content)
      case None => Failure(Stripe(InvalidResponse(response)))
      case Some(obj) => Success(Decoded(obj, response))
  }

  /** The arguments of one `IStripeClient.RequestAsync` call, with the client
      state it reads. */
  datatype Call = Call(
    client: ClientView,
    httpClient: HttpClient,
    verb: HttpMethod,
    path: string,
    options: Option<OptionsValue>,
    requestOptions: Option<RequestOptionsValue>)

  /** What one `RequestAsync` call produces: the request is built first; if
      building throws, nothing is sent; otherwise the request is sent once,
      a failed send is passed on, and a response is classified. */
  function Exchange<T>(call: Call, guid: string, decode: string -> Option<T>, f: Foreign): Result<Decoded<T>, Exception> {
    match RequestFor(Some(call.client), call.verb, call.path, call.options, call.requestOptions, guid, f.form)
    case Failure(e) => Failure(e)
    case Success(request) =>
      match f.send(call.httpClient, request)
      case Failure(reason) => Failure(Transport(reason))
      case Success(response) => ProcessResponse(response, decode, f)
  }

  /** The exceptions a client call can end with: a `StripeException`, the
      JSON failure of the error decoder, or a failed send. */
  predicate CallError(e: Exception) {
    e.Stripe? || e == JsonError || e.Transport?
  }

  /** The built request of a call. */
  function RequestOf(call: Call, guid: string, f: Foreign): Result<StripeRequest, Exception> {
    RequestFor(Some(call.client), call.verb, call.path, call.options, call.requestOptions, guid, f.form)
  }

  class StripeClient {
    var apiKey: Option<string>
    var clientId: Option<string>
    var apiBase: Option<string>
    var connectBase: Option<string>
    var filesBase: Option<string>
    var httpClient: HttpClient

    /** A supplied HTTP client is kept; only without one is a default client
        built, with the configured number of network retries. */
    constructor (apiKey: Option<string>, clientId: Option<string>, httpClient: Option<HttpClient>, maxNetworkRetries: int)
      ensures View() == ClientView(Some(DefaultApiBase), apiKey, clientId, Some(DefaultConnectBase), Some(DefaultFilesBase))
      ensures httpClient.Some? ==> this.httpClient == httpClient.value
      ensures httpClient.None? ==> this.httpClient == SystemNetHttpClient(maxNetworkRetries)
    {
      this.apiKey := apiKey;
      this.clientId := clientId;
      this.apiBase := Some(DefaultApiBase);
      this.connectBase := Some(DefaultConnectBase);
      this.filesBase := Some(DefaultFilesBase);
      this.httpClient := if httpClient.Some? then httpClient.value else SystemNetHttpClient(maxNetworkRetries);
    }

    /** The `IStripeClient` properties of this client. */
    function View(): ClientView
      reads this
    {
      ClientView(apiBase, apiKey, clientId, connectBase, filesBase)
    }

    /** `RequestAsync`: one `StripeRequest`, one send, one classification. */
    method RequestAsync<T>(verb: HttpMethod, path: string, options: Option<OptionsValue>,
                           ro: Option<RequestOptionsValue>, guid: string, decode: string -> Option<T>, f: Foreign)
      returns (r: Result<Decoded<T>, Exception>, ghost sent: Option<StripeRequest>)
      ensures r == Exchange(Call(View(), httpClient, verb, path, options, ro), guid, decode, f)
      ensures sent.None? <==> RequestOf(Call(View(), httpClient, verb, path, options, ro), guid, f).Failure?
      ensures sent.Some? ==> Success(sent.value) == RequestOf(Call(View(), httpClient, verb, path, options, ro), guid, f)
      ensures sent.Some? && f.send(httpClient, sent.value).Failure? ==>
        r == Failure(Transport(f.send(httpClient, sent.value).error))
      ensures sent.Some? && f.send(httpClient, sent.value).Success? ==>
        r == ProcessResponse(f.send(httpClient, sent.value).value, decode, f)
    {
      var request := NewStripeRequest(Some(View()), verb, path, options, ro, guid, f.form);
      if request.Failure? {
        return Failure(request.error), None;
      }
      sent := Some(request.value);
      var response := f.send(httpClient, request.value);
      if response.Failure? {
        return Failure(Transport(response.error)), sent;
      }
      r := ProcessResponse(response.value, decode, f);
    }
  }

  // ---- Properties of the classifier ----

  /** A non-200 response is never decoded into the success shape: the
      outcome does not depend on the entity decoder. */
  lemma ErrorResponseIgnoresDecoder<T>(response: StripeResponse, d1: string -> Option<T>, d2: string -> Option<T>, f: Foreign)
    requires response.statusCode != StatusOK
    ensures ProcessResponse(response, d1, f) == ProcessResponse(response, d2, f)
    ensures ProcessResponse(response, d1, f).Failure?
  {
  }

  /** Every `StripeException` the classifier produces carries the response
      and its status; one without a decoded error is the invalid-response
      exception, and a decoded error carries the response too. */
  lemma ClassifierErrorsCarryResponse<T>(response: StripeResponse, decode: string -> Option<T>, f: Foreign)
    ensures var r := ProcessResponse(response, decode, f);
      r.Failure? && r.error.Stripe? ==>
        && r.error.ex.stripeResponse == Some(response)
        && r.error.ex.httpStatusCode == Some(response.statusCode)
        && (r.error.ex.stripeError.None? ==> r.error.ex == InvalidResponse(response))
        && (r.error.ex.stripeError.Some? ==> r.error.ex.stripeError.value.stripeResponse == Some(response))
  {
  }

  /** The OAuth rule: when `error` is a string, the error is decoded from the
      whole body, so the description at top level becomes the message when
      there is no `message`. */
  lemma OAuthErrorUsesWholeBody(response: StripeResponse, f: Foreign, code: string, description: string)
    requires response.statusCode != StatusOK
    requires f.parseObject(response.content).Some?
    requires var obj := f.parseObject(response.content).value; "error" in obj && obj["error"] == JString(code)
    requires f.errorFromJson(response.content) == Some(StripeError(Some(code), None, Some(description), None))
    ensures var r := ProcessResponse<int>(response, _ => None, f);
      && r.Failure? && r.error.Stripe?
      && r.error.ex.message == Some(description)
      && r.error.ex.stripeError == Some(StripeError(Some(code), None, Some(description), Some(response)))
  {
  }

  /** The resource-API rule: when `error` is an object, only that object is
      decoded, and its `message` is the exception's message. */
  lemma ApiErrorUsesNestedObject(response: StripeResponse, f: Foreign, nested: map<string, Json>, err: StripeError)
    requires response.statusCode != StatusOK
    requires f.parseObject(response.content).Some?
    requires var obj := f.parseObject(response.content).value; "error" in obj && obj["error"] == JObject(nested)
    requires err.message.Some? && f.errorFromJson(f.tokenText(JObject(nested))) == Some(err)
    ensures var r := ProcessResponse<int>(response, _ => None, f);
      && r.Failure? && r.error.Stripe?
      && r.error.ex.message == err.message
      && r.error.ex.stripeError == Some(err.(stripeResponse := Some(response)))
  {
  }

  /** A call fails only with a `StripeException` (a local key check, an
      error response or an undecodable body), with the JSON failure of
      `StripeError.FromJson`, or with the failure of a send that was made;
      the client is never null here, so no null-argument error occurs. */
  lemma ExchangeFailureKinds<T>(call: Call, guid: string, decode: string -> Option<T>, f: Foreign)
    ensures var r := Exchange(call, guid, decode, f);
      r.Failure? ==> CallError(r.error)
    ensures var r := Exchange(call, guid, decode, f);
      r.Failure? && r.error.Transport? ==>
        && RequestOf(call, guid, f).Success?
        && f.send(call.httpClient, RequestOf(call, guid, f).value) == Failure(r.error.reason)
  {
  }

  /** Both API-key checks happen before anything is sent: a call whose key
      is missing or contains white space fails with that error whatever the
      network would have answered. */
  lemma KeyChecksPrecedeNetwork<T>(call: Call, guid: string, decode: string -> Option<T>, f: Foreign,
                                   send: (HttpClient, StripeRequest) -> Result<StripeResponse, string>)
    requires BuildAuthorizationHeader(call.client, call.requestOptions).Failure?
    ensures Exchange(call, guid, decode, f) == Exchange(call, guid, decode, f.(send := send))
    ensures Exchange(call, guid, decode, f) == Failure(BuildAuthorizationHeader(call.client, call.requestOptions).error)
  {
  }
}
