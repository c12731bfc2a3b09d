/** `StripeRequest`: turns (client defaults, method, path, options, request
    options) into the URI, the Authorization header and the Stripe headers of
    one HTTP request. The only input that is not a function of these is the
    GUID generated for the idempotency key, which is passed in as `guid`. */
module Request {
  import opened Common
  import opened Options

  /** What the request builder reads from an `IStripeClient`. */
  datatype ClientView = ClientView(
    apiBase: Option<string>,
    apiKey: Option<string>,
    clientId: Option<string>,
    connectBase: Option<string>,
    filesBase: Option<string>)

  /** A built request. `options` is kept so that the body can be encoded
      when the request is sent. */
  datatype StripeRequest = StripeRequest(
    verb: HttpMethod,
    uri: string,
    authorizationHeader: string,
    stripeHeaders: map<string, string>,
    options: Option<OptionsValue>)

  const VersionHeader := "Stripe-Version"
  const AccountHeader := "Stripe-Account"
  const IdempotencyHeader := "Idempotency-Key"

  const NoApiKeyMessage := "No API key provided. Set your API key using "
    + "`StripeConfiguration.ApiKey = \"<API-KEY>\"`. You can generate API keys "
    + "from the Stripe Dashboard. See "
    + "https://stripe.com/docs/api/authentication for details or contact support "
    + "at https://support.stripe.com/email if you have any questions."

  const WhitespaceApiKeyMessage := "Your API key is invalid, as it contains whitespace. You can "
    + "double-check your API key from the Stripe Dashboard. See "
    + "https://stripe.com/docs/api/authentication for details or contact support "
    + "at https://support.stripe.com/email if you have any questions."

  /** A `StripeException` raised locally, with a message only. */
  function LocalError(message: string): Exception {
    Stripe(StripeException(None, None, Some(message), None))
  }

  /** `requestOptions?.BaseUrl ?? client.ApiBase`; appending a null string
      to a `StringBuilder` appends nothing. */
  function EffectiveBase(client: ClientView, ro: Option<RequestOptionsValue>): string {
    Coalesce(Fields(ro).baseUrl, client.apiBase).GetOr("")
  }

  /** `requestOptions?.ApiKey ?? client.ApiKey`. */
  function EffectiveApiKey(client: ClientView, ro: Option<RequestOptionsValue>): Option<string> {
    Coalesce(Fields(ro).apiKey, client.apiKey)
  }

  /** The URI of a request. */
  function UriFor(client: ClientView, verb: HttpMethod, path: string, options: Option<OptionsValue>,
                  ro: Option<RequestOptionsValue>, enc: FormEncoder): (uri: string)
    ensures |EffectiveBase(client, ro) + path| <= |uri|
    ensures uri[..|EffectiveBase(client, ro) + path|] == EffectiveBase(client, ro) + path
    ensures verb == Post || options.None? ==> uri == EffectiveBase(client, ro) + path
    ensures verb != Post && options.Some? && enc.queryString(options.value) == "" ==>
      uri == EffectiveBase(client, ro) + path
    ensures verb != Post && options.Some? && enc.queryString(options.value) != "" ==>
      uri == EffectiveBase(client, ro) + path + "?" + enc.queryString(options.value)
  {
    var prefix := EffectiveBase(client, ro) + path;
    if verb != Post && options.Some? && enc.queryString(options.value) != "" then
      prefix + "?" + enc.queryString(options.value)
    else
      prefix
  }

  /** `BuildUri`: appends the base, the path and, for a non-POST request with
      options whose query string is not empty, `?` and the query string. */
  method BuildUri(client: ClientView, verb: HttpMethod, path: string, options: Option<OptionsValue>,
                  ro: Option<RequestOptionsValue>, enc: FormEncoder) returns (uri: string)
    ensures uri == UriFor(client, verb, path, options, ro, enc)
  {
    var b := "";
    b := b + Coalesce(Fields(ro).baseUrl, client.apiBase).GetOr("");
    b := b + path;
    if verb != Post && options.Some? {
      var queryString := enc.queryString(options.value);
      if queryString != "" {
        b := b + "?";
        b := b + queryString;
      }
    }
    uri := b;
  }

  /** `BuildAuthorizationHeader`: the effective key must be non-empty (checked
      first) and free of white space; the header is then `Bearer <key>`. */
  function BuildAuthorizationHeader(client: ClientView, ro: Option<RequestOptionsValue>): (r: Result<string, Exception>)
    ensures r.Success? <==>
      !IsNullOrEmpty(EffectiveApiKey(client, ro)) && !ContainsWhitespace(EffectiveApiKey(client, ro).value)
    ensures r.Success? ==> r.value == "Bearer " + EffectiveApiKey(client, ro).value
    ensures IsNullOrEmpty(EffectiveApiKey(client, ro)) ==> r == Failure(LocalError(NoApiKeyMessage))
    ensures !IsNullOrEmpty(EffectiveApiKey(client, ro)) && ContainsWhitespace(EffectiveApiKey(client, ro).value) ==>
      r == Failure(LocalError(WhitespaceApiKeyMessage))
  {
    var apiKey := EffectiveApiKey(client, ro);
    if IsNullOrEmpty(apiKey) then Failure(LocalError(NoApiKeyMessage))
    else if ContainsWhitespace(apiKey.value) then Failure(LocalError(WhitespaceApiKeyMessage))
    else Success("Bearer " + apiKey.value)
  }

  /** The Stripe headers of a request. */
  function HeadersFor(verb: HttpMethod, ro: Option<RequestOptionsValue>, guid: string): (h: map<string, string>)
    ensures h.Keys <= {VersionHeader, AccountHeader, IdempotencyHeader}
    ensures VersionHeader in h && h[VersionHeader] == Fields(ro).stripeVersion.GetOr(ApiVersion)
    ensures AccountHeader in h <==> !IsNullOrEmpty(Fields(ro).stripeAccount)
    ensures AccountHeader in h ==> h[AccountHeader] == Fields(ro).stripeAccount.value
    ensures !IsNullOrEmpty(Fields(ro).idempotencyKey) ==>
      IdempotencyHeader in h && h[IdempotencyHeader] == Fields(ro).idempotencyKey.value
    ensures IsNullOrEmpty(Fields(ro).idempotencyKey) ==>
      (IdempotencyHeader in h <==> verb == Post) && (IdempotencyHeader in h ==> h[IdempotencyHeader] == guid)
  {
    var fields := Fields(ro);
    var withVersion := map[VersionHeader := fields.stripeVersion.GetOr(ApiVersion)];
    var withAccount :=
      if !IsNullOrEmpty(fields.stripeAccount) then withVersion[AccountHeader := fields.stripeAccount.value]
      else withVersion;
    if !IsNullOrEmpty(fields.idempotencyKey) then withAccount[IdempotencyHeader := fields.idempotencyKey.value]
    else if verb == Post then withAccount[IdempotencyHeader := guid]
    else withAccount
  }

  /** `BuildStripeHeaders`: fills a dictionary with conditional `Add` calls.
      No key is added twice, so no `Add` can throw. */
  method BuildStripeHeaders(verb: HttpMethod, ro: Option<RequestOptionsValue>, guid: string)
    returns (stripeHeaders: map<string, string>)
    ensures stripeHeaders == HeadersFor(verb, ro, guid)
  {
    stripeHeaders := map[VersionHeader := Coalesce(Fields(ro).stripeVersion, Some(ApiVersion)).value];
    if !IsNullOrEmpty(Fields(ro).stripeAccount) {
      assert AccountHeader !in stripeHeaders;
      stripeHeaders := stripeHeaders[AccountHeader := ro.value.stripeAccount.value];
    }
    if !IsNullOrEmpty(Fields(ro).idempotencyKey) {
      assert IdempotencyHeader !in stripeHeaders;
      stripeHeaders := stripeHeaders[IdempotencyHeader := ro.value.idempotencyKey.value];
    } else if verb == Post {
      assert IdempotencyHeader !in stripeHeaders;
      stripeHeaders := stripeHeaders[IdempotencyHeader := guid];
    }
  }

  /** The outcome of the `StripeRequest` constructor. */
  function RequestFor(client: Option<ClientView>, verb: HttpMethod, path: string, options: Option<OptionsValue>,
                      ro: Option<RequestOptionsValue>, guid: string, enc: FormEncoder): (r: Result<StripeRequest, Exception>)
    ensures r.Success? <==> client.Some? && BuildAuthorizationHeader(client.value, ro).Success?
    ensures client.None? ==> r == Failure(ArgumentNull("client"))
    ensures client.Some? && BuildAuthorizationHeader(client.value, ro).Failure? ==>
      r == Failure(BuildAuthorizationHeader(client.value, ro).error)
    ensures r.Success? ==> client.Some? && r.value.verb == verb && r.value.options == options
    ensures r.Success? ==> Success(r.value.authorizationHeader) == BuildAuthorizationHeader(client.value, ro)
    ensures r.Success? ==> r.value.uri == UriFor(client.value, verb, path, options, ro, enc)
    ensures r.Success? ==> r.value.stripeHeaders == HeadersFor(verb, ro, guid)
  {
    if client.None? then Failure(ArgumentNull("client"))
    else
      match BuildAuthorizationHeader(client.value, ro)
      case Failure(e) => Failure(e)
      case Success(auth) =>
        Success(StripeRequest(verb, UriFor(client.value, verb, path, options, ro, enc), auth,
                              HeadersFor(verb, ro, guid), options))
  }

  /** The `StripeRequest` constructor: a null client is rejected before
      anything is built; then the URI, the Authorization header (which may
      throw) and the Stripe headers are built in that order. */
  method NewStripeRequest(client: Option<ClientView>, verb: HttpMethod, path: string, options: Option<OptionsValue>,
                          ro: Option<RequestOptionsValue>, guid: string, enc: FormEncoder)
    returns (r: Result<StripeRequest, Exception>)
    ensures r == RequestFor(client, verb, path, options, ro, guid, enc)
  {
    if client.None? {
      return Failure(ArgumentNull("client"));
    }
    var uri := BuildUri(client.value, verb, path, options, ro, enc);
    var auth := BuildAuthorizationHeader(client.value, ro);
    if auth.Failure? {
      return Failure(auth.error);
    }
    var stripeHeaders := BuildStripeHeaders(verb, ro, guid);
    r := Success(StripeRequest(verb, uri, auth.value, stripeHeaders, options));
  }

  /** `BuildContent`: the body, present only for POST. */
  function BuildContent(verb: HttpMethod, options: Option<OptionsValue>, enc: FormEncoder): (content: Option<string>)
    ensures content.Some? <==> verb == Post
    ensures verb == Post ==> content == Some(enc.httpContent(options))
  {
    if verb != Post then None else Some(enc.httpContent(options))
  }

  /** The `Content` property of a built request: a body only for POST,
      encoded from the options the request was built with. */
  function Content(request: StripeRequest, enc: FormEncoder): (content: Option<string>)
    ensures content.Some? <==> request.verb == Post
    ensures request.verb == Post ==> content == Some(enc.httpContent(request.options))
  {
    BuildContent(request.verb, request.options, enc)
  }

  // ---- Properties of the request builder ----

  /** Null-coalescing only: an empty-string override of the key is used as
      such (and rejected), whatever key the client holds. */
  lemma EmptyKeyOverrideIsNotReplaced(client: ClientView, ro: RequestOptionsValue)
    requires ro.apiKey == Some("")
    ensures BuildAuthorizationHeader(client, Some(ro)) == Failure(LocalError(NoApiKeyMessage))
  {
  }

  /** An overriding key wins over the client's key; without one the
      client's key is used. */
  lemma OverrideKeyWins(client: ClientView, ro: Option<RequestOptionsValue>, key: string)
    requires key != "" && !ContainsWhitespace(key)
    requires Fields(ro).apiKey == Some(key) || (Fields(ro).apiKey.None? && client.apiKey == Some(key))
    ensures BuildAuthorizationHeader(client, ro) == Success("Bearer " + key)
  {
  }

  /** Two requests built from the same inputs differ at most in the
      idempotency key, and only when it was generated: with a caller's key,
      or for GET and DELETE, the GUID plays no part. */
  lemma GuidOnlyFeedsGeneratedKey(client: Option<ClientView>, verb: HttpMethod, path: string,
                                  options: Option<OptionsValue>, ro: Option<RequestOptionsValue>,
                                  g1: string, g2: string, enc: FormEncoder)
    requires verb != Post || !IsNullOrEmpty(Fields(ro).idempotencyKey)
    ensures RequestFor(client, verb, path, options, ro, g1, enc) == RequestFor(client, verb, path, options, ro, g2, enc)
  {
    var h1, h2 := HeadersFor(verb, ro, g1), HeadersFor(verb, ro, g2);
    assert h1.Keys == h2.Keys;
    assert forall k :: k in h1 ==> h1[k] == h2[k];
  }

  /** An example of `HeadersFor`: a POST without a caller's key uses the
      generated GUID, so two builds with distinct GUIDs carry distinct
      idempotency keys. */
  lemma DistinctGuidsDistinctKeys(verb: HttpMethod, ro: Option<RequestOptionsValue>, g1: string, g2: string)
    requires verb == Post && IsNullOrEmpty(Fields(ro).idempotencyKey) && g1 != g2
    ensures HeadersFor(verb, ro, g1)[IdempotencyHeader] != HeadersFor(verb, ro, g2)[IdempotencyHeader]
  {
  }

  /** The test client: key `sk_dummy`, no client id, and the default API,
      connect and files bases. */
  const DummyClient := ClientView(Some("https://api.stripe.com"), Some("sk_dummy"), None,
                                  Some("https://connect.stripe.com"), Some("https://files.stripe.com"))

  lemma DummyKeyIsValid()
    ensures BuildAuthorizationHeader(DummyClient, Some(NoRequestOptions)) == Success("Bearer sk_dummy")
  {
    var key := "sk_dummy";
    assert EffectiveApiKey(DummyClient, Some(NoRequestOptions)) == Some(key);
    assert !ContainsWhitespace(key) by {
      forall i | 0 <= i < |key| ensures !IsWhiteSpace(key[i]) {
        assert key[i] in {'s', 'k', '_', 'd', 'u', 'm', 'y'};
      }
    }
    assert "Bearer " + key == "Bearer sk_dummy";
  }

  /** The request-options test: every modifier of the call wins over the
      client, and a caller's idempotency key is sent even on a GET. */
  const OverrideOptions := RequestOptionsValue(Some("sk_override"), Some("idempotency_key"), Some("acct_456"),
                                               Some("https://example.com"), Some("2012-12-21"))

  lemma RequestOptionsShape(enc: FormEncoder, guid: string)
    ensures var r := RequestFor(Some(DummyClient), Get, "/get", None, Some(OverrideOptions), guid, enc);
      && r.Success? && r.value.uri == "https://example.com/get"
      && r.value.authorizationHeader == "Bearer sk_override"
      && r.value.stripeHeaders == map[VersionHeader := "2012-12-21", AccountHeader := "acct_456",
                                      IdempotencyHeader := "idempotency_key"]
      && Content(r.value, enc).None?
  {
    OverrideKeyIsValid();
    OverrideKeyWins(DummyClient, Some(OverrideOptions), "sk_override");
    var h := HeadersFor(Get, Some(OverrideOptions), guid);
    assert h.Keys == {VersionHeader, AccountHeader, IdempotencyHeader};
  }

  lemma OverrideKeyIsValid()
    ensures !ContainsWhitespace("sk_override")
  {
    var key := "sk_override";
    forall i | 0 <= i < |key| ensures !IsWhiteSpace(key[i]) {
      assert key[i] in {'s', 'k', '_', 'o', 'v', 'e', 'r', 'i', 'd'};
    }
  }

  /** The white-space test: a key ending in a line feed is refused with the
      white-space message, before the request is built. */
  lemma TrailingNewlineKeyRejected(options: Option<OptionsValue>, guid: string, enc: FormEncoder)
    ensures RequestFor(Some(DummyClient.(apiKey := Some("sk_test_123\n"))), Get, "/get", options,
                       Some(NoRequestOptions), guid, enc)
         == Failure(LocalError(WhitespaceApiKeyMessage))
  {
    var key := "sk_test_123\n";
    assert IsWhiteSpace(key[|key| - 1]);
  }

  /** The GET test: options rendered as `string=string!` go to the query
      string; no idempotency key, no account header, no body. */
  lemma GetRequestShape(enc: FormEncoder, o: OptionsValue, guid: string)
    requires enc.queryString(o) == "string=string!"
    ensures var r := RequestFor(Some(DummyClient), Get, "/get", Some(o), Some(NoRequestOptions), guid, enc);
      && r.Success? && r.value.uri == "https://api.stripe.com/get?string=string!"
      && r.value.authorizationHeader == "Bearer sk_dummy"
      && r.value.stripeHeaders == map[VersionHeader := ApiVersion]
      && Content(r.value, enc).None?
  {
    DummyKeyIsValid();
    var h := HeadersFor(Get, Some(NoRequestOptions), guid);
    assert h.Keys == {VersionHeader};
  }

  /** The POST test: no query string, a generated idempotency key, and the
      options form-encoded in the body. */
  lemma PostRequestShape(enc: FormEncoder, o: OptionsValue, guid: string)
    requires enc.httpContent(Some(o)) == "string=string!"
    ensures var r := RequestFor(Some(DummyClient), Post, "/post", Some(o), Some(NoRequestOptions), guid, enc);
      && r.Success? && r.value.uri == "https://api.stripe.com/post"
      && r.value.authorizationHeader == "Bearer sk_dummy"
      && r.value.stripeHeaders == map[VersionHeader := ApiVersion, IdempotencyHeader := guid]
      && Content(r.value, enc) == Some("string=string!")
  {
    DummyKeyIsValid();
    var h := HeadersFor(Post, Some(NoRequestOptions), guid);
    assert h.Keys == {VersionHeader, IdempotencyHeader};
  }
}
