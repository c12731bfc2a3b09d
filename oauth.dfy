/** `OAuthTokenService`: the Connect OAuth endpoints. It is a service whose
    base path is the token endpoint and whose base URL is the client's
    connect base; besides creating tokens it builds the authorize URL and
    deauthorizes an account. */
module OAuth {
  import opened Common
  import opened Options
  import opened Request
  import opened Client
  import opened Configuration
  import opened Service

  const TokenPath := "/oauth/token"
  const AuthorizePathSuffix := "/oauth/authorize"
  const ExpressPrefix := "/express"
  const DeauthorizePath := "/oauth/deauthorize"

  /** `string.IsNullOrEmpty(x) ? fallback : x`, the defaulting rule of
      `ClientId` and `ClientSecret`. */
  function FillIfEmpty(s: Option<string>, fallback: Option<string>): Option<string> {
    if IsNullOrEmpty(s) then fallback else s
  }

  /** Only an empty value is replaced, so the result is empty exactly when
      both are; filling twice with the same fallback fills once. */
  lemma FillIfEmptyRule(s: Option<string>, fallback: Option<string>)
    ensures !IsNullOrEmpty(s) ==> FillIfEmpty(s, fallback) == s
    ensures IsNullOrEmpty(FillIfEmpty(s, fallback)) <==> IsNullOrEmpty(s) && IsNullOrEmpty(fallback)
    ensures FillIfEmpty(FillIfEmpty(s, fallback), fallback) == FillIfEmpty(s, fallback)
  {
  }

  /** The options an OAuth call sends: the caller's options, or a new
      object when there were none, with an empty client id filled. */
  function WithClientId(options: Option<OptionsValue>, clientId: Option<string>): (r: OptionsValue)
    ensures r.(clientId := options.GetOr(NoOptions).clientId) == options.GetOr(NoOptions)
    ensures !IsNullOrEmpty(options.GetOr(NoOptions).clientId) ==> r.clientId == options.value.clientId
    ensures IsNullOrEmpty(options.GetOr(NoOptions).clientId) ==> r.clientId == clientId
  {
    var v := options.GetOr(NoOptions);
    v.(clientId := FillIfEmpty(v.clientId, clientId))
  }

  /** The same rule on the client secret. */
  function WithClientSecret(options: Option<OptionsValue>, secret: Option<string>): (r: OptionsValue)
    ensures r.(clientSecret := options.GetOr(NoOptions).clientSecret) == options.GetOr(NoOptions)
    ensures !IsNullOrEmpty(options.GetOr(NoOptions).clientSecret) ==> r.clientSecret == options.value.clientSecret
    ensures IsNullOrEmpty(options.GetOr(NoOptions).clientSecret) ==> r.clientSecret == secret
  {
    var v := options.GetOr(NoOptions);
    v.(clientSecret := FillIfEmpty(v.clientSecret, secret))
  }

  /** The authorize path, under `/express` for Express accounts. */
  function AuthorizePath(express: bool): string {
    if express then ExpressPrefix + AuthorizePathSuffix else AuthorizePathSuffix
  }

  /** An example of `AuthorizePath`: the two paths the source uses. */
  lemma AuthorizePaths()
    ensures AuthorizePath(false) == "/oauth/authorize"
    ensures AuthorizePath(true) == "/express/oauth/authorize"
  {
  }

  /** The authorize URL: the connect base (nothing for a null base), the
      path, a `?` that is there even for an empty query, and the query. The
      three parts can be read back from the URL. */
  function AuthorizeUri(connectBase: Option<string>, express: bool, query: string): (uri: string)
    ensures var prefix := connectBase.GetOr("") + AuthorizePath(express);
      && |uri| == |prefix| + 1 + |query|
      && uri[..|prefix|] == prefix
      && uri[|prefix|] == '?'
      && uri[|prefix| + 1..] == query
  {
    var prefix := connectBase.GetOr("") + AuthorizePath(express);
    assert (prefix + "?" + query)[..|prefix|] == prefix;
    assert (prefix + "?" + query)[|prefix| + 1..] == query;
    prefix + "?" + query
  }

  /** Without a base URL of the call's own, and with a connect base on the
      client, a token request goes to the connect base followed by
      `/oauth/token`; it is never built when the key checks fail. */
  lemma TokenRequestGoesToConnectBase(view: ClientView, http: HttpClient, options: Option<OptionsValue>,
                                      ro: Option<RequestOptionsValue>, serviceKey: Option<string>,
                                      expansions: seq<string>, guid: string, f: Foreign)
    requires Fields(ro).baseUrl.None? && view.connectBase.Some?
    ensures var call := ServiceCall(view, http, Post, TokenPath, options, ro, serviceKey, FromConnectBase, expansions);
      var request := RequestOf(call, guid, f);
      && (request.Success? ==> request.value.verb == Post && request.value.uri == view.connectBase.value + TokenPath)
      && (request.Failure? ==> request == Failure(BuildAuthorizationHeader(call.client, call.requestOptions).error))
  {
    var call := ServiceCall(view, http, Post, TokenPath, options, ro, serviceKey, FromConnectBase, expansions);
    assert EffectiveBase(call.client, call.requestOptions) == view.connectBase.value;
  }

  class OAuthTokenService {
    /** The `Service<OAuthToken>` this service is. */
    const service: Service

    /** The token endpoint on the connect base. */
    ghost predicate Valid() {
      service.basePath == TokenPath && service.baseUrlSource == FromConnectBase
    }

    /** `OAuthTokenService()` and `OAuthTokenService(apiKey)`. */
    constructor (apiKey: Option<string>)
      ensures Valid() && fresh(service)
      ensures service.apiKey == apiKey && service.stripeClient == null && service.activeExpansions == []
    {
      service := new Service(TokenPath, FromConnectBase, apiKey);
    }

    /** `AuthorizeUrl`: fills an empty client id from the client and builds
        the authorize URL on the client's connect base. */
    method AuthorizeUrl(options: BaseOptions?, express: bool, config: StripeConfiguration, enc: FormEncoder)
      returns (uri: string, o: BaseOptions)
      modifies options, config`stripeClient, config`cacheFromFields
      ensures options != null ==> o == options
      ensures options == null ==> fresh(o)
      ensures service.CurrentClient(config) != null
      ensures old(service.CurrentClient(config)) != null ==> service.CurrentClient(config) == old(service.CurrentClient(config))
      ensures o.Value() == WithClientId(old(OptionsSnapshot(options)), service.CurrentClient(config).clientId)
      ensures uri == AuthorizeUri(service.CurrentClient(config).connectBase, express, enc.queryString(o.Value()))
    {
      if options == null {
        o := new BaseOptions();
      } else {
        o := options;
      }
      if IsNullOrEmpty(o.clientId) {
        var c := service.GetClient(config);
        o.clientId := c.clientId;
      }
      var path := AuthorizePathSuffix;
      if express {
        path := ExpressPrefix + path;
      }
      var client := service.GetClient(config);
      uri := client.connectBase.GetOr("") + path + "?" + enc.queryString(o.Value());
    }

    /** `Create`: fills an empty client secret with the client's API key,
        then creates the token with a POST to the token endpoint. */
    method Create<T>(options: BaseOptions?, ro: RequestOptions?, config: StripeConfiguration,
                     guid: string, decode: string -> Option<T>, f: Foreign)
      returns (r: Result<Decoded<T>, Exception>, o: BaseOptions, ghost call: Call)
      requires Valid()
      modifies options, ro, config`stripeClient, config`cacheFromFields
      ensures options != null ==> o == options
      ensures options == null ==> fresh(o)
      ensures service.CurrentClient(config) != null
      ensures old(service.CurrentClient(config)) != null ==> service.CurrentClient(config) == old(service.CurrentClient(config))
      ensures call == ServiceCall(service.CurrentClient(config).View(), service.CurrentClient(config).httpClient, Post,
                                  TokenPath,
                                  Some(WithClientSecret(old(OptionsSnapshot(options)), service.CurrentClient(config).apiKey)),
                                  old(RequestOptionsSnapshot(ro)), service.apiKey, FromConnectBase,
                                  Expansions(service.activeExpansions, false))
      ensures r == Exchange(call, guid, decode, f)
      ensures Some(o.Value()) == call.options
      ensures ro != null ==> Some(ro.Value()) == call.requestOptions
    {
      ghost var ro0 := RequestOptionsSnapshot(ro);
      if options == null {
        o := new BaseOptions();
      } else {
        o := options;
      }
      if IsNullOrEmpty(o.clientSecret) {
        var c := service.GetClient(config);
        o.clientSecret := c.apiKey;
      }
      assert RequestOptionsSnapshot(ro) == ro0;
      r, call := service.CreateEntity(o, ro, config, guid, decode, f);
    }

    /** `Deauthorize`: fills an empty client id from the client, then POSTs
        to `/oauth/deauthorize`. */
    method Deauthorize<T>(options: BaseOptions?, ro: RequestOptions?, config: StripeConfiguration,
                          guid: string, decode: string -> Option<T>, f: Foreign)
      returns (r: Result<Decoded<T>, Exception>, o: BaseOptions, ghost call: Call)
      requires Valid()
      modifies options, ro, config`stripeClient, config`cacheFromFields
      ensures options != null ==> o == options
      ensures options == null ==> fresh(o)
      ensures service.CurrentClient(config) != null
      ensures old(service.CurrentClient(config)) != null ==> service.CurrentClient(config) == old(service.CurrentClient(config))
      ensures call == ServiceCall(service.CurrentClient(config).View(), service.CurrentClient(config).httpClient, Post,
                                  DeauthorizePath,
                                  Some(WithClientId(old(OptionsSnapshot(options)), service.CurrentClient(config).clientId)),
                                  old(RequestOptionsSnapshot(ro)), service.apiKey, FromConnectBase,
                                  Expansions(service.activeExpansions, false))
      ensures r == Exchange(call, guid, decode, f)
      ensures Some(o.Value()) == call.options
      ensures ro != null ==> Some(ro.Value()) == call.requestOptions
    {
      ghost var ro0 := RequestOptionsSnapshot(ro);
      if options == null {
        o := new BaseOptions();
      } else {
        o := options;
      }
      if IsNullOrEmpty(o.clientId) {
        var c := service.GetClient(config);
        o.clientId := c.clientId;
      }
      assert RequestOptionsSnapshot(ro) == ro0;
      r, call := service.RequestAsync(Post, DeauthorizePath, o, ro, false, config, guid, decode, f);
    }
  }
}
