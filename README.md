# Stripe .NET client: request pipeline, services and configuration

This project models the core of the Stripe .NET client (stripe-dotnet) in
Dafny and proves properties of the model. A call goes through these stages:

- **Service base** (`Service<T>`). It resolves the client: its own, or the
  global one built lazily by `StripeConfiguration`. It fills in the request
  modifiers (`RequestOptions`) and adds the service's expansions to the
  parameters (`BaseOptions`). It maps each CRUD wrapper to an HTTP method and
  path.
- **`StripeClient`**. It builds one `StripeRequest`: first the URI, then the
  `Authorization` header, where the API key is checked twice, then the Stripe
  headers. All of this happens before anything is sent. The client then
  sends the request through its HTTP client and classifies the response. The
  outcome is a decoded entity, the "invalid response" exception, or an API
  error. The error is decoded from the whole body when `error` is a JSON
  string (OAuth errors), and from the `error` member alone otherwise.
- **Auto-paging**. List endpoints can be read page after page with a cursor
  (`StartingAfter`). The cursor is written into the caller's options object
  between pages.
- **OAuth** (`OAuthTokenService`). It is a service on the connect base. It
  fills an empty client id or client secret from the client, and it builds
  the authorize URL.
- **Configuration** (`StripeConfiguration`). It holds the global key, the
  client id, the application info and the lazily built client. That client
  is dropped whenever a different key or client id is assigned.

## How the source maps to Dafny

- **Null references** are `Option` values, and `a ?? b` is `Coalesce`.
- **Mutable objects are classes.** This covers the options objects, the
  client, each service and the configuration. Their methods have `modifies`
  clauses.
- **Each options object has a value snapshot** (`Value()`). The snapshot is
  what the form encoder sees.
- **A built `StripeRequest` is a datatype.** Its fields are readonly.
- **The static `StripeConfiguration` is one object.** Every service method
  that resolves the client is handed it as `config`.
- **Code the model cannot see becomes parameters.** This covers:
  - the form encoder;
  - `StripeEntity.FromJson` and `StripeError.FromJson`;
  - `JObject.Parse`, reduced to a small JSON datatype;
  - `JToken.ToString`;
  - `WebUtility.UrlEncode`;
  - the HTTP send, which either returns a response or fails with the
    reason `MakeRequestAsync` throws.

  All of these are fields of the `Client.Foreign` record, and the generated
  GUID is a `guid` argument.
- **Methods are tied to specification functions and predicates.** Every
  method that builds or sends something is proved equal to a function of its
  inputs and of the old state, or, for auto-paging, to satisfy a predicate
  over the run:
  - `UriFor` describes the URI;
  - `HeadersFor` describes the headers;
  - `RequestFor` describes the constructor;
  - `Exchange` describes one client call;
  - `ServiceCall` describes the call a service makes;
  - the predicate `PagingRun` describes an auto-paging run.

  The properties the source promises are then proved about these functions
  and predicates.

`Service.Service.ListRequestAutoPaging` is where the model does its main
proof work. It records these facts:

- every call it makes and what each call returned;
- the pages it got back;
- the items it yielded.

From the run it proves these properties:

- The items are the pages' items, page after page.
- Every call after the first continues from the page before it: same method,
  path, client and request options, with the cursor set to the last id.
- The run ends exactly when a page says there is no more, or when its last
  item has no id. An empty page ends it too.
- When the caller passed no options object, at most one call is made, even
  when the service's expansions create an options value for it. A page that
  asks for more then ends the run with a null dereference, because there is
  no object to take the cursor.
- The options object is set up again for every page, so the service's
  expansions are added to it once more for each page
  (`PagedExpansionsAccumulate`).

## Model

| member | source | states |
|---|---|---|
| Options.RequestOptions.constructor | src/Stripe.net/Services/_base/Service.cs:288-291 | a new `RequestOptions` has every modifier null |
| Options.BaseOptions.constructor | src/Stripe.net/Services/_base/Service.cs:277 | a new options object has no expansions, no cursor, no OAuth fields and no parameters |
| Options.BaseOptions.AddExpand | src/Stripe.net/Services/_base/Service.cs:280 | the attribute is appended at the end of `expand`; no other field changes |
| Request.UriFor | src/Stripe.net/Infrastructure/Public/StripeRequest.cs:91-106 | the URI starts with the base (the request's own base URL, else the client's API base) followed by the path; `?` and the query string follow only for a non-POST call with options whose query string is not empty |
| Request.BuildUri | src/Stripe.net/Infrastructure/Public/StripeRequest.cs:84-107 | the step-by-step `StringBuilder` assembly yields exactly `UriFor` |
| Request.BuildAuthorizationHeader | src/Stripe.net/Infrastructure/Public/StripeRequest.cs:109-135 | succeeds iff the effective key (override `??` client key) is non-empty and has no white space. Then the header is `Bearer <key>`. An empty key fails with the no-key message, checked first; a key with white space fails with the white-space message |
| Request.HeadersFor | src/Stripe.net/Infrastructure/Public/StripeRequest.cs:141-158 | the headers are a subset of the three Stripe headers. `Stripe-Version` is always present (override, else `ApiVersion`). `Stripe-Account` is present iff the override is non-empty. `Idempotency-Key` holds the caller's key whenever it is non-empty; otherwise it is present, holding the GUID, iff the method is POST |
| Request.BuildStripeHeaders | src/Stripe.net/Infrastructure/Public/StripeRequest.cs:137-161 | the conditional `Add` calls yield exactly `HeadersFor`, and no header is added twice |
| Request.RequestFor | src/Stripe.net/Infrastructure/Public/StripeRequest.cs:24-45 | a request is built iff the client is not null and the key checks pass; a null client fails with `ArgumentNullException("client")`; a failing key check fails with that check's error; a built request keeps the method and the options, and its URI, header and Stripe headers are those of `UriFor`, `BuildAuthorizationHeader` and `HeadersFor` |
| Request.NewStripeRequest | src/Stripe.net/Infrastructure/Public/StripeRequest.cs:24-45 | the constructor's sequence of null check, URI, header and headers yields exactly `RequestFor` |
| Request.Content | src/Stripe.net/Infrastructure/Public/StripeRequest.cs:71 | a built request has a body iff its method is POST, and the body encodes the options the request was built with |
| Request.BuildContent | src/Stripe.net/Infrastructure/Public/StripeRequest.cs:163-171 | there is a body iff the method is POST, and then it is the form encoding of the options (null included) |
| Request.EmptyKeyOverrideIsNotReplaced | src/Stripe.net/Infrastructure/Public/StripeRequest.cs:113-122 | an empty-string key override is not replaced by the client's key: the call fails with the no-key message |
| Request.OverrideKeyWins | src/Stripe.net/Infrastructure/Public/StripeRequest.cs:113-134 | a valid key override gives `Bearer <override>`; without one, the client's valid key is used |
| Request.GuidOnlyFeedsGeneratedKey | src/Stripe.net/Infrastructure/Public/StripeRequest.cs:151-158 | for GET and DELETE, or with a caller's idempotency key, the generated GUID has no effect on the built request |
| Request.DistinctGuidsDistinctKeys | src/Stripe.net/Infrastructure/Public/StripeRequest.cs:155-158 | a POST without a caller's key carries the generated GUID, so two distinct GUIDs give distinct idempotency keys |
| Request.DummyKeyIsValid | src/StripeTests/Infrastructure/Public/StripeRequestTest.cs:139-147 | the test client's key `sk_dummy` passes both key checks |
| Request.GetRequestShape | src/StripeTests/Infrastructure/Public/StripeRequestTest.cs:14-29 | the GET test: the query string is appended, the header is `Bearer sk_dummy`, only `Stripe-Version` is sent, and there is no body |
| Request.PostRequestShape | src/StripeTests/Infrastructure/Public/StripeRequestTest.cs:31-48 | the POST test: no query string, `Stripe-Version` plus a generated `Idempotency-Key`, and the encoded options as the body |
| Request.OverrideKeyIsValid | src/StripeTests/Infrastructure/Public/StripeRequestTest.cs:72 | the test's override key `sk_override` contains no white space, so it passes the white-space check |
| Request.RequestOptionsShape | src/StripeTests/Infrastructure/Public/StripeRequestTest.cs:67-90 | the request-options test: the override base URL, key, version, account and idempotency key all win over the client, even on a GET |
| Request.TrailingNewlineKeyRejected | src/StripeTests/Infrastructure/Public/StripeRequestTest.cs:122-137 | the white-space test: a key ending in a line feed is refused with the white-space message |
| Client.InvalidResponse | src/Stripe.net/Infrastructure/Public/StripeClient.cs:206-215 | the exception carries the status and the response but no decoded error, and its message quotes the whole body between `Invalid response object from API: "` and `"`, so the body can be read back from it |
| Client.ErrorEnvelope | src/Stripe.net/Infrastructure/Public/StripeClient.cs:170-193 | an error text exists iff the body parses as an object with an `error` member. It is the whole body when `error` is a string, and the `error` value's text otherwise |
| Client.BuildStripeException | src/Stripe.net/Infrastructure/Public/StripeClient.cs:168-204 | without an envelope, the invalid-response exception. Otherwise the decoded error, carrying the response, with message `Message ?? ErrorDescription`. Every such exception carries the status and the response; a failing error decoder escapes as a JSON failure |
| Client.ProcessResponse | src/Stripe.net/Infrastructure/Public/StripeClient.cs:145-166 | any status other than 200 raises `BuildStripeException`. Success iff the status is 200 and the body decodes, and the entity then carries its response. An undecodable 200 body raises the invalid-response exception |
| Client.StripeClient.constructor | src/Stripe.net/Infrastructure/Public/StripeClient.cs:25-42 | the key and client id are kept and the three bases are the defaults; a supplied HTTP client is kept, and only without one is a default client built with the configured retries |
| Client.StripeClient.RequestAsync | src/Stripe.net/Infrastructure/Public/StripeClient.cs:123-136 | one request is built; nothing is sent iff building fails; otherwise that request is sent once, a failed send fails the call with its reason, and a response is classified |
| Client.ErrorResponseIgnoresDecoder | src/Stripe.net/Infrastructure/Public/StripeClient.cs:148-151 | a non-200 outcome is a failure and does not depend on the entity decoder |
| Client.ClassifierErrorsCarryResponse | src/Stripe.net/Infrastructure/Public/StripeClient.cs:195-214 | every `StripeException` of the classifier carries the response and its status; one without a decoded error is the invalid-response exception |
| Client.OAuthErrorUsesWholeBody | src/Stripe.net/Infrastructure/Public/StripeClient.cs:181-200 | with a string `error`, the whole body is decoded, so a top-level description becomes the message |
| Client.ApiErrorUsesNestedObject | src/Stripe.net/Infrastructure/Public/StripeClient.cs:181-200 | with an object `error`, only that object is decoded, and its message is the exception's message |
| Client.ExchangeFailureKinds | src/Stripe.net/Infrastructure/Public/StripeClient.cs:131-135 | a client call fails only with a `StripeException`, the error decoder's JSON failure, or a transport failure; a transport failure means the request was built and its send failed with that reason |
| Client.KeyChecksPrecedeNetwork | src/Stripe.net/Infrastructure/Public/StripeClient.cs:131-133 | a call whose key check fails fails with that error, whatever the network would answer |
| Configuration.StripeConfiguration.constructor | src/Stripe.net/Infrastructure/Public/StripeConfiguration.cs:14-20 | before any assignment every setting is null and nothing is cached |
| Configuration.StripeConfiguration.GetStripeClient | src/Stripe.net/Infrastructure/Public/StripeConfiguration.cs:119-129 | a client is built from the stored key and client id only when the cache is empty; otherwise the cached instance is returned |
| Configuration.StripeConfiguration.PutStripeClient | src/Stripe.net/Infrastructure/Public/StripeConfiguration.cs:131 | any client, or null, replaces the cache |
| Configuration.StripeConfiguration.GetApiKey | src/Stripe.net/Infrastructure/Public/StripeConfiguration.cs:43 | in any state, the key is read through the current client, which is built when none is cached; it equals the stored key when that client was just built, or was built from the settings and still agrees with them |
| Configuration.StripeConfiguration.GetClientId | src/Stripe.net/Infrastructure/Public/StripeConfiguration.cs:69 | in any state, the client id is read through the current client, by the same rule |
| Configuration.StripeConfiguration.PutApiKey | src/Stripe.net/Infrastructure/Public/StripeConfiguration.cs:45-53 | in any state, the stored key is always replaced; the cache is dropped iff the value differs from the stored one, and is otherwise kept as it was |
| Configuration.StripeConfiguration.PutClientId | src/Stripe.net/Infrastructure/Public/StripeConfiguration.cs:71-79 | the same rule for the client id |
| Configuration.StripeConfiguration.SetApiKey | src/Stripe.net/Infrastructure/Public/StripeConfiguration.cs:188-191 | the same new state as assigning `ApiKey` |
| Configuration.StripeConfiguration.PutAppInfo | src/Stripe.net/Infrastructure/Public/StripeConfiguration.cs:145-159 | a value with a null or empty name throws and changes nothing; null and any value with a name are stored, and the client is then read, which builds one if none is cached |
| Configuration.StripeConfiguration.StableClient | src/Stripe.net/Infrastructure/Public/StripeConfiguration.cs:119-132 | in any state, two reads without an assignment in between return the same instance |
| Configuration.StripeConfiguration.ApiKeyRoundTrip | src/Stripe.net/Infrastructure/Public/StripeConfiguration.cs:41-54 | in any state, assigning a new key and reading it back returns it. Only re-assigning the stored value over a cached client returns that client's own key, which is the assigned one when the client was built from the settings and still agrees with them |
| Service.Expansions | src/Stripe.net/Services/_base/Service.cs:332-341 | one attribute per active flag, in order, under `data.` iff the call is a list call |
| Service.ExpansionsPrefixRule | src/Stripe.net/Services/_base/Service.cs:339 | a non-list call uses the attributes as they are; a list call asks for each under `data.` |
| Service.SetupOptionsValue | src/Stripe.net/Services/_base/Service.cs:269-284 | with no expansions, the options as they were, null included. Otherwise the expansions are appended in order to the options, or to an empty object when they were null, and nothing else changes |
| Service.SetupRequestOptionsValue | src/Stripe.net/Services/_base/Service.cs:286-301 | the service key fills the request key only when the request key is empty and the service key is not; the service base URL fills a null base URL; nothing else changes |
| Service.SetupRequestOptionsIdempotent | src/Stripe.net/Services/_base/Service.cs:286-301 | setting up request options that are already set up changes nothing |
| Service.OwnBaseUrlWins | src/Stripe.net/Services/_base/Service.cs:298 | with a base URL of the call's own, the service's base URL plays no part |
| Service.ServiceKeyAuthenticates | src/Stripe.net/Services/_base/Service.cs:293-296 | a non-empty service key is the effective key unless the call brings a non-empty key of its own |
| Service.ServiceCallUsesServiceBase | src/Stripe.net/Services/_base/Service.cs:224-231 | without a base URL of the call's own, a service call goes to the service's base URL |
| Service.FlattenLength | src/Stripe.net/Services/_base/Service.cs:248-253 | the number of items yielded is the sum of the page sizes |
| Service.NextPageCall | src/Stripe.net/Services/_base/Service.cs:260-265 | after a page that asks for more, the next request is the same call with the cursor set to the last id, set up again |
| Service.PagedCallsAgree | src/Stripe.net/Services/_base/Service.cs:240-265 | every page of a run is requested with the same method, path, client and request options as the first |
| Service.PagedExpansionsAccumulate | src/Stripe.net/Services/_base/Service.cs:260-265 | page `k` carries the caller's expansions followed by the service's expansions `k + 1` times, and it starts after the last item of page `k - 1` |
| Service.EmptyPageEndsPaging | src/Stripe.net/Services/_base/Service.cs:248-258 | an empty page is the last page of a run, even when it says there is more |
| Service.YieldPage | src/Stripe.net/Services/_base/Service.cs:248-253 | the `foreach` yields the page's items in order, and `itemId` ends as the last item's id (null for an empty page) |
| Service.AddExpansions | src/Stripe.net/Services/_base/Service.cs:278-281 | the loop appends every expansion in order; no other field changes |
| Service.TakePage | src/Stripe.net/Services/_base/Service.cs:248-260 | the run goes on iff the consumer still pulls, the page asks for more, its last id is non-empty, and there is an options object for the cursor; any other ending is a complete `PagingRun` |
| Service.Service.ClassUrl | src/Stripe.net/Services/_base/Service.cs:303-306 | the collection URL is the service's base path itself, with nothing appended |
| Service.Service.constructor | src/Stripe.net/Services/_base/Service.cs:18-27 | a service with its own key, or none, and no client of its own |
| Service.Service.PutClient | src/Stripe.net/Services/_base/Service.cs:40 | the `Client` setter stores the client of the service |
| Service.Service.GetClient | src/Stripe.net/Services/_base/Service.cs:37-39 | the service's own client when set, with the configuration untouched; otherwise the global client, built when none is cached |
| Service.Service.GetBaseUrl | src/Stripe.net/Services/_base/Service.cs:31 | the API base (or, for OAuth, the connect base) of the current client |
| Service.Service.InstanceUrl | src/Stripe.net/Services/_base/Service.cs:308-318 | fails with `ArgumentException` (parameter `id`) iff the id is null, empty or only white space; otherwise the class URL, `/` and the URL-encoded id |
| Service.Service.InstanceUrlAcceptsId | src/Stripe.net/Services/_base/Service.cs:310-317 | an id with one character that is not white space is accepted |
| Service.Service.SetupOptions | src/Stripe.net/Services/_base/Service.cs:269-284 | the options object, updated in place (or fresh when it was null and there are expansions), ends as `SetupOptionsValue` |
| Service.Service.SetupRequestOptions | src/Stripe.net/Services/_base/Service.cs:286-301 | the request options, updated in place (or fresh when null), end as `SetupRequestOptionsValue`; the client is consulted only when the base URL has to be filled |
| Service.Service.PrepareCall | src/Stripe.net/Services/_base/Service.cs:224-225 | after both setups, the call made is the `ServiceCall` of the options as they were before, against the resolved client |
| Service.Service.RequestAsync | src/Stripe.net/Services/_base/Service.cs:216-232 | one client call, the `ServiceCall` of the options as passed, with its outcome; the caller's options objects hold what was sent |
| Service.Service.CreateEntity | src/Stripe.net/Services/_base/Service.cs:43-50 | one call, the `ServiceCall` of POST on the class URL for the options as passed, with its outcome; the caller's options objects hold what was sent; when no client was cached, the one used is freshly built from the global settings |
| Service.Service.ListEntities | src/Stripe.net/Services/_base/Service.cs:117-126 | one call, the `ServiceCall` of GET on the class URL as a list call (so with `data.` expansions), with its outcome; the caller's options objects hold what was sent; when no client was cached, the one used is freshly built from the global settings |
| Service.Service.InstanceRequest | src/Stripe.net/Services/_base/Service.cs:65-75 | a refused id throws before anything is set up, resolved or sent; otherwise one call, the `ServiceCall` on the instance URL, with its outcome, and the caller's options objects hold what was sent; when no client was cached, the one used is freshly built from the global settings |
| Service.Service.DeleteEntity | src/Stripe.net/Services/_base/Service.cs:65-75 | the `ServiceCall` of DELETE on the instance URL for the options as passed, with its outcome, and the options objects hold what was sent; or the id error with nothing changed; when no client was cached, the one used is freshly built from the global settings |
| Service.Service.GetEntity | src/Stripe.net/Services/_base/Service.cs:91-101 | the `ServiceCall` of GET on the instance URL for the options as passed, with its outcome, and the options objects hold what was sent; or the id error with nothing changed; when no client was cached, the one used is freshly built from the global settings |
| Service.Service.UpdateEntity | src/Stripe.net/Services/_base/Service.cs:151-161 | the `ServiceCall` of POST on the instance URL for the options as passed, with its outcome, and the options objects hold what was sent; or the id error with nothing changed; when no client was cached, the one used is freshly built from the global settings |
| Service.Service.RequestNextPage | src/Stripe.net/Services/_base/Service.cs:260-265 | writes the cursor into the options object; the call made continues from the page before it, and its result is recorded; it fails only with a `StripeException`, the JSON failure, or a transport failure |
| Service.Service.PageStep | src/Stripe.net/Services/_base/Service.cs:246-266 | one turn of the loop: either the run ends and is a complete `PagingRun`, or one more page is recorded and the next call made continues from it, which happens only when there is an options object to take the cursor |
| Service.Service.DrainPages | src/Stripe.net/Services/_base/Service.cs:246-266 | the `while (true)` loop ends in a `PagingRun` whose calls are the ones made and answered; a null dereference happens only without an options object, and without one no call follows the first |
| Service.Service.ListRequestAutoPaging | src/Stripe.net/Services/_base/Service.cs:234-267 | no call before the first item is pulled. Otherwise the items are the pages' items in order, each call continues from the page before it, and the run ends on the last page, when the consumer stops, or on the first error. Without an options object at most one call is made, and a page that asks for more ends the run with a null dereference |
| Service.Service.ListEntitiesAutoPaging | src/Stripe.net/Services/_base/Service.cs:141-149 | auto-paging over the class URL, with every guarantee of `ListRequestAutoPaging`: the run, the state of the options object, no call for a budget of zero, a null dereference only without an options object, and at most one call without one |
| OAuth.FillIfEmptyRule | src/Stripe.net/Services/OAuth/OAuthTokenService.cs:33-36 | a non-empty value is kept; the result is empty iff both the value and the fallback are; filling twice fills once |
| OAuth.WithClientId | src/Stripe.net/Services/OAuth/OAuthTokenService.cs:28-36 | null options become a new object; an empty client id takes the client's; a non-empty one is kept; nothing else changes |
| OAuth.WithClientSecret | src/Stripe.net/Services/OAuth/OAuthTokenService.cs:50-58 | the same rule on the client secret, filled from the client's API key |
| OAuth.AuthorizePaths | src/Stripe.net/Services/OAuth/OAuthTokenService.cs:38-42 | the path is `/express/oauth/authorize` for Express accounts and `/oauth/authorize` otherwise |
| OAuth.AuthorizeUri | src/Stripe.net/Services/OAuth/OAuthTokenService.cs:44-45 | the URL reads back as connect base plus path, then `?` (present even for an empty query), then the query string |
| OAuth.TokenRequestGoesToConnectBase | src/Stripe.net/Services/OAuth/OAuthTokenService.cs:22-24 | a token request without a base URL of its own is a POST to the connect base followed by `/oauth/token`, built only when the key checks pass |
| OAuth.OAuthTokenService.constructor | src/Stripe.net/Services/OAuth/OAuthTokenService.cs:12-24 | a service on `/oauth/token` whose base URL is the connect base, with the given key or none |
| OAuth.OAuthTokenService.AuthorizeUrl | src/Stripe.net/Services/OAuth/OAuthTokenService.cs:26-46 | the options object (fresh when null) ends as `WithClientId` of the client's id, and the URL is `AuthorizeUri` of the client's connect base and the options' query string |
| OAuth.OAuthTokenService.Create | src/Stripe.net/Services/OAuth/OAuthTokenService.cs:48-76 | the secret is filled by `WithClientSecret` from the client's key, then one POST to the token path is made on the connect base, with its outcome; the options object (fresh when null) and the request options hold what was sent |
| OAuth.OAuthTokenService.Deauthorize | src/Stripe.net/Services/OAuth/OAuthTokenService.cs:78-106 | the client id is filled by `WithClientId`, then one POST to `/oauth/deauthorize` is made, with its outcome; the options object (fresh when null) and the request options hold what was sent |

## Left out

- I/O and concurrency:
  - the HTTP send is the `send` parameter; it either answers or fails, and
    a failure is passed on as a `Transport` exception carrying a reason, so
    the kind of exception the HTTP client throws is not modelled;
  - async/await, `CancellationToken` and the sync-over-async wrappers are
    modelled once, as one synchronous method per operation pair.
- Retries, back-off and telemetry live in `SystemNetHttpClient`, which is
  not part of this model. `MaxNetworkRetries` is kept only as the value a
  default HTTP client is built with.
- `InitUserAgentStrings` (the user-agent refresh after `AppInfo` is set) and
  the JSON serializer settings are not modelled. The client read that
  precedes the refresh is modelled.
- The `ConfigurationManager.AppSettings` fallback of the client's key and
  client id, compiled only for `NET45` and `NETSTANDARD2_0`, is not modelled.
- `new Uri(...)` is not modelled: URIs are strings, and a malformed URI
  raises no exception here. The same holds for the OAuth authorize URL.
- ExchangeFailureKinds: does not list the `UriFormatException` of
  `new Uri(...)`, because URI parsing is not modelled.
- The form encoder, `StripeEntity.FromJson`, `StripeError.FromJson`,
  `JObject.Parse`, `JToken.ToString` and `WebUtility.UrlEncode` are
  uninterpreted parameters:
  - a decoder returns None where the original throws a JSON exception;
  - an entity decoded as JSON `null`, which would make the assignment of its
    response throw, is not modelled.
- BuildStripeException: does not model a `StripeError.FromJson` that returns
  null rather than throwing. For example, an `error` member that is JSON
  `null` has the empty text, which decodes to null, and the assignment of the
  response then throws a `NullReferenceException`. The error decoder here
  either fails (`JsonError`) or yields an error.
- `Expansions` finds the `Expand*` flags by reflection and snake-cases their
  names. The model takes the list of active attribute names
  (`activeExpansions`) as given.
- `IsStripeList<T>` is a reflection test. The model passes it as the
  `isList` flag of `RequestAsync`: `true` for the list wrappers and the pager,
  `false` otherwise.
- The `IHasId` cast of each listed item is the `idOf` parameter.
- ListRequestAutoPaging and PagedCallsAgree: the consumer is assumed to
  change no configuration, service or options state between pages. In the
  source, consumer code runs between the items the iterator yields, and each
  page reads `this.Client` again. A consumer that assigns a new global key,
  replaces a client or edits the options object mid-iteration would have its
  later pages sent differently; the model runs all pages without
  interruption.
- Lazy enumeration is modelled by a page budget: the number of pages the
  consumer pulls before it stops. A consumer that stops in the middle of a
  page is modelled as one that takes that whole page.
- `IStripeClient` implementations other than `StripeClient` are not
  modelled. A service or the configuration always holds a `StripeClient` or
  null.
- The subclasses of `BaseOptions` (`ListOptions`, the OAuth options) are
  merged into one options class. `parameters` stands for the form parameters
  the model does not inspect. `BaseOptions.cs` is not part of this model;
  `AddExpand` is modelled from its use in `SetupOptions`.
- `ToString` of a request, `StripeNetVersion` and `FilesBase` are not
  modelled. No modelled code uses them, except that the client view carries
  `FilesBase`.
- `StringUtils.ContainsWhitespace` is modelled as "some character satisfies
  `char.IsWhiteSpace`", written out over the Unicode separator and control
  characters. `StringUtils` itself is not part of this model.
