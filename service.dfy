/** `Service<T>`: the base of every resource service. It resolves the client,
    fills in the per-call options, maps each CRUD wrapper to an HTTP method
    and path, and pages through list endpoints. */
module Service {
  import opened Common
  import opened Options
  import opened Request
  import opened Client
  import opened Configuration

  const IdErrorMessage := "The resource ID cannot be null or whitespace."
  const ListPrefix := "data."

  /** Where a service's `BaseUrl` comes from: `Client.ApiBase` by default,
      `Client.ConnectBase` for the OAuth service. */
  datatype BaseUrlSource = FromApiBase | FromConnectBase

  function BaseUrlFor(source: BaseUrlSource, client: ClientView): Option<string> {
    match source
    case FromApiBase => client.apiBase
    case FromConnectBase => client.connectBase
  }

  /** `Expansions`: the attributes of the service's active `Expand*` flags,
      each under `data.` when the call is a list call. */
  function Expansions(active: seq<string>, isList: bool): (r: seq<string>)
    ensures |r| == |active|
    ensures forall i :: 0 <= i < |r| ==> r[i] == (if isList then ListPrefix + active[i] else active[i])
  {
    if |active| == 0 then []
    else [if isList then ListPrefix + active[0] else active[0]] + Expansions(active[1..], isList)
  }

  /** A non-list call uses the attributes as they are; a list call asks
      for the same attributes, each under the `data.` prefix. */
  lemma {:induction false} ExpansionsPrefixRule(active: seq<string>)
    ensures Expansions(active, false) == active
    ensures forall i :: 0 <= i < |active| ==> Expansions(active, true)[i] == ListPrefix + Expansions(active, false)[i]
  {
    var plain := Expansions(active, false);
    assert |plain| == |active| && forall i :: 0 <= i < |active| ==> plain[i] == active[i];
  }

  /** The value `SetupOptions` leaves: with no expansions the options as
      they were (null included); otherwise the expansions appended, in
      order, to the options or to an empty options object. */
  function SetupOptionsValue(options: Option<OptionsValue>, expansions: seq<string>): (r: Option<OptionsValue>)
    ensures r.None? <==> options.None? && |expansions| == 0
    ensures |expansions| == 0 ==> r == options
    ensures r.Some? ==> var before := options.GetOr(NoOptions);
      && r.value.expand == before.expand + expansions
      && r.value.(expand := before.expand) == before
  {
    if |expansions| == 0 then options
    else
      var before := options.GetOr(NoOptions);
      Some(before.(expand := before.expand + expansions))
  }

  /** The value `SetupRequestOptions` leaves: the service key fills an empty
      request key, the service base URL fills a null base URL, and nothing
      else changes. */
  function SetupRequestOptionsValue(ro: Option<RequestOptionsValue>, serviceKey: Option<string>, baseUrl: Option<string>)
    : (r: RequestOptionsValue)
    ensures !IsNullOrEmpty(Fields(ro).apiKey) ==> r.apiKey == Fields(ro).apiKey
    ensures IsNullOrEmpty(Fields(ro).apiKey) && !IsNullOrEmpty(serviceKey) ==> r.apiKey == serviceKey
    ensures IsNullOrEmpty(Fields(ro).apiKey) && IsNullOrEmpty(serviceKey) ==> r.apiKey == Fields(ro).apiKey
    ensures Fields(ro).baseUrl.Some? ==> r.baseUrl == Fields(ro).baseUrl
    ensures Fields(ro).baseUrl.None? ==> r.baseUrl == baseUrl
    ensures r.idempotencyKey == Fields(ro).idempotencyKey
    ensures r.stripeAccount == Fields(ro).stripeAccount
    ensures r.stripeVersion == Fields(ro).stripeVersion
  {
    var v := Fields(ro);
    var withKey := if IsNullOrEmpty(v.apiKey) && !IsNullOrEmpty(serviceKey) then v.(apiKey := serviceKey) else v;
    withKey.(baseUrl := Coalesce(withKey.baseUrl, baseUrl))
  }

  /** Setting up request options that are already set up changes nothing;
      this is why every page of a listing is fetched with the same request
      options. */
  lemma SetupRequestOptionsIdempotent(ro: Option<RequestOptionsValue>, serviceKey: Option<string>, baseUrl: Option<string>)
    ensures var once := SetupRequestOptionsValue(ro, serviceKey, baseUrl);
      SetupRequestOptionsValue(Some(once), serviceKey, baseUrl) == once
  {
  }

  /** A base URL of the call's own wins: the service's base URL is then
      never consulted. */
  lemma OwnBaseUrlWins(ro: Option<RequestOptionsValue>, serviceKey: Option<string>, u1: Option<string>, u2: Option<string>)
    requires Fields(ro).baseUrl.Some?
    ensures SetupRequestOptionsValue(ro, serviceKey, u1) == SetupRequestOptionsValue(ro, serviceKey, u2)
    ensures SetupRequestOptionsValue(ro, serviceKey, u1).baseUrl == Fields(ro).baseUrl
  {
  }

  /** A non-empty service key reaches the Authorization header whenever the
      call brings no key of its own; a key of the call's own always wins. */
  lemma ServiceKeyAuthenticates(client: ClientView, ro: Option<RequestOptionsValue>, serviceKey: string, baseUrl: Option<string>)
    requires serviceKey != ""
    ensures var setup := Some(SetupRequestOptionsValue(ro, Some(serviceKey), baseUrl));
      && (IsNullOrEmpty(Fields(ro).apiKey) ==> EffectiveApiKey(client, setup) == Some(serviceKey))
      && (!IsNullOrEmpty(Fields(ro).apiKey) ==> EffectiveApiKey(client, setup) == Fields(ro).apiKey)
  {
  }

  /** The call `Service.RequestAsync` hands to the client: the options and
      request options after setup, against the resolved client. */
  function ServiceCall(view: ClientView, http: HttpClient, verb: HttpMethod, path: string,
                       options: Option<OptionsValue>, ro: Option<RequestOptionsValue>,
                       serviceKey: Option<string>, source: BaseUrlSource, expansions: seq<string>): Call
  {
    Call(view, http, verb, path, SetupOptionsValue(options, expansions),
         Some(SetupRequestOptionsValue(ro, serviceKey, BaseUrlFor(source, view))))
  }

  /** Without a base URL of the call's own, a service call goes to the
      service's base URL. */
  lemma ServiceCallUsesServiceBase(view: ClientView, http: HttpClient, verb: HttpMethod, path: string,
                                   options: Option<OptionsValue>, ro: Option<RequestOptionsValue>,
                                   serviceKey: Option<string>, source: BaseUrlSource, expansions: seq<string>)
    requires Fields(ro).baseUrl.None? && BaseUrlFor(source, view).Some?
    ensures var call := ServiceCall(view, http, verb, path, options, ro, serviceKey, source, expansions);
      EffectiveBase(call.client, call.requestOptions) == BaseUrlFor(source, view).GetOr("")
  {
  }

  // ---- Auto-paging ----

  /** How an auto-paging enumeration ended: every page consumed, consumer
      stopped pulling after its page budget, or an exception. */
  datatype PagingOutcome = Exhausted | Stopped | Failed(error: Exception)

  /** The id of the last item of a page, `null` for an empty page. */
  function LastId<T>(data: seq<T>, idOf: T -> Option<string>): Option<string> {
    if |data| == 0 then None else idOf(data[|data| - 1])
  }

  /** The items of the pages, page after page. */
  function Flatten<T>(pages: seq<StripeList<T>>): seq<T> {
    if |pages| == 0 then [] else pages[0].data + Flatten(pages[1..])
  }

  lemma {:induction false} FlattenAppend<T>(pages: seq<StripeList<T>>, page: StripeList<T>)
    ensures Flatten(pages + [page]) == Flatten(pages) + page.data
  {
    if |pages| == 0 {
      assert pages + [page] == [page];
      assert Flatten([page]) == page.data + Flatten<T>([]);
    } else {
      calc {
        Flatten(pages + [page]);
        (pages + [page])[0].data + Flatten((pages + [page])[1..]);
        { assert (pages + [page])[1..] == pages[1..] + [page]; }
        pages[0].data + Flatten(pages[1..] + [page]);
        { FlattenAppend(pages[1..], page); }
        pages[0].data + (Flatten(pages[1..]) + page.data);
      }
    }
  }

  /** The number of items a listing yields is the sum of the page sizes;
      counted here page by page. */
  function ItemCount<T>(pages: seq<StripeList<T>>): nat {
    if |pages| == 0 then 0 else |pages[0].data| + ItemCount(pages[1..])
  }

  lemma {:induction false} FlattenLength<T>(pages: seq<StripeList<T>>)
    ensures |Flatten(pages)| == ItemCount(pages)
  {
    if |pages| > 0 {
      FlattenLength(pages[1..]);
    }
  }

  /** One page leads to the next request: the page said there is more, its
      last item has an id, and the next call is the previous one with
      `StartingAfter` set to that id and the expansions added once more
      (the same options object is set up again). */
  predicate Continues<T>(prev: Call, page: StripeList<T>, next: Call, idOf: T -> Option<string>, expansions: seq<string>) {
    && page.hasMore
    && !IsNullOrEmpty(LastId(page.data, idOf))
    && prev.options.Some?
    && next == prev.(options := SetupOptionsValue(Some(prev.options.value.(startingAfter := LastId(page.data, idOf))), expansions))
  }

  /** What every call of a listing returned. */
  ghost predicate Responded<T>(calls: seq<Call>, results: seq<Result<Decoded<StripeList<T>>, Exception>>, guid: string,
                         decode: string -> Option<StripeList<T>>, f: Foreign)
  {
    && |results| == |calls|
    && forall k {:trigger Exchange(calls[k], guid, decode, f)} :: 0 <= k < |calls| ==> results[k] == Exchange(calls[k], guid, decode, f)
  }

  /** The first `|pages|` results were these pages. */
  ghost predicate Answered<T>(results: seq<Result<Decoded<StripeList<T>>, Exception>>, pages: seq<StripeList<T>>) {
    && |pages| <= |results|
    && forall k :: 0 <= k < |pages| ==> results[k].Success? && results[k].value.entity == pages[k]
  }

  /** Each call but the first continues from the page before it. */
  predicate Chained<T>(calls: seq<Call>, pages: seq<StripeList<T>>, idOf: T -> Option<string>, expansions: seq<string>) {
    && |calls| <= |pages| + 1
    && forall k :: 0 <= k < |calls| - 1 ==> Continues(calls[k], pages[k], calls[k + 1], idOf, expansions)
  }

  /** What an auto-paging run did: the calls it made and what they
      returned, the pages it got back and the items it yielded, and why it
      ended. */
  ghost predicate PagingRun<T>(calls: seq<Call>, results: seq<Result<Decoded<StripeList<T>>, Exception>>,
                             pages: seq<StripeList<T>>, items: seq<T>, outcome: PagingOutcome,
                             idOf: T -> Option<string>, expansions: seq<string>, budget: nat)
  {
    && |calls| == |results| <= budget
    && (budget > 0 ==> |calls| > 0)
    && items == Flatten(pages)
    && Answered(results, pages)
    && Chained(calls, pages, idOf, expansions)
    && match outcome
       case Stopped => |pages| == budget
       case Exhausted =>
         && 0 < |pages| == |calls| < budget
         && (!pages[|pages| - 1].hasMore || IsNullOrEmpty(LastId(pages[|pages| - 1].data, idOf)))
       case Failed(e) =>
         || (|results| == |pages| + 1 && results[|results| - 1] == Failure(e))
         || (&& e == NullReference && 0 < |pages| == |calls| < budget
             && pages[|pages| - 1].hasMore && !IsNullOrEmpty(LastId(pages[|pages| - 1].data, idOf)))
  }

  lemma {:induction false} RespondedCall<T>(calls: seq<Call>, results: seq<Result<Decoded<StripeList<T>>, Exception>>, call: Call,
                         guid: string, decode: string -> Option<StripeList<T>>, f: Foreign)
    requires Responded(calls, results, guid, decode, f)
    ensures Responded(calls + [call], results + [Exchange(call, guid, decode, f)], guid, decode, f)
  {
    var calls', results' := calls + [call], results + [Exchange(call, guid, decode, f)];
    forall k | 0 <= k < |calls'|
      ensures results'[k] == Exchange(calls'[k], guid, decode, f)
    {
      if k < |calls| {
        assert results'[k] == results[k] && calls'[k] == calls[k];
      }
    }
  }

  lemma {:induction false} AnsweredPage<T>(results: seq<Result<Decoded<StripeList<T>>, Exception>>, pages: seq<StripeList<T>>, page: StripeList<T>)
    requires Answered(results, pages) && |pages| < |results|
    requires results[|pages|].Success? && results[|pages|].value.entity == page
    ensures Answered(results, pages + [page])
  {
    var pages' := pages + [page];
    forall k | 0 <= k < |pages'|
      ensures results[k].Success? && results[k].value.entity == pages'[k]
    {
      if k < |pages| {
        assert pages'[k] == pages[k];
      }
    }
  }

  lemma {:induction false} AnsweredResult<T>(results: seq<Result<Decoded<StripeList<T>>, Exception>>, pages: seq<StripeList<T>>,
                          result: Result<Decoded<StripeList<T>>, Exception>)
    requires Answered(results, pages)
    ensures Answered(results + [result], pages)
  {
    var results' := results + [result];
    forall k | 0 <= k < |pages|
      ensures results'[k].Success? && results'[k].value.entity == pages[k]
    {
      assert results'[k] == results[k];
    }
  }

  lemma {:induction false} ChainedPage<T>(calls: seq<Call>, pages: seq<StripeList<T>>, page: StripeList<T>,
                       idOf: T -> Option<string>, expansions: seq<string>)
    requires Chained(calls, pages, idOf, expansions)
    ensures Chained(calls, pages + [page], idOf, expansions)
  {
    var pages' := pages + [page];
    forall k | 0 <= k < |calls| - 1
      ensures Continues(calls[k], pages'[k], calls[k + 1], idOf, expansions)
    {
      assert pages'[k] == pages[k];
    }
  }

  lemma {:induction false} ChainedCall<T>(calls: seq<Call>, pages: seq<StripeList<T>>, call: Call,
                       idOf: T -> Option<string>, expansions: seq<string>)
    requires Chained(calls, pages, idOf, expansions) && 0 < |calls| == |pages|
    requires Continues(calls[|calls| - 1], pages[|pages| - 1], call, idOf, expansions)
    ensures Chained(calls + [call], pages, idOf, expansions)
  {
    var calls' := calls + [call];
    forall k | 0 <= k < |calls'| - 1
      ensures Continues(calls'[k], pages[k], calls'[k + 1], idOf, expansions)
    {
      assert calls'[k] == calls[k];
      if k + 1 < |calls| {
        assert calls'[k + 1] == calls[k + 1];
      }
    }
  }

  /** An auto-paging run between two pages: one call more than pages, every
      call the first with other options, and the items, results and cursor
      chain of the pages so far. */
  ghost predicate Recorded<T>(calls: seq<Call>, results: seq<Result<Decoded<StripeList<T>>, Exception>>,
                              pages: seq<StripeList<T>>, items: seq<T>, first: Call,
                              idOf: T -> Option<string>, expansions: seq<string>)
  {
    && |calls| == |results| == |pages| + 1
    && calls[0] == first
    && calls[|calls| - 1].(options := first.options) == first
    && items == Flatten(pages)
    && Answered(results, pages)
    && Chained(calls, pages, idOf, expansions)
  }

  /** The next call after the last page, with its result, extends the run. */
  lemma {:induction false} RecordedNext<T>(calls: seq<Call>, results: seq<Result<Decoded<StripeList<T>>, Exception>>,
                        pages: seq<StripeList<T>>, items: seq<T>, first: Call, call: Call,
                        result: Result<Decoded<StripeList<T>>, Exception>,
                        idOf: T -> Option<string>, expansions: seq<string>)
    requires 0 < |calls| == |results| == |pages| && calls[0] == first
    requires calls[|calls| - 1].(options := first.options) == first
    requires items == Flatten(pages) && Answered(results, pages) && Chained(calls, pages, idOf, expansions)
    requires Continues(calls[|calls| - 1], pages[|pages| - 1], call, idOf, expansions)
    ensures Recorded(calls + [call], results + [result], pages, items, first, idOf, expansions)
  {
    AnsweredResult(results, pages, result);
    ChainedCall(calls, pages, call, idOf, expansions);
  }

  /** The request that follows a page: the same call with the cursor set on
      the options, set up again. */
  lemma {:induction false} NextPageCall<T>(prev: Call, page: StripeList<T>, idOf: T -> Option<string>, expansions: seq<string>,
                        ov: OptionsValue, ro0: Option<RequestOptionsValue>, roNow: Option<RequestOptionsValue>,
                        serviceKey: Option<string>, source: BaseUrlSource)
    requires prev.options == Some(ov)
    requires prev.requestOptions == Some(SetupRequestOptionsValue(ro0, serviceKey, BaseUrlFor(source, prev.client)))
    requires roNow == ro0 || roNow == prev.requestOptions
    requires page.hasMore && !IsNullOrEmpty(LastId(page.data, idOf))
    ensures Continues(prev, page,
                      ServiceCall(prev.client, prev.httpClient, prev.verb, prev.path,
                                  Some(ov.(startingAfter := LastId(page.data, idOf))), roNow, serviceKey, source, expansions),
                      idOf, expansions)
  {
    SetupRequestOptionsIdempotent(ro0, serviceKey, BaseUrlFor(source, prev.client));
  }

  /** Every page of a listing is requested with the same method, path,
      client and request options; only the options differ. */
  lemma {:induction false} PagedCallsAgree<T>(calls: seq<Call>, results: seq<Result<Decoded<StripeList<T>>, Exception>>,
                                              pages: seq<StripeList<T>>, items: seq<T>, outcome: PagingOutcome,
                                              idOf: T -> Option<string>, expansions: seq<string>, budget: nat, k: nat)
    requires PagingRun(calls, results, pages, items, outcome, idOf, expansions, budget)
    requires k < |calls|
    ensures calls[k].(options := calls[0].options) == calls[0]
  {
    if k > 0 {
      PagedCallsAgree(calls, results, pages, items, outcome, idOf, expansions, budget, k - 1);
      assert Continues(calls[k - 1], pages[k - 1], calls[k], idOf, expansions);
    }
  }

  /** `n` copies of a sequence, one after the other. */
  function Repeat(s: seq<string>, n: nat): seq<string> {
    if n == 0 then [] else Repeat(s, n - 1) + s
  }

  /** The options object is set up again for every page, so its expansions
      pile up: page `k` is requested with the service's expansions `k + 1`
      times over what the caller supplied. Page `k + 1` starts after the
      last item of page `k`. */
  lemma {:induction false} PagedExpansionsAccumulate<T>(calls: seq<Call>, results: seq<Result<Decoded<StripeList<T>>, Exception>>,
                                                        pages: seq<StripeList<T>>, items: seq<T>, outcome: PagingOutcome,
                                                        idOf: T -> Option<string>, expansions: seq<string>, budget: nat, k: nat)
    requires PagingRun(calls, results, pages, items, outcome, idOf, expansions, budget)
    requires k < |calls| && calls[0].options.Some?
    ensures calls[k].options.Some?
    ensures calls[k].options.value.expand == calls[0].options.value.expand + Repeat(expansions, k)
    ensures k > 0 ==> calls[k].options.value.startingAfter == LastId(pages[k - 1].data, idOf)
  {
    if k > 0 {
      PagedExpansionsAccumulate(calls, results, pages, items, outcome, idOf, expansions, budget, k - 1);
      assert Continues(calls[k - 1], pages[k - 1], calls[k], idOf, expansions);
      assert calls[0].options.value.expand + Repeat(expansions, k - 1) + expansions
          == calls[0].options.value.expand + Repeat(expansions, k);
    }
  }

  /** An empty page ends the listing even when it says there is more: no
      request follows it. */
  lemma {:induction false} EmptyPageEndsPaging<T>(calls: seq<Call>, results: seq<Result<Decoded<StripeList<T>>, Exception>>,
                               pages: seq<StripeList<T>>, items: seq<T>, outcome: PagingOutcome,
                               idOf: T -> Option<string>, expansions: seq<string>, budget: nat, k: nat)
    requires PagingRun(calls, results, pages, items, outcome, idOf, expansions, budget)
    requires k < |pages| && pages[k].data == []
    ensures |calls| == k + 1 && |pages| == k + 1
    ensures outcome == Exhausted || outcome == Stopped
  {
    assert LastId(pages[k].data, idOf) == None;
    assert k + 1 < |calls| ==> Continues(calls[k], pages[k], calls[k + 1], idOf, expansions);
  }

  /** The `foreach` over one page: every item is yielded in order, and
      `itemId` ends as the id of the last one (null for an empty page). */
  method YieldPage<T>(items: seq<T>, page: StripeList<T>, idOf: T -> Option<string>)
    returns (items': seq<T>, itemId: Option<string>)
    ensures items' == items + page.data
    ensures itemId == LastId(page.data, idOf)
  {
    items' := items;
    itemId := None;
    for i := 0 to |page.data|
      invariant items' == items + page.data[..i]
      invariant itemId == LastId(page.data[..i], idOf)
    {
      itemId := idOf(page.data[i]);
      items' := items' + [page.data[i]];
      assert page.data[..i + 1] == page.data[..i] + [page.data[i]];
    }
    assert page.data[..|page.data|] == page.data;
  }

  /** The `foreach` of `SetupOptions`: `AddExpand` for every expansion, in
      order. */
  method AddExpansions(o: BaseOptions, expansions: seq<string>)
    modifies o
    ensures o.Value() == old(o.Value()).(expand := old(o.expand) + expansions)
  {
    ghost var start := o.Value();
    for i := 0 to |expansions|
      invariant o.Value() == start.(expand := start.expand + expansions[..i])
    {
      o.AddExpand(expansions[i]);
      assert expansions[..i + 1] == expansions[..i] + [expansions[i]];
    }
    assert expansions[..|expansions|] == expansions;
  }

  /** One page of an auto-paging run, from its arrival to the decision to
      go on: its items are yielded, and the run ends when this was the last
      page the consumer pulls, when the page is the last one, or, when the
      options object is null and cannot take the cursor, with a null
      dereference. */
  method TakePage<T>(items: seq<T>, page: StripeList<T>, fetched: nat, budget: nat, canResume: bool,
                     ghost calls: seq<Call>, ghost results: seq<Result<Decoded<StripeList<T>>, Exception>>,
                     ghost pages: seq<StripeList<T>>, ghost first: Call, idOf: T -> Option<string>,
                     ghost expansions: seq<string>)
    returns (items': seq<T>, fetched': nat, itemId: Option<string>, stop: Option<PagingOutcome>,
             ghost pages': seq<StripeList<T>>)
    requires Recorded(calls, results, pages, items, first, idOf, expansions) && |pages| < budget && fetched == |pages|
    requires results[|pages|].Success? && results[|pages|].value.entity == page
    ensures pages' == pages + [page] && fetched' == |pages'| && items' == items + page.data
    ensures itemId == LastId(page.data, idOf)
    ensures stop.None? <==> fetched' < budget && page.hasMore && !IsNullOrEmpty(itemId) && canResume
    ensures stop.Some? ==> PagingRun(calls, results, pages', items', stop.value, idOf, expansions, budget)
    ensures stop == Some(Failed(NullReference)) ==> !canResume
    ensures stop.None? ==> items' == Flatten(pages') && Answered(results, pages') && Chained(calls, pages', idOf, expansions)
  {
    items', itemId := YieldPage(items, page, idOf);
    FlattenAppend(pages, page);
    AnsweredPage(results, pages, page);
    ChainedPage(calls, pages, page, idOf, expansions);
    pages' := pages + [page];
    fetched' := fetched + 1;
    if fetched' == budget {
      stop := Some(Stopped);
    } else if !page.hasMore || IsNullOrEmpty(itemId) {
      stop := Some(Exhausted);
    } else if !canResume {
      stop := Some(Failed(NullReference));
    } else {
      stop := None;
    }
  }

  class Service {
    var apiKey: Option<string>
    var stripeClient: StripeClient?
    const basePath: string
    const baseUrlSource: BaseUrlSource
    /** The attribute names of the service's `Expand*` flags that are set. */
    var activeExpansions: seq<string>

    /** `Service()` and `Service(apiKey)`: a service with its own key, or none. */
    constructor (basePath: string, baseUrlSource: BaseUrlSource, apiKey: Option<string>)
      ensures this.basePath == basePath && this.baseUrlSource == baseUrlSource && this.apiKey == apiKey
      ensures stripeClient == null && activeExpansions == []
    {
      this.basePath := basePath;
      this.baseUrlSource := baseUrlSource;
      this.apiKey := apiKey;
      this.stripeClient := null;
      this.activeExpansions := [];
    }

    /** The client a call would use now: the service's own, else the cached
        global one (which may still have to be built). */
    function CurrentClient(config: StripeConfiguration): StripeClient?
      reads this, config
    {
      if stripeClient != null then stripeClient else config.stripeClient
    }

    /** The `Client` setter. */
    method PutClient(value: StripeClient?)
      modifies this`stripeClient
      ensures stripeClient == value
    {
      stripeClient := value;
    }

    /** The `Client` getter: the service's own client when set, otherwise
        `StripeConfiguration.StripeClient`, which builds one if needed. */
    method GetClient(config: StripeConfiguration) returns (c: StripeClient)
      modifies config`stripeClient, config`cacheFromFields
      ensures c == CurrentClient(config)
      ensures stripeClient != null ==> c == stripeClient && unchanged(config)
      ensures old(CurrentClient(config)) != null ==> c == old(CurrentClient(config))
      ensures old(CurrentClient(config)) == null ==>
        fresh(c) && IsDefaultClientFor(c, config.apiKey, config.clientId, config.maxNetworkRetries)
      ensures old(config.Valid()) ==> config.Valid()
    {
      if stripeClient != null {
        c := stripeClient;
      } else {
        c := config.GetStripeClient();
      }
    }

    /** `BaseUrl`: the API base or the connect base of the current client. */
    method GetBaseUrl(config: StripeConfiguration) returns (u: Option<string>)
      modifies config`stripeClient, config`cacheFromFields
      ensures CurrentClient(config) != null && u == BaseUrlFor(baseUrlSource, CurrentClient(config).View())
      ensures old(CurrentClient(config)) != null ==> CurrentClient(config) == old(CurrentClient(config))
      ensures old(CurrentClient(config)) == null ==>
        fresh(CurrentClient(config)) && IsDefaultClientFor(CurrentClient(config), config.apiKey, config.clientId, config.maxNetworkRetries)
      ensures old(config.Valid()) ==> config.Valid()
    {
      var c := GetClient(config);
      u := BaseUrlFor(baseUrlSource, c.View());
    }

    /** `ClassUrl`: the collection URL is the service's base path itself,
        with nothing appended. */
    function ClassUrl(): (url: string)
      ensures url == basePath
    {
      basePath
    }

    /** `InstanceUrl`: an id that is null, empty or only white space is
        refused; any other id is URL-encoded under the class URL. */
    function InstanceUrl(id: Option<string>, urlEncode: string -> string): (r: Result<string, Exception>)
      ensures r.Failure? <==> IsNullOrWhiteSpace(id)
      ensures r.Failure? ==> r.error == Argument(IdErrorMessage, Some("id"))
      ensures r.Success? ==> r.value == ClassUrl() + "/" + urlEncode(id.value)
    {
      if IsNullOrWhiteSpace(id) then Failure(Argument(IdErrorMessage, Some("id")))
      else Success(ClassUrl() + "/" + urlEncode(id.value))
    }

    /** An example of `InstanceUrl`: an id with one character that is not
        white space is accepted. */
    lemma InstanceUrlAcceptsId(id: string, i: nat, urlEncode: string -> string)
      requires i < |id| && !IsWhiteSpace(id[i])
      ensures InstanceUrl(Some(id), urlEncode) == Success(basePath + "/" + urlEncode(id))
    {
    }

    /** `SetupOptions`: adds the service's expansions, in order, to the
        options, creating an options object only when there are expansions
        and the caller passed none. */
    method SetupOptions(options: BaseOptions?, isList: bool) returns (o: BaseOptions?)
      modifies options
      ensures OptionsSnapshot(o) == SetupOptionsValue(old(OptionsSnapshot(options)), Expansions(activeExpansions, isList))
      ensures options != null ==> o == options
      ensures options == null && o != null ==> fresh(o)
    {
      var expansions := Expansions(activeExpansions, isList);
      if |expansions| == 0 {
        return options;
      }
      o := options;
      if o == null {
        o := new BaseOptions();
      }
      AddExpansions(o, expansions);
    }

    /** `SetupRequestOptions`: fills the request options in place (a fresh
        object when the caller passed none). The client is consulted only
        when the base URL has to be filled. */
    method SetupRequestOptions(ro: RequestOptions?, config: StripeConfiguration) returns (r: RequestOptions)
      modifies ro, config`stripeClient, config`cacheFromFields
      ensures ro != null ==> r == ro
      ensures ro == null ==> fresh(r)
      ensures Fields(old(RequestOptionsSnapshot(ro))).baseUrl.Some? ==>
        && unchanged(config)
        && r.Value() == SetupRequestOptionsValue(old(RequestOptionsSnapshot(ro)), apiKey, None)
      ensures Fields(old(RequestOptionsSnapshot(ro))).baseUrl.None? ==>
        && CurrentClient(config) != null
        && r.Value() == SetupRequestOptionsValue(old(RequestOptionsSnapshot(ro)), apiKey, BaseUrlFor(baseUrlSource, CurrentClient(config).View()))
      ensures old(CurrentClient(config)) != null ==> CurrentClient(config) == old(CurrentClient(config))
      ensures old(CurrentClient(config)) == null && CurrentClient(config) != null ==>
        fresh(CurrentClient(config)) && IsDefaultClientFor(CurrentClient(config), config.apiKey, config.clientId, config.maxNetworkRetries)
      ensures old(config.Valid()) ==> config.Valid()
    {
      if ro == null {
        r := new RequestOptions();
      } else {
        r := ro;
      }
      if IsNullOrEmpty(r.apiKey) && !IsNullOrEmpty(apiKey) {
        r.apiKey := apiKey;
      }
      if r.baseUrl.None? {
        var u := GetBaseUrl(config);
        r.baseUrl := u;
      }
    }

    /** The setup half of `RequestAsync<T>`: both options objects are set
        up and the client is resolved; the call they make is the service
        call of the options as they were. */
    method PrepareCall(verb: HttpMethod, path: string, options: BaseOptions?, ro: RequestOptions?, isList: bool,
                       config: StripeConfiguration)
      returns (o: BaseOptions?, setup: RequestOptions, client: StripeClient, ghost call: Call)
      modifies options, ro, config`stripeClient, config`cacheFromFields
      ensures client == CurrentClient(config)
      ensures old(CurrentClient(config)) != null ==> client == old(CurrentClient(config))
      ensures old(CurrentClient(config)) == null ==>
        fresh(client) && IsDefaultClientFor(client, config.apiKey, config.clientId, config.maxNetworkRetries)
      ensures old(config.Valid()) ==> config.Valid()
      ensures call == ServiceCall(client.View(), client.httpClient, verb, path,
                                  old(OptionsSnapshot(options)), old(RequestOptionsSnapshot(ro)),
                                  apiKey, baseUrlSource, Expansions(activeExpansions, isList))
      ensures call == Call(client.View(), client.httpClient, verb, path, OptionsSnapshot(o), Some(setup.Value()))
      ensures options != null ==> o == options
      ensures ro != null ==> setup == ro
    {
      ghost var ro0 := RequestOptionsSnapshot(ro);
      o := SetupOptions(options, isList);
      ghost var ov := OptionsSnapshot(o);
      setup := SetupRequestOptions(ro, config);
      ghost var rv := setup.Value();
      client := GetClient(config);
      if Fields(ro0).baseUrl.Some? {
        OwnBaseUrlWins(ro0, apiKey, None, BaseUrlFor(baseUrlSource, client.View()));
      }
      assert OptionsSnapshot(o) == ov && setup.Value() == rv;
      call := Call(client.View(), client.httpClient, verb, path, OptionsSnapshot(o), Some(setup.Value()));
    }

    /** `RequestAsync<T>`: sets up both options objects, resolves the client
        and makes one client call. `isList` says whether `T` is a
        `StripeList<>`. */
    method RequestAsync<T>(verb: HttpMethod, path: string, options: BaseOptions?, ro: RequestOptions?, isList: bool,
                           config: StripeConfiguration, guid: string, decode: string -> Option<T>, f: Foreign)
      returns (r: Result<Decoded<T>, Exception>, ghost call: Call)
      modifies options, ro, config`stripeClient, config`cacheFromFields
      ensures CurrentClient(config) != null
      ensures old(CurrentClient(config)) != null ==> CurrentClient(config) == old(CurrentClient(config))
      ensures old(CurrentClient(config)) == null ==>
        fresh(CurrentClient(config)) && IsDefaultClientFor(CurrentClient(config), config.apiKey, config.clientId, config.maxNetworkRetries)
      ensures old(config.Valid()) ==> config.Valid()
      ensures call == ServiceCall(CurrentClient(config).View(), CurrentClient(config).httpClient, verb, path,
                                  old(OptionsSnapshot(options)), old(RequestOptionsSnapshot(ro)),
                                  apiKey, baseUrlSource, Expansions(activeExpansions, isList))
      ensures r == Exchange(call, guid, decode, f)
      ensures options != null ==> Some(options.Value()) == call.options
      ensures ro != null ==> Some(ro.Value()) == call.requestOptions
    {
      var o, setup, client;
      o, setup, client, call := PrepareCall(verb, path, options, ro, isList, config);
      ghost var sent;
      r, sent := client.RequestAsync(verb, path, OptionsSnapshot(o), Some(setup.Value()), guid, decode, f);
    }

    /** `CreateEntity`: POST to the class URL. */
    method CreateEntity<T>(options: BaseOptions?, ro: RequestOptions?, config: StripeConfiguration,
                           guid: string, decode: string -> Option<T>, f: Foreign)
      returns (r: Result<Decoded<T>, Exception>, ghost call: Call)
      modifies options, ro, config`stripeClient, config`cacheFromFields
      ensures CurrentClient(config) != null
      ensures old(CurrentClient(config)) != null ==> CurrentClient(config) == old(CurrentClient(config))
      ensures old(CurrentClient(config)) == null ==>
        fresh(CurrentClient(config)) && IsDefaultClientFor(CurrentClient(config), config.apiKey, config.clientId, config.maxNetworkRetries)
      ensures call == ServiceCall(CurrentClient(config).View(), CurrentClient(config).httpClient, Post, ClassUrl(),
                                  old(OptionsSnapshot(options)), old(RequestOptionsSnapshot(ro)),
                                  apiKey, baseUrlSource, Expansions(activeExpansions, false))
      ensures r == Exchange(call, guid, decode, f)
      ensures options != null ==> Some(options.Value()) == call.options
      ensures ro != null ==> Some(ro.Value()) == call.requestOptions
    {
      r, call := RequestAsync(Post, ClassUrl(), options, ro, false, config, guid, decode, f);
    }

    /** `ListEntities`: GET on the class URL, as a list call. */
    method ListEntities<T>(options: BaseOptions?, ro: RequestOptions?, config: StripeConfiguration,
                           guid: string, decode: string -> Option<StripeList<T>>, f: Foreign)
      returns (r: Result<Decoded<StripeList<T>>, Exception>, ghost call: Call)
      modifies options, ro, config`stripeClient, config`cacheFromFields
      ensures CurrentClient(config) != null
      ensures old(CurrentClient(config)) != null ==> CurrentClient(config) == old(CurrentClient(config))
      ensures old(CurrentClient(config)) == null ==>
        fresh(CurrentClient(config)) && IsDefaultClientFor(CurrentClient(config), config.apiKey, config.clientId, config.maxNetworkRetries)
      ensures call == ServiceCall(CurrentClient(config).View(), CurrentClient(config).httpClient, Get, ClassUrl(),
                                  old(OptionsSnapshot(options)), old(RequestOptionsSnapshot(ro)),
                                  apiKey, baseUrlSource, Expansions(activeExpansions, true))
      ensures r == Exchange(call, guid, decode, f)
      ensures options != null ==> Some(options.Value()) == call.options
      ensures ro != null ==> Some(ro.Value()) == call.requestOptions
    {
      r, call := RequestAsync(Get, ClassUrl(), options, ro, true, config, guid, decode, f);
    }

    /** The wrappers on one resource: `verb` on the instance URL of `id`. An
        id that is refused throws before anything is set up or sent. */
    method InstanceRequest<T>(verb: HttpMethod, id: Option<string>, options: BaseOptions?, ro: RequestOptions?,
                              config: StripeConfiguration, guid: string, decode: string -> Option<T>, f: Foreign)
      returns (r: Result<Decoded<T>, Exception>, ghost call: Option<Call>)
      modifies options, ro, config`stripeClient, config`cacheFromFields
      ensures InstanceUrl(id, f.urlEncode).Failure? ==>
        && r == Failure(InstanceUrl(id, f.urlEncode).error) && call.None?
        && (options != null ==> unchanged(options)) && (ro != null ==> unchanged(ro)) && unchanged(config)
      ensures InstanceUrl(id, f.urlEncode).Success? ==>
        && CurrentClient(config) != null
        && call == Some(ServiceCall(CurrentClient(config).View(), CurrentClient(config).httpClient, verb,
                                    InstanceUrl(id, f.urlEncode).value,
                                    old(OptionsSnapshot(options)), old(RequestOptionsSnapshot(ro)),
                                    apiKey, baseUrlSource, Expansions(activeExpansions, false)))
        && r == Exchange(call.value, guid, decode, f)
        && (options != null ==> Some(options.Value()) == call.value.options)
        && (ro != null ==> Some(ro.Value()) == call.value.requestOptions)
        && (old(CurrentClient(config)) == null ==>
              fresh(CurrentClient(config)) && IsDefaultClientFor(CurrentClient(config), config.apiKey, config.clientId, config.maxNetworkRetries))
      ensures old(CurrentClient(config)) != null ==> CurrentClient(config) == old(CurrentClient(config))
    {
      var url := InstanceUrl(id, f.urlEncode);
      if url.Failure? {
        return Failure(url.error), None;
      }
      ghost var c;
      r, c := RequestAsync(verb, url.value, options, ro, false, config, guid, decode, f);
      call := Some(c);
    }

    /** `DeleteEntity`: DELETE on the instance URL. */
    method DeleteEntity<T>(id: Option<string>, options: BaseOptions?, ro: RequestOptions?,
                           config: StripeConfiguration, guid: string, decode: string -> Option<T>, f: Foreign)
      returns (r: Result<Decoded<T>, Exception>, ghost call: Option<Call>)
      modifies options, ro, config`stripeClient, config`cacheFromFields
      ensures InstanceUrl(id, f.urlEncode).Failure? ==>
        r == Failure(InstanceUrl(id, f.urlEncode).error) && call.None? && (options != null ==> unchanged(options)) && (ro != null ==> unchanged(ro)) && unchanged(config)
      ensures InstanceUrl(id, f.urlEncode).Success? ==>
        && CurrentClient(config) != null
        && call == Some(ServiceCall(CurrentClient(config).View(), CurrentClient(config).httpClient, Delete,
                                    InstanceUrl(id, f.urlEncode).value,
                                    old(OptionsSnapshot(options)), old(RequestOptionsSnapshot(ro)),
                                    apiKey, baseUrlSource, Expansions(activeExpansions, false)))
        && r == Exchange(call.value, guid, decode, f)
        && (options != null ==> Some(options.Value()) == call.value.options)
        && (ro != null ==> Some(ro.Value()) == call.value.requestOptions)
        && (old(CurrentClient(config)) == null ==>
              fresh(CurrentClient(config)) && IsDefaultClientFor(CurrentClient(config), config.apiKey, config.clientId, config.maxNetworkRetries))
      ensures old(CurrentClient(config)) != null ==> CurrentClient(config) == old(CurrentClient(config))
    {
      r, call := InstanceRequest(Delete, id, options, ro, config, guid, decode, f);
    }

    /** `GetEntity`: GET on the instance URL. */
    method GetEntity<T>(id: Option<string>, options: BaseOptions?, ro: RequestOptions?,
                        config: StripeConfiguration, guid: string, decode: string -> Option<T>, f: Foreign)
      returns (r: Result<Decoded<T>, Exception>, ghost call: Option<Call>)
      modifies options, ro, config`stripeClient, config`cacheFromFields
      ensures InstanceUrl(id, f.urlEncode).Failure? ==>
        r == Failure(InstanceUrl(id, f.urlEncode).error) && call.None? && (options != null ==> unchanged(options)) && (ro != null ==> unchanged(ro)) && unchanged(config)
      ensures InstanceUrl(id, f.urlEncode).Success? ==>
        && CurrentClient(config) != null
        && call == Some(ServiceCall(CurrentClient(config).View(), CurrentClient(config).httpClient, Get,
                                    InstanceUrl(id, f.urlEncode).value,
                                    old(OptionsSnapshot(options)), old(RequestOptionsSnapshot(ro)),
                                    apiKey, baseUrlSource, Expansions(activeExpansions, false)))
        && r == Exchange(call.value, guid, decode, f)
        && (options != null ==> Some(options.Value()) == call.value.options)
        && (ro != null ==> Some(ro.Value()) == call.value.requestOptions)
        && (old(CurrentClient(config)) == null ==>
              fresh(CurrentClient(config)) && IsDefaultClientFor(CurrentClient(config), config.apiKey, config.clientId, config.maxNetworkRetries))
      ensures old(CurrentClient(config)) != null ==> CurrentClient(config) == old(CurrentClient(config))
    {
      r, call := InstanceRequest(Get, id, options, ro, config, guid, decode, f);
    }

    /** `UpdateEntity`: POST to the instance URL. */
    method UpdateEntity<T>(id: Option<string>, options: BaseOptions?, ro: RequestOptions?,
                           config: StripeConfiguration, guid: string, decode: string -> Option<T>, f: Foreign)
      returns (r: Result<Decoded<T>, Exception>, ghost call: Option<Call>)
      modifies options, ro, config`stripeClient, config`cacheFromFields
      ensures InstanceUrl(id, f.urlEncode).Failure? ==>
        r == Failure(InstanceUrl(id, f.urlEncode).error) && call.None? && (options != null ==> unchanged(options)) && (ro != null ==> unchanged(ro)) && unchanged(config)
      ensures InstanceUrl(id, f.urlEncode).Success? ==>
        && CurrentClient(config) != null
        && call == Some(ServiceCall(CurrentClient(config).View(), CurrentClient(config).httpClient, Post,
                                    InstanceUrl(id, f.urlEncode).value,
                                    old(OptionsSnapshot(options)), old(RequestOptionsSnapshot(ro)),
                                    apiKey, baseUrlSource, Expansions(activeExpansions, false)))
        && r == Exchange(call.value, guid, decode, f)
        && (options != null ==> Some(options.Value()) == call.value.options)
        && (ro != null ==> Some(ro.Value()) == call.value.requestOptions)
        && (old(CurrentClient(config)) == null ==>
              fresh(CurrentClient(config)) && IsDefaultClientFor(CurrentClient(config), config.apiKey, config.clientId, config.maxNetworkRetries))
      ensures old(CurrentClient(config)) != null ==> CurrentClient(config) == old(CurrentClient(config))
    {
      r, call := InstanceRequest(Post, id, options, ro, config, guid, decode, f);
    }

    /** The step between two pages: `StartingAfter` is set to the last id
        and the next page is requested with the same options object. */
    method RequestNextPage<T>(url: string, options: BaseOptions, ro: RequestOptions?, config: StripeConfiguration,
                              guid: string, decode: string -> Option<StripeList<T>>, f: Foreign, itemId: Option<string>,
                              ghost calls: seq<Call>, ghost results: seq<Result<Decoded<StripeList<T>>, Exception>>,
                              ghost prev: Call, ghost page: StripeList<T>, ghost idOf: T -> Option<string>,
                              ghost ro0: Option<RequestOptionsValue>, ghost roValue: Option<RequestOptionsValue>)
      returns (res: Result<Decoded<StripeList<T>>, Exception>, ghost call: Call)
      requires Responded(calls, results, guid, decode, f)
      requires prev.options == Some(options.Value())
      requires CurrentClient(config) != null
      requires prev == Call(CurrentClient(config).View(), CurrentClient(config).httpClient, Get, url, prev.options, roValue)
      requires roValue == Some(SetupRequestOptionsValue(ro0, apiKey, BaseUrlFor(baseUrlSource, prev.client)))
      requires ro != null ==> Some(ro.Value()) == roValue
      requires ro == null ==> ro0.None?
      requires page.hasMore && itemId == LastId(page.data, idOf) && !IsNullOrEmpty(itemId)
      modifies options, ro, config`stripeClient, config`cacheFromFields
      ensures Continues(prev, page, call, idOf, Expansions(activeExpansions, true))
      ensures Responded(calls + [call], results + [res], guid, decode, f)
      ensures res.Failure? ==> CallError(res.error)
      ensures Some(options.Value()) == call.options
      ensures ro != null ==> Some(ro.Value()) == roValue
      ensures CurrentClient(config) == old(CurrentClient(config))
    {
      ghost var ov := options.Value();
      options.startingAfter := itemId;
      res, call := RequestAsync<StripeList<T>>(Get, url, options, ro, true, config, guid, decode, f);
      NextPageCall(prev, page, idOf, Expansions(activeExpansions, true), ov, ro0, if ro == null then ro0 else roValue,
                   apiKey, baseUrlSource);
      RespondedCall(calls, results, call, guid, decode, f);
      ExchangeFailureKinds(call, guid, decode, f);
    }

    /** One turn of the auto-paging loop, from the result of the last call to
        the next call: a failure ends the run, a page is taken, and unless
        the run ends there the next page is requested. */
    method PageStep<T>(url: string, options: BaseOptions?, ro: RequestOptions?, config: StripeConfiguration,
                       guid: string, decode: string -> Option<StripeList<T>>, idOf: T -> Option<string>,
                       f: Foreign, budget: nat, items: seq<T>, fetched: nat, res: Result<Decoded<StripeList<T>>, Exception>,
                       ghost calls: seq<Call>, ghost results: seq<Result<Decoded<StripeList<T>>, Exception>>,
                       ghost pages: seq<StripeList<T>>, ghost first: Call,
                       ghost ro0: Option<RequestOptionsValue>, ghost roValue: Option<RequestOptionsValue>)
      returns (items': seq<T>, fetched': nat, res': Result<Decoded<StripeList<T>>, Exception>, stop: Option<PagingOutcome>,
               ghost calls': seq<Call>, ghost results': seq<Result<Decoded<StripeList<T>>, Exception>>,
               ghost pages': seq<StripeList<T>>)
      requires Recorded(calls, results, pages, items, first, idOf, Expansions(activeExpansions, true))
      requires |pages| < budget && fetched == |pages|
      requires CurrentClient(config) != null
      requires first == Call(CurrentClient(config).View(), CurrentClient(config).httpClient, Get, url, first.options, roValue)
      requires roValue == Some(SetupRequestOptionsValue(ro0, apiKey, BaseUrlFor(baseUrlSource, first.client)))
      requires Responded(calls, results, guid, decode, f)
      requires res == results[|results| - 1]
      requires res.Failure? ==> CallError(res.error)
      requires options != null ==> Some(options.Value()) == calls[|calls| - 1].options
      requires ro != null ==> Some(ro.Value()) == roValue
      requires ro == null ==> ro0.None?
      modifies options, ro, config`stripeClient, config`cacheFromFields
      ensures CurrentClient(config) == old(CurrentClient(config))
      ensures ro != null ==> Some(ro.Value()) == roValue
      ensures stop.Some? ==>
        && calls' == calls && results' == results
        && PagingRun(calls, results, pages', items', stop.value, idOf, Expansions(activeExpansions, true), budget)
        && (stop.value == Failed(NullReference) ==> options == null)
        && (options != null ==> Some(options.Value()) == calls[|calls| - 1].options)
      ensures stop.None? ==>
        && Recorded(calls', results', pages', items', first, idOf, Expansions(activeExpansions, true))
        && |pages'| == |pages| + 1 < budget && fetched' == |pages'|
        && Responded(calls', results', guid, decode, f)
        && res' == results'[|results'| - 1]
        && (res'.Failure? ==> CallError(res'.error))
        && (options != null ==> Some(options.Value()) == calls'[|calls'| - 1].options)
      ensures stop.None? ==> options != null
    {
      calls', results' := calls, results;
      if res.Failure? {
        return items, fetched, res, Some(Failed(res.error)), calls, results, pages;
      }
      var expansions := Expansions(activeExpansions, true);
      var page := res.value.entity;
      var itemId;
      items', fetched', itemId, stop, pages' := TakePage(items, page, fetched, budget, options != null,
                                                          calls, results, pages, first, idOf, expansions);
      if stop.Some? {
        res' := res;
        return;
      }
      ghost var call;
      res', call := RequestNextPage(url, options, ro, config, guid, decode, f, itemId,
                                    calls, results, calls[|calls| - 1], page, idOf, ro0, roValue);
      RecordedNext(calls, results, pages', items', first, call, res', idOf, expansions);
      calls', results' := calls + [call], results + [res'];
    }

    /** The pages after the first request of an auto-paging run: the loop of
        `ListRequestAutoPaging<T>`, entered with the first call made and its
        result in hand. */
    method DrainPages<T>(url: string, options: BaseOptions?, ro: RequestOptions?, config: StripeConfiguration,
                         guid: string, decode: string -> Option<StripeList<T>>, idOf: T -> Option<string>,
                         f: Foreign, budget: nat, ghost first: Call, firstResult: Result<Decoded<StripeList<T>>, Exception>,
                         ghost ro0: Option<RequestOptionsValue>)
      returns (items: seq<T>, outcome: PagingOutcome, ghost pages: seq<StripeList<T>>, ghost calls: seq<Call>,
               ghost results: seq<Result<Decoded<StripeList<T>>, Exception>>)
      requires budget > 0
      requires CurrentClient(config) != null
      requires first == Call(CurrentClient(config).View(), CurrentClient(config).httpClient, Get, url, first.options,
                             first.requestOptions)
      requires first.requestOptions == Some(SetupRequestOptionsValue(ro0, apiKey, BaseUrlFor(baseUrlSource, first.client)))
      requires Responded([first], [firstResult], guid, decode, f)
      requires firstResult.Failure? ==> CallError(firstResult.error)
      requires options != null ==> Some(options.Value()) == first.options
      requires ro != null ==> Some(ro.Value()) == first.requestOptions
      requires ro == null ==> ro0.None?
      modifies options, ro, config`stripeClient, config`cacheFromFields
      ensures PagingRun(calls, results, pages, items, outcome, idOf, Expansions(activeExpansions, true), budget)
      ensures Responded(calls, results, guid, decode, f)
      ensures calls[0] == first
      ensures options != null ==> Some(options.Value()) == calls[|calls| - 1].options
      ensures CurrentClient(config) == old(CurrentClient(config))
      ensures outcome == Failed(NullReference) ==> options == null
      ensures options == null ==> |calls| == 1
    {
      items, pages := [], [];
      var res := firstResult;
      calls, results := [first], [res];
      var fetched := 0;
      ghost var client := CurrentClient(config);
      ghost var roValue := first.requestOptions;
      while true
        invariant Recorded(calls, results, pages, items, first, idOf, Expansions(activeExpansions, true))
        invariant |pages| < budget && fetched == |pages|
        invariant CurrentClient(config) == client
        invariant Responded(calls, results, guid, decode, f)
        invariant res == results[|results| - 1]
        invariant res.Failure? ==> CallError(res.error)
        invariant options != null ==> Some(options.Value()) == calls[|calls| - 1].options
        invariant ro != null ==> Some(ro.Value()) == roValue
        invariant options == null ==> |calls| == 1
        decreases budget - |pages|
      {
        var stop;
        items, fetched, res, stop, calls, results, pages :=
          PageStep(url, options, ro, config, guid, decode, idOf, f, budget, items, fetched, res,
                   calls, results, pages, first, ro0, roValue);
        if stop.Some? {
          outcome := stop.value;
          break;
        }
      }
    }

    /** `ListRequestAutoPaging<T>`: GET `url` page after page, yielding each
        page's items, until a page says there is no more or its last item
        has no id, the consumer stops pulling after `budget` pages, or a call
        throws. Between pages the caller's options object gets the cursor. */
    method ListRequestAutoPaging<T>(url: string, options: BaseOptions?, ro: RequestOptions?, config: StripeConfiguration,
                                    guid: string, decode: string -> Option<StripeList<T>>, idOf: T -> Option<string>,
                                    f: Foreign, budget: nat)
      returns (items: seq<T>, outcome: PagingOutcome, ghost pages: seq<StripeList<T>>, ghost calls: seq<Call>,
               ghost results: seq<Result<Decoded<StripeList<T>>, Exception>>)
      modifies options, ro, config`stripeClient, config`cacheFromFields
      ensures PagingRun(calls, results, pages, items, outcome, idOf, Expansions(activeExpansions, true), budget)
      ensures Responded(calls, results, guid, decode, f)
      ensures budget == 0 ==> calls == [] && outcome == Stopped && (options != null ==> unchanged(options)) && (ro != null ==> unchanged(ro)) && unchanged(config)
      ensures budget > 0 ==>
        && CurrentClient(config) != null
        && calls[0] == ServiceCall(CurrentClient(config).View(), CurrentClient(config).httpClient, Get, url,
                                   old(OptionsSnapshot(options)), old(RequestOptionsSnapshot(ro)),
                                   apiKey, baseUrlSource, Expansions(activeExpansions, true))
        && (options != null ==> Some(options.Value()) == calls[|calls| - 1].options)
      ensures old(CurrentClient(config)) != null ==> CurrentClient(config) == old(CurrentClient(config))
      ensures outcome == Failed(NullReference) ==> options == null
      ensures options == null ==> |calls| <= 1
    {
      if budget == 0 {
        return [], Stopped, [], [], [];
      }
      ghost var ro0 := RequestOptionsSnapshot(ro);
      var res;
      ghost var first;
      res, first := RequestAsync<StripeList<T>>(Get, url, options, ro, true, config, guid, decode, f);
      ExchangeFailureKinds(first, guid, decode, f);
      items, outcome, pages, calls, results := DrainPages(url, options, ro, config, guid, decode, idOf, f, budget,
                                                          first, res, ro0);
    }

    /** `ListEntitiesAutoPaging`: auto-paging over the class URL. */
    method ListEntitiesAutoPaging<T>(options: BaseOptions?, ro: RequestOptions?, config: StripeConfiguration,
                                     guid: string, decode: string -> Option<StripeList<T>>, idOf: T -> Option<string>,
                                     f: Foreign, budget: nat)
      returns (items: seq<T>, outcome: PagingOutcome, ghost pages: seq<StripeList<T>>, ghost calls: seq<Call>,
               ghost results: seq<Result<Decoded<StripeList<T>>, Exception>>)
      modifies options, ro, config`stripeClient, config`cacheFromFields
      ensures PagingRun(calls, results, pages, items, outcome, idOf, Expansions(activeExpansions, true), budget)
      ensures Responded(calls, results, guid, decode, f)
      ensures budget > 0 ==>
        && CurrentClient(config) != null
        && calls[0] == ServiceCall(CurrentClient(config).View(), CurrentClient(config).httpClient, Get, ClassUrl(),
                                   old(OptionsSnapshot(options)), old(RequestOptionsSnapshot(ro)),
                                   apiKey, baseUrlSource, Expansions(activeExpansions, true))
        && (options != null ==> Some(options.Value()) == calls[|calls| - 1].options)
      ensures budget == 0 ==> calls == [] && outcome == Stopped && (options != null ==> unchanged(options)) && (ro != null ==> unchanged(ro)) && unchanged(config)
      ensures old(CurrentClient(config)) != null ==> CurrentClient(config) == old(CurrentClient(config))
      ensures outcome == Failed(NullReference) ==> options == null
      ensures options == null ==> |calls| <= 1
    {
      items, outcome, pages, calls, results := ListRequestAutoPaging(ClassUrl(), options, ro, config, guid, decode, idOf, f, budget);
    }
  }
}
