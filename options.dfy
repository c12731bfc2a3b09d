/** The two kinds of options object a call carries: the per-call modifiers
    (`RequestOptions`) and the request parameters (`BaseOptions` and its
    subclasses). Both are mutable objects that the services update in place;
    each has a value snapshot, which is what the form encoder sees. */
module Options {
  import opened Common

  /** The fields of a `RequestOptions` object at one moment. */
  datatype RequestOptionsValue = RequestOptionsValue(
    apiKey: Option<string>,
    idempotencyKey: Option<string>,
    stripeAccount: Option<string>,
    baseUrl: Option<string>,
    stripeVersion: Option<string>)

  /** A freshly constructed `RequestOptions`: every field null. */
  const NoRequestOptions := RequestOptionsValue(None, None, None, None, None)

  /** `requestOptions?.Field`: reading a field through a possibly-null
      reference yields null, exactly as reading it from an empty object. */
  function Fields(ro: Option<RequestOptionsValue>): RequestOptionsValue {
    ro.GetOr(NoRequestOptions)
  }

  class RequestOptions {
    var apiKey: Option<string>
    var idempotencyKey: Option<string>
    var stripeAccount: Option<string>
    var baseUrl: Option<string>
    var stripeVersion: Option<string>

    constructor ()
      ensures Value() == NoRequestOptions
    {
      apiKey, idempotencyKey, stripeAccount, baseUrl, stripeVersion := None, None, None, None, None;
    }

    function Value(): RequestOptionsValue
      reads this
    {
      RequestOptionsValue(apiKey, idempotencyKey, stripeAccount, baseUrl, stripeVersion)
    }
  }

  function RequestOptionsSnapshot(ro: RequestOptions?): Option<RequestOptionsValue>
    reads ro
  {
    if ro == null then None else Some(ro.Value())
  }

  /** The fields of an options object at one moment. `BaseOptions` and its
      subclasses (`ListOptions`, the OAuth options) are merged into one
      record: `expand` belongs to every options object, `startingAfter` to
      list options, `clientId`/`clientSecret` to the OAuth options, and
      `parameters` stands for every other form parameter. */
  datatype OptionsValue = OptionsValue(
    expand: seq<string>,
    startingAfter: Option<string>,
    clientId: Option<string>,
    clientSecret: Option<string>,
    parameters: seq<(string, string)>)

  const NoOptions := OptionsValue([], None, None, None, [])

  class BaseOptions {
    var expand: seq<string>
    var startingAfter: Option<string>
    var clientId: Option<string>
    var clientSecret: Option<string>
    var parameters: seq<(string, string)>

    constructor ()
      ensures Value() == NoOptions
    {
      expand, startingAfter, clientId, clientSecret, parameters := [], None, None, None, [];
    }

    function Value(): OptionsValue
      reads this
    {
      OptionsValue(expand, startingAfter, clientId, clientSecret, parameters)
    }

    /** `AddExpand`: appends one attribute to the list of expansions. */
    method AddExpand(value: string)
      modifies this`expand
      ensures Value() == old(Value()).(expand := old(expand) + [value])
    {
      expand := expand + [value];
    }
  }

  function OptionsSnapshot(o: BaseOptions?): Option<OptionsValue>
    reads o
  {
    if o == null then None else Some(o.Value())
  }

  /** The form encoder: the query string of an options object
      (`CreateQueryString`) and the body of a POST (`CreateHttpContent`,
      which also accepts null). */
  datatype FormEncoder = FormEncoder(
    queryString: OptionsValue -> string,
    httpContent: Option<OptionsValue> -> string)
}
