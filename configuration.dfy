/** `StripeConfiguration`: the process-wide settings. The static class is
    modelled as one object that the services are handed; its static fields
    are the object's fields. */
module Configuration {
  import opened Common
  import opened Request
  import opened Client

  /** `AppInfo`: the plugin identification that the user agent carries. */
  datatype AppInfo = AppInfo(name: Option<string>, version: Option<string>, url: Option<string>, partnerId: Option<string>)

  const AppInfoNameMessage := "AppInfo.Name cannot be empty"

  /** The client the `StripeClient` getter builds from the stored settings:
      `new StripeClient(apiKey, clientId)`, so with the default bases and a
      default HTTP client. */
  predicate IsDefaultClientFor(c: StripeClient, apiKey: Option<string>, clientId: Option<string>, maxNetworkRetries: int)
    reads c
  {
    && c.View() == ClientView(Some(DefaultApiBase), apiKey, clientId, Some(DefaultConnectBase), Some(DefaultFilesBase))
    && c.httpClient == SystemNetHttpClient(maxNetworkRetries)
  }

  class StripeConfiguration {
    var apiKey: Option<string>
    var clientId: Option<string>
    var appInfo: Option<AppInfo>
    var stripeClient: StripeClient?
    var maxNetworkRetries: int
    /** Whether the cached client is the one the getter built from the
        stored key and client id (rather than one assigned by the user). */
    ghost var cacheFromFields: bool

    /** A cache built by the getter still agrees with the stored settings. */
    ghost predicate Valid()
      reads this, stripeClient
    {
      cacheFromFields ==> stripeClient != null && stripeClient.apiKey == apiKey && stripeClient.clientId == clientId
    }

    /** The state before any setting is assigned: every field null, no retries. */
    constructor ()
      ensures apiKey.None? && clientId.None? && appInfo.None? && stripeClient == null && maxNetworkRetries == 0
      ensures Valid()
    {
      apiKey, clientId, appInfo, stripeClient, maxNetworkRetries := None, None, None, null, 0;
      cacheFromFields := false;
    }

    /** The `StripeClient` getter: builds and caches a client from the stored
        settings only when the cache is empty; otherwise returns the cached
        instance. */
    method GetStripeClient() returns (c: StripeClient)
      modifies this`stripeClient, this`cacheFromFields
      ensures old(Valid()) ==> Valid()
      ensures stripeClient == c
      ensures old(stripeClient) != null ==> c == old(stripeClient) && cacheFromFields == old(cacheFromFields)
      ensures old(stripeClient) == null ==>
        fresh(c) && IsDefaultClientFor(c, apiKey, clientId, maxNetworkRetries) && cacheFromFields
    {
      if stripeClient == null {
        stripeClient := new StripeClient(apiKey, clientId, None, maxNetworkRetries);
        cacheFromFields := true;
      }
      c := stripeClient;
    }

    /** The `StripeClient` setter: any client, or null to have the next read
        build one. */
    method PutStripeClient(value: StripeClient?)
      modifies this`stripeClient, this`cacheFromFields
      ensures stripeClient == value && !cacheFromFields
      ensures Valid()
    {
      stripeClient := value;
      cacheFromFields := false;
    }

    /** The `ApiKey` getter reads through the current client, which is built
        first when the cache is empty. It is the stored key when the client
        was built from the settings and still agrees with them. */
    method GetApiKey() returns (k: Option<string>)
      modifies this`stripeClient, this`cacheFromFields
      ensures old(Valid()) ==> Valid()
      ensures stripeClient != null && k == stripeClient.apiKey
      ensures old(stripeClient) != null ==> stripeClient == old(stripeClient)
      ensures old(stripeClient) == null || (old(Valid()) && old(cacheFromFields)) ==> k == apiKey
    {
      var c := GetStripeClient();
      k := c.apiKey;
    }

    /** The `ClientId` getter, by the same rule. */
    method GetClientId() returns (id: Option<string>)
      modifies this`stripeClient, this`cacheFromFields
      ensures old(Valid()) ==> Valid()
      ensures stripeClient != null && id == stripeClient.clientId
      ensures old(stripeClient) != null ==> stripeClient == old(stripeClient)
      ensures old(stripeClient) == null || (old(Valid()) && old(cacheFromFields)) ==> id == clientId
    {
      var c := GetStripeClient();
      id := c.clientId;
    }

    /** The `ApiKey` setter: a different value drops the cached client; the
        stored value is always replaced. */
    method PutApiKey(value: Option<string>)
      modifies this`apiKey, this`stripeClient, this`cacheFromFields
      ensures old(Valid()) ==> Valid()
      ensures apiKey == value
      ensures value != old(apiKey) ==> stripeClient == null && Valid()
      ensures value == old(apiKey) ==> stripeClient == old(stripeClient) && cacheFromFields == old(cacheFromFields)
    {
      if value != apiKey {
        PutStripeClient(null);
      }
      apiKey := value;
    }

    /** The `ClientId` setter, by the same rule on the client id. */
    method PutClientId(value: Option<string>)
      modifies this`clientId, this`stripeClient, this`cacheFromFields
      ensures old(Valid()) ==> Valid()
      ensures clientId == value
      ensures value != old(clientId) ==> stripeClient == null && Valid()
      ensures value == old(clientId) ==> stripeClient == old(stripeClient) && cacheFromFields == old(cacheFromFields)
    {
      if value != clientId {
        PutStripeClient(null);
      }
      clientId := value;
    }

    /** `SetApiKey`: the deprecated spelling of the `ApiKey` setter. */
    method SetApiKey(newApiKey: Option<string>)
      modifies this`apiKey, this`stripeClient, this`cacheFromFields
      ensures old(Valid()) ==> Valid()
      ensures apiKey == newApiKey
      ensures newApiKey != old(apiKey) ==> stripeClient == null && Valid()
      ensures newApiKey == old(apiKey) ==> stripeClient == old(stripeClient) && cacheFromFields == old(cacheFromFields)
    {
      PutApiKey(newApiKey);
    }

    /** The `AppInfo` setter: a value with an empty or null name is refused
        and leaves everything as it was; null is accepted. An accepted value
        is stored and the client is then read, to refresh its user agent, so
        a client is built and cached when there was none. */
    method PutAppInfo(value: Option<AppInfo>) returns (error: Option<Exception>)
      modifies this`appInfo, this`stripeClient, this`cacheFromFields
      ensures error.Some? <==> value.Some? && IsNullOrEmpty(value.value.name)
      ensures error.Some? ==> error.value == Argument(AppInfoNameMessage, None) && unchanged(this)
      ensures error.None? ==> appInfo == value && stripeClient != null
      ensures error.None? && old(stripeClient) != null ==> stripeClient == old(stripeClient)
      ensures error.None? && old(stripeClient) == null ==>
        fresh(stripeClient) && IsDefaultClientFor(stripeClient, apiKey, clientId, maxNetworkRetries)
      ensures old(Valid()) ==> Valid()
    {
      if value.Some? && IsNullOrEmpty(value.value.name) {
        return Some(Argument(AppInfoNameMessage, None));
      }
      appInfo := value;
      var c := GetStripeClient();
      error := None;
    }

    /** Reading the client twice without a setter in between yields the same
        instance. */
    method StableClient() returns (c1: StripeClient, c2: StripeClient)
      modifies this`stripeClient, this`cacheFromFields
      ensures old(Valid()) ==> Valid()
      ensures c1 == c2 && stripeClient == c1
      ensures old(stripeClient) != null ==> c1 == old(stripeClient)
    {
      c1 := GetStripeClient();
      c2 := GetStripeClient();
    }

    /** After a new key is assigned, reading the key gives it back: the old
        client is dropped and the next one is built from the new key. Only an
        assignment of the value already stored can leave a cached client in
        place, and then the key read back is that client's own, which is the
        assigned one when the client was built from the settings and still
        agrees with them. */
    method ApiKeyRoundTrip(k: Option<string>) returns (got: Option<string>)
      modifies this`apiKey, this`stripeClient, this`cacheFromFields
      ensures old(Valid()) ==> Valid()
      ensures k != old(apiKey) || old(stripeClient) == null || (old(Valid()) && old(cacheFromFields)) ==> got == k
      ensures k == old(apiKey) && old(stripeClient) != null ==> got == old(stripeClient.apiKey)
    {
      PutApiKey(k);
      got := GetApiKey();
    }
  }
}
