/** The pure decisions of the request gateway (pkg/easyhttp/client.go and
    pkg/easyhttp/methods.go): which TLS profile `initialize` picks, how the
    request URL is joined, what request is handed to the HTTP engine, and
    how the engine's reply is classified. */
module Gateway {
  import opened Types
  import opened Helpers

  // ---------------------------------------------------------------------
  // initialize: the engine's fingerprint profile and proxy
  // ---------------------------------------------------------------------

  datatype Profile = ImpersonateChrome | ImpersonateSafari | ImpersonateFirefox | RandomizedFingerprint

  /** The profile `initialize` configures for a browser name: the matching
      impersonation for the three known names, a randomized TLS fingerprint
      for any other string. */
  function ProfileFor(b: BrowserType): (p: Profile)
    ensures p == ImpersonateChrome <==> b == Chrome
    ensures p == ImpersonateSafari <==> b == Safari
    ensures p == ImpersonateFirefox <==> b == Firefox
  {
    if b == Chrome then ImpersonateChrome
    else if b == Safari then ImpersonateSafari
    else if b == Firefox then ImpersonateFirefox
    else RandomizedFingerprint
  }

  /** A default configuration always impersonates a concrete browser. */
  lemma DefaultProfileImpersonates(randomIndex: nat)
    requires randomIndex < 3
    ensures ProfileFor(DefaultClientConfig(GetRandomBrowserType(randomIndex)).browserType) != RandomizedFingerprint
  {
  }

  /** The proxy `initialize` sets: only a non-empty proxy string is used. */
  function ProxyFor(config: ClientConfig): (proxy: Option<string>)
    ensures proxy.Some? <==> config.proxy != ""
    ensures proxy.Some? ==> proxy.value == config.proxy
  {
    if config.proxy != "" then Some(config.proxy) else None
  }

  // ---------------------------------------------------------------------
  // The request URL
  // ---------------------------------------------------------------------

  /** base + "/" + the endpoint with all its leading slashes removed. */
  function JoinURL(base: string, endpoint: string): (url: string)
    ensures |url| > |base| && url[..|base| + 1] == base + "/"
    ensures var rest := url[|base| + 1..];
      && |rest| <= |endpoint|
      && rest == endpoint[|endpoint| - |rest|..]
      && (rest == [] || rest[0] != '/')
      && AllChars(endpoint[..|endpoint| - |rest|], '/')
  {
    var rest := TrimLeft(endpoint, '/');
    assert (base + "/" + rest)[|base| + 1..] == rest;
    base + "/" + rest
  }

  /** Leading slashes of the endpoint make no difference to the URL. */
  lemma JoinURLIgnoresLeadingSlash(base: string, endpoint: string)
    ensures JoinURL(base, "/" + endpoint) == JoinURL(base, endpoint)
  {
    assert ("/" + endpoint)[1..] == endpoint;
  }

  /** Joined to a normalised base URL (one that was not empty or all
      slashes), the endpoint is separated by exactly one '/'. */
  lemma JoinURLSingleSeparator(rawBase: string, endpoint: string)
    requires !AllChars(rawBase, '/')
    ensures var base := NormalizeURL(rawBase);
      var url := JoinURL(base, endpoint);
      && url[|base| - 1] != '/'
      && url[|base|] == '/'
      && (|url| == |base| + 1 || url[|base| + 1] != '/')
  {
    var base := NormalizeURL(rawBase);
    var url := JoinURL(base, endpoint);
    NormalizeURLTrailingSlash(rawBase);
    assert url[..|base| + 1] == base + "/";
    assert url[|base| - 1] == (base + "/")[|base| - 1] == base[|base| - 1];
    assert url[|base|] == (base + "/")[|base|];
    if |url| > |base| + 1 {
      assert url[|base| + 1] == url[|base| + 1..][0];
    }
  }

  // ---------------------------------------------------------------------
  // The request handed to the engine and the classification of its reply
  // ---------------------------------------------------------------------

  /** What the gateway asks of the HTTP engine: method, URL, optional body,
      headers, the retry policy, and whether the body is decoded into the
      caller's result. */
  datatype HttpRequest = HttpRequest(
    verb: string,
    url: string,
    body: Option<Payload>,
    headers: map<string, string>,
    retryCount: int,
    retryWait: Millis,
    retryMaxWait: Millis,
    decodesResult: bool)

  /** The request chain: the caller's method, URL, body and headers, with
      the retry count and backoff window taken from the configuration. */
  function BuildRequest(config: ClientConfig, verb: string, url: string, body: Option<Payload>,
                        headers: map<string, string>, decodesResult: bool): (r: HttpRequest)
    ensures r.verb == verb && r.url == url && r.body == body && r.headers == headers
    ensures r.decodesResult == decodesResult
    ensures r.retryCount == config.retryCount
    ensures r.retryWait == config.retryWait && r.retryMaxWait == config.retryMaxWait
    ensures ValidConfig(config) ==> r.retryCount >= 0 && 0 <= r.retryWait <= r.retryMaxWait
  {
    HttpRequest(verb, url, body, headers, config.retryCount, config.retryWait, config.retryMaxWait, decodesResult)
  }

  /** The engine's answer to one logical request, after its own retries: a
      transport error, the last status code (0 when no response arrived),
      and the engine's own error-state verdict on that response. */
  datatype EngineReply = EngineReply(transportErr: bool, status: int, isErrorState: bool)

  /** The methods the gateway dispatches. */
  predicate IsSupported(verb: string) {
    verb == "GET" || verb == "POST" || verb == "PUT" || verb == "DELETE"
  }

  /** The error (if any) a dispatched request yields: success exactly when
      there is neither a transport error nor an error state; every failure
      is an APIError carrying the reply's status, and a transport error
      takes precedence over the error state. */
  function Classify(reply: EngineReply): (err: Option<Error>)
    ensures err == None <==> !reply.transportErr && !reply.isErrorState
    ensures err.Some? ==> err.value.APIError? && err.value.status == reply.status
    ensures err.Some? ==> (err.value.message == RequestFailed <==> reply.transportErr)
  {
    if reply.transportErr then Some(APIError(RequestFailed, reply.status))
    else if reply.isErrorState then Some(APIError(FailedWithStatus, reply.status))
    else None
  }

  /** The outcome of makeRequest: an unsupported method is refused before
      any reply exists, a supported one is classified. */
  function Outcome(verb: string, reply: EngineReply): (err: Option<Error>)
    ensures err == None <==> IsSupported(verb) && !reply.transportErr && !reply.isErrorState
    ensures err == Some(UnsupportedMethod(verb)) <==> !IsSupported(verb)
    ensures err.Some? && !err.value.UnsupportedMethod? ==> err.value.APIError? && err.value.status == reply.status
  {
    if IsSupported(verb) then Classify(reply) else Some(UnsupportedMethod(verb))
  }

  /** The four outcomes are told apart by the error alone: nil, unsupported
      method, transport APIError, error-state APIError; each failure holds
      the status of the reply it came from. */
  lemma OutcomeCases(verb: string, reply: EngineReply)
    ensures var err := Outcome(verb, reply);
      || (err == None && IsSupported(verb) && !reply.transportErr && !reply.isErrorState)
      || (err == Some(UnsupportedMethod(verb)) && !IsSupported(verb))
      || (err == Some(APIError(RequestFailed, reply.status)) && IsSupported(verb) && reply.transportErr)
      || (err == Some(APIError(FailedWithStatus, reply.status)) && IsSupported(verb) && !reply.transportErr && reply.isErrorState)
  {
  }
}
