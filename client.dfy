/** The ApiClient of pkg/easyhttp: construction and initialisation
    (client.go), the gated request paths (client.go, methods.go) and the
    registry of websocket sessions (websocket.go). */
module Client {
  import opened Types
  import opened Helpers
  import opened Gateway
  import opened Primitives
  import opened WebSocket

  /** The registered sessions that are not closed, unchanged. */
  function LiveEntries(conns: map<string, WebSocketClient>): (live: map<string, WebSocketClient>)
    reads conns.Values
    ensures live.Keys <= conns.Keys
    ensures forall url :: url in conns ==> (url in live <==> !conns[url].closed)
    ensures forall url :: url in live ==> live[url] == conns[url]
  {
    map url | url in conns && !conns[url].closed :: conns[url]
  }

  /** Sweeping twice removes nothing more. */
  lemma LiveEntriesIdempotent(conns: map<string, WebSocketClient>)
    ensures LiveEntries(LiveEntries(conns)) == LiveEntries(conns)
  {
  }

  class ApiClient {
    var baseUrl: string
    /** The configured HTTP engine; null until initialize runs. */
    var client: Engine?
    const config: ClientConfig
    const sema: Semaphore
    var wsConns: map<string, WebSocketClient>

    /** The semaphore has MaxConcurrency permits and guards the engine. */
    ghost predicate Valid()
      reads this, sema
    {
      && sema.Valid() && sema.size == config.maxConcurrency
      && (client != null ==> client.gate == sema)
    }

    /** The struct NewApiClient builds before it calls initialize. */
    constructor (url: string, config: ClientConfig)
      ensures Valid() && fresh(sema) && sema.cur == 0
      ensures baseUrl == NormalizeURL(url) && this.config == config
      ensures client == null && wsConns == map[]
    {
      baseUrl := NormalizeURL(url);
      this.config := config;
      sema := new Semaphore(config.maxConcurrency);
      client := null;
      wsConns := map[];
    }

    /** NewApiClient: a missing configuration is replaced by the defaults
        (with the browser drawn at `randomIndex`), the base URL is
        normalised, a semaphore of MaxConcurrency permits is made, and the
        engine is initialised. */
    static method NewApiClient(url: string, config: Option<ClientConfig>, randomIndex: nat) returns (api: ApiClient)
      requires randomIndex < 3
      ensures fresh(api) && fresh(api.sema) && api.Valid()
      ensures api.baseUrl == NormalizeURL(url)
      ensures api.config == if config.Some? then config.value else DefaultClientConfig(GetRandomBrowserType(randomIndex))
      ensures api.sema.cur == 0 && api.wsConns == map[]
      ensures api.client != null && fresh(api.client) && api.client.sent == [] && api.client.held == []
      ensures api.client.profile == ProfileFor(api.config.browserType) && api.client.proxy == ProxyFor(api.config)
    {
      var cfg := if config.Some? then config.value else DefaultClientConfig(GetRandomBrowserType(randomIndex));
      api := new ApiClient(url, cfg);
      api.Initialize();
    }

    /** initialize: an engine that is already set is kept; otherwise one is
        made with the profile for the configured browser and the proxy. */
    method Initialize()
      requires Valid()
      modifies this`client
      ensures Valid()
      ensures old(client) != null ==> client == old(client)
      ensures old(client) == null ==> client != null && fresh(client) && client.sent == [] && client.held == []
      ensures old(client) == null ==> client.profile == ProfileFor(config.browserType) && client.proxy == ProxyFor(config)
    {
      if client != null {
        return;
      }
      client := new Engine(ProfileFor(config.browserType), ProxyFor(config), sema);
    }

    /** The effect of one gated request on the permits, the engine and the
        returned error: an uninitialised client fails before taking a
        permit; a refused permit is returned as the error and nothing is
        released or sent; after a granted permit exactly one permit is
        released, the supported method's request goes to the engine while
        that permit is held (and no more than MaxConcurrency are), and the
        reply is classified. */
    twostate predicate Served(verb: string, endpoint: string, payload: Option<Payload>,
                              headers: map<string, string>, granted: bool, reply: EngineReply, new err: Option<Error>)
      reads this, sema, client
    {
      && client == old(client)
      && sema.cur == old(sema.cur)
      && (client == null ==>
            err == Some(NotInitialized)
            && sema.acquires == old(sema.acquires) && sema.releases == old(sema.releases))
      && (client != null && !granted ==>
            err == Some(ContextDone) && client.sent == old(client.sent) && client.held == old(client.held)
            && sema.acquires == old(sema.acquires) && sema.releases == old(sema.releases))
      && (client != null && granted ==>
            && sema.acquires == old(sema.acquires) + 1 && sema.releases == old(sema.releases) + 1
            && client.sent == old(client.sent) +
                 (if IsSupported(verb)
                  then [BuildRequest(config, verb, JoinURL(baseUrl, endpoint), payload, headers, true)]
                  else [])
            && client.held == old(client.held) + (if IsSupported(verb) then [old(sema.cur) + 1] else [])
            && (IsSupported(verb) ==> 1 <= client.held[|client.held| - 1] <= sema.size)
            && err == Outcome(verb, reply))
    }

    /** request: the nil-client check, the URL join, and a permit held
        around makeRequest. `granted` is the semaphore's answer, `reply`
        the engine's. */
    method Request(verb: string, endpoint: string, payload: Option<Payload>, headers: map<string, string>,
                   granted: bool, reply: EngineReply) returns (err: Option<Error>)
      requires Valid()
      requires granted ==> sema.cur < sema.size
      modifies sema, client
      ensures Valid()
      ensures Served(verb, endpoint, payload, headers, granted, reply, err)
    {
      if client == null {
        return Some(NotInitialized);
      }
      var url := JoinURL(baseUrl, endpoint);
      err := sema.Acquire(granted);
      if err.Some? {
        return;
      }
      err := MakeRequest(verb, url, payload, headers, reply);
      sema.Release();
    }

    /** makeRequest: only GET, POST, PUT and DELETE reach the engine; the
        result is the classification of its reply. */
    method MakeRequest(verb: string, url: string, payload: Option<Payload>, headers: map<string, string>,
                       reply: EngineReply) returns (err: Option<Error>)
      requires client != null
      modifies client
      ensures client.sent == old(client.sent) +
        (if IsSupported(verb) then [BuildRequest(config, verb, url, payload, headers, true)] else [])
      ensures client.held == old(client.held) + (if IsSupported(verb) then [client.gate.cur] else [])
      ensures err == Outcome(verb, reply)
    {
      var request := BuildRequest(config, verb, url, payload, headers, true);
      if verb == "GET" || verb == "POST" || verb == "PUT" || verb == "DELETE" {
        client.Issue(request);
      } else {
        return Some(UnsupportedMethod(verb));
      }
      var status := reply.status;
      if reply.transportErr {
        return Some(APIError(RequestFailed, status));
      }
      if reply.isErrorState {
        return Some(APIError(FailedWithStatus, status));
      }
      err := None;
    }

    method Get(endpoint: string, headers: map<string, string>, granted: bool, reply: EngineReply)
      returns (err: Option<Error>)
      requires Valid()
      requires granted ==> sema.cur < sema.size
      modifies sema, client
      ensures Valid()
      ensures Served("GET", endpoint, None, headers, granted, reply, err)
    {
      err := Request("GET", endpoint, None, headers, granted, reply);
    }

    method Post(endpoint: string, payload: Option<Payload>, headers: map<string, string>, granted: bool,
                reply: EngineReply) returns (err: Option<Error>)
      requires Valid()
      requires granted ==> sema.cur < sema.size
      modifies sema, client
      ensures Valid()
      ensures Served("POST", endpoint, payload, headers, granted, reply, err)
    {
      err := Request("POST", endpoint, payload, headers, granted, reply);
    }

    method Put(endpoint: string, payload: Option<Payload>, headers: map<string, string>, granted: bool,
               reply: EngineReply) returns (err: Option<Error>)
      requires Valid()
      requires granted ==> sema.cur < sema.size
      modifies sema, client
      ensures Valid()
      ensures Served("PUT", endpoint, payload, headers, granted, reply, err)
    {
      err := Request("PUT", endpoint, payload, headers, granted, reply);
    }

    method Delete(endpoint: string, headers: map<string, string>, granted: bool, reply: EngineReply)
      returns (err: Option<Error>)
      requires Valid()
      requires granted ==> sema.cur < sema.size
      modifies sema, client
      ensures Valid()
      ensures Served("DELETE", endpoint, None, headers, granted, reply, err)
    {
      err := Request("DELETE", endpoint, None, headers, granted, reply);
    }

    /** GetRaw: a permit held around one GET (no body, no decoding), which
        reaches the engine while the permit is taken; the response is
        returned only when the reply classifies as success.
        It has no nil-client check, so an initialised engine is required. */
    method GetRaw(endpoint: string, headers: map<string, string>, granted: bool, reply: EngineReply)
      returns (response: Option<EngineReply>, err: Option<Error>)
      requires Valid() && client != null
      requires granted ==> sema.cur < sema.size
      modifies sema, client
      ensures Valid() && sema.cur == old(sema.cur)
      ensures !granted ==> response == None && err == Some(ContextDone)
      ensures !granted ==> client.sent == old(client.sent) && client.held == old(client.held)
      ensures !granted ==> sema.acquires == old(sema.acquires) && sema.releases == old(sema.releases)
      ensures granted ==> sema.acquires == old(sema.acquires) + 1 && sema.releases == old(sema.releases) + 1
      ensures granted ==> client.sent == old(client.sent) + [BuildRequest(config, "GET", JoinURL(baseUrl, endpoint), None, headers, false)]
      ensures granted ==> client.held == old(client.held) + [old(sema.cur) + 1]
      ensures granted ==> 1 <= client.held[|client.held| - 1] <= sema.size
      ensures granted ==> err == Classify(reply)
      ensures granted ==> (response.Some? <==> err.None?)
      ensures response.Some? ==> response.value == reply
    {
      err := sema.Acquire(granted);
      if err.Some? {
        return None, err;
      }
      var url := JoinURL(baseUrl, endpoint);
      var request := BuildRequest(config, "GET", url, None, headers, false);
      client.Issue(request);
      if reply.transportErr {
        response, err := None, Some(APIError(RequestFailed, reply.status));
      } else if reply.isErrorState {
        response, err := None, Some(APIError(FailedWithStatus, reply.status));
      } else {
        response, err := Some(reply), None;
      }
      sema.Release();
    }

    /** newWebSocket: an open registered session is reused; a closed one is
        dropped before the proxy is parsed and the dial is attempted; a
        failed parse or dial registers nothing; a successful dial registers
        a fresh open session with an empty queue under wsUrl.
        `proxyParses` and `dialOk` are the answers of url.Parse and of the
        dialer. */
    method NewWebSocket(wsUrl: string, headers: map<string, string>, proxyParses: bool, dialOk: bool)
      returns (ws: WebSocketClient?, err: Option<Error>)
      modifies this`wsConns
      ensures wsUrl in old(wsConns) && !old(wsConns)[wsUrl].closed ==>
        ws == old(wsConns)[wsUrl] && err == None && wsConns == old(wsConns)
      ensures (wsUrl !in old(wsConns) || old(wsConns)[wsUrl].closed) && config.proxy != "" && !proxyParses ==>
        ws == null && err == Some(InvalidProxy) && wsConns == old(wsConns) - {wsUrl}
      ensures (wsUrl !in old(wsConns) || old(wsConns)[wsUrl].closed) && (config.proxy == "" || proxyParses) && !dialOk ==>
        ws == null && err == Some(DialFailed) && wsConns == old(wsConns) - {wsUrl}
      ensures (wsUrl !in old(wsConns) || old(wsConns)[wsUrl].closed) && (config.proxy == "" || proxyParses) && dialOk ==>
        && ws != null && fresh(ws) && fresh(ws.conn) && fresh(ws.queue) && err == None
        && ws.Valid() && !ws.closed && ws.queue.buf == [] && ws.queue.capacity == config.wsConfig.bufferSize
        && ws.conn.url == wsUrl && ws.conn.header.Keys == headers.Keys
        && (forall k :: k in headers ==> ws.conn.header[k] == [headers[k]])
        && ws.conn.compression == config.wsConfig.enableCompression && ws.conn.proxy == ProxyFor(config)
        && wsConns == old(wsConns)[wsUrl := ws]
    {
      if wsUrl in wsConns {
        var existing := wsConns[wsUrl];
        if !existing.closed {
          return existing, None;
        }
        wsConns := wsConns - {wsUrl};
      }
      if config.proxy != "" && !proxyParses {
        return null, Some(InvalidProxy);
      }
      if !dialOk {
        return null, Some(DialFailed);
      }
      var header := ToHttpHeaders(headers);
      var conn := new Conn.Dial(wsUrl, header, config.wsConfig.enableCompression, ProxyFor(config));
      ws := new WebSocketClient(conn, config.wsConfig.bufferSize);
      wsConns := wsConns[wsUrl := ws];
      err := None;
    }

    /** RemoveClosedWebSockets: every closed entry is deleted, every other
        entry is kept as it was. */
    method RemoveClosedWebSockets()
      modifies this`wsConns
      ensures wsConns == LiveEntries(old(wsConns))
    {
      var pending := wsConns.Keys;
      while pending != {}
        invariant pending <= old(wsConns).Keys
        invariant wsConns == map url | url in old(wsConns) && (url in pending || !old(wsConns)[url].closed) :: old(wsConns)[url]
        decreases pending
      {
        var url :| url in pending;
        if wsConns[url].closed {
          wsConns := wsConns - {url};
        }
        pending := pending - {url};
      }
    }
  }
}
