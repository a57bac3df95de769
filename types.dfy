/** Records shared by the request gateway and the websocket sessions
    (the shapes of pkg/easyhttp/types.go). */
module Types {

  datatype Option<+T> = None | Some(value: T)

  /** A request or message body. Marshalling it to JSON belongs to the
      HTTP and websocket engines and is not part of this model. */
  type Payload = string

  /** Browser names accepted as `BrowserType`; any other string selects a
      randomized TLS fingerprint. */
  type BrowserType = string

  const Chrome: BrowserType := "chrome"
  const Safari: BrowserType := "safari"
  const Firefox: BrowserType := "firefox"

  /** Durations are whole milliseconds. */
  type Millis = int

  datatype WebSocketConfig = WebSocketConfig(
    enableCompression: bool,
    pingInterval: Millis,
    pongWait: Millis,
    bufferSize: nat)

  datatype ClientConfig = ClientConfig(
    timeout: Millis,
    maxConcurrency: int,
    proxy: string,
    retryCount: int,
    retryWait: Millis,
    retryMaxWait: Millis,
    browserType: BrowserType,
    isDebug: bool,
    wsConfig: WebSocketConfig)

  /** The message of an `APIError`: either the engine reported a transport
      failure ("request failed: ...") or the response was in an error state
      ("request failed with status: ..."). */
  datatype ApiFailure = RequestFailed | FailedWithStatus

  /** Every error value the core returns. */
  datatype Error =
    | NotInitialized              // "client is not initialized"
    | ContextDone                 // the context's error, returned by a failed semaphore acquire
    | UnsupportedMethod(verb: string)  // "unsupported method: <verb>"
    | APIError(message: ApiFailure, status: int)
    | InvalidProxy                // "invalid proxy URL: ..."
    | DialFailed                  // "websocket connection failed: ..."
    | ConnectionClosed            // "websocket connection is closed"

  /** The configuration invariant the defaults establish: at least one
      request in flight, no negative retry count, a backoff window that is
      not inverted, and positive heartbeat timings. */
  predicate ValidConfig(c: ClientConfig) {
    && c.maxConcurrency >= 1
    && c.retryCount >= 0
    && 0 <= c.retryWait <= c.retryMaxWait
    && c.wsConfig.pingInterval > 0
    && c.wsConfig.pingInterval < c.wsConfig.pongWait
  }

  function DefaultWebSocketConfig(): (w: WebSocketConfig)
    ensures w.bufferSize == 100 && w.enableCompression
    ensures 0 < w.pingInterval < w.pongWait
  {
    WebSocketConfig(
      enableCompression := true,
      pingInterval := 30_000,
      pongWait := 60_000,
      bufferSize := 100)
  }

  /** The default configuration; the browser is the caller's (random) pick. */
  function DefaultClientConfig(browser: BrowserType): (c: ClientConfig)
    ensures ValidConfig(c)
    ensures c.maxConcurrency == 5 && c.retryCount == 3 && c.proxy == ""
    ensures c.browserType == browser && c.wsConfig == DefaultWebSocketConfig()
  {
    ClientConfig(
      timeout := 30_000,
      maxConcurrency := 5,
      proxy := "",
      retryCount := 3,
      retryWait := 2_000,
      retryMaxWait := 5_000,
      browserType := browser,
      isDebug := false,
      wsConfig := DefaultWebSocketConfig())
  }
}
