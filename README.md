# easyhttp core, modelled in Dafny

easyhttp is a Go client library for remote services. It sends HTTP requests through an
engine that impersonates a browser. A semaphore caps how many requests are in flight. It
also keeps a registry of websocket sessions, one per URL. Each session has a bounded inbound
queue filled by a reader and is kept alive by a heartbeat.

This project models the sequential core of the library:

- `types.dfy` (`Types`): the configuration records, their defaults and the error values.
- `helpers.dfy` (`Helpers`):
  - URL normalisation and the random browser choice;
  - header conversion and query-parameter expansion, as loops.
- `gateway.dfy` (`Gateway`): the pure decisions of the request path:
  - the TLS profile and proxy the engine is configured with;
  - the request URL;
  - the request handed to the engine;
  - the classification of the engine's reply.
- `primitives.dfy` (`Primitives`): stand-ins for objects the core only uses:
  - the semaphore, as a permit counter with ghost acquire and release counts;
  - the HTTP engine, as a log of issued requests, with a ghost record of how many semaphore
    permits were taken when each was issued;
  - the websocket connection, as open/closed state, a log of written frames and a close
    count;
  - a Go buffered channel.
- `websocket.dfy` (`WebSocket`): one session as a class with `closed`, `done`, its channel and
  its connection. It has Send, Close, the reader loop and the heartbeat loop.
- `client.dfy` (`Client`): the `ApiClient` class:
  - construction and `initialize`;
  - the gated `Request`/`MakeRequest`, the verb wrappers and `GetRaw`;
  - the session registry `wsConns`, with get-or-create and the sweep of closed entries.

Everything the outside world decides is a parameter of the operation that needs it:

- whether the semaphore grants a permit before the context ends (`granted`);
- the engine's reply (`EngineReply`: transport error, status, error-state verdict);
- whether the proxy URL parses and whether the dial succeeds;
- the outcomes of successive reads and ping writes, and of closing a connection;
- the index `rand.Intn(3)` draws.

Two declarations in the source conflict, and the model settles each as follows:

- `ClientConfig`, `ApiClient` and `APIError` are declared in both client.go and types.go. The
  model uses the types.go shapes, which include `WSConfig` and `wsConns`.
- `NewApiClient` falls back on `NewDefaultClientConfig` (client.go:44-54). The model uses the
  defaults of types.go:59-70 instead. They agree on every shared field and add the default
  websocket settings.

Some source behaviour is settled by convention:

- `wsConns` is never initialised by `NewApiClient` (client.go:62-66), so the first registration
  (websocket.go:52) would write to a nil map. The model starts with an empty registry.
- `newWebSocket` calls `convertHeaders` (websocket.go:37). That function is defined in none of
  the package's files (client.go, helpers.go, methods.go, types.go, websocket.go). The model gives
  it the behaviour of `toHttpHeaders` (helpers.go:53-59), the package's only header converter.
- The websocket dial uses the request proxy `config.Proxy` (websocket.go:29-35); there is no
  websocket-specific proxy field.
- A failed ping write only ends `pingLoop` (websocket.go:108-113); it does not close the
  session.

## Model

| member | source | states |
|---|---|---|
| Types.DefaultWebSocketConfig | pkg/easyhttp/types.go:72-79 | buffer size 100, compression on, ping interval positive and shorter than the pong wait |
| Types.DefaultClientConfig | pkg/easyhttp/types.go:59-70 | the defaults satisfy the configuration invariant (concurrency at least 1, retry count not negative, backoff window ordered); MaxConcurrency 5, RetryCount 3, no proxy, the given browser, default websocket settings |
| Helpers.TrimRight | pkg/easyhttp/helpers.go:25 | the result is the longest prefix not ending in the cut character; everything removed is that character |
| Helpers.TrimLeft | pkg/easyhttp/client.go:107 | the result is the longest suffix not starting with the cut character; everything removed is that character |
| Helpers.TrimRightNoop | pkg/easyhttp/helpers.go:25 | a string not ending in the cut character is unchanged |
| Helpers.TrimRightEmpty | pkg/easyhttp/helpers.go:25 | trimming yields "" exactly when every character is the cut character |
| Helpers.TrimRightKeeps | pkg/easyhttp/helpers.go:25 | a character other than the cut character is never removed |
| Helpers.GetRandomBrowserType | pkg/easyhttp/helpers.go:18-22 | the result is always chrome, safari or firefox |
| Helpers.EveryBrowserDrawn | pkg/easyhttp/helpers.go:19-21 | each of the three browsers is drawn for some index |
| Helpers.NormalizeURL | pkg/easyhttp/helpers.go:24-30 | the result always starts with "http" |
| Helpers.NormalizeURLScheme | pkg/easyhttp/helpers.go:25-28 | an input starting with "http" (also "httpbin.org") gets no scheme; any other input gets exactly "https://" before its trimmed form |
| Helpers.NormalizeURLTrailingSlash | pkg/easyhttp/helpers.go:25-28 | the result ends in '/' exactly when the input is empty or all slashes, and then it is "https://" |
| Helpers.NormalizeURLIdempotent | pkg/easyhttp/helpers.go:24-30 | normalising twice equals normalising once, except on empty or all-slash input, where the second pass gives "https:" |
| Helpers.ToHttpHeaders | pkg/easyhttp/helpers.go:53-59 | the key set is unchanged and each key maps to the one-element list of its value |
| Helpers.ExpandParam | pkg/easyhttp/helpers.go:40-47 | a string list under k gives one "k[]" pair per item, in item order; any other value gives exactly one pair under k |
| Helpers.AddItems | pkg/easyhttp/helpers.go:41-44 | the pairs so far are kept and one "key[]" pair per list item follows, in item order |
| Helpers.ExpandAllAppend | pkg/easyhttp/helpers.go:39-48 | expansion distributes over the visiting order, so each key's pairs form one block in visiting order |
| Helpers.ExpandAllMembership | pkg/easyhttp/helpers.go:39-48 | a pair is produced if and only if some visited key contributes it |
| Helpers.BuildQueryString | pkg/easyhttp/helpers.go:32-48 | the pairs are the expansion of every parameter in the order the map range visits the keys; an empty map gives none |
| Helpers.QueryPairsCoverParams | pkg/easyhttp/helpers.go:32-48 | a pair is in the result if and only if some parameter of the map contributes it; an empty map yields no pairs |
| Gateway.ProfileFor | pkg/easyhttp/client.go:83-92 | chrome, safari and firefox select their own impersonation, and each impersonation only its own name; any other name gets a randomized fingerprint |
| Gateway.DefaultProfileImpersonates | pkg/easyhttp/client.go:83-92 | a default configuration never falls back to a randomized fingerprint |
| Gateway.ProxyFor | pkg/easyhttp/client.go:94-96 | the engine gets a proxy exactly when the configured proxy is not empty, and it is that proxy |
| Gateway.JoinURL | pkg/easyhttp/client.go:107 | the URL is the base, then "/", then the endpoint with all its leading '/' removed and nothing else changed |
| Gateway.JoinURLIgnoresLeadingSlash | pkg/easyhttp/methods.go:35 | a leading '/' on the endpoint does not change the URL |
| Gateway.JoinURLSingleSeparator | pkg/easyhttp/client.go:107 | with a base normalised from a non-slash input, base and endpoint are separated by exactly one '/' |
| Gateway.Classify | pkg/easyhttp/client.go:161-179 | success exactly when there is neither a transport error nor an error state; every failure is an APIError with the reply's status; the transport message exactly when there was a transport error |
| Gateway.BuildRequest | pkg/easyhttp/client.go:124-139 | the request carries the caller's method, URL, body and headers and the configuration's retry count and backoff window; under a valid configuration the retry count is not negative and the window is ordered |
| Gateway.Outcome | pkg/easyhttp/client.go:144-179 | nil exactly for a supported method whose reply has neither a transport error nor an error state; "unsupported method" exactly for any other method; every other failure is an APIError with the reply's status |
| Gateway.OutcomeCases | pkg/easyhttp/client.go:144-179 | the outcome is exactly one of: nil, unsupported method, transport APIError, error-state APIError, each with the reply's status |
| Primitives.Semaphore.Acquire | pkg/easyhttp/client.go:109-111 | a granted acquire takes one permit; a refused one returns the context error and takes none |
| Primitives.Semaphore.Release | pkg/easyhttp/client.go:113 | gives back exactly one held permit |
| Primitives.MessageQueue.TrySend | pkg/easyhttp/websocket.go:78-86 | a message is appended at the back when there is room, otherwise dropped with the queue unchanged |
| Primitives.MessageQueue.Close | pkg/easyhttp/websocket.go:150-153 | closing keeps the buffered messages |
| Primitives.MessageQueue.Receive | pkg/easyhttp/websocket.go:121-123 | a consumer's receive on the channel `Messages()` hands out gets the oldest buffered message first; once that channel is closed and drained it yields end of stream, and while it is open and empty the receive waits |
| WebSocket.WebSocketClient.Messages | pkg/easyhttp/websocket.go:121-123 | the channel is the session's live queue while it is open and nil once it is closed, so a consumer that asks after Close receives from a nil channel |
| Primitives.Conn.Close | pkg/easyhttp/websocket.go:154 | the connection is closed and its close count goes up by one; nothing is written |
| WebSocket.FramesBeforeErrorAppend | pkg/easyhttp/websocket.go:65-77 | another message read without error extends what the reader has seen, in order |
| WebSocket.FramesBeforeErrorStops | pkg/easyhttp/websocket.go:70-76 | nothing after the first read error is read |
| WebSocket.DeliveredFillsThenDrops | pkg/easyhttp/websocket.go:78-86 | delivery keeps the queue's contents and appends the first arrivals that fit, in order; later arrivals are dropped; the queue never exceeds its capacity |
| WebSocket.WebSocketClient.constructor | pkg/easyhttp/websocket.go:42-46 | a new session is open, with an empty queue of capacity BufferSize |
| WebSocket.WebSocketClient.Send | pkg/easyhttp/websocket.go:125-134 | on a closed session: "websocket connection is closed" and nothing written; otherwise one JSON frame is written and the write's error is returned |
| WebSocket.WebSocketClient.Close | pkg/easyhttp/websocket.go:136-158 | first call: closed and done set, channel closed with its buffer kept and field set to nil, connection closed once, its error returned; later calls return nil and change nothing |
| WebSocket.WebSocketClient.ReadLoop | pkg/easyhttp/websocket.go:56-89 | a closed session reads nothing; otherwise the queue becomes the delivery of every message read before the first error, and the reader stops (and closes the session) exactly when a read fails |
| WebSocket.WebSocketClient.PingLoop | pkg/easyhttp/websocket.go:91-119 | a closed session gets no ping; otherwise one ping per tick up to and including the first failed write, and the heartbeat keeps running exactly when no write failed |
| Client.LiveEntries | pkg/easyhttp/websocket.go:165-169 | keeps exactly the entries whose session is not closed, each unchanged |
| Client.LiveEntriesIdempotent | pkg/easyhttp/websocket.go:161-170 | sweeping a swept registry removes nothing |
| Client.ApiClient.constructor | pkg/easyhttp/client.go:62-66 | the base URL is normalised, the semaphore has MaxConcurrency permits and none taken, there is no engine yet and the registry is empty |
| Client.ApiClient.NewApiClient | pkg/easyhttp/client.go:56-71 | a missing configuration becomes the defaults; the base URL is normalised; the engine is initialised with the configured profile and proxy |
| Client.ApiClient.Initialize | pkg/easyhttp/client.go:73-99 | an engine already set is kept; otherwise a fresh one with the profile and proxy of the configuration |
| Client.ApiClient.Request | pkg/easyhttp/client.go:101-117 | an uninitialised client gives "client is not initialized" and takes no permit; a refused permit gives its error with nothing released or sent; after a granted permit exactly one is released, the permit count is restored, the URL is the joined one, a supported method's request reaches the engine while that permit is held and at most MaxConcurrency permits are taken, and the outcome is makeRequest's |
| Client.ApiClient.MakeRequest | pkg/easyhttp/client.go:119-180 | only GET, POST, PUT and DELETE send a request, carrying the retry policy, body and headers; any other method gives "unsupported method" and sends nothing; the error is the reply's classification |
| Client.ApiClient.Get | pkg/easyhttp/methods.go:13-15 | a request with method GET and no payload |
| Client.ApiClient.Post | pkg/easyhttp/methods.go:17-19 | a request with method POST and the caller's payload unchanged |
| Client.ApiClient.Put | pkg/easyhttp/methods.go:21-23 | a request with method PUT and the caller's payload unchanged |
| Client.ApiClient.Delete | pkg/easyhttp/methods.go:25-27 | a request with method DELETE and no payload |
| Client.ApiClient.GetRaw | pkg/easyhttp/methods.go:29-62 | a refused permit gives a nil response and its error, with nothing released; otherwise one permit is taken and released, and one GET is sent to the joined URL without decoding while that permit is held and at most MaxConcurrency permits are taken; the error is the reply's classification; the response is returned exactly on success |
| Client.ApiClient.NewWebSocket | pkg/easyhttp/websocket.go:14-54 | an open registered session is returned with the registry unchanged; a closed one is removed before the proxy parse and the dial, and stays removed if either fails; a successful dial registers exactly one fresh open session under the URL, with converted headers and an empty queue of capacity BufferSize; no other entry changes |
| Client.ApiClient.RemoveClosedWebSockets | pkg/easyhttp/websocket.go:161-170 | the registry becomes exactly its previous entries whose sessions are not closed, unchanged |

## Left out

- The HTTP engine (imroc/req) is not modelled. This covers its TLS impersonation, retry loop,
  backoff, retry hook, request context and timeout, and decoding into the caller's result. The
  model records the request handed to the engine and takes the engine's final reply as an
  input. `IsErrorState` is a field of that reply, because its threshold lives in the library.
- The retry hook's `attempt` counter and its debug log are advisory only and are not modelled.
- gorilla/websocket is not modelled: the dial handshake, read deadlines, the pong handler and
  frame encoding. Dial, read, write and close outcomes are inputs. The connection keeps a log of
  the frames written to it.
- Concurrency is not modelled. This covers goroutines, mutexes, the WaitGroup, blocking channel
  operations, the ticker, and semaphore blocking and fairness.
  - Each operation is modelled by its sequential effect.
  - `NewWebSocket` does not start the reader and heartbeat. A caller runs `ReadLoop` and
    `PingLoop` on the session.
  - WebSocket.WebSocketClient.ReadLoop: when the reader stops, the model runs the deferred
    `Close` to completion, so the channel and the connection end up closed. In the source
    (websocket.go:57-58, 147), that `Close` runs before the reader's own `wg.Done`, so its
    `wg.Wait` never returns after a read error, and the channel and the connection stay open.
  - WebSocket.WebSocketClient.PingLoop: when a tick finds the session closed, the model ends the
    heartbeat without a write. In the source (websocket.go:100-102), that path calls `RUnlock`
    on a mutex it holds with `Lock`, which is a fatal runtime error rather than a clean return.
- `url.Values.Encode` and `fmt.Sprint` are not modelled. `BuildQueryString` returns the list of
  query pairs before encoding, and a non-list value carries its already rendered text.
- Error message formatting (`%v`, `%d`) is not modelled. Each `Error` constructor names its
  message.
- Nil dereferences and other panics are excluded by the model's types, or listed as
  requirements:
  - An `ApiClient` zero value has no semaphore and no configuration.
  - `GetRaw` on a client without an engine requires an engine.
  - A nil `WSConfig` cannot occur, because the websocket configuration is not optional.
  - A negative `BufferSize` cannot occur, because the buffer size is a natural number.
  - Sending on or closing an already closed channel is a requirement on the channel's methods.
- The configuration is held as an immutable value (`const config`). In the source,
  `ApiClient.config` is the caller's `*ClientConfig` pointer (client.go:64), and it is read
  again on every use: the retry settings at client.go:126-127, and the proxy and websocket
  settings at websocket.go:26, 29 and 44. A caller's later edits to that struct are therefore
  not modelled. Only MaxConcurrency is fixed in the source too, when the semaphore is made
  (client.go:65).
- Primitives.MessageQueue.TrySend: the model has no waiting receiver, so an unbuffered channel
  (`BufferSize` 0, websocket.go:44) drops every message in the model, and so does
  `DeliveredFillsThenDrops` at capacity 0. In the source, the send at websocket.go:79 succeeds
  whenever a consumer is already blocked receiving from `Messages()`.
- Integer widths (`int64` MaxConcurrency, `int` counts) are unbounded in the model. Nothing in the
  core adds to them beyond one permit.
- Helpers.BuildQueryString: states the query pairs in the order the keys are visited, not the
  encoded string, whose key sorting and percent-encoding belong to `url.Values.Encode`.
- Closing every session at once (a bulk teardown of the registry) is not part of this source
  and is not modelled.
