# mock-http-server in Dafny

A model of `src/server.js` from `mock-http-server`. The library runs an HTTP
server and an HTTPS server in a test process. Tests register canned replies
with `on`, drive real clients against the servers, and then inspect the
requests that were received.

The model covers:

- The handler registry: `on` fills in defaults (method `GET`, status `200`, body `""`, `content-type: application/json`) and puts the newest handler in front. `resetHandlers` empties the registry.
- Matching: handlers are scanned in registry order and the first match wins. A handler matches on method (`*`, or the request method equal to the upper-cased handler method), on path (`*`, or the exact pathname) and on filter (the filter must return exactly `true`). When nothing matches, the fixed `404 Not Found` reply is sent.
- Reply synthesis:
  - the status goes through `|| 0`; a static or synchronous body goes through `|| ""`, while an asynchronous body is used as it is passed back;
  - `content-length` is the UTF-8 byte length (RFC 3629) or the buffer length;
  - headers are merged in three layers, then `undefined` values are dropped, then `null` values;
  - `HEAD` writes no body, `end: false` keeps the response open, and the delay is recorded.
- The request log: every request is recorded before matching. `requests(filter)` filters on exact method and exact path. There are also `reset` and `resetRequests`.
- The engine life cycle:
  - `start` and the listening event; `getPort`; connection tracking;
  - `stop`, which releases handlers and address when the listener closes, and clears the log and calls back only once every connection has closed.
  - A ghost ledger proves that each `stop` callback is called at most once, and that every one has been called once nothing is pending.
- The `ServerMock` facade: an HTTP engine and an HTTPS engine, with a `null` slot for the `ServerVoid` stand-in of an unconfigured protocol. `start` and `stop` are chained through continuation callbacks, `on` rewrites the caller's object between the two engines, and the lists are concatenated.

Events that come from Node (listening, a connection opening or closing, the
listener closing, a request arriving) are methods of the engine. Callbacks
are values of type `Engine.Callback`, and a method returns the callbacks it
calls, in order. The facade's continuation closures are the `StartHttpsThen`
and `StopHttpsThen` constructors.

Where the code and its documentation differ, the model follows the code:

- The 404 `content-length` is the number `9`, not a string.
- A filter criterion that is the empty string is treated as missing (`!filter.method`).
- `getPort` becomes `null` when the listener closes, before the connections drain. The request log is cleared only after they have drained.
- The value an asynchronous body passes to its callback is not normalised with `|| ""`. A value that is neither a string nor a buffer makes `Buffer.byteLength` throw, and the model returns `None` for that reply.

## Model

| member | source | states |
|---|---|---|
| Values.ToUpperAscii | src/server.js:119 | each character is upper-cased in place, as `Values.UpperChar` says: same length, no lower-case ASCII letter left, and a string without one is left unchanged |
| Values.UpperChar | src/server.js:119 | a lower-case ASCII letter becomes the upper-case letter 32 code points below it; every other character is kept |
| Values.ToUpperIdempotent | src/server.js:119 | upper-casing twice is upper-casing once |
| Values.Without | src/server.js:216-218 | deleting a connection keeps every other connection and removes exactly one entry when it was present; a duplicate-free set stays duplicate-free, and a missing connection changes nothing |
| Utf8.Length | src/server.js:134 | the UTF-8 byte length of a string lies between its character count and four times that |
| Utf8.EncodeChar | src/server.js:134 | each character encodes to 1-4 bytes, as many as its code point range requires; the lead byte announces that count and the rest are continuation bytes |
| Utf8.LengthIsEncodedLength | src/server.js:134 | the byte length computed per character equals the length of the RFC 3629 encoding |
| Handlers.ApplyDefaults | src/server.js:269-285 | a missing method becomes `GET`, a missing status `200`, a missing body `""`; `content-type: application/json` is added unless the caller gives that header; every caller-given field, including an explicit `undefined`, wins |
| Handlers.DefaultsIdempotent | src/server.js:271-279 | the reply that `on` writes back into the caller's object yields the same stored handler when registered again |
| Handlers.FirstMatch | src/server.js:110-126 | the result is the least index whose handler matches on method, path and filter, and `None` exactly when no handler matches |
| Handlers.LowerCaseVerbNeedsWildcard | src/server.js:119 | a request method with a lower-case letter matches only handlers whose method is `*` |
| Handlers.VerbMatchesIgnoringCase | src/server.js:119 | a handler whose method is not `*` matches exactly the request methods without a lower-case letter that agree with its method up to ASCII case, so `get` serves `GET` |
| Handlers.NewestShadows | src/server.js:287 | a newly registered handler that matches a request serves it, whatever was registered before |
| Replies.ResolveStatus | src/server.js:96-104 | the status is `0` exactly when the given or computed status is falsy, and otherwise that value |
| Replies.ResolveBody | src/server.js:76-89 | a falsy literal or synchronous body becomes `""`, any other is kept, and an asynchronous body's value is used unchanged |
| Replies.ByteLength | src/server.js:133-134 | a buffer measures its byte count, a string the length of its UTF-8 encoding; any other value has no length (Node throws) |
| Replies.ResolvedBodyLength | src/server.js:78-85 | a literal or synchronous body lacks a byte length exactly when it is a truthy non-string scalar |
| Replies.DropValue | src/server.js:143-156 | the filtered header object keeps exactly the entries whose value differs from the dropped one, unchanged |
| Replies.MergeHeaders | src/server.js:139-156 | overrides win over `content-length`, which wins over the handler headers; a key survives exactly when its winning value is neither `undefined` nor `null` |
| Replies.Synthesize | src/server.js:128-176 | status, merged headers and `content-length` are the resolved ones; a body is written exactly when the method is not `HEAD`; `end` is called unless `end` is `false`; the delay is the handler's or `0`; `None` (building the reply throws) exactly when the body has no byte length |
| Replies.NotFoundLengthAgrees | src/server.js:185-193 | the fallback is a `404` with exactly the headers `content-type: plain/text` and `content-length: 9`, ended with the body `Not Found` and no delay, and `9` is that body's UTF-8 byte length |
| Replies.Serve | src/server.js:106-193 | the fallback 404 is used exactly when no handler matches; otherwise the least matching index serves, with the synthesized reply |
| RequestLog.Select | src/server.js:322-330 | a request is returned exactly when it was recorded and agrees with the filter's non-empty method and path; nothing is added |
| RequestLog.SelectAppend | src/server.js:323 | filtering preserves arrival order: filtering two stretches of the log and concatenating equals filtering the whole |
| RequestLog.SelectUnfiltered | src/server.js:325-326 | without a filter, or with empty criteria, the whole log comes back in order |
| RequestLog.SelectRecord | src/server.js:22-26 | recording a request extends a query's answer by that request exactly when the filter keeps it |
| Engine.Started | src/server.js:195-229 | `start` creates the listener and parks its callback until the listening event; nothing else of the life cycle changes |
| Engine.Stopped | src/server.js:230-241 | `stop` enters its callback in the ledger; without a listener the callback is called at once, otherwise it joins those waiting for the close event; nothing else changes, and the ledger stays balanced |
| Engine.Listening | src/server.js:223-226 | the listening event binds the address and calls the parked start callback; nothing else changes, and the ledger stays balanced |
| Engine.Disconnected | src/server.js:251-258 | the connection leaves the set; the callbacks waiting for the drain are called exactly when a stop is draining and that was the last connection; nothing else changes, and the ledger stays balanced |
| Engine.Closed | src/server.js:240-262 | the close event releases listener and address; with no connection left every waiting callback is called, otherwise they move to wait for the drain; connections and ledger of calls are kept, and the ledger stays balanced |
| Engine.Server.constructor | src/server.js:14-20 | a new engine has no handlers, requests, connections, listener or address; it is HTTPS exactly when a non-empty key and a non-empty certificate are given |
| Engine.Server.StopCallbacksAtMostOnce | src/server.js:232-264 | no `stop` callback is called more often than it was handed in |
| Engine.Server.StopCallbacksAllFired | src/server.js:242-264 | once nothing waits for the listener or the connections, every `stop` callback has been called |
| Engine.Server.On | src/server.js:269-289 | the defaulted handler is put in front of the registry, and the engine is returned |
| Engine.Server.ResetHandlers | src/server.js:302-304 | the registry is empty and the log is untouched |
| Engine.Server.ResetRequests | src/server.js:309-311 | the log is empty and the registry is untouched |
| Engine.Server.Reset | src/server.js:294-297 | both registry and log are empty |
| Engine.Server.Requests | src/server.js:322-330 | the answer holds exactly the recorded requests the filter keeps, and is no longer than the log |
| Engine.Server.Connections | src/server.js:337-339 | the answer lists every live connection, once each |
| Engine.Server.GetPort | src/server.js:346-348 | the port is `null` exactly while no address is bound; a bound port is never `0` and is the configured one unless `0` was configured |
| Engine.Server.MatchHandler | src/server.js:106-126 | the scan with the `handled` flag finds the first match, and calls exactly the filters of handlers up to the winner whose method and path matched |
| Engine.Server.HandleRequest | src/server.js:22-26 | the request is appended to the log, then served by the first matching handler or by the 404 fallback |
| Engine.Server.Start | src/server.js:195-229 | a listener exists, no address is bound yet, and the callback waits for the listening event; the life-cycle state moves as `Engine.Started` says |
| Engine.Server.OnListening | src/server.js:223-226 | the bound port becomes visible through `getPort`, and the start callback is called once; the life-cycle state moves as `Engine.Listening` says |
| Engine.Server.OnConnection | src/server.js:215-221 | the connection joins the live set, in insertion order |
| Engine.Server.OnConnectionClose | src/server.js:251-258 | the connection leaves the set; if a stop is draining and it was the last one, the log is cleared and the waiting callbacks are called, and otherwise nothing else changes; the life-cycle state moves as `Engine.Disconnected` says |
| Engine.Server.Stop | src/server.js:230-241 | without a listener the callback is called at once; otherwise it waits for the close event; the life-cycle state moves as `Engine.Stopped` says |
| Engine.Server.OnServerClose | src/server.js:240-262 | listener, address and handlers are released; with no connection left the log is cleared and every waiting callback is called; otherwise they wait for the last connection to close; the life-cycle state moves as `Engine.Closed` says |
| Facade.ServerMock.constructor | src/server.js:368-371 | an unconfigured protocol gets the stand-in; a configured one gets a fresh, stopped engine on the configured port with no handlers, requests, connections or `stop` callbacks, so `connections()` and `requests()` are empty; only the HTTPS engine can carry TLS |
| Facade.Step | src/server.js:373-385 | a callback the HTTP engine calls: a caller's own is reported; the start closure starts a stopped HTTPS engine with the caller's callback; the stop closure stops the HTTPS engine with it, reporting it when that engine has no listener; the stand-in calls the caller back at once |
| Facade.Run | src/server.js:373-385 | running callbacks in order reports no more than were called; a single callback is one `Facade.Step`; with the stand-in, or when all are callers' own, each is reported in order and nothing changes |
| Facade.RunSnoc | src/server.js:373-385 | running one more callback is one more `Step` after the run so far |
| Facade.ServerMock.Requests | src/server.js:394-396 | the answer is the filter applied to the HTTP log followed by the HTTPS log, in order, and holds exactly the recorded requests the filter keeps |
| Facade.ServerMock.RequestsUnfiltered | src/server.js:394-396 | unfiltered, the answer is the HTTP log followed by the HTTPS log |
| Facade.ServerMock.Connections | src/server.js:398-400 | the HTTP engine's live connections in order, then the HTTPS engine's; the stand-in contributes none |
| Facade.ServerMock.GetHttpPort | src/server.js:402-404 | `null` for the stand-in or an unbound engine, never `0` otherwise |
| Facade.ServerMock.GetHttpsPort | src/server.js:406-408 | `null` for the stand-in or an unbound engine, never `0` otherwise |
| Facade.ServerMock.On | src/server.js:387-392 | both engines register the same defaulted handler in front, though the HTTPS engine receives the object rewritten by the HTTP engine; both logs and both engines' life-cycle state are unchanged |
| Facade.ServerMock.Reset | src/server.js:410-413 | both engines' registries and logs are empty, so `requests()` is empty; listener, address, connections and waiting callbacks of both engines are unchanged |
| Facade.ServerMock.ResetHandlers | src/server.js:415-418 | both registries are empty; both logs and both engines' life-cycle state are unchanged |
| Facade.ServerMock.ResetRequests | src/server.js:420-423 | both logs are empty, so `requests()` is empty; both registries and both engines' life-cycle state are unchanged |
| Facade.ServerMock.StartHttps | src/server.js:375-377 | the HTTPS engine moves, and the caller is called back, as `Facade.Step` says for the start closure; its registry and log are unchanged |
| Facade.ServerMock.StopHttps | src/server.js:383 | the HTTPS engine moves, and the caller is called back, as `Facade.Step` says for the stop closure; its registry and log are unchanged |
| Facade.ServerMock.ResumeOne | src/server.js:373-385 | one callback the HTTP engine called acts on the HTTPS engine as `Facade.Step` says; its registry and log are unchanged |
| Facade.ServerMock.Resume | src/server.js:373-385 | the callbacks an engine called run in order: the HTTPS engine moves, and callers are called back, as `Facade.Run` says; its registry and log are unchanged |
| Facade.ServerMock.Start | src/server.js:373-379 | an HTTP engine starts with the closure that starts the HTTPS engine, which is left unchanged for now; without an HTTP engine the closure runs at once, as `Facade.Step` says; registries and logs are unchanged |
| Facade.ServerMock.Stop | src/server.js:381-385 | an HTTP engine stops with the closure that stops the HTTPS engine (as `Engine.Stopped` says); while it listens the HTTPS engine is left unchanged for now; without an HTTP listener the closure runs at once, as `Facade.Step` says; with neither listening the callback is called at once; registries and logs are unchanged |
| Facade.ServerMock.HandleRequest | src/server.js:22-26 | the engine that received the request logs it and serves it from its own registry; the other engine and both life-cycle states are unchanged |
| Facade.ServerMock.OnListening | src/server.js:373-379 | the engine moves as `Engine.Listening` says, and its port becomes visible; a callback the HTTP engine calls goes on to the HTTPS engine as `Facade.Run` says, while the HTTPS engine's is reported and HTTP is unchanged; handlers and logs are unchanged |
| Facade.ServerMock.OnConnection | src/server.js:215-221 | the engine's live set gains the connection, and nothing else of either engine changes |
| Facade.ServerMock.OnConnectionClose | src/server.js:381-385 | the engine moves as `Engine.Disconnected` says, its handlers are kept, and its log is cleared exactly when that completes a pending stop; callbacks the HTTP engine calls go on to the HTTPS engine as `Facade.Run` says, those the HTTPS engine calls are reported and HTTP is unchanged |
| Facade.ServerMock.OnServerClose | src/server.js:381-385 | the engine moves as `Engine.Closed` says, releasing listener, address and handlers, and clears its log when no connection is left; callbacks the HTTP engine calls go on to the HTTPS engine as `Facade.Run` says, those the HTTPS engine calls are reported and HTTP is unchanged |

## Left out

- Sockets, `listen`, `http.createServer`/`https.createServer`, TLS and `connection.end()` are I/O. Their effects on the engine arrive as the event methods.
- The `connect` stack, `multipart/form-data` parsing and `body-parser`: the request body arrives already decoded in `Request.body`.
- `url.parse`: the request carries its pathname directly. The query object and the per-handler rewrite of `req.pathname`/`req.query` are not modelled.
- `setTimeout`: the delay is recorded in the response, and the write happens at once in the model.
- `res.writeHead` validation: Node rejects some status values, such as `0`. The response records the status that would be passed.
- Numbers are integers: `NaN`, fractions and `-0` are not modelled. Strings are sequences of Unicode scalar values, so lone UTF-16 surrogates are not modelled. `toUpperCase` is modelled on ASCII letters only.
- A handler whose `method` key is present but `undefined` makes `toUpperCase` throw during matching. That case is not modelled, since `verb` is either missing or a string.
- Filters, status functions and body functions are pure functions of the request. Side effects, exceptions they throw, and re-entrant calls to `on` during a scan are not modelled.
- An asynchronous body that never calls its callback, or that calls it more than once, is not modelled.
- Header key order (`Object.entries` order) is not modelled: headers are maps.
- HTTPS key and certificate are strings. Buffers given as key or certificate are not modelled.
- Requests are logged as values. Mutations of the shared request object after it was logged are not visible.
- Replies.Synthesize: a body without a byte length makes `Buffer.byteLength` throw, and the model answers `None`. What happens next is not modelled: for a literal or synchronous body, and for an asynchronous body that calls back before returning, `connect` catches the exception and answers `500`; an asynchronous body that calls back later throws uncaught.
- Engine.Server.HandleRequest: records and matches a request in one step. In the source the body parsers run between `_saveRequest` and `_handleMockedRequest` (src/server.js:199-205) and may wait for the body, so an `on` or `reset*` call in that gap would change the registry the request is matched against. That interleaving is not modelled.
- Engine.Server.Start: requires the engine to be fully stopped. Calling `start` again while a listener exists or a stop is still draining is not modelled.
- Facade.ServerMock.Start: inherits that requirement for the HTTP engine (`http.Idle()` when an HTTP engine exists). Calling the facade's `start` while the HTTP engine is listening or still draining is not modelled.
- Engine.Server.OnListening: the port the listener binds comes from the operating system and is taken as given. The model requires it to be non-zero and equal to the configured port unless `0` was configured; the bounds `getPort` promises rest on that assumption, and a bind to another port is not modelled.
- Engine.Server.OnServerClose: assumes the listener's close event is emitted once, after `stop`. A `stop` before the listening event, and a bind failure (no listening event at all), are not modelled beyond the absence of `OnListening`.
- Facade.ServerMock.StartHttps: when the HTTPS engine is not fully stopped, the model leaves it unchanged, whereas the source would start it again.
- Facade.ServerMock.Connections: connection identities are numbers, so the two engines' connections are not known to be distinct objects.
