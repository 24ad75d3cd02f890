# A verified model of a transport-independent JSON-RPC 2.0 dispatcher

This project models the dispatch engine of `go-jsonrpc2` in Dafny. The engine is a server that holds
a table of named handlers and a default timeout. It takes one serialized payload and answers with one
serialized payload or with nothing. Its steps are:

- decode the payload as a batch (a JSON array) or as a single request;
- validate each request: it needs version `"2.0"` and a non-empty method;
- look up the method, then run its handler, raced against a deadline when a timeout is configured;
- build each response, and suppress it for a notification (a well-formed request without an id);
- for a batch, collect the element responses in input order and drop the absent ones.

Everything is pure functions over immutable datatypes, in these modules:

- `Wrappers` (`wrappers.dfy`): `Option`.
- `Json` (`json.dfy`): JSON values, used for ids, params and results. Ids and params reach the
  server as opaque raw messages (`json.RawMessage`). A result is a Go `interface{}` value; the model
  stands for it by the JSON that `json.Marshal` writes for it.
- `Errors` (`errors.dfy`): `error.go`. It holds `RpcError` with its `Code()`/`Error()` accessors, the four
  sentinels, `NewError` and `NewInternalError`. It also holds `Err`, a Go `error` value. An `Err` is
  either `Coded`, meaning it satisfies the `Error` interface, or `Plain`.
- `Protocol` (`protocol.dfy`): the `request` and `response` structs, validation and `makeResponseJson`.
  It also defines `Payload`, which says what `encoding/json` makes of an incoming payload: not JSON,
  `null`, an array, an object carrying the request fields, or any other JSON.
- `Gather` (`gather.dfy`): collecting the non-nil responses of a batch, in order.
- `Server` (`server.dfy`): the `server` state and `DefineMethod`/`SetDefaultTimeout`. It also holds
  `handleAsync`, `serveSingleRequest`, `serveBatchRequest` (two methods holding the source's two loops,
  proved equal to the reference function `BatchReply`) and `ServeRequest`.
- `Codec` (`codec.dfy`): the wire layout fixed by the struct tags. `id` and `jsonrpc` are always
  present; `result` and `error` are omitted when nil. Its decoder is the partner of the encoder.
- `Properties` (`properties.dfy`): lemmas over several calls and the scenarios of `server_test.go`.

The following are parameters of the model:

- A handler is an opaque function of its context and params.
- The outcome of the handler/timer race is a `Race` value. For a batch it comes from a `Schedule`
  indexed by the element's position; a single call uses position 0.

Where the code departs from section 5 of the JSON-RPC 2.0 Specification, or does something easy to
misread, the model follows the code:

- Section 5 of the JSON-RPC 2.0 Specification answers an invalid request with a `null` id. The code passes the decoded request
  to `makeResponseJson` (server.go:91), so an invalid request that carries an id gets that id back.
  `ServeSingleRequest` states this.
- Section 5 of the JSON-RPC 2.0 Specification makes `result` and `error` mutually exclusive. The code sets `Result` unconditionally
  (server.go:192). So a handler that returns both gets both written, and one that returns neither
  gets neither (server.go:60-61). `MakeResponse` and `EncodeResponse` state this.
- A bare `null` payload decodes to a nil slice. It therefore takes the empty-batch branch
  (server.go:76-78) and is answered with -32600.
- A `null` batch element leaves the request zero, so it is an invalid request (-32600), not a parse
  error.
- An explicit `"id": null` is a present id, `Some(JNull)`. Such a request is a call, not a notification.

## Model

| member | source | states |
|---|---|---|
| Errors.NewError | error.go:29-53 | the error built keeps exactly the code and message given, as its `Code()` and `Error()` accessors read them back |
| Errors.NewInternalError | error.go:36-38 | the error built has code -32000 and keeps the message |
| Errors.SentinelCodesDistinct | error.go:10-27 | the sentinels are -32700 "Parse error", -32600 "Invalid request", -32601 "Method not found", -32602 "Invalid Params"; their codes are pairwise distinct and differ from -32000 |
| Protocol.DecodeArray | server.go:75-76 | a payload reads as a batch iff it is an array or `null`; an array gives its elements and `null` gives an empty (nil) batch |
| Protocol.DecodeCall | server.go:86-87 | a payload reads as a request iff it is an object with the request's member types or `null`; `null` leaves the request zero, so it has no id and is invalid |
| Protocol.DecodingsOverlapOnlyOnNull | server.go:74-87 | a payload reads both as a batch and as a request iff it is `null`, which the batch branch takes first |
| Protocol.ValidateRequest | server.go:165-173 | a request is accepted iff its version is "2.0" and its method is non-empty; every rejection is the invalid-request sentinel |
| Protocol.ToRpcError | server.go:184-191 | an error with a code keeps its code and message; any other error becomes code -32000 with its own message |
| Protocol.MakeResponse | server.go:175-195 | no response iff the request is valid and has no id, whatever the result or error; otherwise version "2.0", the request id verbatim, the given result even beside an error, and an error object exactly when an error was given |
| Server.NewServer | server.go:33-38 | a new server has no methods and no timeout |
| Server.SetDefaultTimeout | server.go:65-67 | only the timeout changes; the handler table is kept |
| Server.DefineMethod | server.go:69-71 | the name maps to the new handler; every other name and the timeout are unchanged |
| Server.DefineMethodOverwrites | server.go:69-71 | a second registration under the same name replaces the first |
| Server.DefineMethodCommutes | server.go:69-71 | registrations under different names can be made in either order |
| Server.ContextFor | server.go:97-102 | the handler gets a context with a deadline iff the default timeout is positive |
| Server.HandleAsync | server.go:134-163 | without a deadline, the handler's own outcome; with one, the handler's outcome if it signals first, otherwise no result and DeadlineExceeded |
| Server.ServeSingleRequest | server.go:85-105 | undecodable gives -32700 with a null id; invalid gives -32600 with the decoded id; an unknown method gives -32601 with the request id, unless the request is a notification; the answer is absent iff the payload decodes to a notification; every answer has version "2.0" and echoes the decoded id |
| Server.BatchReply | server.go:107-131 | absent iff every element's answer is absent; otherwise between 1 and one-per-element responses |
| Server.ServeAll | server.go:108-117 | slot i holds the single-call answer of element i, one slot per element |
| Server.CollectResponses | server.go:119-125 | the loop keeps exactly the non-nil slots in index order; it keeps none iff every slot is nil |
| Server.ServeBatchRequest | server.go:107-131 | the result equals the reference BatchReply: absent iff every element's answer is absent, otherwise the present answers in order, at most one per element |
| Server.ServeRequest | server.go:74-83 | an empty array or null gives one non-array -32600 response with a null id; a non-empty array gives a batch that is absent iff all elements are absent and never empty; anything else is the single-call answer |
| Gather.Present | server.go:119-125 | the collected values are no more than the slots, and none are collected iff every slot is nil |
| Gather.PresentSelects | server.go:119-125 | the collected values are the non-nil slots, each exactly once, at strictly increasing positions, with none missed |
| Gather.PresentMembership | server.go:119-125 | a value is collected iff some slot holds it |
| Codec.WireId | server.go:58 | the `id` member is the request's raw id verbatim, and `null` when the id is nil |
| Codec.EncodeError | error.go:42-45 | an error object carries "code" and "message" |
| Codec.EncodeResponse | server.go:57-62 | the object always has "id", which is null for a nil id, and "jsonrpc"; "result" appears iff there is a result, and "error" iff there is an error, holding that error's object; no other member appears |
| Codec.EncodeReply | server.go:126-130 | absent stays absent (distinct from any output); a single response becomes its response object; a batch becomes an array holding the response objects of its responses, one per response, in order |
| Codec.ErrorRoundTrip | error.go:42-45 | decoding an encoded error object gives the error back |
| Codec.ResponseRoundTrip | server.go:57-62 | decoding an encoded response gives it back, with a nil id read back as an explicit null |
| Properties.NoTimeoutUsesHandlerOutcome | server.go:97-104 | with timeout 0 or less the race is irrelevant, and a dispatched call answers with the handler's own result and error |
| Properties.TimeoutOutcomes | server.go:134-163 | with a positive timeout, a dispatched call answers with the handler's outcome or with -32000 "context deadline exceeded", and either can happen |
| Properties.BatchPreservesOrder | server.go:119-125 | a batch answer is the present element answers in input order, each once, none dropped |
| Properties.BatchIsolation | server.go:110-125 | every element with an answer contributes it to the batch, whatever its siblings are |
| Properties.BatchElementParseError | server.go:85-89 | an undecodable element yields a parse error inside an otherwise normal batch |
| Properties.NotificationsAreSilent | server.go:176-179 | a notification gets no answer, even for an unknown method or a failing handler |
| Properties.AllNotificationBatchIsSilent | server.go:126-128 | a batch of notifications gets no answer, never an empty array |
| Properties.EchoScenario | server_test.go:18-33 | an echo call with an integer or a string id is answered with that id and the echoed params |
| Properties.MissingMethodScenario | server_test.go:38-45 | an unregistered method is answered with -32601 "Method not found" and id 1 |
| Properties.MixedBatchScenario | server_test.go:92-128 | on the batch tests' server with its 5 ms timeout, when the echo beats its deadline, a batch of a number, a versionless request and a good call answers -32700, -32600 and the echo, in order |
| Properties.TimedBatchScenario | server_test.go:129-143 | on the same server, a wait that loses its race and one that wins answer -32000 "context deadline exceeded" and "ok", in input order |

## Left out

- The goroutines, `sync.WaitGroup` and the `done` channel are concurrency plumbing. Each batch
  goroutine writes only its own slot, so the batch is modelled as a sequential loop. The handler/timer
  race is a `Race` parameter.
- Server.HandleAsync: the race is modelled as two clean outcomes. The model omits the unsynchronised
  writes to `resp`/`err` by the two goroutines, which can combine a handler result with
  DeadlineExceeded. It also omits the losing handler goroutine, which keeps running and then blocks on
  `done` forever.
- Server.HandleAsync: on a timed call that the handler wins, the timer goroutine still writes `err` and
  then blocks on `done` forever (server.go:150-151). That leaked goroutine is not modelled either.
- Properties.BatchIsolation: handlers are assumed to return; `Handler` is a total function, so the
  model answers every call. In the code, a handler that never returns blocks `ServeRequest` when there
  is no timeout (server.go:138). Inside a batch it also blocks `wg.Wait()` (server.go:117), so no
  sibling is answered either. With a positive timeout such a handler can only lose the race, while the
  model's `Schedule` still offers `HandlerFirst` for it.
- Handler panics are not modelled: `Handler` is a total function. Nothing in server.go recovers a panic.
  In an untimed single call, a panicking handler unwinds out of `ServeRequest` (server.go:103, 138).
  In a batch goroutine (server.go:112-115), or in the handler goroutine of a timed call
  (server.go:155-158), it ends the whole process. So Properties.BatchIsolation holds for elements that
  are malformed or whose handler returns an error, not for a handler that panics.
- `encoding/json` is a foreign library. Decoding is abstracted into the `Payload` classification
  (case-insensitive member names, duplicate members and numeric formats are not modelled). Encoding
  is the `Codec` layout.
- Codec.EncodeReply: the errors `json.Marshal` returns are swallowed (server.go:129, 193), and the
  model does not cover them. Results are assumed to be encodable. In the code, a result that cannot be
  marshalled turns the response into nil, which would then be dropped from a batch.
- Clocks, `context.WithTimeout` and `time.Duration` arithmetic are abstracted. Only the sign of the
  timeout matters: a positive timeout gives the handler a context with a deadline.
- JSON numbers are integers in `Json`; floating-point values in ids and params are not modelled.
- Handler bodies, such as echo, wait and add, are opaque functions. The echo of the tests appears
  only in the scenarios.
- `main/main.go` is a stdin/stdout demo loop and is not part of this model.
