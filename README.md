# Keploy Go SDK adapters: SQL Ping interception and the WebGo v6 middleware

This project models two adapters of the Keploy Go SDK, which records the inbound
requests of a service together with the calls it makes to its dependencies, and
later replays a recorded request with the recorded dependency answers.

- **The SQL driver shim** (`Ksql`, `ksql.dfy`). `Driver.Open` wraps every
  connection of the real driver. `Begin`, `Close`, `Prepare` and `OpenConnector`
  forward to that connection. `Conn.Ping` dispatches on the request's mode:
  - `off`: the real ping runs;
  - no ambient keploy state: GetState's error is returned;
  - `"test"` (replay): the real ping is suppressed;
  - `"capture"`: the real ping runs once;
  - anything else: the call is rejected.

  In test and capture mode the outcome goes to `keploy.ProcessDep` as a fixed
  metadata map plus a `KError`. When ProcessDep answers "mocked", Ping returns the
  error held in the first result.
- **The WebGo v6 middleware** (`Kwebgo`, `kwebgo.dfy`). `WebGoV6` registers the
  middleware unless the process-wide mode is off. For each request, the
  `KEPLOY_TEST_ID` header picks the mode:
  - header with a non-empty value: a `"test"` context carrying the test id and
    its recorded dependencies;
  - header empty or absent: a `"capture"` context. The body is read once and a
    fresh copy is given back to the handler.

  The handler writes through a tee. The tee sends every chunk to the real writer
  and copies into a buffer every chunk the real writer took in full. Its status
  starts at 200. The resulting snapshot goes to `PutResp` (test mode) or to
  `CaptureTestcase` (capture mode).

The keploy package itself is not part of this model. This covers ProcessDep,
GetState, GetModeFromContext, GetDependencies, PutResp, CaptureTestcase and the
internals of BodyDumpResponseWriter. The same holds for the real SQL driver, net/http and
the webgo router. Each enters the model in one of two ways:

- **As a parameter.** A `PingEnv` holds the answers of the collaborators one Ping
  consults, with ProcessDep as a function of the metadata and `KError` it is
  given. An `Instance` gives what GetDependencies answers. A `Handler` gives what
  a handler does to its writer for each request it receives.
- **As a recorded call.** `Ping` and the middleware return, as an ordinary result,
  the ordered trace of collaborator calls they make (`Ksql.Event`, `Kwebgo.Call`).

The contracts are therefore statements about the adapters' own logic:

- which collaborators they call, how many times and in what order;
- what arguments those calls receive;
- what the adapters return.

The mutable parts of `captureRespWebGo` are a class, `TeeWriter`:

- the `resBody` buffer that `io.MultiWriter` grows;
- the `Status` field of `BodyDumpResponseWriter`;
- the header map shared with the real writer;
- the chunks handed to the real writer.

`CaptureResp` runs the handler's actions through a fresh tee in a loop. It is
proved against the functions `Accepted`, `Chunks`, `FinalStatus` and
`FinalHeader`, and the lemmas beside them state what the snapshot holds.

Two constants come from the keploy package, which is outside this model. The
model takes `keploy.MODE_OFF` to be `"off"` and `models.SqlDB` to be `"SQL_DB"`. The
dispatch depends only on their being distinct from `"test"` and `"capture"`.

Some behaviour of the code is worth stating outright:

- If reading the request body fails in capture mode, the middleware logs and
  returns without running the handler, so the caller gets no response from it.
- In test mode the request body is neither buffered nor reset; only capture
  mode does that.
- The off-mode check in Ping asks GetModeFromContext(ctx) rather than the
  keploy.Context that GetState returns, so a missing context is reported only
  once the mode is not off.
- The error for a connection that is not a `driver.Pinger` names the
  `ConnBeginTx` interface; the model keeps that message as written.

## Model

| member | source | states |
|---|---|---|
| `Ksql.Open` | integrations/ksql/driver.go:25-40 | a failing wrapped Open yields exactly its error and no connection; a succeeding one yields a shim around the very connection it opened |
| `Ksql.OpenedConnForwards` | integrations/ksql/driver.go:48-58 | on a connection opened through the shim, Begin, Close and Prepare give what the wrapped connection gives, unchanged |
| `Ksql.OpenConnector` | integrations/ksql/driver.go:60-66 | a wrapped connection that is not a DriverContext gives the "not implements DriverContext" error; one that is gives its own OpenConnector answer for the name |
| `Ksql.MockedError` | integrations/ksql/driver.go:104-111 | a mocked Ping returns the `Err` of the first result (nil included) exactly when that result is a non-nil `*KError`; an empty result, another type or a nil pointer panics |
| `Ksql.Ping` | integrations/ksql/driver.go:69-113 | not a Pinger: the error, and no collaborator is consulted; off: exactly the real ping's result, with no GetState and no ProcessDep; GetState failing: its error, with no real ping; an invalid mode: the "Not in a valid sdk mode" error, with no ping and no ProcessDep; test: no real ping, and ProcessDep gets an empty KError; capture: the real ping runs exactly once, and ProcessDep gets its error. ProcessDep is called at most once, last, always with meta {name: SQL, type: SqlDB, operation: Ping}. When mocked, the result is MockedError of the results; otherwise it is the real error (nil in test mode) unchanged |
| `Kwebgo.TeeWriter.constructor` | integrations/kwebgo/v6/webgo-v6.go:29-36 | a new tee has an empty buffer, status http.StatusOK, the real writer's header map, and nothing sent yet |
| `Kwebgo.TeeWriter.Apply` | integrations/kwebgo/v6/webgo-v6.go:30-36 | a write hands the chunk to the real writer and appends it to the buffer only if the real writer took all of it; a status change replaces Status; a header change updates the shared map; nothing else changes |
| `Kwebgo.CaptureResp` | integrations/kwebgo/v6/webgo-v6.go:28-46 | the handler is invoked exactly once, on the tee and the given request; the snapshot's status is the last one set, or 200 when none is; its header is the final header map; its body is every accepted chunk in order, which is all chunks concatenated when the real writer accepts all of them and never longer than what was sent; the real writer gets every chunk in order |
| `Kwebgo.AcceptedAppend` | integrations/kwebgo/v6/webgo-v6.go:29-30 | the buffer grows only by appending: the bytes of a later sequence of writes follow those of an earlier one |
| `Kwebgo.ChunksAppend` | integrations/kwebgo/v6/webgo-v6.go:30 | the real writer receives the chunks of a later sequence of writes after those of an earlier one |
| `Kwebgo.AllAcceptedIsConcatenation` | integrations/kwebgo/v6/webgo-v6.go:29-30 | when the real writer accepts every chunk, the buffered body equals the concatenation of all chunks written through the tee |
| `Kwebgo.AcceptedBounded` | integrations/kwebgo/v6/webgo-v6.go:29-30 | the buffered body is never longer than the bytes handed to the real writer |
| `Kwebgo.StatusDefaultsToOK` | integrations/kwebgo/v6/webgo-v6.go:34 | a handler that never causes a status change yields a snapshot with status 200 |
| `Kwebgo.StatusLastWins` | integrations/kwebgo/v6/webgo-v6.go:42 | the snapshot status is the last status set, whatever follows it that sets none |
| `Kwebgo.Serve` | integrations/kwebgo/v6/webgo-v6.go:48-94 | pass-through middleware: next is called once with the original writer and request, and nothing else happens; otherwise the test-id header decides between the test trace and the capture trace of Replay and Capture; in every case the handler runs at most once, PutResp or CaptureTestcase comes last and right after it, PutResp comes only under a non-empty test-id header and CaptureTestcase only without one; every context the recording middleware builds for the handler has a test id exactly in test mode |
| `Kwebgo.Replay` | integrations/kwebgo/v6/webgo-v6.go:55-69 | with a non-empty test id: GetDependencies(id), then the handler on the tee with context {Mode "test", TestID id, Deps GetDependencies(id)}, then PutResp(id, snapshot); CaptureTestcase is never called |
| `Kwebgo.Capture` | integrations/kwebgo/v6/webgo-v6.go:71-93 | without a test id: the context is {Mode "capture", no TestID}. A failing body read is logged and ends the request, with no handler and no test case. Otherwise the body is read once (not at all when nil), and the handler gets a fresh reader over exactly those bytes (empty for a nil body). CaptureTestcase then comes once, after the handler, with that request as handed to the handler, the same bytes, the snapshot and the route parameters; the instance `k` that PutResp and CaptureTestcase are called on is the one the recording middleware holds and is not repeated in the trace |
| `Kwebgo.Router.Use` | integrations/kwebgo/v6/webgo-v6.go:25 | registering appends the middleware to the router's chain and changes nothing else |
| `Kwebgo.Mw` | integrations/kwebgo/v6/webgo-v6.go:48-54 | a nil instance gives the pass-through middleware and only a nil one does; a non-nil instance gives the recording middleware for that very instance |
| `Kwebgo.WebGoV6` | integrations/kwebgo/v6/webgo-v6.go:21-26 | when the process-wide mode is off the router is left unchanged; otherwise exactly one keploy middleware for the instance is appended |

## Left out

- The keploy package is outside the model: ProcessDep, GetState, GetModeFromContext, GetDependencies, PutResp, CaptureTestcase and BodyDumpResponseWriter's WriteHeader and Write. Their answers are parameters and their calls are recorded. Positional replay of dependency records is therefore not modelled.
- `Kwebgo.TeeWriter.Apply`: a handler's status change is modelled as its effect on `Status`. How BodyDumpResponseWriter's WriteHeader forwards it to the real writer is internal to the keploy package.
- `Kwebgo.CaptureResp`: the snapshot header is the real writer's header map, on the assumption that BodyDumpResponseWriter does not override `Header()`.
- The real SQL driver, net/http, the webgo router and `context.WithValue` are foreign libraries. A wrapped connection is the record of its methods' answers and of the optional interfaces it implements. A request is a record of its header, its keploy context, its body and its route parameters.
- `Kwebgo.Capture`: the request is a value, so changes the handler makes to the shared `*http.Request` (a drained body, header edits), and whatever the keploy package records into the shared `*keploy.Context` during the handler (its dependency records), are not modelled, so the empty deps of the capture context say nothing about the recorded test case; in Go CaptureTestcase sees the request as the handler left it, while the model passes it as it was handed to the handler.
- `http.Header.Get` canonicalises the key. The model looks the key up as written.
- A short write from MultiWriter is modelled as the chunk not reaching the buffer. How much of it reached the real writer is not tracked.
- The zap logger that Open creates, and its `Sync`, are logging side effects only. The log line on a failed body read is recorded as a call.
- Per-request concurrency is left out, and so are the Mongo, gRPC and HTTP-client adapters that the usage examples mention, which are outside this model.
- integrations/doc_test.go holds usage examples that need live servers. They have no logic of their own.
