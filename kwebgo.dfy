/**
 * The WebGo v6 middleware (integrations/kwebgo/v6/webgo-v6.go): it decides from
 * the KEPLOY_TEST_ID header whether a request is replayed ("test") or recorded
 * ("capture"), tees the handler's response into a buffer, and hands the snapshot
 * to keploy.PutResp or keploy.CaptureTestcase.
 */
module Kwebgo {
  import opened Base
  import opened Keploy

  const TestIdHeader: string := "KEPLOY_TEST_ID"
  const StatusOK: int := 200
  const ReadBodyFailed: string := "Unable to read request body"

  /** http.Header: each name maps to its values. */
  type Header = map<string, seq<string>>

  /** Header.Get: the first value under `key`, or "" when there is none. */
  function HeaderGet(h: Header, key: string): (v: string)
  {
    if key in h && |h[key]| > 0 then h[key][0] else ""
  }

  /** A request body, given by what reading it to the end yields: the bytes read, then an error or EOF. */
  datatype Body = Body(content: seq<byte>, readError: Option<Error>)

  /**
   * An http.Request as the middleware sees it: its header, the keploy.Context its
   * context carries under keploy.KCTX (if any), its body (None is a nil Body) and
   * the route parameters webgo associates with it.
   */
  datatype Request = Request(header: Header, kctx: Option<Context>, body: Option<Body>, params: map<string, string>)

  /** models.HttpResp: the response snapshot. */
  datatype HttpResp = HttpResp(statusCode: int, header: Header, body: seq<byte>)

  /** The original http.ResponseWriter, through the header map its Header() returns. */
  datatype ResponseWriter = ResponseWriter(header: Header)

  /**
   * One thing a handler does to the writer it is given: write a chunk (with whether
   * the real transport accepted all of it), cause the BodyDumpResponseWriter's Status
   * to be set, or set or delete a header entry.
   */
  datatype Action =
    | Write(chunk: seq<byte>, accepted: bool)
    | StatusSet(code: int)
    | HeaderSet(key: string, values: seq<string>)
    | HeaderDel(key: string)

  /** A downstream handler, given by what it does for each request it receives. */
  datatype Handler = Handler(run: Request -> seq<Action>)

  /** Which writer the handler is given: the caller's own, or the tee. */
  datatype WriterKind = Original | Tee

  /** A call the middleware makes to a collaborator, in order. */
  datatype Call =
    | GetDependencies(id: string)
    | ReadBody
    | LogError(msg: string, err: Error)
    | Next(request: Request, writer: WriterKind)
    | PutResp(id: string, resp: HttpResp)
    | CaptureTestcase(request: Request, reqBody: seq<byte>, resp: HttpResp, params: map<string, string>)

  /** A keploy.Keploy instance, through what its GetDependencies answers. */
  datatype Instance = Instance(dependencies: string -> seq<Dependency>)

  /** The middleware mw(k) builds: a plain pass-through for a nil instance, else the recording one. */
  datatype Middleware = PassThrough | Recording(k: Instance)

  // ---------------------------------------------------------------------------
  // What the tee records, as functions of the handler's actions

  /** The bytes the tee's buffer receives from one action. */
  function AcceptedBytes(a: Action): (bytes: seq<byte>)
  {
    if a.Write? && a.accepted then a.chunk else []
  }

  /** The bytes the buffer holds after `acts`, in write order. */
  function Accepted(acts: seq<Action>): (bytes: seq<byte>)
  {
    if acts == [] then [] else Accepted(acts[..|acts| - 1]) + AcceptedBytes(acts[|acts| - 1])
  }

  /** The chunks handed to the real writer, in order. */
  function Chunks(acts: seq<Action>): (chunks: seq<seq<byte>>)
  {
    if acts == [] then []
    else Chunks(acts[..|acts| - 1]) + (if acts[|acts| - 1].Write? then [acts[|acts| - 1].chunk] else [])
  }

  function Flatten(chunks: seq<seq<byte>>): (bytes: seq<byte>)
  {
    if chunks == [] then [] else Flatten(chunks[..|chunks| - 1]) + chunks[|chunks| - 1]
  }

  /** The status after `acts`, starting from `initial`: the last one set wins. */
  function FinalStatus(acts: seq<Action>, initial: int): (status: int)
  {
    if acts == [] then initial
    else if acts[|acts| - 1].StatusSet? then acts[|acts| - 1].code
    else FinalStatus(acts[..|acts| - 1], initial)
  }

  function ApplyHeader(h: Header, a: Action): (h': Header)
  {
    match a
    case HeaderSet(key, values) => h[key := values]
    case HeaderDel(key) => h - {key}
    case _ => h
  }

  /** The header map after `acts`, starting from `h`. */
  function FinalHeader(h: Header, acts: seq<Action>): (h': Header)
  {
    if acts == [] then h else ApplyHeader(FinalHeader(h, acts[..|acts| - 1]), acts[|acts| - 1])
  }

  /** The snapshot captureRespWebGo returns for a handler that performs `acts`. */
  function Snapshot(h: Header, acts: seq<Action>): (resp: HttpResp)
  {
    HttpResp(FinalStatus(acts, StatusOK), FinalHeader(h, acts), Accepted(acts))
  }

  predicate AllAccepted(acts: seq<Action>)
  {
    forall i | 0 <= i < |acts| && acts[i].Write? :: acts[i].accepted
  }

  predicate NoStatusSet(acts: seq<Action>)
  {
    forall i | 0 <= i < |acts| :: !acts[i].StatusSet?
  }

  lemma {:induction false} FlattenAppend(a: seq<seq<byte>>, b: seq<seq<byte>>)
    ensures Flatten(a + b) == Flatten(a) + Flatten(b)
    decreases |b|
  {
    if b == [] {
      assert a + b == a;
    } else {
      var b' := b[..|b| - 1];
      assert (a + b)[..|a + b| - 1] == a + b';
      FlattenAppend(a, b');
    }
  }

  /** The buffer grows by appending: the bytes of later writes follow those of earlier ones. */
  lemma {:induction false} AcceptedAppend(a: seq<Action>, b: seq<Action>)
    ensures Accepted(a + b) == Accepted(a) + Accepted(b)
    decreases |b|
  {
    if b == [] {
      assert a + b == a;
    } else {
      var b' := b[..|b| - 1];
      assert (a + b)[..|a + b| - 1] == a + b';
      assert (a + b)[|a + b| - 1] == b[|b| - 1];
      AcceptedAppend(a, b');
      assert Accepted(a + b) == Accepted(a + b') + AcceptedBytes(b[|b| - 1]);
    }
  }

  /** The real writer receives the chunks of later writes after those of earlier ones. */
  lemma {:induction false} ChunksAppend(a: seq<Action>, b: seq<Action>)
    ensures Chunks(a + b) == Chunks(a) + Chunks(b)
    decreases |b|
  {
    if b == [] {
      assert a + b == a;
    } else {
      var b' := b[..|b| - 1];
      assert (a + b)[..|a + b| - 1] == a + b';
      assert (a + b)[|a + b| - 1] == b[|b| - 1];
      ChunksAppend(a, b');
    }
  }

  /** When the real transport accepts every chunk, the buffer is the concatenation of all of them. */
  lemma {:induction false} AllAcceptedIsConcatenation(acts: seq<Action>)
    requires AllAccepted(acts)
    ensures Accepted(acts) == Flatten(Chunks(acts))
  {
    if acts != [] {
      var p := acts[..|acts| - 1];
      assert AllAccepted(p) by {
        forall i | 0 <= i < |p| && p[i].Write? ensures p[i].accepted {
          assert p[i] == acts[i];
        }
      }
      AllAcceptedIsConcatenation(p);
      var tail := if acts[|acts| - 1].Write? then [acts[|acts| - 1].chunk] else [];
      FlattenAppend(Chunks(p), tail);
      assert tail != [] ==> tail[..0] == [];
    }
  }

  /** The buffer never holds more than was handed to the real writer. */
  lemma {:induction false} AcceptedBounded(acts: seq<Action>)
    ensures |Accepted(acts)| <= |Flatten(Chunks(acts))|
  {
    if acts != [] {
      var p := acts[..|acts| - 1];
      AcceptedBounded(p);
      var tail := if acts[|acts| - 1].Write? then [acts[|acts| - 1].chunk] else [];
      FlattenAppend(Chunks(p), tail);
      assert tail != [] ==> tail[..0] == [];
    }
  }

  /** A handler that never sets a status leaves the snapshot at http.StatusOK. */
  lemma {:induction false} StatusDefaultsToOK(h: Header, acts: seq<Action>)
    requires NoStatusSet(acts)
    ensures Snapshot(h, acts).statusCode == StatusOK
  {
    if acts != [] {
      var p := acts[..|acts| - 1];
      assert NoStatusSet(p) by {
        forall i | 0 <= i < |p| ensures !p[i].StatusSet? {
          assert p[i] == acts[i];
        }
      }
      StatusDefaultsToOK(h, p);
    }
  }

  /** The status in the snapshot is the last one set. */
  lemma {:induction false} StatusLastWins(a: seq<Action>, code: int, b: seq<Action>, initial: int)
    requires NoStatusSet(b)
    ensures FinalStatus(a + [StatusSet(code)] + b, initial) == code
    decreases |b|
  {
    var s := a + [StatusSet(code)] + b;
    if b == [] {
      assert s[|s| - 1] == StatusSet(code);
    } else {
      var b' := b[..|b| - 1];
      assert s[..|s| - 1] == a + [StatusSet(code)] + b';
      assert s[|s| - 1] == b[|b| - 1];
      assert NoStatusSet(b') by {
        forall i | 0 <= i < |b'| ensures !b'[i].StatusSet? {
          assert b'[i] == b[i];
        }
      }
      StatusLastWins(a, code, b', initial);
    }
  }

  // ---------------------------------------------------------------------------
  // The tee and captureRespWebGo

  /**
   * The writer captureRespWebGo gives the handler: a keploy.BodyDumpResponseWriter
   * whose Writer is io.MultiWriter(w, resBody). `sent` holds the chunks handed to
   * the real writer w; `header` is w's own header map.
   */
  class TeeWriter {
    var resBody: seq<byte>
    var status: int
    var header: Header
    var sent: seq<seq<byte>>

    constructor (h: Header)
      ensures resBody == [] && status == StatusOK && header == h && sent == []
    {
      resBody := [];
      status := StatusOK;
      header := h;
      sent := [];
    }

    /**
     * One handler action through the tee. MultiWriter hands a chunk to w first and
     * to resBody only if w took all of it without error.
     */
    method Apply(a: Action)
      modifies this
      ensures resBody == old(resBody) + AcceptedBytes(a)
      ensures sent == old(sent) + (if a.Write? then [a.chunk] else [])
      ensures status == (if a.StatusSet? then a.code else old(status))
      ensures header == ApplyHeader(old(header), a)
    {
      match a
      case Write(chunk, accepted) =>
        sent := sent + [chunk];
        if accepted {
          resBody := resBody + chunk;
        }
      case StatusSet(code) =>
        status := code;
      case HeaderSet(key, values) =>
        header := header[key := values];
      case HeaderDel(key) =>
        header := header - {key};
    }
  }

  /**
   * captureRespWebGo: runs the handler once on a fresh tee and returns the
   * snapshot, together with the chunks the real writer was handed.
   */
  method CaptureResp(w: ResponseWriter, r: Request, next: Handler)
    returns (resp: HttpResp, sent: seq<seq<byte>>, calls: seq<Call>)
    ensures calls == [Next(r, Tee)]
    ensures resp == Snapshot(w.header, next.run(r))
    ensures sent == Chunks(next.run(r))
    ensures NoStatusSet(next.run(r)) ==> resp.statusCode == StatusOK
    ensures AllAccepted(next.run(r)) ==> resp.body == Flatten(sent)
    ensures |resp.body| <= |Flatten(sent)|
  {
    var writer := new TeeWriter(w.header);
    calls := [Next(r, Tee)];
    var acts := next.run(r);
    var i := 0;
    while i < |acts|
      invariant 0 <= i <= |acts|
      invariant writer.resBody == Accepted(acts[..i])
      invariant writer.sent == Chunks(acts[..i])
      invariant writer.status == FinalStatus(acts[..i], StatusOK)
      invariant writer.header == FinalHeader(w.header, acts[..i])
    {
      assert acts[..i + 1] == acts[..i] + [acts[i]];
      assert [acts[i]][..0] == [];
      AcceptedAppend(acts[..i], [acts[i]]);
      ChunksAppend(acts[..i], [acts[i]]);
      assert acts[..i + 1][..i] == acts[..i];
      writer.Apply(acts[i]);
      i := i + 1;
    }
    assert acts[..i] == acts;
    resp := HttpResp(writer.status, writer.header, writer.resBody);
    sent := writer.sent;
    if NoStatusSet(acts) {
      StatusDefaultsToOK(w.header, acts);
    }
    if AllAccepted(acts) {
      AllAcceptedIsConcatenation(acts);
    }
    AcceptedBounded(acts);
  }

  // ---------------------------------------------------------------------------
  // mw and WebGoV6

  /** The request the handler gets in test mode. */
  function TestRequest(r: Request, id: string, deps: seq<Dependency>): (rt: Request)
  {
    r.(kctx := Some(Context(ModeTest, id, deps)))
  }

  /** The bytes capture mode buffers: all of the body, or none for a nil body. */
  function BodyBytes(r: Request): (bytes: seq<byte>)
  {
    if r.body.Some? then r.body.value.content else []
  }

  /** The request the handler gets in capture mode: a capture context and a fresh reader over the bytes read. */
  function CaptureRequest(r: Request): (rc: Request)
  {
    r.(kctx := Some(Context(ModeCapture, "", [])), body := Some(Body(BodyBytes(r), None)))
  }

  /** The handler is invoked at most once. */
  predicate HandlerAtMostOnce(calls: seq<Call>)
  {
    forall i, j | 0 <= i < |calls| && 0 <= j < |calls| && calls[i].Next? && calls[j].Next? :: i == j
  }

  /**
   * PutResp and CaptureTestcase come last, right after the handler ran on the tee;
   * CaptureTestcase gets the request that was handed to the handler (as it stood
   * when handed over) and the bytes read before, which are exactly the bytes of the
   * fresh body reader the handler was given.
   */
  predicate RecordedAfterHandler(calls: seq<Call>)
  {
    forall i | 0 <= i < |calls| && (calls[i].PutResp? || calls[i].CaptureTestcase?) ::
      i == |calls| - 1 && i >= 1 && calls[i - 1].Next? && calls[i - 1].writer == Tee &&
      (calls[i].CaptureTestcase? ==>
        calls[i].request == calls[i - 1].request &&
        calls[i - 1].request.body == Some(Body(calls[i].reqBody, None)))
  }

  /**
   * What every trace of the middleware keeps, whatever the mode: the handler runs at
   * most once, the recording calls come right after it, every context the recording
   * middleware builds keeps the test-id invariant, and PutResp happens only under the
   * test-id header while CaptureTestcase happens only without it.
   */
  predicate WellOrdered(m: Middleware, r: Request, calls: seq<Call>)
  {
    HandlerAtMostOnce(calls) &&
    RecordedAfterHandler(calls) &&
    (forall i | 0 <= i < |calls| && calls[i].Next? ::
      m.Recording? ==> calls[i].request.kctx.Some? && WellFormed(calls[i].request.kctx.value)) &&
    (forall i | 0 <= i < |calls| && calls[i].PutResp? :: HeaderGet(r.header, TestIdHeader) == calls[i].id != "") &&
    (forall i | 0 <= i < |calls| && calls[i].CaptureTestcase? :: HeaderGet(r.header, TestIdHeader) == "")
  }

  /** The function mw(k) returns, applied to one request. */
  method Serve(m: Middleware, w: ResponseWriter, r: Request, next: Handler) returns (calls: seq<Call>)
    // nil instance: next(w, r) and nothing else
    ensures m.PassThrough? ==> calls == [Next(r, Original)]
    // test-id header present: a test context, then PutResp with the snapshot
    ensures m.Recording? && HeaderGet(r.header, TestIdHeader) != "" ==>
      var id := HeaderGet(r.header, TestIdHeader);
      var rt := TestRequest(r, id, m.k.dependencies(id));
      calls == [GetDependencies(id), Next(rt, Tee), PutResp(id, Snapshot(w.header, next.run(rt)))]
    // capture, body unreadable: logged, no handler, no test case
    ensures m.Recording? && HeaderGet(r.header, TestIdHeader) == "" && r.body.Some? && r.body.value.readError.Some? ==>
      calls == [ReadBody, LogError(ReadBodyFailed, r.body.value.readError.value)]
    // capture: body read once, handler on a fresh copy, then CaptureTestcase
    ensures m.Recording? && HeaderGet(r.header, TestIdHeader) == "" && !(r.body.Some? && r.body.value.readError.Some?) ==>
      var rc := CaptureRequest(r);
      calls == (if r.body.Some? then [ReadBody] else []) +
               [Next(rc, Tee), CaptureTestcase(rc, BodyBytes(r), Snapshot(w.header, next.run(rc)), r.params)]
    ensures WellOrdered(m, r, calls)
  {
    if m.PassThrough? {
      calls := [Next(r, Original)];
      assert WellOrdered(m, r, calls);
      return;
    }
    var id := HeaderGet(r.header, TestIdHeader);
    if id != "" {
      calls := Replay(m, w, r, next, id);
    } else {
      calls := Capture(m, w, r, next);
    }
  }

  /** mw's branch for a request that carries a test id. */
  method Replay(m: Middleware, w: ResponseWriter, r: Request, next: Handler, id: string) returns (calls: seq<Call>)
    requires m.Recording? && id == HeaderGet(r.header, TestIdHeader) && id != ""
    ensures
      var rt := TestRequest(r, id, m.k.dependencies(id));
      calls == [GetDependencies(id), Next(rt, Tee), PutResp(id, Snapshot(w.header, next.run(rt)))]
    ensures WellOrdered(m, r, calls)
  {
    var k := m.k;
    var r := r;
    calls := [GetDependencies(id)];
    var ctx := Context(ModeTest, id, k.dependencies(id));
    r := r.(kctx := Some(ctx));
    var resp, _, handled := CaptureResp(w, r, next);
    calls := calls + handled + [PutResp(id, resp)];
    assert calls == [GetDependencies(id), Next(r, Tee), PutResp(id, resp)];
  }

  /** mw's branch for a request without a test id. */
  method Capture(m: Middleware, w: ResponseWriter, r: Request, next: Handler) returns (calls: seq<Call>)
    requires m.Recording? && HeaderGet(r.header, TestIdHeader) == ""
    ensures r.body.Some? && r.body.value.readError.Some? ==>
      calls == [ReadBody, LogError(ReadBodyFailed, r.body.value.readError.value)]
    ensures !(r.body.Some? && r.body.value.readError.Some?) ==>
      var rc := CaptureRequest(r);
      calls == (if r.body.Some? then [ReadBody] else []) +
               [Next(rc, Tee), CaptureTestcase(rc, BodyBytes(r), Snapshot(w.header, next.run(rc)), r.params)]
    ensures WellOrdered(m, r, calls)
  {
    var r0 := r;
    var r := r.(kctx := Some(Context(ModeCapture, "", [])));
    calls := [];
    var reqBody: seq<byte> := [];
    if r.body.Some? {
      calls := calls + [ReadBody];
      reqBody := r.body.value.content;
      if r.body.value.readError.Some? {
        calls := calls + [LogError(ReadBodyFailed, r.body.value.readError.value)];
        return;
      }
    }
    r := r.(body := Some(Body(reqBody, None)));
    assert r == CaptureRequest(r0);
    var resp, _, handled := CaptureResp(w, r, next);
    ghost var read := calls;
    calls := calls + handled + [CaptureTestcase(r, reqBody, resp, r.params)];
    assert calls == read + [Next(r, Tee), CaptureTestcase(r, reqBody, resp, r.params)];
  }

  /** A webgo router, through the middleware it has registered. */
  class Router {
    var middlewares: seq<Middleware>

    constructor ()
      ensures middlewares == []
    {
      middlewares := [];
    }

    /** Router.Use: appends a middleware. */
    method Use(m: Middleware)
      modifies this
      ensures middlewares == old(middlewares) + [m]
    {
      middlewares := middlewares + [m];
    }
  }

  /** mw: the middleware for a keploy instance; a nil instance gives a pass-through. */
  function Mw(k: Option<Instance>): (m: Middleware)
    ensures m.PassThrough? <==> k.None?
    ensures k.Some? ==> m.Recording? && m.k == k.value
  {
    if k.None? then PassThrough else Recording(k.value)
  }

  /** WebGoV6: registers the middleware unless the process-wide mode is off. */
  method WebGoV6(globalMode: string, k: Option<Instance>, router: Router)
    modifies router
    ensures globalMode == ModeOff ==> router.middlewares == old(router.middlewares)
    ensures globalMode != ModeOff ==> router.middlewares == old(router.middlewares) + [Mw(k)]
  {
    if globalMode == ModeOff {
      return;
    }
    router.Use(Mw(k));
  }
}
