/**
 * The SQL driver shim (integrations/ksql/driver.go): a driver whose connections
 * forward every method to the wrapped connection, except Ping, which is routed
 * through keploy's dependency protocol according to the request's mode.
 */
module Ksql {
  import opened Base
  import opened Keploy

  /** Handles the wrapped driver hands out; their contents are opaque here. */
  datatype Tx = Tx(id: nat)
  datatype Stmt = Stmt(id: nat)
  datatype Connector = Connector(id: nat)

  /**
   * A connection of the wrapped driver, given by what its methods answer and by
   * the optional interfaces it implements: it is a driver.Pinger when `isPinger`
   * holds, and a driver.DriverContext when `openConnector` is present.
   */
  datatype DriverConn = DriverConn(
    begin: Result<Tx, Error>,
    close: Option<Error>,
    prepare: string -> Result<Stmt, Error>,
    isPinger: bool,
    openConnector: Option<string -> Result<Connector, Error>>)

  /** The wrapped driver, given by what its Open answers for each data source name. */
  datatype Driver = Driver(open: string -> Result<DriverConn, Error>)

  /** ksql.Conn: the shim around one wrapped connection (its logger is not modelled). */
  datatype Conn = Conn(conn: DriverConn)

  const ErrNotPinger: Error := Error("returned var not implements ConnBeginTx interface")
  const ErrInvalidMode: Error := Error("integrations: Not in a valid sdk mode")
  const ErrNotDriverContext: Error := Error("mocked Driver.Conn var not implements DriverContext interface")

  /** The metadata every intercepted Ping reports to ProcessDep. */
  const PingMeta: Meta := map["name" := "SQL", "type" := SqlDB, "operation" := "Ping"]

  /** Driver.Open: a failing wrapped Open gives its error and no connection. */
  function Open(d: Driver, dsn: string): (r: Result<Conn, Error>)
    ensures d.open(dsn).Failure? ==> r == Failure(d.open(dsn).error)
    ensures d.open(dsn).Success? ==> r.Success? && r.value.conn == d.open(dsn).value
  {
    match d.open(dsn)
    case Failure(e) => Failure(e)
    case Success(conn) => Success(Conn(conn))
  }

  /** Conn.Begin, Conn.Close and Conn.Prepare forward to the wrapped connection. */
  function Begin(c: Conn): (r: Result<Tx, Error>)
  {
    c.conn.begin
  }

  function Close(c: Conn): (err: Option<Error>)
  {
    c.conn.close
  }

  function Prepare(c: Conn, query: string): (r: Result<Stmt, Error>)
  {
    c.conn.prepare(query)
  }

  /** Conn.OpenConnector: delegates when the wrapped connection is a DriverContext. */
  function OpenConnector(c: Conn, name: string): (r: Result<Connector, Error>)
    ensures c.conn.openConnector.None? ==> r == Failure(ErrNotDriverContext)
    ensures c.conn.openConnector.Some? ==> r == c.conn.openConnector.value(name)
  {
    if c.conn.openConnector.Some? then c.conn.openConnector.value(name)
    else Failure(ErrNotDriverContext)
  }

  /** A connection opened through the shim forwards Begin, Close and Prepare unchanged. */
  lemma OpenedConnForwards(d: Driver, dsn: string, query: string)
    requires d.open(dsn).Success?
    ensures Open(d, dsn).Success?
    ensures Begin(Open(d, dsn).value) == d.open(dsn).value.begin
    ensures Close(Open(d, dsn).value) == d.open(dsn).value.close
    ensures Prepare(Open(d, dsn).value, query) == d.open(dsn).value.prepare(query)
  {
  }

  /**
   * The answers of the collaborators one Ping consults: keploy.GetModeFromContext,
   * keploy.GetState, the wrapped connection's own Ping, and keploy.ProcessDep as a
   * function of the metadata and error it is given.
   */
  datatype PingEnv = PingEnv(
    mode: string,
    state: Result<Context, Error>,
    realPing: Option<Error>,
    processDep: (Meta, KError) -> DepAnswer)

  /** A call Ping makes to a collaborator. */
  datatype Event = ModeQuery | StateQuery | RealPing | ProcessDep(meta: Meta, kerr: KError)

  /** The ways the mocked branch can fail at run time. */
  datatype Panic = IndexOutOfRange | TypeAssertion | NilDereference

  /** What a Ping call does: return an error (None is nil) or panic. */
  datatype PingResult = Returned(err: Option<Error>) | Panicked(panic: Panic)

  /** The error a mocked Ping returns: the `Err` of the first result, which must be a non-nil *KError. */
  function MockedError(results: seq<Value>): (r: PingResult)
    ensures r.Returned? <==> |results| > 0 && results[0].KErrorRef? && results[0].target.Some?
    ensures r.Returned? ==> r.err == results[0].target.value.err
  {
    if |results| == 0 then Panicked(IndexOutOfRange)
    else match results[0]
      case Other(_) => Panicked(TypeAssertion)
      case KErrorRef(None) => Panicked(NilDereference)
      case KErrorRef(Some(k)) => Returned(k.err)
  }

  /** The mode GetState reports, when it reports one. */
  predicate InMode(env: PingEnv, mode: string)
  {
    env.state.Success? && env.state.value.mode == mode
  }

  /** Whether Ping goes past the mode checks and consults ProcessDep. */
  predicate Intercepted(c: Conn, env: PingEnv)
  {
    c.conn.isPinger && env.mode != ModeOff && (InMode(env, ModeTest) || InMode(env, ModeCapture))
  }

  /** Conn.Ping: the mode dispatch around the wrapped connection's Ping. */
  method Ping(c: Conn, env: PingEnv) returns (result: PingResult, trace: seq<Event>)
    // not a Pinger: an error, and nothing consulted
    ensures !c.conn.isPinger ==> result == Returned(Some(ErrNotPinger)) && trace == []
    // off: exactly the real ping, no GetState, no ProcessDep
    ensures c.conn.isPinger && env.mode == ModeOff ==>
      result == Returned(env.realPing) && trace == [ModeQuery, RealPing]
    // no ambient state: its error, no real ping
    ensures c.conn.isPinger && env.mode != ModeOff && env.state.Failure? ==>
      result == Returned(Some(env.state.error)) && trace == [ModeQuery, StateQuery]
    // a mode other than test or capture: rejected, no ping, no ProcessDep
    ensures c.conn.isPinger && env.mode != ModeOff && env.state.Success? && !Intercepted(c, env) ==>
      result == Returned(Some(ErrInvalidMode)) && trace == [ModeQuery, StateQuery]
    // test: no real ping; ProcessDep sees an empty KError
    ensures c.conn.isPinger && env.mode != ModeOff && InMode(env, ModeTest) ==>
      var answer := env.processDep(PingMeta, KError(None));
      trace == [ModeQuery, StateQuery, ProcessDep(PingMeta, KError(None))] &&
      result == (if answer.mocked then MockedError(answer.results) else Returned(None))
    // capture: one real ping; ProcessDep sees its error
    ensures c.conn.isPinger && env.mode != ModeOff && InMode(env, ModeCapture) ==>
      var answer := env.processDep(PingMeta, KError(env.realPing));
      trace == [ModeQuery, StateQuery, RealPing, ProcessDep(PingMeta, KError(env.realPing))] &&
      result == (if answer.mocked then MockedError(answer.results) else Returned(env.realPing))
    // summaries of the above
    ensures forall i, j | 0 <= i < |trace| && 0 <= j < |trace| && trace[i] == RealPing && trace[j] == RealPing :: i == j
    ensures RealPing in trace <==> c.conn.isPinger && (env.mode == ModeOff || InMode(env, ModeCapture))
    ensures Intercepted(c, env) ==> |trace| > 0 && trace[|trace| - 1].ProcessDep?
    ensures forall i | 0 <= i < |trace| && trace[i].ProcessDep? ::
      i == |trace| - 1 && Intercepted(c, env) && trace[i].meta == PingMeta &&
      (trace[i].kerr.err.Some? ==> RealPing in trace && trace[i].kerr.err == env.realPing)
    ensures result.Panicked? ==> Intercepted(c, env)
  {
    trace := [];
    if !c.conn.isPinger {
      return Returned(Some(ErrNotPinger)), trace;
    }
    trace := trace + [ModeQuery];
    if env.mode == ModeOff {
      trace := trace + [RealPing];
      return Returned(env.realPing), trace;
    }
    var err: Option<Error> := None;
    var kerr := KError(None);
    trace := trace + [StateQuery];
    if env.state.Failure? {
      return Returned(Some(env.state.error)), trace;
    }
    var mode := env.state.value.mode;
    if mode == ModeTest {
      // the real ping is not run
    } else if mode == ModeCapture {
      trace := trace + [RealPing];
      err := env.realPing;
    } else {
      return Returned(Some(ErrInvalidMode)), trace;
    }
    if err.Some? {
      kerr := KError(err);
    }
    trace := trace + [ProcessDep(PingMeta, kerr)];
    var answer := env.processDep(PingMeta, kerr);
    if answer.mocked {
      if |answer.results| == 0 {
        return Panicked(IndexOutOfRange), trace;
      }
      match answer.results[0]
      case Other(_) =>
        return Panicked(TypeAssertion), trace;
      case KErrorRef(None) =>
        return Panicked(NilDereference), trace;
      case KErrorRef(Some(x)) =>
        var mockErr: Option<Error> := None;
        if x.err.Some? {
          mockErr := x.err;
        }
        return Returned(mockErr), trace;
    }
    return Returned(err), trace;
  }
}
