/**
 * The shapes the adapters exchange with the keploy package. The package itself
 * (ProcessDep, GetState, GetModeFromContext, GetDependencies, PutResp,
 * CaptureTestcase, BodyDumpResponseWriter) is not part of this model: its
 * answers enter the adapters as parameters and its calls are recorded.
 */
module Keploy {
  import opened Base

  /** keploy.MODE_OFF: the mode in which no interception happens. */
  const ModeOff: string := "off"
  /** The per-request mode that replays a recorded test case. */
  const ModeTest: string := "test"
  /** The per-request mode that records a new test case. */
  const ModeCapture: string := "capture"

  /** The dependency kind models.SqlDB. */
  const SqlDB: string := "SQL_DB"

  /** One recorded dependency output; its contents are opaque to the adapters. */
  datatype Dependency = Dependency(record: seq<string>)

  /** keploy.Context: the per-request state carried under the KCTX key. */
  datatype Context = Context(mode: string, testID: string, deps: seq<Dependency>)

  /** The invariant every context an adapter builds keeps: a test id exactly in test mode. */
  predicate WellFormed(c: Context)
  {
    c.testID != "" <==> c.mode == ModeTest
  }

  /** keploy.KError: an error wrapped so that ProcessDep can record or replay it. */
  datatype KError = KError(err: Option<Error>)

  /** One element of ProcessDep's result slice: a *KError (possibly nil) or any other value. */
  datatype Value = KErrorRef(target: Option<KError>) | Other(description: string)

  /** What ProcessDep answers: whether the call was mocked, and its results. */
  datatype DepAnswer = DepAnswer(mocked: bool, results: seq<Value>)

  /** The metadata map handed to ProcessDep to identify a dependency call. */
  type Meta = map<string, string>
}
