/** The pipeline log service: per-plan execution logs (a static fixture with
    an unknown-key fallback), resolving logs for a list of pipeline records,
    and the per-pipeline error summary. */
module Logs {
  import opened Wrappers
  import opened Seqs
  import opened Numbers

  /** The `status` of a run: "SUCCESS", "FAILED" or "IN_PROGRESS". */
  datatype RunStatus = Succeeded | Failed | InProgress

  /** One error entry of a run. */
  datatype RunError = RunError(step: string, message: string)

  /** One execution of a pipeline. A run still going has duration 0. */
  datatype Run = Run(
    runId: string,
    buildNumber: nat,
    status: RunStatus,
    startedAt: string,
    durationSeconds: nat,
    errors: seq<RunError>)

  /** The logs of one pipeline. `diagnostic` is the `error` field that only
      the placeholder log carries. */
  datatype PipelineLog = PipelineLog(
    pipelineKey: string,
    pipelineName: string,
    totalRuns: nat,
    runs: seq<Run>,
    diagnostic: Option<string>)

  const KnownKeys: set<string> := {"PROJ-PLAN1", "PROJ-PLAN2", "PROJ-PLAN3"}

  /** The names and error messages of the fixture logs. */
  const Plan2TestFailure := "Test 'test_user_validation' failed: AssertionError: Expected 'valid' but got 'invalid'"
  const Plan2TestCount := "1 out of 3 tests failed"
  const Plan3DatabaseTimeout := "Database connection timeout: Unable to connect to test database after 30 seconds"
  const Plan3ServiceDown := "Service 'user-service' failed health check: HTTP 503 Service Unavailable"
  const Plan3SuiteFailure := "Integration test suite failed: 5 out of 12 tests failed due to service dependencies"
  const Plan1Name := "Project Alpha - Build and Deploy"
  const Plan2Name := "Project Beta - Testing Pipeline"
  const Plan3Name := "Project Gamma - Integration Tests"

  function Plan1Runs(): (r: seq<Run>)
    ensures |r| == 3
  {
    [
      Run("run-001", 123, Succeeded, "2025-09-17T10:15:30Z", 385, []),
      Run("run-002", 122, Succeeded, "2025-09-17T09:30:12Z", 456, []),
      Run("run-003", 121, Succeeded, "2025-09-16T16:45:20Z", 435, [])
    ]
  }

  function Plan2Runs(): (r: seq<Run>)
    ensures |r| == 2
  {
    [
      Run("run-087", 87, Failed, "2025-09-16T14:20:15Z", 145, [
        RunError("test", Plan2TestFailure),
        RunError("test", Plan2TestCount)
      ]),
      Run("run-086", 86, Succeeded, "2025-09-16T13:15:45Z", 185, [])
    ]
  }

  function Plan3Runs(): (r: seq<Run>)
    ensures |r| == 3
  {
    [
      Run("run-201", 201, InProgress, "2025-09-17T11:45:30Z", 0, []),
      Run("run-200", 200, Failed, "2025-09-17T08:30:20Z", 835, [
        RunError("integration-test", Plan3DatabaseTimeout),
        RunError("integration-test", Plan3ServiceDown),
        RunError("integration-test", Plan3SuiteFailure)
      ]),
      Run("run-199", 199, Succeeded, "2025-09-16T20:15:10Z", 855, [])
    ]
  }

  function Plan1Log(): (r: PipelineLog)
    ensures r.pipelineKey == "PROJ-PLAN1" && r.totalRuns == |r.runs| > 0 && r.diagnostic.None?
  {
    PipelineLog("PROJ-PLAN1", Plan1Name, 3, Plan1Runs(), None)
  }

  function Plan2Log(): (r: PipelineLog)
    ensures r.pipelineKey == "PROJ-PLAN2" && r.totalRuns == |r.runs| > 0 && r.diagnostic.None?
  {
    PipelineLog("PROJ-PLAN2", Plan2Name, 2, Plan2Runs(), None)
  }

  function Plan3Log(): (r: PipelineLog)
    ensures r.pipelineKey == "PROJ-PLAN3" && r.totalRuns == |r.runs| > 0 && r.diagnostic.None?
  {
    PipelineLog("PROJ-PLAN3", Plan3Name, 3, Plan3Runs(), None)
  }

  /** `get_pipeline_logs(key)`: the fixture logs of a known plan, or an empty
      log that names the unknown key. */
  function GetPipelineLogs(key: string): (r: PipelineLog)
    ensures r.pipelineKey == key
    ensures key !in KnownKeys ==> r == PipelineLog(key, "Unknown Pipeline (" + key + ")", 0, [], None)
  {
    if key == "PROJ-PLAN1" then Plan1Log()
    else if key == "PROJ-PLAN2" then Plan2Log()
    else if key == "PROJ-PLAN3" then Plan3Log()
    else PipelineLog(key, "Unknown Pipeline (" + key + ")", 0, [], None)
  }

  /** Every log the service returns counts its runs correctly and carries
      no diagnostic; a known plan has at least one run. */
  lemma GetPipelineLogsShape(key: string)
    ensures GetPipelineLogs(key).totalRuns == |GetPipelineLogs(key).runs|
    ensures GetPipelineLogs(key).diagnostic.None?
    ensures key in KnownKeys ==> |GetPipelineLogs(key).runs| > 0
  {
  }

  /** The three fixture logs as the orchestrator fetches them. */
  function FixtureLogs(): seq<PipelineLog> {
    [Plan1Log(), Plan2Log(), Plan3Log()]
  }

  /** Which plans fail, build and carry errors in the fixture: PLAN1 only
      succeeds without errors, PLAN2 has a failure with errors, PLAN3 has a
      run in progress and a failure with errors. */
  lemma FixtureContent()
    ensures forall r :: r in Plan1Log().runs ==> r.status == Succeeded && r.errors == []
    ensures exists r :: r in Plan2Log().runs && r.status == Failed && |r.errors| > 0
    ensures exists r :: r in Plan3Log().runs && r.status == InProgress
    ensures exists r :: r in Plan3Log().runs && |r.errors| > 0
  {
    assert Plan2Log().runs[0] in Plan2Log().runs;
    assert Plan3Log().runs[0] in Plan3Log().runs;
    assert Plan3Log().runs[1] in Plan3Log().runs;
  }

  // ---------------------------------------------------------------------------
  // Resolving pipeline records

  /** The value of a key field of a pipeline record: a text, JSON null, or a
      nested object whose own `key` may be absent. */
  datatype IdValue = IdText(text: string) | IdNull | IdNested(inner: Option<string>)

  /** The four fields `get_all_logs` looks at, each possibly absent. */
  datatype PipelineRef = PipelineRef(
    key: Option<IdValue>,
    planKey: Option<IdValue>,
    pipelineKey: Option<IdValue>,
    id: Option<IdValue>)

  /** The value of the first present field, in the order key, planKey,
      pipeline_key, id. */
  function FirstPresent(ref: PipelineRef): (r: Option<IdValue>)
    ensures r.None? <==> ref.key.None? && ref.planKey.None? && ref.pipelineKey.None? && ref.id.None?
  {
    if ref.key.Some? then ref.key
    else if ref.planKey.Some? then ref.planKey
    else if ref.pipelineKey.Some? then ref.pipelineKey
    else ref.id
  }

  /** The key a field value stands for, if it is a non-empty text (a falsy
      value resolves to nothing). A nested object is unwrapped once. */
  function KeyText(v: IdValue): (r: Option<string>)
    ensures r.Some? ==> |r.value| > 0
  {
    match v
    case IdText(s) => if |s| > 0 then Some(s) else None
    case IdNull => None
    case IdNested(inner) => if inner.Some? && |inner.value| > 0 then inner else None
  }

  /** The key `get_all_logs` resolves for one record. */
  function ResolveKey(ref: PipelineRef): Option<string> {
    match FirstPresent(ref)
    case None => None
    case Some(v) => KeyText(v)
  }

  const NoKeyDiagnostic := "No valid pipeline key found in pipeline data"

  /** The log entry that stands in for a record without a usable key. */
  function Placeholder(): PipelineLog {
    PipelineLog("UNKNOWN", "Unknown Pipeline", 0, [], Some(NoKeyDiagnostic))
  }

  function LogFor(ref: PipelineRef): (r: PipelineLog)
    ensures ResolveKey(ref).Some? ==> r.pipelineKey == ResolveKey(ref).value
    ensures ResolveKey(ref).None? ==> r == Placeholder()
  {
    match ResolveKey(ref)
    case Some(k) => GetPipelineLogs(k)
    case None => Placeholder()
  }

  /** `get_all_logs(pipelines)`: one log per record, in record order. */
  function GetAllLogs(refs: seq<PipelineRef>): (r: seq<PipelineLog>)
    ensures |r| == |refs|
    ensures forall i :: 0 <= i < |refs| ==> r[i] == LogFor(refs[i])
  {
    seq(|refs|, i requires 0 <= i < |refs| => LogFor(refs[i]))
  }

  /** The first present field decides, even when its value is falsy: later
      fields are never consulted. */
  lemma FirstFieldDecides(ref: PipelineRef, other: PipelineRef)
    requires ref.key.Some? && other.key == ref.key
    ensures ResolveKey(ref) == ResolveKey(other)
  {
  }

  /** An empty `key` field hides a usable `id`. */
  lemma EmptyKeyShadowsId(id: string)
    ensures ResolveKey(PipelineRef(Some(IdText("")), None, None, Some(IdText(id)))) == None
  {
  }

  /** Each of the four spellings of a record resolves to the same key. */
  lemma KeyVariants(k: string)
    requires |k| > 0
    ensures ResolveKey(PipelineRef(Some(IdText(k)), None, None, None)) == Some(k)
    ensures ResolveKey(PipelineRef(None, Some(IdNested(Some(k))), None, None)) == Some(k)
    ensures ResolveKey(PipelineRef(None, None, Some(IdText(k)), None)) == Some(k)
    ensures ResolveKey(PipelineRef(None, None, None, Some(IdText(k)))) == Some(k)
  {
  }

  /** A record with a usable key gets logs under exactly that key. */
  lemma GetAllLogsKeys(refs: seq<PipelineRef>)
    ensures forall i :: 0 <= i < |refs| ==>
      GetAllLogs(refs)[i].pipelineKey == ResolveKey(refs[i]).GetOr("UNKNOWN")
  {
  }

  // ---------------------------------------------------------------------------
  // Error summary

  /** One row of the error details: an error of a failed run. */
  datatype ErrorDetail = ErrorDetail(runId: string, buildNumber: nat, step: string, message: string, timestamp: string)

  /** `get_error_summary` result. The success rate is kept in tenths of a
      percent, as `round(..., 1)` leaves it. */
  datatype ErrorSummary = ErrorSummary(
    pipelineKey: string,
    pipelineName: string,
    totalRuns: nat,
    failedRuns: nat,
    successRateTenths: int,
    totalErrors: nat,
    errorDetails: seq<ErrorDetail>)

  function DetailsOfRun(r: Run): (d: seq<ErrorDetail>)
    ensures |d| == |r.errors|
  {
    seq(|r.errors|, i requires 0 <= i < |r.errors| =>
      ErrorDetail(r.runId, r.buildNumber, r.errors[i].step, r.errors[i].message, r.startedAt))
  }

  /** Reference definitions: the number of runs with a given status, and the
      details of the errors of failed runs, in run order. */
  function CountStatus(runs: seq<Run>, st: RunStatus): nat {
    if |runs| == 0 then 0
    else CountStatus(runs[..|runs| - 1], st) + (if runs[|runs| - 1].status == st then 1 else 0)
  }

  function FailedDetails(runs: seq<Run>): seq<ErrorDetail> {
    if |runs| == 0 then []
    else FailedDetails(runs[..|runs| - 1])
         + (if runs[|runs| - 1].status == Failed then DetailsOfRun(runs[|runs| - 1]) else [])
  }

  /** Every run has exactly one of the three statuses. */
  lemma {:induction false} StatusPartition(runs: seq<Run>)
    ensures CountStatus(runs, Succeeded) + CountStatus(runs, Failed) + CountStatus(runs, InProgress) == |runs|
  {
    if |runs| > 0 {
      StatusPartition(runs[..|runs| - 1]);
    }
  }

  /** Every detail row belongs to a failed run of the log. */
  lemma {:induction false} FailedDetailsFromFailedRuns(runs: seq<Run>)
    ensures forall d :: d in FailedDetails(runs) ==>
      exists r :: r in runs && r.status == Failed && r.runId == d.runId && r.startedAt == d.timestamp
  {
    if |runs| > 0 {
      var p := runs[..|runs| - 1];
      var last := runs[|runs| - 1];
      FailedDetailsFromFailedRuns(p);
      forall d | d in FailedDetails(runs)
        ensures exists r :: r in runs && r.status == Failed && r.runId == d.runId && r.startedAt == d.timestamp
      {
        if d in FailedDetails(p) {
          var r :| r in p && r.status == Failed && r.runId == d.runId && r.startedAt == d.timestamp;
          assert r in runs;
        } else {
          assert last in runs;
        }
      }
    }
  }

  /** `get_error_summary(logs)`. */
  method GetErrorSummary(log: PipelineLog) returns (s: ErrorSummary)
    ensures s.pipelineKey == log.pipelineKey && s.pipelineName == log.pipelineName
    ensures s.totalRuns == |log.runs|
    ensures s.failedRuns == CountStatus(log.runs, Failed) <= s.totalRuns
    ensures s.errorDetails == FailedDetails(log.runs)
    ensures s.totalErrors == |s.errorDetails|
    ensures s.totalRuns == 0 ==> s.successRateTenths == 0
    ensures s.totalRuns > 0 ==> 0 <= s.successRateTenths <= 1000
    ensures s.totalRuns > 0 ==>
      var t := s.totalRuns as int;
      -t <= 2 * (1000 * (t - s.failedRuns) - t * s.successRateTenths) <= t
  {
    var runs := log.runs;
    var failed := 0;
    var totalErrors := 0;
    var details: seq<ErrorDetail> := [];
    var i := 0;
    while i < |runs|
      invariant 0 <= i <= |runs|
      invariant failed == CountStatus(runs[..i], Failed)
      invariant details == FailedDetails(runs[..i])
      invariant totalErrors == |details|
    {
      assert runs[..i + 1][..i] == runs[..i];
      if runs[i].status == Failed {
        failed := failed + 1;
        totalErrors := totalErrors + |runs[i].errors|;
        details := details + DetailsOfRun(runs[i]);
      }
      i := i + 1;
    }
    assert runs[..i] == runs;
    StatusPartition(runs);
    var total := |runs|;
    var rate := 0;
    if total > 0 {
      rate := RoundHalfEven(1000 * (total - failed), total);
      RoundInRange(1000 * (total - failed), total, 0, 1000);
    }
    s := ErrorSummary(log.pipelineKey, log.pipelineName, total, failed, rate, totalErrors, details);
  }

  /** The error summaries of the fixture: PLAN2 has 2 runs, 1 of them
      failed, a 50.0 success rate and error details; PLAN1 has no failed
      run, a 100.0 success rate and no details. */
  method FixtureErrorSummaries() returns (plan1: ErrorSummary, plan2: ErrorSummary)
    ensures plan2.pipelineKey == "PROJ-PLAN2" && plan2.totalRuns == 2 && plan2.failedRuns == 1
    ensures plan2.successRateTenths == 500 && plan2.totalErrors > 0
    ensures plan1.pipelineKey == "PROJ-PLAN1" && plan1.failedRuns == 0
    ensures plan1.successRateTenths == 1000 && plan1.totalErrors == 0 && plan1.errorDetails == []
  {
    plan1 := GetErrorSummary(Plan1Log());
    plan2 := GetErrorSummary(Plan2Log());
  }
}
