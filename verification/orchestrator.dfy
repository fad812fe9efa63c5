/** The orchestrator: plans are normalized, their logs fetched, analysed and
    reported on; the result is a success envelope with the intermediate
    counts of each step, or an error envelope when a step raised. Also the
    execution summary that classifies each pipeline, and the quick health
    check. */
module Orchestrator {
  import opened Wrappers
  import opened Seqs
  import opened Strings
  import opened Numbers
  import opened Bamboo
  import opened Normalizer
  import opened Logs
  import opened RunStats
  import opened Analyzer
  import opened Statistics
  import opened Bugs
  import opened Reporting

  // ---------------------------------------------------------------------------
  // Execution summary

  datatype PipelineHealth = Healthy | Warning | Critical

  /** Healthy when the summary mentions "excellent" or "good" or there is
      no top error; otherwise warning when it mentions "concerning" or has
      at most two top errors; otherwise critical. */
  function Classify(a: Analysis): PipelineHealth {
    var text := Lower(a.summary);
    if Contains(text, "excellent") || Contains(text, "good") || |a.topErrors| == 0 then Healthy
    else if Contains(text, "concerning") || |a.topErrors| <= 2 then Warning
    else Critical
  }

  /** The keys of the analyses in class `h`, in order. */
  function KeysIn(analyses: seq<Analysis>, h: PipelineHealth): (r: seq<string>)
    ensures |r| <= |analyses|
  {
    if |analyses| == 0 then []
    else (if Classify(analyses[0]) == h then [analyses[0].pipelineKey] else []) + KeysIn(analyses[1..], h)
  }

  /** Every analysis lands in exactly one class: the three lists together
      are as long as the analyses. */
  lemma {:induction false} ClassesPartition(analyses: seq<Analysis>)
    ensures |KeysIn(analyses, Healthy)| + |KeysIn(analyses, Warning)| + |KeysIn(analyses, Critical)| == |analyses|
  {
    if |analyses| > 0 {
      ClassesPartition(analyses[1..]);
    }
  }

  /** A key is listed in a class exactly when some analysis with that key
      falls in it. */
  lemma {:induction false} KeysInSpec(analyses: seq<Analysis>, h: PipelineHealth, k: string)
    ensures k in KeysIn(analyses, h) <==> exists i :: 0 <= i < |analyses| && analyses[i].pipelineKey == k && Classify(analyses[i]) == h
  {
    if |analyses| > 0 {
      KeysInSpec(analyses[1..], h, k);
      if k in KeysIn(analyses[1..], h) {
        var i :| 0 <= i < |analyses[1..]| && analyses[1..][i].pipelineKey == k && Classify(analyses[1..][i]) == h;
        assert analyses[i + 1] == analyses[1..][i];
      }
      if exists i :: 0 <= i < |analyses| && analyses[i].pipelineKey == k && Classify(analyses[i]) == h {
        var i :| 0 <= i < |analyses| && analyses[i].pipelineKey == k && Classify(analyses[i]) == h;
        if i > 0 {
          assert analyses[1..][i - 1] == analyses[i];
        }
      }
    }
  }

  datatype Overall = Excellent | Good | Concerning | CriticalHealth

  /** No critical pipeline and at most one warning is excellent, no
      critical one good, at most one concerning, more critical. */
  function OverallHealth(critical: nat, warning: nat): Overall {
    if critical == 0 && warning <= 1 then Excellent
    else if critical == 0 then Good
    else if critical <= 1 then Concerning
    else CriticalHealth
  }

  function OverallRank(o: Overall): int {
    match o
    case Excellent => 3
    case Good => 2
    case Concerning => 1
    case CriticalHealth => 0
  }

  function OverallName(o: Overall): string {
    match o
    case Excellent => "excellent"
    case Good => "good"
    case Concerning => "concerning"
    case CriticalHealth => "critical"
  }

  /** `overall_health.title()`. */
  function OverallTitle(o: Overall): string {
    match o
    case Excellent => "Excellent"
    case Good => "Good"
    case Concerning => "Concerning"
    case CriticalHealth => "Critical"
  }

  function OverallEmoji(o: Overall): string {
    match o
    case Excellent => "🟢"
    case Good => "🟡"
    case Concerning => "🟠"
    case CriticalHealth => "🔴"
  }

  /** More critical or warning pipelines never make the fleet look
      healthier, and the level is excellent exactly when nothing is
      critical and at most one pipeline warns. */
  lemma OverallMonotone(c1: nat, w1: nat, c2: nat, w2: nat)
    requires c1 <= c2 && w1 <= w2
    ensures OverallRank(OverallHealth(c1, w1)) >= OverallRank(OverallHealth(c2, w2))
    ensures OverallHealth(c1, w1) == Excellent <==> c1 == 0 && w1 <= 1
  {
  }

  datatype ExecutionSummary = ExecutionSummary(
    overallHealth: string,
    healthEmoji: string,
    pipelinesAnalyzed: nat,
    totalRunsAnalyzed: int,
    totalErrorsFound: int,
    criticalIssues: int,
    healthyPipelines: seq<string>,
    warningPipelines: seq<string>,
    criticalPipelines: seq<string>,
    avgDurationMinutesTenths: int,
    successRateTenths: int,
    quickSummary: string)

  /** `_generate_execution_summary(analyses, report)` without the elapsed
      time. The two one-decimal roundings are kept as integers counting
      tenths. */
  function GenerateExecutionSummary(analyses: seq<Analysis>, report: Report): ExecutionSummary {
    var stats := report.stats;
    var healthy := KeysIn(analyses, Healthy);
    var warning := KeysIn(analyses, Warning);
    var critical := KeysIn(analyses, Critical);
    var overall := OverallHealth(|critical|, |warning|);
    var high := HighCount(report.bugsSummary);
    ExecutionSummary(
      OverallName(overall),
      OverallEmoji(overall),
      |analyses|,
      stats.runsTotal,
      stats.errorsTotal,
      high,
      healthy,
      warning,
      critical,
      RoundHalfEven(10 * stats.avgDurationSeconds, 60),
      RoundHalfEven(1000 * (stats.completedRuns - stats.errorsTotal), Max1(stats.completedRuns)),
      QuickSummary(overall, |analyses|, stats.errorsTotal, high))
  }

  function QuickSummary(overall: Overall, pipelines: nat, errors: int, high: int): string {
    OverallEmoji(overall)
      + (" " + OverallTitle(overall) + " - " + IntToString(pipelines) + " pipelines, "
      + IntToString(errors) + " errors, " + IntToString(high) + " critical issues")
  }

  /** The breakdown accounts for every analysis, the overall level is the
      one its class sizes give, the critical issues are the report's
      high-severity bugs, and the quick summary opens with the level's
      emoji. */
  lemma ExecutionSummarySpec(analyses: seq<Analysis>, report: Report)
    ensures var s := GenerateExecutionSummary(analyses, report);
      && |s.healthyPipelines| + |s.warningPipelines| + |s.criticalPipelines| == s.pipelinesAnalyzed == |analyses|
      && s.overallHealth == OverallName(OverallHealth(|s.criticalPipelines|, |s.warningPipelines|))
      && s.criticalIssues == HighCount(report.bugsSummary)
      && s.totalRunsAnalyzed == report.stats.runsTotal
      && s.totalErrorsFound == report.stats.errorsTotal
      && s.healthyPipelines == KeysIn(analyses, Healthy)
      && s.warningPipelines == KeysIn(analyses, Warning)
      && s.criticalPipelines == KeysIn(analyses, Critical)
      && IsPrefix(s.healthEmoji, s.quickSummary)
  {
    ClassesPartition(analyses);
    var overall := OverallHealth(|KeysIn(analyses, Critical)|, |KeysIn(analyses, Warning)|);
    var high := HighCount(report.bugsSummary);
    var rest := " " + OverallTitle(overall) + " - " + IntToString(|analyses|) + " pipelines, "
      + IntToString(report.stats.errorsTotal) + " errors, " + IntToString(high) + " critical issues";
    PrefixOfAppend(OverallEmoji(overall), OverallEmoji(overall), rest);
  }

  /** The success rate in tenths of a percent is within half a tenth of
      `(completed - errors) / max(completed, 1) * 100`, and the average
      duration in tenths of a minute is within half a tenth of
      `avg_duration_seconds / 60`. */
  lemma SuccessRateClose(analyses: seq<Analysis>, report: Report)
    ensures var s := GenerateExecutionSummary(analyses, report);
      var c := report.stats.completedRuns;
      var den := Max1(c);
      && -den <= 2 * (1000 * (c - report.stats.errorsTotal) - den * s.successRateTenths) <= den
      && -60 <= 2 * (10 * report.stats.avgDurationSeconds - 60 * s.avgDurationMinutesTenths) <= 60
  {
  }

  // ---------------------------------------------------------------------------
  // The workflow envelope

  datatype LogSummary = LogSummary(pipelineKey: string, runsCount: nat, hasErrors: bool)

  datatype AnalysisSummary = AnalysisSummary(pipelineKey: string, errorCount: nat, recommendationCount: nat)

  datatype Processing = Processing(
    pipelinesFound: nat,
    pipelineKeys: seq<string>,
    logsRetrieved: nat,
    totalRuns: int,
    logsSummary: seq<LogSummary>,
    analysesCompleted: nat,
    analysisSummary: seq<AnalysisSummary>,
    bugsFound: nat,
    markdownLength: nat)

  datatype Outputs = Outputs(
    pipelines: seq<Descriptor>,
    logs: seq<PipelineLog>,
    analyses: seq<Analysis>,
    report: Report,
    summary: ExecutionSummary)

  /** The result of `run(question)`: the success envelope (four steps
      completed) or the error envelope (none), both echoing the question. */
  datatype WorkflowResult =
    | WorkflowDone(question: string, processing: Processing, outputs: Outputs)
    | WorkflowFailed(question: string, errorMessage: string)

  function StatusText(w: WorkflowResult): string {
    if w.WorkflowDone? then "success" else "error"
  }

  function StepsCompleted(w: WorkflowResult): nat {
    if w.WorkflowDone? then 4 else 0
  }

  /** A normalized plan as `get_all_logs` reads it: by its `key` field. */
  function PlanRef(d: Descriptor): PipelineRef {
    PipelineRef(Some(IdText(d.key)), None, None, None)
  }

  function PlanRefs(ds: seq<Descriptor>): (r: seq<PipelineRef>)
    ensures |r| == |ds|
    ensures forall i :: 0 <= i < |ds| ==> r[i] == PlanRef(ds[i])
  {
    seq(|ds|, i requires 0 <= i < |ds| => PlanRef(ds[i]))
  }

  function PlanKeys(ds: seq<Descriptor>): (r: seq<string>)
    ensures |r| == |ds|
    ensures forall i :: 0 <= i < |ds| ==> r[i] == ds[i].key
  {
    seq(|ds|, i requires 0 <= i < |ds| => ds[i].key)
  }

  predicate RunHasErrors(r: Run) {
    |r.errors| > 0
  }

  function SummarizeLog(l: PipelineLog): LogSummary {
    LogSummary(l.pipelineKey, |l.runs|, exists i :: 0 <= i < |l.runs| && RunHasErrors(l.runs[i]))
  }

  function SummarizeAnalysis(a: Analysis): AnalysisSummary {
    AnalysisSummary(a.pipelineKey, |a.topErrors|, |a.recommendations|)
  }

  function Map<T, U>(s: seq<T>, f: T -> U): (r: seq<U>)
    ensures |r| == |s|
    ensures forall i :: 0 <= i < |s| ==> r[i] == f(s[i])
  {
    seq(|s|, i requires 0 <= i < |s| => f(s[i]))
  }

  /** The logs of step 2 for the plans of step 1. */
  function WorkflowLogs(raw: RawListing): seq<PipelineLog> {
    GetAllLogs(PlanRefs(Normalize(raw)))
  }

  /** The analyses of step 3. */
  function WorkflowAnalyses(raw: RawListing, ai: PipelineLog -> AiOutcome): seq<Analysis> {
    AnalyzeMany(WorkflowLogs(raw), ai)
  }

  /** The report of step 4, or the message it raised. */
  function WorkflowReport(raw: RawListing, ai: PipelineLog -> AiOutcome, reportAi: Result<string, string>, now: string): Result<Report, string> {
    AggregateAndReport(WorkflowAnalyses(raw, ai), WorkflowLogs(raw), reportAi, now)
  }

  /** The envelope around the results of the four steps. */
  function Envelope(question: string, plans: seq<Descriptor>, logs: seq<PipelineLog>, analyses: seq<Analysis>,
                    report: Result<Report, string>): WorkflowResult
  {
    match report
    case Failure(e) => WorkflowFailed(question, e)
    case Success(rep) =>
      WorkflowDone(
        question,
        Processing(
          |plans|, PlanKeys(plans),
          |logs|, Sum(logs, RunCount), Map(logs, SummarizeLog),
          |analyses|, Map(analyses, SummarizeAnalysis),
          |rep.bugsSummary|, |rep.markdown|),
        Outputs(plans, logs, analyses, rep, GenerateExecutionSummary(analyses, rep)))
  }

  /** The envelope is an error exactly when the report step failed; a
      success envelope counts what each step produced and completes four
      steps, an error envelope none. */
  lemma EnvelopeSpec(question: string, plans: seq<Descriptor>, logs: seq<PipelineLog>, analyses: seq<Analysis>,
                     report: Result<Report, string>)
    ensures var w := Envelope(question, plans, logs, analyses, report);
      && w.question == question
      && (w.WorkflowFailed? <==> report.Failure?)
      && (w.WorkflowFailed? ==> w.errorMessage == report.error && StepsCompleted(w) == 0 && StatusText(w) == "error")
      && (w.WorkflowDone? ==>
        && StepsCompleted(w) == 4 && StatusText(w) == "success"
        && w.processing.pipelineKeys == PlanKeys(plans)
        && w.processing.pipelinesFound == |plans|
        && w.processing.logsRetrieved == |logs|
        && w.processing.totalRuns == Sum(logs, RunCount)
        && w.processing.analysesCompleted == |analyses| == w.outputs.summary.pipelinesAnalyzed
        && w.processing.bugsFound == |report.value.bugsSummary|
        && w.outputs.report == report.value
        && w.outputs.logs == logs && w.outputs.analyses == analyses)
  {
  }

  /** `run(question)`: `raw` is the plan listing, `ai` the AI service's
      outcome for each pipeline's analysis, `reportAi` its outcome for the
      report, `now` the report time. */
  function RunWorkflow(question: string, raw: RawListing, ai: PipelineLog -> AiOutcome,
                       reportAi: Result<string, string>, now: string): WorkflowResult
  {
    Envelope(question, Normalize(raw), WorkflowLogs(raw), WorkflowAnalyses(raw, ai), WorkflowReport(raw, ai, reportAi, now))
  }

  /** The workflow fails exactly when an analysis kept an error entry that
      is not an object; the error envelope then carries the report step's
      message and completes no step. */
  lemma RunOutcome(question: string, raw: RawListing, ai: PipelineLog -> AiOutcome, reportAi: Result<string, string>, now: string)
    ensures var w := RunWorkflow(question, raw, ai, reportAi, now);
      && w.question == question
      && (w.WorkflowFailed? <==> !AllCounted(WorkflowAnalyses(raw, ai)))
      && (w.WorkflowFailed? ==> w.errorMessage == WorkflowReport(raw, ai, reportAi, now).error && StepsCompleted(w) == 0)
  {
    EnvelopeSpec(question, Normalize(raw), WorkflowLogs(raw), WorkflowAnalyses(raw, ai), WorkflowReport(raw, ai, reportAi, now));
    AggregateOutcome(WorkflowAnalyses(raw, ai), WorkflowLogs(raw), reportAi, now);
  }

  /** On success the report's statistics are those of the fetched logs,
      one pipeline per analysis, and one analysis per log with its key. */
  lemma ReportStats(raw: RawListing, ai: PipelineLog -> AiOutcome, reportAi: Result<string, string>, now: string)
    ensures WorkflowReport(raw, ai, reportAi, now).Success? ==>
      && WorkflowReport(raw, ai, reportAi, now).value.stats == StatsOf(|WorkflowLogs(raw)|, WorkflowLogs(raw))
      && WorkflowReport(raw, ai, reportAi, now).value.stats.runsTotal == Sum(WorkflowLogs(raw), RunCount)
  {
    AggregateOutcome(WorkflowAnalyses(raw, ai), WorkflowLogs(raw), reportAi, now);
    if AllCounted(WorkflowAnalyses(raw, ai)) {
      AggregateContent(WorkflowAnalyses(raw, ai), WorkflowLogs(raw), reportAi, now);
    }
  }

  /** On success: the step-1 keys are the normalized keys in order, one log
      and one analysis per plan, the analyses keep the log keys, and the
      step-2 run total, summed over the logs as fetched, equals the report's
      `runs_total`, summed over the logs sorted by key. */
  lemma RunSuccess(question: string, raw: RawListing, ai: PipelineLog -> AiOutcome, reportAi: Result<string, string>, now: string)
    requires RunWorkflow(question, raw, ai, reportAi, now).WorkflowDone?
    ensures var w := RunWorkflow(question, raw, ai, reportAi, now);
      var p := w.processing;
      && StepsCompleted(w) == 4 && StatusText(w) == "success"
      && p.pipelineKeys == PlanKeys(Normalize(raw))
      && p.logsRetrieved == p.pipelinesFound == p.analysesCompleted == |PlanRecords(raw)|
      && p.totalRuns == w.outputs.report.stats.runsTotal
      && p.bugsFound == |w.outputs.report.bugsSummary|
      && w.outputs.summary.pipelinesAnalyzed == p.analysesCompleted
      && (forall i :: 0 <= i < |w.outputs.analyses| ==> w.outputs.analyses[i].pipelineKey == w.outputs.logs[i].pipelineKey)
  {
    EnvelopeSpec(question, Normalize(raw), WorkflowLogs(raw), WorkflowAnalyses(raw, ai), WorkflowReport(raw, ai, reportAi, now));
    NormalizeSpec(PlanRecords(raw));
    ReportStats(raw, ai, reportAi, now);
  }

  /** The heuristic analysis reports only counted errors. */
  lemma HeuristicCounted(log: PipelineLog)
    ensures forall j :: 0 <= j < |Heuristic(log).topErrors| ==> Heuristic(log).topErrors[j].Counted?
  {
    if |log.runs| > 0 {
      HeuristicTopErrors(log);
    }
  }

  /** When the AI service raises for every pipeline, whatever the kind,
      every analysis is heuristic or a stand-in, and neither holds an entry
      that is not an object. */
  lemma AnalyzeWithoutAi(logs: seq<PipelineLog>, ai: PipelineLog -> AiOutcome)
    requires forall l :: ai(l).AiRaised?
    ensures AllCounted(AnalyzeMany(logs, ai))
  {
    var analyses := AnalyzeMany(logs, ai);
    forall i, j | 0 <= i < |analyses| && 0 <= j < |analyses[i].topErrors|
      ensures analyses[i].topErrors[j].Counted?
    {
      if ai(logs[i]).kind != OtherException {
        HeuristicCounted(logs[i]);
      }
    }
  }

  /** So when the AI service is down the workflow succeeds. */
  lemma RunWithoutAi(question: string, raw: RawListing, ai: PipelineLog -> AiOutcome, reportAi: Result<string, string>, now: string)
    requires forall l :: ai(l).AiRaised?
    ensures RunWorkflow(question, raw, ai, reportAi, now).WorkflowDone?
  {
    AnalyzeWithoutAi(WorkflowLogs(raw), ai);
    RunOutcome(question, raw, ai, reportAi, now);
  }

  /** Plans keyed PLAN1 to PLAN3, in that order, fetch the three fixture
      logs. */
  lemma FixtureLogsFor(plans: seq<Descriptor>)
    requires |plans| == 3
    requires plans[0].key == "PROJ-PLAN1" && plans[1].key == "PROJ-PLAN2" && plans[2].key == "PROJ-PLAN3"
    ensures PlanKeys(plans) == ["PROJ-PLAN1", "PROJ-PLAN2", "PROJ-PLAN3"]
    ensures GetAllLogs(PlanRefs(plans)) == FixtureLogs()
  {
    var refs := PlanRefs(plans);
    KeyVariants("PROJ-PLAN1");
    KeyVariants("PROJ-PLAN2");
    KeyVariants("PROJ-PLAN3");
    assert LogFor(refs[0]) == Plan1Log();
    assert LogFor(refs[1]) == Plan2Log();
    assert LogFor(refs[2]) == Plan3Log();
  }

  /** On a listing that normalizes to PLAN1, PLAN2, PLAN3 (the fixture
      listing does, by `NormalizeFixture`) a successful workflow lists those
      keys in order, counts 8 runs, and reports 3 pipelines, 8 runs, 471 s
      average, 5 errors and 7 finished runs. */
  lemma RunFixture(question: string, raw: RawListing, ai: PipelineLog -> AiOutcome, reportAi: Result<string, string>, now: string)
    requires raw == GetBambooPlans()
    ensures var w := RunWorkflow(question, raw, ai, reportAi, now);
      w.WorkflowDone? ==>
      && w.processing.pipelineKeys == ["PROJ-PLAN1", "PROJ-PLAN2", "PROJ-PLAN3"]
      && w.processing.totalRuns == 8
      && w.outputs.report.stats == Stats(3, 8, 471, 5, 7)
  {
    FixtureWorkflowLogs(raw);
    FixtureStats();
    EnvelopeSpec(question, Normalize(raw), WorkflowLogs(raw), WorkflowAnalyses(raw, ai), WorkflowReport(raw, ai, reportAi, now));
    ReportStats(raw, ai, reportAi, now);
  }

  /** Steps 1 and 2 on the fixture listing: the three plan keys in order,
      and the three fixture logs. */
  lemma FixtureWorkflowLogs(raw: RawListing)
    requires raw == GetBambooPlans()
    ensures PlanKeys(Normalize(raw)) == ["PROJ-PLAN1", "PROJ-PLAN2", "PROJ-PLAN3"]
    ensures WorkflowLogs(raw) == FixtureLogs()
  {
    NormalizeFixture(raw);
    FixtureLogsFor(Normalize(raw));
  }

  // ---------------------------------------------------------------------------
  // Quick health check

  const HealthCheckQuestion := "Health check test"

  /** `run_quick_health_check()` on the workflow's result. */
  function QuickHealthMessage(w: WorkflowResult): string {
    match w
    case WorkflowDone(_, _, outputs) =>
      "✅ Healthy - " + IntToString(outputs.report.stats.pipelinesTotal) + " pipelines analyzed successfully"
    case WorkflowFailed(_, message) => "⚠️ Issues detected - " + message
  }

  /** The message opens with ✅ exactly on success and with ⚠️ exactly on
      failure; since the workflow never raises, it never opens with 🔴. */
  lemma QuickHealthSpec(w: WorkflowResult)
    ensures IsPrefix("✅", QuickHealthMessage(w)) <==> w.WorkflowDone?
    ensures IsPrefix("⚠️", QuickHealthMessage(w)) <==> w.WorkflowFailed?
    ensures !IsPrefix("🔴", QuickHealthMessage(w))
  {
    var m := QuickHealthMessage(w);
    assert m[0] == (if w.WorkflowDone? then '✅' else '⚠');
  }
}
