/** The reporting agent's report: statistics and bugs over the analyses and
    logs sorted by key, and a Markdown text that is either the AI service's
    answer closed by a newline or a fixed template. Also the one-line daily
    summary. */
module Reporting {
  import opened Wrappers
  import opened Seqs
  import opened Strings
  import opened Numbers
  import opened Ordering
  import opened Sorting
  import opened Counting
  import opened Logs
  import opened Analyzer
  import opened Statistics
  import opened Bugs

  /** A concatenation of sections is what precedes section `k`, the
      section, and what follows it. */
  lemma {:induction false} FlattenAround(ss: seq<string>, k: nat)
    requires k < |ss|
    ensures Flatten(ss) == Flatten(ss[..k]) + ss[k] + Flatten(ss[k + 1..])
  {
    assert ss == ss[..k] + ([ss[k]] + ss[k + 1..]);
    FlattenAppend(ss[..k], [ss[k]] + ss[k + 1..]);
    assert ([ss[k]] + ss[k + 1..])[1..] == ss[k + 1..];
  }

  /** A section of a concatenated text sits inside the whole. */
  lemma FlattenContains(ss: seq<string>, k: nat)
    requires k < |ss|
    ensures Contains(Flatten(ss), ss[k])
  {
    FlattenAround(ss, k);
    ContainsMiddle(Flatten(ss[..k]), ss[k], Flatten(ss[k + 1..]));
  }

  /** Whatever a section contains, the concatenation contains too. */
  lemma ContainsInSection(ss: seq<string>, k: nat, p: string)
    requires k < |ss| && Contains(ss[k], p)
    ensures Contains(Flatten(ss), p)
  {
    FlattenAround(ss, k);
    ContainsExtend(Flatten(ss[..k]), ss[k], Flatten(ss[k + 1..]), p);
  }

  function Max1(n: int): int {
    if n > 1 then n else 1
  }

  function SeverityName(s: Severity): string {
    match s
    case High => "high"
    case Medium => "medium"
    case Low => "low"
  }

  // ---------------------------------------------------------------------------
  // The AI path

  predicate EndsWithNewline(s: string) {
    |s| > 0 && s[|s| - 1] == '\n'
  }

  /** The closing step of `_generate_markdown_report`: a newline is added
      unless the stripped text ends with one. */
  function CloseReport(text: string): string {
    if !EndsWithNewline(Strip(text)) then text + "\n" else text
  }

  /** A stripped text never ends with a newline, so the AI's text always
      gets exactly one newline appended. */
  lemma CloseReportAppends(text: string)
    ensures CloseReport(text) == text + "\n"
  {
    var s := Strip(text);
    if |s| > 0 {
      assert IsSpace('\n');
    }
  }

  /** One line of the digest of bugs sent to the AI service. */
  function DigestLine(b: Bug): string {
    "- " + Upper(SeverityName(b.severity)) + ": " + b.errorMessage
      + (" (Pipeline: " + b.pipelineKey + ", Frequency: " + IntToString(b.frequency) + ")\n")
  }

  /** The digest lines of the first five bugs. */
  function DigestLines(bugs: seq<Bug>): (r: seq<string>)
    ensures |r| == |Take(bugs, 5)|
    ensures forall i :: 0 <= i < |r| ==> r[i] == DigestLine(bugs[i])
  {
    seq(|Take(bugs, 5)|, i requires 0 <= i < |Take(bugs, 5)| => DigestLine(bugs[i]))
  }

  /** `'; '.join(recommendations[:2])` when there are recommendations. */
  function KeyRecommendations(recs: seq<string>): Option<string> {
    if |recs| == 0 then None else Some(Join(Take(recs, 2), "; "))
  }

  /** The key recommendations are the first recommendation, or the first
      two separated by "; ", and are left out when there are none. */
  lemma KeyRecommendationsSpec(recs: seq<string>)
    ensures KeyRecommendations(recs).None? <==> |recs| == 0
    ensures |recs| == 1 ==> KeyRecommendations(recs) == Some(recs[0])
    ensures |recs| >= 2 ==> KeyRecommendations(recs) == Some(recs[0] + "; " + recs[1])
  {
    if |recs| >= 2 {
      var t := Take(recs, 2);
      assert t == [recs[0], recs[1]];
      assert t[1..] == [recs[1]];
      assert Join(t, "; ") == t[0] + "; " + Join(t[1..], "; ");
    }
  }

  function PipelineDigest(a: Analysis): string {
    ("\n" + a.pipelineKey + ":\n" + "  Summary: " + a.summary + "\n")
      + (match KeyRecommendations(a.recommendations)
         case None => ""
         case Some(t) => "  Key Recommendations: " + t + "\n")
  }

  function StatsDigest(f: Figures, bugCount: string): string {
    "\nPIPELINE STATISTICS:\n- Total Pipelines: " + f.pipelines
      + ("\n- Total Runs Analyzed: " + f.runs
      + ("\n- Average Run Duration: " + f.avgSeconds + " seconds (" + f.avgMinutes + " minutes)"
      + ("\n- Total Errors Found: " + f.errors + "\n- Completed Runs: " + f.completed
      + "\n\nCRITICAL ISSUES (" + bugCount + " total):\n")))
  }

  const AnalysesHeading := "\nPIPELINE ANALYSIS SUMMARIES:\n"

  function PipelineDigests(analyses: seq<Analysis>): (r: seq<string>)
    ensures |r| == |analyses|
  {
    seq(|analyses|, i requires 0 <= i < |analyses| => PipelineDigest(analyses[i]))
  }

  /** The data part of the prompt sent to the AI service for the report,
      from the rendered statistics. */
  function DataSummary(f: Figures, bugs: seq<Bug>, analyses: seq<Analysis>): string {
    Flatten([StatsDigest(f, IntToString(|bugs|))] + DigestLines(bugs) + [AnalysesHeading] + PipelineDigests(analyses))
  }

  /** The digest names each of the first five bugs, and at most five. */
  lemma DigestNamesTopBugs(f: Figures, bugs: seq<Bug>, analyses: seq<Analysis>, i: nat)
    requires i < |bugs| && i < 5
    ensures |DigestLines(bugs)| <= 5
    ensures Contains(DataSummary(f, bugs, analyses), DigestLine(bugs[i]))
  {
    var lines := DigestLines(bugs);
    MiddleSection(StatsDigest(f, IntToString(|bugs|)), lines, AnalysesHeading, PipelineDigests(analyses), i);
  }

  /** Each of the middle sections sits inside the concatenation. */
  lemma MiddleSection(head: string, mid: seq<string>, sep: string, tail: seq<string>, k: nat)
    requires k < |mid|
    ensures Contains(Flatten([head] + mid + [sep] + tail), mid[k])
  {
    var parts := [head] + mid + [sep] + tail;
    assert parts[k + 1] == mid[k];
    FlattenContains(parts, k + 1);
  }

  // ---------------------------------------------------------------------------
  // The fallback template

  const ReportTitle := "# CI/CD Pipeline Report"
  const MetricTableHead := "| Metric | Value |"
  const NoIssuesLine := "No critical issues detected. ✅\n\n"
  const RecommendationsHeading := "## Recommendations\n\n"
  const DefaultRecommendationLine := "Continue monitoring pipeline performance and maintain current practices.\n"
  const StatusHeading := "\n## Individual Pipeline Status\n\n"
  const ReportFooter := "---\n*Report generated automatically by Pipeline Assistant*\n"

  /** The statistics as the report prints them. */
  datatype Figures = Figures(
    pipelines: string,
    runs: string,
    avgSeconds: string,
    avgMinutes: string,
    errors: string,
    completed: string,
    successRate: string)

  /** Rendering of the statistics: integers in decimal, the average also
      in whole minutes (`// 60`), and the success rate
      `((completed - errors) / max(completed, 1) * 100):.1f`. */
  function FiguresOf(stats: Stats): Figures {
    Figures(
      IntToString(stats.pipelinesTotal),
      IntToString(stats.runsTotal),
      IntToString(stats.avgDurationSeconds),
      IntToString(stats.avgDurationSeconds / 60),
      IntToString(stats.errorsTotal),
      IntToString(stats.completedRuns),
      FormatTenths(100 * (stats.completedRuns - stats.errorsTotal), Max1(stats.completedRuns)))
  }

  // The fixed pieces of the executive summary and the metric table.
  const GeneratedOn := "\n*Generated on "
  const SummaryHeading := "*\n\n## Executive Summary\n\nAnalysis of **"
  const PipelinesWith := " pipelines** with **"
  const RunsShows := " total runs** shows:\n- Average execution time: **"
  const MinutesErrors := " minutes**\n- Total errors detected: **"
  const ErrorsRate := "**\n- Success rate: **"
  const RateOverview := "%**\n\n## Pipeline Performance Overview\n\n"
  const PipelinesRow := "\n|--------|--------|\n| Total Pipelines | "
  const RunsRow := " |\n| Total Runs | "
  const DurationRow := " |\n| Average Duration | "
  const SecondsMinutes := "s ("
  const ErrorsRow := "m) |\n| Total Errors | "
  const CompletedRow := " |\n| Completed Runs | "
  const IssuesHeading := " |\n\n## Critical Issues\n\n"

  function ExecutiveSummary(f: Figures, now: string): string {
    GeneratedOn + now + SummaryHeading + f.pipelines + PipelinesWith + f.runs + RunsShows
      + f.avgMinutes + MinutesErrors + f.errors + ErrorsRate + f.successRate + RateOverview
  }

  function PerformanceTable(f: Figures): string {
    MetricTableHead + TableRows(f)
  }

  function TableRows(f: Figures): string {
    PipelinesRow + f.pipelines + RunsRow + f.runs + DurationRow + f.avgSeconds + SecondsMinutes
      + f.avgMinutes + ErrorsRow + f.errors + CompletedRow + f.completed + IssuesHeading
  }

  function SeverityIcon(s: Severity): string {
    match s
    case High => "🔴"
    case Medium => "🟡"
    case Low => "🟢"
  }

  /** `severity.title()`. */
  function SeverityTitle(s: Severity): string {
    match s
    case High => "High"
    case Medium => "Medium"
    case Low => "Low"
  }

  /** The entry of the `n`-th listed bug. */
  function BugItem(n: nat, b: Bug): string {
    IntToString(n) + ". " + SeverityIcon(b.severity) + " **" + b.pipelineKey + "**: " + b.errorMessage + "\n"
      + ("   - Frequency: " + IntToString(b.frequency) + " occurrences\n"
      + "   - Severity: " + SeverityTitle(b.severity) + "\n\n")
  }

  /** The entries of the first five bugs, numbered from 1. */
  function BugItems(bugs: seq<Bug>): (r: seq<string>)
    ensures |r| == |Take(bugs, 5)|
    ensures forall i :: 0 <= i < |r| ==> r[i] == BugItem(i + 1, bugs[i])
  {
    seq(|Take(bugs, 5)|, i requires 0 <= i < |Take(bugs, 5)| => BugItem(i + 1, bugs[i]))
  }

  function IssuesSection(bugs: seq<Bug>): string {
    if |bugs| > 0 then IssuesIntro(|bugs|) + Flatten(BugItems(bugs)) else NoIssuesLine
  }

  function IssuesIntro(n: int): string {
    "Found **" + IntToString(n) + " critical issues** requiring attention:\n\n"
  }

  /** The recommendations of all analyses, duplicates dropped, first-seen
      order kept (`dict.fromkeys`). */
  function UniqueRecommendations(analyses: seq<Analysis>): seq<string> {
    Distinct(AllRecommendations(analyses))
  }

  /** The numbered entries of the first five recommendations. */
  function RecommendationItems(recs: seq<string>): (r: seq<string>)
    ensures |r| == |Take(recs, 5)|
    ensures forall i :: 0 <= i < |r| ==> r[i] == IntToString(i + 1) + ". " + recs[i] + "\n"
  {
    seq(|Take(recs, 5)|, i requires 0 <= i < |Take(recs, 5)| => IntToString(i + 1) + ". " + recs[i] + "\n")
  }

  function RecommendationsSection(analyses: seq<Analysis>): string {
    var unique := UniqueRecommendations(analyses);
    RecommendationsHeading
      + (if |unique| > 0 then Flatten(RecommendationItems(unique)) else DefaultRecommendationLine)
  }

  /** The status icon of a summary: healthy words first, then worrying ones. */
  function StatusIcon(summary: string): string {
    var text := Lower(summary);
    if Contains(text, "excellent") || Contains(text, "good") then "✅"
    else if Contains(text, "concerning") || Contains(text, "poor") then "⚠️"
    else "ℹ️"
  }

  function StatusBlock(a: Analysis): string {
    "### " + StatusIcon(a.summary) + " " + a.pipelineKey + "\n" + a.summary + "\n\n"
  }

  function StatusBlocks(analyses: seq<Analysis>): (r: seq<string>)
    ensures |r| == |analyses|
    ensures forall i :: 0 <= i < |analyses| ==> r[i] == StatusBlock(analyses[i])
  {
    seq(|analyses|, i requires 0 <= i < |analyses| => StatusBlock(analyses[i]))
  }

  function StatusSection(analyses: seq<Analysis>): string {
    StatusHeading + Flatten(StatusBlocks(analyses))
  }

  /** The sections of the fallback report, in order. */
  function FallbackSections(f: Figures, bugs: seq<Bug>, analyses: seq<Analysis>, now: string): (r: seq<string>)
    ensures |r| == 7 && r[0] == ReportTitle
  {
    [ReportTitle, ExecutiveSummary(f, now), PerformanceTable(f), IssuesSection(bugs),
     RecommendationsSection(analyses), StatusSection(analyses), ReportFooter]
  }

  /** `_generate_fallback_report(stats, bugs, analyses)` generated at `now`. */
  function FallbackReport(f: Figures, bugs: seq<Bug>, analyses: seq<Analysis>, now: string): string {
    Flatten(FallbackSections(f, bugs, analyses, now))
  }

  /** The fallback report opens with its title and holds the metric table. */
  lemma FallbackShape(f: Figures, bugs: seq<Bug>, analyses: seq<Analysis>, now: string)
    ensures IsPrefix(ReportTitle, FallbackReport(f, bugs, analyses, now))
    ensures Contains(FallbackReport(f, bugs, analyses, now), MetricTableHead)
  {
    FallbackTitle(f, bugs, analyses, now);
    FallbackTable(f, bugs, analyses, now);
  }

  lemma FallbackTitle(f: Figures, bugs: seq<Bug>, analyses: seq<Analysis>, now: string)
    ensures IsPrefix(ReportTitle, FallbackReport(f, bugs, analyses, now))
  {
    var ss := FallbackSections(f, bugs, analyses, now);
    PrefixOfAppend(ReportTitle, ReportTitle, Flatten(ss[1..]));
  }

  lemma FallbackTable(f: Figures, bugs: seq<Bug>, analyses: seq<Analysis>, now: string)
    ensures Contains(FallbackReport(f, bugs, analyses, now), MetricTableHead)
  {
    HoldsTable(ReportTitle, ExecutiveSummary(f, now), TableRows(f),
      IssuesSection(bugs), RecommendationsSection(analyses), StatusSection(analyses));
  }

  /** Sections around a metric table: the whole holds the table's head. */
  lemma HoldsTable(title: string, summary: string, rows: string, issues: string, recs: string, status: string)
    ensures Contains(Flatten([title, summary, MetricTableHead + rows, issues, recs, status, ReportFooter]), MetricTableHead)
  {
    var table := MetricTableHead + rows;
    PrefixOfAppend(MetricTableHead, MetricTableHead, rows);
    ContainsPrefix(table, MetricTableHead);
    ContainsInSection([title, summary, table, issues, recs, status, ReportFooter], 2, MetricTableHead);
  }

  /** The report lists each of the first five bugs, numbered, with its
      icon, and at most five. */
  lemma FallbackListsBugs(f: Figures, bugs: seq<Bug>, analyses: seq<Analysis>, now: string, i: nat)
    requires i < |bugs| && i < 5
    ensures |BugItems(bugs)| <= 5
    ensures Contains(FallbackReport(f, bugs, analyses, now), BugItem(i + 1, bugs[i]))
  {
    IssuesSectionLists(bugs, i);
    ContainsInSection(FallbackSections(f, bugs, analyses, now), 3, BugItem(i + 1, bugs[i]));
  }

  lemma IssuesSectionLists(bugs: seq<Bug>, i: nat)
    requires i < |bugs| && i < 5
    ensures Contains(IssuesSection(bugs), BugItem(i + 1, bugs[i]))
  {
    var items := BugItems(bugs);
    FlattenContains(items, i);
    ContainsExtend(IssuesIntro(|bugs|), Flatten(items), "", items[i]);
    assert IssuesSection(bugs) == IssuesIntro(|bugs|) + Flatten(items) + "";
  }

  /** Without bugs the report says that no issue was found. */
  lemma FallbackNoBugs(f: Figures, analyses: seq<Analysis>, now: string)
    ensures Contains(FallbackReport(f, [], analyses, now), NoIssuesLine)
  {
    ContainsSplit("", NoIssuesLine, "", NoIssuesLine);
    ContainsInSection(FallbackSections(f, [], analyses, now), 3, NoIssuesLine);
  }

  /** The listed recommendations: at most five, none twice, each one some
      analysis made, in the order first made; every recommendation made is
      listed unless five already are; the default line when none was made. */
  lemma FallbackRecommendations(analyses: seq<Analysis>)
    ensures var unique := UniqueRecommendations(analyses);
      var listed := Take(unique, 5);
      && |listed| <= 5
      && (forall i, j :: 0 <= i < j < |listed| ==> listed[i] != listed[j])
      && (forall i :: 0 <= i < |listed| ==> listed[i] in AllRecommendations(analyses))
      && (forall i, j :: 0 <= i < j < |listed| ==>
            FirstIndex(AllRecommendations(analyses), listed[i]) < FirstIndex(AllRecommendations(analyses), listed[j]))
      && (forall r :: r in AllRecommendations(analyses) && |unique| <= 5 ==> r in listed)
    ensures |AllRecommendations(analyses)| == 0 ==>
      RecommendationsSection(analyses) == RecommendationsHeading + DefaultRecommendationLine
  {
    DistinctFirstSeen(AllRecommendations(analyses));
    var all := AllRecommendations(analyses);
    var unique := UniqueRecommendations(analyses);
    forall r | r in all && |unique| <= 5 ensures r in Take(unique, 5) {
      var k :| 0 <= k < |all| && all[k] == r;
    }
  }

  /** Each analysis gets a status block, in the sorted order. */
  lemma FallbackStatusBlocks(f: Figures, bugs: seq<Bug>, analyses: seq<Analysis>, now: string, i: nat)
    requires i < |analyses|
    ensures Contains(FallbackReport(f, bugs, analyses, now), StatusBlock(analyses[i]))
  {
    var blocks := StatusBlocks(analyses);
    FlattenContains(blocks, i);
    ContainsExtend(StatusHeading, Flatten(blocks), "", blocks[i]);
    assert StatusSection(analyses) == StatusHeading + Flatten(blocks) + "";
    ContainsInSection(FallbackSections(f, bugs, analyses, now), 5, StatusBlock(analyses[i]));
  }

  /** A summary mentioning "excellent" or "good" in any case gets ✅; one
      mentioning neither but "concerning" or "poor" gets ⚠️. */
  lemma StatusIconSpec(summary: string)
    ensures StatusIcon(summary) == "✅" <==> Contains(Lower(summary), "excellent") || Contains(Lower(summary), "good")
    ensures StatusIcon(summary) == "⚠️" <==>
      !Contains(Lower(summary), "excellent") && !Contains(Lower(summary), "good")
      && (Contains(Lower(summary), "concerning") || Contains(Lower(summary), "poor"))
  {
  }

  // ---------------------------------------------------------------------------
  // aggregate_and_report

  datatype Report = Report(stats: Stats, bugsSummary: seq<Bug>, markdown: string)

  function AnalysisKey(a: Analysis): string {
    a.pipelineKey
  }

  function LogKey(l: PipelineLog): string {
    l.pipelineKey
  }

  function SortAnalyses(analyses: seq<Analysis>): seq<Analysis> {
    Sort(analyses, AnalysisKey, StrLe)
  }

  function SortLogs(logs: seq<PipelineLog>): seq<PipelineLog> {
    Sort(logs, LogKey, StrLe)
  }

  /** `aggregate_and_report(analyses, logs)`: `ai` is what the AI service
      answered for the report (its text, or the failure that sends the
      report to the template) and `now` the generation time. An error entry
      that is not an object fails the bug extraction, which nothing here
      catches. */
  function AggregateAndReport(analyses: seq<Analysis>, logs: seq<PipelineLog>, ai: Result<string, string>, now: string): Result<Report, string> {
    var sorted := SortAnalyses(analyses);
    var sortedLogs := SortLogs(logs);
    var stats := StatsOf(|sorted|, sortedLogs);
    match ExtractBugs(sorted, sortedLogs)
    case Failure(e) => Failure(e)
    case Success(bugs) =>
      var markdown := match ai
        case Success(text) => CloseReport(text)
        case Failure(_) => FallbackReport(FiguresOf(stats), bugs, sorted, now);
      Success(Report(stats, bugs, markdown))
  }

  lemma AllCountedPermutation(a: seq<Analysis>, b: seq<Analysis>)
    requires multiset(a) == multiset(b)
    ensures AllCounted(a) <==> AllCounted(b)
  {
    forall i, j | AllCounted(a) && 0 <= i < |b| && 0 <= j < |b[i].topErrors| ensures b[i].topErrors[j].Counted? {
      assert b[i] in multiset(a);
      var k :| 0 <= k < |a| && a[k] == b[i];
    }
    forall i, j | AllCounted(b) && 0 <= i < |a| && 0 <= j < |a[i].topErrors| ensures a[i].topErrors[j].Counted? {
      assert a[i] in multiset(b);
      var k :| 0 <= k < |b| && b[k] == a[i];
    }
  }

  /** The report fails exactly when some error entry is not an object; it
      then carries the fleet summary's error. */
  lemma AggregateOutcome(analyses: seq<Analysis>, logs: seq<PipelineLog>, ai: Result<string, string>, now: string)
    ensures AggregateAndReport(analyses, logs, ai, now).Failure? <==> !AllCounted(analyses)
  {
    var sorted := SortAnalyses(analyses);
    AllCountedPermutation(analyses, sorted);
    ExtractBugsFailure(sorted, SortLogs(logs));
  }

  /** The statistics of the report are those of the logs in any order, so
      `runs_total` is the plain sum of the run counts; there is one bug per
      error entry, ranked. */
  lemma AggregateContent(analyses: seq<Analysis>, logs: seq<PipelineLog>, ai: Result<string, string>, now: string)
    requires AllCounted(analyses)
    ensures AggregateAndReport(analyses, logs, ai, now).Success?
    ensures var r := AggregateAndReport(analyses, logs, ai, now).value;
      && r.stats == StatsOf(|analyses|, logs)
      && r.stats.pipelinesTotal == |analyses|
      && r.stats.runsTotal == Sum(logs, RunStats.RunCount)
      && |r.bugsSummary| == Sum(analyses, EntryCount)
      && SortedBy(r.bugsSummary, BugKey, PairGe)
  {
    var sorted := SortAnalyses(analyses);
    var sortedLogs := SortLogs(logs);
    StatsOrderFree(|analyses|, sortedLogs, logs);
    AggregateOutcome(analyses, logs, ai, now);
    AllCountedPermutation(analyses, sorted);
    ExtractBugsSpec(sorted, sortedLogs);
    SumPermutation(sorted, analyses, EntryCount);
  }

  /** The Markdown is the AI's text plus one newline, or the template. */
  lemma AggregateMarkdown(analyses: seq<Analysis>, logs: seq<PipelineLog>, ai: Result<string, string>, now: string)
    requires AllCounted(analyses)
    ensures AggregateAndReport(analyses, logs, ai, now).Success?
    ensures var md := AggregateAndReport(analyses, logs, ai, now).value.markdown;
      && (ai.Success? ==> md == ai.value + "\n")
      && (ai.Failure? ==> IsPrefix(ReportTitle, md) && Contains(md, MetricTableHead))
  {
    AggregateOutcome(analyses, logs, ai, now);
    var r := AggregateAndReport(analyses, logs, ai, now).value;
    if ai.Success? {
      CloseReportAppends(ai.value);
    } else {
      FallbackShape(FiguresOf(r.stats), r.bugsSummary, SortAnalyses(analyses), now);
    }
  }

  // ---------------------------------------------------------------------------
  // Counting high-severity bugs in any order

  function EntryHighMark(e: TopError): int {
    if e.Counted? && DetermineSeverity(e.message, e.count) == High then 1 else 0
  }

  function AnalysisHigh(a: Analysis): int {
    Sum(a.topErrors, EntryHighMark)
  }

  lemma {:induction false} EntryBugsHigh(key: string, log: Option<PipelineLog>, es: seq<TopError>)
    ensures HighCount(EntryBugs(key, log, es)) == Sum(es, EntryHighMark)
  {
    if |es| > 0 {
      EntryBugsHigh(key, log, es[1..]);
      var rest := EntryBugs(key, log, es[1..]);
      if es[0].Counted? {
        SumAppend([MakeBug(key, log, es[0].message, es[0].count)], rest, HighMark);
      }
    }
  }

  /** The number of high-severity bugs depends only on the analyses' error
      entries, not on the logs. */
  lemma {:induction false} CollectedHigh(analyses: seq<Analysis>, logs: seq<PipelineLog>)
    ensures HighCount(CollectedBugs(analyses, logs)) == Sum(analyses, AnalysisHigh)
  {
    if |analyses| > 0 {
      var a := analyses[0];
      var head := EntryBugs(a.pipelineKey, LookupLog(logs, a.pipelineKey), a.topErrors);
      SumAppend(head, CollectedBugs(analyses[1..], logs), HighMark);
      EntryBugsHigh(a.pipelineKey, LookupLog(logs, a.pipelineKey), a.topErrors);
      CollectedHigh(analyses[1..], logs);
    }
  }

  /** The high-severity count of the extracted bugs, whatever the order of
      the analyses and logs. */
  lemma ExtractedHigh(analyses: seq<Analysis>, logs: seq<PipelineLog>)
    requires ExtractBugs(analyses, logs).Success?
    ensures HighCount(ExtractBugs(analyses, logs).value) == Sum(analyses, AnalysisHigh)
  {
    var c := CollectedBugs(analyses, logs);
    SumPermutation(Sort(c, BugKey, PairGe), c, HighMark);
    CollectedHigh(analyses, logs);
  }

  // ---------------------------------------------------------------------------
  // generate_daily_summary

  datatype DailyLevel = AllHealthy | MinorIssues | NeedsAttention

  /** Green at a success rate of at least 90% with no high bug, yellow at
      75% with at most one, red otherwise; the rate is
      `(completed - errors) / max(completed, 1) * 100`, compared exactly. */
  function DailyLevelOf(completed: int, errors: int, high: int): DailyLevel {
    var den := Max1(completed);
    if 100 * (completed - errors) >= 90 * den && high == 0 then AllHealthy
    else if 100 * (completed - errors) >= 75 * den && high <= 1 then MinorIssues
    else NeedsAttention
  }

  function DailyLevelRank(l: DailyLevel): int {
    match l
    case AllHealthy => 2
    case MinorIssues => 1
    case NeedsAttention => 0
  }

  function DailyLevelText(l: DailyLevel): string {
    match l
    case AllHealthy => "🟢 All systems healthy"
    case MinorIssues => "🟡 Minor issues detected"
    case NeedsAttention => "🔴 Issues require attention"
  }

  /** Fewer errors and fewer high-severity bugs never make the day look
      worse. */
  lemma DailyLevelMonotone(completed: int, e1: int, e2: int, h1: int, h2: int)
    requires e1 <= e2 && 0 <= h1 <= h2
    ensures DailyLevelRank(DailyLevelOf(completed, e1, h1)) >= DailyLevelRank(DailyLevelOf(completed, e2, h2))
  {
  }

  /** `generate_daily_summary(analyses, logs)`: unlike the report, it works
      on the analyses and logs in the order given. */
  function DailySummary(analyses: seq<Analysis>, logs: seq<PipelineLog>): Result<string, string> {
    var stats := StatsOf(|analyses|, logs);
    match ExtractBugs(analyses, logs)
    case Failure(e) => Failure(e)
    case Success(bugs) =>
      var high := HighCount(bugs);
      var c := stats.completedRuns;
      var e := stats.errorsTotal;
      Success(DailyLevelText(DailyLevelOf(c, e, high))
        + (" | " + IntToString(stats.pipelinesTotal) + " pipelines, " + IntToString(stats.runsTotal) + " runs, "
        + (FormatUnits(100 * (c - e), Max1(c)) + "% success rate, " + IntToString(high) + " critical issues")))
  }

  /** The daily summary opens with the level of its own counts. */
  lemma DailyOpens(analyses: seq<Analysis>, logs: seq<PipelineLog>)
    requires DailySummary(analyses, logs).Success?
    ensures var stats := StatsOf(|analyses|, logs);
      IsPrefix(DailyLevelText(DailyLevelOf(stats.completedRuns, stats.errorsTotal, HighCount(ExtractBugs(analyses, logs).value))),
               DailySummary(analyses, logs).value)
  {
    var bugs := ExtractBugs(analyses, logs).value;
    var stats := StatsOf(|analyses|, logs);
    var c := stats.completedRuns;
    var e := stats.errorsTotal;
    var head := DailyLevelText(DailyLevelOf(c, e, HighCount(bugs)));
    var rest := " | " + IntToString(stats.pipelinesTotal) + " pipelines, " + IntToString(stats.runsTotal) + " runs, "
      + (FormatUnits(100 * (c - e), Max1(c)) + "% success rate, " + IntToString(HighCount(bugs)) + " critical issues");
    PrefixOfAppend(head, head, rest);
  }

  /** The daily summary, over the analyses and logs in the order given,
      counts the same high-severity bugs and has the same statistics as the
      report, which sorts them first. */
  lemma DailyCounts(analyses: seq<Analysis>, logs: seq<PipelineLog>, ai: Result<string, string>, now: string)
    requires DailySummary(analyses, logs).Success?
    ensures AggregateAndReport(analyses, logs, ai, now).Success?
    ensures var r := AggregateAndReport(analyses, logs, ai, now).value;
      && r.stats == StatsOf(|analyses|, logs)
      && HighCount(r.bugsSummary) == HighCount(ExtractBugs(analyses, logs).value)
  {
    var sorted := SortAnalyses(analyses);
    var sortedLogs := SortLogs(logs);
    ExtractBugsFailure(analyses, logs);
    AggregateOutcome(analyses, logs, ai, now);
    AggregateContent(analyses, logs, ai, now);
    ExtractedHigh(analyses, logs);
    ExtractedHigh(sorted, sortedLogs);
    SumPermutation(sorted, analyses, AnalysisHigh);
  }

  /** The daily summary fails exactly when the report does, and otherwise
      opens with the level that the report's own counts give. */
  lemma DailyMatchesReport(analyses: seq<Analysis>, logs: seq<PipelineLog>, ai: Result<string, string>, now: string)
    ensures DailySummary(analyses, logs).Failure? <==> AggregateAndReport(analyses, logs, ai, now).Failure?
    ensures DailySummary(analyses, logs).Success? ==>
      var r := AggregateAndReport(analyses, logs, ai, now).value;
      IsPrefix(DailyLevelText(DailyLevelOf(r.stats.completedRuns, r.stats.errorsTotal, HighCount(r.bugsSummary))),
               DailySummary(analyses, logs).value)
  {
    ExtractBugsFailure(analyses, logs);
    AggregateOutcome(analyses, logs, ai, now);
    if DailySummary(analyses, logs).Success? {
      DailyCounts(analyses, logs, ai, now);
      DailyOpens(analyses, logs);
    }
  }
}
