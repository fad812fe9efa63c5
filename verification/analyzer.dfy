/** The analyzer agent: validation of an AI analysis, the heuristic analysis
    used when the AI path fails, the batch wrapper that yields one analysis
    per pipeline, and the fleet-wide summary. The AI call itself is an input:
    either the parsed response or the exception it raised. */
module Analyzer {
  import opened Wrappers
  import opened Seqs
  import opened Strings
  import opened Numbers
  import opened Counting
  import opened Logs
  import opened RunStats

  // ---------------------------------------------------------------------------
  // Analyses

  /** A `top_errors` entry that is not an object: a JSON text or another JSON
      value, known by its Python type name. */
  datatype RawEntry = JsonText(text: string) | JsonOther(typeName: string)

  /** An entry of `top_errors` after validation: an object with a message and
      a count, or a value validation left untouched. */
  datatype TopError = Counted(message: string, count: int) | Uncounted(raw: RawEntry)

  /** The analysis of one pipeline. */
  datatype Analysis = Analysis(
    pipelineKey: string,
    summary: string,
    topErrors: seq<TopError>,
    recommendations: seq<string>)

  /** Python's type name of a non-object entry. */
  function TypeName(raw: RawEntry): string {
    match raw
    case JsonText(_) => "str"
    case JsonOther(t) => t
  }

  /** The message of `e.get(...)` on an entry that is not an object. */
  function NoGetMessage(raw: RawEntry): string {
    "'" + TypeName(raw) + "' object has no attribute 'get'"
  }

  // ---------------------------------------------------------------------------
  // The AI response and its validation

  /** A `top_errors` entry as the AI returned it. */
  datatype RawTopError =
    | ErrorObject(message: Option<string>, count: Option<int>)
    | ErrorText(text: string)
    | ErrorOther(typeName: string)

  /** A field that should hold a list, and may hold something else. */
  datatype JsonList<T> = Array(items: seq<T>) | NotArray

  /** The parsed AI answer: not a JSON object at all, or an object with some
      of the four required fields. */
  datatype AiResponse =
    | NotObject
    | Parsed(
        hasPipelineKey: bool,
        summary: Option<string>,
        topErrors: Option<JsonList<RawTopError>>,
        recommendations: Option<JsonList<string>>)

  /** The exception classes the analyzer distinguishes. */
  datatype ExceptionKind = AzureAIError | ValueError | KeyError | TypeError | OtherException

  /** What the AI call produced. */
  datatype AiOutcome = AiAnswered(response: AiResponse) | AiRaised(kind: ExceptionKind, message: string)

  predicate HasRequiredKeys(resp: AiResponse) {
    resp.Parsed? && resp.hasPipelineKey && resp.summary.Some?
    && resp.topErrors.Some? && resp.recommendations.Some?
  }

  /** An entry after the in-place repair: only objects are repaired, other
      values survive as they are. */
  function RepairEntry(e: RawTopError): TopError {
    match e
    case ErrorObject(m, c) => Counted(m.GetOr("Unknown error"), c.GetOr(1))
    case ErrorText(s) => Uncounted(JsonText(s))
    case ErrorOther(t) => Uncounted(JsonOther(t))
  }

  function ListOrEmpty<T>(l: JsonList<T>): seq<T> {
    match l
    case Array(items) => items
    case NotArray => []
  }

  /** Validation of an AI response for pipeline `key`; `None` sends the
      analysis to the heuristic. */
  function Validate(key: string, resp: AiResponse): Option<Analysis> {
    if !HasRequiredKeys(resp) then None
    else
      var entries := ListOrEmpty(resp.topErrors.value);
      Some(Analysis(
        key,
        resp.summary.value,
        seq(|entries|, i requires 0 <= i < |entries| => RepairEntry(entries[i])),
        ListOrEmpty(resp.recommendations.value)))
  }

  /** What validation promises: it accepts exactly the responses with the four
      keys, forces the pipeline key, keeps the summary, empties non-list
      fields, fills defaults into object entries and leaves every other entry
      as it came, position by position. */
  lemma ValidateSpec(key: string, resp: AiResponse)
    ensures Validate(key, resp).Some? <==> HasRequiredKeys(resp)
    ensures Validate(key, resp).Some? ==>
      var a := Validate(key, resp).value;
      && a.pipelineKey == key
      && a.summary == resp.summary.value
      && (resp.topErrors.value.NotArray? ==> a.topErrors == [])
      && (resp.recommendations.value.NotArray? ==> a.recommendations == [])
      && (resp.recommendations.value.Array? ==> a.recommendations == resp.recommendations.value.items)
      && (resp.topErrors.value.Array? ==>
            |a.topErrors| == |resp.topErrors.value.items|
            && forall i :: 0 <= i < |a.topErrors| ==>
                 match resp.topErrors.value.items[i]
                 case ErrorObject(m, c) =>
                   a.topErrors[i] == Counted(if m.Some? then m.value else "Unknown error", if c.Some? then c.value else 1)
                 case ErrorText(s) => a.topErrors[i] == Uncounted(JsonText(s))
                 case ErrorOther(t) => a.topErrors[i] == Uncounted(JsonOther(t)))
  {
  }

  /** A bare-string entry is not rewritten into an object: it is still a
      string after validation. */
  lemma BareStringSurvives(key: string, summary: string, text: string, recs: seq<string>)
    ensures Validate(key, Parsed(true, Some(summary), Some(Array([ErrorText(text)])), Some(Array(recs))))
      == Some(Analysis(key, summary, [Uncounted(JsonText(text))], recs))
  {
    var entries := [ErrorText(text)];
    assert seq(|entries|, i requires 0 <= i < |entries| => RepairEntry(entries[i])) == [Uncounted(JsonText(text))];
  }

  // ---------------------------------------------------------------------------
  // The heuristic analysis

  /** The health tier of `s` successes in `t` runs: 90%, 75% and 50% are the
      thresholds. */
  function Tier(s: int, t: int): string
    requires t > 0
  {
    if 100 * s >= 90 * t then "excellent"
    else if 100 * s >= 75 * t then "good"
    else if 100 * s >= 50 * t then "concerning"
    else "poor"
  }

  function TierRank(tier: string): int {
    if tier == "excellent" then 3
    else if tier == "good" then 2
    else if tier == "concerning" then 1
    else 0
  }

  /** More successes never give a worse tier. */
  lemma TierMonotone(s1: int, s2: int, t: int)
    requires t > 0 && s1 <= s2
    ensures TierRank(Tier(s1, t)) <= TierRank(Tier(s2, t))
  {
  }

  /** The recommendation rules, in the order they are checked. */
  datatype Rule =
    | InvestigateFailures
    | AddressTopErrors
    | OptimizeBuildSteps
    | ImmediateAttention
    | MonitorRunning
    | ReviewTimeouts
    | TestStability
    | NetworkConnectivity

  const AllRules: seq<Rule> := [
    InvestigateFailures, AddressTopErrors, OptimizeBuildSteps, ImmediateAttention,
    MonitorRunning, ReviewTimeouts, TestStability, NetworkConnectivity]

  const InvestigateText := "Investigate recurring failures to improve pipeline stability"
  const AddressText := "Address top error patterns to reduce failure rate"
  const OptimizeText := "Consider optimizing build steps to reduce execution time"
  const ImmediateText := "Pipeline requires immediate attention due to high failure rate"
  const MonitorRunningText := "Monitor currently running builds for potential issues"
  const TimeoutsText := "Review timeout configurations and resource allocation"
  const TestStabilityText := "Focus on test stability and test environment configuration"
  const NetworkText := "Investigate network connectivity and service dependencies"

  function RuleText(r: Rule): string {
    match r
    case InvestigateFailures => InvestigateText
    case AddressTopErrors => AddressText
    case OptimizeBuildSteps => OptimizeText
    case ImmediateAttention => ImmediateText
    case MonitorRunning => MonitorRunningText
    case ReviewTimeouts => TimeoutsText
    case TestStability => TestStabilityText
    case NetworkConnectivity => NetworkText
  }

  const PerformingWell := "Pipeline performing well, continue monitoring"
  const MonitorTrends := "Monitor pipeline trends and investigate any performance degradation"
  const NoDataRecommendation := "Configure pipeline to capture execution logs"

  /** The most frequent error messages of the runs, at most five. */
  function TopErrorsOf(runs: seq<Run>): seq<TopError> {
    CountedTop(ErrorMessages(runs))
  }

  /** `most_common(5)` of a list of messages, as counted entries. */
  function CountedTop(ms: seq<string>): seq<TopError> {
    var top := MostCommon(ms, 5);
    seq(|top|, i requires 0 <= i < |top| => Counted(top[i].item, top[i].count))
  }

  /** All error messages, joined by spaces and lower-cased: the text the
      keyword rules search. */
  function KeywordText(runs: seq<Run>): string {
    Lower(Join(ErrorMessages(runs), " "))
  }

  /** Whether a rule fires for the given runs. */
  predicate RuleHolds(r: Rule, runs: seq<Run>) {
    var t := |runs|;
    var s := CountStatus(runs, Succeeded);
    var f := CountStatus(runs, Failed);
    var c := Completed(runs);
    var text := KeywordText(runs);
    match r
    case InvestigateFailures => 100 * s < 75 * t
    case AddressTopErrors => |TopErrorsOf(runs)| > 0
    case OptimizeBuildSteps => c > 0 && TotalDuration(runs) > 1800 * c
    case ImmediateAttention => f > s
    case MonitorRunning => CountStatus(runs, InProgress) > 0
    case ReviewTimeouts => Contains(text, "timeout")
    case TestStability => Contains(text, "test") && Contains(text, "failed")
    case NetworkConnectivity => Contains(text, "connection") || Contains(text, "network")
  }

  /** The rules of `rules` that fire, in order. */
  function Fired(rules: seq<Rule>, runs: seq<Run>): (r: seq<Rule>)
    ensures |r| <= |rules|
  {
    if |rules| == 0 then []
    else (if RuleHolds(rules[0], runs) then [rules[0]] else []) + Fired(rules[1..], runs)
  }

  /** The firing rules that survive the cut to five recommendations. */
  function KeptRules(runs: seq<Run>): seq<Rule> {
    Take(Fired(AllRules, runs), 5)
  }

  function RuleTexts(rules: seq<Rule>): (r: seq<string>)
    ensures |r| == |rules|
    ensures forall i :: 0 <= i < |rules| ==> r[i] == RuleText(rules[i])
  {
    seq(|rules|, i requires 0 <= i < |rules| => RuleText(rules[i]))
  }

  /** The recommendation when no rule fires. */
  function DefaultRecommendation(runs: seq<Run>): string
    requires |runs| > 0
  {
    if 100 * CountStatus(runs, Succeeded) >= 90 * |runs| then PerformingWell else MonitorTrends
  }

  function HeuristicRecommendations(runs: seq<Run>): seq<string>
    requires |runs| > 0
  {
    var kept := KeptRules(runs);
    if |kept| == 0 then [DefaultRecommendation(runs)] else RuleTexts(kept)
  }

  const AverageHead := "Average execution time is "
  const FailuresTail := " recent failures requiring attention"

  /** The opening sentence: tier, success percentage and run counts. */
  function RatePart(s: nat, t: nat): string
    requires t > 0
  {
    ("Pipeline shows " + Tier(s, t) + " health with ")
    + (FormatTenths(100 * s, t) + "% success rate (" + NatToString(s) + "/" + NatToString(t) + " runs)")
  }

  /** The average-duration sentence, in whole minutes rounded down. */
  function AveragePart(d: int, c: int): string
    requires d >= 0 && c > 0
  {
    DivNonNegative(d, 60 * c);
    AverageHead + (NatToString(d / (60 * c)) + " minutes")
  }

  function FailuresPart(f: nat): string {
    NatToString(f) + FailuresTail
  }

  /** The sentences of the summary: the rate, then the average if any run
      finished, then the failures if any. */
  function SummaryParts(runs: seq<Run>): (r: seq<string>)
    requires |runs| > 0
    ensures |r| >= 1
  {
    var c := Completed(runs);
    var d := TotalDuration(runs);
    var f := CountStatus(runs, Failed);
    CompletedBounds(runs);
    [RatePart(CountStatus(runs, Succeeded), |runs|)]
    + (if d > 0 then [AveragePart(d, c)] else [])
    + (if f > 0 then [FailuresPart(f)] else [])
  }

  function HeuristicSummary(runs: seq<Run>): string
    requires |runs| > 0
  {
    Sentences(SummaryParts(runs))
  }

  /** Sentences joined by ". " and closed by a full stop. */
  function Sentences(parts: seq<string>): string {
    Join(parts, ". ") + "."
  }

  lemma SentencesOpen(parts: seq<string>)
    requires |parts| > 0
    ensures IsPrefix(parts[0], Sentences(parts))
  {
    JoinHead(parts, ". ");
    PrefixOfAppend(parts[0], Join(parts, ". "), ".");
  }

  lemma SentencesContain(parts: seq<string>, k: nat, pre: string, p: string, post: string)
    requires k < |parts| && parts[k] == pre + p + post
    ensures Contains(Sentences(parts), p)
  {
    var a, b := JoinAround(parts, ". ", k);
    ContainsSplit(a + pre, p, post + b + ".", Sentences(parts));
  }

  lemma SentencesEnd(parts: seq<string>, pre: string, p: string)
    requires |parts| > 0 && parts[|parts| - 1] == pre + p
    ensures Contains(Sentences(parts), p + ".")
  {
    var a := JoinTail(parts, ". ");
    ContainsSplit(a + pre, p + ".", "", Sentences(parts));
  }

  /** `_heuristic_analysis(logs)`. */
  function Heuristic(log: PipelineLog): (a: Analysis)
    ensures a.pipelineKey == log.pipelineKey
    ensures 1 <= |a.recommendations| <= 5
    ensures |a.topErrors| <= 5
  {
    if |log.runs| == 0 then
      Analysis(log.pipelineKey, "No execution data available for " + log.pipelineName, [], [NoDataRecommendation])
    else
      Analysis(log.pipelineKey, HeuristicSummary(log.runs), TopErrorsOf(log.runs), HeuristicRecommendations(log.runs))
  }

  /** A log without runs gets the no-data analysis: its name in the summary,
      no errors and the single advice to capture logs. */
  lemma HeuristicNoRuns(log: PipelineLog)
    requires |log.runs| == 0
    ensures Heuristic(log) == Analysis(log.pipelineKey, "No execution data available for " + log.pipelineName,
                                       [], ["Configure pipeline to capture execution logs"])
  {
  }

  /** The first five rules always survive the cut, so for them a
      recommendation is present exactly when its rule fires. Later rules are
      present only when they fire. */
  lemma {:induction false} FiredSpec(rules: seq<Rule>, runs: seq<Run>, r: Rule)
    ensures r in Fired(rules, runs) <==> r in rules && RuleHolds(r, runs)
  {
    if |rules| > 0 {
      FiredSpec(rules[1..], runs, r);
      assert rules == [rules[0]] + rules[1..];
    }
  }

  lemma {:induction false} FiredPrefix(rules: seq<Rule>, runs: seq<Run>, n: nat)
    requires n <= |rules|
    ensures |Fired(rules[..n], runs)| <= n
    ensures Fired(rules, runs) == Fired(rules[..n], runs) + Fired(rules[n..], runs)
  {
    if n > 0 {
      FiredPrefix(rules[1..], runs, n - 1);
      assert rules[1..][..n - 1] == rules[..n][1..];
      assert rules[1..][n - 1..] == rules[n..];
    }
  }

  lemma KeptRulesSpec(runs: seq<Run>, r: Rule)
    ensures r in AllRules[..5] ==> (r in KeptRules(runs) <==> RuleHolds(r, runs))
    ensures r in KeptRules(runs) ==> RuleHolds(r, runs)
    ensures |KeptRules(runs)| == 0 <==> forall q :: q in AllRules ==> !RuleHolds(q, runs)
  {
    var all := Fired(AllRules, runs);
    FiredPrefix(AllRules, runs, 5);
    var head := Fired(AllRules[..5], runs);
    assert all[..|head|] == head;
    FiredSpec(AllRules, runs, r);
    FiredSpec(AllRules[..5], runs, r);
    if |KeptRules(runs)| == 0 {
      forall q | q in AllRules ensures !RuleHolds(q, runs) {
        FiredSpec(AllRules, runs, q);
      }
    }
    if |KeptRules(runs)| > 0 {
      assert KeptRules(runs)[0] in all;
      FiredSpec(AllRules, runs, KeptRules(runs)[0]);
    }
  }

  /** The "optimize build steps" advice is given exactly when the average
      duration of finished runs exceeds 30 minutes. */
  lemma OptimizeIff(log: PipelineLog)
    requires |log.runs| > 0
    ensures RuleText(OptimizeBuildSteps) in Heuristic(log).recommendations
      <==> Completed(log.runs) > 0 && TotalDuration(log.runs) > 1800 * Completed(log.runs)
  {
    var runs := log.runs;
    assert AllRules[..5][2] == OptimizeBuildSteps;
    KeptRulesSpec(runs, OptimizeBuildSteps);
    var kept := KeptRules(runs);
    if |kept| == 0 {
      assert !RuleHolds(OptimizeBuildSteps, runs);
      assert Heuristic(log).recommendations == [DefaultRecommendation(runs)];
      assert RuleText(OptimizeBuildSteps) != PerformingWell;
      assert RuleText(OptimizeBuildSteps) != MonitorTrends;
    } else {
      if RuleText(OptimizeBuildSteps) in RuleTexts(kept) {
        var i :| 0 <= i < |kept| && RuleTexts(kept)[i] == RuleText(OptimizeBuildSteps);
        RuleTextInjective(kept[i], OptimizeBuildSteps);
      }
      if RuleHolds(OptimizeBuildSteps, runs) {
        var i :| 0 <= i < |kept| && kept[i] == OptimizeBuildSteps;
        assert RuleTexts(kept)[i] == RuleText(OptimizeBuildSteps);
      }
    }
  }

  /** Different rules give different advice. */
  lemma RuleTextInjective(a: Rule, b: Rule)
    requires RuleText(a) == RuleText(b)
    ensures a == b
  {
  }

  /** The advice falls back to a single default exactly when no rule fires,
      and the default praises the pipeline exactly when at least 90% of the
      runs succeeded. */
  lemma DefaultIff(log: PipelineLog)
    requires |log.runs| > 0
    ensures |KeptRules(log.runs)| == 0 <==> forall q :: q in AllRules ==> !RuleHolds(q, log.runs)
    ensures |KeptRules(log.runs)| == 0 ==>
      Heuristic(log).recommendations
        == [if 100 * CountStatus(log.runs, Succeeded) >= 90 * |log.runs| then PerformingWell else MonitorTrends]
    ensures |KeptRules(log.runs)| > 0 ==> Heuristic(log).recommendations == RuleTexts(KeptRules(log.runs))
  {
    KeptRulesSpec(log.runs, InvestigateFailures);
  }

  /** A message that mentions "timeout" in any letter case triggers the
      timeout advice. */
  lemma TimeoutMention(runs: seq<Run>, i: nat, j: nat)
    requires i < |runs| && j < |runs[i].errors|
    requires Contains(Lower(runs[i].errors[j].message), "timeout")
    ensures RuleHolds(ReviewTimeouts, runs)
  {
    var m := runs[i].errors[j].message;
    var ms := ErrorMessages(runs);
    ErrorMessagesSpec(runs, m);
    var k :| 0 <= k < |ms| && ms[k] == m;
    var a, b := JoinAround(ms, " ", k);
    LowerAppend(a + m, b);
    LowerAppend(a, m);
    ContainsExtend(Lower(a), Lower(m), Lower(b), "timeout");
  }

  /** The heuristic's error list is `Counter.most_common(5)` of the run error
      messages: at most five distinct messages that occur, with their exact
      counts, most frequent first, and ties in order of first appearance. */
  lemma TopErrorsSpec(runs: seq<Run>)
    ensures var top := TopErrorsOf(runs);
      var ms := ErrorMessages(runs);
      && |top| == (if |Distinct(ms)| < 5 then |Distinct(ms)| else 5)
      && (forall i :: 0 <= i < |top| ==>
            top[i].Counted? && top[i].message in ms && top[i].count == Occurrences(ms, top[i].message) >= 1)
      && (forall i, j :: 0 <= i < j < |top| ==> top[i].count >= top[j].count && top[i].message != top[j].message)
      && (forall i, j :: 0 <= i < j < |top| && top[i].count == top[j].count ==>
            FirstIndex(ms, top[i].message) < FirstIndex(ms, top[j].message))
  {
    var ms := ErrorMessages(runs);
    CountedTopLength(ms);
    CountedTopEntries(ms);
    CountedTopOrder(ms);
    CountedTopTies(ms);
  }

  lemma CountedTopLength(ms: seq<string>)
    ensures |CountedTop(ms)| == if |Distinct(ms)| < 5 then |Distinct(ms)| else 5
  {
    MostCommonSpec(ms, 5);
  }

  lemma CountedTopEntries(ms: seq<string>)
    ensures var top := CountedTop(ms);
      forall i :: 0 <= i < |top| ==>
        top[i].Counted? && top[i].message in ms && top[i].count == Occurrences(ms, top[i].message) >= 1
  {
    var mc := MostCommon(ms, 5);
    var top := CountedTop(ms);
    MostCommonSpec(ms, 5);
    forall i | 0 <= i < |top|
      ensures top[i].Counted? && top[i].message in ms && top[i].count == Occurrences(ms, top[i].message) >= 1
    {
      assert top[i] == Counted(mc[i].item, mc[i].count);
      assert mc[i].item in multiset(ms);
    }
  }

  lemma CountedTopOrder(ms: seq<string>)
    ensures var top := CountedTop(ms);
      forall i, j :: 0 <= i < j < |top| ==> top[i].count >= top[j].count && top[i].message != top[j].message
  {
    var mc := MostCommon(ms, 5);
    var top := CountedTop(ms);
    MostCommonSpec(ms, 5);
    forall i, j | 0 <= i < j < |top|
      ensures top[i].count >= top[j].count && top[i].message != top[j].message
    {
      assert top[i] == Counted(mc[i].item, mc[i].count);
      assert top[j] == Counted(mc[j].item, mc[j].count);
    }
  }

  lemma CountedTopTies(ms: seq<string>)
    ensures var top := CountedTop(ms);
      forall i, j :: 0 <= i < j < |top| && top[i].count == top[j].count ==>
        top[i].message in ms && top[j].message in ms
        && FirstIndex(ms, top[i].message) < FirstIndex(ms, top[j].message)
  {
    var mc := MostCommon(ms, 5);
    var top := CountedTop(ms);
    MostCommonRanked(ms, 5);
    forall i, j | 0 <= i < j < |top| && top[i].count == top[j].count
      ensures top[i].message in ms && top[j].message in ms
        && FirstIndex(ms, top[i].message) < FirstIndex(ms, top[j].message)
    {
      assert top[i] == Counted(mc[i].item, mc[i].count);
      assert top[j] == Counted(mc[j].item, mc[j].count);
    }
  }

  /** Every heuristic analysis lists exactly the most common run errors (none
      when there are no runs). */
  lemma HeuristicTopErrors(log: PipelineLog)
    ensures Heuristic(log).topErrors == TopErrorsOf(log.runs)
  {
    if |log.runs| == 0 {
      assert ErrorMessages(log.runs) == [];
      assert |Distinct(ErrorMessages(log.runs))| == 0;
      TopErrorsSpec(log.runs);
    }
  }

  /** The summary opens with the tier. */
  lemma SummaryOpens(runs: seq<Run>)
    requires |runs| > 0
    ensures IsPrefix("Pipeline shows " + Tier(CountStatus(runs, Succeeded), |runs|) + " health with ", HeuristicSummary(runs))
  {
    var parts := SummaryParts(runs);
    var s := CountStatus(runs, Succeeded);
    RatePartOpens(s, |runs|);
    SentencesOpen(parts);
    PrefixTransitive("Pipeline shows " + Tier(s, |runs|) + " health with ", parts[0], Sentences(parts));
  }

  lemma RatePartOpens(s: nat, t: nat)
    requires t > 0
    ensures IsPrefix("Pipeline shows " + Tier(s, t) + " health with ", RatePart(s, t))
  {
    var head := "Pipeline shows " + Tier(s, t) + " health with ";
    var rest := FormatTenths(100 * s, t) + "% success rate (" + NatToString(s) + "/" + NatToString(t) + " runs)";
    PrefixOfAppend(head, head, rest);
  }

  /** The summary reports failures whenever a run failed. */
  lemma SummaryFailures(runs: seq<Run>)
    requires |runs| > 0 && CountStatus(runs, Failed) > 0
    ensures Contains(HeuristicSummary(runs), FailuresTail + ".")
  {
    var parts := SummaryParts(runs);
    SentencesEnd(parts, NatToString(CountStatus(runs, Failed)), FailuresTail);
  }

  /** The summary reports the average duration whenever a run finished. */
  lemma SummaryAverage(runs: seq<Run>)
    requires |runs| > 0 && Completed(runs) > 0
    ensures Contains(HeuristicSummary(runs), AverageHead)
  {
    var parts := SummaryParts(runs);
    var c := Completed(runs);
    var d := TotalDuration(runs);
    CompletedBounds(runs);
    DivNonNegative(d, 60 * c);
    SentencesContain(parts, 1, "", AverageHead, NatToString(d / (60 * c)) + " minutes");
  }

  /** The last part of a join ends the joined text. */
  lemma {:induction false} JoinTail(parts: seq<string>, sep: string) returns (a: string)
    requires |parts| > 0
    ensures Join(parts, sep) == a + parts[|parts| - 1]
  {
    if |parts| == 1 {
      a := "";
    } else {
      var a' := JoinTail(parts[1..], sep);
      a := parts[0] + sep + a';
    }
  }

  // ---------------------------------------------------------------------------
  // One pipeline, and the batch

  /** `analyze_pipeline_logs(logs)`: the validated AI analysis, the heuristic
      when the AI failed in one of the expected ways or answered badly, and a
      failure carrying the message of any other exception. */
  function AnalyzePipelineLogs(log: PipelineLog, ai: AiOutcome): (r: Result<Analysis, string>)
    ensures r.Success? ==> r.value.pipelineKey == log.pipelineKey
    ensures r.Failure? <==> ai.AiRaised? && ai.kind == OtherException
  {
    match ai
    case AiRaised(kind, message) =>
      if kind == OtherException then Failure(message) else Success(Heuristic(log))
    case AiAnswered(resp) =>
      match Validate(log.pipelineKey, resp)
      case Some(a) => Success(a)
      case None => Success(Heuristic(log))
  }

  /** Each of the four expected exception kinds, and every badly formed
      answer, leads to the heuristic analysis. */
  lemma FallbackToHeuristic(log: PipelineLog, ai: AiOutcome)
    requires (ai.AiRaised? && ai.kind != OtherException) || (ai.AiAnswered? && !HasRequiredKeys(ai.response))
    ensures AnalyzePipelineLogs(log, ai) == Success(Heuristic(log))
  {
    if ai.AiAnswered? {
      ValidateSpec(log.pipelineKey, ai.response);
    }
  }

  const ManualInvestigation := "Manual investigation required due to analysis error"

  /** The stand-in analysis for a pipeline whose analysis raised. */
  function FailedAnalysis(key: string, message: string): Analysis {
    Analysis(key, "Analysis failed for " + key + ": " + message, [], [ManualInvestigation])
  }

  function AnalyzeOrReport(log: PipelineLog, ai: AiOutcome): (a: Analysis)
    ensures a.pipelineKey == log.pipelineKey
  {
    match AnalyzePipelineLogs(log, ai)
    case Success(a) => a
    case Failure(e) => FailedAnalysis(log.pipelineKey, e)
  }

  /** `analyze_multiple_pipelines(logs)`, with the AI outcome of each
      pipeline given by `ai`. */
  function AnalyzeMany(logs: seq<PipelineLog>, ai: PipelineLog -> AiOutcome): (r: seq<Analysis>)
    ensures |r| == |logs|
    ensures forall i :: 0 <= i < |logs| ==> r[i].pipelineKey == logs[i].pipelineKey
  {
    seq(|logs|, i requires 0 <= i < |logs| => AnalyzeOrReport(logs[i], ai(logs[i])))
  }

  /** The batch never drops an entry: a pipeline whose analysis raised gets
      the failure text and the manual-investigation advice. */
  lemma AnalyzeManyFailures(logs: seq<PipelineLog>, ai: PipelineLog -> AiOutcome, i: nat)
    requires i < |logs| && ai(logs[i]).AiRaised? && ai(logs[i]).kind == OtherException
    ensures AnalyzeMany(logs, ai)[i]
      == Analysis(logs[i].pipelineKey, "Analysis failed for " + logs[i].pipelineKey + ": " + ai(logs[i]).message,
                  [], ["Manual investigation required due to analysis error"])
  {
  }

  // ---------------------------------------------------------------------------
  // Fleet summary

  datatype CommonIssue = CommonIssue(issue: string, affectedPipelines: int)

  datatype FleetSummary = FleetSummary(
    totalPipelines: nat,
    overallHealth: string,
    commonIssues: seq<CommonIssue>,
    fleetRecommendations: seq<string>)

  /** The first entry of the analyses' error lists that is not an object, in
      analysis order and then list order. */
  function FirstUncounted(analyses: seq<Analysis>): (r: Option<RawEntry>) {
    if |analyses| == 0 then None
    else match FirstUncountedIn(analyses[0].topErrors)
      case Some(raw) => Some(raw)
      case None => FirstUncounted(analyses[1..])
  }

  function FirstUncountedIn(es: seq<TopError>): Option<RawEntry> {
    if |es| == 0 then None
    else if es[0].Uncounted? then Some(es[0].raw)
    else FirstUncountedIn(es[1..])
  }

  predicate AllCounted(analyses: seq<Analysis>) {
    forall i, j :: 0 <= i < |analyses| && 0 <= j < |analyses[i].topErrors| ==> analyses[i].topErrors[j].Counted?
  }

  lemma {:induction false} FirstUncountedInSpec(es: seq<TopError>)
    ensures FirstUncountedIn(es).None? <==> forall j :: 0 <= j < |es| ==> es[j].Counted?
  {
    if |es| > 0 {
      FirstUncountedInSpec(es[1..]);
      if es[0].Counted? && FirstUncountedIn(es[1..]).Some? {
        var j :| 0 <= j < |es[1..]| && !es[1..][j].Counted?;
        assert !es[j + 1].Counted?;
      }
    }
  }

  /** There is a non-object entry exactly when the scan finds one. */
  lemma {:induction false} FirstUncountedSpec(analyses: seq<Analysis>)
    ensures FirstUncounted(analyses).None? <==> AllCounted(analyses)
  {
    if |analyses| > 0 {
      FirstUncountedSpec(analyses[1..]);
      FirstUncountedInSpec(analyses[0].topErrors);
      if FirstUncountedIn(analyses[0].topErrors).None? && !AllCounted(analyses[1..]) {
        var i, j :| 0 <= i < |analyses[1..]| && 0 <= j < |analyses[1..][i].topErrors| && !analyses[1..][i].topErrors[j].Counted?;
        assert !analyses[i + 1].topErrors[j].Counted?;
      }
      if AllCounted(analyses) {
        assert forall j :: 0 <= j < |analyses[0].topErrors| ==> analyses[0].topErrors[j].Counted?;
        assert forall i, j :: (0 <= i < |analyses[1..]| && 0 <= j < |analyses[1..][i].topErrors|
          ==> analyses[1..][i].topErrors[j] == analyses[i + 1].topErrors[j]);
      }
    }
  }

  /** The messages of the counted entries. */
  function MessagesOfErrors(es: seq<TopError>): seq<string> {
    if |es| == 0 then []
    else (if es[0].Counted? then [es[0].message] else []) + MessagesOfErrors(es[1..])
  }

  function AllErrorMessages(analyses: seq<Analysis>): seq<string> {
    if |analyses| == 0 then [] else MessagesOfErrors(analyses[0].topErrors) + AllErrorMessages(analyses[1..])
  }

  function AllRecommendations(analyses: seq<Analysis>): seq<string> {
    if |analyses| == 0 then [] else analyses[0].recommendations + AllRecommendations(analyses[1..])
  }

  /** The counter entries seen more than once, in order. */
  function Repeated<T>(ts: seq<Tallied<T>>): (r: seq<Tallied<T>>)
    ensures |r| <= |ts|
    ensures forall i :: 0 <= i < |r| ==> r[i].count > 1 && r[i] in ts
  {
    if |ts| == 0 then []
    else (if ts[0].count > 1 then [ts[0]] else []) + Repeated(ts[1..])
  }

  /** A counter entry seen more than once is never filtered out. */
  lemma {:induction false} RepeatedKeeps<T>(ts: seq<Tallied<T>>, t: Tallied<T>)
    requires t in ts && t.count > 1
    ensures t in Repeated(ts)
  {
    if ts[0] != t {
      RepeatedKeeps(ts[1..], t);
    }
  }

  const HealthyKeywords: seq<string> := ["excellent", "good", "performing well", "consistent success"]
  const UnhealthyKeywords: seq<string> := ["poor", "concerning", "failures", "requires attention"]

  predicate MentionsAny(text: string, keywords: seq<string>) {
    exists k :: 0 <= k < |keywords| && Contains(text, keywords[k])
  }

  /** +1 for a healthy summary, -1 for an unhealthy one, 0 otherwise; the
      healthy words are checked first. */
  function SummaryScore(a: Analysis): int {
    var text := Lower(a.summary);
    if MentionsAny(text, HealthyKeywords) then 1
    else if MentionsAny(text, UnhealthyKeywords) then -1
    else 0
  }

  /** `good` above half the fleet, `concerning` below minus three tenths of
      it, else `mixed`. */
  function FleetHealth(score: int, n: nat): string {
    if 2 * score > n then "good"
    else if 10 * score < -3 * n then "concerning"
    else "mixed"
  }

  function CommonIssues(analyses: seq<Analysis>): seq<CommonIssue> {
    var top := Repeated(MostCommon(AllErrorMessages(analyses), 3));
    seq(|top|, i requires 0 <= i < |top| => CommonIssue(top[i].item, top[i].count))
  }

  function FleetRecommendations(analyses: seq<Analysis>): seq<string> {
    Take(Items(Repeated(MostCommon(AllRecommendations(analyses), 5))), 3)
  }

  /** `get_fleet_summary(analyses)`: fails, as `entry.get` does, on the first
      error entry that is not an object. */
  function GetFleetSummary(analyses: seq<Analysis>): (r: Result<FleetSummary, string>)
    ensures r.Failure? <==> |analyses| > 0 && !AllCounted(analyses)
    ensures r.Success? ==> r.value.totalPipelines == |analyses|
    ensures r.Success? && |analyses| > 0 ==>
      var score := Sum(analyses, SummaryScore);
      var n := |analyses|;
      && (r.value.overallHealth == "good" <==> 2 * score > n)
      && (r.value.overallHealth == "concerning" <==> 2 * score <= n && 10 * score < -3 * n)
      && (r.value.overallHealth == "mixed" <==> 2 * score <= n && 10 * score >= -3 * n)
      && r.value.commonIssues == CommonIssues(analyses)
      && r.value.fleetRecommendations == FleetRecommendations(analyses)
  {
    FirstUncountedSpec(analyses);
    if |analyses| == 0 then Success(FleetSummary(0, "unknown", [], []))
    else match FirstUncounted(analyses)
      case Some(raw) => Failure(NoGetMessage(raw))
      case None =>
        Success(FleetSummary(
          |analyses|,
          FleetHealth(Sum(analyses, SummaryScore), |analyses|),
          CommonIssues(analyses),
          FleetRecommendations(analyses)))
  }

  /** An empty fleet is summarized as unknown, with no issues and no advice. */
  lemma FleetSummaryEmpty()
    ensures GetFleetSummary([]) == Success(FleetSummary(0, "unknown", [], []))
  {
  }

  /** Every entry that survives the "more than once" filter carries the
      exact number of occurrences of its item, which is at least two. */
  lemma RepeatedCounts<T>(s: seq<T>, n: nat)
    ensures forall t :: t in Repeated(MostCommon(s, n)) ==> t.count == Occurrences(s, t.item) > 1
  {
    var top := MostCommon(s, n);
    MostCommonSpec(s, n);
    forall t | t in Repeated(top) ensures t.count == Occurrences(s, t.item) {
      var i :| 0 <= i < |top| && top[i] == t;
    }
  }

  /** With every count above one the filter keeps everything. */
  lemma {:induction false} RepeatedAll<T>(ts: seq<Tallied<T>>)
    requires forall i :: 0 <= i < |ts| ==> ts[i].count > 1
    ensures Repeated(ts) == ts
  {
    if |ts| > 0 {
      RepeatedAll(ts[1..]);
    }
  }

  /** The filter keeps a descending order of counts. */
  lemma {:induction false} RepeatedDescending<T>(ts: seq<Tallied<T>>)
    requires forall i, j :: 0 <= i < j < |ts| ==> ts[i].count >= ts[j].count
    ensures forall i, j :: 0 <= i < j < |Repeated(ts)| ==> Repeated(ts)[i].count >= Repeated(ts)[j].count
  {
    if |ts| > 0 {
      var rest := Repeated(ts[1..]);
      RepeatedDescending(ts[1..]);
      forall j | 0 <= j < |rest| ensures ts[0].count >= rest[j].count {
        var k :| 0 <= k < |ts[1..]| && ts[1..][k] == rest[j];
        assert ts[0].count >= ts[k + 1].count;
      }
    }
  }

  /** A value seen more than once that is not among the first `m` entries
      kept from `most_common(n)` is outranked by `m` kept entries. */
  lemma RepeatedLeftOut<T>(s: seq<T>, n: nat, m: nat, x: T)
    requires m <= n && Occurrences(s, x) > 1
    requires forall j :: 0 <= j < |Repeated(MostCommon(s, n))| && j < m ==> Repeated(MostCommon(s, n))[j].item != x
    ensures |Repeated(MostCommon(s, n))| >= m
    ensures forall j :: 0 <= j < m ==> Repeated(MostCommon(s, n))[j].count >= Occurrences(s, x)
  {
    var top := MostCommon(s, n);
    if k :| 0 <= k < |top| && top[k].item == x {
      KeptLater(s, n, m, x, k);
    } else {
      NotListedFull(s, n, x);
    }
  }

  /** The case where `x` is listed by `most_common(n)`: it is kept at or
      after position `m`, behind entries counted at least as often. */
  lemma KeptLater<T>(s: seq<T>, n: nat, m: nat, x: T, k: nat)
    requires Occurrences(s, x) > 1
    requires k < |MostCommon(s, n)| && MostCommon(s, n)[k].item == x
    requires forall j :: 0 <= j < |Repeated(MostCommon(s, n))| && j < m ==> Repeated(MostCommon(s, n))[j].item != x
    ensures |Repeated(MostCommon(s, n))| >= m
    ensures forall j :: 0 <= j < m ==> Repeated(MostCommon(s, n))[j].count >= Occurrences(s, x)
  {
    var top := MostCommon(s, n);
    var kept := Repeated(top);
    MostCommonSpec(s, n);
    assert top[k].count == Occurrences(s, x);
    RepeatedKeeps(top, top[k]);
    var p :| 0 <= p < |kept| && kept[p] == top[k];
    assert p >= m;
    RepeatedDescending(top);
    assert forall j :: 0 <= j < m ==> kept[j].count >= kept[p].count;
  }

  /** The case where `x` is not listed by `most_common(n)`: the list is full,
      every entry outranks `x`, and so the filter keeps them all. */
  lemma NotListedFull<T>(s: seq<T>, n: nat, x: T)
    requires Occurrences(s, x) > 1
    requires forall k :: 0 <= k < |MostCommon(s, n)| ==> MostCommon(s, n)[k].item != x
    ensures Repeated(MostCommon(s, n)) == MostCommon(s, n)
    ensures |MostCommon(s, n)| == n
    ensures forall j :: 0 <= j < n ==> MostCommon(s, n)[j].count >= Occurrences(s, x)
  {
    var top := MostCommon(s, n);
    assert x in multiset(s);
    MostCommonLeftOut(s, n);
    assert forall j :: 0 <= j < |top| ==> top[j].count >= Occurrences(s, x);
    RepeatedAll(top);
    if |Distinct(s)| <= n {
      MostCommonCovers(s, n, x);
      assert false;
    }
    MostCommonSpec(s, n);
  }

  /** Common issues are at most three messages reported by more than one
      analysis, with their exact counts; a message reported more than once
      but not listed is outranked by three listed issues. */
  lemma CommonIssuesSpec(analyses: seq<Analysis>)
    ensures var ci := CommonIssues(analyses);
      && |ci| <= 3
      && (forall i :: 0 <= i < |ci| ==>
            ci[i].affectedPipelines > 1
            && ci[i].affectedPipelines == Occurrences(AllErrorMessages(analyses), ci[i].issue))
      && forall x :: Occurrences(AllErrorMessages(analyses), x) > 1 && (forall i :: 0 <= i < |ci| ==> ci[i].issue != x) ==>
           |ci| == 3 && forall i :: 0 <= i < 3 ==> ci[i].affectedPipelines >= Occurrences(AllErrorMessages(analyses), x)
  {
    var em := AllErrorMessages(analyses);
    MostCommonSpec(em, 3);
    RepeatedCounts(em, 3);
    CommonIssuesComplete(analyses);
  }

  /** A message reported more than once but not among the common issues is
      outranked by three listed issues. */
  lemma CommonIssuesComplete(analyses: seq<Analysis>)
    ensures var ci := CommonIssues(analyses);
      forall x :: Occurrences(AllErrorMessages(analyses), x) > 1 && (forall i :: 0 <= i < |ci| ==> ci[i].issue != x) ==>
        |ci| == 3 && forall i :: 0 <= i < 3 ==> ci[i].affectedPipelines >= Occurrences(AllErrorMessages(analyses), x)
  {
    var em := AllErrorMessages(analyses);
    var ci := CommonIssues(analyses);
    var kept := Repeated(MostCommon(em, 3));
    assert |ci| == |kept| && forall j :: 0 <= j < |ci| ==> ci[j].issue == kept[j].item && ci[j].affectedPipelines == kept[j].count;
    forall x | Occurrences(em, x) > 1 && (forall i :: 0 <= i < |ci| ==> ci[i].issue != x)
      ensures |ci| == 3 && forall i :: 0 <= i < 3 ==> ci[i].affectedPipelines >= Occurrences(em, x)
    {
      RepeatedLeftOut(em, 3, 3, x);
    }
  }

  /** The items of a list of counter entries. */
  function Items<T>(ts: seq<Tallied<T>>): (r: seq<T>)
    ensures |r| == |ts|
    ensures forall i :: 0 <= i < |ts| ==> r[i] == ts[i].item
  {
    seq(|ts|, i requires 0 <= i < |ts| => ts[i].item)
  }

  /** Fleet recommendations are at most three texts recommended more than
      once; a text recommended more than once but not listed is outranked by
      three listed ones. */
  lemma FleetRecommendationsSpec(analyses: seq<Analysis>)
    ensures var fr := FleetRecommendations(analyses);
      && |fr| <= 3
      && (forall i :: 0 <= i < |fr| ==> Occurrences(AllRecommendations(analyses), fr[i]) > 1)
      && forall x :: Occurrences(AllRecommendations(analyses), x) > 1 && x !in fr ==>
           |fr| == 3 && forall i :: 0 <= i < 3 ==> Occurrences(AllRecommendations(analyses), fr[i]) >= Occurrences(AllRecommendations(analyses), x)
  {
    var rs := AllRecommendations(analyses);
    var kept := Repeated(MostCommon(rs, 5));
    RepeatedCounts(rs, 5);
    var fr := FleetRecommendations(analyses);
    forall i | 0 <= i < |fr| ensures Occurrences(rs, fr[i]) > 1 {
      assert fr[i] == kept[i].item;
      assert kept[i] in kept;
    }
    FleetRecommendationsComplete(analyses);
  }

  /** A text recommended more than once is either a fleet recommendation, or
      there are three fleet recommendations each made at least as often. */
  lemma FleetRecommendationsComplete(analyses: seq<Analysis>)
    ensures var fr := FleetRecommendations(analyses);
      forall x :: Occurrences(AllRecommendations(analyses), x) > 1 && x !in fr ==>
        |fr| == 3 && forall i :: 0 <= i < 3 ==> Occurrences(AllRecommendations(analyses), fr[i]) >= Occurrences(AllRecommendations(analyses), x)
  {
    var rs := AllRecommendations(analyses);
    var kept := Repeated(MostCommon(rs, 5));
    var fr := FleetRecommendations(analyses);
    RepeatedCounts(rs, 5);
    forall x | Occurrences(rs, x) > 1 && x !in fr
      ensures |fr| == 3 && forall i :: 0 <= i < 3 ==> Occurrences(rs, fr[i]) >= Occurrences(rs, x)
    {
      forall j | 0 <= j < |kept| && j < 3 ensures kept[j].item != x {
        assert fr[j] == kept[j].item;
      }
      RepeatedLeftOut(rs, 5, 3, x);
      forall i | 0 <= i < 3 ensures Occurrences(rs, fr[i]) >= Occurrences(rs, x) {
        assert fr[i] == kept[i].item;
        assert kept[i] in kept;
      }
    }
  }

  /** The fleet summary of a non-empty fleet without non-object entries
      lists at most three issues, each reported more than once with its
      exact count, and at most three recommendations, each made more than
      once; a repeated message or recommendation left out is outranked by
      three listed ones. */
  lemma FleetSummaryLists(analyses: seq<Analysis>)
    requires |analyses| > 0 && AllCounted(analyses)
    ensures GetFleetSummary(analyses).Success?
    ensures var f := GetFleetSummary(analyses).value;
      var em := AllErrorMessages(analyses);
      var rs := AllRecommendations(analyses);
      && |f.commonIssues| <= 3
      && (forall i :: 0 <= i < |f.commonIssues| ==>
            f.commonIssues[i].affectedPipelines > 1
            && f.commonIssues[i].affectedPipelines == Occurrences(em, f.commonIssues[i].issue))
      && (forall x :: Occurrences(em, x) > 1 && (forall i :: 0 <= i < |f.commonIssues| ==> f.commonIssues[i].issue != x) ==>
            |f.commonIssues| == 3)
      && |f.fleetRecommendations| <= 3
      && (forall i :: 0 <= i < |f.fleetRecommendations| ==> Occurrences(rs, f.fleetRecommendations[i]) > 1)
      && (forall x :: Occurrences(rs, x) > 1 && x !in f.fleetRecommendations ==> |f.fleetRecommendations| == 3)
  {
    CommonIssuesSpec(analyses);
    FleetRecommendationsSpec(analyses);
  }

  /** The health score is between minus and plus the number of analyses, and a
      fleet whose every summary is healthy is `good`. */
  lemma {:induction false} ScoreBounds(analyses: seq<Analysis>)
    ensures -|analyses| <= Sum(analyses, SummaryScore) <= |analyses|
    ensures (forall i :: 0 <= i < |analyses| ==> SummaryScore(analyses[i]) == 1) ==> Sum(analyses, SummaryScore) == |analyses|
  {
    if |analyses| > 0 {
      ScoreBounds(analyses[1..]);
    }
  }

  lemma AllHealthyIsGood(analyses: seq<Analysis>)
    requires |analyses| > 0 && AllCounted(analyses)
    requires forall i :: 0 <= i < |analyses| ==> MentionsAny(Lower(analyses[i].summary), HealthyKeywords)
    ensures GetFleetSummary(analyses).Success?
    ensures GetFleetSummary(analyses).value.overallHealth == "good"
  {
    ScoreBounds(analyses);
    FirstUncountedSpec(analyses);
  }
}
