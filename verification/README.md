# Pipeline health assistant — a Dafny model of its deterministic core

The modelled system runs a four-step health workflow over CI/CD pipelines:

1. Plans are read from a Bamboo-like listing and normalized.
2. Each plan's run logs are fetched.
3. Each log is analysed, by an AI service or by a heuristic.
4. The analyses are aggregated into fleet statistics, a ranked bug list and
   a Markdown report.

An orchestrator wraps the steps in a success or error envelope. It adds an
execution summary and a one-line quick health check.

The model also covers:

- the Azure OpenAI client's control logic: configuration checks, URL
  construction, the bounded retry loop, JSON extraction from replies, and
  the assistant polling loop;
- the `.env` endpoint converter.

Everything is modelled as immutable datatypes and pure functions. The few
methods are loops with invariants. Effects are explicit inputs:

- what the AI service answered or raised, per pipeline and for the report;
- what each HTTP attempt returned, as a function from attempt number to
  outcome;
- the environment and the constructor arguments;
- the `.env` text and the typed project name;
- the report time.

Modules, one per file, in dependency order:

- `Wrappers`: `Option` and `Result`.
- `Seqs`: `Take`, `Flatten`, `Sum`.
- `Strings`: strip, lower/upper case, search, split/join/replace, decimal
  text.
- `Numbers`: exact round-half-to-even, and one-decimal text.
- `Ordering`: lexicographic string order.
- `Sorting`: stable insertion sort by key, with its specification.
- `Counting`: `Counter.most_common`, and first-seen de-duplication.
- `Bamboo`: the plan fixture and the build results.
- `Normalizer`: the plan normalizer.
- `Logs`: the log fixture, key resolution, and the error summary.
- `RunStats`: per-run sums.
- `Analyzer`: validation, the heuristic, the batch wrapper, and the fleet
  summary.
- `Statistics`: the fleet statistics.
- `Bugs`: severity, sightings, and bug extraction.
- `Reporting`: the AI-path digest, the fallback template,
  `aggregate_and_report`, and the daily summary.
- `Orchestrator`: the execution summary, the `run` envelope, and the quick
  check.
- `AiClient`: the Azure OpenAI client.
- `Endpoint`: the endpoint converter.

Floating-point thresholds are compared by integer cross-multiplication.
Python's `round` and `:.1f` are modelled as exact rational
round-half-to-even (`Numbers.RoundHalfEven`).

Where the test suite and the code disagree, the code is followed. The
statistics of the fixture logs have `errors_total == 5`:

- PLAN2's failed run has two error entries.
- PLAN3's failed run has three.
- `_compute_statistics` counts the errors of every run.

`tests/test_orchestrator.py:236` expects 4; `Statistics.FixtureStats` proves
5.

## Model

| member | source | states |
|---|---|---|
| Bamboo.GetBambooPlans | services/bamboo_mock.py:24-161 | The listing holds a plan list whose `size` field equals its length, 3. |
| Bamboo.FixturePlansWellFormed | services/bamboo_mock.py:29-152 | Every plan has a key, a name, a link and an `enabled` flag, and its nested `planKey` equals its key. |
| Bamboo.FixtureFlags | services/bamboo_mock.py:34-130 | PLAN1 is enabled, PLAN2 is disabled, and PLAN3 is enabled and building, in that order. |
| Bamboo.GetPlanResults | services/bamboo_mock.py:163-351 | An unknown key gives an empty result list of size 0. A known key gives exactly one result, for that plan, with build key `<plan>-<number>`, and a successful build is finished. |
| Normalizer.Describe | services/orchestrator.py:184-201 | A descriptor keeps its raw record as `_original`. |
| Normalizer.DescribeDefaults | services/orchestrator.py:186-197 | An empty record gets every default: 'UNKNOWN', 'Unknown Plan', false flags, empty texts, 0 and an empty link. |
| Normalizer.DescribeLinkWithoutHref | services/orchestrator.py:197 | A link object without `href` gives the empty link. |
| Normalizer.DescribeKeepsPresent | services/orchestrator.py:186-197 | Each of the eleven fields the record carries (key, name, enabled, shortName, projectKey, projectName, description, isActive, isBuilding, averageBuildTimeInSeconds, link href) is copied unchanged. |
| Normalizer.DescribeAbsentDefaults | services/orchestrator.py:186-197 | Each of the eleven fields the record lacks gets its own default ('UNKNOWN', 'Unknown Plan', '' or false or 0, '' for a missing link), whatever the other fields hold. |
| Normalizer.Normalize | services/orchestrator.py:169-207 | `_normalize_bamboo_plans`: the listing's plan records, each described, stably sorted by key. Specified by `Normalizer.NormalizeSpec` (one descriptor per record, a permutation, sorted, equal keys in listing order) and `Normalizer.NormalizeIdempotent`. |
| Normalizer.NormalizeSpec | services/orchestrator.py:182-204 | There is one descriptor per record. The output is a permutation of the records' descriptions, sorted by key. Descriptors with equal keys keep listing order, and each output descriptor describes one of the input records. |
| Normalizer.NormalizeIdempotent | services/orchestrator.py:182-204 | Normalizing the originals of a normalized list gives the same list. |
| Normalizer.NormalizeOrdered | services/orchestrator.py:204 | Records already in key order are left in place. |
| Normalizer.FixtureInKeyOrder | services/bamboo_mock.py:39-121 | The fixture lists its plans in key order. |
| Normalizer.NormalizeFixture | services/orchestrator.py:182-204 | The fixture normalizes to PROJ-PLAN1, PROJ-PLAN2, PROJ-PLAN3. |
| Logs.GetPipelineLogs | services/logs_mock.py:352-361 | The log carries the requested key. An unknown key gives "Unknown Pipeline (<key>)", 0 runs and no runs. |
| Logs.GetPipelineLogsShape | services/logs_mock.py:26-361 | Every returned log's `total_runs` equals its number of runs. No returned log carries a diagnostic, and a known plan has runs. |
| Logs.FixtureContent | services/logs_mock.py:27-290 | PLAN1's runs all succeed without errors. PLAN2 has a failed run with errors. PLAN3 has a run in progress and a run with errors. |
| Logs.FirstPresent | services/logs_mock.py:388-395 | No field is chosen exactly when none of key, planKey, pipeline_key and id is present. |
| Logs.KeyText | services/logs_mock.py:390-397 | Only a non-empty text resolves to a key. |
| Logs.LogFor | services/logs_mock.py:397-407 | A resolved key gets the logs of that key. An unresolved record gets the 'UNKNOWN' placeholder with its diagnostic. |
| Logs.GetAllLogs | services/logs_mock.py:383-409 | There is one log per record, in record order. |
| Logs.FirstFieldDecides | services/logs_mock.py:388-395 | Two records that agree on a present `key` field resolve alike, whatever their other fields: later fields are never consulted. |
| Logs.EmptyKeyShadowsId | services/logs_mock.py:388-397 | An empty `key` hides a usable `id`, and the record resolves to nothing. |
| Logs.KeyVariants | services/logs_mock.py:388-395 | Each of the four spellings, including a nested `planKey`, resolves to the same key. |
| Logs.GetAllLogsKeys | services/logs_mock.py:385-407 | The i-th log's key is the i-th record's resolved key, or 'UNKNOWN'. |
| Logs.FixtureErrorSummaries | services/logs_mock.py:412-450 | On the fixture, PLAN2's summary has 2 runs, 1 failed, a success rate of 50.0 and at least one error. PLAN1's has no failed run, a rate of 100.0, no errors and no details. |
| Logs.StatusPartition | services/logs_mock.py:422-428 | The counts of the three run statuses add up to the number of runs. |
| Logs.FailedDetailsFromFailedRuns | services/logs_mock.py:427-440 | Every error detail comes from a failed run of the log. |
| Logs.GetErrorSummary | services/logs_mock.py:412-450 | The summary has the following fields: `total_runs` is the run count, `failed_runs` counts FAILED runs, and the details are the errors of failed runs, in run order. `total_errors` is their number. The rate is 0 without runs, and otherwise it is within half a tenth of (total − failed)/total·100. |
| RunStats.CompletedBounds | services/reporting_agent.py:85-93 | Finished runs are at most all runs. Their total duration is at least their number, and it is 0 when none finished. |
| RunStats.DurationBounds | services/reporting_agent.py:89-93 | If each finished run lasts between lo and hi, the total duration lies between lo and hi times the number of finished runs. |
| RunStats.ErrorMessagesSpec | services/analyzer_agent.py:187-193 | There is one message per error entry. A text is among the messages exactly when some error of some run carries it. |
| RunStats.FleetDurationBounds | services/reporting_agent.py:81-96 | The duration bounds add up over a list of logs. |
| Analyzer.Validate | services/analyzer_agent.py:116-141 | The post-validation of an AI answer. Specified by `Analyzer.ValidateSpec`: accepted exactly with all four keys, the key forced, non-lists emptied, object entries defaulted, other entries kept. |
| Analyzer.ValidateSpec | services/analyzer_agent.py:116-141 | Validation accepts exactly the responses that have all four keys. It forces the pipeline key, keeps the summary, and empties non-list fields. Object entries get the 'Unknown error' and count-1 defaults, and any other entry stays as it came, position by position. |
| Analyzer.BareStringSurvives | services/analyzer_agent.py:128-135 | A bare-string `top_errors` entry is still a string after validation. |
| Analyzer.TierMonotone | services/analyzer_agent.py:212-219 | More successes never give a worse tier. |
| Analyzer.Heuristic | services/analyzer_agent.py:149-273 | The heuristic keeps the key, gives 1 to 5 recommendations, and lists at most 5 errors. |
| Analyzer.HeuristicNoRuns | services/analyzer_agent.py:166-172 | A log without runs gets the no-data summary with its name, no errors, and the single capture-logs advice. |
| Analyzer.FiredSpec | services/analyzer_agent.py:236-260 | A rule's advice is collected exactly when the rule fires. |
| Analyzer.KeptRulesSpec | services/analyzer_agent.py:236-272 | Each of the first five rules is kept exactly when it fires. Every kept rule fires, and nothing is kept exactly when no rule fires. |
| Analyzer.OptimizeIff | services/analyzer_agent.py:196-243 | The "optimize build steps" advice is given exactly when the average duration of finished runs exceeds 1800 s. |
| Analyzer.RuleTextInjective | services/analyzer_agent.py:236-260 | Different rules give different advice texts. |
| Analyzer.DefaultIff | services/analyzer_agent.py:262-272 | The advice is the single default exactly when no rule fires. The default praises the pipeline exactly when at least 90% of runs succeeded. Otherwise the advice is the texts of the kept rules. |
| Analyzer.TimeoutMention | services/analyzer_agent.py:252-254 | An error message mentioning "timeout" in any case triggers the timeout advice. |
| Analyzer.TopErrorsSpec | services/analyzer_agent.py:201-206 | The heuristic's errors are at most five distinct messages that occur, with exact counts. They are ordered most frequent first, and ties follow first appearance. |
| Analyzer.HeuristicTopErrors | services/analyzer_agent.py:166-206 | Every heuristic analysis lists exactly the most common run errors. |
| Analyzer.SummaryOpens | services/analyzer_agent.py:212-231 | The heuristic summary opens with the health tier of the success ratio. |
| Analyzer.SummaryFailures | services/analyzer_agent.py:228-231 | The summary mentions failures whenever a run failed. |
| Analyzer.SummaryAverage | services/analyzer_agent.py:225-226 | The summary mentions the average execution time whenever a run finished. |
| Analyzer.AnalyzePipelineLogs | services/analyzer_agent.py:116-146 | The analysis keeps the pipeline key. It raises exactly when the AI call raised something outside the four expected exception kinds. |
| Analyzer.FallbackToHeuristic | services/analyzer_agent.py:118-146 | Each expected exception kind, and each answer missing a key, gives the heuristic analysis. |
| Analyzer.AnalyzeMany | services/analyzer_agent.py:276-302 | There is one analysis per log, and the i-th carries the i-th log's key. |
| Analyzer.AnalyzeManyFailures | services/analyzer_agent.py:292-300 | A pipeline whose analysis raised gets the "Analysis failed for <key>: <message>" entry, with the manual-investigation advice. |
| Analyzer.FirstUncountedSpec | services/analyzer_agent.py:329-331 | The scan finds a non-object error entry exactly when one exists. |
| Analyzer.GetFleetSummary | services/analyzer_agent.py:305-374 | The summary fails exactly when a non-empty fleet has a non-object error entry. Otherwise it counts every analysis. For a non-empty fleet the health is 'good' exactly when the score exceeds half the fleet, 'concerning' exactly when it does not and falls below minus three tenths of it, and 'mixed' otherwise. The issue and recommendation lists are those that `Analyzer.CommonIssuesSpec` and `Analyzer.FleetRecommendationsSpec` specify. |
| Analyzer.FleetSummaryLists | services/analyzer_agent.py:326-348 | A non-empty fleet without non-object entries is summarized. It lists at most three issues, each reported more than once with its exact count, and at most three recommendations, each made more than once. A repeated message or recommendation that is left out means three are listed. |
| Analyzer.FleetSummaryEmpty | services/analyzer_agent.py:315-321 | An empty fleet is "unknown", with no issues and no advice. |
| Analyzer.RepeatedCounts | services/analyzer_agent.py:336-348 | An entry kept by the "count > 1" filter carries the exact count of its item, which is at least 2. |
| Analyzer.RepeatedKeeps | services/analyzer_agent.py:340 | An entry seen more than once is never filtered out. |
| Analyzer.CommonIssuesSpec | services/analyzer_agent.py:336-341 | There are at most three common issues, each reported more than once, with exact counts. A message reported more than once that is not listed is outranked by three listed issues. |
| Analyzer.CommonIssuesComplete | services/analyzer_agent.py:336-341 | A message reported more than once is either a common issue, or there are three common issues each reported at least as often. |
| Analyzer.RepeatedLeftOut | services/analyzer_agent.py:336-348 | A value seen more than once that is not among the first `m` entries kept from `most_common(n)` (with `m <= n`) is outranked by `m` kept entries. |
| Analyzer.FleetRecommendationsSpec | services/analyzer_agent.py:344-373 | There are at most three fleet recommendations, each made more than once. A text recommended more than once that is not listed is outranked by three listed ones. |
| Analyzer.FleetRecommendationsComplete | services/analyzer_agent.py:344-348 | A text recommended more than once is either a fleet recommendation, or there are three fleet recommendations each made at least as often. |
| Analyzer.ScoreBounds | services/analyzer_agent.py:354-360 | The health score of n summaries lies between −n and n, and it is n when every summary scores as healthy. |
| Analyzer.AllHealthyIsGood | services/analyzer_agent.py:354-363 | A fleet whose every summary is healthy is "good". |
| Statistics.ComputeStatistics | services/reporting_agent.py:63-104 | The loop computes the following sums over all logs: runs, errors on every run, and finished runs with their durations. The average is rounded half to even. |
| Statistics.StatsOrderFree | services/reporting_agent.py:40-44 | The statistics do not depend on the order of the logs, so sorting them first changes nothing. |
| Statistics.StatsBounds | services/reporting_agent.py:85-96 | Completed runs are between 0 and all runs, and errors are non-negative. The average is 0 exactly when nothing finished, and at least 1 otherwise. |
| Statistics.AverageWithinDurations | services/reporting_agent.py:89-96 | The rounded average lies between the shortest and longest finished run. |
| Statistics.FixtureStats | services/reporting_agent.py:74-96 | On the fixture logs: 3 pipelines, 8 runs, an average of 471 s, 5 errors and 7 finished runs. |
| Bugs.DetermineSeverity | services/reporting_agent.py:162-192 | A frequency of 3 or more is high, and a frequency of 2 or more is never low. |
| Bugs.SeverityMonotone | services/reporting_agent.py:187-192 | An error seen more often is never judged less severe. |
| Bugs.HighKeywordIsHigh | services/reporting_agent.py:176-188 | A high keyword, in any case, makes the error high. |
| Bugs.LowIff | services/reporting_agent.py:176-192 | An error is low exactly when it is seen at most once and names no keyword. |
| Bugs.FindRecentErrorRun | services/reporting_agent.py:195-220 | `_find_recent_error_run`. Specified by `Bugs.FindRecentNone` and `Bugs.FindRecentFirst`: nothing exactly when no run carries the message, otherwise the first such run and the step of its first such error. |
| Bugs.FindRecentNone | services/reporting_agent.py:195-220 | There is no sighting exactly when no run has an error with exactly that message. |
| Bugs.FindRecentFirst | services/reporting_agent.py:208-216 | A sighting is the first run, in list order, with the message, and the step of its first such error. |
| Bugs.LookupLog | services/reporting_agent.py:121 | The `{key: log}` lookup. Specified by `Bugs.LookupLogSpec`: the last log with the key, or nothing when no log has it. |
| Bugs.LookupLogSpec | services/reporting_agent.py:121 | The log lookup finds the last log with the key, and nothing when no log has it. |
| Bugs.MakeBug | services/reporting_agent.py:130-148 | A bug carries the key, message and count of its entry, and the severity of that message and count. |
| Bugs.MakeBugSighting | services/reporting_agent.py:137-147 | The last-seen time and the step come from the first run holding the message. They are 'Unknown' when no run does. |
| Bugs.ExtractBugs | services/reporting_agent.py:107-159 | `_extract_bugs_summary`. Specified by `Bugs.ExtractBugsFailure` (fails exactly on a non-object entry) and `Bugs.ExtractBugsSpec` (one bug per entry, ranked by severity and frequency, a stable permutation of the collected bugs). |
| Bugs.ExtractBugsFailure | services/reporting_agent.py:123-131 | Extraction fails exactly on a non-object error entry, as the fleet summary does, with the same message. |
| Bugs.CollectedCount | services/reporting_agent.py:123-148 | There is one bug per error entry of every analysis. |
| Bugs.CollectedProvenance | services/reporting_agent.py:123-148 | Each collected bug comes from a counted entry of an analysis with its key. |
| Bugs.ExtractBugsSpec | services/reporting_agent.py:107-159 | The bugs are one per entry, sorted by (severity, frequency) descending, and a permutation of the collected entries. Equal ranks keep their collected order. |
| Bugs.ExtractedProvenance | services/reporting_agent.py:123-159 | Every extracted bug traces back to a counted entry of its pipeline. |
| Bugs.HighCountBounds | services/reporting_agent.py:418 | The high-bug count is at most the number of bugs, and 0 exactly when no bug is high. |
| Reporting.CloseReportAppends | services/reporting_agent.py:303-304 | The AI's text always gets exactly one newline appended, because a stripped text never ends in one. |
| Reporting.KeyRecommendationsSpec | services/reporting_agent.py:267-268 | The key recommendations are the first one, or the first two joined by "; ", and are left out when there are none. |
| Reporting.DigestNamesTopBugs | services/reporting_agent.py:253-257 | The digest sent to the AI names each of the first five bugs, and at most five. |
| Reporting.FallbackReport | services/reporting_agent.py:313-400 | `_generate_fallback_report`. Specified by `Reporting.FallbackShape`, `Reporting.FallbackListsBugs`, `Reporting.FallbackNoBugs`, `Reporting.FallbackRecommendations` and `Reporting.FallbackStatusBlocks`. |
| Reporting.FallbackShape | services/reporting_agent.py:331-350 | The fallback report opens with "# CI/CD Pipeline Report" and holds the metric table. |
| Reporting.FallbackListsBugs | services/reporting_agent.py:355-362 | The report lists each of the first five bugs, numbered and with its icon, and at most five. |
| Reporting.FallbackNoBugs | services/reporting_agent.py:363-364 | Without bugs the report says that no critical issue was detected. |
| Reporting.FallbackRecommendations | services/reporting_agent.py:366-379 | The listed recommendations are at most five, none twice, each made by some analysis, in first-made order. Every recommendation made is listed unless five already are, and the default line appears when none was made. |
| Reporting.FallbackStatusBlocks | services/reporting_agent.py:381-396 | Each analysis gets its status block. |
| Reporting.StatusIconSpec | services/reporting_agent.py:387-394 | ✅ appears exactly when the summary mentions excellent or good. ⚠️ appears exactly when it mentions neither of those but mentions concerning or poor. |
| Reporting.AggregateAndReport | services/reporting_agent.py:15-60 | `aggregate_and_report`. Specified by `Reporting.AggregateOutcome` (fails exactly on a non-object entry), `Reporting.AggregateContent` (order-free statistics, ranked bugs) and `Reporting.AggregateMarkdown` (AI text plus newline, or the template). |
| Reporting.AggregateOutcome | services/reporting_agent.py:40-60 | The report fails exactly when some error entry is not an object. |
| Reporting.AggregateContent | services/reporting_agent.py:40-60 | When every error entry is an object, the report succeeds. Its statistics are those of the logs in any order, so `runs_total` is the plain sum of run counts. The bug list is ranked and has one bug per error entry. |
| Reporting.AggregateMarkdown | services/reporting_agent.py:49-54 | When every error entry is an object, the report succeeds. When the AI answered, the Markdown is its text plus one newline. When it failed, the Markdown is the fallback template: it opens with the report title and holds the metric table. |
| Reporting.ExtractedHigh | services/reporting_agent.py:154-159 | The number of high bugs is the sum, over the analyses, of their high-severity error entries. Sorting does not change it. |
| Reporting.DailyLevelMonotone | services/reporting_agent.py:417-425 | Fewer errors and fewer high bugs never make the day look worse. |
| Reporting.DailySummary | services/reporting_agent.py:403-427 | `generate_daily_summary`. Specified by `Reporting.DailyOpens`, `Reporting.DailyCounts` and `Reporting.DailyMatchesReport`: it fails exactly when the report does and opens with the level of the report's counts. |
| Reporting.DailyOpens | services/reporting_agent.py:403-427 | The daily summary opens with the level of its own counts. |
| Reporting.DailyCounts | services/reporting_agent.py:403-418 | Whenever the daily summary succeeds, the full report succeeds too, with the same statistics and the same high-bug count. |
| Reporting.DailyMatchesReport | services/reporting_agent.py:403-427 | The daily summary fails exactly when the report does. Otherwise it opens with the level the report's counts give. |
| Orchestrator.Classify | services/orchestrator.py:234-244 | The health class of one analysis. Specified by `Orchestrator.ClassesPartition` and `Orchestrator.KeysInSpec`: each analysis lands in exactly one class, and a class lists exactly the keys classified there. |
| Orchestrator.ClassesPartition | services/orchestrator.py:234-244 | Every analysis lands in exactly one health class. |
| Orchestrator.KeysInSpec | services/orchestrator.py:234-244 | A key is listed in a class exactly when an analysis with that key is classified there. |
| Orchestrator.OverallHealth | services/orchestrator.py:247-259 | The overall level from the critical and warning counts. Specified by `Orchestrator.OverallMonotone`: more critical or warning pipelines never improve it, and it is excellent exactly with no critical pipeline and at most one warning. |
| Orchestrator.OverallMonotone | services/orchestrator.py:248-259 | More critical or warning pipelines never improve the overall health. It is excellent exactly when there is no critical pipeline and at most one warning. |
| Orchestrator.GenerateExecutionSummary | services/orchestrator.py:210-289 | `_generate_execution_summary`. Specified by `Orchestrator.ExecutionSummarySpec` and `Orchestrator.SuccessRateClose`. |
| Orchestrator.ExecutionSummarySpec | services/orchestrator.py:226-289 | The healthy, warning and critical lists are the keys `Orchestrator.Classify` puts in each class, so the breakdown counts every analysis. The overall level follows the class sizes. The run and error totals are the report's, the critical issues are the high bugs, and the quick summary opens with the level's emoji. |
| Orchestrator.SuccessRateClose | services/orchestrator.py:280-284 | The success rate is within half a tenth of (completed − errors)/max(completed, 1)·100. The average duration in tenths of a minute is within half a tenth of avg_duration_seconds/60. |
| Orchestrator.EnvelopeSpec | services/orchestrator.py:80-166 | The result is an error exactly when a step failed, with 0 steps and the message. Otherwise it has 4 steps and the counts of each step. |
| Orchestrator.RunWorkflow | services/orchestrator.py:26-166 | `run(question)` with the AI's answers as inputs. Specified by `Orchestrator.EnvelopeSpec`, `Orchestrator.RunOutcome`, `Orchestrator.RunSuccess` and `Orchestrator.RunWithoutAi`. |
| Orchestrator.RunOutcome | services/orchestrator.py:53-166 | The workflow fails exactly when an analysis kept a non-object error entry. |
| Orchestrator.ReportStats | services/orchestrator.py:62-73 | When step 4 succeeds, the report's statistics are those of the fetched logs. |
| Orchestrator.RunSuccess | services/orchestrator.py:56-138 | On success, the step-1 keys are the normalized keys in order, with one log and one analysis per plan. The step-2 total runs equals the report's `runs_total`. |
| Orchestrator.AnalyzeWithoutAi | services/analyzer_agent.py:143-146 | When the AI service raises for every pipeline, no analysis holds a non-object entry. |
| Orchestrator.RunWithoutAi | services/orchestrator.py:53-141 | When the AI service is down, the workflow succeeds. |
| Orchestrator.RunFixture | services/orchestrator.py:56-73 | On the fixture listing, a successful run lists PLAN1, PLAN2 and PLAN3 and counts 8 runs. It reports 3 pipelines, 8 runs, 471 s, 5 errors and 7 finished runs. |
| Orchestrator.QuickHealthMessage | services/orchestrator.py:328-346 | `run_quick_health_check` on the workflow's result. Specified by `Orchestrator.QuickHealthSpec`: ✅ exactly on success, ⚠️ exactly on an error envelope, never 🔴. |
| Orchestrator.QuickHealthSpec | services/orchestrator.py:335-346 | The quick check opens with ✅ exactly on success and with ⚠️ exactly on an error envelope. It never opens with 🔴. |
| AiClient.Setting | common/azure_ai.py:116-120 | A truthy argument wins. Otherwise the setting is the environment's value for the name, and is absent exactly when the environment lacks it. |
| AiClient.MissingVarsSpec | common/azure_ai.py:122-129 | The missing list is the required settings, in fixed order, that resolve to nothing or to empty text. |
| AiClient.NewClient | common/azure_ai.py:93-161 | The client constructor. Specified by `AiClient.MissingVarsSpec` and `AiClient.NewClientSpec`: it fails exactly when a required setting is missing, listing the missing names in order. |
| AiClient.NewClientSpec | common/azure_ai.py:115-161 | Construction fails exactly when a required setting is missing, and the message lists the missing ones. The client keeps the resolved settings. The version is the truthy argument, else the environment's value, else 2024-02-01. The URL follows the endpoint. |
| AiClient.ApiUrl | common/azure_ai.py:158-161 | The chat-completions URL. Specified by `AiClient.ApiUrlSlash`: trailing slashes of the endpoint do not matter, and the URL opens with the stripped endpoint. |
| AiClient.ApiUrlSlash | common/azure_ai.py:158-161 | Trailing slashes do not change the URL, and the URL opens with the stripped endpoint. |
| AiClient.SettleReturns | common/azure_ai.py:226-259 | The attempt that ends the loop returns exactly when it is a 200 with a choice, and then returns the first choice. |
| AiClient.AttemptsSettle | common/azure_ai.py:218-259 | From any attempt on, the loop ends at the first attempt that is not retried, or at the last one, and pauses before each retry. |
| AiClient.MakeRequest | common/azure_ai.py:186-261 | `_make_request` over the attempt outcomes. Specified by `AiClient.AttemptsSettle`, `AiClient.MakeRequestSpec`, `AiClient.NoRetryOnFirst` and `AiClient.AllAttemptsFailedOnlyWithoutAttempts`. |
| AiClient.MakeRequestSpec | common/azure_ai.py:218-259 | There are at most max_retries + 1 attempts. Every earlier attempt was a rate limit, timeout or request error. Each pause is retry-after or retry_delay·(attempt+1). |
| AiClient.NoRetryOnFirst | common/azure_ai.py:226-243 | Any other first reply ends the request after one attempt. |
| AiClient.AllAttemptsFailedOnlyWithoutAttempts | common/azure_ai.py:257-261 | "All retry attempts failed" is raised exactly when max_retries < 0. |
| AiClient.CleanJson | common/azure_ai.py:71-77 | The text `ensure_json` parses. Specified by `AiClient.CleanUnfenced`, `AiClient.FirstBlockOnly` and `AiClient.FenceRoundTrip`: the stripped reply without a fence, otherwise the stripped body of the first fenced block. |
| AiClient.EnsureJson | common/azure_ai.py:55-83 | `ensure_json` succeeds exactly when the cleaned text parses, and then gives that value. |
| AiClient.CleanUnfenced | common/azure_ai.py:71-76 | A reply without a fence is parsed as it is, stripped. |
| AiClient.FirstBlockOnly | common/azure_ai.py:73-76 | Only the body of the first fenced block counts, stripped, with an optional json tag skipped. |
| AiClient.FenceRoundTrip | common/azure_ai.py:73-76 | JSON fenced on lines of its own, tagged or not, cleans back to itself. |
| AiClient.JsonRequestSpec | common/azure_ai.py:284-316 | The JSON request uses temperature 0.0. It sends the user prompt unchanged, and its system message opens with the caller's prompt and holds the schema hint. |
| AiClient.LlmJson | common/azure_ai.py:284-316 | `llm_json`. Specified by `AiClient.JsonRequestSpec` and `AiClient.LlmJsonSpec`: it returns a value exactly when the request returns a text whose cleaned form parses. |
| AiClient.LlmJsonSpec | common/azure_ai.py:284-316 | `llm_json` returns a value exactly when the request returns a text whose cleaned form parses. A failed request raises its own error. |
| AiClient.FirstAssistantSpec | common/azure_ai.py:543-546 | The reply is the first assistant message. |
| AiClient.DecidedOtherwise | common/azure_ai.py:549-551 | A failed, cancelled or expired status rules out completion. |
| AiClient.PollRun | common/azure_ai.py:524-557 | Polling checks 1 to 30 times and stops at the first decisive check. It times out after 30 undecided checks. It returns exactly when the run completes and there is an assistant message, and then returns the first assistant message. |
| AiClient.LlmTextWithAssistant | common/azure_ai.py:318-345 | Without an assistant ID it raises the not-configured error. It returns exactly when all three set-up requests succeed and the run completes with a message, and the text it returns is the first assistant message of the thread. Any other error carries the "Assistant request failed: " prefix. |
| Endpoint.FirstEndpointLine | convert_endpoint.py:23-26 | This is the first line whose stripped form starts with `AZURE_OPENAI_ENDPOINT=`. |
| Endpoint.ResourceName | convert_endpoint.py:44 | The resource exists exactly when the endpoint contains `//`. Without it the split raises. |
| Endpoint.Decide | convert_endpoint.py:21-54 | A conversion names a valid endpoint line. |
| Endpoint.DecideSpec | convert_endpoint.py:21-71 | The converter succeeds exactly when the first endpoint line holds a non-empty endpoint that is either already a project endpoint, or a cognitiveservices endpoint with `//` plus a typed project name. The project check comes first. |
| Endpoint.ConvertShape | convert_endpoint.py:40-54 | The new endpoint is "https://<resource>.services.ai.azure.com/api/projects/<project>", for the endpoint's own resource, which holds no dot. |
| Endpoint.ReplaceEndpoint | convert_endpoint.py:59-63 | The `str.replace` of the endpoint assignment. Specified by `Endpoint.ReplaceEndpointSpec`. |
| Endpoint.ReplaceEndpointSpec | convert_endpoint.py:59-63 | The rewrite replaces every `KEY=<old>` and keeps the text between them. Without an occurrence it changes nothing. |
| Endpoint.FileAfterAsWritten | convert_endpoint.py:21-65 | The `.env` text the script leaves behind, as written: the replaced text after a conversion, otherwise unchanged. `Endpoint.SpacedLineNotRewritten` shows where it misses the line it read. |
| Endpoint.SpacedLineNotRewritten | convert_endpoint.py:24-63 | A line with a space after `=` converts but is written back unchanged, so the next run converts again. |
| Endpoint.FileAfterConverts | convert_endpoint.py:59-68 | After a conversion the endpoint line reads back as the new endpoint and every other line is kept. A second run finds a project endpoint and changes nothing. |
| Numbers.RoundHalfEven | services/reporting_agent.py:96 | The result is within half a unit of num/den, and exact halves go to the even neighbour. |
| Numbers.RoundHalfEvenUnique | services/reporting_agent.py:96 | That property determines the rounding uniquely. |
| Numbers.RoundInRange | services/reporting_agent.py:96 | A ratio between lo and hi rounds to a value between lo and hi. |
| Numbers.TenthsTextRoundTrip | services/reporting_agent.py:339 | One-decimal text reads back as the same number of tenths. |
| Numbers.FormatTenthsValue | services/reporting_agent.py:339 | The `:.1f` text of a ratio reads back as the ratio rounded to tenths. |
| Strings.NatToStringRoundTrip | services/reporting_agent.py:345-349 | Decimal text of a natural number parses back to it. |
| Strings.ReplaceIsJoinOfSplit | convert_endpoint.py:60-63 | `str.replace` is the join, by the new text, of the split by the old text. |
| Strings.LowerOfLower | services/orchestrator.py:236 | Text without an upper-case ASCII letter is unchanged by lower-casing. |
| Sorting.Sort | services/orchestrator.py:204 | The stable sort behind Python's `sorted(key=...)`. The output is a permutation of the input, and `Sorting.SortSorted`, `Sorting.SortStable` and `Sorting.SortUnique` show it is sorted and stable, and the only such result. |
| Sorting.SortSorted | services/orchestrator.py:204 | The insertion sort yields a sorted sequence. |
| Sorting.SortStable | services/reporting_agent.py:154-157 | Items with equal keys keep their input order. |
| Sorting.SortUnique | services/reporting_agent.py:40-41 | A sorted sequence that keeps the input's equal-key groups is the sort's result. |
| Sorting.SortIdempotent | services/reporting_agent.py:40-41 | Sorting a sorted sequence changes nothing. |
| Counting.DistinctFirstSeen | services/reporting_agent.py:373 | De-duplication keeps first-seen order. |
| Counting.MostCommon | services/analyzer_agent.py:202-205 | `Counter.most_common(n)`. Specified by `Counting.MostCommonSpec`, `Counting.MostCommonRanked` and `Counting.MostCommonLeftOut`. |
| Counting.MostCommonSpec | services/analyzer_agent.py:202-205 | `most_common(n)` gives min(n, distinct) distinct items with exact counts, highest first. |
| Counting.MostCommonRanked | services/analyzer_agent.py:202-205 | Equal counts keep first-seen order. |
| Counting.MostCommonLeftOut | services/analyzer_agent.py:202-205 | No item left out is more frequent than a kept one. |
| Counting.MostCommonCovers | services/analyzer_agent.py:202-205 | When `n` reaches the number of distinct values, every value that occurs is listed. |
| Seqs.SumPermutation | services/reporting_agent.py:40-44 | A sum does not depend on the order of the summands. |
| Ordering.StrLeTotal | services/orchestrator.py:204 | String order is total. |

## Left out

- `Analyzer.AnalyzeMany`: the AI service's outcome is an input function of
  the log (`ai: PipelineLog -> AiOutcome`). Two equal logs therefore get
  equal outcomes, while the real service may answer them differently.
- HTTP transport, `time.sleep`, dotenv and `os.getenv`. Attempt outcomes,
  pauses and the environment are inputs, and the sleeps are recorded as
  values.
- The SDK assistant paths (common/azure_ai.py:347-466) need the Azure AI
  Projects SDK. Only the HTTP assistant path is modelled. Status and message
  URLs are not built.
- `json.loads` is a parameter (`parse`) of `AiClient.EnsureJson`.
  `response.json()` of the chat reply is an input: its choices are given
  already decoded.
- The `retry-after` header is given as an optional number. Parsing it with
  `float` is not modelled.
- Regular-expression semantics are modelled only for the fence pattern, and
  only for bodies without backticks (`AiClient.FirstBlockOnly`). Prompt prose
  is treated as opaque text.
- Wall-clock values (`datetime.now`, the elapsed time and its rounding) are
  parameters (`now`) or left out of the envelope. `get_workflow_status` is a
  constant probe and is not modelled.
- Floating point: rates and averages use exact rational round-half-to-even.
  On ties that are not exactly representable in binary (for example
  `round(0.05, 1)`), Python can round the other way.
- `Lower` and `Upper` are ASCII-only.
- Dynamic typing: plans, runs, logs and analyses are typed records. A run
  error is always an object with step and message. A string-valued run
  error, a non-dict `link`, and a present-but-null field are not modelled.
  A non-object `top_errors` entry is modelled (`Analyzer.TopError`), because
  it changes control flow.
  A non-string `recommendations` entry is not modelled, although it also
  changes control flow in the source: `'; '.join` raises at
  services/reporting_agent.py:268 and sends the report to the fallback; an
  unhashable entry then raises in `dict.fromkeys` at
  services/reporting_agent.py:373, which ends in the error envelope; the same
  entry raises in `Counter` at services/analyzer_agent.py:344. Recommendations
  are `string`s in the model (`Analyzer.AiResponse`).
- Fixture fields nobody reads (actions, stages, branches, most result
  fields) are dropped.
- The unreachable second copy of the newline step
  (services/reporting_agent.py:306-310) is not modelled.
- The ⚪ icon (services/reporting_agent.py:359) is unreachable, because the
  severity is always high, medium or low.
- Orchestrator: only step 4 can fail in the model, on a non-object error
  entry. Steps 1–3 cannot raise on typed input.
  `Orchestrator.QuickHealthSpec` therefore proves the 🔴 branch unreachable.
- `run` calls `get_bamboo_plans()` itself. The model takes the listing as an
  input, and `Orchestrator.RunFixture` covers the fixture listing.
- Endpoint converter: the file read and write, `Path.exists`, `input()` and
  the printed messages are parameters or are dropped. File lines are split
  on "\n" only; "\r" newline translation is not modelled.
- The CLI, the configuration-check script and the test runner (foundry_pipeline_assistant.py,
  check_config.py, run_tests.py), logging, and the `__init__` re-exports are
  not part of this model.
- AiClient.MakeRequestSpec: states the loop for `max_retries >= 0`. The
  negative case is covered separately by
  `AiClient.AllAttemptsFailedOnlyWithoutAttempts`.

## Findings

| source | as written | input that shows it | evidently intended | confidence | as-written member | corrected member |
|---|---|---|---|---|---|---|
| convert_endpoint.py:24-25, 59-63 | The endpoint is read with `split('=', 1)[1].strip()`, but the rewrite searches for `AZURE_OPENAI_ENDPOINT=<stripped endpoint>`. A line with a space after `=` is read and "converted", the text is written back unchanged, success is reported, and every later run converts again. | `.env` text `AZURE_OPENAI_ENDPOINT= https://r.cognitiveservices.azure.com` with project `p` | Rewrite the endpoint line that was read, so that the written file holds the new endpoint. | not executed | Endpoint.SpacedLineNotRewritten | Endpoint.FileAfterConverts |
