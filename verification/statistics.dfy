/** The fleet statistics of the reporting agent: pipelines, runs, errors and
    finished runs over a list of logs, with the average duration of the
    finished runs rounded half to even. */
module Statistics {
  import opened Seqs
  import opened Numbers
  import opened Logs
  import opened RunStats

  datatype Stats = Stats(
    pipelinesTotal: nat,
    runsTotal: int,
    avgDurationSeconds: int,
    errorsTotal: int,
    completedRuns: int)

  /** `round(total / completed)`, or 0 when nothing finished. */
  function AverageDuration(total: int, completed: int): int {
    if completed > 0 then RoundHalfEven(total, completed) else 0
  }

  /** The statistics as sums over the logs: the reference the loop of
      `ComputeStatistics` is held to. */
  function StatsOf(pipelines: nat, logs: seq<PipelineLog>): Stats {
    var c := Sum(logs, LogCompleted);
    Stats(pipelines, Sum(logs, RunCount), AverageDuration(Sum(logs, LogDuration), c), Sum(logs, LogErrors), c)
  }

  lemma SumSnoc<T>(s: seq<T>, i: nat, f: T -> int)
    requires i < |s|
    ensures Sum(s[..i + 1], f) == Sum(s[..i], f) + f(s[i])
  {
    assert s[..i + 1] == s[..i] + [s[i]];
    SumAppend(s[..i], [s[i]], f);
  }

  /** `_compute_statistics(analyses, all_logs)`: one pass over the logs and
      their runs; errors are counted on every run, durations only on runs
      with a positive duration. */
  method ComputeStatistics(pipelines: nat, logs: seq<PipelineLog>) returns (s: Stats)
    ensures s == StatsOf(pipelines, logs)
  {
    var runsTotal := 0;
    var totalDuration := 0;
    var completedRuns := 0;
    var errorsTotal := 0;
    var i := 0;
    while i < |logs|
      invariant 0 <= i <= |logs|
      invariant runsTotal == Sum(logs[..i], RunCount)
      invariant totalDuration == Sum(logs[..i], LogDuration)
      invariant completedRuns == Sum(logs[..i], LogCompleted)
      invariant errorsTotal == Sum(logs[..i], LogErrors)
    {
      var runs := logs[i].runs;
      runsTotal := runsTotal + |runs|;
      var j := 0;
      var d, c, e := 0, 0, 0;
      while j < |runs|
        invariant 0 <= j <= |runs|
        invariant d == Sum(runs[..j], CompletedDuration)
        invariant c == Sum(runs[..j], CompletedMark)
        invariant e == Sum(runs[..j], ErrorEntries)
      {
        e := e + |runs[j].errors|;
        if runs[j].durationSeconds > 0 {
          d := d + runs[j].durationSeconds;
          c := c + 1;
        }
        SumSnoc(runs, j, CompletedDuration);
        SumSnoc(runs, j, CompletedMark);
        SumSnoc(runs, j, ErrorEntries);
        j := j + 1;
      }
      assert runs[..j] == runs;
      totalDuration := totalDuration + d;
      completedRuns := completedRuns + c;
      errorsTotal := errorsTotal + e;
      SumSnoc(logs, i, RunCount);
      SumSnoc(logs, i, LogDuration);
      SumSnoc(logs, i, LogCompleted);
      SumSnoc(logs, i, LogErrors);
      i := i + 1;
    }
    assert logs[..i] == logs;
    var avg := if completedRuns > 0 then RoundHalfEven(totalDuration, completedRuns) else 0;
    s := Stats(pipelines, runsTotal, avg, errorsTotal, completedRuns);
  }

  /** The statistics do not depend on the order of the logs: sorting them
      first changes nothing. */
  lemma StatsOrderFree(pipelines: nat, a: seq<PipelineLog>, b: seq<PipelineLog>)
    requires multiset(a) == multiset(b)
    ensures StatsOf(pipelines, a) == StatsOf(pipelines, b)
  {
    SumPermutation(a, b, RunCount);
    SumPermutation(a, b, LogDuration);
    SumPermutation(a, b, LogCompleted);
    SumPermutation(a, b, LogErrors);
  }

  /** Counts are non-negative, finished runs are among all runs, and the
      average is zero exactly when nothing finished. */
  lemma StatsBounds(pipelines: nat, logs: seq<PipelineLog>)
    ensures var s := StatsOf(pipelines, logs);
      && 0 <= s.completedRuns <= s.runsTotal
      && s.errorsTotal >= 0
      && (s.completedRuns == 0 ==> s.avgDurationSeconds == 0)
      && (s.completedRuns > 0 ==> s.avgDurationSeconds >= 1)
  {
    FleetCountsNonNegative(logs);
    var c := Sum(logs, LogCompleted);
    if c > 0 {
      FleetDurationBounds(logs, 1, MaxDuration(logs));
      RoundInRange(Sum(logs, LogDuration), c, 1, MaxDuration(logs));
    }
  }

  /** The longest duration of any run (0 without runs). */
  function MaxDuration(logs: seq<PipelineLog>): (m: nat)
    ensures forall l, r :: l in logs && r in l.runs ==> r.durationSeconds <= m
  {
    if |logs| == 0 then 0
    else
      var h := MaxRunDuration(logs[0].runs);
      var t := MaxDuration(logs[1..]);
      assert forall l :: l in logs ==> l == logs[0] || l in logs[1..];
      if h < t then t else h
  }

  function MaxRunDuration(runs: seq<Run>): (m: nat)
    ensures forall r :: r in runs ==> r.durationSeconds <= m
  {
    if |runs| == 0 then 0
    else
      var t := MaxRunDuration(runs[1..]);
      assert forall r :: r in runs ==> r == runs[0] || r in runs[1..];
      if runs[0].durationSeconds < t then t else runs[0].durationSeconds
  }

  /** When every finished run lasts between `lo` and `hi` seconds, so does
      the rounded average. */
  lemma AverageWithinDurations(pipelines: nat, logs: seq<PipelineLog>, lo: int, hi: int)
    requires forall l, r :: l in logs && r in l.runs && r.durationSeconds > 0 ==> lo <= r.durationSeconds <= hi
    requires StatsOf(pipelines, logs).completedRuns > 0
    ensures lo <= StatsOf(pipelines, logs).avgDurationSeconds <= hi
  {
    FleetDurationBounds(logs, lo, hi);
    RoundInRange(Sum(logs, LogDuration), Sum(logs, LogCompleted), lo, hi);
  }

  /** The fixture logs: 8 runs, 5 error entries (one failed run of PLAN2
      with two, one of PLAN3 with three), 7 finished runs averaging
      3296 / 7 seconds, which rounds to 471. */
  lemma FixtureStats()
    ensures StatsOf(3, FixtureLogs()) == Stats(3, 8, 471, 5, 7)
  {
    var logs := FixtureLogs();
    Plan1Totals();
    Plan2Totals();
    Plan3Totals();
    assert Sum(logs, RunCount) == 8;
    assert Sum(logs, LogCompleted) == 7;
    assert Sum(logs, LogDuration) == 3296;
    assert Sum(logs, LogErrors) == 5;
    RoundHalfEvenUnique(3296, 7, 471);
  }

  lemma Plan1Totals()
    ensures LogCompleted(Plan1Log()) == 3 && LogDuration(Plan1Log()) == 1276 && LogErrors(Plan1Log()) == 0
  {
    var runs := Plan1Runs();
    assert runs[1..][1..][1..] == [];
  }

  lemma Plan2Totals()
    ensures LogCompleted(Plan2Log()) == 2 && LogDuration(Plan2Log()) == 330 && LogErrors(Plan2Log()) == 2
  {
    var runs := Plan2Runs();
    assert runs[1..][1..] == [];
  }

  lemma Plan3Totals()
    ensures LogCompleted(Plan3Log()) == 2 && LogDuration(Plan3Log()) == 1690 && LogErrors(Plan3Log()) == 3
  {
    var runs := Plan3Runs();
    assert runs[1..][1..][1..] == [];
  }
}
