/** Per-run quantities that both the heuristic analysis and the fleet
    statistics accumulate: completed runs (positive duration), their total
    duration, error entries and error messages. */
module RunStats {
  import opened Seqs
  import opened Logs

  /** 1 for a run that finished (positive duration), else 0. */
  function CompletedMark(r: Run): int {
    if r.durationSeconds > 0 then 1 else 0
  }

  /** The duration a run contributes to the total: only finished runs count. */
  function CompletedDuration(r: Run): int {
    if r.durationSeconds > 0 then r.durationSeconds else 0
  }

  function ErrorEntries(r: Run): int {
    |r.errors|
  }

  function Completed(runs: seq<Run>): int {
    Sum(runs, CompletedMark)
  }

  function TotalDuration(runs: seq<Run>): int {
    Sum(runs, CompletedDuration)
  }

  function ErrorCount(runs: seq<Run>): int {
    Sum(runs, ErrorEntries)
  }

  /** Finished runs are a subset of the runs, each lasting at least a second. */
  lemma {:induction false} CompletedBounds(runs: seq<Run>)
    ensures 0 <= Completed(runs) <= |runs|
    ensures TotalDuration(runs) >= Completed(runs)
    ensures Completed(runs) == 0 ==> TotalDuration(runs) == 0
  {
    if |runs| > 0 {
      CompletedBounds(runs[1..]);
    }
  }

  /** The total duration of finished runs lies between `lo` and `hi` times
      their number when every finished run lasts between `lo` and `hi`. */
  lemma DurationBounds(runs: seq<Run>, lo: int, hi: int)
    requires forall r :: r in runs && r.durationSeconds > 0 ==> lo <= r.durationSeconds <= hi
    ensures lo * Completed(runs) <= TotalDuration(runs) <= hi * Completed(runs)
  {
    forall i | 0 <= i < |runs|
      ensures lo * CompletedMark(runs[i]) <= CompletedDuration(runs[i]) <= hi * CompletedMark(runs[i])
    {
      assert runs[i] in runs;
    }
    SumScaled(runs, CompletedDuration, CompletedMark, lo, hi);
  }

  /** The messages of a run's errors, in order. */
  function MessagesOf(es: seq<RunError>): (r: seq<string>)
    ensures |r| == |es|
    ensures forall i :: 0 <= i < |es| ==> r[i] == es[i].message
  {
    seq(|es|, i requires 0 <= i < |es| => es[i].message)
  }

  /** All error messages of all runs, run by run. */
  function ErrorMessages(runs: seq<Run>): seq<string> {
    if |runs| == 0 then [] else MessagesOf(runs[0].errors) + ErrorMessages(runs[1..])
  }

  /** There is one message per error entry, and a text is among the messages
      exactly when some error of some run carries it. */
  lemma {:induction false} ErrorMessagesSpec(runs: seq<Run>, m: string)
    ensures |ErrorMessages(runs)| == ErrorCount(runs)
    ensures m in ErrorMessages(runs) <==>
      exists i, j :: 0 <= i < |runs| && 0 <= j < |runs[i].errors| && runs[i].errors[j].message == m
  {
    if |runs| > 0 {
      ErrorMessagesSpec(runs[1..], m);
      var head := MessagesOf(runs[0].errors);
      if m in head {
        var j :| 0 <= j < |head| && head[j] == m;
        assert runs[0].errors[j].message == m;
      } else if m in ErrorMessages(runs[1..]) {
        var i, j :| 0 <= i < |runs[1..]| && 0 <= j < |runs[1..][i].errors| && runs[1..][i].errors[j].message == m;
        assert runs[i + 1].errors[j].message == m;
      }
      if exists i, j :: 0 <= i < |runs| && 0 <= j < |runs[i].errors| && runs[i].errors[j].message == m {
        var i, j :| 0 <= i < |runs| && 0 <= j < |runs[i].errors| && runs[i].errors[j].message == m;
        if i == 0 {
          assert head[j] == m;
        } else {
          assert runs[1..][i - 1].errors[j].message == m;
        }
      }
    }
  }

  // ---------------------------------------------------------------------------
  // Totals over several logs

  function RunCount(l: PipelineLog): int {
    |l.runs|
  }

  function LogCompleted(l: PipelineLog): int {
    Completed(l.runs)
  }

  function LogDuration(l: PipelineLog): int {
    TotalDuration(l.runs)
  }

  function LogErrors(l: PipelineLog): int {
    ErrorCount(l.runs)
  }

  /** Per-log duration bounds add up over a list of logs. */
  lemma FleetDurationBounds(logs: seq<PipelineLog>, lo: int, hi: int)
    requires forall l, r :: l in logs && r in l.runs && r.durationSeconds > 0 ==> lo <= r.durationSeconds <= hi
    ensures lo * Sum(logs, LogCompleted) <= Sum(logs, LogDuration) <= hi * Sum(logs, LogCompleted)
  {
    forall i | 0 <= i < |logs|
      ensures lo * LogCompleted(logs[i]) <= LogDuration(logs[i]) <= hi * LogCompleted(logs[i])
    {
      assert logs[i] in logs;
      DurationBounds(logs[i].runs, lo, hi);
    }
    SumScaled(logs, LogDuration, LogCompleted, lo, hi);
  }

  lemma {:induction false} FleetCountsNonNegative(logs: seq<PipelineLog>)
    ensures 0 <= Sum(logs, LogCompleted) <= Sum(logs, RunCount)
    ensures Sum(logs, LogDuration) >= 0
    ensures Sum(logs, LogCompleted) == 0 ==> Sum(logs, LogDuration) == 0
    ensures Sum(logs, LogErrors) >= 0
  {
    if |logs| > 0 {
      FleetCountsNonNegative(logs[1..]);
      CompletedBounds(logs[0].runs);
      ErrorCountNonNegative(logs[0].runs);
    }
  }

  lemma {:induction false} ErrorCountNonNegative(runs: seq<Run>)
    ensures ErrorCount(runs) >= 0
  {
    if |runs| > 0 {
      ErrorCountNonNegative(runs[1..]);
    }
  }
}
