/** The bug list of the reporting agent: one entry per error reported by an
    analysis, with a severity from its frequency and wording, the run where
    it was seen, and a stable ranking by (severity, frequency), highest
    first. */
module Bugs {
  import opened Wrappers
  import opened Seqs
  import opened Strings
  import opened Sorting
  import opened Logs
  import opened Analyzer

  datatype Severity = High | Medium | Low

  const HighKeywords: seq<string> := ["timeout", "connection", "database", "service unavailable",
                                      "out of memory", "disk space", "network", "authentication failed"]
  const MediumKeywords: seq<string> := ["test failed", "assertion", "compilation error", "build failed",
                                        "dependency", "configuration"]

  /** `_determine_error_severity(message, frequency)`: frequency and the
      lower-cased wording decide, high before medium. */
  function DetermineSeverity(message: string, frequency: int): (s: Severity)
    ensures frequency >= 3 ==> s == High
    ensures frequency >= 2 ==> s != Low
  {
    var text := Lower(message);
    if frequency >= 3 || MentionsAny(text, HighKeywords) then High
    else if frequency >= 2 || MentionsAny(text, MediumKeywords) then Medium
    else Low
  }

  /** The order of severities used for ranking: high 3, medium 2, low 1. */
  function SeverityRank(s: Severity): int {
    match s
    case High => 3
    case Medium => 2
    case Low => 1
  }

  /** An error seen more often is never judged less severe. */
  lemma SeverityMonotone(message: string, f: int, g: int)
    requires f <= g
    ensures SeverityRank(DetermineSeverity(message, f)) <= SeverityRank(DetermineSeverity(message, g))
  {
  }

  /** A message mentioning a high-severity keyword, in any case, is high
      whatever its frequency. */
  lemma HighKeywordIsHigh(message: string, frequency: int, k: nat)
    requires k < |HighKeywords| && Contains(Lower(message), HighKeywords[k])
    ensures DetermineSeverity(message, frequency) == High
  {
  }

  /** A low error is one seen at most once whose wording names no keyword. */
  lemma LowIff(message: string, frequency: int)
    ensures DetermineSeverity(message, frequency) == Low <==>
      frequency < 2
      && (forall k :: 0 <= k < |HighKeywords| ==> !Contains(Lower(message), HighKeywords[k]))
      && (forall k :: 0 <= k < |MediumKeywords| ==> !Contains(Lower(message), MediumKeywords[k]))
  {
  }

  // ---------------------------------------------------------------------------
  // Where an error was seen

  /** The run an error was found in: its start time and the failing step. */
  datatype Sighting = Sighting(startedAt: string, step: string)

  /** The step of the first error of a run with exactly this message. */
  function StepOf(errors: seq<RunError>, message: string): Option<string> {
    if |errors| == 0 then None
    else if errors[0].message == message then Some(errors[0].step)
    else StepOf(errors[1..], message)
  }

  /** `_find_recent_error_run(logs, message)`: the first run, in list order,
      holding an error with exactly this message. */
  function FindRecentErrorRun(runs: seq<Run>, message: string): Option<Sighting> {
    if |runs| == 0 then None
    else match StepOf(runs[0].errors, message)
      case Some(step) => Some(Sighting(runs[0].startedAt, step))
      case None => FindRecentErrorRun(runs[1..], message)
  }

  predicate HasMessage(runs: seq<Run>, i: int, j: int, message: string) {
    0 <= i < |runs| && 0 <= j < |runs[i].errors| && runs[i].errors[j].message == message
  }

  lemma {:induction false} StepOfSpec(errors: seq<RunError>, message: string) returns (j: nat)
    ensures StepOf(errors, message).None? <==> forall k :: 0 <= k < |errors| ==> errors[k].message != message
    ensures StepOf(errors, message).Some? ==>
      j < |errors| && errors[j].message == message && StepOf(errors, message).value == errors[j].step
      && forall k :: 0 <= k < j ==> errors[k].message != message
  {
    j := 0;
    if |errors| > 0 && errors[0].message != message {
      var t := StepOfSpec(errors[1..], message);
      j := t + 1;
      assert forall k :: 1 <= k < |errors| ==> errors[k] == errors[1..][k - 1];
    }
  }

  /** No sighting exactly when no error of any run has the message. */
  lemma {:induction false} FindRecentNone(runs: seq<Run>, message: string)
    ensures FindRecentErrorRun(runs, message).None? <==> forall i, j :: !HasMessage(runs, i, j, message)
  {
    if |runs| > 0 {
      FindRecentNone(runs[1..], message);
      var j0 := StepOfSpec(runs[0].errors, message);
      if StepOf(runs[0].errors, message).Some? {
        assert HasMessage(runs, 0, j0, message);
      }
      if StepOf(runs[0].errors, message).None? && FindRecentErrorRun(runs[1..], message).None? {
        forall i, j ensures !HasMessage(runs, i, j, message) {
          if i > 0 {
            assert !HasMessage(runs[1..], i - 1, j, message);
          }
        }
      }
      if StepOf(runs[0].errors, message).None? && FindRecentErrorRun(runs[1..], message).Some? {
        var i, j :| HasMessage(runs[1..], i, j, message);
        assert HasMessage(runs, i + 1, j, message);
      }
    }
  }

  /** A sighting names the first run with the message, and the step of that
      run's first error with the message. */
  lemma {:induction false} FindRecentFirst(runs: seq<Run>, message: string) returns (i: nat, j: nat)
    requires FindRecentErrorRun(runs, message).Some?
    ensures HasMessage(runs, i, j, message)
    ensures FindRecentErrorRun(runs, message).value == Sighting(runs[i].startedAt, runs[i].errors[j].step)
    ensures forall a, b :: 0 <= a < i ==> !HasMessage(runs, a, b, message)
    ensures forall b :: 0 <= b < j ==> runs[i].errors[b].message != message
  {
    var k := StepOfSpec(runs[0].errors, message);
    if StepOf(runs[0].errors, message).Some? {
      i, j := 0, k;
    } else {
      var i', j' := FindRecentFirst(runs[1..], message);
      i, j := i' + 1, j';
      forall a, b | 0 <= a < i ensures !HasMessage(runs, a, b, message) {
        if a > 0 {
          assert !HasMessage(runs[1..], a - 1, b, message);
        }
      }
    }
  }

  // ---------------------------------------------------------------------------
  // Logs by key

  /** `{l['pipeline_key']: l for l in logs}.get(key)`: the last log with
      the key wins. */
  function LookupLog(logs: seq<PipelineLog>, key: string): Option<PipelineLog> {
    if |logs| == 0 then None
    else if logs[|logs| - 1].pipelineKey == key then Some(logs[|logs| - 1])
    else LookupLog(logs[..|logs| - 1], key)
  }

  lemma {:induction false} LookupLogSpec(logs: seq<PipelineLog>, key: string) returns (i: nat)
    ensures LookupLog(logs, key).None? <==> forall k :: 0 <= k < |logs| ==> logs[k].pipelineKey != key
    ensures LookupLog(logs, key).Some? ==>
      i < |logs| && LookupLog(logs, key).value == logs[i] && logs[i].pipelineKey == key
      && forall k :: i < k < |logs| ==> logs[k].pipelineKey != key
  {
    i := 0;
    if |logs| > 0 {
      var n := |logs| - 1;
      if logs[n].pipelineKey == key {
        i := n;
      } else {
        i := LookupLogSpec(logs[..n], key);
      }
    }
  }

  // ---------------------------------------------------------------------------
  // Bug entries

  datatype Bug = Bug(
    pipelineKey: string,
    pipelineName: string,
    errorMessage: string,
    frequency: int,
    severity: Severity,
    lastSeen: string,
    affectedStep: string)

  function NameOf(log: Option<PipelineLog>): string {
    match log
    case Some(l) => l.pipelineName
    case None => "Unknown Pipeline"
  }

  function RunsOf(log: Option<PipelineLog>): seq<Run> {
    match log
    case Some(l) => l.runs
    case None => []
  }

  /** The bug entry of one counted error of the pipeline `key`. */
  function MakeBug(key: string, log: Option<PipelineLog>, message: string, count: int): (b: Bug)
    ensures b.pipelineKey == key && b.errorMessage == message && b.frequency == count
    ensures b.severity == DetermineSeverity(message, count)
  {
    var name := NameOf(log);
    match FindRecentErrorRun(RunsOf(log), message)
    case Some(s) => Bug(key, name, message, count, DetermineSeverity(message, count), s.startedAt, s.step)
    case None => Bug(key, name, message, count, DetermineSeverity(message, count), "Unknown", "Unknown")
  }

  /** The last-seen time and the step come from the first run of the
      pipeline's log holding the message, and are "Unknown" when none does. */
  lemma MakeBugSighting(key: string, log: Option<PipelineLog>, message: string, count: int)
    ensures var b := MakeBug(key, log, message, count);
      var runs := RunsOf(log);
      && ((forall i, j :: !HasMessage(runs, i, j, message)) ==> b.lastSeen == "Unknown" && b.affectedStep == "Unknown")
      && ((exists i, j :: HasMessage(runs, i, j, message)) ==>
            exists i, j :: HasMessage(runs, i, j, message)
              && b.lastSeen == runs[i].startedAt && b.affectedStep == runs[i].errors[j].step
              && forall a, c :: 0 <= a < i ==> !HasMessage(runs, a, c, message))
  {
    var runs := RunsOf(log);
    FindRecentNone(runs, message);
    if FindRecentErrorRun(runs, message).Some? {
      var i, j := FindRecentFirst(runs, message);
    }
  }

  /** The bug entries of one analysis's counted errors, in order. Entries
      that are not objects never get here: `ExtractBugs` stops at them. */
  function EntryBugs(key: string, log: Option<PipelineLog>, es: seq<TopError>): (r: seq<Bug>)
    ensures |r| <= |es|
    ensures (forall j :: 0 <= j < |es| ==> es[j].Counted?) ==> |r| == |es|
  {
    if |es| == 0 then []
    else
      var rest := EntryBugs(key, log, es[1..]);
      match es[0]
      case Counted(m, c) => [MakeBug(key, log, m, c)] + rest
      case Uncounted(_) => rest
  }

  /** Every bug entry of every analysis, analysis by analysis, before the
      ranking. */
  function CollectedBugs(analyses: seq<Analysis>, logs: seq<PipelineLog>): seq<Bug> {
    if |analyses| == 0 then []
    else
      var a := analyses[0];
      EntryBugs(a.pipelineKey, LookupLog(logs, a.pipelineKey), a.topErrors) + CollectedBugs(analyses[1..], logs)
  }

  function EntryCount(a: Analysis): int {
    |a.topErrors|
  }

  function BugKey(b: Bug): (int, int) {
    (SeverityRank(b.severity), b.frequency)
  }

  /** `_extract_bugs_summary(analyses, logs)`: fails, as `error.get` does,
      at the first error entry that is not an object; otherwise the bug
      entries stably sorted by (severity, frequency), highest first. */
  function ExtractBugs(analyses: seq<Analysis>, logs: seq<PipelineLog>): Result<seq<Bug>, string> {
    match FirstUncounted(analyses)
    case Some(raw) => Failure(NoGetMessage(raw))
    case None => Success(Sort(CollectedBugs(analyses, logs), BugKey, PairGe))
  }

  /** Bug extraction fails exactly when the fleet summary does: on an error
      entry that is not an object, with the same message. */
  lemma ExtractBugsFailure(analyses: seq<Analysis>, logs: seq<PipelineLog>)
    ensures ExtractBugs(analyses, logs).Failure? <==> !AllCounted(analyses)
    ensures ExtractBugs(analyses, logs).Failure? <==> GetFleetSummary(analyses).Failure?
    ensures ExtractBugs(analyses, logs).Failure? ==> ExtractBugs(analyses, logs).error == GetFleetSummary(analyses).error
  {
    FirstUncountedSpec(analyses);
  }

  /** With every entry an object, there is one bug per entry of every
      analysis. */
  lemma {:induction false} CollectedCount(analyses: seq<Analysis>, logs: seq<PipelineLog>)
    requires AllCounted(analyses)
    ensures |CollectedBugs(analyses, logs)| == Sum(analyses, EntryCount)
  {
    if |analyses| > 0 {
      assert forall j :: 0 <= j < |analyses[0].topErrors| ==> analyses[0].topErrors[j].Counted?;
      assert AllCounted(analyses[1..]) by {
        assert forall i :: 0 <= i < |analyses[1..]| ==> analyses[1..][i] == analyses[i + 1];
      }
      CollectedCount(analyses[1..], logs);
    }
  }

  /** Each collected bug comes from a counted entry of some analysis, and
      carries that entry's message and count, its pipeline's key and the
      severity of the message. */
  lemma {:induction false} CollectedProvenance(analyses: seq<Analysis>, logs: seq<PipelineLog>, b: Bug)
    requires b in CollectedBugs(analyses, logs)
    ensures exists i, j :: (0 <= i < |analyses| && 0 <= j < |analyses[i].topErrors|
      && analyses[i].topErrors[j] == Counted(b.errorMessage, b.frequency)
      && analyses[i].pipelineKey == b.pipelineKey)
    ensures b.severity == DetermineSeverity(b.errorMessage, b.frequency)
  {
    var a := analyses[0];
    var head := EntryBugs(a.pipelineKey, LookupLog(logs, a.pipelineKey), a.topErrors);
    if b in head {
      var j := EntryProvenance(a.pipelineKey, LookupLog(logs, a.pipelineKey), a.topErrors, b);
      assert analyses[0].topErrors[j] == Counted(b.errorMessage, b.frequency);
    } else {
      CollectedProvenance(analyses[1..], logs, b);
      var i, j :| 0 <= i < |analyses[1..]| && 0 <= j < |analyses[1..][i].topErrors|
        && analyses[1..][i].topErrors[j] == Counted(b.errorMessage, b.frequency)
        && analyses[1..][i].pipelineKey == b.pipelineKey;
      assert analyses[i + 1].topErrors[j] == Counted(b.errorMessage, b.frequency);
    }
  }

  lemma {:induction false} EntryProvenance(key: string, log: Option<PipelineLog>, es: seq<TopError>, b: Bug) returns (j: nat)
    requires b in EntryBugs(key, log, es)
    ensures j < |es| && es[j] == Counted(b.errorMessage, b.frequency)
    ensures b.pipelineKey == key && b.severity == DetermineSeverity(b.errorMessage, b.frequency)
  {
    var rest := EntryBugs(key, log, es[1..]);
    if es[0].Counted? && b == MakeBug(key, log, es[0].message, es[0].count) {
      j := 0;
    } else {
      assert b in rest;
      var t := EntryProvenance(key, log, es[1..], b);
      j := t + 1;
    }
  }

  /** The extracted bugs: one per error entry, each from its analysis,
      ranked by (severity, frequency) descending, a permutation of the
      collected entries in which equal ranks keep their collected order. */
  lemma ExtractBugsSpec(analyses: seq<Analysis>, logs: seq<PipelineLog>)
    requires AllCounted(analyses)
    ensures ExtractBugs(analyses, logs).Success?
    ensures var bugs := ExtractBugs(analyses, logs).value;
      && |bugs| == Sum(analyses, EntryCount)
      && SortedBy(bugs, BugKey, PairGe)
      && multiset(bugs) == multiset(CollectedBugs(analyses, logs))
      && (forall k :: WithKey(bugs, BugKey, k) == WithKey(CollectedBugs(analyses, logs), BugKey, k))
  {
    FirstUncountedSpec(analyses);
    CollectedCount(analyses, logs);
    var c := CollectedBugs(analyses, logs);
    PairGeTotalOrder();
    SortSorted(c, BugKey, PairGe);
    forall k ensures WithKey(Sort(c, BugKey, PairGe), BugKey, k) == WithKey(c, BugKey, k) {
      SortStable(c, BugKey, PairGe, k);
    }
  }

  /** Every extracted bug traces back to a counted error entry and carries
      the severity of its message and frequency. */
  lemma ExtractedProvenance(analyses: seq<Analysis>, logs: seq<PipelineLog>, b: Bug)
    requires ExtractBugs(analyses, logs).Success? && b in ExtractBugs(analyses, logs).value
    ensures exists i, j :: (0 <= i < |analyses| && 0 <= j < |analyses[i].topErrors|
      && analyses[i].topErrors[j] == Counted(b.errorMessage, b.frequency)
      && analyses[i].pipelineKey == b.pipelineKey)
    ensures b.severity == DetermineSeverity(b.errorMessage, b.frequency)
  {
    var c := CollectedBugs(analyses, logs);
    assert b in multiset(Sort(c, BugKey, PairGe));
    CollectedProvenance(analyses, logs, b);
  }

  /** 1 for a high-severity bug. */
  function HighMark(b: Bug): int {
    if b.severity == High then 1 else 0
  }

  /** The number of high-severity bugs. */
  function HighCount(bugs: seq<Bug>): int {
    Sum(bugs, HighMark)
  }

  lemma {:induction false} HighCountBounds(bugs: seq<Bug>)
    ensures 0 <= HighCount(bugs) <= |bugs|
    ensures HighCount(bugs) == 0 <==> forall i :: 0 <= i < |bugs| ==> bugs[i].severity != High
  {
    if |bugs| > 0 {
      HighCountBounds(bugs[1..]);
      assert forall i :: 1 <= i < |bugs| ==> bugs[i] == bugs[1..][i - 1];
    }
  }
}
