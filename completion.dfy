/** `wait_for_completion`: the monitoring loop that watches the render server's queue for a
    prompt, reports progress, and decides when the render has finished, failed or stalled.
    Each pass of the source's `while True` loop reads one snapshot of the server and the clock;
    the model receives those snapshots as a finite sequence. */
module Completion {
  import opened Wrappers
  import opened OutputFiles

  /** Python's `int(x)` on a float: truncation toward zero. */
  function Trunc(x: real): (n: int)
    ensures x >= 0.0 ==> n as real <= x < n as real + 1.0
    ensures x < 0.0 ==> n as real - 1.0 < x <= n as real
  {
    if x >= 0.0 then x.Floor else -((-x).Floor)
  }

  function MinReal(a: real, b: real): real {
    if a <= b then a else b
  }

  /** The progress shown while the prompt runs: 22% plus up to 73 points as the elapsed time
      approaches the expected duration. */
  function RunningProgress(elapsed: real, expected: real): int
    requires expected > 0.0
  {
    22 + Trunc(73.0 * MinReal(1.0, elapsed / expected))
  }

  /** The progress shown while the prompt waits in the queue: 5% plus half a point per second,
      capped at 20%. */
  function PendingProgress(elapsed: real): int {
    MinInt(20, 5 + Trunc(elapsed * 0.5))
  }

  /** The progress shown once the prompt has left both queues: 95% plus a tenth of a point per
      second past the expected duration, capped at 99%. */
  function ProcessingProgress(elapsed: real, expected: real): int {
    MinInt(99, 95 + Trunc((elapsed - expected) * 0.1))
  }

  lemma TruncMonotone(x: real, y: real)
    requires 0.0 <= x <= y
    ensures Trunc(x) <= Trunc(y)
  {
  }

  /** Running progress lies in [22, 95], never decreases with time, and reaches 95 exactly
      when the expected duration has passed. */
  lemma RunningProgressBounds(elapsed: real, later: real, expected: real)
    requires expected > 0.0 && 0.0 <= elapsed <= later
    ensures 22 <= RunningProgress(elapsed, expected) <= 95
    ensures RunningProgress(elapsed, expected) <= RunningProgress(later, expected)
    ensures RunningProgress(elapsed, expected) == 95 <==> elapsed >= expected
  {
    var r := MinReal(1.0, elapsed / expected);
    var r' := MinReal(1.0, later / expected);
    assert 0.0 <= r <= r' <= 1.0 by {
      DivMonotone(elapsed, later, expected);
    }
    TruncMonotone(73.0 * r, 73.0 * r');
    TruncMonotone(73.0 * r, 73.0);
    if elapsed < expected {
      assert elapsed / expected < 1.0 by { DivBelowOne(elapsed, expected); }
      assert Trunc(73.0 * r) < 73;
    }
  }

  lemma DivMonotone(x: real, y: real, z: real)
    requires 0.0 <= x <= y && z > 0.0
    ensures 0.0 <= x / z <= y / z
  {
  }

  lemma DivBelowOne(x: real, z: real)
    requires 0.0 <= x < z
    ensures x / z < 1.0
  {
  }

  /** Pending progress lies in [5, 20] and is 20 once 30 seconds have passed. */
  lemma PendingProgressBounds(elapsed: real)
    requires elapsed >= 0.0
    ensures 5 <= PendingProgress(elapsed) <= 20
    ensures elapsed >= 30.0 ==> PendingProgress(elapsed) == 20
  {
  }

  /** Processing progress never exceeds 99, is at least 95 once the expected duration has
      passed, and is 99 forty seconds later; before the expected duration it can fall well
      below 95, ten seconds early already to 94 or less. */
  lemma ProcessingProgressBounds(elapsed: real, expected: real)
    ensures ProcessingProgress(elapsed, expected) <= 99
    ensures elapsed >= expected ==> ProcessingProgress(elapsed, expected) >= 95
    ensures elapsed >= expected + 40.0 ==> ProcessingProgress(elapsed, expected) == 99
    ensures elapsed <= expected - 10.0 ==> ProcessingProgress(elapsed, expected) < 95
  {
  }

  /** Where the prompt stands in one snapshot. */
  datatype Status = Running | Pending | Processing

  /** One pass of the loop as the server and the clock answer it.
      `QueueUnavailable`: the `/queue` request failed, raised, or answered with a status other
      than 200; the pass only sleeps.
      `Observed`: seconds since the start, the prompt ids of the running and of the pending
      queue entries, the `status_str` of the prompt's history entry when the history answer
      lists one, and the two output folders as `get_output_files` would find them. */
  datatype Observation =
    | QueueUnavailable
    | Observed(elapsed: real, runningIds: seq<string>, pendingIds: seq<string>,
               historyStatus: Option<string>, video: Listing, output: Listing)

  /** The loop variables carried from pass to pass. */
  datatype Monitor = Monitor(lastStatus: Option<Status>, lastProgressUpdate: int)

  const Start: Monitor := Monitor(None, 0)

  /** One progress line: the status, the percentage and the whole seconds elapsed. */
  datatype Report = Report(status: Status, percent: int, seconds: int)

  /** How the wait ends. `WorkflowError` and `NoOutput` are both `None` in the source;
      `StillWaiting` means the snapshots ran out before the loop returned. */
  datatype Outcome = Completed(path: string) | WorkflowError | NoOutput | StillWaiting

  /** The result of one pass: the loop returns, or goes on with new variables and maybe a
      progress line. */
  datatype Step = Finish(outcome: Outcome) | Continue(next: Monitor, reports: seq<Report>)

  /** Every elapsed time in the snapshots is non-negative (the clock does not run backwards). */
  predicate Sane(obs: seq<Observation>) {
    forall i :: 0 <= i < |obs| && obs[i].Observed? ==> obs[i].elapsed >= 0.0
  }

  /** The status of the prompt in one snapshot: running takes precedence over pending, and a
      prompt in neither queue is being processed. */
  function StatusOf(promptId: string, o: Observation): (r: Status)
    requires o.Observed?
    ensures r == Running <==> promptId in o.runningIds
    ensures r == Pending <==> promptId !in o.runningIds && promptId in o.pendingIds
    ensures r == Processing <==> promptId !in o.runningIds && promptId !in o.pendingIds
  {
    if promptId in o.runningIds then Running
    else if promptId in o.pendingIds then Pending
    else Processing
  }

  function Progress(s: Status, elapsed: real, expected: real): int
    requires expected > 0.0
  {
    match s
    case Running => RunningProgress(elapsed, expected)
    case Pending => PendingProgress(elapsed)
    case Processing => ProcessingProgress(elapsed, expected)
  }

  /** A snapshot that ends the wait: the prompt has left both queues and its history reports
      an error, an output file is found, or more than a minute has passed. */
  predicate Decisive(promptId: string, o: Observation) {
    o.Observed? && promptId !in o.runningIds && promptId !in o.pendingIds &&
    (o.historyStatus == Some("error") || SelectOutput(o.video, o.output).Some? || o.elapsed > 60.0)
  }

  /** The outcome a decisive snapshot gives: an error status wins over a found file. */
  function Decision(o: Observation): Outcome
    requires o.Observed?
  {
    if o.historyStatus == Some("error") then WorkflowError
    else if SelectOutput(o.video, o.output).Some? then Completed(SelectOutput(o.video, o.output).value)
    else NoOutput
  }

  /** One pass of the loop body. */
  function Tick(promptId: string, expected: real, interval: int, m: Monitor, o: Observation): (s: Step)
    requires expected > 0.0
    ensures s.Finish? <==> Decisive(promptId, o)
  {
    match o
    case QueueUnavailable => Continue(m, [])
    case Observed(elapsed, _, _, historyStatus, video, output) =>
      var current := StatusOf(promptId, o);
      var changed := m.lastStatus != Some(current);
      if Decisive(promptId, o) then Finish(Decision(o))
      else if changed || Trunc(elapsed) - m.lastProgressUpdate >= interval then
        Continue(Monitor(Some(current), Trunc(elapsed)), [Report(current, Progress(current, elapsed, expected), Trunc(elapsed))])
      else Continue(Monitor(Some(current), m.lastProgressUpdate), [])
  }

  /** The passes run one after another until one returns. */
  function Run(promptId: string, expected: real, interval: int, m: Monitor, obs: seq<Observation>): (Outcome, seq<Report>)
    requires expected > 0.0
    decreases |obs|
  {
    if obs == [] then (StillWaiting, [])
    else
      match Tick(promptId, expected, interval, m, obs[0])
      case Finish(outcome) => (outcome, [])
      case Continue(next, reports) =>
        var rest := Run(promptId, expected, interval, next, obs[1..]);
        (rest.0, reports + rest.1)
  }

  lemma RunUnfold(promptId: string, expected: real, interval: int, m: Monitor, obs: seq<Observation>)
    requires expected > 0.0 && obs != []
    ensures Run(promptId, expected, interval, m, obs) ==
      match Tick(promptId, expected, interval, m, obs[0])
      case Finish(outcome) => (outcome, [])
      case Continue(next, reports) =>
        (Run(promptId, expected, interval, next, obs[1..]).0, reports + Run(promptId, expected, interval, next, obs[1..]).1)
  {
  }

  lemma AppendAssoc<T>(a: seq<T>, b: seq<T>, c: seq<T>)
    ensures a + (b + c) == (a + b) + c
  {
  }

  /** The loop of `wait_for_completion`, over the snapshots the server and clock give it. */
  method WaitForCompletion(promptId: string, expected: real, interval: int, obs: seq<Observation>)
    returns (outcome: Outcome, reports: seq<Report>)
    requires expected > 0.0
    ensures outcome == Run(promptId, expected, interval, Start, obs).0
    ensures reports == Run(promptId, expected, interval, Start, obs).1
  {
    var lastStatus: Option<Status> := None;
    var lastProgressUpdate := 0;
    reports := [];
    var i := 0;
    while i < |obs|
      invariant 0 <= i <= |obs|
      invariant Run(promptId, expected, interval, Start, obs).0 ==
        Run(promptId, expected, interval, Monitor(lastStatus, lastProgressUpdate), obs[i..]).0
      invariant Run(promptId, expected, interval, Start, obs).1 ==
        reports + Run(promptId, expected, interval, Monitor(lastStatus, lastProgressUpdate), obs[i..]).1
      decreases |obs| - i
    {
      ghost var step := Tick(promptId, expected, interval, Monitor(lastStatus, lastProgressUpdate), obs[i]);
      ghost var before := reports;
      RunUnfold(promptId, expected, interval, Monitor(lastStatus, lastProgressUpdate), obs[i..]);
      assert obs[i..][0] == obs[i] && obs[i..][1..] == obs[i + 1..];
      ghost var added: seq<Report> := [];
      match obs[i] {
        case QueueUnavailable =>
          assert step == Continue(Monitor(lastStatus, lastProgressUpdate), added);
        case Observed(elapsed, runningIds, pendingIds, historyStatus, video, output) =>
          var elapsedInt := Trunc(elapsed);
          var running := promptId in runningIds;
          var pending := promptId in pendingIds;
          var current := if running then Running else if pending then Pending else Processing;
          var statusChanged := lastStatus != Some(current);
          lastStatus := Some(current);
          if !running && !pending {
            if historyStatus == Some("error") {
              assert step == Finish(WorkflowError);
              return WorkflowError, reports;
            }
            var outputFiles := GetOutputFiles(video, output);
            if outputFiles.Some? {
              assert step == Finish(Completed(outputFiles.value));
              return Completed(outputFiles.value), reports;
            }
            if elapsed > 60.0 {
              assert step == Finish(NoOutput);
              return NoOutput, reports;
            }
          }
          assert !Decisive(promptId, obs[i]) && current == StatusOf(promptId, obs[i]);
          if statusChanged || elapsedInt - lastProgressUpdate >= interval {
            var percent := Progress(current, elapsed, expected);
            reports := reports + [Report(current, percent, elapsedInt)];
            added := [Report(current, percent, elapsedInt)];
            lastProgressUpdate := elapsedInt;
          }
          assert step == Continue(Monitor(lastStatus, lastProgressUpdate), added);
      }
      assert reports == before + added;
      ghost var later := Run(promptId, expected, interval, step.next, obs[i + 1..]).1;
      AppendAssoc(before, added, later);
      i := i + 1;
    }
    assert obs[i..] == [];
    outcome := StillWaiting;
  }

  /** Every progress line stays within its status's band: running in [22, 95], pending in
      [5, 20], processing at most 99. */
  lemma {:induction false} ReportsInBands(promptId: string, expected: real, interval: int, m: Monitor, obs: seq<Observation>)
    requires expected > 0.0 && Sane(obs)
    decreases |obs|
    ensures forall r :: r in Run(promptId, expected, interval, m, obs).1 ==>
      && (r.status == Running ==> 22 <= r.percent <= 95)
      && (r.status == Pending ==> 5 <= r.percent <= 20)
      && (r.status == Processing ==> r.percent <= 99)
  {
    if obs != [] {
      var o := obs[0];
      assert Sane(obs[1..]) by {
        forall i | 0 <= i < |obs[1..]| && obs[1..][i].Observed? ensures obs[1..][i].elapsed >= 0.0 {
          assert obs[1..][i] == obs[i + 1];
        }
      }
      match Tick(promptId, expected, interval, m, o)
      case Finish(_) =>
      case Continue(next, reports) =>
        ReportsInBands(promptId, expected, interval, next, obs[1..]);
        if o.Observed? {
          RunningProgressBounds(o.elapsed, o.elapsed, expected);
          PendingProgressBounds(o.elapsed);
          ProcessingProgressBounds(o.elapsed, expected);
        }
    }
  }

  /** The wait ends at the first decisive snapshot, with that snapshot's decision, whatever
      was reported before; with no decisive snapshot it is still waiting. */
  lemma {:induction false} RunEndsAtFirstDecisive(promptId: string, expected: real, interval: int, m: Monitor, obs: seq<Observation>)
    requires expected > 0.0
    ensures (forall i :: 0 <= i < |obs| ==> !Decisive(promptId, obs[i])) ==>
      Run(promptId, expected, interval, m, obs).0 == StillWaiting
    ensures forall k ::
      (0 <= k < |obs| && Decisive(promptId, obs[k]) && forall j :: 0 <= j < k ==> !Decisive(promptId, obs[j])) ==>
      Run(promptId, expected, interval, m, obs).0 == Decision(obs[k])
    decreases |obs|
  {
    if obs != [] {
      match Tick(promptId, expected, interval, m, obs[0])
      case Finish(_) =>
      case Continue(next, _) =>
        RunEndsAtFirstDecisive(promptId, expected, interval, next, obs[1..]);
        forall k | 0 <= k < |obs| && Decisive(promptId, obs[k]) && (forall j :: 0 <= j < k ==> !Decisive(promptId, obs[j]))
          ensures Run(promptId, expected, interval, m, obs).0 == Decision(obs[k])
        {
          assert k > 0;
          assert obs[1..][k - 1] == obs[k];
          assert forall j :: 0 <= j < k - 1 ==> obs[1..][j] == obs[j + 1];
        }
    }
  }

  /** A completed wait returns the path `get_output_files` picks, in the video folder when
      that holds a video; an error status in the history ends the wait as failed even when an
      output file exists. */
  lemma DecisionSpec(o: Observation)
    requires o.Observed?
    ensures o.historyStatus == Some("error") ==> Decision(o) == WorkflowError
    ensures Decision(o).Completed? ==> Some(Decision(o).path) == SelectOutput(o.video, o.output)
    ensures Decision(o).Completed? && HasVideo(o.video) ==>
      PickIn(o.video).Some? && Decision(o).path == VideoDir + "/" + PickIn(o.video).value.name
    ensures Decision(o) == NoOutput ==> !HasVideo(o.video) && !HasVideo(o.output)
  {
    SelectOutputSpec(o.video, o.output);
  }

  /** The first snapshot that finds the prompt in a queue always yields a progress line,
      because the status changes from nothing to running or pending. */
  lemma FirstSnapshotReports(promptId: string, expected: real, interval: int, obs: seq<Observation>)
    requires expected > 0.0 && obs != [] && obs[0].Observed?
    requires promptId in obs[0].runningIds || promptId in obs[0].pendingIds
    ensures var reports := Run(promptId, expected, interval, Start, obs).1;
      reports != [] && reports[0].status == StatusOf(promptId, obs[0]) &&
      reports[0].percent == Progress(StatusOf(promptId, obs[0]), obs[0].elapsed, expected)
  {
  }
}
