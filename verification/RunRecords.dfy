/** Run envelopes, human reviews and execution plans (evals/runner/contracts.py). */
module RunRecords {
  import opened Wrappers
  import opened ScoreContract

  const MAX_RUNS := 100_000

  datatype Condition = Plain | JStack
  datatype Mode = Controlled | Operational
  datatype Evidence = DevelopmentMock | Public | Holdout | Pilot
  datatype TaskKind = SeededDefect | HistoricalReplay | CleanControl
  datatype Family = TypescriptWeb | PythonApi | JavaCsharpService | CCppSystem | DataDatabase | LegacyRepository
  datatype RunStatus = Completed | Failed | Blocked | TimedOut

  datatype Host = Host(
    name: string, version: string, model: string, modelVersion: string, permissionProfile: string,
        jstackVersion: string)

  datatype Environment = Environment(image: string, toolVersions: string)

  datatype Limits = Limits(
    wallClockSeconds: int, tokenLimit: int, costUsd: real, toolCallLimit: int, allowedTools: string)

  datatype Execution = Execution(
    status: RunStatus,
    wallClockSeconds: real,
    activeSeconds: real,
    queueSeconds: real,
    tokenCount: int,
    toolCallCount: int,
    modelCostUsd: real,
    computeCostUsd: real,
    complete: bool,
    truncated: bool)

  datatype Outcome = Outcome(
    blockersPassed: bool,
    successfulPatch: bool,
    cleanTask: bool,
    falseBlocked: bool,
    knownVulnerabilities: int,
    detectedTruePositives: int,
    attemptedVulnerabilityFixes: int,
    correctPatches: int,
    reportedFindings: int,
    previouslyPassingAssertions: int,
    regressedAssertions: int,
    hiddenRegression: bool,
    verifiedRisksIntercepted: int,
    postReleaseIncidents: int,
    rollbacks: int)

  datatype Metrics = Metrics(line: Option<real>, branch: Option<real>, mutation: Option<real>)

  datatype Run = Run(
    runId: string,
    pairId: string,
    taskId: string,
    taskDigest: string,
    family: Family,
    taskKind: TaskKind,
    condition: Condition,
    mode: Mode,
    repetition: int,
    evidence: Evidence,
    host: Host,
    environment: Environment,
    baselineCommit: string,
    candidateCommit: string,
    limits: Limits,
    execution: Execution,
    outcome: Outcome,
    baseline: Metrics,
    candidate: Metrics,
    hiddenTests: string,
    result: string)

  datatype ReviewEntry = ReviewEntry(
    reviewer: string, accepted: bool,
    falseFindings: int, correctness: int, security: int, operational: int,
    minutes: real, costUsd: real)

  datatype Adjudication = Adjudication(adjudicator: string, accepted: bool)

  datatype Review = Review(
    runId: string, first: ReviewEntry, second: ReviewEntry, adjudication: Option<Adjudication>, accepted: bool)

  // ------------------------------------------------------- accepted envelopes

  predicate IsAmount(x: real, cap: real) { 0.0 <= x <= cap }

  predicate ValidMetric(x: Option<real>) { x.Some? ==> IsAmount(x.value, 100.0) }

  predicate ValidMetrics(m: Metrics) { ValidMetric(m.line) && ValidMetric(m.branch) && ValidMetric(m.mutation) }

  predicate InRange(r: Run) {
    var (e, o, l) := (r.execution, r.outcome, r.limits);
    && 1 <= r.repetition <= 10_000
    && 1 <= l.wallClockSeconds <= COUNT_CAP && 1 <= l.tokenLimit <= COUNT_CAP
    && IsAmount(l.costUsd, 1_000_000.0) && IsCount(l.toolCallLimit)
    && IsAmount(e.wallClockSeconds, NUMBER_CAP as real) && IsAmount(e.activeSeconds, NUMBER_CAP as real)
    && IsAmount(e.queueSeconds, NUMBER_CAP as real)
    && IsCount(e.tokenCount) && IsCount(e.toolCallCount)
    && IsAmount(e.modelCostUsd, 1_000_000.0) && IsAmount(e.computeCostUsd, 1_000_000.0)
    && IsCount(o.knownVulnerabilities) && IsCount(o.detectedTruePositives) && IsCount(o.attemptedVulnerabilityFixes)
    && IsCount(o.correctPatches) && IsCount(o.reportedFindings) && IsCount(o.previouslyPassingAssertions)
    && IsCount(o.regressedAssertions) && IsCount(o.verifiedRisksIntercepted) && IsCount(o.postReleaseIncidents)
    && IsCount(o.rollbacks)
    && ValidMetrics(r.baseline) && ValidMetrics(r.candidate)
  }

  predicate OverBudget(r: Run) {
    || r.execution.wallClockSeconds > r.limits.wallClockSeconds as real
    || r.execution.tokenCount > r.limits.tokenLimit
    || r.execution.toolCallCount > r.limits.toolCallLimit
    || r.execution.modelCostUsd + r.execution.computeCostUsd > r.limits.costUsd + 0.000001
  }

  /** What `validate_run` demands across the fields of one envelope. */
  predicate ValidRun(r: Run) {
    var (e, o) := (r.execution, r.outcome);
    && InRange(r)
    && o.detectedTruePositives <= o.knownVulnerabilities
    && o.correctPatches <= o.attemptedVulnerabilityFixes
    && o.correctPatches <= o.detectedTruePositives
    && (o.correctPatches > 0 ==>
          o.successfulPatch && e.status == Completed && e.complete && !e.truncated && o.blockersPassed)
    && o.regressedAssertions <= o.previouslyPassingAssertions
    && (o.falseBlocked ==> o.cleanTask)
    && (o.cleanTask <==> r.taskKind == CleanControl)
    && (o.cleanTask ==> o.knownVulnerabilities == 0)
    && (o.hiddenRegression || o.regressedAssertions > 0 ==> !o.blockersPassed && o.correctPatches == 0)
    && (OverBudget(r) ==> e.status != Completed && !e.complete && !o.blockersPassed)
  }

  predicate ValidEntry(e: ReviewEntry) {
    && IsCount(e.falseFindings) && IsCount(e.correctness) && IsCount(e.security) && IsCount(e.operational)
    && IsAmount(e.minutes, 100_000.0) && IsAmount(e.costUsd, 1_000_000.0)
  }

  /** Two distinct reviewers who agree on every count; a split verdict needs a third person. */
  predicate ValidReview(v: Review) {
    && ValidEntry(v.first) && ValidEntry(v.second)
    && v.first.reviewer != v.second.reviewer
    && (v.first.falseFindings, v.first.correctness, v.first.security, v.first.operational)
       == (v.second.falseFindings, v.second.correctness, v.second.security, v.second.operational)
    && (v.adjudication.Some? <==> v.first.accepted != v.second.accepted)
    && (v.adjudication.Some? ==> v.adjudication.value.adjudicator !in {v.first.reviewer, v.second.reviewer})
    && v.accepted == (if v.adjudication.Some? then v.adjudication.value.accepted else v.first.accepted)
  }

  // ------------------------------------------------------------------- plans

  /** The fields of a run that its execution plan fixes in advance. */
  datatype Binding = Binding(
    runId: string,
    pairId: string,
    taskId: string,
    taskDigest: string,
    family: Family,
    taskKind: TaskKind,
    condition: Condition,
    mode: Mode,
    repetition: int,
    evidence: Evidence,
    host: Sha<Host>,
    environment: Sha<Environment>,
    limits: Sha<Limits>,
    baselineCommit: string,
    hiddenTests: string)

  datatype Manifest = Manifest(
    corpusId: string, corpusVersion: string, taskFiles: nat, evidence: Option<Evidence>, expectedRuns: seq<Binding>)

  function ExpectedRunBinding(r: Run): Binding {
    Binding(r.runId, r.pairId, r.taskId, r.taskDigest, r.family, r.taskKind, r.condition, r.mode, r.repetition,
        r.evidence,
            Sha(r.host), Sha(r.environment), Sha(r.limits), r.baselineCommit, r.hiddenTests)
  }

  function RunKey(r: Run): string { r.runId }
  function ReviewKey(v: Review): string { v.runId }
  function BindingKey(b: Binding): string { b.runId }

  function Bindings(runs: seq<Run>): (bs: seq<Binding>)
    ensures |bs| == |runs|
    ensures forall i | 0 <= i < |runs| :: bs[i] == ExpectedRunBinding(runs[i])
  {
    if runs == [] then [] else [ExpectedRunBinding(runs[0])] + Bindings(runs[1..])
  }
}
