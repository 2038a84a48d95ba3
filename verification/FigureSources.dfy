/** Each counted figure of a summary is its own sum over the runs, as the scorer writes it. */
module FigureSources {
  import opened Wrappers
  import opened Rounding
  import opened ScoreContract
  import opened ScoreFigures
  import opened RunRecords
  import opened Tallies
  import opened Scorer

  function Sum(runs: seq<Run>, f: Run -> int): int
    decreases |runs|
  {
    if runs == [] then 0 else Sum(runs[..|runs| - 1], f) + f(runs[|runs| - 1])
  }

  function Total(runs: seq<Run>, f: Run -> real): real
    decreases |runs|
  {
    if runs == [] then 0.0 else Total(runs[..|runs| - 1], f) + f(runs[|runs| - 1])
  }

  /** How many of the runs have a property. */
  function Number(runs: seq<Run>, p: Run -> bool): int { Sum(runs, Flagged(p)) }

  function Flagged(p: Run -> bool): Run -> int { (r: Run) => if p(r) then 1 else 0 }

  ghost predicate Additive(get: Tally -> int) {
    && get(ZERO) == 0
    && forall s: Tally, t: Tally :: get(s.Plus(t)) == get(s) + get(t)
  }

  ghost predicate AdditiveAmount(get: Tally -> real) {
    && get(ZERO) == 0.0
    && forall s: Tally, t: Tally :: get(s.Plus(t)) == get(s) + get(t)
  }

  /** A counter of the fused tally is the separate sum of what it counts. */
  lemma {:induction false} CounterIsSum(runs: seq<Run>, reviews: Reviews, get: Tally -> int, f: Run -> int)
    requires Reviewed(runs, reviews) && Additive(get)
    requires forall r | r in runs :: r.runId in reviews ==> get(CountOf(r, reviews[r.runId])) == f(r)
    ensures get(TallyOf(runs, reviews)) == Sum(runs, f)
    decreases |runs|
  {
    hide CountOf, Tally.Plus;
    if runs != [] {
      var front, last := runs[..|runs| - 1], runs[|runs| - 1];
      assert runs == front + [last];
      CounterIsSum(front, reviews, get, f);
    }
  }

  /** So is an amount. */
  lemma {:induction false} AmountIsTotal(runs: seq<Run>, reviews: Reviews, get: Tally -> real, f: Run -> real)
    requires Reviewed(runs, reviews) && AdditiveAmount(get)
    requires forall r | r in runs :: r.runId in reviews ==> get(CountOf(r, reviews[r.runId])) == f(r)
    ensures get(TallyOf(runs, reviews)) == Total(runs, f)
    decreases |runs|
  {
    hide CountOf, Tally.Plus;
    if runs != [] {
      var front, last := runs[..|runs| - 1], runs[|runs| - 1];
      assert runs == front + [last];
      AmountIsTotal(front, reviews, get, f);
    }
  }

  function Detected(r: Run): int { r.outcome.detectedTruePositives }
  function Known(r: Run): int { r.outcome.knownVulnerabilities }
  function Patched(r: Run): int { r.outcome.correctPatches }
  function Attempted(r: Run): int { r.outcome.attemptedVulnerabilityFixes }
  function Reported(r: Run): int { r.outcome.reportedFindings }
  function Regressed(r: Run): int { r.outcome.regressedAssertions }
  function Passing(r: Run): int { r.outcome.previouslyPassingAssertions }
  function CleanBlocked(r: Run): int { if r.outcome.cleanTask && r.outcome.falseBlocked then 1 else 0 }
  function Clean(r: Run): int { if r.outcome.cleanTask then 1 else 0 }
  function PatchRegressed(r: Run): int { if r.outcome.successfulPatch && r.outcome.hiddenRegression then 1 else 0 }
  function PatchSucceeded(r: Run): int { if r.outcome.successfulPatch then 1 else 0 }
  function Tokens(r: Run): int { r.execution.tokenCount }
  function ToolCalls(r: Run): int { r.execution.toolCallCount }
  function Intercepted(r: Run): int { r.outcome.verifiedRisksIntercepted }
  function Incidents(r: Run): int { r.outcome.postReleaseIncidents }
  function RolledBack(r: Run): int { r.outcome.rollbacks }
  function One(r: Run): int { 1 }
  function ModelCost(r: Run): real { r.execution.modelCostUsd }
  function ComputeCost(r: Run): real { r.execution.computeCostUsd }

  /** A figure of a run's review, read off its run. */
  function Reviewing<T>(reviews: Reviews, figure: Review -> T, none: T): Run -> T {
    (r: Run) => if r.runId in reviews then figure(reviews[r.runId]) else none
  }

  function False(v: Review): int { v.first.falseFindings }
  function Accepted(v: Review): int { if v.accepted then 1 else 0 }
  function Rejected(v: Review): int { if v.accepted then 0 else 1 }
  function Escapes(v: Review): int { v.first.correctness + v.first.security + v.first.operational }
  function ReviewCost(v: Review): real { v.first.costUsd + v.second.costUsd }
  function ReviewMinutes(v: Review): real { v.first.minutes + v.second.minutes }

  /** A run that finished, whole and unblocked, and that its review accepts. */
  function Finished(reviews: Reviews): Run -> int {
    (r: Run) =>
      if r.runId in reviews && r.execution.status == Completed && r.execution.complete && !r.execution.truncated
         && r.outcome.blockersPassed && reviews[r.runId].accepted
      then 1 else 0
  }

  ghost predicate Counts(rate: Rate, runs: seq<Run>, numerator: Run -> int, denominator: Run -> int) {
    rate.numerator == Sum(runs, numerator) && rate.denominator == Sum(runs, denominator)
  }

  lemma FindingSources(a: Numerics, runs: seq<Run>, reviews: Reviews)
    requires AllValid(runs, reviews)
    ensures var q := SummaryFor(a, runs, reviews).quality;
      && Counts(q.vulnerabilityRecall, runs, Detected, Known)
      && Counts(q.correctPatchRate, runs, Patched, Attempted)
      && Counts(q.falseDiscoveryRate, runs, Reviewing(reviews, False, 0), Reported)
  {
    hide ValidRun, ValidReview;
    CounterIsSum(runs, reviews, (t: Tally) => t.findings.detected, Detected);
    CounterIsSum(runs, reviews, (t: Tally) => t.findings.known, Known);
    CounterIsSum(runs, reviews, (t: Tally) => t.findings.patched, Patched);
    CounterIsSum(runs, reviews, (t: Tally) => t.findings.attempted, Attempted);
    CounterIsSum(runs, reviews, (t: Tally) => t.findings.reported, Reported);
    CounterIsSum(runs, reviews, (t: Tally) => t.findings.falseFindings, Reviewing(reviews, False, 0));
  }

  lemma CompletionSources(a: Numerics, runs: seq<Run>, reviews: Reviews)
    requires AllValid(runs, reviews)
    ensures Counts(SummaryFor(a, runs, reviews).quality.taskCompletion, runs, Finished(reviews), One)
  {
    hide ValidRun, ValidReview;
    CounterIsSum(runs, reviews, (t: Tally) => t.statuses.completions, Finished(reviews));
    CounterIsSum(runs, reviews, (t: Tally) => t.statuses.runs, One);
  }

  lemma RegressionSources(a: Numerics, runs: seq<Run>, reviews: Reviews)
    requires AllValid(runs, reviews)
    ensures var q := SummaryFor(a, runs, reviews).quality;
      && Counts(q.cleanCaseFalseBlockerRate, runs, CleanBlocked, Clean)
      && Counts(q.taskRegressionRate, runs, PatchRegressed, PatchSucceeded)
      && Counts(q.assertionRegressionRate, runs, Regressed, Passing)
  {
    hide ValidRun, ValidReview;
    CounterIsSum(runs, reviews, (t: Tally) => t.regressions.falseBlocked, CleanBlocked);
    CounterIsSum(runs, reviews, (t: Tally) => t.regressions.clean, Clean);
    CounterIsSum(runs, reviews, (t: Tally) => t.regressions.hidden, PatchRegressed);
    CounterIsSum(runs, reviews, (t: Tally) => t.regressions.successful, PatchSucceeded);
    CounterIsSum(runs, reviews, (t: Tally) => t.regressions.regressed, Regressed);
    CounterIsSum(runs, reviews, (t: Tally) => t.regressions.assertions, Passing);
  }

  lemma EffortSources(a: Numerics, runs: seq<Run>, reviews: Reviews)
    requires AllValid(runs, reviews)
    ensures var s := SummaryFor(a, runs, reviews);
      && s.efficiency.tokenCount == Sum(runs, Tokens)
      && s.efficiency.toolCallCount == Sum(runs, ToolCalls)
      && s.reviewOutcomes.intercepted == Sum(runs, Intercepted)
      && s.reviewOutcomes.incidents == Sum(runs, Incidents)
      && s.reviewOutcomes.rollbacks == Sum(runs, RolledBack)
  {
    hide ValidRun, ValidReview;
    CounterIsSum(runs, reviews, (t: Tally) => t.effort.tokens, Tokens);
    CounterIsSum(runs, reviews, (t: Tally) => t.effort.toolCalls, ToolCalls);
    CounterIsSum(runs, reviews, (t: Tally) => t.verdicts.intercepted, Intercepted);
    CounterIsSum(runs, reviews, (t: Tally) => t.verdicts.incidents, Incidents);
    CounterIsSum(runs, reviews, (t: Tally) => t.verdicts.rollbacks, RolledBack);
  }

  lemma VerdictSources(a: Numerics, runs: seq<Run>, reviews: Reviews)
    requires AllValid(runs, reviews)
    ensures var s := SummaryFor(a, runs, reviews);
      && s.reviewOutcomes.accepted == Sum(runs, Reviewing(reviews, Accepted, 0))
      && s.reviewOutcomes.rejected == Sum(runs, Reviewing(reviews, Rejected, 0))
      && s.reviewOutcomes.escapes == Sum(runs, Reviewing(reviews, Escapes, 0))
  {
    hide ValidRun, ValidReview;
    CounterIsSum(runs, reviews, (t: Tally) => t.verdicts.accepted, Reviewing(reviews, Accepted, 0));
    CounterIsSum(runs, reviews, (t: Tally) => t.verdicts.rejected, Reviewing(reviews, Rejected, 0));
    CounterIsSum(runs, reviews, (t: Tally) => t.verdicts.escapes, Reviewing(reviews, Escapes, 0));
  }

  lemma CostTotals(runs: seq<Run>, reviews: Reviews)
    requires AllValid(runs, reviews)
    ensures var e := TallyOf(runs, reviews).effort;
      && e.modelCost == Total(runs, ModelCost) && e.computeCost == Total(runs, ComputeCost)
      && e.reviewCost == Total(runs, Reviewing(reviews, ReviewCost, 0.0))
      && e.reviewMinutes == Total(runs, Reviewing(reviews, ReviewMinutes, 0.0))
  {
    hide ValidRun, ValidReview;
    AmountIsTotal(runs, reviews, (t: Tally) => t.effort.modelCost, ModelCost);
    AmountIsTotal(runs, reviews, (t: Tally) => t.effort.computeCost, ComputeCost);
    AmountIsTotal(runs, reviews, (t: Tally) => t.effort.reviewCost, Reviewing(reviews, ReviewCost, 0.0));
    AmountIsTotal(runs, reviews, (t: Tally) => t.effort.reviewMinutes, Reviewing(reviews, ReviewMinutes, 0.0));
  }

  /** Costs and minutes are rounded once, after the runs' amounts are added. */
  lemma CostSources(a: Numerics, runs: seq<Run>, reviews: Reviews)
    requires AllValid(runs, reviews)
    ensures var (model, compute) := (Total(runs, ModelCost), Total(runs, ComputeCost));
      var review := Total(runs, Reviewing(reviews, ReviewCost, 0.0));
      var efficiency := SummaryFor(a, runs, reviews).efficiency;
      && efficiency.costs == Costs(Micros(model), Micros(compute), Micros(review), Micros(model + compute + review))
      && efficiency.humanReviewMinutes == Micros(Total(runs, Reviewing(reviews, ReviewMinutes, 0.0)))
  {
    hide ValidRun, ValidReview, TallyOf, Micros, QualityOf, SummaryOf, Sane, TimingOf, Total, Reviewing;
    CostTotals(runs, reviews);
    TallyIsSane(runs, reviews);
    SummaryParts(a, TallyOf(runs, reviews), runs);
  }

  predicate DidComplete(r: Run) { r.execution.status == Completed }
  predicate DidFail(r: Run) { r.execution.status == Failed }
  predicate WasBlocked(r: Run) { r.execution.status == Blocked }
  predicate DidTimeOut(r: Run) { r.execution.status == TimedOut }

  lemma StatusSources(a: Numerics, runs: seq<Run>, reviews: Reviews)
    requires AllValid(runs, reviews)
    ensures var c := SummaryFor(a, runs, reviews).runCounts;
      && c.attempted == c.included == |runs|
      && c.completed == Number(runs, DidComplete) && c.failed == Number(runs, DidFail)
      && c.blocked == Number(runs, WasBlocked) && c.timedOut == Number(runs, DidTimeOut)
  {
    hide ValidRun, ValidReview, TallyOf, QualityOf, SummaryOf, Sane, EfficiencyOf, Number;
    StatusNumbers(runs, reviews);
    TallyIsSane(runs, reviews);
    SummaryParts(a, TallyOf(runs, reviews), runs);
  }

  lemma StatusNumbers(runs: seq<Run>, reviews: Reviews)
    requires Reviewed(runs, reviews)
    ensures var c := TallyOf(runs, reviews).statuses;
      && c.completed == Number(runs, DidComplete) && c.failed == Number(runs, DidFail)
      && c.blocked == Number(runs, WasBlocked) && c.timedOut == Number(runs, DidTimeOut)
  {
    CounterIsSum(runs, reviews, (t: Tally) => t.statuses.completed, Flagged(DidComplete));
    CounterIsSum(runs, reviews, (t: Tally) => t.statuses.failed, Flagged(DidFail));
    CounterIsSum(runs, reviews, (t: Tally) => t.statuses.blocked, Flagged(WasBlocked));
    CounterIsSum(runs, reviews, (t: Tally) => t.statuses.timedOut, Flagged(DidTimeOut));
  }

  datatype Metric = Line | Branch | Mutation

  /** The value before the candidate change, and after it; either may be missing. */
  function Before(m: Metric, r: Run): Option<real> {
    match m
    case Line => r.baseline.line
    case Branch => r.baseline.branch
    case Mutation => r.baseline.mutation
  }

  function After(m: Metric, r: Run): Option<real> {
    match m
    case Line => r.candidate.line
    case Branch => r.candidate.branch
    case Mutation => r.candidate.mutation
  }

  function Measured(m: Metric): Run -> bool { (r: Run) => Before(m, r).Some? && After(m, r).Some? }

  function Gain(m: Metric): Run -> real {
    (r: Run) => if Before(m, r).Some? && After(m, r).Some? then After(m, r).value - Before(m, r).value else 0.0
  }

  /** The mean gain over exactly the runs that have both values. */
  ghost predicate Gains(d: Delta, runs: seq<Run>, m: Metric) {
    var n := Number(runs, Measured(m));
    && d.sampleCount == n
    && d.mean == if n == 0 then None else Some(Micros(Total(runs, Gain(m)) / n as real))
  }

  lemma CoverageSources(a: Numerics, runs: seq<Run>, reviews: Reviews)
    requires AllValid(runs, reviews)
    ensures var q := SummaryFor(a, runs, reviews).quality;
      Gains(q.line, runs, Line) && Gains(q.branch, runs, Branch) && Gains(q.mutation, runs, Mutation)
  {
    hide ValidRun, ValidReview, TallyOf, SummaryOf, Sane, EfficiencyOf, RateOf, DeltaOf, Gains;
    CoverageGains(runs, reviews);
    TallyIsSane(runs, reviews);
    SummaryParts(a, TallyOf(runs, reviews), runs);
  }

  lemma CoverageGains(runs: seq<Run>, reviews: Reviews)
    requires Reviewed(runs, reviews)
    ensures var c := TallyOf(runs, reviews).coverage;
      && Gains(DeltaOf(c.line.count, c.line.total), runs, Line)
      && Gains(DeltaOf(c.branch.count, c.branch.total), runs, Branch)
      && Gains(DeltaOf(c.mutation.count, c.mutation.total), runs, Mutation)
  {
    hide Gains, DeltaOf, Sampled, TallyOf;
    LineSampled();
    BranchSampled();
    MutationSampled();
    SampleGains(runs, reviews, LineOf, Line);
    SampleGains(runs, reviews, BranchOf, Branch);
    SampleGains(runs, reviews, MutationOf, Mutation);
  }

  function LineOf(t: Tally): Sample { t.coverage.line }
  function BranchOf(t: Tally): Sample { t.coverage.branch }
  function MutationOf(t: Tally): Sample { t.coverage.mutation }

  lemma LineSampled()
    ensures Sampled(LineOf, Line)
  {
  }

  lemma BranchSampled()
    ensures Sampled(BranchOf, Branch)
  {
  }

  lemma MutationSampled()
    ensures Sampled(MutationOf, Mutation)
  {
  }

  /** The sample adds up over the runs, each measured one adding its own gain. */
  ghost predicate Sampled(get: Tally -> Sample, m: Metric) {
    && get(ZERO) == Sample(0, 0.0)
    && (forall s: Tally, t: Tally :: get(s.Plus(t)).count == get(s).count + get(t).count)
    && (forall s: Tally, t: Tally :: get(s.Plus(t)).total == get(s).total + get(t).total)
    && (forall r: Run, v: Review ::
          get(CountOf(r, v)) == if Measured(m)(r) then Sample(1, Gain(m)(r)) else Sample(0, 0.0))
  }

  lemma SampleGains(runs: seq<Run>, reviews: Reviews, get: Tally -> Sample, m: Metric)
    requires Reviewed(runs, reviews) && Sampled(get, m)
    ensures Gains(DeltaOf(get(TallyOf(runs, reviews)).count, get(TallyOf(runs, reviews)).total), runs, m)
  {
    hide CountOf, Tally.Plus, TallyOf, Micros;
    CounterIsSum(runs, reviews, (t: Tally) => get(t).count, Flagged(Measured(m)));
    AmountIsTotal(runs, reviews, (t: Tally) => get(t).total, Gain(m));
  }

  /** Each timing is of exactly the runs' own seconds. */
  lemma TimingSources(a: Numerics, runs: seq<Run>, reviews: Reviews, wall: seq<real>, active: seq<real>,
      queue: seq<real>)
    requires AllValid(runs, reviews) && |wall| == |active| == |queue| == |runs|
    requires forall i | 0 <= i < |runs| ::
      runs[i].execution.(wallClockSeconds := wall[i], activeSeconds := active[i], queueSeconds := queue[i])
        == runs[i].execution
    ensures var e := SummaryFor(a, runs, reviews).efficiency;
      && e.wallClock.sampleCount == e.active.sampleCount == e.queue.sampleCount == |runs|
      && Ranked(e.wallClock, wall) && Ranked(e.active, active) && Ranked(e.queue, queue)
  {
    hide ValidRun, ValidReview, Ranked, QualityOf;
    assert Times(runs, Wall) == wall && Times(runs, Active) == active && Times(runs, Queue) == queue;
    TimingRanks(wall);
    TimingRanks(active);
    TimingRanks(queue);
  }
}
