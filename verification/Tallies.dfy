/**
 One summary of a set of runs (evals/runner/score.py, `_summarize_runs`): the
 counters it accumulates, and the figures derived from them.
 */
module Tallies {
  import opened Wrappers
  import opened Rounding
  import opened ScoreFigures
  import opened ScoreContract
  import opened RunRecords

  type Reviews = map<string, Review>

  predicate Completion(r: Run, v: Review) {
    && r.execution.status == Completed
    && r.execution.complete && !r.execution.truncated
    && r.outcome.blockersPassed
    && v.accepted
  }

  datatype Sample = Sample(count: nat, total: real) {
    function Plus(other: Sample): Sample { Sample(count + other.count, total + other.total) }
  }

  datatype Statuses = Statuses(runs: nat, completed: nat, failed: nat, blocked: nat, timedOut: nat, completions: nat) {
    function Plus(o: Statuses): Statuses {
      Statuses(runs + o.runs, completed + o.completed, failed + o.failed, blocked + o.blocked, timedOut + o.timedOut,
               completions + o.completions)
    }
  }

  datatype Findings = Findings(known: int, detected: int, attempted: int, patched: int, reported: int,
      falseFindings: int) {
    function Plus(o: Findings): Findings {
      Findings(known + o.known, detected + o.detected, attempted + o.attempted, patched + o.patched,
               reported + o.reported, falseFindings + o.falseFindings)
    }
  }

  datatype Regressions =
    Regressions(clean: nat, falseBlocked: nat, successful: nat, hidden: nat, assertions: int, regressed: int)
  {
    function Plus(o: Regressions): Regressions {
      Regressions(clean + o.clean, falseBlocked + o.falseBlocked, successful + o.successful, hidden + o.hidden,
                  assertions + o.assertions, regressed + o.regressed)
    }
  }

  datatype Coverage = Coverage(line: Sample, branch: Sample, mutation: Sample) {
    function Plus(o: Coverage): Coverage {
      Coverage(line.Plus(o.line), branch.Plus(o.branch), mutation.Plus(o.mutation))
    }
  }

  datatype Effort =
    Effort(modelCost: real, computeCost: real, reviewCost: real, reviewMinutes: real, tokens: int, toolCalls: int)
  {
    function Plus(o: Effort): Effort {
      Effort(modelCost + o.modelCost, computeCost + o.computeCost, reviewCost + o.reviewCost,
             reviewMinutes + o.reviewMinutes, tokens + o.tokens, toolCalls + o.toolCalls)
    }
  }

  datatype Verdicts =
    Verdicts(accepted: nat, rejected: nat, escapes: int, intercepted: int, incidents: int, rollbacks: int)
  {
    function Plus(o: Verdicts): Verdicts {
      Verdicts(accepted + o.accepted, rejected + o.rejected, escapes + o.escapes, intercepted + o.intercepted,
               incidents + o.incidents, rollbacks + o.rollbacks)
    }
  }

  /** Every counter a summary accumulates. */
  datatype Tally = Tally(
    statuses: Statuses, findings: Findings, regressions: Regressions, coverage: Coverage, effort: Effort,
        verdicts: Verdicts)
  {
    function Plus(o: Tally): Tally {
      Tally(statuses.Plus(o.statuses), findings.Plus(o.findings), regressions.Plus(o.regressions),
            coverage.Plus(o.coverage), effort.Plus(o.effort), verdicts.Plus(o.verdicts))
    }
  }

  const NO_SAMPLE := Sample(0, 0.0)

  const ZERO := Tally(
    Statuses(0, 0, 0, 0, 0, 0), Findings(0, 0, 0, 0, 0, 0), Regressions(0, 0, 0, 0, 0, 0),
    Coverage(NO_SAMPLE, NO_SAMPLE, NO_SAMPLE), Effort(0.0, 0.0, 0.0, 0.0, 0, 0), Verdicts(0, 0, 0, 0, 0, 0))

  function Bit(b: bool): nat { if b then 1 else 0 }

  function Change(before: Option<real>, after: Option<real>): Sample {
    if before.Some? && after.Some? then Sample(1, after.value - before.value) else NO_SAMPLE
  }

  function StatusesOf(r: Run, v: Review): Statuses {
    var e := r.execution;
    Statuses(1, Bit(e.status == Completed), Bit(e.status == Failed), Bit(e.status == Blocked),
        Bit(e.status == TimedOut),
             Bit(Completion(r, v)))
  }

  function FindingsOf(r: Run, v: Review): Findings {
    var o := r.outcome;
    Findings(o.knownVulnerabilities, o.detectedTruePositives, o.attemptedVulnerabilityFixes, o.correctPatches,
             o.reportedFindings, v.first.falseFindings)
  }

  function RegressionsOf(r: Run): Regressions {
    var o := r.outcome;
    Regressions(Bit(o.cleanTask), Bit(o.cleanTask && o.falseBlocked),
                Bit(o.successfulPatch), Bit(o.successfulPatch && o.hiddenRegression),
                o.previouslyPassingAssertions, o.regressedAssertions)
  }

  function CoverageOf(r: Run): Coverage {
    Coverage(Change(r.baseline.line, r.candidate.line),
             Change(r.baseline.branch, r.candidate.branch),
             Change(r.baseline.mutation, r.candidate.mutation))
  }

  function EffortOf(r: Run, v: Review): Effort {
    var e := r.execution;
    Effort(e.modelCostUsd, e.computeCostUsd, v.first.costUsd + v.second.costUsd, v.first.minutes + v.second.minutes,
           e.tokenCount, e.toolCallCount)
  }

  function VerdictsOf(r: Run, v: Review): Verdicts {
    var o := r.outcome;
    Verdicts(Bit(v.accepted), Bit(!v.accepted), v.first.correctness + v.first.security + v.first.operational,
             o.verifiedRisksIntercepted, o.postReleaseIncidents, o.rollbacks)
  }

  /** What one run and its review add. */
  function CountOf(r: Run, v: Review): Tally {
    Tally(StatusesOf(r, v), FindingsOf(r, v), RegressionsOf(r), CoverageOf(r), EffortOf(r, v), VerdictsOf(r, v))
  }

  predicate Reviewed(runs: seq<Run>, reviews: Reviews) {
    forall i | 0 <= i < |runs| :: runs[i].runId in reviews
  }

  function TallyOf(runs: seq<Run>, reviews: Reviews): Tally
    requires Reviewed(runs, reviews)
    decreases |runs|
  {
    if runs == [] then ZERO
    else
      var (front, last) := (runs[..|runs| - 1], runs[|runs| - 1]);
      TallyOf(front, reviews).Plus(CountOf(last, reviews[last.runId]))
  }

  function Wall(r: Run): real { r.execution.wallClockSeconds }
  function Active(r: Run): real { r.execution.activeSeconds }
  function Queue(r: Run): real { r.execution.queueSeconds }

  function Times(runs: seq<Run>, time: Run -> real): seq<real> {
    seq(|runs|, i requires 0 <= i < |runs| => time(runs[i]))
  }

  function QualityOf(a: Numerics, t: Tally): Quality
    requires t.findings.attempted >= 0 && t.findings.known >= 0 && t.findings.reported >= 0
    requires t.regressions.assertions >= 0
  {
    Quality(
      RateOf(a, t.statuses.completions, t.statuses.runs),
      RateOf(a, t.findings.detected, t.findings.known),
      RateOf(a, t.findings.patched, t.findings.attempted),
      RateOf(a, t.findings.falseFindings, t.findings.reported),
      RateOf(a, t.regressions.falseBlocked, t.regressions.clean),
      RateOf(a, t.regressions.hidden, t.regressions.successful),
      RateOf(a, t.regressions.regressed, t.regressions.assertions),
      DeltaOf(t.coverage.line.count, t.coverage.line.total),
      DeltaOf(t.coverage.branch.count, t.coverage.branch.total),
      DeltaOf(t.coverage.mutation.count, t.coverage.mutation.total))
  }

  function EfficiencyOf(e: Effort, runs: seq<Run>): Efficiency {
    Efficiency(
      CostsOf(e.modelCost, e.computeCost, e.reviewCost),
      e.tokens, e.toolCalls, Micros(e.reviewMinutes),
      TimingOf(Times(runs, Wall)), TimingOf(Times(runs, Active)), TimingOf(Times(runs, Queue)))
  }

  function SummaryOf(a: Numerics, t: Tally, runs: seq<Run>): Summary
    requires t.findings.attempted >= 0 && t.findings.known >= 0 && t.findings.reported >= 0
    requires t.regressions.assertions >= 0
  {
    var (c, v) := (t.statuses, t.verdicts);
    Summary(
      RunCounts(|runs|, |runs|, c.completed, c.failed, c.blocked, c.timedOut),
      QualityOf(a, t),
      EfficiencyOf(t.effort, runs),
      ReviewOutcomes(v.accepted, v.rejected, v.escapes, v.intercepted, v.incidents, v.rollbacks))
  }

  // ----------------------------------------------------------- what counts keep

  /** The relations between counters that every accepted envelope keeps. */
  predicate Sane(t: Tally) {
    && t.statuses.completed + t.statuses.failed + t.statuses.blocked + t.statuses.timedOut == t.statuses.runs
    && t.verdicts.accepted + t.verdicts.rejected == t.statuses.runs
    && t.statuses.completions <= t.statuses.runs
    && 0 <= t.findings.detected <= t.findings.known
    && 0 <= t.findings.patched <= t.findings.attempted
    && 0 <= t.findings.reported && 0 <= t.findings.falseFindings
    && t.regressions.falseBlocked <= t.regressions.clean <= t.statuses.runs
    && t.regressions.hidden <= t.regressions.successful <= t.statuses.runs
    && 0 <= t.regressions.regressed <= t.regressions.assertions
    && SaneSample(t.coverage.line, t.statuses.runs) && SaneSample(t.coverage.branch, t.statuses.runs)
    && SaneSample(t.coverage.mutation, t.statuses.runs)
    && 0.0 <= t.effort.modelCost <= 1_000_000.0 * t.statuses.runs as real
    && 0.0 <= t.effort.computeCost <= 1_000_000.0 * t.statuses.runs as real
    && 0.0 <= t.effort.reviewCost <= 2_000_000.0 * t.statuses.runs as real
    && 0.0 <= t.effort.reviewMinutes <= 200_000.0 * t.statuses.runs as real
    && 0 <= t.effort.tokens && 0 <= t.effort.toolCalls
    && 0 <= t.verdicts.escapes && 0 <= t.verdicts.intercepted && 0 <= t.verdicts.incidents && 0 <= t.verdicts.rollbacks
  }

  predicate SaneSample(s: Sample, runs: nat) {
    s.count <= runs && -100.0 * s.count as real <= s.total <= 100.0 * s.count as real
  }

  lemma CountIsSane(r: Run, v: Review)
    requires ValidRun(r) && ValidReview(v)
    ensures Sane(CountOf(r, v))
  {
  }

  lemma PlusIsSane(s: Tally, t: Tally)
    requires Sane(s) && Sane(t)
    ensures Sane(s.Plus(t))
  {
  }

  ghost predicate AllValid(runs: seq<Run>, reviews: Reviews) {
    && Reviewed(runs, reviews)
    && forall i | 0 <= i < |runs| :: ValidRun(runs[i]) && ValidReview(reviews[runs[i].runId])
  }

  lemma {:induction false} TallyIsSane(runs: seq<Run>, reviews: Reviews)
    requires AllValid(runs, reviews)
    ensures Sane(TallyOf(runs, reviews))
    ensures TallyOf(runs, reviews).statuses.runs == |runs|
    decreases |runs|
  {
    hide ValidRun, ValidReview, CountOf, Sane;
    if runs == [] {
      ZeroIsSane(ZERO);
    } else {
      var front, last := runs[..|runs| - 1], runs[|runs| - 1];
      TallyIsSane(front, reviews);
      CountIsSane(last, reviews[last.runId]);
      PlusIsSane(TallyOf(front, reviews), CountOf(last, reviews[last.runId]));
      OneRun(last, reviews[last.runId]);
    }
  }

  lemma ZeroIsSane(zero: Tally)
    requires zero == ZERO
    ensures Sane(zero) && zero.statuses.runs == 0
  {
  }

  lemma OneRun(r: Run, v: Review)
    ensures CountOf(r, v).statuses.runs == 1
  {
  }

  function Filter(runs: seq<Run>, condition: Condition): (part: seq<Run>)
    ensures forall r :: r in part <==> r in runs && r.condition == condition
    decreases |runs|
  {
    if runs == [] then []
    else
      var (front, last) := (runs[..|runs| - 1], runs[|runs| - 1]);
      assert runs == front + [last];
      Filter(front, condition) + if last.condition == condition then [last] else []
  }

  lemma FilterValid(runs: seq<Run>, reviews: Reviews, condition: Condition)
    requires AllValid(runs, reviews)
    ensures AllValid(Filter(runs, condition), reviews)
  {
    var part := Filter(runs, condition);
    forall i | 0 <= i < |part|
      ensures part[i] in runs
    {
      assert part[i] in part;
    }
  }

  lemma TallySnoc(runs: seq<Run>, r: Run, reviews: Reviews)
    requires Reviewed(runs + [r], reviews)
    ensures Reviewed(runs, reviews)
    ensures TallyOf(runs + [r], reviews) == TallyOf(runs, reviews).Plus(CountOf(r, reviews[r.runId]))
  {
    assert (runs + [r])[..|runs|] == runs;
    assert (runs + [r])[|runs|] == r;
    forall i | 0 <= i < |runs|
      ensures runs[i].runId in reviews
    {
      assert (runs + [r])[i] == runs[i];
    }
  }

  /** Nothing is lost or counted twice when the runs are split by condition. */
  lemma {:induction false} TallySplits(runs: seq<Run>, reviews: Reviews)
    requires AllValid(runs, reviews)
    ensures AllValid(Filter(runs, Plain), reviews) && AllValid(Filter(runs, JStack), reviews)
    ensures TallyOf(runs, reviews) == TallyOf(Filter(runs, Plain), reviews).Plus(TallyOf(Filter(runs, JStack), reviews))
    ensures |runs| == |Filter(runs, Plain)| + |Filter(runs, JStack)|
    decreases |runs|
  {
    hide ValidRun, ValidReview, CountOf, Tally.Plus;
    FilterValid(runs, reviews, Plain);
    FilterValid(runs, reviews, JStack);
    if runs == [] {
      PlusZero(ZERO, ZERO);
    } else {
      var front, last := runs[..|runs| - 1], runs[|runs| - 1];
      TallySplits(front, reviews);
      var plain, jstack := Filter(front, Plain), Filter(front, JStack);
      var p, j, one := TallyOf(plain, reviews), TallyOf(jstack, reviews), CountOf(last, reviews[last.runId]);
      if last.condition == Plain {
        assert Filter(runs, Plain) == plain + [last] && Filter(runs, JStack) == jstack;
        TallySnoc(plain, last, reviews);
        PlusSwaps(p, j, one);
      } else {
        assert Filter(runs, JStack) == jstack + [last] && Filter(runs, Plain) == plain;
        TallySnoc(jstack, last, reviews);
        PlusAssociates(p, j, one);
      }
    }
  }

  lemma PlusZero(t: Tally, zero: Tally)
    requires zero == ZERO
    ensures t.Plus(zero) == t
  {
  }

  lemma PlusSwaps(x: Tally, y: Tally, z: Tally)
    ensures x.Plus(y).Plus(z) == x.Plus(z).Plus(y)
  {
  }

  lemma PlusAssociates(x: Tally, y: Tally, z: Tally)
    ensures x.Plus(y).Plus(z) == x.Plus(y.Plus(z))
  {
  }

  /** Sum the counters of all runs, one run at a time. */
  method SummarizeRuns(a: Numerics, runs: seq<Run>, reviews: Reviews) returns (r: Option<Summary>)
    requires AllValid(runs, reviews)
    ensures Sane(TallyOf(runs, reviews))
    ensures var t := TallyOf(runs, reviews);
      r == if t.findings.falseFindings > t.findings.reported then None else Some(SummaryOf(a, t, runs))
  {
    hide ValidRun, ValidReview, CountOf, SummaryOf, Tally.Plus, Sane;
    TallyIsSane(runs, reviews);
    SaneParts(TallyOf(runs, reviews));
    var t := ZERO;
    for i := 0 to |runs|
      invariant t == TallyOf(runs[..i], reviews)
    {
      assert runs[..i + 1] == runs[..i] + [runs[i]];
      TallySnoc(runs[..i], runs[i], reviews);
      t := t.Plus(CountOf(runs[i], reviews[runs[i].runId]));
    }
    assert runs[..|runs|] == runs;
    return if t.findings.falseFindings > t.findings.reported then None else Some(SummaryOf(a, t, runs));
  }

  lemma SaneParts(t: Tally)
    requires Sane(t)
    ensures t.findings.attempted >= 0 && t.findings.known >= 0 && t.findings.reported >= 0
    ensures t.regressions.assertions >= 0
  {
  }

  // --------------------------------------------------- summaries meet the checks

  /** Counters that grow without bound with the number of runs. */
  predicate InCaps(t: Tally) {
    && IsCount(t.findings.known) && IsCount(t.findings.attempted) && IsCount(t.findings.reported)
    && IsCount(t.regressions.assertions)
    && IsCount(t.effort.tokens) && IsCount(t.effort.toolCalls)
    && IsCount(t.verdicts.escapes) && IsCount(t.verdicts.intercepted) && IsCount(t.verdicts.incidents)
    && IsCount(t.verdicts.rollbacks)
  }

  lemma TimesWithin(runs: seq<Run>, reviews: Reviews)
    requires AllValid(runs, reviews) && |runs| <= MAX_RUNS
    ensures ValidTiming(TimingOf(Times(runs, Wall)))
    ensures ValidTiming(TimingOf(Times(runs, Active)))
    ensures ValidTiming(TimingOf(Times(runs, Queue)))
  {
    hide Percentile;
    if runs == [] {
      EmptyTiming();
      assert Times(runs, Wall) == [] && Times(runs, Active) == [] && Times(runs, Queue) == [];
    } else {
      forall i | 0 <= i < |runs|
        ensures IsAmount(Wall(runs[i]), NUMBER_CAP as real) && IsAmount(Active(runs[i]), NUMBER_CAP as real)
        ensures IsAmount(Queue(runs[i]), NUMBER_CAP as real)
      {
        assert InRange(runs[i]);
      }
      PercentilesOrdered(Times(runs, Wall), 0, NUMBER_CAP);
      PercentilesOrdered(Times(runs, Active), 0, NUMBER_CAP);
      PercentilesOrdered(Times(runs, Queue), 0, NUMBER_CAP);
    }
  }

  lemma EmptyTiming()
    ensures TimingOf([]) == Timing(0, None, None)
  {
  }

  lemma QualityAccepted(a: Numerics, t: Tally)
    requires a.Exact() && Sane(t) && t.statuses.runs <= MAX_RUNS && t.findings.falseFindings <= t.findings.reported
    ensures ValidQuality(a, QualityOf(a, t)) <==>
      && IsCount(t.findings.known) && IsCount(t.findings.attempted) && IsCount(t.findings.reported)
      && IsCount(t.regressions.assertions)
  {
    forall k: int, n: nat | 0 <= k <= n <= COUNT_CAP
      ensures ValidRate(a, RateOf(a, k, n))
    {
      hide RateFits, RateFor;
      if n > 0 {
        Proportion(k, n);
        RateFitsItself(a, k, n, Ratio(k, n));
      }
    }
    forall k: int, n: nat | ValidRate(a, RateOf(a, k, n))
      ensures n <= COUNT_CAP && 0 <= k <= n
    {
      hide RateFits, RateFor;
    }
    hide ValidRate, ValidDelta, RateOf, DeltaOf;
    DeltaAccepted(t.coverage.line.count, t.coverage.line.total);
    DeltaAccepted(t.coverage.branch.count, t.coverage.branch.total);
    DeltaAccepted(t.coverage.mutation.count, t.coverage.mutation.total);
  }

  lemma AmountsAccepted(t: Tally)
    requires Sane(t) && t.statuses.runs <= MAX_RUNS
    ensures ValidCosts(CostsOf(t.effort.modelCost, t.effort.computeCost, t.effort.reviewCost))
       <==> !CostTie(t.effort.modelCost, t.effort.computeCost, t.effort.reviewCost)
    ensures IsNumber(Micros(t.effort.reviewMinutes))
  {
    hide CostsOf, CostTie, ValidCosts, Micros;
    CostsAccepted(t.effort.modelCost, t.effort.computeCost, t.effort.reviewCost);
    MicrosWithin(t.effort.reviewMinutes, 0, NUMBER_CAP);
  }

  /** A summary of accepted envelopes passes every check exactly when its counters
      are in range and its three cost totals do not tie the same way. */
  lemma SummaryAccepted(a: Numerics, runs: seq<Run>, reviews: Reviews)
    requires a.Exact() && AllValid(runs, reviews) && |runs| <= MAX_RUNS
    requires TallyOf(runs, reviews).findings.falseFindings <= TallyOf(runs, reviews).findings.reported
    ensures Sane(TallyOf(runs, reviews))
    ensures var t := TallyOf(runs, reviews);
      var tie := CostTie(t.effort.modelCost, t.effort.computeCost, t.effort.reviewCost);
      ValidSummary(a, SummaryOf(a, t, runs)) <==> InCaps(t) && !tie
  {
    hide ValidRun, ValidReview, ValidQuality, ValidTiming, ValidCosts, CostTie, CostsOf, QualityOf, TimingOf, Micros,
        TallyOf, IsNumber;
    TallyIsSane(runs, reviews);
    var t := TallyOf(runs, reviews);
    QualityAccepted(a, t);
    AmountsAccepted(t);
    TimesWithin(runs, reviews);
  }

  lemma SummaryParts(a: Numerics, t: Tally, runs: seq<Run>)
    requires Sane(t)
    ensures t.findings.attempted >= 0 && t.findings.known >= 0 && t.findings.reported >= 0
    ensures t.regressions.assertions >= 0
    ensures var (s, c) := (SummaryOf(a, t, runs), t.statuses);
      && s.runCounts == RunCounts(|runs|, |runs|, c.completed, c.failed, c.blocked, c.timedOut)
      && s.quality == QualityOf(a, t) && s.efficiency == EfficiencyOf(t.effort, runs)
      && var v := t.verdicts;
         s.reviewOutcomes == ReviewOutcomes(v.accepted, v.rejected, v.escapes, v.intercepted, v.incidents, v.rollbacks)
  {
  }

  /** The three summaries of one set of runs reconcile. */
  lemma SummariesReconcile(a: Numerics, runs: seq<Run>, plain: seq<Run>, jstack: seq<Run>, p: Tally, j: Tally)
    requires |runs| == |plain| + |jstack|
    requires Sane(p) && Sane(j) && Sane(p.Plus(j))
    requires ValidSummary(a, SummaryOf(a, p.Plus(j), runs))
    requires ValidSummary(a, SummaryOf(a, p, plain)) && ValidSummary(a, SummaryOf(a, j, jstack))
    ensures Reconciles(a, SummaryOf(a, p.Plus(j), runs), SummaryOf(a, p, plain), SummaryOf(a, j, jstack))
  {
    hide Sane, SummaryOf, ValidQuality, ValidEfficiency, ValidRunCounts, ValidReviewOutcomes, QualityOf, EfficiencyOf,
        EfficiencyAdds, QualityAdds;
    SummaryParts(a, p.Plus(j), runs);
    SummaryParts(a, p, plain);
    SummaryParts(a, j, jstack);
    QualitiesReconcile(a, p, j);
    EfficienciesReconcile(p.effort, j.effort, runs, plain, jstack);
  }

  lemma EfficienciesReconcile(p: Effort, j: Effort, runs: seq<Run>, plain: seq<Run>, jstack: seq<Run>)
    requires |runs| == |plain| + |jstack|
    ensures EfficiencyAdds(EfficiencyOf(p.Plus(j), runs), EfficiencyOf(p, plain), EfficiencyOf(j, jstack))
  {
    hide CostsOf, TimingOf, Micros, AmountAdds;
    TimingCounts(runs);
    TimingCounts(plain);
    TimingCounts(jstack);
    CostsReconcile(p, j);
    AmountsReconcile(p.reviewMinutes, j.reviewMinutes);
  }

  lemma TimingCounts(runs: seq<Run>)
    ensures TimingOf(Times(runs, Wall)).sampleCount == |runs|
    ensures TimingOf(Times(runs, Active)).sampleCount == |runs|
    ensures TimingOf(Times(runs, Queue)).sampleCount == |runs|
  {
  }

  lemma CostsReconcile(p: Effort, j: Effort)
    ensures var (o, x, y) := (
        CostsOf(p.modelCost + j.modelCost, p.computeCost + j.computeCost, p.reviewCost + j.reviewCost),
        CostsOf(p.modelCost, p.computeCost, p.reviewCost), CostsOf(j.modelCost, j.computeCost, j.reviewCost));
      && AmountAdds(o.model, x.model, y.model) && AmountAdds(o.compute, x.compute, y.compute)
      && AmountAdds(o.humanReview, x.humanReview, y.humanReview) && AmountAdds(o.total, x.total, y.total)
  {
    hide Micros;
    AmountsReconcile(p.modelCost, j.modelCost);
    AmountsReconcile(p.computeCost, j.computeCost);
    AmountsReconcile(p.reviewCost, j.reviewCost);
    AmountsReconcile(p.modelCost + p.computeCost + p.reviewCost, j.modelCost + j.computeCost + j.reviewCost);
    assert p.modelCost + p.computeCost + p.reviewCost + (j.modelCost + j.computeCost + j.reviewCost)
        == p.modelCost + j.modelCost + (p.computeCost + j.computeCost) + (p.reviewCost + j.reviewCost);
  }

  lemma QualitiesReconcile(a: Numerics, p: Tally, j: Tally)
    requires Sane(p) && Sane(j) && Sane(p.Plus(j))
    requires ValidQuality(a, QualityOf(a, p)) && ValidQuality(a, QualityOf(a, j))
    requires ValidQuality(a, QualityOf(a, p.Plus(j)))
    ensures QualityAdds(a, QualityOf(a, p.Plus(j)), QualityOf(a, p), QualityOf(a, j))
  {
    hide ValidRate, ValidDelta, RateOf, DeltaOf, DeltaAdds;
    RatesAdd(a, p.statuses.completions, p.statuses.runs, j.statuses.completions, j.statuses.runs);
    RatesAdd(a, p.findings.detected, p.findings.known, j.findings.detected, j.findings.known);
    RatesAdd(a, p.findings.patched, p.findings.attempted, j.findings.patched, j.findings.attempted);
    RatesAdd(a, p.findings.falseFindings, p.findings.reported, j.findings.falseFindings, j.findings.reported);
    RatesAdd(a, p.regressions.falseBlocked, p.regressions.clean, j.regressions.falseBlocked, j.regressions.clean);
    RatesAdd(a, p.regressions.hidden, p.regressions.successful, j.regressions.hidden, j.regressions.successful);
    RatesAdd(a, p.regressions.regressed, p.regressions.assertions, j.regressions.regressed, j.regressions.assertions);
    DeltasReconcile(p.coverage.line.count, p.coverage.line.total, j.coverage.line.count, j.coverage.line.total);
    DeltasReconcile(p.coverage.branch.count, p.coverage.branch.total, j.coverage.branch.count, j.coverage.branch.total);
    DeltasReconcile(p.coverage.mutation.count, p.coverage.mutation.total, j.coverage.mutation.count,
        j.coverage.mutation.total);
  }

  lemma RatesAdd(a: Numerics, k: int, n: nat, k': int, n': nat)
    ensures RateAdds(RateOf(a, k + k', n + n'), RateOf(a, k, n), RateOf(a, k', n'))
  {
    RateFields(a, k, n);
    RateFields(a, k', n');
    RateFields(a, k + k', n + n');
  }
}
