/**
 The independent score validator (evals/runner/contracts.py): every check
 `validate_score` makes on the numbers of a score document.
 */
module ScoreContract {
  import opened Wrappers
  import opened Rounding
  import opened ScoreFigures

  const COUNT_CAP := 1_000_000_000_000
  const NUMBER_CAP := 1_000_000_000_000_000
  const ONE := 1_000_000   // one, in millionths

  datatype RunCounts =
    RunCounts(attempted: int, included: int, completed: int, failed: int, blocked: int, timedOut: int)

  datatype Quality = Quality(
    taskCompletion: Rate,
    vulnerabilityRecall: Rate,
    correctPatchRate: Rate,
    falseDiscoveryRate: Rate,
    cleanCaseFalseBlockerRate: Rate,
    taskRegressionRate: Rate,
    assertionRegressionRate: Rate,
    line: Delta,
    branch: Delta,
    mutation: Delta)

  datatype Costs = Costs(model: int, compute: int, humanReview: int, total: int)

  datatype Efficiency = Efficiency(
    costs: Costs,
    tokenCount: int,
    toolCallCount: int,
    humanReviewMinutes: int,
    wallClock: Timing,
    active: Timing,
    queue: Timing)

  datatype ReviewOutcomes = ReviewOutcomes(
    accepted: int, rejected: int, escapes: int, intercepted: int, incidents: int, rollbacks: int)

  datatype Summary = Summary(
    runCounts: RunCounts, quality: Quality, efficiency: Efficiency, reviewOutcomes: ReviewOutcomes)

  predicate IsCount(n: int) { 0 <= n <= COUNT_CAP }

  predicate IsNumber(m: int) { 0 <= m <= NUMBER_CAP * ONE }

  predicate ValidInterval(i: Interval, low: int, high: int) {
    low <= i.low <= high && low <= i.high <= high && i.low <= i.high
  }

  /** Both bounds within one millionth of the expected ones. */
  predicate CloseTo(i: Interval, expected: Interval) {
    Abs(i.low - expected.low) <= 1 && Abs(i.high - expected.high) <= 1
  }

  predicate ValidRate(a: Numerics, r: Rate) {
    && IsCount(r.numerator) && IsCount(r.denominator) && r.numerator <= r.denominator
    && if r.denominator == 0 then r.rate.None? && r.interval.None?
       else RateFits(a, r, Ratio(r.numerator, r.denominator))
  }

  /** The checks against the proportion the validator recomputes. */
  predicate RateFits(a: Numerics, r: Rate, p: real)
    requires r.denominator > 0
  {
    && r.rate.Some? && 0 <= r.rate.value <= ONE
    && Abs(r.rate.value - Micros(p)) <= 1
    && r.interval.Some? && ValidInterval(r.interval.value, 0, ONE)
    && r.interval.value.low <= r.rate.value <= r.interval.value.high
    && CloseTo(r.interval.value, WilsonInterval(a, p, r.denominator as real))
  }

  predicate ValidDelta(d: Delta) {
    && IsCount(d.sampleCount)
    && (d.mean.Some? ==> -100 * ONE <= d.mean.value <= 100 * ONE)
    && (d.sampleCount == 0 <==> d.mean.None?)
  }

  predicate ValidTiming(t: Timing) {
    && IsCount(t.sampleCount)
    && (t.p50.Some? ==> IsNumber(t.p50.value))
    && (t.p90.Some? ==> IsNumber(t.p90.value))
    && if t.sampleCount == 0 then t.p50.None? && t.p90.None?
       else t.p50.Some? && t.p90.Some? && t.p50.value <= t.p90.value
  }

  predicate ValidRunCounts(c: RunCounts) {
    && IsCount(c.attempted) && IsCount(c.included) && IsCount(c.completed)
    && IsCount(c.failed) && IsCount(c.blocked) && IsCount(c.timedOut)
    && c.attempted == c.included
    && c.completed + c.failed + c.blocked + c.timedOut == c.attempted
  }

  predicate ValidQuality(a: Numerics, q: Quality) {
    && ValidRate(a, q.taskCompletion) && ValidRate(a, q.vulnerabilityRecall)
    && ValidRate(a, q.correctPatchRate) && ValidRate(a, q.falseDiscoveryRate)
    && ValidRate(a, q.cleanCaseFalseBlockerRate) && ValidRate(a, q.taskRegressionRate)
    && ValidRate(a, q.assertionRegressionRate)
    && ValidDelta(q.line) && ValidDelta(q.branch) && ValidDelta(q.mutation)
  }

  predicate ValidCosts(c: Costs) {
    && IsNumber(c.model) && IsNumber(c.compute) && IsNumber(c.humanReview) && IsNumber(c.total)
    && Abs(c.total - (c.model + c.compute + c.humanReview)) <= 1
  }

  predicate ValidEfficiency(e: Efficiency) {
    && ValidCosts(e.costs)
    && IsCount(e.tokenCount) && IsCount(e.toolCallCount) && IsNumber(e.humanReviewMinutes)
    && ValidTiming(e.wallClock) && ValidTiming(e.active) && ValidTiming(e.queue)
  }

  predicate ValidReviewOutcomes(o: ReviewOutcomes, attempted: int) {
    && IsCount(o.accepted) && IsCount(o.rejected) && IsCount(o.escapes)
    && IsCount(o.intercepted) && IsCount(o.incidents) && IsCount(o.rollbacks)
    && o.accepted + o.rejected == attempted
  }

  predicate ValidSummary(a: Numerics, s: Summary) {
    && ValidRunCounts(s.runCounts)
    && ValidQuality(a, s.quality)
    && ValidEfficiency(s.efficiency)
    && ValidReviewOutcomes(s.reviewOutcomes, s.runCounts.attempted)
  }

  predicate ValidUplift(a: Numerics, u: Uplift) {
    && IsCount(u.pairCount) && IsCount(u.unmatchedPairCount)
    && ValidRate(a, u.plainCompletion) && ValidRate(a, u.jstackCompletion)
    && u.plainCompletion.denominator == u.pairCount && u.jstackCompletion.denominator == u.pairCount
    && (u.pairedDifference.Some? ==> -ONE <= u.pairedDifference.value <= ONE)
    && (u.interval.Some? ==> ValidInterval(u.interval.value, -ONE, ONE))
    && if u.pairCount == 0 then u.pairedDifference.None? && u.interval.None?
       else
         && u.pairedDifference.Some?
         && var difference := u.pairedDifference.value;
            && Abs(difference - (u.jstackCompletion.rate.value - u.plainCompletion.rate.value)) <= 1
            && (u.pairCount == 1 ==> u.interval.None?)
            && (u.pairCount >= 2 ==>
                  && u.interval.Some?
                  && u.interval.value.low <= difference <= u.interval.value.high
                  && CloseTo(u.interval.value, HoeffdingInterval(a, FromMicros(difference), u.pairCount)))
  }

  // ------------------------------------------------------------ reconciliation

  predicate CountsAdd(overall: RunCounts, p: RunCounts, j: RunCounts) {
    && overall.attempted == p.attempted + j.attempted && overall.included == p.included + j.included
    && overall.completed == p.completed + j.completed && overall.failed == p.failed + j.failed
    && overall.blocked == p.blocked + j.blocked && overall.timedOut == p.timedOut + j.timedOut
  }

  predicate RateAdds(overall: Rate, p: Rate, j: Rate) {
    && overall.numerator == p.numerator + j.numerator
    && overall.denominator == p.denominator + j.denominator
  }

  predicate DeltaAdds(overall: Delta, p: Delta, j: Delta)
    requires ValidDelta(overall) && ValidDelta(p) && ValidDelta(j)
  {
    && overall.sampleCount == p.sampleCount + j.sampleCount
    && (overall.sampleCount > 0 ==>
          var weighted := Weight(p) + Weight(j);
          Abs(overall.mean.value - RoundEven(weighted as real / overall.sampleCount as real)) <= 2)
  }

  function Weight(d: Delta): int
    requires ValidDelta(d)
  {
    if d.sampleCount == 0 then 0 else d.mean.value * d.sampleCount
  }

  predicate AmountAdds(overall: int, p: int, j: int) { Abs(overall - (p + j)) <= 2 }

  predicate QualityAdds(a: Numerics, overall: Quality, p: Quality, j: Quality)
    requires ValidQuality(a, overall) && ValidQuality(a, p) && ValidQuality(a, j)
  {
    && RateAdds(overall.taskCompletion, p.taskCompletion, j.taskCompletion)
    && RateAdds(overall.vulnerabilityRecall, p.vulnerabilityRecall, j.vulnerabilityRecall)
    && RateAdds(overall.correctPatchRate, p.correctPatchRate, j.correctPatchRate)
    && RateAdds(overall.falseDiscoveryRate, p.falseDiscoveryRate, j.falseDiscoveryRate)
    && RateAdds(overall.cleanCaseFalseBlockerRate, p.cleanCaseFalseBlockerRate, j.cleanCaseFalseBlockerRate)
    && RateAdds(overall.taskRegressionRate, p.taskRegressionRate, j.taskRegressionRate)
    && RateAdds(overall.assertionRegressionRate, p.assertionRegressionRate, j.assertionRegressionRate)
    && DeltaAdds(overall.line, p.line, j.line)
    && DeltaAdds(overall.branch, p.branch, j.branch)
    && DeltaAdds(overall.mutation, p.mutation, j.mutation)
  }

  predicate EfficiencyAdds(overall: Efficiency, p: Efficiency, j: Efficiency) {
    && AmountAdds(overall.costs.model, p.costs.model, j.costs.model)
    && AmountAdds(overall.costs.compute, p.costs.compute, j.costs.compute)
    && AmountAdds(overall.costs.humanReview, p.costs.humanReview, j.costs.humanReview)
    && AmountAdds(overall.costs.total, p.costs.total, j.costs.total)
    && overall.tokenCount == p.tokenCount + j.tokenCount
    && overall.toolCallCount == p.toolCallCount + j.toolCallCount
    && AmountAdds(overall.humanReviewMinutes, p.humanReviewMinutes, j.humanReviewMinutes)
    && overall.wallClock.sampleCount == p.wallClock.sampleCount + j.wallClock.sampleCount
    && overall.active.sampleCount == p.active.sampleCount + j.active.sampleCount
    && overall.queue.sampleCount == p.queue.sampleCount + j.queue.sampleCount
  }

  predicate OutcomesAdd(overall: ReviewOutcomes, p: ReviewOutcomes, j: ReviewOutcomes) {
    && overall.accepted == p.accepted + j.accepted && overall.rejected == p.rejected + j.rejected
    && overall.escapes == p.escapes + j.escapes && overall.intercepted == p.intercepted + j.intercepted
    && overall.incidents == p.incidents + j.incidents && overall.rollbacks == p.rollbacks + j.rollbacks
  }

  predicate Reconciles(a: Numerics, overall: Summary, p: Summary, j: Summary)
    requires ValidSummary(a, overall) && ValidSummary(a, p) && ValidSummary(a, j)
  {
    && CountsAdd(overall.runCounts, p.runCounts, j.runCounts)
    && QualityAdds(a, overall.quality, p.quality, j.quality)
    && EfficiencyAdds(overall.efficiency, p.efficiency, j.efficiency)
    && OutcomesAdd(overall.reviewOutcomes, p.reviewOutcomes, j.reviewOutcomes)
  }

  function Represented(u: Uplift): int { 2 * u.pairCount + u.unmatchedPairCount }

  predicate ValidScore(a: Numerics, overall: Summary, plain: Summary, jstack: Summary, controlled: Uplift,
      operational: Uplift) {
    && ValidSummary(a, overall) && ValidSummary(a, plain) && ValidSummary(a, jstack)
    && Reconciles(a, overall, plain, jstack)
    && ValidUplift(a, controlled) && ValidUplift(a, operational)
    && Represented(controlled) + Represented(operational) == overall.runCounts.attempted
  }

  // ------------------------------------- what the scorer's figures always meet

  lemma Proportion(k: int, n: int)
    requires 0 <= k <= n && n > 0
    ensures 0.0 <= k as real / n as real <= 1.0
  {
    var p := k as real / n as real;
    assert p * n as real == k as real;
    if p > 1.0 { Scaled(p, 1.0, n as real); }
    if p < 0.0 { Scaled(0.0, p, n as real); }
  }

  /** Whatever the proportion, its rounded rate and Wilson interval pass every check. */
  lemma RateFitsItself(a: Numerics, k: int, n: nat, p: real)
    requires a.Exact() && n > 0 && 0.0 <= p <= 1.0
    ensures RateFits(a, RateFor(a, k, n, p), p)
  {
    WilsonContains(a, p, n as real);
    IntervalContains(WilsonCenter(p, n as real), WilsonMargin(a, p, n as real), p, 0, 1);
  }

  /** Clamping and rounding an interval keeps what it contains. */
  lemma IntervalContains(center: real, margin: real, p: real, low: int, high: int)
    requires center - margin <= p <= center + margin && low as real <= p <= high as real
    ensures var i := Interval(Micros(Max(low as real, center - margin)), Micros(Min(high as real, center + margin)));
      ValidInterval(i, low * ONE, high * ONE) && i.low <= Micros(p) <= i.high
  {
    hide Micros;
    var lower, upper := Max(low as real, center - margin), Min(high as real, center + margin);
    MicrosMonotone(lower, p);
    MicrosMonotone(p, upper);
    MicrosWithin(lower, low, high);
    MicrosWithin(upper, low, high);
  }

  lemma MarginNonNegative(a: Numerics, n: nat)
    requires a.Exact() && n > 0
    ensures HoeffdingMargin(a, n) >= 0.0
  {
    var x := 2.0 * a.ln40 / n as real;
    assert x * n as real == 2.0 * a.ln40;
    if x < 0.0 { Scaled(0.0, x, n as real); }
    assert IsRoot(a.sqrt(x), x);
  }

  lemma SignedProportion(k: int, n: int)
    requires -n <= k <= n && n > 0
    ensures -1.0 <= k as real / n as real <= 1.0
  {
    var p := k as real / n as real;
    assert p * n as real == k as real;
    if p > 1.0 { Scaled(p, 1.0, n as real); }
    if p < -1.0 { Scaled(-1.0, p, n as real); }
  }

  lemma MicrosClose(x: real, y: real)
    requires -0.0000005 <= x - y <= 0.0000005
    ensures Abs(Micros(x) - Micros(y)) <= 1
  {
    RoundClose(x * 1000000.0, y * 1000000.0);
  }

  /** The paired difference is within one millionth of the difference of the two
      rounded rates; the bound is attained at one third against two thirds. */
  lemma DifferenceAccepted(plain: int, jstack: int, n: nat)
    requires n > 0
    ensures Abs(Micros((jstack - plain) as real / n as real)
                - (Micros(jstack as real / n as real) - Micros(plain as real / n as real))) <= 1
  {
    var x, y := jstack as real / n as real, plain as real / n as real;
    assert (jstack - plain) as real / n as real == x - y;
    RoundOfSum(x * 1000000.0, y * 1000000.0);
  }

  lemma ToleranceIsAttained()
    ensures Micros(1.0 / 3.0) - (Micros(2.0 / 3.0) - Micros(1.0 / 3.0)) == -1
  {
    NearestUnique(333333, 1.0 / 3.0 * 1000000.0);
    NearestUnique(666667, 2.0 / 3.0 * 1000000.0);
  }

  /** The scorer's uplift passes every uplift check, whatever the pair outcomes. */
  lemma UpliftAccepted(a: Numerics, pairs: nat, unmatched: nat, plain: int, jstack: int)
    requires a.Exact() && 0 <= plain <= pairs && 0 <= jstack <= pairs
    ensures ValidUplift(a, UpliftOf(a, pairs, unmatched, plain, jstack))
       <==> pairs <= COUNT_CAP && unmatched <= COUNT_CAP
  {
    forall k: int, n: nat | 0 <= k <= n <= COUNT_CAP
      ensures ValidRate(a, RateOf(a, k, n))
    {
      hide RateFits, RateFor;
      if n > 0 {
        Proportion(k, n);
        RateFitsItself(a, k, n, Ratio(k, n));
      }
    }
    forall k: int, n: nat | ValidRate(a, RateOf(a, k, n))
      ensures n <= COUNT_CAP && 0 <= k <= n
    {
      hide RateFits, RateFor;
    }
    hide Micros, ValidRate, RateOf, HoeffdingInterval, ValidInterval, CloseTo, MeanDifference, FromMicros, Ratio;
    RateRatio(a, plain, pairs);
    RateRatio(a, jstack, pairs);
    if pairs > 0 {
      MeanIsDifference(plain, jstack, pairs);
      MeanFits(a, MeanDifference(plain, jstack, pairs), pairs);
    }
  }

  lemma RateRatio(a: Numerics, k: int, n: nat)
    ensures RateOf(a, k, n).numerator == k && RateOf(a, k, n).denominator == n
    ensures n > 0 ==> RateOf(a, k, n).rate == Some(Micros(Ratio(k, n)))
  {
    hide Micros;
    RateFields(a, k, n);
  }

  lemma MeanIsDifference(plain: int, jstack: int, n: nat)
    requires n > 0 && 0 <= plain <= n && 0 <= jstack <= n
    ensures -1.0 <= MeanDifference(plain, jstack, n) <= 1.0
    ensures Abs(Micros(MeanDifference(plain, jstack, n)) - (Micros(Ratio(jstack, n)) - Micros(Ratio(plain, n)))) <= 1
  {
    hide Micros;
    DifferenceAccepted(plain, jstack, n);
    SignedProportion(jstack - plain, n);
  }

  /** A mean of differences passes every check on its interval. */
  lemma MeanFits(a: Numerics, mean: real, n: nat)
    requires a.Exact() && n > 0 && -1.0 <= mean <= 1.0
    ensures -ONE <= Micros(mean) <= ONE
    ensures var i := HoeffdingInterval(a, mean, n);
      && ValidInterval(i, -ONE, ONE) && i.low <= Micros(mean) <= i.high
      && CloseTo(i, HoeffdingInterval(a, FromMicros(Micros(mean)), n))
  {
    hide Micros, HoeffdingMargin, CloseTo;
    MicrosWithin(mean, -1, 1);
    MarginNonNegative(a, n);
    IntervalContains(mean, HoeffdingMargin(a, n), mean, -1, 1);
    HoeffdingClose(a, mean, n);
  }

  lemma RateFields(a: Numerics, k: int, n: nat)
    ensures RateOf(a, k, n).numerator == k && RateOf(a, k, n).denominator == n
    ensures n > 0 ==> RateOf(a, k, n).rate == Some(Micros(k as real / n as real))
  {
  }

  lemma RoundedClose(x: real)
    ensures -0.0000005 <= FromMicros(Micros(x)) - x <= 0.0000005
  {
    assert Nearest(Micros(x), x * 1000000.0);
  }

  /** Recomputing the interval from the rounded mean moves each bound at most one millionth. */
  lemma HoeffdingClose(a: Numerics, mean: real, n: nat)
    requires n > 0
    ensures CloseTo(HoeffdingInterval(a, mean, n), HoeffdingInterval(a, FromMicros(Micros(mean)), n))
  {
    hide HoeffdingMargin, RoundEven, Micros;
    var margin, rounded := HoeffdingMargin(a, n), FromMicros(Micros(mean));
    RoundedClose(mean);
    MicrosClose(Max(-1.0, mean - margin), Max(-1.0, rounded - margin));
    MicrosClose(Min(1.0, mean + margin), Min(1.0, rounded + margin));
  }

  /** A mean of bounded differences passes, and weighted condition means reconcile with it. */
  lemma DeltaAccepted(n: nat, total: real)
    requires n <= COUNT_CAP && -100.0 * n as real <= total <= 100.0 * n as real
    ensures ValidDelta(DeltaOf(n, total))
  {
    if n > 0 {
      var mean := total / n as real;
      assert mean * n as real == total;
      if mean > 100.0 { Scaled(mean, 100.0, n as real); }
      if mean < -100.0 { Scaled(-100.0, mean, n as real); }
      MicrosWithin(mean, -100, 100);
    }
  }

  lemma DeltasReconcile(n: nat, total: real, n': nat, total': real)
    requires ValidDelta(DeltaOf(n, total)) && ValidDelta(DeltaOf(n', total'))
    requires ValidDelta(DeltaOf(n + n', total + total'))
    requires (n == 0 ==> total == 0.0) && (n' == 0 ==> total' == 0.0)
    ensures DeltaAdds(DeltaOf(n + n', total + total'), DeltaOf(n, total), DeltaOf(n', total'))
  {
    hide RoundEven, Weight;
    if n + n' > 0 {
      WeightClose(n, total);
      WeightClose(n', total');
      var weighted := Weight(DeltaOf(n, total)) + Weight(DeltaOf(n', total'));
      WeightedMeanClose(weighted, total + total', n + n');
    }
  }

  lemma WeightedMeanClose(weighted: int, total: real, n: nat)
    requires n > 0 && -0.5 * n as real <= weighted as real - total * 1000000.0 <= 0.5 * n as real
    ensures Abs(Micros(total / n as real) - RoundEven(weighted as real / n as real)) <= 1
  {
    hide RoundEven;
    QuotientsClose(total * 1000000.0, weighted as real, n as real);
    QuotientScales(total, n as real);
    RoundClose(total / n as real * 1000000.0, weighted as real / n as real);
  }

  lemma QuotientsClose(x: real, y: real, n: real)
    requires n > 0.0 && -0.5 * n <= x - y <= 0.5 * n
    ensures -0.5 <= x / n - y / n <= 0.5
  {
    var gap := x / n - y / n;
    assert x / n * n == x && y / n * n == y;
    assert gap * n == x - y && (-gap) * n == y - x;
    AtMostHalf(gap, n);
    AtMostHalf(-gap, n);
  }

  lemma AtMostHalf(gap: real, n: real)
    requires n > 0.0 && gap * n <= 0.5 * n
    ensures gap <= 0.5
  {
    if gap > 0.5 { Scaled(gap, 0.5, n); }
  }

  lemma QuotientScales(x: real, n: real)
    requires n > 0.0
    ensures x / n * 1000000.0 == x * 1000000.0 / n
  {
    Reciprocal(x, n);
    Reciprocal(x * 1000000.0, n);
  }

  /** Multiplying a rounded mean back costs at most half a millionth a sample. */
  lemma WeightClose(n: nat, total: real)
    requires ValidDelta(DeltaOf(n, total)) && (n == 0 ==> total == 0.0)
    ensures var w := Weight(DeltaOf(n, total)) as real - total * 1000000.0;
      -0.5 * n as real <= w <= 0.5 * n as real
  {
    hide RoundEven;
    if n > 0 {
      var mean := total / n as real;
      var m := Micros(mean);
      assert Nearest(m, mean * 1000000.0);
      GapScales(m, mean, n, total);
    }
  }

  lemma GapScales(m: int, mean: real, n: nat, total: real)
    requires mean * n as real == total && -0.5 <= m as real - mean * 1000000.0 <= 0.5
    ensures -0.5 * n as real <= (m * n) as real - total * 1000000.0 <= 0.5 * n as real
  {
    var gap := m as real - mean * 1000000.0;
    assert (m * n) as real == m as real * n as real;
    assert gap * n as real == (m * n) as real - total * 1000000.0;
    ProductNonNegative(0.5 - gap, n as real);
    ProductNonNegative(0.5 + gap, n as real);
  }

  /** Rounded amounts of the two conditions reconcile with the rounded whole. */
  lemma AmountsReconcile(x: real, y: real)
    ensures AmountAdds(Micros(x + y), Micros(x), Micros(y))
  {
    RoundOfSum(x * 1000000.0, y * 1000000.0);
  }

  function CostsOf(model: real, compute: real, review: real): Costs {
    Costs(Micros(model), Micros(compute), Micros(review), Micros(model + compute + review))
  }

  /** The three cost components, in millionths, tie the same way. */
  predicate CostTie(model: real, compute: real, review: real) {
    TripleTie(model * 1000000.0, compute * 1000000.0, review * 1000000.0)
  }

  lemma RoundedTotal(model: real, compute: real, review: real)
    ensures Abs(Micros(model + compute + review) - (Micros(model) + Micros(compute) + Micros(review))) <= 1
       <==> !CostTie(model, compute, review)
  {
    hide RoundEven, TripleTie;
    RoundOfThree(model * 1000000.0, compute * 1000000.0, review * 1000000.0);
    assert model * 1000000.0 + compute * 1000000.0 + review * 1000000.0 == (model + compute + review) * 1000000.0;
  }

  /** The rounded total matches its rounded components exactly when no triple tie occurs. */
  lemma CostsAccepted(model: real, compute: real, review: real)
    requires 0.0 <= model && 0.0 <= compute && 0.0 <= review
    requires model + compute + review <= NUMBER_CAP as real
    ensures ValidCosts(CostsOf(model, compute, review)) <==> !CostTie(model, compute, review)
  {
    hide Micros, CostTie;
    RoundedTotal(model, compute, review);
    MicrosWithin(model, 0, NUMBER_CAP);
    MicrosWithin(compute, 0, NUMBER_CAP);
    MicrosWithin(review, 0, NUMBER_CAP);
    MicrosWithin(model + compute + review, 0, NUMBER_CAP);
  }

  /** Half a millionth of a dollar in each component: the total rounds to two
      millionths, the components to none, and the score is refused. */
  lemma HalfMicroDollarsAreRefused()
    ensures CostsOf(0.0000005, 0.0000005, 0.0000005) == Costs(0, 0, 0, 2)
    ensures !ValidCosts(CostsOf(0.0000005, 0.0000005, 0.0000005))
  {
    NearestUnique(0, 0.5);
    NearestUnique(2, 1.5);
  }

  // ------------------------------------- how far the checks pin a document down

  /** Two accepted rates with the same counts agree within two millionths, ends included. */
  lemma RatesArePinned(a: Numerics, r: Rate, s: Rate)
    requires ValidRate(a, r) && ValidRate(a, s)
    requires r.numerator == s.numerator && r.denominator == s.denominator
    ensures r.rate.Some? <==> s.rate.Some?
    ensures r.interval.Some? <==> s.interval.Some?
    ensures r.rate.Some? ==> Abs(r.rate.value - s.rate.value) <= 2
    ensures r.interval.Some? ==>
      Abs(r.interval.value.low - s.interval.value.low) <= 2 && Abs(r.interval.value.high - s.interval.value.high) <= 2
  {
    hide WilsonInterval, Micros, Ratio;
  }

  /** Two accepted modes with the same counts agree: on the paired difference within six
      millionths, and with the same difference on the ends of its interval within two. */
  lemma UpliftsArePinned(a: Numerics, u: Uplift, v: Uplift)
    requires ValidUplift(a, u) && ValidUplift(a, v)
    requires u.pairCount == v.pairCount
    requires u.plainCompletion.numerator == v.plainCompletion.numerator
    requires u.jstackCompletion.numerator == v.jstackCompletion.numerator
    ensures u.pairedDifference.Some? <==> v.pairedDifference.Some?
    ensures u.interval.Some? <==> v.interval.Some?
    ensures u.pairedDifference.Some? ==> Abs(u.pairedDifference.value - v.pairedDifference.value) <= 6
    ensures u.interval.Some? && u.pairedDifference == v.pairedDifference ==>
      Abs(u.interval.value.low - v.interval.value.low) <= 2 && Abs(u.interval.value.high - v.interval.value.high) <= 2
  {
    hide ValidRate, HoeffdingInterval, Micros;
    RatesArePinned(a, u.plainCompletion, v.plainCompletion);
    RatesArePinned(a, u.jstackCompletion, v.jstackCompletion);
    if u.pairCount > 0 {
      RateIsThere(a, u.plainCompletion);
      RateIsThere(a, u.jstackCompletion);
    }
  }

  lemma RateIsThere(a: Numerics, r: Rate)
    requires ValidRate(a, r) && r.denominator > 0
    ensures r.rate.Some?
  {
  }

  /** The interval of a rate is the two solutions of Wilson's equation, cut to [0, 1] and
      rounded. */
  lemma RateEnds(a: Numerics, k: int, n: nat) returns (low: real, high: real)
    requires a.Exact() && 0 <= k <= n && n > 0
    ensures low <= high && WilsonEquation(k as real / n as real, n as real, Z * Z, low)
    ensures WilsonEquation(k as real / n as real, n as real, Z * Z, high)
    ensures RateOf(a, k, n).interval
      == Some(Interval(Micros(if low < 0.0 then 0.0 else low), Micros(if high > 1.0 then 1.0 else high)))
  {
    hide Micros, WilsonEquation, WilsonCenter, WilsonMargin;
    var p := Ratio(k, n);
    Proportion(k, n);
    low := WilsonCenter(p, n as real) - WilsonMargin(a, p, n as real);
    high := WilsonCenter(p, n as real) + WilsonMargin(a, p, n as real);
    WilsonRoots(a, p, n as real, low);
    WilsonRoots(a, p, n as real, high);
  }

  /** The interval of a paired difference is the mean give or take the Hoeffding margin,
      cut to [-1, 1] and rounded. */
  lemma UpliftEnds(a: Numerics, pairs: nat, unmatched: nat, plain: int, jstack: int) returns (margin: real)
    requires a.Exact() && pairs >= 2
    ensures margin >= 0.0 && margin * margin * pairs as real == 2.0 * a.ln40
    ensures var mean := (jstack - plain) as real / pairs as real;
      UpliftOf(a, pairs, unmatched, plain, jstack).interval
      == Some(Interval(Micros(if mean - margin < -1.0 then -1.0 else mean - margin),
                       Micros(if mean + margin > 1.0 then 1.0 else mean + margin)))
  {
    hide Micros, HoeffdingMargin, RateOf;
    margin := HoeffdingMargin(a, pairs);
    HoeffdingSquares(a, pairs);
  }
}
