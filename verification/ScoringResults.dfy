/** What a returned score guarantees, and exactly when one is returned. */
module ScoringResults {
  import opened Wrappers
  import opened Ordering
  import opened ScoreFigures
  import opened RunRecords
  import opened PublicPlan
  import opened Tallies
  import opened Pairing
  import opened Scorer

  /** Accepted inputs are scored, by a document its own validator passes, exactly
      when false findings fit, pairs are comparable, counters stay in range and no
      summary's three cost totals tie the same way. */
  lemma ScoredExactlyWhen(a: Numerics, m: Manifest, runs: seq<Run>, reviews: seq<Review>)
    requires a.Exact() && InputsAccepted(m, runs, reviews)
    ensures var (rs, byRun) := (SortBy(runs, RunKey), ReviewMap(SortBy(reviews, ReviewKey)));
      && AllValid(rs, byRun)
      && (Scored(a, m, runs, reviews).Some? <==>
            AllFit(rs, byRun) && PairsFit(a, rs, byRun) && InCaps(TallyOf(rs, byRun)) && !AnyTies(rs, byRun))
  {
    hide ValidRun, ValidReview, InCaps, TallyOf, UpliftFor, Validates, Document, SortBy, InputsAccepted;
    var rs, vs := SortBy(runs, RunKey), SortBy(reviews, ReviewKey);
    InputsSort(m, runs, reviews);
    if AllFit(rs, ReviewMap(vs)) && PairsFit(a, rs, ReviewMap(vs)) {
      ScorerMeetsValidator(a, m, rs, vs);
    }
  }

  predicate IsWhole(x: real) { (x * 1000000.0).Floor as real == x * 1000000.0 }

  lemma WholeSum(x: real, y: real)
    requires IsWhole(x) && IsWhole(y)
    ensures IsWhole(x + y)
  {
    var n := (x * 1000000.0).Floor + (y * 1000000.0).Floor;
    assert (x + y) * 1000000.0 == n as real;
  }

  lemma {:induction false} WholeTotal(runs: seq<Run>, reviews: Reviews)
    requires Reviewed(runs, reviews) && forall r | r in runs :: IsWhole(r.execution.modelCostUsd)
    ensures IsWhole(TallyOf(runs, reviews).effort.modelCost)
    decreases |runs|
  {
    if runs == [] {
      NothingIsWhole(0.0);
    } else {
      var front, last := runs[..|runs| - 1], runs[|runs| - 1];
      assert runs == front + [last];
      WholeTotal(front, reviews);
      WholeSum(TallyOf(front, reviews).effort.modelCost, last.execution.modelCostUsd);
    }
  }

  lemma NothingIsWhole(x: real)
    requires x == 0.0
    ensures IsWhole(x)
  {
  }

  /** Costs in whole millionths of a dollar, in even one of the three components, never tie. */
  lemma WholeCostsNeverTie(runs: seq<Run>, reviews: Reviews)
    requires AllValid(runs, reviews) && forall r | r in runs :: IsWhole(r.execution.modelCostUsd)
    ensures !AnyTies(runs, reviews)
  {
    hide ValidRun, ValidReview, Ties, IsWhole, TallyOf;
    TallySplits(runs, reviews);
    WholeNeverTies(runs, reviews);
    WholeNeverTies(Filter(runs, Plain), reviews);
    WholeNeverTies(Filter(runs, JStack), reviews);
  }

  lemma WholeNeverTies(runs: seq<Run>, reviews: Reviews)
    requires Reviewed(runs, reviews) && forall r | r in runs :: IsWhole(r.execution.modelCostUsd)
    ensures !Ties(runs, reviews)
  {
    hide TallyOf;
    WholeTotal(runs, reviews);
  }

  /** The plan fixes the run ids, so runs that match it cannot repeat one. */
  lemma PlannedRunsAreDistinct(m: Manifest, runs: seq<Run>)
    requires PlanAccepted(m) && SortBy(Bindings(runs), BindingKey) == m.expectedRuns
    ensures Distinct(runs, RunKey)
  {
    hide PublicShape, OrderedBy;
    DistinctForgetsOrder(m.expectedRuns, Bindings(runs), BindingKey);
  }

  /** Every expected run was scored, and nothing else. */
  lemma EveryPlannedRunIsScored(m: Manifest, runs: seq<Run>, reviews: seq<Review>)
    requires InputsAccepted(m, runs, reviews)
    ensures |runs| == |m.expectedRuns|
    ensures forall b | b in m.expectedRuns :: exists r :: r in runs && ExpectedRunBinding(r) == b
    ensures forall r | r in runs :: ExpectedRunBinding(r) in m.expectedRuns
  {
    SameMembers(Bindings(runs), m.expectedRuns);
    forall b | b in m.expectedRuns
      ensures exists r :: r in runs && ExpectedRunBinding(r) == b
    {
      var i :| 0 <= i < |runs| && Bindings(runs)[i] == b;
      assert runs[i] in runs;
    }
    forall r | r in runs
      ensures ExpectedRunBinding(r) in m.expectedRuns
    {
      var i :| 0 <= i < |runs| && runs[i] == r;
      assert Bindings(runs)[i] in Bindings(runs);
    }
  }

  /** Under a public plan every run has its partner: no pair is left unmatched. */
  lemma PublicPairsAreMatched(m: Manifest, runs: seq<Run>, reviews: seq<Review>, rs: seq<Run>, mode: Mode)
    requires InputsAccepted(m, runs, reviews) && m.evidence == Some(Public)
    requires multiset(rs) == multiset(runs) && Grouped(rs, mode).Some?
    ensures Unmatched(Grouped(rs, mode).value) == {}
  {
    hide ValidRun, ValidReview, Distinct, Replicated, SortBy, Repeated, Paired, Covers;
    var g := Grouped(rs, mode).value;
    EveryRunIsRepresented(rs, mode);
    EveryPlannedRunIsScored(m, runs, reviews);
    SameMembers(rs, runs);
    forall p | p in g
      ensures IsMatched(g[p])
    {
      assert g[p].Keys != {} by { assert g[p] != map[]; }
      var c :| c in g[p].Keys;
      PartnerIsFiled(m, runs, rs, mode, g, g[p][c]);
    }
  }

  lemma PartnerIsFiled(m: Manifest, runs: seq<Run>, rs: seq<Run>, mode: Mode, g: Groups, r: Run)
    requires Files(g, rs, mode) && r in rs && r.mode == mode
    requires forall x :: x in rs <==> x in runs
    requires forall b | b in m.expectedRuns :: exists x :: x in runs && ExpectedRunBinding(x) == b
    requires ExpectedRunBinding(r) in m.expectedRuns && Paired(m.expectedRuns, ExpectedRunBinding(r))
    ensures r.pairId in g && IsMatched(g[r.pairId])
  {
    var twin := Twin(m.expectedRuns, ExpectedRunBinding(r));
    var partner :| partner in runs && ExpectedRunBinding(partner) == twin;
    assert partner.condition != r.condition && partner.pairId == r.pairId && partner.mode == mode;
    assert r.condition in g[r.pairId] && partner.condition in g[r.pairId];
  }

  /** A public score counts every run in a matched pair, at least 108 pairs in all. */
  lemma PublicScoreMatchesEveryRun(a: Numerics, m: Manifest, runs: seq<Run>, reviews: seq<Review>)
    requires Scored(a, m, runs, reviews).Some? && m.evidence == Some(Public)
    ensures var s := Scored(a, m, runs, reviews).value;
      && s.controlled.unmatchedPairCount == 0 && s.operational.unmatchedPairCount == 0
      && 2 * (s.controlled.pairCount + s.operational.pairCount) == |runs| >= 216
  {
    hide Scored, InputsAccepted, SortBy, InMode, UpliftFor, ReviewMap;
    var rs, byRun := SortBy(runs, RunKey), ReviewMap(SortBy(reviews, ReviewKey));
    ScoredUplifts(a, m, runs, reviews, rs, byRun);
    PublicModeMatched(a, m, runs, reviews, rs, byRun, Controlled);
    PublicModeMatched(a, m, runs, reviews, rs, byRun, Operational);
    ModesCover(rs);
    PlanCount(m, runs, reviews);
  }

  lemma PlanCount(m: Manifest, runs: seq<Run>, reviews: seq<Review>)
    requires InputsAccepted(m, runs, reviews) && m.evidence == Some(Public)
    ensures |runs| >= 216
  {
    hide PublicShape, Distinct, OrderedBy, SortBy, ValidRun, ValidReview, Replicated;
    PublicPlanHasAtLeast216Runs(m);
    EveryPlannedRunIsScored(m, runs, reviews);
  }

  lemma ScoredUplifts(a: Numerics, m: Manifest, runs: seq<Run>, reviews: seq<Review>, rs: seq<Run>, byRun: Reviews)
    requires Scored(a, m, runs, reviews).Some?
    requires rs == SortBy(runs, RunKey) && byRun == ReviewMap(SortBy(reviews, ReviewKey))
    ensures InputsAccepted(m, runs, reviews) && multiset(rs) == multiset(runs) && |rs| == |runs|
    ensures Reviewed(rs, byRun) && PairsFit(a, rs, byRun)
    ensures Scored(a, m, runs, reviews).value.controlled == UpliftFor(a, Controlled, rs, byRun).value
    ensures Scored(a, m, runs, reviews).value.operational == UpliftFor(a, Operational, rs, byRun).value
  {
    hide InputsAccepted, SortBy, ReviewMap, UpliftFor, Validates, AllFit, SummaryFor, ValidRun, ValidReview;
  }

  lemma PublicModeMatched(a: Numerics, m: Manifest, runs: seq<Run>, reviews: seq<Review>, rs: seq<Run>,
      byRun: Reviews, mode: Mode)
    requires InputsAccepted(m, runs, reviews) && m.evidence == Some(Public)
    requires multiset(rs) == multiset(runs) && Reviewed(rs, byRun) && UpliftFor(a, mode, rs, byRun).Some?
    ensures var u := UpliftFor(a, mode, rs, byRun).value;
      u.unmatchedPairCount == 0 && 2 * u.pairCount == InMode(rs, mode)
  {
    hide InputsAccepted, Files, Unmatched, Matched, Winners;
    PublicPairsAreMatched(m, runs, reviews, rs, mode);
    EveryRunIsRepresented(rs, mode);
    GroupedReviewed(rs, mode, byRun);
  }

  // ---------------------------------------------- what a score says of its inputs

  /** The document is about this manifest and exactly these runs and reviews, in the order
      of their run ids; it names an evidence class just when the runs share one. */
  lemma ScoreNamesItsInputs(a: Numerics, m: Manifest, runs: seq<Run>, reviews: seq<Review>)
    requires Scored(a, m, runs, reviews).Some?
    ensures var s := Scored(a, m, runs, reviews).value;
      && (s.corpusId, s.corpusVersion, s.manifestSha) == (m.corpusId, m.corpusVersion, Sha(m))
      && multiset(s.runsSha.of) == multiset(runs) && OrderedBy(s.runsSha.of, RunKey)
      && multiset(s.reviewsSha.of) == multiset(reviews) && OrderedBy(s.reviewsSha.of, ReviewKey)
      && forall e: Evidence :: s.evidence == Some(e) <==> forall r | r in runs :: r.evidence == e
  {
    hide InputsAccepted, SortBy, ReviewMap, UpliftFor, Validates, AllFit, SummaryFor, ValidRun, ValidReview;
    var rs := SortBy(runs, RunKey);
    SortOrders(runs, RunKey);
    SortOrders(reviews, ReviewKey);
    SameMembers(runs, rs);
    InputsNotEmpty(m, runs, reviews);
    assert |rs| > 0 by { assert runs[0] in runs; assert runs[0] in rs; }
    forall e: Evidence
      ensures EvidenceOf(rs) == Some(e) <==> forall r | r in runs :: r.evidence == e
    {
      assert rs[0] in rs;
    }
  }

  lemma InputsNotEmpty(m: Manifest, runs: seq<Run>, reviews: seq<Review>)
    requires InputsAccepted(m, runs, reviews)
    ensures runs != []
  {
  }

  /** The same study: the same task measured alike, whatever the two runs did with it. */
  predicate SameStudy(r: Run, s: Run) {
    && r.(runId := s.runId, pairId := s.pairId, condition := s.condition, repetition := s.repetition,
          candidateCommit := s.candidateCommit, limits := s.limits, execution := s.execution, outcome := s.outcome,
          candidate := s.candidate, result := s.result) == s
    && r.outcome.knownVulnerabilities == s.outcome.knownVulnerabilities
    && r.outcome.cleanTask == s.outcome.cleanTask
    && r.outcome.previouslyPassingAssertions == s.outcome.previouslyPassingAssertions
  }

  ghost predicate Repeats(runs: seq<Run>, r: Run, c: Condition, k: int) {
    exists s :: s in runs && SameStudy(r, s) && s.condition == c && s.repetition == k
  }

  /** Unless it is a development mock, a study repeats 1, 2, ..., n under both conditions,
      with n at least three. */
  lemma StudiesRepeat(m: Manifest, runs: seq<Run>, reviews: seq<Review>, r: Run) returns (n: nat)
    requires InputsAccepted(m, runs, reviews) && r in runs && r.evidence != DevelopmentMock
    ensures n >= 3 && RepeatsUpTo(runs, r, n)
  {
    hide ValidRun, ValidReview, PlanAccepted, Distinct, SortBy, Replicated, StudyKeyOf, RepeatsUpTo;
    assert IsReal(r);
    n := ReplicatedRepeats(runs, r);
  }

  lemma ReplicatedRepeats(runs: seq<Run>, r: Run) returns (n: nat)
    requires IsReal(r) && Replicated(runs, StudyKeyOf(r))
    ensures n >= 3 && RepeatsUpTo(runs, r, n)
  {
    hide Repeats, StudyKeyOf, Scorer.RepetitionsOf;
    n := |Scorer.RepetitionsOf(runs, StudyKeyOf(r), Plain)|;
    forall c, k
      ensures Repeats(runs, r, c, k) <==> 1 <= k <= n
    {
      StudyRepetitions(runs, r, c, k);
      assert (c == Plain || c == JStack) && (k in UpTo(n) <==> 1 <= k <= n);
    }
  }

  /** And that is all the scorer asks of a study's repetitions. */
  lemma RepeatedIsReplicated(runs: seq<Run>, r: Run, n: nat)
    requires IsReal(r) && n >= 3 && RepeatsUpTo(runs, r, n)
    ensures Replicated(runs, StudyKeyOf(r))
  {
    hide Repeats, StudyKeyOf, Scorer.RepetitionsOf;
    forall c: Condition, k: int
      ensures k in Scorer.RepetitionsOf(runs, StudyKeyOf(r), c) <==> k in UpTo(n)
    {
      StudyRepetitions(runs, r, c, k);
      assert Repeats(runs, r, c, k) <==> 1 <= k <= n;
    }
    assert Scorer.RepetitionsOf(runs, StudyKeyOf(r), Plain) == UpTo(n);
    assert Scorer.RepetitionsOf(runs, StudyKeyOf(r), JStack) == UpTo(n);
  }

  ghost predicate RepeatsUpTo(runs: seq<Run>, r: Run, n: nat) {
    forall c, k :: Repeats(runs, r, c, k) <==> 1 <= k <= n
  }

  /** The repetitions are accepted exactly when every study but a development mock repeats
      1, 2, ..., n under both conditions, for some n of three or more. */
  lemma RepetitionsExactly(runs: seq<Run>)
    ensures (forall r | r in runs && IsReal(r) :: Replicated(runs, StudyKeyOf(r)))
       <==> (forall r | r in runs && r.evidence != DevelopmentMock ::
               exists n: nat :: n >= 3 && RepeatsUpTo(runs, r, n))
  {
    hide Repeats, StudyKeyOf, Replicated, Scorer.RepetitionsOf;
    forall r | r in runs && r.evidence != DevelopmentMock
      ensures Replicated(runs, StudyKeyOf(r)) <==> exists n: nat :: n >= 3 && RepeatsUpTo(runs, r, n)
    {
      if Replicated(runs, StudyKeyOf(r)) {
        var n := ReplicatedRepeats(runs, r);
      }
      if n: nat :| n >= 3 && RepeatsUpTo(runs, r, n) { RepeatedIsReplicated(runs, r, n); }
    }
  }

  lemma StudyRepetitions(runs: seq<Run>, r: Run, c: Condition, k: int)
    requires IsReal(r)
    ensures Repeats(runs, r, c, k) <==> k in Scorer.RepetitionsOf(runs, StudyKeyOf(r), c)
  {
    hide SameStudy, StudyKeyOf;
    forall s: Run
      ensures SameStudy(r, s) <==> StudyKeyOf(s) == StudyKeyOf(r)
      ensures SameStudy(r, s) ==> IsReal(s)
    {
      OneStudy(r, s);
    }
  }

  lemma OneStudy(r: Run, s: Run)
    ensures SameStudy(r, s) <==> StudyKeyOf(s) == StudyKeyOf(r)
    ensures SameStudy(r, s) ==> s.evidence == r.evidence
  {
  }

  /** The same repetition of one task in one mode, under one condition and host. */
  predicate SameOccurrence(r: Run, s: Run) {
    && r.taskId == s.taskId && r.taskDigest == s.taskDigest && r.mode == s.mode && r.host == s.host
    && r.condition == s.condition && r.repetition == s.repetition
  }

  /** The scorer refuses runs as repeated exactly when two share an id or an occurrence. */
  lemma DistinctRunsExactly(runs: seq<Run>)
    ensures Distinct(runs, RunKey) && Distinct(runs, OccurrenceOf) <==>
      forall i, k | 0 <= i < k < |runs| :: runs[i].runId != runs[k].runId && !SameOccurrence(runs[i], runs[k])
  {
    forall r: Run, s: Run
      ensures RunKey(r) == RunKey(s) <==> r.runId == s.runId
      ensures OccurrenceOf(r) == OccurrenceOf(s) <==> SameOccurrence(r, s)
    {
    }
  }

  /** Every run has the one review that names it. */
  lemma EveryRunHasOneReview(m: Manifest, runs: seq<Run>, reviews: seq<Review>, r: Run)
    requires InputsAccepted(m, runs, reviews) && r in runs
    ensures exists v :: v in reviews && v.runId == r.runId
    ensures forall i, k | 0 <= i < k < |reviews| :: reviews[i].runId != reviews[k].runId
    ensures forall v | v in reviews && v.runId == r.runId ::
      r.runId in ReviewMap(reviews) && ReviewMap(reviews)[r.runId] == v
  {
    hide ValidRun, ValidReview, PlanAccepted, Replicated, SortBy;
    ReviewMapFiles(reviews);
    assert r.runId in RunIds(runs);
    assert forall i | 0 <= i < |reviews| :: ReviewKey(reviews[i]) == reviews[i].runId;
  }

  /** A run that completed kept its limits, and so did any that passed its blockers. */
  lemma FinishedRunsKeepTheirLimits(m: Manifest, runs: seq<Run>, reviews: seq<Review>, r: Run)
    requires InputsAccepted(m, runs, reviews) && r in runs
    requires r.execution.status == Completed || r.execution.complete || r.outcome.blockersPassed
    ensures r.execution.wallClockSeconds <= r.limits.wallClockSeconds as real
    ensures r.execution.tokenCount <= r.limits.tokenLimit && r.execution.toolCallCount <= r.limits.toolCallLimit
    ensures r.execution.modelCostUsd + r.execution.computeCostUsd <= r.limits.costUsd + 0.000001
  {
    hide PlanAccepted, Replicated, Distinct, SortBy, ValidReview;
    assert ValidRun(r);
  }

  function Votes(v: Review): nat {
    Bit(v.first.accepted) + Bit(v.second.accepted) + Bit(v.adjudication.Some? && v.adjudication.value.accepted)
  }

  /** A review is the verdict of two of its people, none of whom judged twice. */
  lemma ReviewsAreMajorities(m: Manifest, runs: seq<Run>, reviews: seq<Review>, v: Review)
    requires InputsAccepted(m, runs, reviews) && v in reviews
    ensures v.accepted <==> Votes(v) >= 2
    ensures v.first.reviewer != v.second.reviewer
    ensures v.adjudication.Some? ==>
      v.adjudication.value.adjudicator != v.first.reviewer && v.adjudication.value.adjudicator != v.second.reviewer
  {
    hide PlanAccepted, Replicated, Distinct, SortBy, ValidRun;
    assert ValidReview(v);
  }

  /** A planned run is the one its plan entry describes, in everything but its results. */
  lemma RunsFollowThePlan(m: Manifest, runs: seq<Run>, reviews: seq<Review>, r: Run)
    requires InputsAccepted(m, runs, reviews) && r in runs
    ensures exists b :: b in m.expectedRuns && Plans(b, r)
  {
    hide InputsAccepted;
    EveryPlannedRunIsScored(m, runs, reviews);
    assert Plans(ExpectedRunBinding(r), r);
  }

  predicate Plans(b: Binding, r: Run) {
    && b.runId == r.runId && b.pairId == r.pairId && b.taskId == r.taskId && b.taskDigest == r.taskDigest
    && b.family == r.family && b.taskKind == r.taskKind && b.condition == r.condition && b.mode == r.mode
    && b.repetition == r.repetition && b.evidence == r.evidence && b.host.of == r.host
    && b.environment.of == r.environment && b.limits.of == r.limits
    && b.baselineCommit == r.baselineCommit && b.hiddenTests == r.hiddenTests
  }
}
