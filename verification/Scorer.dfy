/**
 Scoring one complete set of runs and reviews (evals/runner/score.py,
 `score_runs`), its agreement with the validator, and its indifference to order.
 */
module Scorer {
  import opened Wrappers
  import opened Ordering
  import opened ScoreFigures
  import opened ScoreContract
  import opened RunRecords
  import opened PublicPlan
  import opened Tallies
  import opened Pairing

  datatype Score = Score(
    corpusId: string,
    corpusVersion: string,
    evidence: Option<Evidence>,   // none when the runs mix evidence classes
    manifestSha: Sha<Manifest>,
    runsSha: Sha<seq<Run>>,
    reviewsSha: Sha<seq<Review>>,
    overall: Summary,
    plain: Summary,
    jstack: Summary,
    controlled: Uplift,
    operational: Uplift)

  // --------------------------------------------------------- accepted inputs

  /** A task, mode, host, condition and repetition. */
  type Occurrence = (string, string, Mode, Host, Condition, int)

  function OccurrenceOf(r: Run): Occurrence {
    (r.taskId, r.taskDigest, r.mode, r.host, r.condition, r.repetition)
  }

  /** Everything that repetitions of one study share. */
  datatype StudyKey = StudyKey(
    taskId: string, taskDigest: string, family: Family, taskKind: TaskKind, mode: Mode, evidence: Evidence,
    host: Host, environment: Environment, baselineCommit: string, hiddenTests: string,
    knownVulnerabilities: int, cleanTask: bool, previouslyPassing: int, baseline: Metrics)

  function StudyKeyOf(r: Run): StudyKey {
    StudyKey(r.taskId, r.taskDigest, r.family, r.taskKind, r.mode, r.evidence, r.host, r.environment,
             r.baselineCommit, r.hiddenTests, r.outcome.knownVulnerabilities, r.outcome.cleanTask,
             r.outcome.previouslyPassingAssertions, r.baseline)
  }

  predicate IsReal(r: Run) { r.evidence != DevelopmentMock }

  ghost function RepetitionsOf(runs: seq<Run>, key: StudyKey, c: Condition): set<int> {
    set r | r in runs && IsReal(r) && StudyKeyOf(r) == key && r.condition == c :: r.repetition
  }

  /** Both conditions repeat 1, 2, ..., n with n at least 3. */
  ghost predicate Replicated(runs: seq<Run>, key: StudyKey) {
    var p, j := RepetitionsOf(runs, key, Plain), RepetitionsOf(runs, key, JStack);
    p == j && |p| >= 3 && p == UpTo(|p|)
  }

  ghost function RunIds(runs: seq<Run>): set<string> { set r | r in runs :: r.runId }

  ghost function ReviewIds(reviews: seq<Review>): set<string> { set v | v in reviews :: v.runId }

  ghost predicate InputsAccepted(m: Manifest, runs: seq<Run>, reviews: seq<Review>) {
    && (forall r | r in runs :: ValidRun(r))
    && (forall v | v in reviews :: ValidReview(v))
    && PlanAccepted(m)
    && runs != []
    && SortBy(Bindings(runs), BindingKey) == m.expectedRuns
    && Distinct(runs, RunKey)
    && Distinct(runs, OccurrenceOf)
    && (forall r | r in runs && IsReal(r) :: Replicated(runs, StudyKeyOf(r)))
    && Distinct(reviews, ReviewKey)
    && RunIds(runs) == ReviewIds(reviews)
  }

  function ReviewMap(reviews: seq<Review>): Reviews
    decreases |reviews|
  {
    if reviews == [] then map[]
    else
      var last := reviews[|reviews| - 1];
      ReviewMap(reviews[..|reviews| - 1])[last.runId := last]
  }

  lemma {:induction false} ReviewMapFiles(reviews: seq<Review>)
    requires Distinct(reviews, ReviewKey)
    ensures ReviewMap(reviews).Keys == ReviewIds(reviews)
    ensures forall v | v in reviews :: v.runId in ReviewMap(reviews) && ReviewMap(reviews)[v.runId] == v
    decreases |reviews|
  {
    if reviews != [] {
      var front, last := reviews[..|reviews| - 1], reviews[|reviews| - 1];
      assert reviews == front + [last];
      ReviewMapFiles(front);
      forall v | v in front
        ensures v.runId != last.runId
      {
        var i :| 0 <= i < |front| && front[i] == v;
        assert reviews[i] == v;
      }
    }
  }

  lemma MembersValid(runs: seq<Run>, reviews: seq<Review>)
    requires (forall r | r in runs :: ValidRun(r)) && (forall v | v in reviews :: ValidReview(v))
    requires Distinct(reviews, ReviewKey) && RunIds(runs) == ReviewIds(reviews)
    ensures AllValid(runs, ReviewMap(reviews))
  {
    hide ValidRun, ValidReview, Distinct;
    ReviewMapFiles(reviews);
    forall i | 0 <= i < |runs|
      ensures runs[i].runId in ReviewMap(reviews)
      ensures ValidRun(runs[i]) && ValidReview(ReviewMap(reviews)[runs[i].runId])
    {
      assert runs[i] in runs;
      assert runs[i].runId in RunIds(runs);
      var v :| v in reviews && v.runId == runs[i].runId;
    }
  }

  // ------------------------------------------------------------- the document

  ghost predicate FalseFindingsFit(runs: seq<Run>, reviews: Reviews)
    requires Reviewed(runs, reviews)
  {
    TallyOf(runs, reviews).findings.falseFindings <= TallyOf(runs, reviews).findings.reported
  }

  /** No review confirms more false findings than were reported, overall or under either condition. */
  ghost predicate AllFit(runs: seq<Run>, reviews: Reviews)
    requires AllValid(runs, reviews)
  {
    TallySplits(runs, reviews);
    && FalseFindingsFit(runs, reviews)
    && FalseFindingsFit(Filter(runs, Plain), reviews)
    && FalseFindingsFit(Filter(runs, JStack), reviews)
  }

  ghost function SummaryFor(a: Numerics, runs: seq<Run>, reviews: Reviews): Summary
    requires AllValid(runs, reviews)
  {
    TallyIsSane(runs, reviews);
    SaneParts(TallyOf(runs, reviews));
    SummaryOf(a, TallyOf(runs, reviews), runs)
  }

  ghost predicate PairsFit(a: Numerics, runs: seq<Run>, reviews: Reviews)
    requires Reviewed(runs, reviews)
  {
    UpliftFor(a, Controlled, runs, reviews).Some? && UpliftFor(a, Operational, runs, reviews).Some?
  }

  function EvidenceOf(runs: seq<Run>): Option<Evidence> {
    if runs != [] && forall r | r in runs :: r.evidence == runs[0].evidence then Some(runs[0].evidence) else None
  }

  /** The document built from sorted inputs. */
  ghost function Document(a: Numerics, m: Manifest, runs: seq<Run>, reviews: seq<Review>): Score
    requires AllValid(runs, ReviewMap(reviews)) && PairsFit(a, runs, ReviewMap(reviews))
  {
    var byRun := ReviewMap(reviews);
    TallySplits(runs, byRun);
    Score(
      m.corpusId, m.corpusVersion, EvidenceOf(runs), Sha(m), Sha(runs), Sha(reviews),
      SummaryFor(a, runs, byRun),
      SummaryFor(a, Filter(runs, Plain), byRun),
      SummaryFor(a, Filter(runs, JStack), byRun),
      UpliftFor(a, Controlled, runs, byRun).value,
      UpliftFor(a, Operational, runs, byRun).value)
  }

  predicate Validates(a: Numerics, s: Score) {
    ValidScore(a, s.overall, s.plain, s.jstack, s.controlled, s.operational)
  }

  /** What scoring returns for these inputs, none standing for any refusal. */
  ghost function Scored(a: Numerics, m: Manifest, runs: seq<Run>, reviews: seq<Review>): Option<Score> {
    if !InputsAccepted(m, runs, reviews) then None
    else ScoredSorted(a, m, SortBy(runs, RunKey), SortBy(reviews, ReviewKey))
  }

  ghost function ScoredSorted(a: Numerics, m: Manifest, runs: seq<Run>, reviews: seq<Review>): Option<Score> {
    var byRun := ReviewMap(reviews);
    if AllValid(runs, byRun) && AllFit(runs, byRun) && PairsFit(a, runs, byRun)
       && Validates(a, Document(a, m, runs, reviews))
    then Some(Document(a, m, runs, reviews)) else None
  }

  // ------------------------------------------- agreement with the validator

  /** The three cost totals tie the same way in the summary of these runs. */
  ghost predicate Ties(runs: seq<Run>, reviews: Reviews)
    requires Reviewed(runs, reviews)
  {
    var e := TallyOf(runs, reviews).effort;
    CostTie(e.modelCost, e.computeCost, e.reviewCost)
  }

  ghost predicate AnyTies(runs: seq<Run>, reviews: Reviews)
    requires AllValid(runs, reviews)
  {
    TallySplits(runs, reviews);
    Ties(runs, reviews) || Ties(Filter(runs, Plain), reviews) || Ties(Filter(runs, JStack), reviews)
  }

  lemma PartsInCaps(p: Tally, j: Tally)
    requires Sane(p) && Sane(j) && InCaps(p.Plus(j))
    ensures InCaps(p) && InCaps(j)
  {
  }

  lemma UpliftsAccepted(a: Numerics, mode: Mode, runs: seq<Run>, reviews: Reviews)
    requires a.Exact() && Reviewed(runs, reviews) && |runs| <= MAX_RUNS && UpliftFor(a, mode, runs, reviews).Some?
    ensures ValidUplift(a, UpliftFor(a, mode, runs, reviews).value)
    ensures Represented(UpliftFor(a, mode, runs, reviews).value) == InMode(runs, mode)
  {
    hide ValidUplift, Files;
    var g := Grouped(runs, mode).value;
    EveryRunIsRepresented(runs, mode);
    GroupedReviewed(runs, mode, reviews);
    WinnersAreMatched(g, reviews, Plain);
    WinnersAreMatched(g, reviews, JStack);
    ModesCover(runs);
    UpliftAccepted(a, |Matched(g)|, |Unmatched(g)|, |Winners(g, reviews, Plain)|, |Winners(g, reviews, JStack)|);
  }

  lemma SummaryForAccepted(a: Numerics, runs: seq<Run>, reviews: Reviews)
    requires a.Exact() && AllValid(runs, reviews) && |runs| <= MAX_RUNS && FalseFindingsFit(runs, reviews)
    ensures Sane(TallyOf(runs, reviews))
    ensures ValidSummary(a, SummaryFor(a, runs, reviews)) <==> InCaps(TallyOf(runs, reviews)) && !Ties(runs, reviews)
  {
    hide AllValid, ValidSummary, SummaryOf, CostTie, InCaps;
    SummaryAccepted(a, runs, reviews);
  }

  /** The score built from accepted envelopes passes every check of the validator
      exactly when its counters stay in range and no summary's costs tie. */
  lemma ScorerMeetsValidator(a: Numerics, m: Manifest, runs: seq<Run>, reviews: seq<Review>)
    requires a.Exact() && AllValid(runs, ReviewMap(reviews)) && |runs| <= MAX_RUNS
    requires AllFit(runs, ReviewMap(reviews)) && PairsFit(a, runs, ReviewMap(reviews))
    ensures Validates(a, Document(a, m, runs, reviews)) <==>
      InCaps(TallyOf(runs, ReviewMap(reviews))) && !AnyTies(runs, ReviewMap(reviews))
  {
    hide ValidSummary, SummaryOf, ValidUplift, UpliftFor, Reconciles, InCaps, Sane, CostTie, ReviewMap, TallyOf,
        InMode, ValidRun, ValidReview;
    var byRun := ReviewMap(reviews);
    var plain, jstack := Filter(runs, Plain), Filter(runs, JStack);
    TallySplits(runs, byRun);
    var p, j := TallyOf(plain, byRun), TallyOf(jstack, byRun);
    SummaryForAccepted(a, runs, byRun);
    SummaryForAccepted(a, plain, byRun);
    SummaryForAccepted(a, jstack, byRun);
    UpliftsAccepted(a, Controlled, runs, byRun);
    UpliftsAccepted(a, Operational, runs, byRun);
    ModesCover(runs);
    AttemptedAll(a, runs, byRun);
    if InCaps(p.Plus(j)) { PartsInCaps(p, j); }
    if ValidSummary(a, SummaryFor(a, runs, byRun))
       && ValidSummary(a, SummaryFor(a, plain, byRun)) && ValidSummary(a, SummaryFor(a, jstack, byRun)) {
      SummariesReconcile(a, runs, plain, jstack, p, j);
    }
  }

  lemma AttemptedAll(a: Numerics, runs: seq<Run>, reviews: Reviews)
    requires AllValid(runs, reviews)
    ensures SummaryFor(a, runs, reviews).runCounts.attempted == |runs|
  {
  }

  // --------------------------------------------------------- order independence

  lemma {:induction false} SortCommutes(runs: seq<Run>)
    ensures SortBy(Bindings(runs), BindingKey) == Bindings(SortBy(runs, RunKey))
  {
    if runs != [] {
      SortCommutes(runs[1..]);
      InsertCommutes(runs[0], SortBy(runs[1..], RunKey));
      assert Bindings(runs)[1..] == Bindings(runs[1..]);
    }
  }

  lemma {:induction false} InsertCommutes(r: Run, s: seq<Run>)
    ensures Insert(ExpectedRunBinding(r), Bindings(s), BindingKey) == Bindings(Insert(r, s, RunKey))
  {
    if s != [] && !AtMost(RunKey(r), RunKey(s[0])) {
      InsertCommutes(r, s[1..]);
      assert Bindings(s)[1..] == Bindings(s[1..]);
    } else {
      assert Bindings([r] + s) == [ExpectedRunBinding(r)] + Bindings(s);
    }
  }

  lemma AcceptanceForgetsOrder(m: Manifest, runs: seq<Run>, reviews: seq<Review>, runs': seq<Run>,
      reviews': seq<Review>)
    requires multiset(runs) == multiset(runs') && multiset(reviews) == multiset(reviews')
    requires InputsAccepted(m, runs, reviews)
    ensures InputsAccepted(m, runs', reviews')
  {
    hide ValidRun, ValidReview, PlanAccepted, Replicated, Distinct, SortBy, RunIds, ReviewIds;
    DistinctForgetsOrder(runs, runs', RunKey);
    DistinctForgetsOrder(runs, runs', OccurrenceOf);
    DistinctForgetsOrder(reviews, reviews', ReviewKey);
    RunsSortAlike(runs, runs');
    SortCommutes(runs);
    SortCommutes(runs');
    StudiesForgetOrder(runs, runs');
    SameMembers(runs, runs');
    SameMembers(reviews, reviews');
    SameLength(runs, runs');
    SameIds(runs, runs', reviews, reviews');
  }

  lemma RunsSortAlike(runs: seq<Run>, runs': seq<Run>)
    requires multiset(runs) == multiset(runs') && Distinct(runs, RunKey)
    ensures SortBy(runs, RunKey) == SortBy(runs', RunKey)
  {
    DistinctKeyed(runs, RunKey);
    SortForgetsOrder(runs, runs', RunKey);
  }

  lemma StudiesForgetOrder(runs: seq<Run>, runs': seq<Run>)
    requires multiset(runs) == multiset(runs')
    ensures forall key :: Replicated(runs, key) == Replicated(runs', key)
  {
    SameMembers(runs, runs');
    forall key, c
      ensures RepetitionsOf(runs, key, c) == RepetitionsOf(runs', key, c)
    {
    }
  }

  lemma SameIds(runs: seq<Run>, runs': seq<Run>, reviews: seq<Review>, reviews': seq<Review>)
    requires multiset(runs) == multiset(runs') && multiset(reviews) == multiset(reviews')
    ensures RunIds(runs) == RunIds(runs') && ReviewIds(reviews) == ReviewIds(reviews')
  {
    SameMembers(runs, runs');
    SameMembers(reviews, reviews');
  }

  /** Permuting the runs and the reviews gives the same score, or refuses both. */
  lemma ScoringForgetsOrder(a: Numerics, m: Manifest, runs: seq<Run>, reviews: seq<Review>, runs': seq<Run>,
      reviews': seq<Review>)
    requires multiset(runs) == multiset(runs') && multiset(reviews) == multiset(reviews')
    ensures Scored(a, m, runs, reviews) == Scored(a, m, runs', reviews')
  {
    hide ScoredSorted, SortBy;
    if InputsAccepted(m, runs, reviews) {
      AcceptanceForgetsOrder(m, runs, reviews, runs', reviews');
      SortedAlike(m, runs, reviews, runs', reviews');
    }
    if InputsAccepted(m, runs', reviews') {
      AcceptanceForgetsOrder(m, runs', reviews', runs, reviews);
    }
  }

  lemma SortedAlike(m: Manifest, runs: seq<Run>, reviews: seq<Review>, runs': seq<Run>, reviews': seq<Review>)
    requires multiset(runs) == multiset(runs') && multiset(reviews) == multiset(reviews')
    requires InputsAccepted(m, runs, reviews)
    ensures SortBy(runs, RunKey) == SortBy(runs', RunKey)
    ensures SortBy(reviews, ReviewKey) == SortBy(reviews', ReviewKey)
  {
    hide SortBy;
    RunsSortAlike(runs, runs');
    DistinctKeyed(reviews, ReviewKey);
    SortForgetsOrder(reviews, reviews', ReviewKey);
  }

  // ------------------------------------------------------------ the procedure

  /** The repetitions of each real study met so far, by condition. */
  type Replications = map<StudyKey, (set<int>, set<int>)>

  ghost predicate Tallied(runs: seq<Run>, groups: Replications) {
    && (forall r | r in runs && IsReal(r) :: StudyKeyOf(r) in groups)
    && (forall key | key in groups ::
          && groups[key] == (RepetitionsOf(runs, key, Plain), RepetitionsOf(runs, key, JStack))
          && exists r :: r in runs && IsReal(r) && StudyKeyOf(r) == key)
  }

  function AddRepetition(groups: Replications, r: Run): Replications {
    var (plain, jstack) := if StudyKeyOf(r) in groups then groups[StudyKeyOf(r)] else ({}, {});
    groups[StudyKeyOf(r) :=
      if r.condition == Plain then (plain + {r.repetition}, jstack) else (plain, jstack + {r.repetition})]
  }

  lemma RepetitionsSnoc(runs: seq<Run>, r: Run, key: StudyKey, c: Condition)
    ensures RepetitionsOf(runs + [r], key, c)
         == if IsReal(r) && StudyKeyOf(r) == key && r.condition == c
            then RepetitionsOf(runs, key, c) + {r.repetition} else RepetitionsOf(runs, key, c)
  {
    var more := RepetitionsOf(runs + [r], key, c);
    assert forall x | x in runs :: x in runs + [r];
    assert r in runs + [r];
    assert RepetitionsOf(runs, key, c) <= more;
  }

  lemma TalliedSnoc(runs: seq<Run>, r: Run, groups: Replications)
    requires Tallied(runs, groups)
    ensures Tallied(runs + [r], if IsReal(r) then AddRepetition(groups, r) else groups)
  {
    hide StudyKeyOf, RepetitionsOf;
    var after := if IsReal(r) then AddRepetition(groups, r) else groups;
    forall key | key in after
      ensures after[key] == (RepetitionsOf(runs + [r], key, Plain), RepetitionsOf(runs + [r], key, JStack))
      ensures exists x :: x in runs + [r] && IsReal(x) && StudyKeyOf(x) == key
    {
      RepetitionsSnoc(runs, r, key, Plain);
      RepetitionsSnoc(runs, r, key, JStack);
      if key in groups {
        var x :| x in runs && IsReal(x) && StudyKeyOf(x) == key;
        assert x in runs + [r];
      } else {
        NoRepetitions(runs, groups, key);
        assert r in runs + [r] && StudyKeyOf(r) == key;
      }
    }
  }

  lemma NoRepetitions(runs: seq<Run>, groups: Replications, key: StudyKey)
    requires Tallied(runs, groups) && key !in groups
    ensures RepetitionsOf(runs, key, Plain) == {} && RepetitionsOf(runs, key, JStack) == {}
  {
  }

  method CheckRepetitions(runs: seq<Run>) returns (ok: bool)
    ensures ok <==> forall r | r in runs && IsReal(r) :: Replicated(runs, StudyKeyOf(r))
  {
    hide StudyKeyOf, Replicated;
    var groups: Replications := map[];
    for i := 0 to |runs|
      invariant Tallied(runs[..i], groups)
    {
      hide Tallied, AddRepetition;
      assert runs[..i + 1] == runs[..i] + [runs[i]];
      TalliedSnoc(runs[..i], runs[i], groups);
      if IsReal(runs[i]) { groups := AddRepetition(groups, runs[i]); }
    }
    assert runs[..|runs|] == runs;
    ok := EveryStudyReplicated(runs, groups);
  }

  method EveryStudyReplicated(ghost runs: seq<Run>, groups: Replications) returns (ok: bool)
    requires Tallied(runs, groups)
    ensures ok <==> forall r | r in runs && IsReal(r) :: Replicated(runs, StudyKeyOf(r))
  {
    hide StudyKeyOf, RepetitionsOf;
    var todo := groups.Keys;
    while todo != {}
      invariant todo <= groups.Keys
      invariant forall key | key in groups && key !in todo :: Replicated(runs, key)
    {
      var key := Pick(todo);
      var (plain, jstack) := groups[key];
      if plain != jstack || |plain| < 3 || plain != UpTo(|plain|) {
        assert !Replicated(runs, key);
        return false;
      }
      assert Replicated(runs, key);
      todo := todo - {key};
    }
    return true;
  }

  method CheckEnvelopes(runs: seq<Run>, reviews: seq<Review>) returns (ok: bool)
    ensures ok <==> (forall r | r in runs :: ValidRun(r)) && (forall v | v in reviews :: ValidReview(v))
  {
    hide ValidRun, ValidReview;
    for i := 0 to |runs|
      invariant forall k | 0 <= k < i :: ValidRun(runs[k])
    {
      if !ValidRun(runs[i]) { return false; }
    }
    for i := 0 to |reviews|
      invariant forall k | 0 <= k < i :: ValidReview(reviews[k])
    {
      if !ValidReview(reviews[i]) { return false; }
    }
    return true;
  }

  /** File the reviews by run, refusing a second review of one run. */
  method IndexReviews(reviews: seq<Review>) returns (r: Option<Reviews>)
    ensures r.Some? <==> Distinct(reviews, ReviewKey)
    ensures r.Some? ==> r.value == ReviewMap(reviews)
  {
    var byRun: Reviews := map[];
    for i := 0 to |reviews|
      invariant Distinct(reviews[..i], ReviewKey)
      invariant byRun == ReviewMap(reviews[..i])
    {
      assert reviews[..i + 1][..i] == reviews[..i];
      ReviewMapFiles(reviews[..i]);
      if reviews[i].runId in byRun {
        var v :| v in reviews[..i] && v.runId == reviews[i].runId;
        return None;
      }
      NewReview(reviews, i);
      byRun := byRun[reviews[i].runId := reviews[i]];
    }
    assert reviews[..|reviews|] == reviews;
    return Some(byRun);
  }

  lemma NewReview(reviews: seq<Review>, i: nat)
    requires i < |reviews| && Distinct(reviews[..i], ReviewKey) && reviews[i].runId !in ReviewIds(reviews[..i])
    ensures Distinct(reviews[..i + 1], ReviewKey)
  {
    forall k | 0 <= k < i
      ensures ReviewKey(reviews[k]) != ReviewKey(reviews[i])
    {
      assert reviews[..i][k] in reviews[..i];
    }
  }

  method CheckInputs(m: Manifest, runs: seq<Run>, reviews: seq<Review>) returns (ok: bool)
    ensures ok <==> InputsAccepted(m, runs, reviews)
  {
    hide ValidRun, ValidReview, PlanAccepted, Replicated, Distinct, SortBy;
    var valid := CheckEnvelopes(runs, reviews);
    if !valid { return false; }
    var planned := ValidatePlan(m);
    if !planned || runs == [] { return false; }
    if SortBy(Bindings(runs), BindingKey) != m.expectedRuns { return false; }
    var distinct := AllDistinct(runs, RunKey);
    if !distinct { return false; }
    distinct := AllDistinct(runs, OccurrenceOf);
    if !distinct { return false; }
    var replicated := CheckRepetitions(runs);
    if !replicated { return false; }
    var byRun := IndexReviews(reviews);
    if byRun.None? { return false; }
    ReviewMapFiles(reviews);
    return (set r | r in runs :: r.runId) == byRun.value.Keys;
  }

  /** Validate, sort, summarize, pair, and validate the result. */
  method ScoreRuns(a: Numerics, m: Manifest, runs: seq<Run>, reviews: seq<Review>) returns (r: Option<Score>)
    ensures r == Scored(a, m, runs, reviews)
  {
    hide InputsAccepted, SortBy;
    var accepted := CheckInputs(m, runs, reviews);
    if !accepted { return None; }
    InputsSort(m, runs, reviews);
    r := ScoreSorted(a, m, SortBy(runs, RunKey), SortBy(reviews, ReviewKey));
  }

  /** Sorting accepted inputs leaves every run reviewed and valid. */
  lemma InputsSort(m: Manifest, runs: seq<Run>, reviews: seq<Review>)
    requires InputsAccepted(m, runs, reviews)
    ensures AllValid(SortBy(runs, RunKey), ReviewMap(SortBy(reviews, ReviewKey)))
    ensures 0 < |SortBy(runs, RunKey)| <= MAX_RUNS
  {
    hide ValidRun, ValidReview, Replicated, Distinct, SortBy;
    var rs, vs := SortBy(runs, RunKey), SortBy(reviews, ReviewKey);
    SameMembers(runs, rs);
    SameMembers(reviews, vs);
    DistinctForgetsOrder(reviews, vs, ReviewKey);
    SameIds(runs, rs, reviews, vs);
    MembersValid(rs, vs);
  }

  method ScoreSorted(a: Numerics, m: Manifest, runs: seq<Run>, reviews: seq<Review>) returns (r: Option<Score>)
    requires AllValid(runs, ReviewMap(reviews)) && runs != []
    ensures r == ScoredSorted(a, m, runs, reviews)
  {
    hide ValidRun, ValidReview, SummaryOf, TallyOf, UpliftFor, ValidScore, ReviewMap, Sane;
    var byRun := ReviewMap(reviews);
    TallySplits(runs, byRun);
    var overall := SummarizeRuns(a, runs, byRun);
    if overall.None? { return None; }
    var plain := SummarizeRuns(a, Filter(runs, Plain), byRun);
    if plain.None? { return None; }
    var jstack := SummarizeRuns(a, Filter(runs, JStack), byRun);
    if jstack.None? { return None; }
    var controlled := UpliftForMode(a, Controlled, runs, byRun);
    if controlled.None? { return None; }
    var operational := UpliftForMode(a, Operational, runs, byRun);
    if operational.None? { return None; }
    var score := Score(
      m.corpusId, m.corpusVersion, EvidenceOf(runs), Sha(m), Sha(runs), Sha(reviews),
      overall.value, plain.value, jstack.value, controlled.value, operational.value);
    if !Validates(a, score) { return None; }
    return Some(score);
  }
}
