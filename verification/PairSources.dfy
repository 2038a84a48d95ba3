/** The paired figures of a score, read off its runs (evals/runner/score.py, `_uplift_for_mode`). */
module PairSources {
  import opened Wrappers
  import opened Rounding
  import opened ScoreFigures
  import opened RunRecords
  import opened Tallies
  import opened Pairing
  import opened FigureSources

  /** The run stands at this place. */
  predicate At(r: Run, mode: Mode, pair: string, c: Condition) {
    r.mode == mode && r.pairId == pair && r.condition == c
  }

  ghost predicate HasRun(runs: seq<Run>, mode: Mode, pair: string, c: Condition) {
    exists r :: r in runs && At(r, mode, pair, c)
  }

  /** The run at this place finished, and its review accepts it. */
  ghost predicate Succeeded(runs: seq<Run>, reviews: Reviews, mode: Mode, pair: string, c: Condition) {
    exists r :: r in runs && At(r, mode, pair, c) && Finished(reviews)(r) == 1
  }

  ghost function PairIds(runs: seq<Run>, mode: Mode): set<string> { set r | r in runs && r.mode == mode :: r.pairId }

  ghost function FullPairs(runs: seq<Run>, mode: Mode): set<string> {
    set p | p in PairIds(runs, mode) && HasRun(runs, mode, p, Plain) && HasRun(runs, mode, p, JStack)
  }

  ghost function Successes(runs: seq<Run>, reviews: Reviews, mode: Mode, c: Condition): set<string> {
    set p | p in FullPairs(runs, mode) && Succeeded(runs, reviews, mode, p, c)
  }

  /** Everything but what the candidate did is the same; the limits only in controlled mode. */
  predicate SameTask(p: Run, j: Run, mode: Mode) {
    && p.(runId := j.runId, condition := j.condition, candidateCommit := j.candidateCommit, execution := j.execution,
          limits := if mode == Controlled then p.limits else j.limits, outcome := j.outcome, candidate := j.candidate,
          result := j.result) == j
    && p.outcome.knownVulnerabilities == j.outcome.knownVulnerabilities
    && p.outcome.cleanTask == j.outcome.cleanTask
    && p.outcome.previouslyPassingAssertions == j.outcome.previouslyPassingAssertions
  }

  ghost predicate TwinsAgree(runs: seq<Run>, mode: Mode) {
    forall p, j | p in runs && j in runs && p.pairId == j.pairId && p.mode == j.mode == mode
                  && p.condition == Plain && j.condition == JStack ::
      SameTask(p, j, mode)
  }

  /** A place of the grouping holds the only run there. */
  lemma PlacesHoldRuns(runs: seq<Run>, mode: Mode, pair: string, c: Condition)
    requires Grouped(runs, mode).Some?
    ensures var g := Grouped(runs, mode).value;
      && (HasRun(runs, mode, pair, c) <==> pair in g && c in g[pair])
      && (forall r | r in runs && At(r, mode, pair, c) :: pair in g && c in g[pair] && r == g[pair][c])
      && (pair in g && c in g[pair] ==> g[pair][c] in runs && At(g[pair][c], mode, pair, c))
  {
    hide Grouped;
    EveryRunIsRepresented(runs, mode);
    GroupingFails(runs, mode);
    var g := Grouped(runs, mode).value;
    forall r | r in runs && At(r, mode, pair, c)
      ensures pair in g && c in g[pair] && r == g[pair][c]
    {
      var i :| 0 <= i < |runs| && runs[i] == r;
      var k :| 0 <= k < |runs| && runs[k] == g[pair][c];
      assert SamePlace(runs[i], runs[k], mode) && SamePlace(runs[k], runs[i], mode);
      assert !(i < k) && !(k < i);
    }
  }

  lemma PairsAreRuns(runs: seq<Run>, mode: Mode)
    requires Grouped(runs, mode).Some?
    ensures var g := Grouped(runs, mode).value;
      && Matched(g) == FullPairs(runs, mode) && Unmatched(g) == PairIds(runs, mode) - FullPairs(runs, mode)
  {
    hide Grouped, HasRun;
    var g := Grouped(runs, mode).value;
    EveryRunIsRepresented(runs, mode);
    forall p
      ensures p in g <==> p in PairIds(runs, mode)
      ensures p in FullPairs(runs, mode) <==> p in g && IsMatched(g[p])
    {
      PlacesHoldRuns(runs, mode, p, Plain);
      PlacesHoldRuns(runs, mode, p, JStack);
      if p in g {
        assert g[p].Keys != {} by { assert g[p] != map[]; }
        var c :| c in g[p].Keys;
        assert g[p][c] in runs && g[p][c].mode == mode && g[p][c].pairId == p;
      }
    }
  }

  lemma WinnersAreRuns(runs: seq<Run>, reviews: Reviews, mode: Mode, c: Condition)
    requires Reviewed(runs, reviews) && Grouped(runs, mode).Some?
    ensures GroupsReviewed(Grouped(runs, mode).value, reviews)
    ensures Winners(Grouped(runs, mode).value, reviews, c) == Successes(runs, reviews, mode, c)
  {
    hide Grouped, HasRun, FullPairs;
    var g := Grouped(runs, mode).value;
    GroupedReviewed(runs, mode, reviews);
    PairsAreRuns(runs, mode);
    forall p
      ensures p in Winners(g, reviews, c) <==> p in Successes(runs, reviews, mode, c)
    {
      PlacesHoldRuns(runs, mode, p, c);
      if p in Successes(runs, reviews, mode, c) {
        assert p in Matched(g);
        var r :| r in runs && At(r, mode, p, c) && Finished(reviews)(r) == 1;
      }
      if p in Winners(g, reviews, c) {
        assert p in Matched(g);
        assert Finished(reviews)(g[p][c]) == 1;
      }
    }
  }

  /** The figures of one mode: pairs are ids with a run of either condition, and a side
      succeeds where its run finished, whole and unblocked, with an accepting review. */
  lemma UpliftSources(a: Numerics, mode: Mode, runs: seq<Run>, reviews: Reviews)
    requires Reviewed(runs, reviews) && UpliftFor(a, mode, runs, reviews).Some?
    ensures var u := UpliftFor(a, mode, runs, reviews).value;
      var pairs := FullPairs(runs, mode);
      var plain, jstack := |Successes(runs, reviews, mode, Plain)|, |Successes(runs, reviews, mode, JStack)|;
      && u.pairCount == |pairs| && u.unmatchedPairCount == |PairIds(runs, mode) - pairs|
      && u.plainCompletion.numerator == plain && u.jstackCompletion.numerator == jstack
      && u.plainCompletion.denominator == u.jstackCompletion.denominator == |pairs|
      && u.pairedDifference
         == if pairs == {} then None else Some(Micros((jstack - plain) as real / |pairs| as real))
  {
    hide Grouped, FullPairs, PairIds, Successes, Matched, Unmatched, Winners, Micros;
    GroupedReviewed(runs, mode, reviews);
    PairsAreRuns(runs, mode);
    WinnersAreRuns(runs, reviews, mode, Plain);
    WinnersAreRuns(runs, reviews, mode, JStack);
  }

  /** A mode has figures exactly when no two of its runs claim one place and the two runs
      of every pair are of the same task, measured before the change alike. */
  lemma PairsFitExactly(a: Numerics, mode: Mode, runs: seq<Run>, reviews: Reviews)
    requires Reviewed(runs, reviews)
    ensures UpliftFor(a, mode, runs, reviews).Some? <==>
      && (forall i, k | 0 <= i < k < |runs| && runs[i].mode == runs[k].mode == mode ::
            (runs[i].pairId, runs[i].condition) != (runs[k].pairId, runs[k].condition))
      && TwinsAgree(runs, mode)
  {
    hide Grouped, UpliftOf;
    GroupingFails(runs, mode);
    ApartOrShared(runs, mode);
    if Grouped(runs, mode).Some? { ComparableTwins(runs, mode); }
  }

  lemma ApartOrShared(runs: seq<Run>, mode: Mode)
    ensures PlaceShared(runs, mode) <==>
      exists i, k :: 0 <= i < k < |runs| && runs[i].mode == runs[k].mode == mode
                     && (runs[i].pairId, runs[i].condition) == (runs[k].pairId, runs[k].condition)
  {
    if i, k :| 0 <= i < k < |runs| && runs[i].mode == runs[k].mode == mode
               && (runs[i].pairId, runs[i].condition) == (runs[k].pairId, runs[k].condition) {
      assert SamePlace(runs[i], runs[k], mode);
    }
    if PlaceShared(runs, mode) {
      var i, k :| 0 <= i < k < |runs| && SamePlace(runs[i], runs[k], mode);
    }
  }

  lemma ComparableTwins(runs: seq<Run>, mode: Mode)
    requires Grouped(runs, mode).Some?
    ensures AllComparable(Grouped(runs, mode).value, mode) <==> TwinsAgree(runs, mode)
  {
    hide Grouped, Comparable, SameTask, HasRun;
    var g := Grouped(runs, mode).value;
    forall p | p in g && IsMatched(g[p])
      ensures g[p][Plain] in runs && At(g[p][Plain], mode, p, Plain)
      ensures g[p][JStack] in runs && At(g[p][JStack], mode, p, JStack)
      ensures Comparable(g[p][Plain], g[p][JStack], mode) == SameTask(g[p][Plain], g[p][JStack], mode)
    {
      PlacesHoldRuns(runs, mode, p, Plain);
      PlacesHoldRuns(runs, mode, p, JStack);
      OneTask(g[p][Plain], g[p][JStack], mode);
    }
    forall p, j | p in runs && j in runs && p.pairId == j.pairId && p.mode == j.mode == mode
                  && p.condition == Plain && j.condition == JStack
      ensures p.pairId in g && IsMatched(g[p.pairId]) && p == g[p.pairId][Plain] && j == g[p.pairId][JStack]
    {
      PlacesHoldRuns(runs, mode, p.pairId, Plain);
      PlacesHoldRuns(runs, mode, p.pairId, JStack);
    }
  }

  lemma OneTask(p: Run, j: Run, mode: Mode)
    requires p.pairId == j.pairId
    ensures Comparable(p, j, mode) == SameTask(p, j, mode)
  {
  }
}
