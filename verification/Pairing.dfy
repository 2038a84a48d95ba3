/** Matched pairs of one mode (evals/runner/score.py, `_uplift_for_mode`). */
module Pairing {
  import opened Wrappers
  import opened Ordering
  import opened ScoreFigures
  import opened RunRecords
  import opened Tallies

  type Groups = map<string, map<Condition, Run>>

  /** Runs of one mode filed by pair and condition; none when one place is filled twice. */
  ghost function Grouped(runs: seq<Run>, mode: Mode): Option<Groups>
    decreases |runs|
  {
    if runs == [] then Some(map[])
    else
      var before, run := Grouped(runs[..|runs| - 1], mode), runs[|runs| - 1];
      if before.None? || run.mode != mode then before
      else if Taken(before.value, run) then None
      else Some(File(before.value, run))
  }

  predicate Taken(g: Groups, run: Run) { run.pairId in g && run.condition in g[run.pairId] }

  function File(g: Groups, run: Run): Groups {
    g[run.pairId := (if run.pairId in g then g[run.pairId] else map[])[run.condition := run]]
  }

  predicate IsMatched(pair: map<Condition, Run>) { Plain in pair && JStack in pair }

  ghost function Matched(g: Groups): set<string> { set p | p in g && IsMatched(g[p]) }

  ghost function Unmatched(g: Groups): set<string> { set p | p in g && !IsMatched(g[p]) }

  ghost function InMode(runs: seq<Run>, mode: Mode): nat
    decreases |runs|
  {
    if runs == [] then 0 else InMode(runs[..|runs| - 1], mode) + Bit(runs[|runs| - 1].mode == mode)
  }

  /** Filing is faithful: each place holds the one run of that mode, pair and condition. */
  ghost predicate Files(g: Groups, runs: seq<Run>, mode: Mode) {
    && (forall p | p in g :: g[p] != map[])
    && (forall p, c | p in g && c in g[p] ::
          g[p][c] in runs && g[p][c].mode == mode && g[p][c].pairId == p && g[p][c].condition == c)
    && (forall r | r in runs && r.mode == mode :: r.pairId in g && r.condition in g[r.pairId])
  }

  lemma FilesMore(g: Groups, runs: seq<Run>, run: Run, mode: Mode)
    requires Files(g, runs, mode) && run.mode == mode && !Taken(g, run)
    ensures Files(File(g, run), runs + [run], mode)
  {
    var after := File(g, run);
    forall r | r in runs + [run] && r.mode == mode
      ensures r.pairId in after && r.condition in after[r.pairId]
    {
      if r != run { assert r in runs; }
    }
  }

  lemma CountsMore(g: Groups, run: Run)
    requires (forall p | p in g :: g[p] != map[]) && !Taken(g, run)
    ensures 2 * |Matched(File(g, run))| + |Unmatched(File(g, run))| == 2 * |Matched(g)| + |Unmatched(g)| + 1
  {
    var after, p := File(g, run), run.pairId;
    if p in g { SecondCompletes(g, run); }
    assert IsMatched(after[p]) <==> p in g;
    assert p in g ==> !IsMatched(g[p]);
    Elsewhere(g, after, p);
    var (m, m', u, u') := (Matched(g), Matched(after), Unmatched(g), Unmatched(after));
    assert p !in m && (p in u <==> p in g) && (p in m' <==> p in g) && (p in u' <==> p !in g);
    SizeWithout(m, m', p);
    SizeWithout(u, u', p);
  }

  lemma SecondCompletes(g: Groups, run: Run)
    requires run.pairId in g && g[run.pairId] != map[] && !Taken(g, run)
    ensures !IsMatched(g[run.pairId]) && IsMatched(File(g, run)[run.pairId])
  {
    var pair := g[run.pairId];
    assert pair.Keys != {};
    var c :| c in pair.Keys;
    assert c != run.condition;
  }

  lemma Elsewhere(g: Groups, after: Groups, p: string)
    requires forall q | q != p :: (q in after <==> q in g) && (q in g ==> after[q] == g[q])
    ensures Matched(after) - {p} == Matched(g) - {p} && Unmatched(after) - {p} == Unmatched(g) - {p}
  {
  }

  lemma SizeWithout<T>(s: set<T>, t: set<T>, x: T)
    requires s - {x} == t - {x}
    ensures |s| - (if x in s then 1 else 0) == |t| - (if x in t then 1 else 0)
  {
    assert |s - {x}| == |s| - (if x in s then 1 else 0);
    assert |t - {x}| == |t| - (if x in t then 1 else 0);
  }

  lemma NonEmpty(g: Groups, runs: seq<Run>, mode: Mode)
    requires Files(g, runs, mode)
    ensures forall p | p in g :: g[p] != map[]
  {
  }

  lemma FilesSkip(g: Groups, runs: seq<Run>, run: Run, mode: Mode)
    requires Files(g, runs, mode) && run.mode != mode
    ensures Files(g, runs + [run], mode)
  {
  }

  /** Two runs a matched pair and one an unmatched one: every run of the mode is accounted for. */
  lemma {:induction false} EveryRunIsRepresented(runs: seq<Run>, mode: Mode)
    requires Grouped(runs, mode).Some?
    ensures Files(Grouped(runs, mode).value, runs, mode)
    ensures var g := Grouped(runs, mode).value; 2 * |Matched(g)| + |Unmatched(g)| == InMode(runs, mode)
    decreases |runs|
  {
    if runs != [] {
      hide Files, Matched, Unmatched, File, Taken, Grouped, InMode;
      var front, run := runs[..|runs| - 1], runs[|runs| - 1];
      assert runs == front + [run];
      GroupedSnoc(front, run, mode);
      EveryRunIsRepresented(front, mode);
      var g := Grouped(front, mode).value;
      if run.mode == mode {
        FilesMore(g, front, run, mode);
        NonEmpty(g, front, mode);
        CountsMore(g, run);
      } else {
        FilesSkip(g, front, run, mode);
      }
    } else {
      EmptyFiles(runs, mode, map[]);
    }
  }

  lemma GroupedSnoc(front: seq<Run>, run: Run, mode: Mode)
    ensures var g := Grouped(front, mode);
      Grouped(front + [run], mode)
      == if g.None? || run.mode != mode then g else if Taken(g.value, run) then None else Some(File(g.value, run))
    ensures InMode(front + [run], mode) == InMode(front, mode) + Bit(run.mode == mode)
  {
    assert (front + [run])[..|front|] == front;
  }

  lemma EmptyFiles(runs: seq<Run>, mode: Mode, g: Groups)
    requires runs == [] && g == map[]
    ensures Files(g, runs, mode) && Matched(g) == {} && Unmatched(g) == {}
  {
  }

  lemma {:induction false} ModesCover(runs: seq<Run>)
    ensures InMode(runs, Controlled) + InMode(runs, Operational) == |runs|
    decreases |runs|
  {
    if runs != [] { ModesCover(runs[..|runs| - 1]); }
  }

  ghost predicate PlaceShared(runs: seq<Run>, mode: Mode) {
    exists i, k :: 0 <= i < k < |runs| && SamePlace(runs[i], runs[k], mode)
  }

  /** Filing fails exactly when two runs of the mode claim one place. */
  lemma {:induction false} GroupingFails(runs: seq<Run>, mode: Mode)
    ensures Grouped(runs, mode).None? <==> PlaceShared(runs, mode)
    decreases |runs|
  {
    if runs != [] {
      hide PlaceShared, SamePlace;
      var front, run := runs[..|runs| - 1], runs[|runs| - 1];
      GroupingFails(front, mode);
      SharedSnoc(front, run, mode);
      assert runs == front + [run];
      if Grouped(front, mode).Some? {
        EveryRunIsRepresented(front, mode);
        TakenMeansShared(front, run, mode, Grouped(front, mode).value);
      }
    } else {
      assert !PlaceShared(runs, mode);
    }
  }

  lemma SharedSnoc(front: seq<Run>, run: Run, mode: Mode)
    ensures PlaceShared(front + [run], mode) <==>
      PlaceShared(front, mode) || exists i :: 0 <= i < |front| && SamePlace(front[i], run, mode)
  {
    var runs := front + [run];
    if PlaceShared(front, mode) {
      var i, k :| 0 <= i < k < |front| && SamePlace(front[i], front[k], mode);
      assert SamePlace(runs[i], runs[k], mode);
    }
    if i :| 0 <= i < |front| && SamePlace(front[i], run, mode) {
      assert SamePlace(runs[i], runs[|front|], mode);
    }
    if PlaceShared(runs, mode) {
      var i, k :| 0 <= i < k < |runs| && SamePlace(runs[i], runs[k], mode);
      if k < |front| { assert SamePlace(front[i], front[k], mode); } else { assert SamePlace(front[i], run, mode); }
    }
  }

  lemma TakenMeansShared(front: seq<Run>, run: Run, mode: Mode, g: Groups)
    requires Files(g, front, mode)
    ensures run.mode == mode && Taken(g, run) <==> exists i :: 0 <= i < |front| && SamePlace(front[i], run, mode)
  {
    if run.mode == mode && Taken(g, run) {
      var i :| 0 <= i < |front| && front[i] == g[run.pairId][run.condition];
      assert SamePlace(front[i], run, mode);
    }
  }

  predicate SamePlace(r: Run, s: Run, mode: Mode) {
    r.mode == mode && s.mode == mode && r.pairId == s.pairId && r.condition == s.condition
  }

  /** One task binding, one host configuration, the same immutable evidence, equal controlled limits. */
  predicate Comparable(p: Run, j: Run, mode: Mode) {
    && (p.taskId, p.taskDigest, p.family, p.taskKind, p.mode, p.repetition, p.evidence)
       == (j.taskId, j.taskDigest, j.family, j.taskKind, j.mode, j.repetition, j.evidence)
    && p.host == j.host
    && p.environment == j.environment && p.baselineCommit == j.baselineCommit && p.hiddenTests == j.hiddenTests
    && p.outcome.knownVulnerabilities == j.outcome.knownVulnerabilities
    && p.outcome.cleanTask == j.outcome.cleanTask
    && p.outcome.previouslyPassingAssertions == j.outcome.previouslyPassingAssertions
    && p.baseline == j.baseline
    && (mode == Controlled ==> p.limits == j.limits)
  }

  ghost predicate AllComparable(g: Groups, mode: Mode) {
    forall p | p in g && IsMatched(g[p]) :: Comparable(g[p][Plain], g[p][JStack], mode)
  }

  predicate Wins(g: Groups, reviews: Reviews, p: string, c: Condition)
    requires p in g && c in g[p] && g[p][c].runId in reviews
  {
    Completion(g[p][c], reviews[g[p][c].runId])
  }

  ghost predicate GroupsReviewed(g: Groups, reviews: Reviews) {
    forall p, c | p in g && c in g[p] :: g[p][c].runId in reviews
  }

  /** The matched pairs whose run under this condition completed. */
  ghost function Winners(g: Groups, reviews: Reviews, c: Condition): set<string>
    requires GroupsReviewed(g, reviews)
  {
    set p | p in g && IsMatched(g[p]) && c in g[p] && Wins(g, reviews, p, c)
  }

  /** The uplift of one mode, or none when a pair is ambiguous or not comparable. */
  ghost function UpliftFor(a: Numerics, mode: Mode, runs: seq<Run>, reviews: Reviews): Option<Uplift>
    requires Reviewed(runs, reviews)
  {
    var grouped := Grouped(runs, mode);
    if grouped.None? then None
    else
      GroupedReviewed(runs, mode, reviews);
      var g := grouped.value;
      if !AllComparable(g, mode) then None
      else Some(UpliftOf(a, |Matched(g)|, |Unmatched(g)|, |Winners(g, reviews, Plain)|, |Winners(g, reviews, JStack)|))
  }

  lemma GroupedReviewed(runs: seq<Run>, mode: Mode, reviews: Reviews)
    requires Reviewed(runs, reviews) && Grouped(runs, mode).Some?
    ensures GroupsReviewed(Grouped(runs, mode).value, reviews)
  {
    EveryRunIsRepresented(runs, mode);
  }

  method GroupRuns(runs: seq<Run>, mode: Mode) returns (r: Option<Groups>)
    ensures r == Grouped(runs, mode)
  {
    var g: Groups := map[];
    for i := 0 to |runs|
      invariant Grouped(runs[..i], mode) == Some(g)
    {
      assert runs[..i + 1][..i] == runs[..i];
      if runs[i].mode == mode {
        if Taken(g, runs[i]) {
          GroupingStuck(runs, mode, i + 1);
          return None;
        }
        g := File(g, runs[i]);
      }
    }
    assert runs[..|runs|] == runs;
    return Some(g);
  }

  lemma {:induction false} GroupingStuck(runs: seq<Run>, mode: Mode, n: nat)
    requires n <= |runs| && Grouped(runs[..n], mode).None?
    ensures Grouped(runs, mode).None?
    decreases |runs|
  {
    if n < |runs| {
      assert runs[..|runs| - 1][..n] == runs[..n];
      GroupingStuck(runs[..|runs| - 1], mode, n);
    } else {
      assert runs[..n] == runs;
    }
  }

  method UpliftForMode(a: Numerics, mode: Mode, runs: seq<Run>, reviews: Reviews) returns (r: Option<Uplift>)
    requires Reviewed(runs, reviews)
    ensures r == UpliftFor(a, mode, runs, reviews)
  {
    hide GroupsReviewed, AllComparable, Matched, Unmatched, Winners;
    var grouped := GroupRuns(runs, mode);
    if grouped.None? { return None; }
    GroupedReviewed(runs, mode, reviews);
    var counts := CountPairs(grouped.value, reviews, mode);
    if counts.None? { return None; }
    var (pairs, unmatched, plain, jstack, difference) := counts.value;
    return Some(UpliftFrom(a, pairs, unmatched, plain, jstack, difference));
  }

  /** Walk the pairs, counting unmatched ones, successes and paired differences. */
  method CountPairs(g: Groups, reviews: Reviews, mode: Mode) returns (r: Option<(nat, nat, nat, nat, int)>)
    requires GroupsReviewed(g, reviews)
    ensures r.None? <==> !AllComparable(g, mode)
    ensures r.Some? ==>
      r.value == (|Matched(g)|, |Unmatched(g)|, |Winners(g, reviews, Plain)|, |Winners(g, reviews, JStack)|,
                  |Winners(g, reviews, JStack)| - |Winners(g, reviews, Plain)|)
  {
    hide Comparable, Wins, Counted, Winners, Matched, Unmatched, Grouped;
    var todo := g.Keys;
    var pairs, unmatched, plain, jstack := 0, 0, 0, 0;
    var difference: int := 0;
    NothingCounted(g, reviews);
    while todo != {}
      invariant todo <= g.Keys
      invariant forall p | p in g && IsMatched(g[p]) && p !in todo :: Comparable(g[p][Plain], g[p][JStack], mode)
      invariant Counted(g, reviews, todo, pairs, unmatched, plain, jstack)
      invariant difference + plain == jstack
    {
      var p := Pick(todo);
      CountStep(g, reviews, todo, p, pairs, unmatched, plain, jstack);
      if !IsMatched(g[p]) {
        unmatched := unmatched + 1;
      } else {
        if !Comparable(g[p][Plain], g[p][JStack], mode) { return None; }
        var plainComplete := Bit(Wins(g, reviews, p, Plain));
        var jstackComplete := Bit(Wins(g, reviews, p, JStack));
        plain, jstack := plain + plainComplete, jstack + jstackComplete;
        difference := difference + jstackComplete - plainComplete;
        pairs := pairs + 1;
      }
      todo := todo - {p};
    }
    AllCounted(g, reviews, todo, pairs, unmatched, plain, jstack);
    return Some((pairs, unmatched, plain, jstack, difference));
  }

  /** The counters cover exactly the pairs no longer pending. */
  ghost predicate Counted(g: Groups, reviews: Reviews, todo: set<string>, pairs: nat, unmatched: nat, plain: nat,
      jstack: nat)
    requires GroupsReviewed(g, reviews)
  {
    && pairs == |Matched(g) - todo| && unmatched == |Unmatched(g) - todo|
    && plain == |Winners(g, reviews, Plain) - todo| && jstack == |Winners(g, reviews, JStack) - todo|
  }

  lemma NothingCounted(g: Groups, reviews: Reviews)
    requires GroupsReviewed(g, reviews)
    ensures Counted(g, reviews, g.Keys, 0, 0, 0, 0)
  {
    assert Matched(g) - g.Keys == {} && Unmatched(g) - g.Keys == {};
    assert Winners(g, reviews, Plain) - g.Keys == {} && Winners(g, reviews, JStack) - g.Keys == {};
  }

  lemma AllCounted(g: Groups, reviews: Reviews, todo: set<string>, pairs: nat, unmatched: nat, plain: nat, jstack: nat)
    requires GroupsReviewed(g, reviews) && todo == {} && Counted(g, reviews, todo, pairs, unmatched, plain, jstack)
    ensures pairs == |Matched(g)| && unmatched == |Unmatched(g)|
    ensures plain == |Winners(g, reviews, Plain)| && jstack == |Winners(g, reviews, JStack)|
  {
    hide Matched, Unmatched, Winners, GroupsReviewed;
    MinusNothing(Matched(g), todo);
    MinusNothing(Unmatched(g), todo);
    MinusNothing(Winners(g, reviews, Plain), todo);
    MinusNothing(Winners(g, reviews, JStack), todo);
  }

  lemma MinusNothing<T>(s: set<T>, todo: set<T>)
    requires todo == {}
    ensures s - todo == s
  {
  }

  lemma CountStep(g: Groups, reviews: Reviews, todo: set<string>, p: string,
                  pairs: nat, unmatched: nat, plain: nat, jstack: nat)
    requires GroupsReviewed(g, reviews) && todo <= g.Keys && p in todo
    requires Counted(g, reviews, todo, pairs, unmatched, plain, jstack)
    ensures !IsMatched(g[p]) ==> Counted(g, reviews, todo - {p}, pairs, unmatched + 1, plain, jstack)
    ensures IsMatched(g[p]) ==>
      Counted(g, reviews, todo - {p}, pairs + 1, unmatched,
              plain + Bit(Wins(g, reviews, p, Plain)), jstack + Bit(Wins(g, reviews, p, JStack)))
  {
    hide Matched, Unmatched, Winners, GroupsReviewed, Wins;
    Membership(g, reviews, p);
    DropSizes(Matched(g), Unmatched(g), Winners(g, reviews, Plain), Winners(g, reviews, JStack), todo, p);
  }

  lemma Membership(g: Groups, reviews: Reviews, p: string)
    requires GroupsReviewed(g, reviews) && p in g
    ensures p in Matched(g) <==> IsMatched(g[p])
    ensures p in Unmatched(g) <==> !IsMatched(g[p])
    ensures p in Winners(g, reviews, Plain) <==> IsMatched(g[p]) && Wins(g, reviews, p, Plain)
    ensures p in Winners(g, reviews, JStack) <==> IsMatched(g[p]) && Wins(g, reviews, p, JStack)
  {
    hide Wins;
  }

  lemma DropSizes<T>(s: set<T>, t: set<T>, u: set<T>, v: set<T>, todo: set<T>, x: T)
    requires x in todo
    ensures |s - (todo - {x})| == |s - todo| + if x in s then 1 else 0
    ensures |t - (todo - {x})| == |t - todo| + if x in t then 1 else 0
    ensures |u - (todo - {x})| == |u - todo| + if x in u then 1 else 0
    ensures |v - (todo - {x})| == |v - todo| + if x in v then 1 else 0
  {
    DropOne(s, todo, x);
    DropOne(t, todo, x);
    DropOne(u, todo, x);
    DropOne(v, todo, x);
  }

  /** Taking one element off the pending set adds it to what has been counted. */
  lemma DropOne<T>(s: set<T>, todo: set<T>, x: T)
    requires x in todo
    ensures s - (todo - {x}) == if x in s then (s - todo) + {x} else s - todo
    ensures |s - (todo - {x})| == |s - todo| + if x in s then 1 else 0
  {
    assert s - (todo - {x}) == if x in s then (s - todo) + {x} else s - todo;
  }

  /** The figures of one mode from its counters, the mean taken from the summed differences. */
  function UpliftFrom(a: Numerics, pairs: nat, unmatched: nat, plain: int, jstack: int, difference: int): (u: Uplift)
    ensures difference == jstack - plain ==> u == UpliftOf(a, pairs, unmatched, plain, jstack)
  {
    var mean := if pairs == 0 then 0.0 else difference as real / pairs as real;
    Uplift(
      pairs, unmatched, RateOf(a, plain, pairs), RateOf(a, jstack, pairs),
      if pairs == 0 then None else Some(Rounding.Micros(mean)),
      if pairs < 2 then None else Some(HoeffdingInterval(a, mean, pairs)))
  }

  lemma WinnersAreMatched(g: Groups, reviews: Reviews, c: Condition)
    requires GroupsReviewed(g, reviews)
    ensures |Winners(g, reviews, c)| <= |Matched(g)|
  {
    SubsetSize(Winners(g, reviews, c), Matched(g));
  }

  lemma SubsetSize<T>(s: set<T>, t: set<T>)
    requires s <= t
    ensures |s| <= |t|
  {
    assert |t - s| == |t| - |s|;
  }
}
