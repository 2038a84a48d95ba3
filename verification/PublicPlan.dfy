/** The execution-plan part of `validate_manifest` (evals/runner/contracts.py), and what it counts to. */
module PublicPlan {
  import opened Wrappers
  import opened Ordering
  import opened RunRecords

  type Slot = (string, Condition, Mode, int)
  type Study = (string, Mode, int)
  type Shape = (Family, TaskKind, string)

  function SlotOf(b: Binding): Slot { (b.taskId, b.condition, b.mode, b.repetition) }
  function StudyOf(b: Binding): Study { (b.taskId, b.mode, b.repetition) }
  function ShapeOf(b: Binding): Shape { (b.family, b.taskKind, b.taskDigest) }

  predicate Matches(b: Binding, evidence: Option<Evidence>) {
    1 <= b.repetition <= 10_000 && evidence == Some(b.evidence)
  }

  /** What every plan must meet. */
  ghost predicate PlanAccepted(m: Manifest) {
    && |m.expectedRuns| <= MAX_RUNS
    && (forall b | b in m.expectedRuns :: Matches(b, m.evidence))
    && Distinct(m.expectedRuns, BindingKey)
    && Distinct(m.expectedRuns, SlotOf)
    && OrderedBy(m.expectedRuns, BindingKey)
    && (m.evidence.None? <==> m.expectedRuns == [])
    && (m.evidence == Some(Public) ==> PublicShape(m.expectedRuns, m.taskFiles))
  }

  ghost function TaskIds(bs: seq<Binding>): set<string> { set b | b in bs :: b.taskId }

  ghost function Repetitions(bs: seq<Binding>, task: string, mode: Mode): set<int> {
    set b | b in bs && b.taskId == task && b.mode == mode :: b.repetition
  }

  /** The integers from 1 to n. */
  function UpTo(n: nat): (r: set<int>)
    ensures forall k :: k in r <==> 1 <= k <= n
    ensures |r| == n
  {
    if n == 0 then {} else UpTo(n - 1) + {n}
  }

  /** Every (task, mode, repetition) present holds one plain and one JStack run of one pair. */
  ghost predicate Paired(bs: seq<Binding>, b: Binding) {
    exists twin :: twin in bs && StudyOf(twin) == StudyOf(b) && twin.condition != b.condition && twin.pairId == b.pairId
  }

  ghost predicate Repeated(bs: seq<Binding>, task: string, mode: Mode) {
    exists n: nat :: n >= 3 && Repetitions(bs, task, mode) == UpTo(n)
  }

  ghost predicate Covers(bs: seq<Binding>, family: Family, kind: TaskKind) {
    exists b :: b in bs && b.family == family && b.taskKind == kind
  }

  ghost predicate PublicShape(bs: seq<Binding>, taskFiles: nat) {
    && (forall a, b | a in bs && b in bs && a.taskId == b.taskId :: ShapeOf(a) == ShapeOf(b))
    && |TaskIds(bs)| == 18
    && (forall family, kind :: Covers(bs, family, kind))
    && taskFiles == 18
    && (forall task, mode | task in TaskIds(bs) :: Repeated(bs, task, mode))
    && (forall b | b in bs :: Paired(bs, b))
  }

  // ------------------------------------------------------------ deciding it

  function Self(x: string): string { x }

  function Ids(bs: seq<Binding>): (ids: seq<string>)
    ensures |ids| == |bs| && forall i | 0 <= i < |bs| :: ids[i] == bs[i].runId
  {
    if bs == [] then [] else [bs[0].runId] + Ids(bs[1..])
  }

  /** Comparing the ids with their sorted list decides whether they are in order. */
  lemma SortedIds(bs: seq<Binding>)
    ensures Ids(bs) == SortBy(Ids(bs), Self) <==> OrderedBy(bs, BindingKey)
  {
    var ids := Ids(bs);
    SortOrders(ids, Self);
    if OrderedBy(bs, BindingKey) {
      assert OrderedBy(ids, Self);
      OrderUnique(ids, SortBy(ids, Self), Self);
    } else {
      var i, j :| 0 <= i < j < |bs| && !AtMost(BindingKey(bs[i]), BindingKey(bs[j]));
      assert !AtMost(Self(ids[i]), Self(ids[j]));
    }
  }

  method ValidatePlan(m: Manifest) returns (ok: bool)
    ensures ok <==> PlanAccepted(m)
  {
    hide PublicShape, Distinct, OrderedBy, SortBy;
    var bs := m.expectedRuns;
    if |bs| > MAX_RUNS { return false; }
    var scanned := ScanRuns(bs, m.evidence);
    if !scanned { return false; }
    SortedIds(bs);
    if Ids(bs) != SortBy(Ids(bs), Self) { return false; }
    if m.evidence.None? != (bs == []) { return false; }
    if m.evidence == Some(Public) {
      ok := CheckPublic(bs, m.taskFiles);
    } else {
      ok := true;
    }
  }

  /** One pass over the runs, with the ids and slots met so far. */
  method ScanRuns(bs: seq<Binding>, evidence: Option<Evidence>) returns (ok: bool)
    ensures ok <==> (forall b | b in bs :: Matches(b, evidence)) && Distinct(bs, BindingKey) && Distinct(bs, SlotOf)
  {
    var seenIds, seenSlots := {}, {};
    for i := 0 to |bs|
      invariant seenIds == set k | 0 <= k < i :: BindingKey(bs[k])
      invariant seenSlots == set k | 0 <= k < i :: SlotOf(bs[k])
      invariant forall k | 0 <= k < i :: Matches(bs[k], evidence)
      invariant Distinct(bs[..i], BindingKey) && Distinct(bs[..i], SlotOf)
    {
      if !Matches(bs[i], evidence) { return false; }
      if BindingKey(bs[i]) in seenIds {
        assert exists k :: 0 <= k < i && BindingKey(bs[k]) == BindingKey(bs[i]);
        return false;
      }
      if SlotOf(bs[i]) in seenSlots {
        assert exists k :: 0 <= k < i && SlotOf(bs[k]) == SlotOf(bs[i]);
        return false;
      }
      seenIds := seenIds + {BindingKey(bs[i])};
      seenSlots := seenSlots + {SlotOf(bs[i])};
    }
    assert bs[..|bs|] == bs;
    return true;
  }

  /** The runs of one study, in plan order. */
  ghost function Group(bs: seq<Binding>, study: Study): (g: seq<Binding>)
    ensures forall b :: b in g <==> b in bs && StudyOf(b) == study
    decreases |bs|
  {
    if bs == [] then []
    else
      var front := bs[..|bs| - 1];
      assert bs == front + [bs[|bs| - 1]];
      Group(front, study) + if StudyOf(bs[|bs| - 1]) == study then [bs[|bs| - 1]] else []
  }

  lemma {:induction false} GroupDistinct(bs: seq<Binding>, study: Study)
    requires Distinct(bs, SlotOf)
    ensures Distinct(Group(bs, study), SlotOf)
    decreases |bs|
  {
    if bs != [] {
      var front, last := bs[..|bs| - 1], bs[|bs| - 1];
      GroupDistinct(front, study);
      forall b | b in Group(front, study)
        ensures SlotOf(b) != SlotOf(last)
      {
        var k :| 0 <= k < |front| && front[k] == b;
        assert bs[k] == b;
      }
    }
  }

  type Studies = map<Study, seq<Binding>>
  type Tasks = map<string, Shape>

  ghost predicate TasksOf(bs: seq<Binding>, tasks: Tasks) {
    && tasks.Keys == TaskIds(bs)
    && forall b | b in bs :: tasks[b.taskId] == ShapeOf(b)
  }

  ghost predicate StudiesOf(bs: seq<Binding>, studies: Studies) {
    && (forall b | b in bs :: StudyOf(b) in studies)
    && (forall s | s in studies :: studies[s] == Group(bs, s) && studies[s] != [])
  }

  /** Group the runs by study and record each task's shape; refuse a task with two shapes. */
  method GroupRuns(bs: seq<Binding>) returns (r: Option<(Tasks, Studies)>)
    ensures r.None? <==> !forall a, b | a in bs && b in bs && a.taskId == b.taskId :: ShapeOf(a) == ShapeOf(b)
    ensures r.Some? ==> TasksOf(bs, r.value.0) && StudiesOf(bs, r.value.1)
  {
    var tasks: Tasks, studies: Studies := map[], map[];
    for i := 0 to |bs|
      invariant TasksOf(bs[..i], tasks) && StudiesOf(bs[..i], studies)
    {
      hide TasksOf, StudiesOf;
      var b := bs[i];
      assert bs[..i + 1] == bs[..i] + [b];
      if b.taskId in tasks && tasks[b.taskId] != ShapeOf(b) {
        ShapeClash(bs, i, tasks);
        return None;
      }
      TasksGrow(bs[..i], b, tasks);
      StudiesGrow(bs[..i], b, studies);
      tasks := tasks[b.taskId := ShapeOf(b)];
      studies := studies[StudyOf(b) := (if StudyOf(b) in studies then studies[StudyOf(b)] else []) + [b]];
    }
    assert bs[..|bs|] == bs;
    return Some((tasks, studies));
  }

  lemma ShapeClash(bs: seq<Binding>, i: nat, tasks: Tasks)
    requires i < |bs| && TasksOf(bs[..i], tasks) && bs[i].taskId in tasks && tasks[bs[i].taskId] != ShapeOf(bs[i])
    ensures exists a, b :: a in bs && b in bs && a.taskId == b.taskId && ShapeOf(a) != ShapeOf(b)
  {
    var b :| b in bs[..i] && b.taskId == bs[i].taskId;
    assert b in bs && bs[i] in bs && ShapeOf(b) != ShapeOf(bs[i]);
  }

  lemma TasksGrow(bs: seq<Binding>, b: Binding, tasks: Tasks)
    requires TasksOf(bs, tasks) && (b.taskId in tasks ==> tasks[b.taskId] == ShapeOf(b))
    ensures TasksOf(bs + [b], tasks[b.taskId := ShapeOf(b)])
  {
  }

  lemma EmptyGroup(bs: seq<Binding>, study: Study)
    requires forall b | b in bs :: StudyOf(b) != study
    ensures Group(bs, study) == []
  {
    var g := Group(bs, study);
    assert forall i | 0 <= i < |g| :: g[i] in g;
  }

  lemma StudiesGrow(bs: seq<Binding>, b: Binding, studies: Studies)
    requires StudiesOf(bs, studies)
    ensures var filed := if StudyOf(b) in studies then studies[StudyOf(b)] else [];
      StudiesOf(bs + [b], studies[StudyOf(b) := filed + [b]])
  {
    var more := bs + [b];
    assert more[..|more| - 1] == bs;
    if StudyOf(b) !in studies { EmptyGroup(bs, StudyOf(b)); }
  }

  /** A group is a pair: both conditions, nothing else, one pair id. */
  predicate IsPair(g: seq<Binding>) {
    && |g| == 2
    && {g[0].condition, g[1].condition} == {Plain, JStack}
    && g[0].pairId == g[1].pairId
  }

  lemma PairOfTwins(bs: seq<Binding>, study: Study)
    requires Distinct(bs, SlotOf) && Group(bs, study) != []
    ensures IsPair(Group(bs, study)) <==> AllPaired(bs, study)
  {
    if IsPair(Group(bs, study)) { PairGivesTwins(bs, study); }
    if AllPaired(bs, study) { TwinsGivePair(bs, study); }
  }

  ghost predicate AllPaired(bs: seq<Binding>, study: Study) {
    forall b | b in bs && StudyOf(b) == study :: Paired(bs, b)
  }

  lemma PairGivesTwins(bs: seq<Binding>, study: Study)
    requires IsPair(Group(bs, study))
    ensures AllPaired(bs, study)
  {
    var g := Group(bs, study);
    assert g[0].condition != g[1].condition by { assert Plain in {g[0].condition, g[1].condition}; }
    assert g[0] in g && g[1] in g;
    forall b | b in bs && StudyOf(b) == study
      ensures Paired(bs, b)
    {
      assert b in g;
      var twin := if b == g[0] then g[1] else g[0];
      assert twin in bs && StudyOf(twin) == StudyOf(b) && twin.condition != b.condition && twin.pairId == b.pairId;
    }
  }

  lemma TwinsGivePair(bs: seq<Binding>, study: Study)
    requires Distinct(bs, SlotOf) && Group(bs, study) != [] && AllPaired(bs, study)
    ensures IsPair(Group(bs, study))
  {
    hide Distinct, Paired;
    var g := Group(bs, study);
    GroupDistinct(bs, study);
    AtMostTwo(g, study);
    var b := g[0];
    assert b in g;
    var twin := Twin(bs, b);
    TwoElements(g, b, twin);
  }

  lemma TwoElements(g: seq<Binding>, b: Binding, twin: Binding)
    requires 0 < |g| <= 2 && g[0] == b && twin in g
    requires twin.condition != b.condition && twin.pairId == b.pairId
    ensures IsPair(g)
  {
    assert |g| == 2 && g[1] == twin;
  }

  lemma AtMostTwo(g: seq<Binding>, study: Study)
    requires Distinct(g, SlotOf) && forall b | b in g :: StudyOf(b) == study
    ensures |g| <= 2
  {
    if |g| > 2 {
      var x, y, z := g[0], g[1], g[2];
      assert x in g && y in g && z in g;
      TwoConditions(x, y, z);
    }
  }

  lemma TwoConditions(x: Binding, y: Binding, z: Binding)
    requires StudyOf(x) == StudyOf(y) == StudyOf(z)
    ensures SlotOf(x) == SlotOf(y) || SlotOf(y) == SlotOf(z) || SlotOf(x) == SlotOf(z)
  {
    assert x.condition == y.condition || y.condition == z.condition || x.condition == z.condition;
  }

  /** Every study of this task and mode is a pair, and its repetitions run from 1 to at least 3. */
  method CheckStudies(studies: Studies, ghost bs: seq<Binding>, task: string, mode: Mode) returns (ok: bool)
    requires StudiesOf(bs, studies) && Distinct(bs, SlotOf)
    ensures ok <==> StudyAccepted(bs, task, mode)
  {
    hide StudiesOf, Distinct, AllPaired, Repetitions, Repeated, Group;
    var repetitions := set s | s in studies && s.0 == task && s.1 == mode :: s.2;
    RepetitionsOf(studies, bs, task, mode, repetitions);
    if repetitions == {} { NeverRepeated(bs, task, mode); return false; }
    var top := Greatest(repetitions);
    RepeatedTo(bs, task, mode, top);
    if top < 0 || repetitions != UpTo(top) || |repetitions| < 3 { return false; }
    var todo := repetitions;
    while todo != {}
      invariant todo <= repetitions
      invariant forall k | k in repetitions && k !in todo :: AllPaired(bs, (task, mode, k))
    {
      var k := Pick(todo);
      assert (task, mode, k) in studies;
      var paired := CheckPair(studies, bs, (task, mode, k));
      if !paired { return false; }
      todo := todo - {k};
    }
    return true;
  }

  method CheckPair(studies: Studies, ghost bs: seq<Binding>, study: Study) returns (ok: bool)
    requires StudiesOf(bs, studies) && Distinct(bs, SlotOf) && study in studies
    ensures ok <==> AllPaired(bs, study)
  {
    PairOfTwins(bs, study);
    return IsPair(studies[study]);
  }

  lemma RepetitionsOf(studies: Studies, bs: seq<Binding>, task: string, mode: Mode, repetitions: set<int>)
    requires StudiesOf(bs, studies) && repetitions == set s | s in studies && s.0 == task && s.1 == mode :: s.2
    ensures repetitions == Repetitions(bs, task, mode)
    ensures forall k | k in repetitions :: (task, mode, k) in studies
  {
    forall k
      ensures k in repetitions <==> k in Repetitions(bs, task, mode)
    {
      if k in repetitions {
        var s :| s in studies && s.0 == task && s.1 == mode && s.2 == k;
        assert studies[s][0] in Group(bs, s);
      }
      if k in Repetitions(bs, task, mode) {
        var b :| b in bs && b.taskId == task && b.mode == mode && b.repetition == k;
        assert StudyOf(b) in studies;
      }
    }
  }

  method Greatest(s: set<int>) returns (top: int)
    requires s != {}
    ensures top in s && forall k | k in s :: k <= top
  {
    top := Pick(s);
    var todo := s - {top};
    while todo != {}
      invariant todo <= s && top in s
      invariant forall k | k in s && k !in todo :: k <= top
    {
      var k := Pick(todo);
      if k > top { top := k; }
      todo := todo - {k};
    }
  }

  lemma NeverRepeated(bs: seq<Binding>, task: string, mode: Mode)
    requires Repetitions(bs, task, mode) == {}
    ensures !Repeated(bs, task, mode)
  {
    forall n: nat | n >= 3
      ensures UpTo(n) != {}
    {
      assert n in UpTo(n);
    }
  }

  lemma RepeatedTo(bs: seq<Binding>, task: string, mode: Mode, top: int)
    requires var r := Repetitions(bs, task, mode); top in r && forall k | k in r :: k <= top
    ensures Repeated(bs, task, mode) <==>
      top >= 0 && Repetitions(bs, task, mode) == UpTo(top) && |Repetitions(bs, task, mode)| >= 3
  {
    forall n: nat | n >= 3 && Repetitions(bs, task, mode) == UpTo(n)
      ensures n == top
    {
      assert n in UpTo(n);
    }
  }

  method CheckPublic(bs: seq<Binding>, taskFiles: nat) returns (ok: bool)
    requires Distinct(bs, SlotOf)
    ensures ok <==> PublicShape(bs, taskFiles)
  {
    hide Distinct, StudiesOf, Repeated, Paired, Covers, BothAccepted;
    var grouped := GroupRuns(bs);
    if grouped.None? { return false; }
    var tasks, studies := grouped.value.0, grouped.value.1;
    var shapes := set t | t in tasks :: (tasks[t].0, tasks[t].1);
    var required := set family: Family, kind: TaskKind | true :: (family, kind);
    assert forall family, kind :: (family, kind) in required;
    ShapesCover(bs, tasks, shapes, required);
    if |tasks| != 18 || shapes != required { return false; }
    if taskFiles != |tasks| { return false; }
    ok := CheckTasks(studies, bs, tasks.Keys);
    StudiesDecide(bs);
  }

  method CheckTasks(studies: Studies, ghost bs: seq<Binding>, tasks: set<string>) returns (ok: bool)
    requires StudiesOf(bs, studies) && Distinct(bs, SlotOf)
    ensures ok <==> forall t | t in tasks :: BothAccepted(bs, t)
  {
    hide StudiesOf, Distinct, StudyAccepted;
    var todo := tasks;
    while todo != {}
      invariant todo <= tasks
      invariant forall t | t in tasks && t !in todo :: BothAccepted(bs, t)
    {
      var t := Pick(todo);
      var controlled := CheckStudies(studies, bs, t, Controlled);
      if !controlled { return false; }
      var operational := CheckStudies(studies, bs, t, Operational);
      if !operational { return false; }
      todo := todo - {t};
    }
    return true;
  }

  ghost predicate StudyAccepted(bs: seq<Binding>, task: string, mode: Mode) {
    Repeated(bs, task, mode) && forall k | k in Repetitions(bs, task, mode) :: AllPaired(bs, (task, mode, k))
  }

  ghost predicate BothAccepted(bs: seq<Binding>, task: string) {
    StudyAccepted(bs, task, Controlled) && StudyAccepted(bs, task, Operational)
  }

  lemma StudiesDecide(bs: seq<Binding>)
    ensures (forall t | t in TaskIds(bs) :: BothAccepted(bs, t)) <==>
      (forall t, mode | t in TaskIds(bs) :: Repeated(bs, t, mode)) && (forall b | b in bs :: Paired(bs, b))
  {
    hide Repeated, Paired;
    if forall t | t in TaskIds(bs) :: BothAccepted(bs, t) {
      forall t, mode | t in TaskIds(bs)
        ensures Repeated(bs, t, mode)
      {
        assert BothAccepted(bs, t);
        assert mode == Controlled || mode == Operational;
      }
      forall b | b in bs
        ensures Paired(bs, b)
      {
        assert b.taskId in TaskIds(bs) && BothAccepted(bs, b.taskId);
        assert b.mode == Controlled || b.mode == Operational;
        assert b.repetition in Repetitions(bs, b.taskId, b.mode);
      }
    }
  }

  lemma ShapesCover(bs: seq<Binding>, tasks: Tasks, shapes: set<(Family, TaskKind)>, required: set<(Family, TaskKind)>)
    requires TasksOf(bs, tasks)
    requires shapes == set t | t in tasks :: (tasks[t].0, tasks[t].1)
    requires forall family, kind :: (family, kind) in required
    ensures shapes == required <==> forall family, kind :: Covers(bs, family, kind)
  {
    forall family, kind
      ensures (family, kind) in shapes <==> Covers(bs, family, kind)
    {
      if (family, kind) in shapes {
        var t :| t in tasks && tasks[t].0 == family && tasks[t].1 == kind;
        var b :| b in bs && b.taskId == t;
        assert b.family == family && b.taskKind == kind;
      }
      if Covers(bs, family, kind) {
        var b :| b in bs && b.family == family && b.taskKind == kind;
        assert b.taskId in tasks;
      }
    }
    if forall family, kind :: Covers(bs, family, kind) {
      forall p: (Family, TaskKind)
        ensures p in shapes && p in required
      {
        assert p == (p.0, p.1) && Covers(bs, p.0, p.1);
      }
    }
    if shapes == required {
      forall family, kind
        ensures Covers(bs, family, kind)
      {
        assert (family, kind) in shapes;
      }
    }
  }

  // ----------------------------------------------------------------- counting

  /** Exactly one expected run fills this slot. */
  ghost predicate FilledOnce(bs: seq<Binding>, slot: Slot) {
    exists i :: 0 <= i < |bs| && SlotOf(bs[i]) == slot && forall k | 0 <= k < |bs| && SlotOf(bs[k]) == slot :: k == i
  }

  /** The slots of one task over the first three repetitions. */
  function ThreeRepetitions(task: string): (r: set<Slot>)
    ensures |r| == 12
    ensures forall slot | slot in r :: slot.0 == task && 1 <= slot.3 <= 3
  {
    {(task, Plain, Controlled, 1), (task, Plain, Controlled, 2), (task, Plain, Controlled, 3),
     (task, JStack, Controlled, 1), (task, JStack, Controlled, 2), (task, JStack, Controlled, 3),
     (task, Plain, Operational, 1), (task, Plain, Operational, 2), (task, Plain, Operational, 3),
     (task, JStack, Operational, 1), (task, JStack, Operational, 2), (task, JStack, Operational, 3)}
  }

  /** An accepted public plan holds exactly one plain and one JStack run for every
      task, mode and repetition, repetitions running from 1 to at least 3. */
  lemma PublicPlanIsComplete(m: Manifest, task: string, mode: Mode) returns (n: nat)
    requires PlanAccepted(m) && m.evidence == Some(Public) && task in TaskIds(m.expectedRuns)
    ensures n >= 3
    ensures forall k, condition :: 1 <= k <= n ==> FilledOnce(m.expectedRuns, (task, condition, mode, k))
    ensures forall b | b in m.expectedRuns && b.taskId == task && b.mode == mode :: 1 <= b.repetition <= n
  {
    hide Distinct, Paired, Covers, OrderedBy;
    var bs := m.expectedRuns;
    assert Repeated(bs, task, mode);
    n :| n >= 3 && Repetitions(bs, task, mode) == UpTo(n);
    forall k, condition | 1 <= k <= n
      ensures FilledOnce(bs, (task, condition, mode, k))
    {
      assert k in Repetitions(bs, task, mode);
      RepetitionFilled(bs, task, mode, k, condition);
    }
    forall b | b in bs && b.taskId == task && b.mode == mode
      ensures 1 <= b.repetition <= n
    {
      assert b.repetition in Repetitions(bs, task, mode);
    }
  }

  lemma RepetitionFilled(bs: seq<Binding>, task: string, mode: Mode, k: int, condition: Condition)
    requires Distinct(bs, SlotOf) && (forall b | b in bs :: Paired(bs, b)) && k in Repetitions(bs, task, mode)
    ensures FilledOnce(bs, (task, condition, mode, k))
  {
    hide Paired, Distinct;
    var b :| b in bs && b.taskId == task && b.mode == mode && b.repetition == k;
    var twin := Twin(bs, b);
    SlotFilled(bs, if b.condition == condition then b else twin);
  }

  lemma Twin(bs: seq<Binding>, b: Binding) returns (twin: Binding)
    requires Paired(bs, b)
    ensures twin in bs && StudyOf(twin) == StudyOf(b) && twin.condition != b.condition && twin.pairId == b.pairId
  {
    twin :| twin in bs && StudyOf(twin) == StudyOf(b) && twin.condition != b.condition && twin.pairId == b.pairId;
  }

  lemma SlotFilled(bs: seq<Binding>, b: Binding)
    requires Distinct(bs, SlotOf) && b in bs
    ensures FilledOnce(bs, SlotOf(b))
  {
    var i :| 0 <= i < |bs| && bs[i] == b;
    assert SlotOf(bs[i]) == SlotOf(b);
  }

  /** Hence at least 216 runs for the 18 family and task-kind slots. */
  lemma PublicPlanHasAtLeast216Runs(m: Manifest)
    requires PlanAccepted(m) && m.evidence == Some(Public)
    ensures |m.expectedRuns| >= 216
  {
    var bs := m.expectedRuns;
    hide ThreeRepetitions, Repeated, Paired, Distinct, Covers;
    var filled := SlotSet(bs);
    forall task, slot | task in TaskIds(bs) && slot in ThreeRepetitions(task)
      ensures slot in filled
    {
      var n := PublicPlanIsComplete(m, task, slot.2);
      assert FilledOnce(bs, (task, slot.1, slot.2, slot.3));
    }
    TwelvePerTask(TaskIds(bs), filled);
    SlotSetSize(bs);
  }

  ghost function SlotSet(bs: seq<Binding>): set<Slot> { set i | 0 <= i < |bs| :: SlotOf(bs[i]) }

  lemma {:induction false} SlotSetSize(bs: seq<Binding>)
    ensures |SlotSet(bs)| <= |bs|
    decreases |bs|
  {
    if bs != [] {
      var front := bs[..|bs| - 1];
      SlotSetSize(front);
      assert SlotSet(bs) == SlotSet(front) + {SlotOf(bs[|bs| - 1])};
    }
  }

  lemma {:induction false} TwelvePerTask(tasks: set<string>, filled: set<Slot>)
    requires forall task, slot | task in tasks && slot in ThreeRepetitions(task) :: slot in filled
    ensures |filled| >= 12 * |tasks|
    decreases |tasks|
  {
    hide ThreeRepetitions;
    if tasks != {} {
      var task :| task in tasks;
      var mine := ThreeRepetitions(task);
      forall other, slot | other in tasks - {task} && slot in ThreeRepetitions(other)
        ensures slot in filled - mine
      {
      }
      TwelvePerTask(tasks - {task}, filled - mine);
      assert mine <= filled;
      assert |filled - mine| == |filled| - |mine|;
    }
  }
}
