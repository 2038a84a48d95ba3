/** One whole installation (scripts/install.py): archive, activate every target, commit or roll back. */
module InstallDriver {
  import opened Wrappers
  import opened InstallFiles
  import opened InstallCas
  import opened InstallRollback

  /** What to install at a target. */
  datatype Mutation = Mutation(target: Path, payload: string, tree: bool, preserveOnDrift: bool)

  datatype Outcome =
    | Committed
    | Questioned    // installed, but a retained original was not found as it was
    | Unfinished    // installed, but stopped while committing
    | RolledBack    // stopped, and undone as far as rollback goes
    | Abandoned     // interrupted while rolling back

  /** Where an installation was stopped: nowhere; before or between mutations; while one
      was under way; or in one of the gaps its journal has, between an archive move and
      its entry, between the end of a pending entry and the mark of a replaced target, or
      between that mark and the name of the retained original. */
  datatype Stop =
    | Nowhere
    | Between
    | Within(m: Mutation)
    | Unjournaled(source: Path, archive: Path)
    | Unmarked(m: Mutation)
    | Unlocated(m: Mutation)

  /** A failing step that makes rollback leave the target alone: any step of the target's
      own activation if it is a tree, and if it is a prompt those the activation reports
      as a detected change. */
  predicate Lost(m: Mutation, step: Step) {
    step.owner == Some(m.target) && m.preserveOnDrift && (m.tree || Detects(step, m.target))
  }

  /** Where the interrupt fell and which step failed, if any: rollback undoes everything
      except after an interrupt in a gap of the journal or a step lost to its mutation. */
  predicate Recoverable(struck: Option<Point>, failed: Option<Step>, mutations: seq<Mutation>) {
    && (struck.Some? ==> !struck.value.Gap())
    && (failed.Some? ==> forall m | m in mutations :: !Lost(m, failed.value))
  }

  /** The stops that rollback undoes. */
  predicate Undone(stop: Stop, failed: Option<Step>) {
    match stop
    case Between => true
    case Within(m) => !(failed.Some? && Lost(m, failed.value))
    case _ => false
  }

  /** The interrupt points that end in this stop. */
  predicate EndsIn(point: Point, stop: Stop) {
    match stop
    case Unjournaled(source, archive) => point == Entering(source, archive)
    case Unmarked(m) => point == Noting(m.target, 2, true)
    case Unlocated(m) => point == Noting(m.target, 3, true)
    case _ => !point.Gap()
  }

  /** The stop is the one of the interrupt that fell, if one did. */
  predicate StruckAt(before: Interrupts, now: Interrupts, stop: Stop) {
    if now == before then stop.Nowhere? || stop.Between? || stop.Within?
    else now.left < before.left && now.struck.Some? && EndsIn(now.struck.value, stop)
  }

  lemma StruckNowhere(a: Interrupts)
    ensures StruckAt(a, a, Between) && StruckAt(a, a, Nowhere) && NoGap(a, a)
  {
  }

  lemma StruckLater(a: Interrupts, b: Interrupts, c: Interrupts, stop: Stop)
    requires NoGap(a, b) && StruckAt(b, c, stop)
    ensures StruckAt(a, c, stop) && (stop == Nowhere ==> NoGap(a, c))
    ensures StruckAt(a, b, Between)
  {
  }

  /** A failing step stops the activation it belongs to, and any other comes between. */
  predicate FailedAt(failed: Option<Step>, stop: Stop) {
    failed.Some? ==>
      match stop
      case Between => failed.value.owner == None
      case Within(m) => failed.value.owner == Some(m.target)
      case _ => true
  }

  /** `origin`, with one target as it is now. */
  function Shifted(origin: Files, t: Path, f: Files): Files { if t in f then origin[t := f[t]] else origin - {t} }

  /** The mutation is in place, by an object of its own. */
  predicate Replaced(m: Mutation, origin: Files, f: Files) {
    m.target in f && f[m.target].payload == m.payload && At(f, m.target) != At(origin, m.target)
  }

  /** Rollback will report just this target, if any. */
  ghost predicate OnlyBlocked(l: Log, blocked: Option<Path>) {
    forall t | t in l.snapshots :: Blocked(l, t) <==> blocked == Some(t)
  }

  /** A snapshotted target that has not been touched yet. */
  ghost predicate Waits(l: Log, t: Path) {
    && t in l.snapshots && t !in l.mutated && t !in l.pending
    && t in l.originals && t in l.expectations && l.originals[t] == l.expectations[t]
  }

  /** What the journal says of the files at each stop. */
  ghost predicate Stopped(l: Log, origin: Files, f: Files, failed: Option<Step>, stop: Stop) {
    FailedAt(failed, stop) && Journals(l, origin, f, failed, stop)
  }

  ghost predicate Journals(l: Log, origin: Files, f: Files, failed: Option<Step>, stop: Stop) {
    match stop
    case Nowhere => false
    case Between => Journaled(l, origin, f) && OnlyBlocked(l, None)
    case Within(m) =>
      if Undone(stop, failed) then Journaled(l, origin, f) && OnlyBlocked(l, None)
      else
        && m.target in l.snapshots && m.target.Public?
        && Journaled(l, Shifted(origin, m.target, f), f) && OnlyBlocked(l, Some(m.target))
        && (At(f, m.target) == At(origin, m.target) || Replaced(m, origin, f))
    case Unjournaled(source, archive) =>
      && source in origin && source.Public? && source != archive
      && Journaled(l, Moved(origin, source, archive), f) && OnlyBlocked(l, None)
    case Unmarked(m) =>
      && m.target.Public? && Replaced(m, origin, f)
      && Journaled(l, Shifted(origin, m.target, f), f) && OnlyBlocked(l, None)
    case Unlocated(m) =>
      && m.target in l.snapshots && m.target.Public? && Replaced(m, origin, f)
      && Journaled(l, Shifted(origin, m.target, f), f) && OnlyBlocked(l, Some(m.target))
  }

  /** What rollback leaves at the public names after each stop, and reports. */
  ghost predicate Leaves(stop: Stop, failed: Option<Step>, origin: Files, f: Files, errors: seq<Report>) {
    match stop
    case Nowhere => false
    case Between => PubliclyEqual(f, origin) && errors == []
    case Within(m) =>
      if Undone(stop, failed) then PubliclyEqual(f, origin) && errors == []
      else
        && EqualBut(f, origin, m.target) && errors == [Kept(m.target)]
        && (At(f, m.target) == At(origin, m.target) || Replaced(m, origin, f))
    case Unjournaled(source, archive) =>
      && source in origin && source.Public? && source != archive
      && PubliclyEqual(f, Moved(origin, source, archive)) && errors == []
    case Unmarked(m) =>
      m.target.Public? && Replaced(m, origin, f) && EqualBut(f, origin, m.target) && errors == []
    case Unlocated(m) =>
      m.target.Public? && Replaced(m, origin, f) && EqualBut(f, origin, m.target) && errors == [Kept(m.target)]
  }

  ghost predicate EqualBut(f: Files, g: Files, t: Path) {
    forall p: Path | p.Public? && p != t :: At(f, p) == At(g, p)
  }

  /** Every public name is back and nothing is reported exactly when the interrupt fell
      outside the gaps of the journal and the failing step is not lost to its mutation. */
  lemma ExactlyUndone(stop: Stop, before: Interrupts, now: Interrupts, failed: Option<Step>,
      mutations: seq<Mutation>, origin: Files, f: Files, errors: seq<Report>)
    requires before.struck == None && StruckAt(before, now, stop) && FailedAt(failed, stop)
    requires TargetsDistinct(mutations) && (stop.Within? ==> stop.m in mutations)
    requires Leaves(stop, failed, origin, f, errors)
    ensures PubliclyEqual(f, origin) && errors == [] <==> Recoverable(now.struck, failed, mutations)
  {
    UndoneIsRecoverable(stop, before, now, failed, mutations);
    match stop
    case Unjournaled(source, archive) =>
      assert At(f, source) == At(Moved(origin, source, archive), source) != At(origin, source);
    case Unmarked(m) => assert At(f, m.target) != At(origin, m.target);
    case _ =>
  }

  lemma UndoneIsRecoverable(stop: Stop, before: Interrupts, now: Interrupts, failed: Option<Step>,
      mutations: seq<Mutation>)
    requires before.struck == None && StruckAt(before, now, stop) && FailedAt(failed, stop) && !stop.Nowhere?
    requires TargetsDistinct(mutations) && (stop.Within? ==> stop.m in mutations)
    ensures Undone(stop, failed) <==> Recoverable(now.struck, failed, mutations)
  {
    if stop.Within? && failed.Some? {
      forall m | m in mutations && Lost(m, failed.value)
        ensures m == stop.m
      {
        var i, k :| 0 <= i < |mutations| && 0 <= k < |mutations| && mutations[i] == m && mutations[k] == stop.m;
      }
    }
  }

  /** What a rollback that put everything back to its journal leaves. */
  lemma RolledBackLeaves(l: Log, origin: Files, f: Files, failed: Option<Step>, stop: Stop, g: Files)
    requires Stopped(l, origin, f, failed, stop) && PubliclyEqual(g, TrueTo(stop, failed, origin, f))
    ensures Leaves(stop, failed, origin, g, Reports(l, 0))
  {
    hide Journaled, Blocked;
    JournalUnique(l, stop, origin, f, failed);
    var blocked: Option<Path> :=
      if stop.Unlocated? || (stop.Within? && !Undone(stop, failed)) then Some(stop.m.target) else None;
    ReportsOf(l, 0, blocked);
    assert l.snapshots[0..] == l.snapshots;
    if stop.Unmarked? || stop.Unlocated? || (stop.Within? && !Undone(stop, failed)) {
      var t, h := stop.m.target, Shifted(origin, stop.m.target, f);
      assert At(h, t) == At(f, t) == At(g, t);
      forall p: Path | p.Public? && p != t
        ensures At(g, p) == At(origin, p)
      {
        assert At(h, p) == At(origin, p);
      }
    }
  }

  lemma JournalUnique(l: Log, stop: Stop, origin: Files, f: Files, failed: Option<Step>)
    requires Stopped(l, origin, f, failed, stop)
    ensures Unique(l.snapshots)
  {
  }

  /** The origin the journal at a stop is true to. */
  ghost function TrueTo(stop: Stop, failed: Option<Step>, origin: Files, f: Files): Files {
    match stop
    case Unjournaled(source, archive) => if source in origin then Moved(origin, source, archive) else origin
    case Unmarked(m) => Shifted(origin, m.target, f)
    case Unlocated(m) => Shifted(origin, m.target, f)
    case Within(m) => if Undone(stop, failed) then origin else Shifted(origin, m.target, f)
    case _ => origin
  }

  lemma AnnouncedParts(l: Log, t: Path, payload: string)
    requires t in l.originals
    ensures var l' := Announced(l, t, payload);
      && l'.snapshots == l.snapshots && l'.archives == l.archives && l'.originals == l.originals
      && l'.mutated == l.mutated && l'.preserve == l.preserve
      && t in l'.pending && l'.pending[t] == Pending(l.originals[t], Retained(l.retainedCount), payload)
  {
  }

  /** The pending mutation joins the journal before it starts. */
  function Announced(l: Log, t: Path, payload: string): Log
    requires t in l.originals
  {
    l.(pending := l.pending[t := Pending(l.originals[t], Retained(l.retainedCount), payload)],
       retainedCount := l.retainedCount + 1)
  }

  /** Nothing but this target, its retained name and private scratch names changed. */
  ghost predicate OnlyAt(f: Files, g: Files, t: Path, retained: Path) {
    forall p: Path | p != t && p != retained && !p.Beside? :: At(g, p) == At(f, p)
  }

  /** An announced mutation, wherever it stopped, is a true journal entry. */
  lemma AnnouncedIsJournaled(l: Log, origin: Files, f: Files, t: Path, payload: string, g: Files)
    requires Journaled(l, origin, f) && OnlyBlocked(l, None) && Waits(l, t)
    requires OnlyAt(f, g, t, Retained(l.retainedCount))
    requires var p := Pending(l.originals[t], Retained(l.retainedCount), payload);
      LooksActivated(g, t, p) || LooksUntouched(g, t, p)
    ensures Journaled(Announced(l, t, payload), origin, g) && OnlyBlocked(Announced(l, t, payload), None)
  {
    hide ArchiveJournaled, TargetJournaled, Apart, LooksActivated, LooksUntouched, Fresh, RetainedApart, OnlyBlocked;
    var l' := Announced(l, t, payload);
    SnapshotUntouched(l, origin, f, t);
    NoneBlocked(l, t);
    AnnouncedNames(l, f, t, payload, g);
    AnnouncedBlocksNothing(l, t, payload);
    forall u | u in l'.snapshots
      ensures TargetJournaled(l', origin, g, u)
    {
      assert TargetJournaled(l, origin, f, u);
      if u == t {
        AnnouncedTarget(l, origin, f, t, payload, g);
      } else {
        AnnouncedOther(l, origin, f, t, payload, g, u);
      }
    }
    forall a | a in l'.archives
      ensures ArchiveJournaled(l', origin, g, a)
    {
      AnnouncedArchive(l, l', origin, f, g, a, t);
    }
    assert forall p :: IsArchiveName(l', p) == IsArchiveName(l, p);
  }

  lemma NoneBlocked(l: Log, t: Path)
    requires OnlyBlocked(l, None) && t in l.snapshots
    ensures !Blocked(l, t)
  {
  }

  lemma AnnouncedBlocksNothing(l: Log, t: Path, payload: string)
    requires OnlyBlocked(l, None) && t in l.originals
    ensures OnlyBlocked(Announced(l, t, payload), None)
  {
    var l' := Announced(l, t, payload);
    forall u | u in l'.snapshots
      ensures !Blocked(l', u)
    {
      assert !Blocked(l, u);
    }
  }

  lemma AnnouncedTarget(l: Log, origin: Files, f: Files, t: Path, payload: string, g: Files)
    requires TargetJournaled(l, origin, f, t) && Waits(l, t) && !Blocked(l, t)
    requires var p := Pending(l.originals[t], Retained(l.retainedCount), payload);
      LooksActivated(g, t, p) || LooksUntouched(g, t, p)
    ensures TargetJournaled(Announced(l, t, payload), origin, g, t)
  {
  }

  lemma AnnouncedOther(l: Log, origin: Files, f: Files, t: Path, payload: string, g: Files, u: Path)
    requires TargetJournaled(l, origin, f, u) && u != t && t in l.originals && t.Public? && Fresh(l, f)
    requires RetainedApart(l) && OnlyAt(f, g, t, Retained(l.retainedCount))
    ensures TargetJournaled(Announced(l, t, payload), origin, g, u)
  {
    assert u.Public? ==> At(g, u) == At(f, u);
    if u in l.pending && u !in l.preserve {
      assert At(g, l.pending[u].retained) == At(f, l.pending[u].retained);
    } else if u in l.mutated && u in l.preimages {
      assert At(g, l.preimages[u]) == At(f, l.preimages[u]);
    }
  }

  lemma AnnouncedArchive(l: Log, l': Log, origin: Files, f: Files, g: Files, a: Archived, t: Path)
    requires ArchiveJournaled(l, origin, f, a) && l'.snapshots == l.snapshots && t in l.snapshots
    requires OnlyAt(f, g, t, Retained(l.retainedCount))
    ensures ArchiveJournaled(l', origin, g, a)
  {
    assert At(g, a.source) == At(f, a.source) && At(g, a.archive) == At(f, a.archive);
  }

  lemma AnnouncedNames(l: Log, f: Files, t: Path, payload: string, g: Files)
    requires RetainedApart(l) && Fresh(l, f) && t in l.originals && t !in l.pending
    requires t.Public? && OnlyAt(f, g, t, Retained(l.retainedCount))
    ensures RetainedApart(Announced(l, t, payload)) && Fresh(Announced(l, t, payload), g)
  {
    var l' := Announced(l, t, payload);
    forall k: nat
      ensures (k >= l'.stageCount ==> Stage(k) !in g) && (k >= l'.retainedCount ==> Retained(k) !in g)
    {
      assert At(g, Stage(k)) == At(f, Stage(k));
      if k >= l'.retainedCount { assert At(g, Retained(k)) == At(f, Retained(k)); }
    }
  }

  /** The journal of a target that was snapshotted and nothing else. */
  lemma SnapshotUntouched(l: Log, origin: Files, f: Files, t: Path)
    requires Journaled(l, origin, f) && OnlyBlocked(l, None) && Waits(l, t)
    ensures t.Public? && t in l.snapshots && t !in l.pending && At(f, t) == l.originals[t] == At(origin, t)
    ensures Retained(l.retainedCount) !in f
  {
    assert TargetJournaled(l, origin, f, t);
  }

  /** Every ending of the activation is one the reconciler recognises. */
  lemma EndingIsRecognised(f: Files, g: Files, n: Names, expected: Option<Obj>, r: Result<Option<Obj>, Raised>,
      payload: string)
    requires n.Distinct() && n.staged in f && f[n.staged].payload == payload && n.displaced !in f && n.retained !in f
    requires At(f, n.target) == expected && Ends(f, g, n, expected, r) && Identified(f)
    ensures var p := Pending(expected, n.retained, payload);
      && (LooksActivated(g, n.target, p) || LooksUntouched(g, n.target, p))
      && (r.Success? ==> LooksActivated(g, n.target, p) && r.value == At(g, n.target))
    ensures At(g, n.target) != expected ==> n.target in g && g[n.target].payload == payload
    ensures r.Success? ==> At(g, n.target) != expected
    ensures OnlyAt(f, g, n.target, n.retained)
  {
    hide LooksActivated, LooksUntouched;
    if g == Activated(f, n) { ActivatedLooks(f, n, payload); } else { UntouchedLooks(f, g, n, payload); }
  }

  lemma ActivatedLooks(f: Files, n: Names, payload: string)
    requires n.Distinct() && n.staged in f && f[n.staged].payload == payload && n.retained !in f && Identified(f)
    ensures LooksActivated(Activated(f, n), n.target, Pending(At(f, n.target), n.retained, payload))
    ensures At(Activated(f, n), n.target) != At(f, n.target)
    ensures OnlyAt(f, Activated(f, n), n.target, n.retained)
  {
  }

  lemma UntouchedLooks(f: Files, g: Files, n: Names, payload: string)
    requires n.Distinct() && n.retained !in f && (g == f || g == Untouched(f, n))
    ensures LooksUntouched(g, n.target, Pending(At(f, n.target), n.retained, payload))
    ensures At(g, n.target) == At(f, n.target) && OnlyAt(f, g, n.target, n.retained)
  {
  }

  /** Where an activation leaves its target and its retained name. */
  ghost predicate Activation(f: Files, g: Files, n: Names, original: Option<Obj>, payload: string,
      r: Result<Option<Obj>, Raised>) {
    var p := Pending(original, n.retained, payload);
    && (LooksActivated(g, n.target, p) || LooksUntouched(g, n.target, p))
    && (r.Success? ==> LooksActivated(g, n.target, p) && r.value == At(g, n.target) != original)
    && (At(g, n.target) != original ==> n.target in g && g[n.target].payload == payload)
    && OnlyAt(f, g, n.target, n.retained)
  }

  /** What is known after the swap and before its result is journaled. */
  ghost predicate Tried(l: Log, origin: Files, f: Files, m: Mutation, retained: Path, r: Result<Option<Obj>, Raised>) {
    && Journaled(l, origin, f) && OnlyBlocked(l, None)
    && m.target in l.snapshots && m.target in l.pending && l.pending[m.target].retained == retained
    && (At(f, m.target) == At(origin, m.target) || Replaced(m, origin, f))
    && (r.Success? ==> LooksActivated(f, m.target, l.pending[m.target]) && r.value == At(f, m.target)
                       && Replaced(m, origin, f))
  }

  lemma SwapTried(l: Log, origin: Files, f: Files, g: Files, n: Names, m: Mutation, r: Result<Option<Obj>, Raised>)
    requires Journaled(l, origin, f) && OnlyBlocked(l, None) && Waits(l, m.target)
    requires n.Distinct() && n.target == m.target && n.retained == Retained(l.retainedCount)
    requires Activation(f, g, n, l.originals[m.target], m.payload, r)
    ensures Tried(Announced(l, m.target, m.payload), origin, g, m, n.retained, r) && EqualBut(g, f, m.target)
  {
    hide Journaled, LooksActivated, LooksUntouched, OnlyBlocked;
    SnapshotUntouched(l, origin, f, m.target);
    AnnouncedParts(l, m.target, m.payload);
    AnnouncedIsJournaled(l, origin, f, m.target, m.payload, g);
  }

  /** Snapshotting one more target keeps the journal true, however far it got. */
  function Snapshotted(l: Log, t: Path, state: Option<Obj>, n: nat): Log {
    Noted(l.(snapshots := l.snapshots + [t]), t, state, None, n)
  }

  lemma SnapshotIsJournaled(l: Log, origin: Files, t: Path, n: nat)
    requires Journaled(l, origin, origin) && OnlyBlocked(l, None)
    requires l.archives == [] && l.pending == map[] && l.mutated == {}
    requires t.Public? && t !in l.snapshots && t !in l.expectations
    ensures var l' := Snapshotted(l, t, At(origin, t), n);
      Journaled(l', origin, origin) && OnlyBlocked(l', None)
  {
    hide Snapshotted, TargetJournaled, Blocked;
    var l' := Snapshotted(l, t, At(origin, t), n);
    SnapshotKeeps(l, t, At(origin, t), n);
    SnapshotHere(l, origin, t, n);
    forall u | u in l.snapshots
      ensures TargetJournaled(l', origin, origin, u) && !Blocked(l', u)
    {
      SnapshotElsewhere(l, origin, t, n, u);
    }
    forall i, k | 0 <= i < k < |l'.snapshots|
      ensures l'.snapshots[i] != l'.snapshots[k]
    {
      if k == |l.snapshots| { assert l'.snapshots[i] in l.snapshots; }
    }
  }

  /** What snapshotting a target leaves as it was. */
  lemma SnapshotKeeps(l: Log, t: Path, state: Option<Obj>, n: nat)
    ensures var l' := Snapshotted(l, t, state, n);
      && l'.snapshots == l.snapshots + [t] && l'.archives == l.archives && l'.mutated == l.mutated
      && l'.preimages == l.preimages && l'.preserve == l.preserve
      && l'.retainedCount == l.retainedCount && l'.stageCount == l.stageCount
      && (l.pending == map[] ==> l'.pending == map[])
  {
  }

  lemma SnapshotHere(l: Log, origin: Files, t: Path, n: nat)
    requires t.Public? && t !in l.expectations && t !in l.mutated && t !in l.pending && t !in l.preserve
    ensures var l' := Snapshotted(l, t, At(origin, t), n);
      TargetJournaled(l', origin, origin, t) && !Blocked(l', t)
  {
  }

  lemma SnapshotElsewhere(l: Log, origin: Files, t: Path, n: nat, u: Path)
    requires TargetJournaled(l, origin, origin, u) && !Blocked(l, u) && u != t
    requires l.pending == map[] && l.mutated == {}
    ensures var l' := Snapshotted(l, t, At(origin, t), n);
      TargetJournaled(l', origin, origin, u) && !Blocked(l', u)
  {
  }

  /** A source and an archive name that nothing in the transaction uses yet. */
  ghost predicate Archivable(l: Log, f: Files, source: Path, archive: Path) {
    && source.Public? && archive.Public? && source != archive
    && source !in l.snapshots && archive !in l.snapshots
    && !IsArchiveName(l, source) && !IsArchiveName(l, archive)
    && archive !in f
  }

  lemma ArchiveIsJournaled(l: Log, origin: Files, f: Files, source: Path, archive: Path)
    requires Journaled(l, origin, f) && Archivable(l, f, source, archive) && source in f
    ensures source in origin && archive !in origin
    ensures var after := l.(archives := l.archives + [Archived(source, archive, f[source])]);
      Journaled(after, origin, Moved(f, source, archive))
    ensures Journaled(l, Moved(origin, source, archive), Moved(f, source, archive))
  {
    hide ArchiveJournaled, TargetJournaled, RetainedApart, Apart;
    var a := Archived(source, archive, f[source]);
    var l', g, origin' := l.(archives := l.archives + [a]), Moved(f, source, archive), Moved(origin, source, archive);
    assert At(f, source) == At(origin, source) && At(f, archive) == At(origin, archive);
    forall u | u in l.snapshots
      ensures TargetJournaled(l', origin, g, u) && TargetJournaled(l, origin', g, u)
    {
      TargetElsewhere(l, l', origin, f, source, archive, u);
    }
    assert Fresh(l', g) && Fresh(l, g);
    ArchivesElsewhere(l, l', origin, f, a);
    forall p
      ensures IsArchiveName(l', p) <==> IsArchiveName(l, p) || p == source || p == archive
    {
      ArchiveNames(l, l', a, p);
    }
    NamesAlike(l, l');
  }

  lemma ArchiveNames(l: Log, l': Log, a: Archived, p: Path)
    requires l'.archives == l.archives + [a]
    ensures IsArchiveName(l', p) <==> IsArchiveName(l, p) || p == a.source || p == a.archive
  {
    if IsArchiveName(l, p) {
      var i :| 0 <= i < |l.archives| && (p == l.archives[i].source || p == l.archives[i].archive);
      assert l'.archives[i] == l.archives[i];
    }
    assert l'.archives[|l.archives|] == a;
  }

  lemma NamesAlike(l: Log, l': Log)
    requires l' == l.(archives := l'.archives)
    ensures RetainedApart(l') == RetainedApart(l)
  {
  }

  lemma TargetElsewhere(l: Log, l': Log, origin: Files, f: Files, source: Path, archive: Path, u: Path)
    requires TargetJournaled(l, origin, f, u) && Fresh(l, f) && RetainedApart(l)
    requires source in f && source in origin && source != u && archive != u && source.Public? && archive.Public?
    requires l' == l.(archives := l'.archives)
    ensures TargetJournaled(l', origin, Moved(f, source, archive), u)
    ensures TargetJournaled(l, Moved(origin, source, archive), Moved(f, source, archive), u)
  {
  }

  lemma ArchivesElsewhere(l: Log, l': Log, origin: Files, f: Files, a: Archived)
    requires forall b | b in l.archives :: ArchiveJournaled(l, origin, f, b)
    requires forall i, k | 0 <= i < k < |l.archives| :: Apart(l.archives[i], l.archives[k])
    requires Archivable(l, f, a.source, a.archive) && At(f, a.source) == At(origin, a.source) == Some(a.preimage)
    requires a.archive !in origin && l' == l.(archives := l.archives + [a])
    ensures forall b | b in l'.archives :: ArchiveJournaled(l', origin, Moved(f, a.source, a.archive), b)
    ensures forall b | b in l.archives ::
      ArchiveJournaled(l, Moved(origin, a.source, a.archive), Moved(f, a.source, a.archive), b)
    ensures forall i, k | 0 <= i < k < |l'.archives| :: Apart(l'.archives[i], l'.archives[k])
  {
    forall i | 0 <= i < |l.archives|
      ensures Apart(l.archives[i], a)
      ensures ArchiveJournaled(l, origin, f, l.archives[i])
    {
      assert l.archives[i] in l.archives;
      assert !IsArchiveName(l, a.source) && !IsArchiveName(l, a.archive);
    }
    forall b | b in l.archives
      ensures ArchiveJournaled(l', origin, Moved(f, a.source, a.archive), b)
      ensures ArchiveJournaled(l, Moved(origin, a.source, a.archive), Moved(f, a.source, a.archive), b)
    {
      var i :| 0 <= i < |l.archives| && l.archives[i] == b;
      assert Apart(l.archives[i], a);
    }
  }

  /** From these numbers on, no private name is in use. */
  ghost predicate NamesFree(f: Files, beside: nat, retained: nat) {
    && (forall k: nat | k >= beside :: Beside(k) !in f)
    && (forall k: nat | k >= retained :: Retained(k) !in f)
  }

  class Installer {
    const fs: FileSystem
    const tx: InstallTransaction
    var besideCount: nat

    constructor (fs: FileSystem, stageCount: nat, retainedCount: nat, besideCount: nat)
      ensures this.fs == fs && fresh(tx) && tx.fs == fs && this.besideCount == besideCount
      ensures tx.Journal() == Log([], [], map[], map[], {}, map[], {}, map[], retainedCount, stageCount)
      ensures tx.errors == [] && !tx.keepStage
    {
      this.fs := fs;
      this.besideCount := besideCount;
      tx := new InstallTransaction(fs, stageCount, retainedCount);
    }

    ghost predicate Ready()
      reads this, tx, fs
    {
      && tx.fs == fs && fs.Valid() && tx.Tidy() && tx.AllRetained()
      && (forall t | t in tx.snapshots :: t.Public?)
      && (forall a | a in tx.archives :: a.source.Public? && a.archive.Public?)
    }

    ghost predicate NamesFresh()
      reads this, fs, tx
    {
      NamesFree(fs.files, besideCount, tx.retainedCount)
    }

    /** Nobody else acts, at most one disturbance is to come, and no step has failed yet. */
    ghost predicate Steady()
      reads fs`interrupts, fs`faults, fs`failed
    {
      fs.Quiet() && fs.Left() <= 1 && fs.failed == None
    }

    /** Stage a copy of the payload at a private name, or leave nothing there. */
    method WriteStaged(n: Names, payload: string) returns (s: Status)
      requires fs.Valid() && n.Distinct() && n.staged !in fs.files
      modifies fs
      ensures fs.Valid() && fs.Loose() <= old(fs.Loose())
      ensures s == Done ==>
        n.staged in fs.files && fs.files[n.staged].id in fs.sealed && fs.files[n.staged].payload == payload
      ensures fs.PrivateElsewhere(old(fs.files), fs.files, {n.staged})
      ensures NoGap(old(fs.interrupts), fs.interrupts)
      ensures s == Interrupted ==> fs.interrupts.left < old(fs.interrupts).left
      ensures fs.Quiet() && old(fs.Left()) <= 1 ==>
        if s == Done then
          && fs.files == old(fs.files)[n.staged := fs.files[n.staged]]
          && fs.Left() == old(fs.Left()) && fs.failed == old(fs.failed)
        else
          && fs.files == old(fs.files) && fs.Left() == old(fs.Left()) - 1
          && fs.failed == if s == Interrupted then old(fs.failed) else Some(Writing(n.staged, Some(n.target)))
    {
      hide FileSystem.Loose, FileSystem.Valid;
      s := fs.Create(n.staged, payload, Some(n.target));
      if s != Done {
        var present := fs.Exists(n.staged);
        if present {
          var again := fs.Discard(n.staged);
          if again { s := Interrupted; }
        }
      }
    }

    lemma NoTwins()
      requires fs.Valid()
      ensures Identified(fs.files)
    {
    }

    /** Stage the payload and swap it in for the original.  A failing write is a detected
        change for a tree, which copies inside the guarded block. */
    method Activate(n: Names, original: Option<Obj>, payload: string, tree: bool)
      returns (r: Result<Option<Obj>, Raised>)
      requires fs.Valid() && n.Distinct()
      requires n.staged !in fs.files && n.displaced !in fs.files && n.retained !in fs.files
      modifies fs
      ensures fs.Valid() && fs.PrivateElsewhere(old(fs.files), fs.files, n.All()) && fs.Loose() <= old(fs.Loose())
      ensures NoGap(old(fs.interrupts), fs.interrupts)
      ensures r == Failure(Interrupt) ==> fs.interrupts.left < old(fs.interrupts).left
      ensures fs.Quiet() && old(fs.Left()) <= 1 && At(old(fs.files), n.target) == original ==>
        && Activation(old(fs.files), fs.files, n, original, payload, r)
        && Told(old(fs.Left()), old(fs.failed), fs, n.target, r, tree)
    {
      hide FileSystem.Loose, FileSystem.Valid, LooksActivated, LooksUntouched, Ends, Identified;
      ghost var f := fs.files;
      var s := WriteStaged(n, payload);
      if s != Done {
        UntouchedLooks(f, f, n, payload);
        return Failure(if s == Interrupted then Interrupt else if tree then Drift else OsError);
      }
      ghost var g := fs.files;
      NoTwins();
      if tree {
        r := CopytreeReplaceCas(fs, n, original);
      } else {
        r := ActivateStagedFileCas(fs, n, original);
      }
      if fs.Quiet() && old(fs.Left()) <= 1 && At(f, n.target) == original {
        EndingIsRecognised(g, fs.files, n, original, r, payload);
        OnlyAtTwice(f, g, fs.files, n);
      }
    }

    /** Journal the intent and try the swap. */
    method Try(ghost origin: Files, m: Mutation) returns (r: Result<Option<Obj>, Raised>, retained: Path)
      requires Ready() && m.target.Public? && m.target in tx.originals
      requires NamesFresh()
      modifies this`besideCount, tx, fs
      ensures Ready() && NamesFresh()
      ensures tx.Journal() == Announced(old(tx.Journal()), m.target, m.payload)
      ensures retained == Retained(old(tx.retainedCount))
      ensures tx.errors == old(tx.errors) && tx.keepStage == old(tx.keepStage)
      ensures NoGap(old(fs.interrupts), fs.interrupts)
      ensures r == Failure(Interrupt) ==> fs.interrupts.left < old(fs.interrupts).left
      ensures old(Steady() && Mutable(origin, m.target)) ==>
        && Tried(tx.Journal(), origin, fs.files, m, retained, r)
        && Told(old(fs.Left()), None, fs, m.target, r, m.tree)
        && EqualBut(fs.files, old(fs.files), m.target)
    {
      hide FileSystem.Loose, FileSystem.Valid, Journaled, LooksActivated, LooksUntouched, Announced, NamesFree;
      hide FileSystem.PrivateElsewhere, OnlyBlocked, Told, Tried, Activation, EqualBut;
      ghost var l, f := tx.Journal(), fs.files;
      ghost var quiet := Steady() && Mutable(origin, m.target);
      var original := tx.originals[m.target];
      if quiet { SnapshotUntouched(l, origin, f, m.target); }
      AnnouncedParts(l, m.target, m.payload);
      NextRetainedFree();
      retained := Prepare(m.target, m.payload);
      FewerNames(f, besideCount, retained.n);
      var n := BesideNames(m.target, retained);
      r := Activate(n, original, m.payload, m.tree);
      StillFree(f, n);
      if quiet { SwapTried(l, origin, f, fs.files, n, m, r); }
    }

    /** Replace one target, journaling the intent first and the result after. */
    method Mutate(ghost origin: Files, m: Mutation) returns (r: Result<(), Raised>, stop: Stop)
      requires Ready() && m.target.Public? && m.target in tx.originals
      requires NamesFresh()
      modifies this`besideCount, tx, fs
      ensures Ready() && NamesFresh() && tx.snapshots == old(tx.snapshots) && tx.originals == old(tx.originals)
      ensures tx.archives == old(tx.archives) && tx.errors == old(tx.errors) && tx.keepStage == old(tx.keepStage)
      ensures StruckAt(old(fs.interrupts), fs.interrupts, stop)
      ensures r == Failure(Interrupt) ==> fs.interrupts.left < old(fs.interrupts).left
      ensures r.Success? <==> stop == Nowhere
      ensures stop in {Nowhere, Within(m), Unmarked(m), Unlocated(m)}
      ensures old(Steady() && Mutable(origin, m.target)) ==>
        && EqualBut(fs.files, old(fs.files), m.target)
        && (r.Success? ==>
              && Steady() && fs.Left() == old(fs.Left())
              && Journaled(tx.Journal(), origin, fs.files) && OnlyBlocked(tx.Journal(), None)
              && tx.mutated == old(tx.mutated) + {m.target} && tx.pending == old(tx.pending)
              && MutationsKeep(old(tx.Journal()), tx.Journal(), m.target)
              && m.target in fs.files && fs.files[m.target].payload == m.payload)
        && (r.Failure? ==>
              old(fs.Left()) == 1 && fs.Left() == 0 && Stopped(tx.Journal(), origin, fs.files, fs.failed, stop))
    {
      hide FileSystem.Loose, FileSystem.Valid, Journaled, Announced, NamesFree, LooksActivated, OnlyBlocked, Waits;
      hide Detects, EqualBut, Stopped, Tried, MutationsKeep, Ready, Noted, StruckAt, NoGap;
      ghost var l, start := tx.Journal(), fs.interrupts;
      ghost var quiet := Steady() && Mutable(origin, m.target);
      if quiet { SnapshotUntouched(l, origin, fs.files, m.target); }
      AnnouncedParts(l, m.target, m.payload);
      var post, retained := Try(origin, m);
      ghost var a, tried := tx.Journal(), fs.interrupts;
      r, stop := Settle(origin, m, post, retained);
      StruckLater(start, tried, fs.interrupts, stop);
      if quiet && stop == Nowhere { RecordedKeeps(l, a, tx.Journal(), m.target, m.payload, post.value, retained); }
    }

    /** Journal how the swap ended. */
    method Settle(ghost origin: Files, m: Mutation, post: Result<Option<Obj>, Raised>, retained: Path)
      returns (r: Result<(), Raised>, stop: Stop)
      requires Ready() && NamesFresh() && m.target.Public? && retained.Retained?
      modifies tx, fs`interrupts
      ensures Ready() && NamesFresh() && tx.snapshots == old(tx.snapshots) && tx.originals == old(tx.originals)
      ensures tx.archives == old(tx.archives) && tx.errors == old(tx.errors) && tx.keepStage == old(tx.keepStage)
      ensures StruckAt(old(fs.interrupts), fs.interrupts, stop)
      ensures r.Success? <==> stop == Nowhere
      ensures stop in {Nowhere, Within(m), Unmarked(m), Unlocated(m)}
      ensures post.Failure? ==> r == Failure(post.error) && fs.interrupts == old(fs.interrupts)
      ensures post.Success? ==> fs.interrupts.left == old(fs.interrupts).left - if r.Success? then 0 else 1
      ensures post.Success? && r.Failure? ==> r.error == Interrupt
      ensures r.Success? ==> tx.Journal() == Noted(old(tx.Journal()), m.target, post.value, Some(retained), 4)
      ensures (if post.Failure? then Blamed(m, post.error, fs.failed) else fs.failed == None)
              && Tried(old(tx.Journal()), origin, fs.files, m, retained, post) ==>
        && (r.Success? ==>
              && Journaled(tx.Journal(), origin, fs.files) && OnlyBlocked(tx.Journal(), None)
              && m.target in fs.files && fs.files[m.target].payload == m.payload)
        && (r.Failure? ==> Stopped(tx.Journal(), origin, fs.files, fs.failed, stop))
    {
      hide FileSystem.Loose, FileSystem.Valid, Journaled, NamesFree, OnlyBlocked, Stopped, Tried, Noted, Blamed;
      if post.Failure? {
        GiveUp(origin, m, retained, post);
        return Failure(post.error), Within(m);
      }
      ghost var done;
      stop, done := Conclude(origin, m, post.value, retained);
      return if stop == Nowhere then Success(()) else Failure(Interrupt), stop;
    }

    /** What a failing activation says of the step that failed. */
    predicate Blamed(m: Mutation, error: Raised, failed: Option<Step>) {
      if error == Interrupt then failed == None
      else
        && failed.Some? && failed.value.owner == Some(m.target)
        && (error == Drift <==> m.tree || Detects(failed.value, m.target))
    }

    /** After a detected change, rollback is to leave a prompt or a tree alone. */
    method GiveUp(ghost origin: Files, m: Mutation, retained: Path, r: Result<Option<Obj>, Raised>)
      requires Ready() && NamesFresh() && r.Failure? && m.target.Public?
      modifies tx`preserve
      ensures Ready() && NamesFresh()
      ensures Blamed(m, r.error, fs.failed) && Tried(old(tx.Journal()), origin, fs.files, m, retained, r) ==>
        Stopped(tx.Journal(), origin, fs.files, fs.failed, Within(m))
    {
      hide FileSystem.Loose, FileSystem.Valid, NamesFree, Stopped, Tried, Detects;
      ghost var l := tx.Journal();
      if Blamed(m, r.error, fs.failed) && Tried(l, origin, fs.files, m, retained, r) {
        FailureStops(l, origin, fs.files, m, retained, r, fs.failed);
      }
      if r.error == Drift && m.preserveOnDrift { tx.preserve := tx.preserve + {m.target}; }
    }

    /** Journal the result of a swap. */
    method Conclude(ghost origin: Files, m: Mutation, post: Option<Obj>, retained: Path)
      returns (stop: Stop, ghost done: nat)
      requires Ready() && NamesFresh() && m.target.Public? && retained.Retained?
      modifies tx, fs`interrupts
      ensures Ready() && NamesFresh() && tx.snapshots == old(tx.snapshots) && tx.originals == old(tx.originals)
      ensures tx.archives == old(tx.archives) && tx.errors == old(tx.errors) && tx.keepStage == old(tx.keepStage)
      ensures fs.interrupts.After(old(fs.interrupts), done < 4, Noting(m.target, done, true))
      ensures StruckAt(old(fs.interrupts), fs.interrupts, stop)
      ensures done <= 4 && stop == StopAt(m, done)
      ensures tx.Journal() == Noted(old(tx.Journal()), m.target, post, Some(retained), done)
      ensures fs.failed == None && Tried(old(tx.Journal()), origin, fs.files, m, retained, Success(post)) ==>
        && m.target in fs.files && fs.files[m.target].payload == m.payload
        && (if stop == Nowhere then Journaled(tx.Journal(), origin, fs.files) && OnlyBlocked(tx.Journal(), None)
            else Stopped(tx.Journal(), origin, fs.files, None, stop))
    {
      hide FileSystem.Loose, FileSystem.Valid, Journaled, NamesFree, OnlyBlocked, Stopped, Tried, Noted;
      ghost var l := tx.Journal();
      if Tried(l, origin, fs.files, m, retained, Success(post)) {
        ResultStops(l, origin, fs.files, m, retained, Success(post));
      }
      var count := Record(m.target, post, retained);
      NotedParts(l, m.target, post, Some(retained), count);
      return StopAt(m, count), count;
    }

    /** The stop after so many of the statements that record a result. */
    function StopAt(m: Mutation, done: nat): Stop {
      if done < 2 then Within(m) else if done == 2 then Unmarked(m) else if done == 3 then Unlocated(m) else Nowhere
    }

    lemma NotedParts(l: Log, t: Path, post: Option<Obj>, retained: Option<Path>, n: nat)
      ensures var l' := Noted(l, t, post, retained, n);
        && l'.snapshots == l.snapshots && l'.archives == l.archives && (retained.Some? ==> l'.originals == l.originals)
        && l'.retainedCount == l.retainedCount && l'.stageCount == l.stageCount
    {
    }

    /** A failed activation stops within its mutation; the target is preserved after a
        detected change, if it is a prompt or a tree. */
    lemma FailureStops(l: Log, origin: Files, f: Files, m: Mutation, retained: Path, r: Result<Option<Obj>, Raised>,
        failed: Option<Step>)
      requires Tried(l, origin, f, m, retained, r) && r.Failure? && m.target.Public?
      requires Blamed(m, r.error, failed)
      ensures var l' := if r.error == Drift && m.preserveOnDrift then l.(preserve := l.preserve + {m.target}) else l;
        Stopped(l', origin, f, failed, Within(m))
    {
      hide Journaled, OnlyBlocked, Detects;
      PreservedStops(l, origin, f, m.target);
    }

    /** Where an interrupt while recording the result stops the installation. */
    lemma ResultStops(l: Log, origin: Files, f: Files, m: Mutation, retained: Path, r: Result<Option<Obj>, Raised>)
      requires Tried(l, origin, f, m, retained, r) && r.Success? && m.target.Public?
      ensures m.target in f && f[m.target].payload == m.payload
      ensures forall n: nat | n <= 3 ::
        Stopped(Noted(l, m.target, r.value, Some(retained), n), origin, f, None, StopAt(m, n))
      ensures var l' := Noted(l, m.target, r.value, Some(retained), 4);
        Journaled(l', origin, f) && OnlyBlocked(l', None)
    {
      hide Journaled, OnlyBlocked, LooksActivated;
      NotedStops(l, origin, f, m.target, retained);
      forall n: nat | n <= 3
        ensures Stopped(Noted(l, m.target, r.value, Some(retained), n), origin, f, None, StopAt(m, n))
      {
        assert n == 0 || n == 1 || n == 2 || n == 3;
      }
    }

    /** Recording the result of one target leaves the others waiting. */
    ghost predicate MutationsKeep(l: Log, l': Log, t: Path) {
      forall u | u != t && Waits(l, u) :: Waits(l', u)
    }

    lemma RecordedKeeps(l: Log, a: Log, l': Log, t: Path, payload: string, post: Option<Obj>, retained: Path)
      requires t in l.originals && a == Announced(l, t, payload) && l' == Noted(a, t, post, Some(retained), 4)
      ensures MutationsKeep(l, l', t) && l'.mutated == l.mutated + {t}
      ensures t !in l.pending ==> l'.pending == l.pending
    {
    }

    /** Two fresh names beside the target. */
    method BesideNames(target: Path, retained: Path) returns (n: Names)
      requires NamesFresh() && target.Public? && retained.Retained?
      modifies this`besideCount
      ensures n.target == target && n.retained == retained && n.Distinct()
      ensures n.staged !in fs.files && n.displaced !in fs.files
      ensures NamesFresh() && n.staged.n < besideCount && n.displaced.n < besideCount
    {
      n := Names(target, Beside(besideCount), Beside(besideCount + 1), retained);
      besideCount := besideCount + 2;
    }

    lemma NextRetainedFree()
      ensures NamesFresh() ==> Retained(tx.retainedCount) !in fs.files
    {
    }

    lemma FewerNames(f: Files, beside: nat, retained: nat)
      ensures NamesFree(f, beside, retained) ==> NamesFree(f, beside, retained + 1)
    {
    }

    lemma StillFree(f: Files, n: Names)
      requires n.Distinct() && NamesFree(f, besideCount, tx.retainedCount)
      requires n.staged.n < besideCount && n.displaced.n < besideCount && n.retained.n < tx.retainedCount
      requires fs.PrivateElsewhere(f, fs.files, n.All())
      ensures NamesFresh()
    {
      forall k: nat
        ensures (k >= besideCount ==> Beside(k) !in fs.files) && (k >= tx.retainedCount ==> Retained(k) !in fs.files)
      {
        assert k >= besideCount ==> Beside(k) !in n.All();
        assert k >= tx.retainedCount ==> Retained(k) !in n.All();
      }
    }

    /** Journal the intent. */
    method Prepare(target: Path, payload: string) returns (retained: Path)
      requires target in tx.originals
      modifies tx
      ensures tx.Journal() == Announced(old(tx.Journal()), target, payload)
      ensures retained == Retained(old(tx.retainedCount)) && tx.retainedCount == old(tx.retainedCount) + 1
      ensures tx.errors == old(tx.errors) && tx.keepStage == old(tx.keepStage)
      ensures old(tx.AllRetained()) ==> tx.AllRetained()
    {
      retained := tx.RetainPath();
      tx.pending := tx.pending[target := Pending(tx.originals[target], retained, payload)];
    }

    /** Journal the result. */
    method Record(target: Path, post: Option<Obj>, retained: Path) returns (done: nat)
      requires retained.Retained? && tx.fs == fs
      modifies tx, fs`interrupts
      ensures tx.Journal() == Noted(old(tx.Journal()), target, post, Some(retained), done) && done <= 4
      ensures fs.interrupts.After(old(fs.interrupts), done < 4, Noting(target, done, true))
      ensures tx.errors == old(tx.errors) && tx.keepStage == old(tx.keepStage)
      ensures old(tx.AllRetained()) ==> tx.AllRetained()
    {
      done := tx.ExpectRollbackState(target, post, Some(retained));
    }

    lemma OnlyAtTwice(f: Files, g: Files, h: Files, n: Names)
      requires n.Distinct() && n.staged in g && g == f[n.staged := g[n.staged]] && OnlyAt(g, h, n.target, n.retained)
      ensures OnlyAt(f, h, n.target, n.retained)
    {
      forall p: Path | p != n.target && p != n.retained && !p.Beside?
        ensures At(h, p) == At(f, p)
      {
        assert At(g, p) == At(f, p);
      }
    }

    /** Move a legacy object into an archive; `orphaned` when an interrupt falls
        between the move and its journal entry. */
    method Archive(ghost origin: Files, source: Path, archive: Path) returns (r: Result<(), Raised>, orphaned: bool)
      requires Ready() && source.Public? && archive.Public? && source != archive
      modifies tx`archives, fs
      ensures Ready()
      ensures StruckAt(old(fs.interrupts), fs.interrupts, if orphaned then Unjournaled(source, archive) else Between)
      ensures r == Failure(Interrupt) ==> fs.interrupts.left < old(fs.interrupts).left
      ensures fs.Quiet() && old(FailedAt(fs.failed, Between)) ==> FailedAt(fs.failed, Between)
      ensures old(NamesFresh()) ==> NamesFresh()
      ensures orphaned ==> r == Failure(Interrupt)
      ensures old(Steady() && Journaled(tx.Journal(), origin, fs.files))
              && old(Archivable(tx.Journal(), fs.files, source, archive)) ==>
        && (orphaned ==> source in origin && Journaled(tx.Journal(), Moved(origin, source, archive), fs.files))
        && (!orphaned ==> Journaled(tx.Journal(), origin, fs.files))
        && (r.Success? ==>
              && Steady() && fs.Left() == old(fs.Left())
              && source !in fs.files && At(fs.files, archive) == At(origin, source)
              && (tx.archives != old(tx.archives) ==>
                    source in origin && tx.archives == old(tx.archives) + [Archived(source, archive, origin[source])])
              && forall p: Path | p != source && p != archive :: At(fs.files, p) == At(old(fs.files), p))
        && (r.Failure? ==> old(fs.Left()) == 1 && fs.Left() == 0)
    {
      hide FileSystem.Loose, FileSystem.Valid, Journaled, NamesFree;
      orphaned := false;
      ghost var l, f := tx.Journal(), fs.files;
      if Steady() && Journaled(l, origin, f) && Archivable(l, f, source, archive) {
        SourceSame(l, origin, f, source, archive);
        if source in f { ArchiveIsJournaled(l, origin, f, source, archive); }
      }
      var seen := ReadSource(source, archive);
      if seen.Failure? { return Failure(seen.error), false; }
      if seen.value.None? { return Success(()), false; }
      r, orphaned := MoveToArchive(source, archive, seen.value.value);
    }

    /** Read what is to be archived, if it is there and the archive name is free. */
    method ReadSource(source: Path, archive: Path) returns (r: Result<Option<Obj>, Raised>)
      requires fs.Valid()
      modifies fs`files, fs`exposed, fs`serial, fs`interrupts, fs`faults, fs`failed
      ensures fs.Valid() && fs.Loose() <= old(fs.Loose())
      ensures fs.Quiet() && old(FailedAt(fs.failed, Between)) ==> FailedAt(fs.failed, Between)
      ensures old(NamesFresh()) ==> NamesFresh()
      ensures NoGap(old(fs.interrupts), fs.interrupts)
      ensures r == Failure(Interrupt) ==> fs.interrupts.left < old(fs.interrupts).left
      ensures fs.Quiet() ==> fs.files == old(fs.files)
      ensures fs.Quiet() && archive !in fs.files ==>
        && (r.Success? ==>
              r.value == At(fs.files, source) && fs.Left() == old(fs.Left()) && fs.failed == old(fs.failed))
        && (r.Failure? ==> fs.Left() == old(fs.Left()) - 1)
    {
      hide FileSystem.Loose, FileSystem.Valid, NamesFree;
      ghost var f := fs.files;
      var present := fs.Exists(source);
      StillFreeAll(f);
      if !present { return Success(None); }
      r := fs.Inspect(source);
      StillFreeAll(f);
      if r.Failure? { return; }
      if r.value.None? { return Failure(OsError); }
      var taken := fs.Exists(archive);
      StillFreeAll(f);
      if taken { return Failure(Drift); }
    }

    /** Where moving into the archive leaves the files and the entries. */
    ghost predicate Archiving(f: Files, before: seq<Archived>, source: Path, archive: Path, preimage: Obj,
        r: Result<(), Raised>, orphaned: bool)
      requires source in f
      reads fs`files, tx`archives
    {
      var moved, entry := Moved(f, source, archive), before + [Archived(source, archive, preimage)];
      && (orphaned ==> fs.files == moved && tx.archives == before)
      && (r.Success? ==> fs.files == moved && tx.archives == entry)
      && (!orphaned ==> (fs.files == f && tx.archives == before) || (fs.files == moved && tx.archives == entry))
    }

    method MoveToArchive(source: Path, archive: Path, preimage: Obj) returns (r: Result<(), Raised>, orphaned: bool)
      requires Ready() && source.Public? && archive.Public? && source != archive
      modifies tx`archives, fs
      ensures Ready()
      ensures fs.Quiet() && old(FailedAt(fs.failed, Between)) ==> FailedAt(fs.failed, Between)
      ensures old(NamesFresh()) ==> NamesFresh()
      ensures StruckAt(old(fs.interrupts), fs.interrupts, if orphaned then Unjournaled(source, archive) else Between)
      ensures r == Failure(Interrupt) ==> fs.interrupts.left < old(fs.interrupts).left
      ensures orphaned ==> r == Failure(Interrupt)
      ensures old(Steady()) && At(old(fs.files), source) == Some(preimage) && archive !in old(fs.files) ==>
        && Archiving(old(fs.files), old(tx.archives), source, archive, preimage, r, orphaned)
        && (r.Success? ==> Steady() && fs.Left() == old(fs.Left()))
        && (r.Failure? ==> old(fs.Left()) == 1 && fs.Left() == 0)
    {
      hide FileSystem.Loose, FileSystem.Valid, NamesFree;
      ghost var f := fs.files;
      var s := fs.Rename(source, archive);
      StillFreeAll(f);
      if s != Done {
        r := RecoverEntry(source, archive, preimage, s);
        return r, false;
      }
      var between := fs.Tick(Entering(source, archive));
      if between { return Failure(Interrupt), true; }
      tx.archives := tx.archives + [Archived(source, archive, preimage)];
      orphaned := false;
      r := Confirm(source, archive, preimage);
    }

    /** After a move that did not return, journal it if it happened all the same. */
    method RecoverEntry(source: Path, archive: Path, preimage: Obj, s: Status) returns (r: Result<(), Raised>)
      requires Ready() && source.Public? && archive.Public? && s != Done
      modifies tx`archives, fs`files, fs`exposed, fs`serial, fs`interrupts, fs`faults, fs`failed
      ensures Ready() && r.Failure?
      ensures fs.Quiet() && old(FailedAt(fs.failed, Between)) ==> FailedAt(fs.failed, Between)
      ensures old(NamesFresh()) ==> NamesFresh()
      ensures NoGap(old(fs.interrupts), fs.interrupts)
      ensures r == Failure(Interrupt) ==> s == Interrupted || fs.interrupts.left < old(fs.interrupts).left
      ensures fs.Quiet() ==> fs.files == old(fs.files) && fs.Left() <= old(fs.Left())
      ensures fs.Quiet() && old(fs.Left()) == 0 ==>
        tx.archives == old(tx.archives)
          + if source !in fs.files || At(fs.files, archive) == Some(preimage)
            then [Archived(source, archive, preimage)] else []
    {
      hide FileSystem.Loose, FileSystem.Valid, NamesFree;
      ghost var f := fs.files;
      var moved := fs.Inspect(archive);
      StillFreeAll(f);
      if moved == Failure(Interrupt) { return Failure(Interrupt); }
      var still := fs.Exists(source);
      StillFreeAll(f);
      if !still || moved == Success(Some(preimage)) {
        tx.archives := tx.archives + [Archived(source, archive, preimage)];
      }
      return Failure(if s == Interrupted then Interrupt else OsError);
    }

    /** Read the archived object back. */
    method Confirm(source: Path, archive: Path, preimage: Obj) returns (r: Result<(), Raised>)
      requires fs.Valid()
      modifies fs`files, fs`exposed, fs`serial, fs`interrupts, fs`faults, fs`failed
      ensures fs.Valid() && fs.Loose() <= old(fs.Loose())
      ensures fs.Quiet() && old(FailedAt(fs.failed, Between)) ==> FailedAt(fs.failed, Between)
      ensures old(NamesFresh()) ==> NamesFresh()
      ensures NoGap(old(fs.interrupts), fs.interrupts)
      ensures r == Failure(Interrupt) ==> fs.interrupts.left < old(fs.interrupts).left
      ensures fs.Quiet() ==> fs.files == old(fs.files)
      ensures fs.Quiet() && At(fs.files, archive) == Some(preimage) && source !in fs.files ==>
        && (r.Success? ==> fs.Left() == old(fs.Left()) && fs.failed == old(fs.failed))
        && (r.Failure? ==> fs.Left() == old(fs.Left()) - 1)
    {
      hide FileSystem.Loose, FileSystem.Valid, NamesFree;
      ghost var f := fs.files;
      var observed := fs.Inspect(archive);
      StillFreeAll(f);
      if observed.Failure? { return Failure(observed.error); }
      var back := fs.Exists(source);
      StillFreeAll(f);
      return if observed.value != Some(preimage) || back then Failure(Drift) else Success(());
    }

    lemma StillFreeAll(f: Files)
      requires forall p: Path | p.Beside? || p.Retained? :: p in fs.files ==> p in f
      ensures NamesFree(f, besideCount, tx.retainedCount) ==> NamesFresh()
    {
    }

    lemma SourceSame(l: Log, origin: Files, f: Files, source: Path, archive: Path)
      requires Journaled(l, origin, f) && Archivable(l, f, source, archive)
      ensures At(f, source) == At(origin, source) && At(f, archive) == At(origin, archive)
    {
    }

    /** An undisturbed journal in which this target has not been touched yet. */
    ghost predicate Mutable(origin: Files, t: Path)
      reads tx, fs
    {
      Journaled(tx.Journal(), origin, fs.files) && OnlyBlocked(tx.Journal(), None) && Waits(tx.Journal(), t)
    }

    // ---------------------------------------------------------- the whole run

    method SnapshotAll(ghost origin: Files, mutations: seq<Mutation>) returns (r: Result<(), Raised>)
      requires Ready() && NamesFresh() && tx.snapshots == [] && tx.archives == []
      requires forall i | 0 <= i < |mutations| :: mutations[i].target.Public?
      modifies tx, fs`files, fs`exposed, fs`serial, fs`interrupts, fs`faults, fs`failed
      ensures Ready() && NamesFresh() && tx.archives == []
      ensures tx.errors == old(tx.errors) && tx.keepStage == old(tx.keepStage)
      ensures NoGap(old(fs.interrupts), fs.interrupts)
      ensures r == Failure(Interrupt) ==> fs.interrupts.left < old(fs.interrupts).left
      ensures r.Success? ==>
        tx.snapshots == Targets(mutations) && forall i | 0 <= i < |mutations| :: mutations[i].target in tx.originals
      ensures old(Steady() && Snapshots(tx.Journal(), origin, fs.files, mutations, 0)) && TargetsDistinct(mutations) ==>
        && (r.Success? ==>
              && Steady() && fs.Left() == old(fs.Left())
              && Snapshots(tx.Journal(), origin, fs.files, mutations, |mutations|))
        && (r.Failure? ==>
              old(fs.Left()) == 1 && fs.Left() == 0 && Stopped(tx.Journal(), origin, fs.files, fs.failed, Between))
    {
      hide FileSystem.Loose, FileSystem.Valid, NamesFree, Snapshots, Stopped;
      ghost var distinct := TargetsDistinct(mutations);
      ghost var quiet := Steady() && distinct && Snapshots(tx.Journal(), origin, fs.files, mutations, 0);
      for i := 0 to |mutations|
        invariant Ready() && NamesFresh() && tx.archives == [] && NoGap(old(fs.interrupts), fs.interrupts)
        invariant tx.errors == old(tx.errors) && tx.keepStage == old(tx.keepStage)
        invariant tx.snapshots == Targets(mutations[..i])
        invariant forall k | 0 <= k < i :: mutations[k].target in tx.originals
        invariant quiet ==>
          Steady() && fs.Left() == old(fs.Left()) && Snapshots(tx.Journal(), origin, fs.files, mutations, i)
      {
        assert mutations[..i + 1] == mutations[..i] + [mutations[i]];
        TargetsSnoc(mutations[..i], mutations[i]);
        r := SnapshotOne(origin, mutations, i);
        if r.Failure? { return; }
      }
      assert mutations[..|mutations|] == mutations;
      return Success(());
    }

    /** Read one target and journal its state. */
    method SnapshotOne(ghost origin: Files, mutations: seq<Mutation>, i: nat) returns (r: Result<(), Raised>)
      requires Ready() && NamesFresh() && tx.archives == [] && i < |mutations| && mutations[i].target.Public?
      modifies tx, fs`files, fs`exposed, fs`serial, fs`interrupts, fs`faults, fs`failed
      ensures Ready() && NamesFresh() && tx.archives == []
      ensures tx.errors == old(tx.errors) && tx.keepStage == old(tx.keepStage)
      ensures NoGap(old(fs.interrupts), fs.interrupts)
      ensures r == Failure(Interrupt) ==> fs.interrupts.left < old(fs.interrupts).left
      ensures r.Success? ==>
        && tx.snapshots == old(tx.snapshots) + [mutations[i].target] && mutations[i].target in tx.originals
        && forall u | u in old(tx.originals) :: u in tx.originals
      ensures old(Steady() && Snapshots(tx.Journal(), origin, fs.files, mutations, i)) && TargetsDistinct(mutations) ==>
        && (r.Success? ==>
              Steady() && fs.Left() == old(fs.Left()) && Snapshots(tx.Journal(), origin, fs.files, mutations, i + 1))
        && (r.Failure? ==>
              old(fs.Left()) == 1 && fs.Left() == 0 && Stopped(tx.Journal(), origin, fs.files, fs.failed, Between))
    {
      hide FileSystem.Loose, FileSystem.Valid, NamesFree, Snapshots, Snapshotted, Stopped;
      var t := mutations[i].target;
      ghost var g, l := fs.files, tx.Journal();
      var state := fs.Inspect(t);
      StillFreeAll(g);
      if Snapshots(l, origin, fs.files, mutations, i) && TargetsDistinct(mutations) && FailedAt(fs.failed, Between) {
        SnapshotsGrow(l, origin, fs.files, mutations, i, fs.failed);
      }
      if state.Failure? { return Failure(state.error); }
      var done := Snapshot(t, state.value);
      SnapshotParts(l, t, state.value, done);
      if done < 4 { return Failure(Interrupt); }
      return Success(());
    }

    lemma SnapshotParts(l: Log, t: Path, state: Option<Obj>, n: nat)
      ensures var l' := Snapshotted(l, t, state, n);
        && l'.snapshots == l.snapshots + [t] && l'.archives == l.archives && l'.mutated == l.mutated
        && l'.preimages == l.preimages && l'.retainedCount == l.retainedCount && l'.stageCount == l.stageCount
        && (n >= 4 ==> l'.originals == l.originals[t := state])
    {
    }

    method Snapshot(t: Path, state: Option<Obj>) returns (done: nat)
      requires t.Public? && tx.fs == fs
      modifies tx, fs`interrupts
      ensures tx.Journal() == Snapshotted(old(tx.Journal()), t, state, done) && done <= 4
      ensures fs.interrupts.After(old(fs.interrupts), done < 4, Noting(t, done, false))
      ensures tx.errors == old(tx.errors) && tx.keepStage == old(tx.keepStage)
      ensures old(tx.AllRetained()) ==> tx.AllRetained()
      ensures forall u | u in tx.snapshots :: u == t || u in old(tx.snapshots)
    {
      tx.snapshots := tx.snapshots + [t];
      done := tx.ExpectRollbackState(t, state, None);
    }

    method ArchiveAll(ghost origin: Files, legacy: seq<(Path, Path)>) returns (r: Result<(), Raised>, stop: Stop)
      requires Ready() && NamesFresh()
      requires forall i | 0 <= i < |legacy| :: LegacyNames(legacy[i])
      modifies tx`archives, fs
      ensures Ready() && NamesFresh()
      ensures StruckAt(old(fs.interrupts), fs.interrupts, stop)
      ensures r == Failure(Interrupt) ==> fs.interrupts.left < old(fs.interrupts).left
      ensures r.Success? <==> stop == Nowhere
      ensures stop in {Nowhere, Between} || (stop.Unjournaled? && (stop.source, stop.archive) in legacy)
      ensures old(Steady() && Journaled(tx.Journal(), origin, fs.files) && OnlyBlocked(tx.Journal(), None)
                  && LegacyWaiting(tx.Journal(), fs.files, legacy, 0)) ==>
        && (r.Success? ==>
              && Steady() && fs.Left() == old(fs.Left())
              && Journaled(tx.Journal(), origin, fs.files) && OnlyBlocked(tx.Journal(), None)
              && Relocated(fs.files, old(fs.files), legacy, |legacy|))
        && (r.Failure? ==>
              old(fs.Left()) == 1 && fs.Left() == 0 && Stopped(tx.Journal(), origin, fs.files, fs.failed, stop))
    {
      hide FileSystem.Loose, FileSystem.Valid, Journaled, NamesFree, LegacyWaiting, Archivable, Blocked, Relocated;
      ghost var quiet := Steady() && Journaled(tx.Journal(), origin, fs.files) && OnlyBlocked(tx.Journal(), None)
        && LegacyWaiting(tx.Journal(), fs.files, legacy, 0);
      NothingRelocated(fs.files, legacy);
      for i := 0 to |legacy|
        invariant Ready() && NamesFresh() && NoGap(old(fs.interrupts), fs.interrupts)
        invariant quiet ==> Steady() && fs.Left() == old(fs.Left())
        invariant quiet ==>
          Journaled(tx.Journal(), origin, fs.files) && LegacyWaiting(tx.Journal(), fs.files, legacy, i)
        invariant quiet ==> OnlyBlocked(tx.Journal(), None) && Relocated(fs.files, old(fs.files), legacy, i)
      {
        ghost var l, f := tx.Journal(), fs.files;
        if quiet {
          NextArchivable(l, f, legacy, i);
          SourceSame(l, origin, f, legacy[i].0, legacy[i].1);
        }
        var moved, orphaned := Archive(origin, legacy[i].0, legacy[i].1);
        EntriesBlockNothing(l, tx.Journal());
        if moved.Failure? {
          return moved, if orphaned then Unjournaled(legacy[i].0, legacy[i].1) else Between;
        }
        if quiet {
          LegacyStep(l, tx.Journal(), f, fs.files, legacy, i);
          ApartLegacy(l, f, legacy, i);
          OneMoreRelocated(old(fs.files), f, fs.files, legacy, i);
        }
      }
      return Success(()), Nowhere;
    }

    lemma EntriesBlockNothing(l: Log, l': Log)
      requires l' == l.(archives := l'.archives)
      ensures forall t :: Blocked(l', t) == Blocked(l, t)
    {
    }

    method MutateAll(ghost origin: Files, mutations: seq<Mutation>) returns (r: Result<(), Raised>, stop: Stop)
      requires Ready() && NamesFresh()
      requires forall i | 0 <= i < |mutations| :: mutations[i].target.Public? && mutations[i].target in tx.originals
      modifies this`besideCount, tx, fs
      ensures Ready() && NamesFresh() && tx.errors == old(tx.errors) && tx.keepStage == old(tx.keepStage)
      ensures StruckAt(old(fs.interrupts), fs.interrupts, stop)
      ensures r == Failure(Interrupt) ==> fs.interrupts.left < old(fs.interrupts).left
      ensures r.Success? <==> stop == Nowhere
      ensures stop == Nowhere || ((stop.Within? || stop.Unmarked? || stop.Unlocated?) && stop.m in mutations)
      ensures old(Steady() && Journaled(tx.Journal(), origin, fs.files) && OnlyBlocked(tx.Journal(), None)
                  && tx.pending == map[] && MutationsWait(tx.Journal(), mutations, 0)) && TargetsDistinct(mutations) ==>
        && (r.Success? ==>
              && Steady() && fs.Left() == old(fs.Left())
              && Journaled(tx.Journal(), origin, fs.files) && OnlyBlocked(tx.Journal(), None)
              && InPlace(fs.files, old(fs.files), mutations, |mutations|) && tx.pending == map[])
        && (r.Failure? ==>
              old(fs.Left()) == 1 && fs.Left() == 0 && Stopped(tx.Journal(), origin, fs.files, fs.failed, stop))
    {
      hide FileSystem.Loose, FileSystem.Valid, Journaled, NamesFree, OnlyBlocked, Stopped, Waits;
      hide StruckAt, NoGap, InPlace;
      StruckNowhere(fs.interrupts);
      StartInPlace(fs.files, mutations);
      ghost var quiet := Steady() && TargetsDistinct(mutations)
        && Journaled(tx.Journal(), origin, fs.files) && OnlyBlocked(tx.Journal(), None)
        && tx.pending == map[] && MutationsWait(tx.Journal(), mutations, 0);
      for i := 0 to |mutations|
        invariant Ready() && NamesFresh() && NoGap(old(fs.interrupts), fs.interrupts)
        invariant tx.errors == old(tx.errors) && tx.keepStage == old(tx.keepStage)
        invariant tx.snapshots == old(tx.snapshots) && tx.originals == old(tx.originals)
        invariant quiet ==> Steady() && fs.Left() == old(fs.Left())
        invariant quiet ==> Journaled(tx.Journal(), origin, fs.files) && OnlyBlocked(tx.Journal(), None)
        invariant quiet ==>
          && tx.pending == map[] && InPlace(fs.files, old(fs.files), mutations, i)
          && MutationsWait(tx.Journal(), mutations, i)
      {
        ghost var f, before := fs.files, fs.interrupts;
        if quiet { NotYet(mutations, i); }
        r, stop := Mutate(origin, mutations[i]);
        StruckLater(old(fs.interrupts), before, fs.interrupts, stop);
        if r.Failure? { return; }
        if quiet { OneMoreInPlace(old(fs.files), f, fs.files, mutations, i); }
      }
      StruckNowhere(fs.interrupts);
      StruckLater(old(fs.interrupts), fs.interrupts, fs.interrupts, Nowhere);
      return Success(()), Nowhere;
    }

    /** Check every retained original and drop the transaction's own directory. */
    method Commit() returns (ok: Result<bool, Raised>)
      requires Ready()
      modifies fs
      ensures fs.Valid()
      ensures ok.Failure? ==> ok.error == Interrupt || ok.error == OsError
      ensures ok == Failure(Interrupt) ==> fs.interrupts.left < old(fs.interrupts).left
      ensures Later(old(fs.interrupts), fs.interrupts)
      ensures fs.Quiet() ==> fs.Left() <= old(fs.Left()) && (ok.Failure? ==> fs.Left() < old(fs.Left()))
      ensures fs.Quiet() && ok.Success? && old(tx.preimages.Keys <= tx.originals.Keys) ==>
        (ok.value <==> old(AllKept(tx.Journal(), fs.files))) || fs.Left() < old(fs.Left())
      ensures fs.Quiet() ==> forall p: Path | !p.Stage? :: At(fs.files, p) == At(old(fs.files), p)
      ensures fs.Quiet() && ok.Success? && !tx.keepStage ==> Swept(fs.files)
    {
      hide FileSystem.Loose, FileSystem.Valid;
      var good := true;
      var todo := tx.preimages.Keys;
      while todo != {}
        invariant fs.Valid() && tx.Tidy() && Later(old(fs.interrupts), fs.interrupts)
        invariant todo <= tx.preimages.Keys
        invariant fs.Quiet() ==> fs.files == old(fs.files) && fs.Left() <= old(fs.Left())
        invariant fs.Quiet() && tx.preimages.Keys <= tx.originals.Keys && fs.Left() == old(fs.Left()) ==>
          (good <==> forall t | t in tx.preimages && t !in todo :: At(fs.files, tx.preimages[t]) == tx.originals[t])
      {
        var t :| t in todo;
        todo := todo - {t};
        var kept := tx.PreimageAvailable(t);
        if kept.Failure? { return Failure(kept.error); }
        good := good && kept.value;
      }
      if !tx.keepStage { fs.DiscardStage(); }
      return Success(good);
    }

    /** Snapshot every target and archive the legacy objects. */
    method Clear(ghost origin: Files, mutations: seq<Mutation>, legacy: seq<(Path, Path)>)
      returns (r: Result<(), Raised>, stop: Stop)
      requires Ready() && NamesFresh() && tx.snapshots == [] && tx.archives == []
      requires forall i | 0 <= i < |mutations| :: mutations[i].target.Public?
      requires forall i | 0 <= i < |legacy| :: LegacyNames(legacy[i])
      modifies tx, fs
      ensures Ready() && NamesFresh() && tx.errors == old(tx.errors) && tx.keepStage == old(tx.keepStage)
      ensures StruckAt(old(fs.interrupts), fs.interrupts, stop)
      ensures r.Success? <==> stop == Nowhere
      ensures stop in {Nowhere, Between} || (stop.Unjournaled? && (stop.source, stop.archive) in legacy)
      ensures r.Success? ==> forall i | 0 <= i < |mutations| :: mutations[i].target in tx.originals
      ensures old(Steady() && Undisturbed(tx.Journal(), fs.files, mutations, legacy)) && origin == old(fs.files) ==>
        && (r.Success? ==>
              && Steady() && fs.Left() == old(fs.Left())
              && Journaled(tx.Journal(), origin, fs.files) && OnlyBlocked(tx.Journal(), None)
              && tx.pending == map[] && MutationsWait(tx.Journal(), mutations, 0)
              && Relocated(fs.files, origin, legacy, |legacy|))
        && (r.Failure? ==>
              old(fs.Left()) == 1 && fs.Left() == 0 && Stopped(tx.Journal(), origin, fs.files, fs.failed, stop))
    {
      hide FileSystem.Loose, FileSystem.Valid, Journaled, NamesFree, LegacyWaiting, Stopped, OnlyBlocked, Waits;
      hide StruckAt, NoGap, Relocated;
      ghost var quiet := Steady() && Undisturbed(tx.Journal(), fs.files, mutations, legacy) && origin == fs.files;
      ghost var start := fs.interrupts;
      if quiet {
        FreshIsJournaled(tx.Journal(), origin, mutations, legacy);
        NothingSnapshot(tx.Journal(), origin, mutations);
      }
      r := SnapshotAll(origin, mutations);
      ghost var l, before := tx.Journal(), fs.interrupts;
      StruckNowhere(before);
      StruckLater(start, before, before, Between);
      if r.Failure? { return r, Between; }
      if quiet { LegacyReady(l, origin, mutations, legacy); }
      r, stop := ArchiveAll(origin, legacy);
      StruckLater(start, before, fs.interrupts, stop);
      if quiet && r.Success? { SnapshotsWait(l, tx.Journal(), origin, mutations); }
    }

    /** Everything up to the commit. */
    method Perform(ghost origin: Files, mutations: seq<Mutation>, legacy: seq<(Path, Path)>)
      returns (r: Result<(), Raised>, stop: Stop)
      requires Ready() && NamesFresh() && tx.snapshots == [] && tx.archives == []
      requires forall i | 0 <= i < |mutations| :: mutations[i].target.Public?
      requires forall i | 0 <= i < |legacy| :: LegacyNames(legacy[i])
      modifies this`besideCount, tx, fs
      ensures Ready() && tx.errors == old(tx.errors) && tx.keepStage == old(tx.keepStage)
      ensures StruckAt(old(fs.interrupts), fs.interrupts, stop)
      ensures r.Success? <==> stop == Nowhere
      ensures stop.Within? || stop.Unmarked? || stop.Unlocated? ==> stop.m in mutations
      ensures stop.Unjournaled? ==> (stop.source, stop.archive) in legacy
      ensures old(Steady() && Undisturbed(tx.Journal(), fs.files, mutations, legacy)) && origin == old(fs.files) ==>
        && (r.Success? ==>
              && Steady() && fs.Left() == old(fs.Left())
              && Journaled(tx.Journal(), origin, fs.files) && OnlyBlocked(tx.Journal(), None)
              && Installed(fs.files, origin, mutations, legacy) && tx.pending == map[])
        && (r.Failure? ==>
              old(fs.Left()) == 1 && fs.Left() == 0 && Stopped(tx.Journal(), origin, fs.files, fs.failed, stop))
    {
      hide FileSystem.Loose, FileSystem.Valid, Journaled, NamesFree, Stopped, OnlyBlocked;
      hide StruckAt, NoGap, InPlace, MutationsWait, Relocated, Installed, Undisturbed;
      ghost var blank, quiet := tx.Journal(), Steady() && Undisturbed(tx.Journal(), fs.files, mutations, legacy);
      r, stop := Clear(origin, mutations, legacy);
      if r.Failure? { return; }
      ghost var start, before := old(fs.interrupts), fs.interrupts;
      StruckNowhere(start);
      StruckLater(start, start, before, stop);
      ghost var f := fs.files;
      if quiet && origin == old(fs.files) { DistinctTargets(blank, origin, mutations, legacy); }
      r, stop := MutateAll(origin, mutations);
      StruckLater(start, before, fs.interrupts, stop);
      if quiet && origin == old(fs.files) && r.Success? {
        NowInstalled(blank, origin, f, fs.files, mutations, legacy);
      }
    }

    /**
     The whole installation.  Whatever anybody else does meanwhile, nothing they may
     have seen or written is lost.  Left alone, and disturbed at most once by an
     interrupt or a failing step, it either installs everything, archives the legacy
     objects and leaves every other public name as it was, or is rolled back.  Then every
     public name is back exactly as it was and nothing is reported if and only if the
     interrupt fell outside the gaps of the journal and the failing step is not lost to
     the mutation it belongs to.  `stop` says where it stopped, which is where the
     interrupt fell or the step failed, and `Leaves` what that leaves.
     */
    method Install(mutations: seq<Mutation>, legacy: seq<(Path, Path)>) returns (outcome: Outcome, stop: Stop)
      requires Ready() && NamesFresh() && Blank(tx.Journal()) && tx.errors == [] && !tx.keepStage
      requires forall i | 0 <= i < |mutations| :: mutations[i].target.Public?
      requires forall i | 0 <= i < |legacy| :: LegacyNames(legacy[i])
      modifies this`besideCount, tx, fs
      ensures fs.Valid()
      ensures stop == Nowhere <==> outcome in {Committed, Questioned, Unfinished}
      ensures stop.Within? || stop.Unmarked? || stop.Unlocated? ==> stop.m in mutations
      ensures stop.Unjournaled? ==> (stop.source, stop.archive) in legacy
      ensures stop.Unmarked? || stop.Unlocated? || stop.Unjournaled? ==> old(fs.interrupts).left > 0
      ensures old(Steady() && Undisturbed(tx.Journal(), fs.files, mutations, legacy))
              && old(fs.interrupts).struck == None ==>
        && outcome != Abandoned
        && (stop == Nowhere ==>
              && Installed(fs.files, old(fs.files), mutations, legacy)
              && (fs.Left() == old(fs.Left()) ==> outcome == Committed)
              && (outcome != Unfinished ==> Swept(fs.files)))
        && (outcome == RolledBack ==>
              && (PubliclyEqual(fs.files, old(fs.files)) && tx.errors == []
                  <==> Recoverable(fs.interrupts.struck, fs.failed, mutations))
              && StruckAt(old(fs.interrupts), fs.interrupts, stop) && FailedAt(fs.failed, stop) && Swept(fs.files)
              && Leaves(stop, fs.failed, old(fs.files), fs.files, tx.errors))
      ensures old(Steady() && fs.Left() == 0 && Undisturbed(tx.Journal(), fs.files, mutations, legacy)) ==>
        outcome == Committed
    {
      hide FileSystem.Loose, FileSystem.Valid, Journaled, NamesFree, PubliclyEqual, Stopped, Leaves;
      hide OnlyBlocked, Recoverable, FailedAt, Installed, Swept;
      ghost var origin, start := fs.files, fs.interrupts;
      ghost var quiet := Steady() && Undisturbed(tx.Journal(), origin, mutations, legacy);
      var ok;
      ok, stop := Perform(origin, mutations, legacy);
      if ok.Failure? {
        outcome := Undo(origin, stop);
        if quiet && start.struck == None {
          ExactlyUndone(stop, start, fs.interrupts, fs.failed, mutations, origin, fs.files, tx.errors);
        }
      } else {
        ghost var g := fs.files;
        if quiet { OriginalsKept(tx.Journal(), origin, g); }
        outcome := Finish();
        if quiet { StayInstalled(origin, g, fs.files, mutations, legacy); }
      }
    }

    method Undo(ghost origin: Files, stop: Stop) returns (outcome: Outcome)
      requires Ready()
      modifies tx, fs
      ensures fs.Valid()
      ensures outcome == RolledBack || (outcome == Abandoned && old(fs.interrupts).left > 0)
      ensures fs.Quiet() && old(fs.Left()) == 0 && !old(tx.keepStage) && old(tx.errors) == []
              && old(Stopped(tx.Journal(), origin, fs.files, fs.failed, stop)) ==>
        && outcome == RolledBack && fs.failed == old(fs.failed) && fs.interrupts == old(fs.interrupts)
        && FailedAt(fs.failed, stop) && Leaves(stop, fs.failed, origin, fs.files, tx.errors) && Swept(fs.files)
    {
      hide FileSystem.Loose, FileSystem.Valid, Journaled, PubliclyEqual, Leaves, Stopped, Shifted, Swept;
      ghost var l, f, failed := tx.Journal(), fs.files, fs.failed;
      ghost var before := TrueTo(stop, failed, origin, f);
      StoppedIsJournaled(l, origin, f, failed, stop);
      var again := tx.Rollback(before);
      if again { return Abandoned; }
      if Stopped(l, origin, f, failed, stop) && PubliclyEqual(fs.files, before) {
        RolledBackLeaves(l, origin, f, failed, stop, fs.files);
        assert [] + Reports(l, 0) == Reports(l, 0);
      }
      return RolledBack;
    }

    lemma StoppedIsJournaled(l: Log, origin: Files, f: Files, failed: Option<Step>, stop: Stop)
      ensures Stopped(l, origin, f, failed, stop) ==>
        Journaled(l, TrueTo(stop, failed, origin, f), f) && FailedAt(failed, stop)
    {
    }

    method Finish() returns (outcome: Outcome)
      requires Ready()
      modifies fs
      ensures fs.Valid() && outcome in {Committed, Questioned, Unfinished}
      ensures fs.Quiet() ==> fs.Left() <= old(fs.Left()) && (outcome == Unfinished ==> fs.Left() < old(fs.Left()))
      ensures fs.Quiet() && old(AllKept(tx.Journal(), fs.files)) && outcome == Questioned ==> fs.Left() < old(fs.Left())
      ensures fs.Quiet() ==> forall p: Path | !p.Stage? :: At(fs.files, p) == At(old(fs.files), p)
      ensures fs.Quiet() && outcome != Unfinished && !tx.keepStage ==> Swept(fs.files)
    {
      hide FileSystem.Loose, FileSystem.Valid;
      var kept := Commit();
      return if kept.Failure? then Unfinished else if kept.value then Committed else Questioned;
    }
  }

  lemma StartInPlace(f: Files, mutations: seq<Mutation>)
    ensures InPlace(f, f, mutations, 0)
  {
  }

  lemma OneMoreInPlace(origin: Files, f: Files, g: Files, mutations: seq<Mutation>, i: nat)
    requires i < |mutations| && TargetsDistinct(mutations) && InPlace(f, origin, mutations, i)
    requires forall k | 0 <= k < |mutations| :: mutations[k].target.Public?
    requires EqualBut(g, f, mutations[i].target)
    requires mutations[i].target in g && g[mutations[i].target].payload == mutations[i].payload
    ensures InPlace(g, origin, mutations, i + 1)
  {
    forall k | 0 <= k < i
      ensures mutations[k].target in g && g[mutations[k].target].payload == mutations[k].payload
    {
      assert mutations[k].target != mutations[i].target;
      assert At(g, mutations[k].target) == At(f, mutations[k].target);
    }
    forall p: Path | p.Public? && forall k | 0 <= k < i + 1 :: mutations[k].target != p
      ensures At(g, p) == At(origin, p)
    {
      assert At(g, p) == At(f, p);
    }
  }

  /** Archiving leaves every snapshotted target waiting. */
  lemma SnapshotsWait(l: Log, l': Log, origin: Files, mutations: seq<Mutation>)
    requires l' == l.(archives := l'.archives) && Snapshots(l, origin, origin, mutations, |mutations|)
    ensures MutationsWait(l', mutations, 0) && l'.pending == map[]
  {
    forall k | 0 <= k < |mutations|
      ensures Waits(l', mutations[k].target)
    {
      assert Waits(l, mutations[k].target);
    }
  }

  ghost predicate AllKept(l: Log, f: Files) {
    forall t | t in l.preimages :: t in l.originals && At(f, l.preimages[t]) == l.originals[t]
  }

  // ------------------------------------------------ the gaps in the journal

  /** Two journals that differ at most about one target. */
  ghost predicate SameBut(l: Log, l': Log, t: Path) {
    && l'.snapshots == l.snapshots && l'.archives == l.archives
    && l'.retainedCount == l.retainedCount && l'.stageCount == l.stageCount
    && (forall u | u != t :: (u in l'.mutated <==> u in l.mutated) && (u in l'.preserve <==> u in l.preserve))
    && (forall u | u != t :: (u in l'.expectations <==> u in l.expectations)
                             && (u in l.expectations ==> l'.expectations[u] == l.expectations[u]))
    && l'.originals == l.originals
    && (forall u | u in l'.pending :: u in l.pending && l'.pending[u] == l.pending[u])
    && (forall u | u != t && u in l.pending :: u in l'.pending)
    && l'.preimages == l.preimages
  }

  /** A change of the journal about one target that makes rollback leave it as it is
      keeps the journal true, to an origin with that target as it is. */
  lemma SettledAt(l: Log, l': Log, origin: Files, f: Files, t: Path)
    requires Journaled(l, origin, f) && SameBut(l, l', t) && t in l.snapshots && t.Public?
    requires l'.preimages.Keys <= l'.mutated
    requires (t in l'.pending ==> t in l'.preserve) && Restorable(l', Shifted(origin, t, f), f, t)
    ensures Journaled(l', Shifted(origin, t, f), f)
  {
    hide ArchiveJournaled, TargetJournaled, Apart, RetainedApart, Fresh, Restorable;
    var h := Shifted(origin, t, f);
    SettledHere(l', h, f, t);
    forall u | u in l'.snapshots
      ensures TargetJournaled(l', h, f, u)
    {
      assert TargetJournaled(l, origin, f, u);
      if u != t { SettledElsewhere(l, l', origin, f, t, u); }
    }
    forall a | a in l'.archives
      ensures ArchiveJournaled(l', h, f, a)
    {
      SettledArchive(l, l', origin, f, t, a);
    }
    assert forall p :: IsArchiveName(l', p) == IsArchiveName(l, p);
    SettledNames(l, l', f, t);
  }

  lemma SettledHere(l: Log, origin: Files, f: Files, t: Path)
    requires (t in l.pending ==> t in l.preserve) && Restorable(l, origin, f, t)
    ensures TargetJournaled(l, origin, f, t)
  {
  }

  lemma SettledNames(l: Log, l': Log, f: Files, t: Path)
    requires RetainedApart(l) && Fresh(l, f) && SameBut(l, l', t)
    ensures RetainedApart(l') && Fresh(l', f)
  {
  }

  lemma SettledElsewhere(l: Log, l': Log, origin: Files, f: Files, t: Path, u: Path)
    requires TargetJournaled(l, origin, f, u) && SameBut(l, l', t) && u != t
    ensures TargetJournaled(l', Shifted(origin, t, f), f, u)
  {
    assert At(Shifted(origin, t, f), u) == At(origin, u);
  }

  lemma SettledArchive(l: Log, l': Log, origin: Files, f: Files, t: Path, a: Archived)
    requires ArchiveJournaled(l, origin, f, a) && l'.snapshots == l.snapshots && t in l.snapshots
    ensures ArchiveJournaled(l', Shifted(origin, t, f), f, a)
  {
  }

  /** A target preserved after a detected change stays as it is, and is reported. */
  lemma PreservedStops(l: Log, origin: Files, f: Files, t: Path)
    requires Journaled(l, origin, f) && OnlyBlocked(l, None) && t in l.snapshots && t in l.pending
    ensures var l' := l.(preserve := l.preserve + {t});
      t.Public? && Journaled(l', Shifted(origin, t, f), f) && OnlyBlocked(l', Some(t))
  {
    hide Journaled, LooksActivated, LooksUntouched;
    PublicTarget(l, origin, f, t);
    Mapped(l, origin, f);
    SettledAt(l, l.(preserve := l.preserve + {t}), origin, f, t);
  }

  lemma PublicTarget(l: Log, origin: Files, f: Files, t: Path)
    requires Journaled(l, origin, f) && t in l.snapshots
    ensures t.Public?
  {
    assert TargetJournaled(l, origin, f, t);
  }

  lemma Mapped(l: Log, origin: Files, f: Files)
    requires Journaled(l, origin, f)
    ensures l.preimages.Keys <= l.mutated
  {
  }

  /** Where an interrupt among the statements that record a result leaves the journal. */
  lemma NotedStops(l: Log, origin: Files, f: Files, t: Path, retained: Path)
    requires Journaled(l, origin, f) && OnlyBlocked(l, None) && t in l.snapshots && t in l.pending
    requires l.pending[t].retained == retained && LooksActivated(f, t, l.pending[t])
    ensures t.Public?
    ensures forall n: nat | n <= 1 ::
      Journaled(Noted(l, t, At(f, t), Some(retained), n), origin, f)
      && OnlyBlocked(Noted(l, t, At(f, t), Some(retained), n), None)
    ensures var l' := Noted(l, t, At(f, t), Some(retained), 2);
      Journaled(l', Shifted(origin, t, f), f) && OnlyBlocked(l', None)
    ensures var l' := Noted(l, t, At(f, t), Some(retained), 3);
      Journaled(l', Shifted(origin, t, f), f) && OnlyBlocked(l', Some(t))
    ensures var l' := Noted(l, t, At(f, t), Some(retained), 4);
      Journaled(l', origin, f) && OnlyBlocked(l', None)
  {
    hide Journaled, LooksActivated, Noted;
    PublicTarget(l, origin, f, t);
    Mapped(l, origin, f);
    PendingIsFree(l, origin, f, t);
    FirstNoted(l, origin, f, t, retained);
    forall n: nat | n <= 1
      ensures Journaled(Noted(l, t, At(f, t), Some(retained), n), origin, f)
      ensures OnlyBlocked(Noted(l, t, At(f, t), Some(retained), n), None)
    {
      assert n == 0 || n == 1;
      NotedNothing(l, t, At(f, t), Some(retained));
    }
    UnmarkedStops(l, origin, f, t, retained);
    UnlocatedStops(l, origin, f, t, retained);
    ReconcileKeepsJournal(l, origin, f, t);
    AllNoted(l, f, t, retained);
  }

  lemma PendingIsFree(l: Log, origin: Files, f: Files, t: Path)
    requires Journaled(l, origin, f) && OnlyBlocked(l, None) && t in l.snapshots && t in l.pending
    ensures t !in l.mutated && t !in l.preserve && t !in l.preimages
  {
    assert TargetJournaled(l, origin, f, t) && !Blocked(l, t);
  }

  lemma NotedNothing(l: Log, t: Path, state: Option<Obj>, retained: Option<Path>)
    ensures Noted(l, t, state, retained, 0) == l
  {
  }

  lemma FirstNoted(l: Log, origin: Files, f: Files, t: Path, retained: Path)
    requires Journaled(l, origin, f) && OnlyBlocked(l, None) && t in l.snapshots && t in l.pending
    requires LooksActivated(f, t, l.pending[t])
    ensures var l' := Noted(l, t, At(f, t), Some(retained), 1);
      Journaled(l', origin, f) && OnlyBlocked(l', None)
  {
    hide ArchiveJournaled, Apart, LooksActivated, LooksUntouched, RetainedApart;
    var l' := Noted(l, t, At(f, t), Some(retained), 1);
    forall u | u in l'.snapshots
      ensures TargetJournaled(l', origin, f, u) && !Blocked(l', u)
    {
      assert TargetJournaled(l, origin, f, u) && !Blocked(l, u);
    }
    forall a | a in l'.archives
      ensures ArchiveJournaled(l', origin, f, a)
    {
      ArchiveUnaffected(l, l', origin, f, a);
    }
    assert RetainedApart(l') by { ApartAlike(l, l'); }
    assert forall p :: IsArchiveName(l', p) == IsArchiveName(l, p);
  }

  lemma ApartAlike(l: Log, l': Log)
    requires l' == l.(expectations := l'.expectations)
    ensures RetainedApart(l') == RetainedApart(l)
  {
  }

  lemma UnmarkedStops(l: Log, origin: Files, f: Files, t: Path, retained: Path)
    requires Journaled(l, origin, f) && OnlyBlocked(l, None) && t in l.snapshots && t in l.pending && t.Public?
    requires t !in l.mutated && t !in l.preserve && l.preimages.Keys <= l.mutated
    ensures var l' := Noted(l, t, At(f, t), Some(retained), 2);
      Journaled(l', Shifted(origin, t, f), f) && OnlyBlocked(l', None)
  {
    hide Journaled;
    SettledAt(l, Noted(l, t, At(f, t), Some(retained), 2), origin, f, t);
  }

  lemma UnlocatedStops(l: Log, origin: Files, f: Files, t: Path, retained: Path)
    requires Journaled(l, origin, f) && OnlyBlocked(l, None) && t in l.snapshots && t in l.pending && t.Public?
    requires t !in l.mutated && t !in l.preimages && l.preimages.Keys <= l.mutated
    ensures var l' := Noted(l, t, At(f, t), Some(retained), 3);
      Journaled(l', Shifted(origin, t, f), f) && OnlyBlocked(l', Some(t))
  {
    hide Journaled;
    SettledAt(l, Noted(l, t, At(f, t), Some(retained), 3), origin, f, t);
  }

  lemma AllNoted(l: Log, f: Files, t: Path, retained: Path)
    requires t in l.pending && l.pending[t].retained == retained && LooksActivated(f, t, l.pending[t])
    requires t !in l.mutated
    ensures Noted(l, t, At(f, t), Some(retained), 4) == Reconciled(l, f, t)
    ensures OnlyBlocked(l, None) ==> OnlyBlocked(Noted(l, t, At(f, t), Some(retained), 4), None)
  {
  }

  lemma OriginalsKept(l: Log, origin: Files, f: Files)
    requires Journaled(l, origin, f) && OnlyBlocked(l, None) && l.pending == map[]
    ensures AllKept(l, f) && l.preimages.Keys <= l.originals.Keys
  {
    forall t | t in l.preimages
      ensures t in l.originals && At(f, l.preimages[t]) == l.originals[t]
    {
      assert TargetJournaled(l, origin, f, t) && !Blocked(l, t);
    }
  }

  lemma StayInstalled(origin: Files, f: Files, g: Files, mutations: seq<Mutation>, legacy: seq<(Path, Path)>)
    requires Installed(f, origin, mutations, legacy)
    requires forall i | 0 <= i < |mutations| :: mutations[i].target.Public?
    requires forall i | 0 <= i < |legacy| :: LegacyNames(legacy[i])
    ensures (forall p: Path | !p.Stage? :: At(g, p) == At(f, p)) ==> Installed(g, origin, mutations, legacy)
  {
    if forall p: Path | !p.Stage? :: At(g, p) == At(f, p) {
      forall m | m in mutations
        ensures m.target in g && g[m.target].payload == m.payload
      {
        assert At(g, m.target) == At(f, m.target);
      }
      forall names | names in legacy
        ensures names.0 !in g && At(g, names.1) == At(origin, names.0)
      {
        assert At(g, names.0) == At(f, names.0) && At(g, names.1) == At(f, names.1);
      }
    }
  }

  /** A fresh transaction over files and names that do not collide. */
  ghost predicate Undisturbed(l: Log, f: Files, mutations: seq<Mutation>, legacy: seq<(Path, Path)>) {
    && TargetsDistinct(mutations)
    && l == Log([], [], map[], map[], {}, map[], {}, map[], l.retainedCount, l.stageCount)
    && Fresh(l, f)
    && (forall i, k | 0 <= i < k < |legacy| :: !NamesShared(legacy[i], legacy[k]))
    && (forall i | 0 <= i < |legacy| ::
          legacy[i].0 !in Targets(mutations) && legacy[i].1 !in Targets(mutations) && legacy[i].1 !in f)
  }

  lemma FreshIsJournaled(l: Log, f: Files, mutations: seq<Mutation>, legacy: seq<(Path, Path)>)
    requires Undisturbed(l, f, mutations, legacy)
    ensures Journaled(l, f, f) && OnlyBlocked(l, None)
  {
  }

  lemma DistinctTargets(l: Log, f: Files, mutations: seq<Mutation>, legacy: seq<(Path, Path)>)
    requires Undisturbed(l, f, mutations, legacy)
    ensures TargetsDistinct(mutations)
  {
  }

  lemma NothingSnapshot(l: Log, f: Files, mutations: seq<Mutation>)
    requires Journaled(l, f, f) && OnlyBlocked(l, None)
    requires l.snapshots == [] && l.expectations == map[] && l.pending == map[] && l.mutated == {} && l.archives == []
    ensures Snapshots(l, f, f, mutations, 0)
  {
  }

  lemma LegacyReady(l: Log, f: Files, mutations: seq<Mutation>, legacy: seq<(Path, Path)>)
    requires l.snapshots == Targets(mutations) && l.archives == []
    requires forall i | 0 <= i < |legacy| :: LegacyNames(legacy[i])
    requires forall i, k | 0 <= i < k < |legacy| :: !NamesShared(legacy[i], legacy[k])
    requires forall i | 0 <= i < |legacy| ::
      legacy[i].0 !in Targets(mutations) && legacy[i].1 !in Targets(mutations) && legacy[i].1 !in f
    ensures LegacyWaiting(l, f, legacy, 0)
  {
  }

  /** The first `n` targets hold what was to be installed, and every other public name
      what it held. */
  ghost predicate InPlace(f: Files, origin: Files, mutations: seq<Mutation>, n: nat)
    requires n <= |mutations|
  {
    && (forall k | 0 <= k < n :: mutations[k].target in f && f[mutations[k].target].payload == mutations[k].payload)
    && (forall p: Path | p.Public? && forall k | 0 <= k < n :: mutations[k].target != p :: At(f, p) == At(origin, p))
  }

  /** The first `n` legacy objects are where they are archived, and every other public
      name holds what it held. */
  ghost predicate Relocated(f: Files, origin: Files, legacy: seq<(Path, Path)>, n: nat)
    requires n <= |legacy|
  {
    && (forall k | 0 <= k < n :: legacy[k].0 !in f && At(f, legacy[k].1) == At(origin, legacy[k].0))
    && (forall p: Path | p.Public? && forall k | 0 <= k < n :: legacy[k].0 != p && legacy[k].1 != p ::
          At(f, p) == At(origin, p))
  }

  lemma ApartLegacy(l: Log, f: Files, legacy: seq<(Path, Path)>, i: nat)
    requires i < |legacy| && LegacyWaiting(l, f, legacy, i)
    ensures forall k | 0 <= k < i :: !NamesShared(legacy[k], legacy[i])
  {
  }

  lemma NothingRelocated(f: Files, legacy: seq<(Path, Path)>)
    ensures Relocated(f, f, legacy, 0)
  {
  }

  lemma OneMoreRelocated(origin: Files, f: Files, g: Files, legacy: seq<(Path, Path)>, i: nat)
    requires i < |legacy| && Relocated(f, origin, legacy, i)
    requires LegacyNames(legacy[i]) && forall k | 0 <= k < i :: !NamesShared(legacy[k], legacy[i])
    requires legacy[i].0 !in g && At(g, legacy[i].1) == At(f, legacy[i].0)
    requires forall p: Path | p != legacy[i].0 && p != legacy[i].1 :: At(g, p) == At(f, p)
    ensures Relocated(g, origin, legacy, i + 1)
  {
    forall k | 0 <= k < i
      ensures legacy[k].0 !in g && At(g, legacy[k].1) == At(origin, legacy[k].0)
      ensures legacy[k].0 != legacy[i].0 && legacy[k].1 != legacy[i].0
    {
      assert !NamesShared(legacy[k], legacy[i]);
      assert At(g, legacy[k].0) == At(f, legacy[k].0) && At(g, legacy[k].1) == At(f, legacy[k].1);
    }
    assert At(f, legacy[i].0) == At(origin, legacy[i].0);
    forall p: Path | p.Public? && forall k | 0 <= k < i + 1 :: legacy[k].0 != p && legacy[k].1 != p
      ensures At(g, p) == At(origin, p)
    {
      assert At(g, p) == At(f, p);
    }
  }

  /** What a committed installation leaves at the public names: at every target what was
      to be installed, every legacy object in its archive and nowhere else, and at every
      other name what it held. */
  ghost predicate Installed(f: Files, origin: Files, mutations: seq<Mutation>, legacy: seq<(Path, Path)>) {
    && (forall m | m in mutations :: m.target in f && f[m.target].payload == m.payload)
    && (forall names | names in legacy :: names.0 !in f && At(f, names.1) == At(origin, names.0))
    && (forall p: Path | p.Public? && p !in Targets(mutations) && forall names | names in legacy ::
            names.0 != p && names.1 != p ::
          At(f, p) == At(origin, p))
  }

  lemma NowInstalled(l: Log, origin: Files, f: Files, g: Files, mutations: seq<Mutation>, legacy: seq<(Path, Path)>)
    requires Undisturbed(l, origin, mutations, legacy)
    requires forall k | 0 <= k < |legacy| :: LegacyNames(legacy[k])
    requires Relocated(f, origin, legacy, |legacy|) && InPlace(g, f, mutations, |mutations|)
    ensures Installed(g, origin, mutations, legacy)
  {
    forall names | names in legacy
      ensures names.0 !in g && At(g, names.1) == At(origin, names.0)
    {
      var k :| 0 <= k < |legacy| && legacy[k] == names;
      assert LegacyNames(legacy[k]) && names.0 !in Targets(mutations) && names.1 !in Targets(mutations);
      assert forall j | 0 <= j < |mutations| :: Targets(mutations)[j] == mutations[j].target;
      assert At(g, names.0) == At(f, names.0) && At(g, names.1) == At(f, names.1);
    }
    forall p: Path | p.Public? && p !in Targets(mutations) && forall names | names in legacy ::
        names.0 != p && names.1 != p
      ensures At(g, p) == At(origin, p)
    {
      assert forall j | 0 <= j < |mutations| :: Targets(mutations)[j] == mutations[j].target;
      assert forall k | 0 <= k < |legacy| :: legacy[k] in legacy;
      assert At(g, p) == At(f, p) == At(origin, p);
    }
  }

  /** The first `i` targets are snapshotted, and nothing else has happened. */
  ghost predicate Snapshots(l: Log, origin: Files, f: Files, mutations: seq<Mutation>, i: nat)
    requires i <= |mutations|
  {
    && f == origin && Journaled(l, origin, origin) && OnlyBlocked(l, None)
    && l.pending == map[] && l.mutated == {} && l.archives == []
    && l.snapshots == Targets(mutations[..i])
    && (forall t | t in l.expectations :: t in l.snapshots)
    && forall k | 0 <= k < i :: Waits(l, mutations[k].target)
  }

  lemma SnapshotsGrow(l: Log, origin: Files, f: Files, mutations: seq<Mutation>, i: nat, failed: Option<Step>)
    requires i < |mutations| && Snapshots(l, origin, f, mutations, i) && TargetsDistinct(mutations)
    requires mutations[i].target.Public? && FailedAt(failed, Between)
    ensures Stopped(l, origin, f, failed, Between)
    ensures forall n: nat ::
      Stopped(Snapshotted(l, mutations[i].target, At(f, mutations[i].target), n), origin, f, failed, Between)
    ensures Snapshots(Snapshotted(l, mutations[i].target, At(f, mutations[i].target), 4), origin, f, mutations, i + 1)
  {
    hide Journaled, OnlyBlocked, Snapshotted, Waits;
    var t := mutations[i].target;
    NotYet(mutations, i);
    forall n: nat
      ensures Stopped(Snapshotted(l, t, At(f, t), n), origin, f, failed, Between)
    {
      SnapshotIsJournaled(l, origin, t, n);
    }
    SnapshotIsJournaled(l, origin, t, 4);
    SnapshotWaits(l, t, At(f, t));
    assert mutations[..i + 1] == mutations[..i] + [mutations[i]];
    TargetsSnoc(mutations[..i], mutations[i]);
    forall k | 0 <= k < i
      ensures mutations[k].target != t
    {
    }
  }

  lemma SnapshotWaits(l: Log, t: Path, state: Option<Obj>)
    requires l.pending == map[] && l.mutated == {}
    ensures var l' := Snapshotted(l, t, state, 4);
      && l'.snapshots == l.snapshots + [t] && l'.archives == l.archives && l'.mutated == {} && l'.pending == map[]
      && l'.expectations == l.expectations[t := state] && Waits(l', t)
      && forall u | Waits(l, u) && u != t :: Waits(l', u)
  {
  }

  /** From `n` on, every target is still to be replaced. */
  ghost predicate MutationsWait(l: Log, mutations: seq<Mutation>, n: nat) {
    forall k | n <= k < |mutations| :: Waits(l, mutations[k].target)
  }

  predicate LegacyNames(names: (Path, Path)) { names.0.Public? && names.1.Public? && names.0 != names.1 }

  ghost predicate NamesShared(a: (Path, Path), b: (Path, Path)) {
    a.0 == b.0 || a.0 == b.1 || a.1 == b.0 || a.1 == b.1
  }

  /** From `n` on, every legacy object can still be archived. */
  ghost predicate LegacyWaiting(l: Log, f: Files, legacy: seq<(Path, Path)>, n: nat) {
    && (forall i, k | 0 <= i < k < |legacy| :: !NamesShared(legacy[i], legacy[k]))
    && (forall i | n <= i < |legacy| :: Archivable(l, f, legacy[i].0, legacy[i].1))
  }

  lemma NextArchivable(l: Log, f: Files, legacy: seq<(Path, Path)>, i: nat)
    requires i < |legacy| && LegacyWaiting(l, f, legacy, i)
    ensures Archivable(l, f, legacy[i].0, legacy[i].1)
  {
  }

  lemma LegacyStep(l: Log, l': Log, f: Files, g: Files, legacy: seq<(Path, Path)>, i: nat)
    requires i < |legacy| && LegacyWaiting(l, f, legacy, i)
    requires l' == l.(archives := l'.archives)
    requires l'.archives == l.archives || exists o ::
      l'.archives == l.archives + [Archived(legacy[i].0, legacy[i].1, o)]
    requires forall p: Path | p != legacy[i].0 && p != legacy[i].1 :: At(g, p) == At(f, p)
    ensures LegacyWaiting(l', g, legacy, i + 1)
  {
    forall k | i < k < |legacy|
      ensures Archivable(l', g, legacy[k].0, legacy[k].1)
    {
      assert !NamesShared(legacy[i], legacy[k]);
      assert Archivable(l, f, legacy[k].0, legacy[k].1);
      assert At(g, legacy[k].1) == At(f, legacy[k].1);
    }
  }

  ghost predicate Blank(l: Log) {
    l.snapshots == [] && l.archives == [] && l.mutated == {} && l.pending == map[]
  }

  function Targets(mutations: seq<Mutation>): (ts: seq<Path>)
    ensures |ts| == |mutations| && forall i | 0 <= i < |mutations| :: ts[i] == mutations[i].target
  {
    seq(|mutations|, i requires 0 <= i < |mutations| => mutations[i].target)
  }

  lemma TargetsSnoc(mutations: seq<Mutation>, m: Mutation)
    ensures Targets(mutations + [m]) == Targets(mutations) + [m.target]
  {
  }

  ghost predicate TargetsDistinct(mutations: seq<Mutation>) {
    forall i, k | 0 <= i < k < |mutations| :: mutations[i].target != mutations[k].target
  }

  lemma NotYet(mutations: seq<Mutation>, i: nat)
    requires i < |mutations| && TargetsDistinct(mutations)
    ensures mutations[i].target !in Targets(mutations[..i])
  {
  }

  // ------------------------------------------------- inputs that are not undone

  const NEW_LOG := Log([], [], map[], map[], {}, map[], {}, map[], 0, 0)

  /** The journal once the only target is snapshotted and its replacement announced. */
  function FirstAnnounced(t: Path, origin: Files): Log {
    Announced(Snapshotted(NEW_LOG, t, At(origin, t), 4), t, "new")
  }

  lemma FirstIsJournaled(t: Path, origin: Files, f: Files)
    requires t.Public? && (forall p | p in origin :: p.Public?)
    requires OnlyAt(origin, f, t, Retained(0))
    requires var p := Pending(At(origin, t), Retained(0), "new"); LooksActivated(f, t, p) || LooksUntouched(f, t, p)
    ensures var l := FirstAnnounced(t, origin);
      && Journaled(l, origin, f) && OnlyBlocked(l, None)
      && t in l.snapshots && t in l.pending && l.pending[t] == Pending(At(origin, t), Retained(0), "new")
  {
    hide Journaled, OnlyBlocked, Snapshotted, Announced, Waits, LooksActivated, LooksUntouched;
    FreshIsJournaled(NEW_LOG, origin, [Mutation(t, "new", false, false)], []);
    SnapshotIsJournaled(NEW_LOG, origin, t, 4);
    SnapshotWaits(NEW_LOG, t, At(origin, t));
    OriginalOf(NEW_LOG, t, At(origin, t));
    var s := Snapshotted(NEW_LOG, t, At(origin, t), 4);
    AnnouncedParts(s, t, "new");
    AnnouncedIsJournaled(s, origin, origin, t, "new", f);
  }

  lemma OriginalOf(l: Log, t: Path, state: Option<Obj>)
    ensures var l' := Snapshotted(l, t, state, 4);
      t in l'.originals && l'.originals[t] == state && l'.retainedCount == l.retainedCount
  {
  }

  /** An interrupt after two of the four statements that record config.toml's replacement:
      whatever rollback then leaves, it is not the old file, and nothing is reported. */
  lemma UnmarkedInput() returns (m: Mutation, l: Log, origin: Files, f: Files)
    ensures !m.tree && !m.preserveOnDrift && !Recoverable(Some(Noting(m.target, 2, true)), None, [m])
    ensures m.target in f && Replaced(m, origin, f)
    ensures l == Noted(FirstAnnounced(m.target, origin), m.target, At(f, m.target), Some(Retained(0)), 2)
    ensures Stopped(l, origin, f, None, Unmarked(m))
    ensures forall g :: PubliclyEqual(g, TrueTo(Unmarked(m), None, origin, f)) ==> !PubliclyEqual(g, origin)
    ensures Reports(l, 0) == []
  {
    hide Journaled, OnlyBlocked, Noted, FirstAnnounced;
    var t := Public("config.toml");
    m, origin := Mutation(t, "new", false, false), map[t := Obj(0, "old")];
    f := map[t := Obj(1, "new"), Retained(0) := Obj(0, "old")];
    FirstIsJournaled(t, origin, f);
    NotedStops(FirstAnnounced(t, origin), origin, f, t, Retained(0));
    l := Noted(FirstAnnounced(t, origin), t, At(f, t), Some(Retained(0)), 2);
    NothingReported(l, Shifted(origin, t, f), f);
    forall g | PubliclyEqual(g, Shifted(origin, t, f))
      ensures !PubliclyEqual(g, origin)
    {
      assert At(g, t) == Some(Obj(1, "new")) != At(origin, t);
    }
  }

  lemma NothingReported(l: Log, origin: Files, f: Files)
    requires Journaled(l, origin, f) && OnlyBlocked(l, None)
    ensures Reports(l, 0) == []
  {
    ReportsOf(l, 0, None);
  }

  /** The journal of a replacement that failed with a detected change. */
  function FirstPreserved(t: Path, origin: Files): Log {
    var l := FirstAnnounced(t, origin);
    l.(preserve := l.preserve + {t})
  }

  /** The rename that retains a tree's original fails: the new tree stays and is
      reported, although nobody else acted. */
  lemma TreeInput() returns (m: Mutation, origin: Files, f: Files, step: Step)
    ensures m.tree && m.preserveOnDrift && step == Renaming(Beside(1), Retained(0), Some(m.target))
    ensures Lost(m, step) && !Recoverable(None, Some(step), [m])
    ensures m.target in origin && At(f, Retained(0)) == At(origin, m.target) && Replaced(m, origin, f)
    ensures Stopped(FirstPreserved(m.target, origin), origin, f, Some(step), Within(m))
    ensures Reports(FirstPreserved(m.target, origin), 0) == [Kept(m.target)]
  {
    hide Journaled, OnlyBlocked, FirstAnnounced;
    var t := Public("skills/jstack-dev");
    m, origin := Mutation(t, "new", true, true), map[t := Obj(0, "old")];
    f, step := map[t := Obj(1, "new"), Retained(0) := Obj(0, "old")], Renaming(Beside(1), Retained(0), Some(t));
    FirstIsJournaled(t, origin, f);
    PreservedStops(FirstAnnounced(t, origin), origin, f, t);
    OneReported(FirstPreserved(t, origin), Shifted(origin, t, f), f, t);
    assert m in [m];
  }

  lemma OneReported(l: Log, origin: Files, f: Files, t: Path)
    requires Journaled(l, origin, f) && OnlyBlocked(l, Some(t)) && t in l.snapshots
    ensures Reports(l, 0) == [Kept(t)]
  {
    ReportsOf(l, 0, Some(t));
    assert l.snapshots[0..] == l.snapshots;
  }

  /** Moving a prompt aside fails: every file is as it was, and rollback still reports
      somebody else's change. */
  lemma PromptInput() returns (m: Mutation, origin: Files, step: Step)
    ensures !m.tree && m.preserveOnDrift && step == Renaming(m.target, Beside(1), Some(m.target))
    ensures Lost(m, step) && !Recoverable(None, Some(step), [m]) && m.target in origin
    ensures Stopped(FirstPreserved(m.target, origin), origin, origin, Some(step), Within(m))
    ensures Reports(FirstPreserved(m.target, origin), 0) == [Kept(m.target)]
  {
    hide Journaled, OnlyBlocked, FirstAnnounced;
    var t := Public("prompts/jstack.md");
    m, origin, step := Mutation(t, "new", false, true), map[t := Obj(0, "old")], Renaming(t, Beside(1), Some(t));
    FirstIsJournaled(t, origin, origin);
    PreservedStops(FirstAnnounced(t, origin), origin, origin, t);
    assert Shifted(origin, t, origin) == origin;
    OneReported(FirstPreserved(t, origin), origin, origin, t);
    assert m in [m];
  }
}
