/**
 The install transaction (scripts/install.py, `InstallTransaction`): what it
 journals, how it reconciles an interrupted mutation, and how it rolls back.
 */
module InstallRollback {
  import opened Wrappers
  import opened InstallFiles
  import opened InstallCas

  /** An intended mutation, journaled before it starts. */
  datatype Pending = Pending(original: Option<Obj>, retained: Path, payload: string)

  /** A legacy object moved aside into an archive directory. */
  datatype Archived = Archived(source: Path, archive: Path, preimage: Obj)

  /** What rollback could not put right: one target, or the reading of the journal. */
  datatype Report = Kept(target: Path) | Unread

  /** Everything the transaction has journaled. */
  datatype Log = Log(
    snapshots: seq<Path>,
    archives: seq<Archived>,
    expectations: map<Path, Option<Obj>>,
    originals: map<Path, Option<Obj>>,
    mutated: set<Path>,
    preimages: map<Path, Path>,
    preserve: set<Path>,
    pending: map<Path, Pending>,
    retainedCount: nat,
    stageCount: nat)

  // What an interrupted mutation left, as the reconciler classifies it.
  predicate LooksActivated(f: Files, target: Path, p: Pending) {
    target in f && f[target].payload == p.payload && At(f, p.retained) == p.original
  }

  predicate LooksUntouched(f: Files, target: Path, p: Pending) {
    At(f, target) == p.original && p.retained !in f
  }

  datatype Verdict = WasActivated(current: Obj) | WasUntouched | Unclear

  function VerdictOf(f: Files, target: Path, p: Pending): Verdict {
    if LooksActivated(f, target, p) then WasActivated(f[target])
    else if LooksUntouched(f, target, p) then WasUntouched
    else Unclear
  }

  /** A target rollback reports and leaves as it is: preserved, or marked as replaced
      while nothing says where its original went. */
  predicate Blocked(l: Log, target: Path) {
    target in l.preserve || (target in l.mutated && target !in l.preimages)
  }

  /** A target that nobody but this transaction has changed. */
  ghost predicate TargetReady(l: Log, f: Files, target: Path) {
    && (target in l.expectations ==> At(f, target) == l.expectations[target])
    && (target in l.mutated ==>
          target in f && target in l.expectations && target in l.originals && target in l.preimages
          && At(f, l.preimages[target]) == l.originals[target])
  }

  /** Rollback will leave this target as it was in `origin`. */
  ghost predicate Restorable(l: Log, origin: Files, f: Files, t: Path) {
    && t.Public?
    && if Blocked(l, t) then At(f, t) == At(origin, t)
       else TargetReady(l, f, t) && At(origin, t) == if t in l.mutated then l.originals[t] else At(f, t)
  }

  ghost predicate Fresh(l: Log, f: Files) {
    && (forall k: nat | k >= l.stageCount :: Stage(k) !in f)
    && (forall k: nat | k >= l.retainedCount :: Retained(k) !in f)
    && (forall t | t in l.preimages :: l.preimages[t].Retained? && l.preimages[t].n < l.retainedCount)
  }

  /** The files after one quiet restoration. */
  ghost function RestoredFiles(l: Log, f: Files, target: Path): Files {
    if !Blocked(l, target) && target in l.mutated && target in f && target in l.preimages then
      var swept := f - {target, l.preimages[target]};
      var back := if l.preimages[target] in f then swept[target := f[l.preimages[target]]] else swept;
      back[Retained(l.retainedCount) := f[target]]
    else f
  }

  ghost predicate IsArchiveName(l: Log, p: Path) {
    exists i :: 0 <= i < |l.archives| && (p == l.archives[i].source || p == l.archives[i].archive)
  }

  ghost predicate Apart(a: Archived, b: Archived) {
    a.source != b.source && a.source != b.archive && a.archive != b.source && a.archive != b.archive
  }

  ghost predicate ArchiveJournaled(l: Log, origin: Files, f: Files, a: Archived) {
    && a.source.Public? && a.archive.Public? && a.source != a.archive
    && a.source !in l.snapshots && a.archive !in l.snapshots
    && a.source !in f && At(f, a.archive) == Some(a.preimage)
    && At(origin, a.source) == Some(a.preimage) && a.archive !in origin
  }

  ghost predicate TargetJournaled(l: Log, origin: Files, f: Files, t: Path) {
    if t in l.pending && t !in l.preserve then
      && t.Public? && t in l.expectations && t in l.originals && t !in l.mutated
      && l.pending[t].original == l.originals[t] == At(origin, t)
      && (|| LooksActivated(f, t, l.pending[t])
          || (LooksUntouched(f, t, l.pending[t]) && l.expectations[t] == l.originals[t]))
    else Restorable(l, origin, f, t)
  }

  /** No two targets share a retained name. */
  ghost predicate RetainedApart(l: Log) {
    && (forall s, t | s in l.preimages && t in l.preimages && s != t :: l.preimages[s] != l.preimages[t])
    && (forall s, t | s in l.preimages && t in l.pending :: l.preimages[s] != l.pending[t].retained)
    && (forall s, t | s in l.pending && t in l.pending && s != t :: l.pending[s].retained != l.pending[t].retained)
    && (forall t | t in l.pending :: l.pending[t].retained.Retained? && l.pending[t].retained.n < l.retainedCount)
  }

  ghost predicate Unique<T>(s: seq<T>) {
    forall i, k | 0 <= i < k < |s| :: s[i] != s[k]
  }

  /** The journal of a transaction that nobody else has disturbed since `origin`,
      except for what a blocked target holds by now, which `origin` then includes. */
  ghost predicate Journaled(l: Log, origin: Files, f: Files) {
    && (forall t | t in l.snapshots :: TargetJournaled(l, origin, f, t))
    && Unique(l.snapshots)
    && (forall t | t in l.mutated || t in l.pending || t in l.preserve :: t in l.snapshots)
    && l.preimages.Keys <= l.mutated
    && RetainedApart(l)
    && Fresh(l, f)
    && (forall a | a in l.archives :: ArchiveJournaled(l, origin, f, a))
    && (forall i, k | 0 <= i < k < |l.archives| :: Apart(l.archives[i], l.archives[k]))
    && (forall p: Path | p.Public? && p !in l.snapshots && !IsArchiveName(l, p) :: At(f, p) == At(origin, p))
  }

  /** What reconciling one pending target does to an undisturbed journal. */
  function Reconciled(l: Log, f: Files, t: Path): Log
    requires t in l.pending
  {
    match VerdictOf(f, t, l.pending[t])
    case WasActivated(current) =>
      l.(expectations := l.expectations[t := Some(current)], pending := l.pending - {t},
         mutated := l.mutated + {t}, preimages := l.preimages[t := l.pending[t].retained])
    case WasUntouched => l.(pending := l.pending - {t})
    case Unclear => l.(preserve := l.preserve + {t})
  }

  /** Every interrupt point of an activation is one of the two kinds, so reconciling
      it keeps the journal true and leaves nothing pending for that target. */
  lemma ReconcileKeepsJournal(l: Log, origin: Files, f: Files, t: Path)
    requires Journaled(l, origin, f) && t in l.pending && t !in l.preserve
    ensures Journaled(Reconciled(l, f, t), origin, f)
    ensures Reconciled(l, f, t).pending == l.pending - {t} && Reconciled(l, f, t).preserve == l.preserve
    ensures forall u :: Blocked(Reconciled(l, f, t), u) == Blocked(l, u)
  {
    hide ArchiveJournaled, TargetJournaled, RetainedApart, Fresh, Apart, Reconciled;
    var l' := Reconciled(l, f, t);
    ReconciledTarget(l, origin, f, t);
    ReconciledSame(l, f, t);
    ReconciledApart(l, f, t);
    ReconciledFresh(l, f, t);
    forall u | u in l'.snapshots
      ensures TargetJournaled(l', origin, f, u)
    {
      if u != t { OtherTargets(l, origin, f, t, u); }
    }
    forall a | a in l'.archives
      ensures ArchiveJournaled(l', origin, f, a)
    {
      ArchiveUnaffected(l, l', origin, f, a);
    }
    assert forall p :: IsArchiveName(l', p) == IsArchiveName(l, p);
  }

  lemma ReconciledSame(l: Log, f: Files, t: Path)
    requires t in l.pending && t !in l.mutated
    ensures var l' := Reconciled(l, f, t);
      && l'.snapshots == l.snapshots && l'.archives == l.archives && l'.originals == l.originals
      && l'.retainedCount == l.retainedCount && l'.stageCount == l.stageCount
      && (forall u | u in l'.mutated :: u in l.mutated || u == t)
      && (forall u | u in l'.pending :: u in l.pending)
      && (forall u | u in l'.preserve :: u in l.preserve || u == t)
      && (l.preimages.Keys <= l.mutated ==> l'.preimages.Keys <= l'.mutated)
      && forall u | u != t :: Blocked(l', u) == Blocked(l, u)
  {
  }

  lemma ReconciledTarget(l: Log, origin: Files, f: Files, t: Path)
    requires t in l.pending && TargetJournaled(l, origin, f, t) && t !in l.preserve
    ensures var l' := Reconciled(l, f, t);
      && TargetJournaled(l', origin, f, t) && l'.pending == l.pending - {t} && l'.preserve == l.preserve
      && !Blocked(l', t) && !Blocked(l, t) && t !in l.mutated
  {
  }

  lemma OtherTargets(l: Log, origin: Files, f: Files, t: Path, u: Path)
    requires t in l.pending && TargetJournaled(l, origin, f, u) && u != t
    ensures TargetJournaled(Reconciled(l, f, t), origin, f, u)
  {
  }

  lemma ReconciledApart(l: Log, f: Files, t: Path)
    requires t in l.pending && RetainedApart(l)
    ensures RetainedApart(Reconciled(l, f, t))
  {
    hide LooksActivated, LooksUntouched;
    var l', p := Reconciled(l, f, t), l.pending[t];
    match VerdictOf(f, t, p)
    case WasActivated(_) =>
      forall u | u in l'.preimages && u != t
        ensures l'.preimages[u] == l.preimages[u] != p.retained
      {
      }
    case _ =>
  }

  lemma ReconciledFresh(l: Log, f: Files, t: Path)
    requires t in l.pending && RetainedApart(l) && Fresh(l, f)
    ensures Fresh(Reconciled(l, f, t), f)
  {
    hide LooksActivated, LooksUntouched;
  }

  /** The journal after the first `n` of the statements that record a state: the
      expectation, no longer pending, then the mark and the retained name of a replaced
      target, or the original of a target still to be replaced. */
  function Noted(l: Log, target: Path, state: Option<Obj>, retained: Option<Path>, n: nat): Log {
    var l1 := if n < 1 then l else l.(expectations := l.expectations[target := state]);
    var l2 := if n < 2 then l1 else l1.(pending := l1.pending - {target});
    match retained
    case None => if n < 3 then l2 else l2.(originals := l2.originals[target := state])
    case Some(p) =>
      var l3 := if n < 3 then l2 else l2.(mutated := l2.mutated + {target});
      if n < 4 then l3 else l3.(preimages := l3.preimages[target := p])
  }

  lemma ArchiveUnaffected(l: Log, l': Log, origin: Files, f: Files, a: Archived)
    requires ArchiveJournaled(l, origin, f, a) && l'.snapshots == l.snapshots
    ensures ArchiveJournaled(l', origin, f, a)
  {
  }

  class InstallTransaction {
    const fs: FileSystem
    var snapshots: seq<Path>
    var archives: seq<Archived>
    var expectations: map<Path, Option<Obj>>   // what a target should hold right now
    var originals: map<Path, Option<Obj>>      // what it held at the start
    var mutated: set<Path>
    var preimages: map<Path, Path>             // where a mutated target's original is retained
    var preserve: set<Path>
    var pending: map<Path, Pending>
    var retainedCount: nat
    var stageCount: nat
    var keepStage: bool                        // something in the transaction's directory must survive
    var errors: seq<Report>                    // what rollback could not restore

    constructor (fs: FileSystem, stageCount: nat, retainedCount: nat)
      ensures this.fs == fs && snapshots == [] && archives == [] && errors == []
      ensures expectations == map[] && originals == map[] && pending == map[] && preimages == map[]
      ensures mutated == {} && preserve == {} && !keepStage
      ensures this.stageCount == stageCount && this.retainedCount == retainedCount
    {
      this.fs := fs;
      this.stageCount := stageCount;
      this.retainedCount := retainedCount;
      snapshots, archives, errors := [], [], [];
      expectations, originals, pending, preimages := map[], map[], map[], map[];
      mutated, preserve := {}, {};
      keepStage := false;
    }

    ghost function Journal(): Log
      reads this
    {
      Log(snapshots, archives, expectations, originals, mutated, preimages, preserve, pending, retainedCount,
          stageCount)
    }

    /** Originals go nowhere but to retained names. */
    ghost predicate AllRetained()
      reads this`preimages, this`pending
    {
      && (forall t | t in preimages :: preimages[t].Retained?)
      && (forall t | t in pending :: pending[t].retained.Retained?)
    }

    // ------------------------------------------------------------- journaling

    method RetainPath() returns (p: Path)
      modifies this`retainedCount
      ensures p == Retained(old(retainedCount)) && retainedCount == old(retainedCount) + 1
    {
      p := Retained(retainedCount);
      retainedCount := retainedCount + 1;
    }

    /** Record the state rollback is to expect, and where the original went if the target
        was replaced.  An interrupt may arrive before each of the statements; `done`
        counts those carried out. */
    method ExpectRollbackState(target: Path, state: Option<Obj>, retained: Option<Path>) returns (done: nat)
      modifies this`expectations, this`pending, this`mutated, this`preimages, this`originals, fs`interrupts
      ensures Journal() == Noted(old(Journal()), target, state, retained, done) && done <= 4
      ensures fs.interrupts.After(old(fs.interrupts), done < 4, Noting(target, done, retained.Some?))
    {
      var interrupted := fs.Tick(Noting(target, 0, retained.Some?));
      if interrupted { return 0; }
      expectations := expectations[target := state];
      interrupted := fs.Tick(Noting(target, 1, retained.Some?));
      if interrupted { return 1; }
      pending := pending - {target};
      interrupted := fs.Tick(Noting(target, 2, retained.Some?));
      if interrupted { return 2; }
      if retained.None? {
        originals := originals[target := state];
        return 4;
      }
      done := MarkReplaced(target, retained.value);
    }

    /** The mark of a replaced target, and where its original is. */
    method MarkReplaced(target: Path, retained: Path) returns (done: nat)
      modifies this`mutated, this`preimages, fs`interrupts
      ensures (done == 3 || done == 4) && fs.interrupts.After(old(fs.interrupts), done < 4, Noting(target, 3, true))
      ensures mutated == old(mutated) + {target}
      ensures preimages == if done < 4 then old(preimages) else old(preimages)[target := retained]
    {
      mutated := mutated + {target};
      var interrupted := fs.Tick(Noting(target, 3, true));
      if interrupted { return 3; }
      preimages := preimages[target := retained];
      return 4;
    }

    // --------------------------------------------------------------- reading

    /** Whether a path can be read and holds exactly this.  A system error while reading a
        file escapes; for a tree it counts as a difference. */
    method Matches(p: Path, expected: Option<Obj>) returns (r: Result<bool, Raised>)
      modifies fs`files, fs`exposed, fs`serial, fs`interrupts, fs`faults, fs`failed
      ensures old(fs.Valid()) ==> fs.Valid()
      ensures old(fs.Valid()) ==> fs.PrivateElsewhere(old(fs.files), fs.files, {}) && fs.Loose() <= old(fs.Loose())
      ensures r.Failure? ==> r.error == Interrupt || r.error == OsError
      ensures fs.interrupts.After(old(fs.interrupts), r == Failure(Interrupt), Inside)
      ensures r == Success(true) ==> At(fs.files, p) == expected
      ensures fs.Quiet() ==> fs.files == old(fs.files) && fs.Left() <= old(fs.Left())
      ensures fs.Quiet() && r.Failure? ==> fs.Left() < old(fs.Left())
      ensures fs.Quiet() && old(fs.faults) == 0 ==>
        fs.faults == 0 && fs.failed == old(fs.failed) && (r.Success? ==> (r.value <==> At(fs.files, p) == expected))
      ensures fs.Quiet() && r.Success? && fs.Left() == old(fs.Left()) ==>
        fs.failed == old(fs.failed) && (r.value <==> At(fs.files, p) == expected)
    {
      var state := fs.Inspect(p);
      if state == Failure(Interrupt) { return Failure(Interrupt); }
      var tree: bool := *;
      if state == Failure(OsError) && !tree { return Failure(OsError); }
      return Success(state == Success(expected));
    }

    // ------------------------------------------------------------ reconciling

    /** Read how far an interrupted mutation got. */
    method Classify(target: Path) returns (r: Result<Verdict, Raised>)
      requires fs.Valid() && target in pending
      modifies fs`files, fs`exposed, fs`serial, fs`interrupts, fs`faults, fs`failed
      ensures fs.Valid()
      ensures fs.PrivateElsewhere(old(fs.files), fs.files, {}) && fs.Loose() <= old(fs.Loose())
      ensures r.Failure? ==> r.error == Interrupt || r.error == OsError
      ensures fs.interrupts.After(old(fs.interrupts), r == Failure(Interrupt), Inside)
      ensures fs.Quiet() ==> fs.files == old(fs.files)
      ensures fs.Quiet() && old(fs.faults) == 0 ==>
        && fs.faults == 0 && fs.failed == old(fs.failed) && (r.Failure? ==> r.error == Interrupt)
        && (r.Success? ==> r.value == VerdictOf(fs.files, target, pending[target]))
    {
      hide FileSystem.Loose, FileSystem.Valid;
      var p := pending[target];
      var current := fs.Inspect(target);
      if current == Failure(Interrupt) { return Failure(Interrupt); }
      if current.Failure? { return Success(Unclear); }
      var kept := Success(false);
      if p.original.Some? {
        kept := Matches(p.retained, p.original);
        if kept.Failure? { return Failure(kept.error); }
      } else {
        var taken := fs.Exists(p.retained);
        kept := Success(!taken);
      }
      if current.value.Some? && current.value.value.payload == p.payload && kept.value {
        return Success(WasActivated(current.value.value));
      }
      var present := fs.Exists(p.retained);
      return Success(if current.value == p.original && !present then WasUntouched else Unclear);
    }

    /** Decide one pending mutation: activated, untouched, or left alone. */
    method ReconcileOne(target: Path) returns (r: Result<(), Raised>)
      requires fs.Valid() && target in pending
      modifies this`expectations, this`pending, this`mutated, this`preimages, this`preserve, this`originals
      modifies fs`files, fs`exposed, fs`serial, fs`interrupts, fs`faults, fs`failed
      ensures fs.Valid()
      ensures fs.PrivateElsewhere(old(fs.files), fs.files, {}) && fs.Loose() <= old(fs.Loose())
      ensures r.Failure? ==> r.error == Interrupt || r.error == OsError
      ensures Later(old(fs.interrupts), fs.interrupts)
      ensures r == Failure(Interrupt) ==> fs.interrupts.left < old(fs.interrupts).left
      ensures fs.Quiet() ==> fs.files == old(fs.files)
      ensures fs.Quiet() && old(fs.faults) == 0 ==>
        && fs.faults == 0 && fs.failed == old(fs.failed) && (r.Failure? ==> r.error == Interrupt)
        && (r.Success? ==> Journal() == Reconciled(old(Journal()), fs.files, target))
      ensures old(AllRetained()) ==> AllRetained()
      ensures pending == old(pending) || pending == old(pending) - {target}
    {
      hide FileSystem.Loose, FileSystem.Valid, LooksActivated, LooksUntouched;
      var verdict := Classify(target);
      if verdict.Failure? { return Failure(verdict.error); }
      match verdict.value {
        case WasActivated(current) =>
          var done := ExpectRollbackState(target, Some(current), Some(pending[target].retained));
          if done < 4 { return Failure(Interrupt); }
        case WasUntouched => pending := pending - {target};
        case Unclear => preserve := preserve + {target};
      }
      return Success(());
    }

    // ------------------------------------------------------ restoring a target

    /** Nothing exposed is left in the transaction's own directory unless it is kept. */
    ghost predicate Tidy()
      reads this`keepStage, fs`files, fs`sealed
    {
      keepStage || fs.Loose() == {}
    }

    method Add(report: Report)
      modifies this`errors
      ensures errors == old(errors) + [report]
    {
      errors := errors + [report];
    }

    /** The retained preimage is exactly the original, present just when the original was. */
    method PreimageAvailable(target: Path) returns (r: Result<bool, Raised>)
      requires fs.Valid()
      modifies fs`files, fs`exposed, fs`serial, fs`interrupts, fs`faults, fs`failed
      ensures fs.Valid() && fs.PrivateElsewhere(old(fs.files), fs.files, {}) && fs.Loose() <= old(fs.Loose())
      ensures r.Failure? ==> r.error == Interrupt || r.error == OsError
      ensures fs.interrupts.After(old(fs.interrupts), r == Failure(Interrupt), Inside)
      ensures r == Success(true) ==> target in preimages
      ensures fs.Quiet() ==> fs.files == old(fs.files) && fs.Left() <= old(fs.Left())
      ensures fs.Quiet() && r.Failure? ==> fs.Left() < old(fs.Left())
      ensures fs.Quiet() && old(fs.faults) == 0 ==> fs.faults == 0 && fs.failed == old(fs.failed)
      ensures target !in preimages ==> r == Success(false)
      ensures fs.Quiet() && (old(fs.faults) == 0 || fs.Left() == old(fs.Left())) && r.Success?
              && target in preimages && target in originals ==>
        (r.value <==> At(fs.files, preimages[target]) == originals[target])
    {
      hide FileSystem.Loose, FileSystem.Valid;
      if target !in preimages { return Success(false); }
      var retained := preimages[target];
      var original := if target in originals then originals[target] else None;
      var present := fs.Exists(retained);
      if present != original.Some? { return Success(false); }
      if original.None? { return Success(true); }
      r := Matches(retained, original);
    }

    /** Move the current object into quarantine and compare it with the expected one;
        anything else is put back, or retained if its place was taken meanwhile. */
    method Quarantine(target: Path, quarantine: Path) returns (r: Result<bool, Raised>)
      requires fs.Valid() && Tidy() && target.Public? && target in expectations && quarantine.Stage?
      modifies this`errors, this`keepStage, this`retainedCount, fs
      ensures fs.Valid() && (old(keepStage) ==> keepStage)
      ensures r.Failure? ==> r.error == Interrupt
      ensures r == Success(false) ==> Tidy()
      ensures r == Success(true) ==> keepStage == old(keepStage) && fs.Loose() <= old(fs.Loose()) + {quarantine}
      ensures fs.interrupts.After(old(fs.interrupts), r.Failure?, Inside)
      ensures retainedCount >= old(retainedCount)
      ensures fs.Quiet() && old(fs.faults) == 0 ==> fs.faults == 0 && fs.failed == old(fs.failed)
      ensures fs.Quiet() && old(fs.faults) == 0 && r.Success?
              && At(old(fs.files), target) == expectations[target] && target in old(fs.files)
              && quarantine !in old(fs.files) ==>
        && r == Success(true) && fs.files == Moved(old(fs.files), target, quarantine)
        && errors == old(errors) && keepStage == old(keepStage) && retainedCount == old(retainedCount)
    {
      hide FileSystem.Loose, FileSystem.Valid, FileSystem.PrivateElsewhere, FileSystem.StaysSealed, SealedElsewhere;
      var s := fs.Rename(target, quarantine);
      if s == Interrupted { return Failure(Interrupt); }
      if s == Done {
        var observed := fs.Inspect(quarantine);
        if observed == Failure(Interrupt) { return Failure(Interrupt); }
        if observed == Success(expectations[target]) { return Success(true); }
      }
      var present := fs.Exists(quarantine);
      if present {
        var recovery := RetainPath();
        var stuck := RestoreOrRetain(fs, quarantine, target, recovery);
        if stuck.Failure? { return Failure(Interrupt); }
        keepStage := keepStage || stuck.value;
      }
      Absent(quarantine);
      Add(Kept(target));
      return Success(false);
    }

    lemma Absent(p: Path)
      ensures p !in fs.files ==> p !in fs.Loose()
    {
    }

    /** Put the original back and retain the installed object it replaces. */
    method PutBack(target: Path, quarantine: Path) returns (r: Result<(), Raised>)
      requires fs.Valid() && target.Public? && quarantine.Stage?
      requires target in expectations && target in preimages && target in originals
      requires keepStage || fs.Loose() <= {quarantine}
      requires !preimages[target].Stage? && preimages[target] != target
      modifies this`errors, this`keepStage, this`retainedCount, fs
      ensures fs.Valid() && (old(keepStage) ==> keepStage)
      ensures r.Success? ==> Tidy()
      ensures r.Failure? ==> r.error == Interrupt || r.error == OsError
      ensures fs.interrupts.After(old(fs.interrupts), r == Failure(Interrupt), Inside)
      ensures retainedCount >= old(retainedCount)
      ensures fs.Quiet() && old(fs.faults) == 0 ==>
        fs.faults == 0 && fs.failed == old(fs.failed) && r != Failure(OsError)
      ensures fs.Quiet() && old(fs.faults) == 0 && r.Success?
              && ReadyToPutBack(old(fs.files), target, quarantine, old(retainedCount)) ==>
        && fs.files == PutBackFiles(old(fs.files), target, quarantine, preimages[target], Retained(old(retainedCount)))
        && errors == old(errors) && keepStage == old(keepStage) && retainedCount == old(retainedCount) + 1
    {
      hide FileSystem.Loose, FileSystem.Valid, FileSystem.PrivateElsewhere, FileSystem.StaysSealed;
      var restored := true;
      if originals[target].Some? {
        var s := fs.Rename(preimages[target], target);
        if s == Interrupted { return Failure(Interrupt); }
        restored := s == Done;
      }
      var back := Matches(target, originals[target]);
      if back.Failure? { return Failure(back.error); }
      if !restored || !back.value { Add(Kept(target)); }
      r := RetainQuarantined(target, quarantine);
    }

    /** Where putting a target back leads when nobody interferes. */
    ghost predicate ReadyToPutBack(f: Files, target: Path, quarantine: Path, count: nat)
      requires target in expectations && target in preimages && target in originals
      reads this`expectations, this`preimages, this`originals
    {
      && target !in f && quarantine in f && At(f, quarantine) == expectations[target]
      && At(f, preimages[target]) == originals[target]
      && Retained(count) !in f && preimages[target] != Retained(count) && preimages[target].Retained?
      && target.Public? && quarantine.Stage?
    }

    ghost function PutBackFiles(f: Files, target: Path, quarantine: Path, retained: Path, recovery: Path): Files
      requires quarantine in f
    {
      var g := if retained in f then Moved(f, retained, target) else f;
      if quarantine in g then Moved(g, quarantine, recovery) else g
    }

    /** Move what was quarantined to a retained name, whether or not it was changed there. */
    method RetainQuarantined(target: Path, quarantine: Path) returns (r: Result<(), Raised>)
      requires fs.Valid() && quarantine.Stage? && target in expectations
      requires keepStage || fs.Loose() <= {quarantine}
      modifies this`errors, this`keepStage, this`retainedCount, fs
      ensures fs.Valid() && (old(keepStage) ==> keepStage)
      ensures r.Success? ==> Tidy()
      ensures r.Failure? ==> r.error == Interrupt || r.error == OsError
      ensures fs.interrupts.After(old(fs.interrupts), r == Failure(Interrupt), Inside)
      ensures retainedCount >= old(retainedCount)
      ensures fs.Quiet() && old(fs.faults) == 0 ==>
        fs.faults == 0 && fs.failed == old(fs.failed) && r != Failure(OsError)
      ensures fs.Quiet() && old(fs.faults) == 0 && r.Success?
              && quarantine in old(fs.files) && At(old(fs.files), quarantine) == expectations[target]
              && Retained(old(retainedCount)) !in old(fs.files) ==>
        && fs.files == Moved(old(fs.files), quarantine, Retained(old(retainedCount)))
        && errors == old(errors) && keepStage == old(keepStage) && retainedCount == old(retainedCount) + 1
    {
      hide FileSystem.Loose, FileSystem.Valid;
      var asLeft := Matches(quarantine, expectations[target]);
      if asLeft.Failure? { return Failure(asLeft.error); }
      var recovery := RetainPath();
      var s := fs.Rename(quarantine, recovery);
      if s == Interrupted { return Failure(Interrupt); }
      if s != Done { keepStage := true; }
      if s != Done || !asLeft.value { Add(Kept(target)); }
      return Success(());
    }

    /** Roll one snapshot target back; a system error on the way is reported, and what the
        transaction's own directory holds is then kept. */
    method RestoreTarget(target: Path) returns (interrupted: bool)
      requires fs.Valid() && Tidy() && target.Public?
      requires AllRetained()
      modifies this`errors, this`keepStage, this`retainedCount, this`stageCount, fs
      ensures fs.Valid() && (old(keepStage) ==> keepStage)
      ensures !interrupted ==> Tidy()
      ensures fs.interrupts.After(old(fs.interrupts), interrupted, Inside)
      ensures retainedCount >= old(retainedCount) && stageCount >= old(stageCount)
      ensures fs.Quiet() && old(fs.faults) == 0 ==> fs.faults == 0 && fs.failed == old(fs.failed)
      ensures fs.Quiet() && old(fs.faults) == 0 && !interrupted && old(CanRestore(target)) ==>
        && keepStage == old(keepStage)
        && errors == old(errors) + (if Blocked(old(Journal()), target) then [Kept(target)] else [])
        && fs.files == RestoredFiles(old(Journal()), old(fs.files), target)
        && (target in mutated && !Blocked(old(Journal()), target) ==> retainedCount > old(retainedCount))
    {
      hide FileSystem.Loose, FileSystem.Valid, Fresh, TargetReady, Blocked, RestoredFiles;
      var steps := RestoreSteps(target);
      if steps == Failure(Interrupt) { return true; }
      if steps.Failure? {
        keepStage := true;
        Add(Kept(target));
      }
      return false;
    }

    /** What restoring a target without disturbance relies on. */
    ghost predicate CanRestore(target: Path)
      reads this, fs`files
    {
      Fresh(Journal(), fs.files) && (Blocked(Journal(), target) || TargetReady(Journal(), fs.files, target))
    }

    method RestoreSteps(target: Path) returns (r: Result<(), Raised>)
      requires fs.Valid() && Tidy() && target.Public?
      requires AllRetained()
      modifies this`errors, this`keepStage, this`retainedCount, this`stageCount, fs
      ensures fs.Valid() && (old(keepStage) ==> keepStage)
      ensures r.Success? ==> Tidy()
      ensures r.Failure? ==> r.error == Interrupt || r.error == OsError
      ensures fs.interrupts.After(old(fs.interrupts), r == Failure(Interrupt), Inside)
      ensures retainedCount >= old(retainedCount) && stageCount >= old(stageCount)
      ensures fs.Quiet() && old(fs.faults) == 0 ==>
        fs.faults == 0 && fs.failed == old(fs.failed) && r != Failure(OsError)
      ensures fs.Quiet() && old(fs.faults) == 0 && r.Success? && old(CanRestore(target)) ==>
        && keepStage == old(keepStage)
        && errors == old(errors) + (if Blocked(old(Journal()), target) then [Kept(target)] else [])
        && fs.files == RestoredFiles(old(Journal()), old(fs.files), target)
        && (target in mutated && !Blocked(old(Journal()), target) ==> retainedCount > old(retainedCount))
    {
      hide FileSystem.Loose, FileSystem.Valid;
      if target in preserve { Add(Kept(target)); return Success(()); }
      if target !in mutated {
        if target in expectations {
          var same := Matches(target, expectations[target]);
          if same.Failure? { return Failure(same.error); }
          if !same.value { Add(Kept(target)); }
        }
        return Success(());
      }
      r := RestoreReplaced(target);
    }

    /** Put a replaced target's original back. */
    method RestoreReplaced(target: Path) returns (r: Result<(), Raised>)
      requires fs.Valid() && Tidy() && target.Public? && target !in preserve && target in mutated
      requires AllRetained()
      modifies this`errors, this`keepStage, this`retainedCount, this`stageCount, fs
      ensures fs.Valid() && (old(keepStage) ==> keepStage)
      ensures r.Success? ==> Tidy()
      ensures r.Failure? ==> r.error == Interrupt || r.error == OsError
      ensures fs.interrupts.After(old(fs.interrupts), r == Failure(Interrupt), Inside)
      ensures retainedCount >= old(retainedCount) && stageCount >= old(stageCount)
      ensures fs.Quiet() && old(fs.faults) == 0 ==>
        fs.faults == 0 && fs.failed == old(fs.failed) && r != Failure(OsError)
      ensures fs.Quiet() && old(fs.faults) == 0 && r.Success? && target !in preimages ==>
        fs.files == old(fs.files) && errors == old(errors) + [Kept(target)] && keepStage == old(keepStage)
      ensures fs.Quiet() && old(fs.faults) == 0 && r.Success? && old(CanRestore(target)) && target in preimages ==>
        && errors == old(errors) && keepStage == old(keepStage) && retainedCount > old(retainedCount)
        && fs.files == RestoredFiles(old(Journal()), old(fs.files), target)
    {
      hide FileSystem.Loose, FileSystem.Valid, FileSystem.PrivateElsewhere, FileSystem.StaysSealed;
      if target !in expectations || target !in originals { Add(Kept(target)); return Success(()); }
      var available := PreimageAvailable(target);
      if available.Failure? { return Failure(available.error); }
      if !available.value { Add(Kept(target)); return Success(()); }
      var quarantine := Stage(stageCount);
      stageCount := stageCount + 1;
      var held := Quarantine(target, quarantine);
      if held.Failure? { return Failure(Interrupt); }
      if !held.value { return Success(()); }
      r := PutBack(target, quarantine);
    }

    // ------------------------------------------------------------- archives

    method RestoreArchive(a: Archived) returns (interrupted: bool)
      requires fs.Valid() && Tidy() && a.source.Public? && a.archive.Public?
      modifies this`errors, fs
      ensures fs.Valid() && Tidy()
      ensures fs.interrupts.After(old(fs.interrupts), interrupted, Inside)
      ensures fs.Quiet() && old(fs.faults) == 0 ==> fs.faults == 0 && fs.failed == old(fs.failed)
      ensures fs.Quiet() && old(fs.faults) == 0 && !interrupted
              && a.source !in old(fs.files) && At(old(fs.files), a.archive) == Some(a.preimage) ==>
        fs.files == Moved(old(fs.files), a.archive, a.source) && errors == old(errors)
    {
      hide FileSystem.Loose, FileSystem.Valid;
      interrupted := false;
      var present := fs.Exists(a.source);
      if present { Add(Kept(a.source)); return; }
      var observed := fs.Inspect(a.archive);
      if observed == Failure(Interrupt) { return true; }
      if observed != Success(Some(a.preimage)) { Add(Kept(a.source)); return; }
      var s := fs.Rename(a.archive, a.source);
      if s == Interrupted { return true; }
      if s != Done { Add(Kept(a.source)); return; }
      var restored := fs.Inspect(a.source);
      if restored == Failure(Interrupt) { return true; }
      if restored != Success(Some(a.preimage)) { Add(Kept(a.source)); }
    }

    // --------------------------------------------------------------- rollback

    /** Classify every mutation an interrupt may have cut short. */
    method Reconcile(ghost origin: Files) returns (r: Result<(), Raised>)
      requires fs.Valid() && Tidy()
      requires AllRetained()
      modifies this`expectations, this`pending, this`mutated, this`preimages, this`preserve, this`originals
      modifies fs`files, fs`exposed, fs`serial, fs`interrupts, fs`faults, fs`failed
      ensures fs.Valid() && Tidy()
      ensures r.Failure? ==> r.error == Interrupt || r.error == OsError
      ensures Later(old(fs.interrupts), fs.interrupts)
      ensures r == Failure(Interrupt) ==> fs.interrupts.left < old(fs.interrupts).left
      ensures AllRetained()
      ensures fs.Quiet() ==> fs.files == old(fs.files)
      ensures fs.Quiet() && old(fs.faults) == 0 ==>
        fs.faults == 0 && fs.failed == old(fs.failed) && r != Failure(OsError)
      ensures fs.Quiet() && old(fs.faults) == 0 && r.Success? && old(Journaled(Journal(), origin, fs.files)) ==>
        && Journaled(Journal(), origin, fs.files) && pending.Keys <= preserve
        && forall u :: Blocked(Journal(), u) == old(Blocked(Journal(), u))
    {
      hide FileSystem.Loose, FileSystem.Valid, FileSystem.PrivateElsewhere, Journaled, Reconciled, Blocked, AllRetained;
      ghost var before, start := fs.files, Journal();
      ghost var quiet := fs.Quiet() && fs.faults == 0 && Journaled(Journal(), origin, before);
      var todo := pending.Keys;
      while todo != {}
        invariant fs.Valid() && Tidy() && Later(old(fs.interrupts), fs.interrupts)
        invariant todo <= pending.Keys
        invariant AllRetained()
        invariant fs.Quiet() ==> fs.files == before
        invariant fs.Quiet() && old(fs.faults) == 0 ==> fs.faults == 0 && fs.failed == old(fs.failed)
        invariant quiet ==> Journaled(Journal(), origin, before) && pending.Keys <= todo + preserve
        invariant quiet ==> forall u :: Blocked(Journal(), u) == Blocked(start, u)
      {
        var t :| t in todo;
        todo := todo - {t};
        if t !in preserve {
          if quiet { ReconcileKeepsJournal(Journal(), origin, before, t); }
          r := ReconcileOne(t);
          if r.Failure? { return; }
        }
      }
      return Success(());
    }

    /** Restore every archived source, newest first. */
    method RestoreArchives(ghost origin: Files) returns (interrupted: bool)
      requires fs.Valid() && Tidy()
      requires forall a | a in archives :: a.source.Public? && a.archive.Public?
      modifies this`errors, fs
      ensures fs.Valid() && Tidy()
      ensures Later(old(fs.interrupts), fs.interrupts) && (interrupted ==> fs.interrupts.left < old(fs.interrupts).left)
      ensures fs.Quiet() && old(fs.faults) == 0 ==> fs.faults == 0 && fs.failed == old(fs.failed)
      ensures fs.Quiet() && old(fs.faults) == 0 && !interrupted && old(Journaled(Journal(), origin, fs.files)) ==>
        ArchivesBack(Journal(), origin, old(fs.files), fs.files, 0) && errors == old(errors)
    {
      hide FileSystem.Loose, FileSystem.Valid, Journaled;
      ghost var before := fs.files;
      ghost var quiet := fs.Quiet() && fs.faults == 0 && Journaled(Journal(), origin, before);
      var i := |archives|;
      if quiet { ArchivesStart(Journal(), origin, before); }
      while i > 0
        invariant 0 <= i <= |archives|
        invariant fs.Valid() && Tidy() && Later(old(fs.interrupts), fs.interrupts)
        invariant fs.Quiet() && old(fs.faults) == 0 ==> fs.faults == 0 && fs.failed == old(fs.failed)
        invariant quiet ==> ArchivesBack(Journal(), origin, before, fs.files, i) && errors == old(errors)
      {
        i := i - 1;
        assert archives[i] in archives;
        ghost var f := fs.files;
        if quiet { ArchiveWaiting(Journal(), origin, before, f, i); }
        interrupted := RestoreArchive(archives[i]);
        if interrupted { return; }
        if quiet { ArchiveStep(Journal(), origin, before, f, i); }
      }
      return false;
    }

    /** Restore every snapshot target, newest first. */
    method RestoreTargets(ghost origin: Files) returns (interrupted: bool)
      requires fs.Valid() && Tidy() && AllRetained()
      requires forall t | t in snapshots :: t.Public?
      modifies this`errors, this`keepStage, this`retainedCount, this`stageCount, fs
      ensures fs.Valid() && (!interrupted ==> Tidy())
      ensures Later(old(fs.interrupts), fs.interrupts) && (interrupted ==> fs.interrupts.left < old(fs.interrupts).left)
      ensures fs.Quiet() && old(fs.faults) == 0 ==> fs.faults == 0 && fs.failed == old(fs.failed)
      ensures fs.Quiet() && old(fs.faults) == 0 && !interrupted
              && old(TargetsBack(Journal(), origin, fs.files, |snapshots|)) ==>
        && TargetsHome(snapshots, origin, fs.files)
        && errors == old(errors) + Reports(old(Journal()), 0) && keepStage == old(keepStage)
        && forall p: Path | p.Public? && p !in snapshots :: At(fs.files, p) == At(old(fs.files), p)
    {
      hide FileSystem.Loose, FileSystem.Valid, TargetsBack, Blocked;
      ghost var before, start := fs.files, Journal();
      ghost var quiet := fs.Quiet() && fs.faults == 0 && TargetsBack(Journal(), origin, before, |snapshots|);
      var i := |snapshots|;
      while i > 0
        invariant 0 <= i <= |snapshots|
        invariant fs.Valid() && Tidy() && Later(old(fs.interrupts), fs.interrupts)
        invariant fs.Quiet() && old(fs.faults) == 0 ==> fs.faults == 0 && fs.failed == old(fs.failed)
        invariant quiet ==> TargetsBack(Journal(), origin, fs.files, i) && keepStage == old(keepStage)
        invariant quiet ==> errors == old(errors) + Reports(start, i)
        invariant quiet ==> forall p: Path | p.Public? && p !in snapshots :: At(fs.files, p) == At(before, p)
        invariant Journal() == start.(retainedCount := retainedCount, stageCount := stageCount)
      {
        i := i - 1;
        assert snapshots[i] in snapshots;
        ghost var l, f := Journal(), fs.files;
        if quiet { TargetWaiting(l, origin, f, i); }
        interrupted := RestoreTarget(snapshots[i]);
        if interrupted { return; }
        if quiet {
          TargetStep(l, Journal(), origin, f, i);
          ReportsStep(start, l, i);
        }
      }
      if quiet { AllHome(Journal(), origin, fs.files); }
      return false;
    }

    /** Reconcile; when the journal cannot be read, say so and go on. */
    method ReconcileOrReport(ghost origin: Files) returns (interrupted: bool)
      requires fs.Valid() && Tidy() && AllRetained()
      modifies this`expectations, this`pending, this`mutated, this`preimages, this`preserve, this`originals
      modifies this`errors, this`keepStage, fs`files, fs`exposed, fs`serial, fs`interrupts, fs`faults, fs`failed
      ensures fs.Valid() && Tidy() && AllRetained()
      ensures Later(old(fs.interrupts), fs.interrupts) && (interrupted ==> fs.interrupts.left < old(fs.interrupts).left)
      ensures fs.Quiet() && old(fs.faults) == 0 ==> fs.faults == 0 && fs.failed == old(fs.failed)
      ensures fs.Quiet() && old(fs.faults) == 0 && !interrupted && old(Journaled(Journal(), origin, fs.files)) ==>
        && fs.files == old(fs.files) && errors == old(errors) && keepStage == old(keepStage)
        && Journaled(Journal(), origin, fs.files) && pending.Keys <= preserve
        && Reports(Journal(), 0) == Reports(old(Journal()), 0)
    {
      hide FileSystem.Loose, FileSystem.Valid, Journaled, Blocked, Reports;
      ghost var start := Journal();
      var reconciled := Reconcile(origin);
      if reconciled == Failure(Interrupt) { return true; }
      if reconciled.Failure? {
        keepStage := true;
        Add(Unread);
      } else if fs.Quiet() && old(fs.faults) == 0 && old(Journaled(Journal(), origin, fs.files)) {
        ReportsAlike(start, Journal(), 0);
      }
      return false;
    }

    /**
     Undo everything: reconcile, restore the archives, restore the targets, remove
     the transaction's own directory.  It ends interrupted, or with `errors` naming
     what had to be preserved instead of restored.
     */
    method Rollback(ghost origin: Files) returns (interrupted: bool)
      requires fs.Valid() && Tidy() && AllRetained()
      requires forall t | t in snapshots :: t.Public?
      requires forall a | a in archives :: a.source.Public? && a.archive.Public?
      modifies this, fs
      ensures fs.Valid()
      ensures Later(old(fs.interrupts), fs.interrupts) && (interrupted ==> fs.interrupts.left < old(fs.interrupts).left)
      ensures fs.Quiet() && old(fs.faults) == 0 && !interrupted
              && old(Journaled(Journal(), origin, fs.files)) && !old(keepStage) ==>
        && PubliclyEqual(fs.files, origin) && errors == old(errors) + Reports(old(Journal()), 0)
        && fs.failed == old(fs.failed) && Swept(fs.files)
    {
      hide FileSystem.Loose, FileSystem.Valid, Journaled, Blocked, Reports;
      ghost var quiet := fs.Quiet() && fs.faults == 0 && Journaled(Journal(), origin, fs.files) && !keepStage;
      interrupted := ReconcileOrReport(origin);
      if interrupted { return; }
      ghost var f := fs.files;
      interrupted := RestoreArchives(origin);
      if interrupted { return; }
      ghost var g := fs.files;
      ghost var l := Journal();
      if quiet { ArchivesThenTargets(l, origin, f, g); }
      interrupted := RestoreTargets(origin);
      if interrupted { return; }
      if quiet { EverythingHome(l, origin, f, g, fs.files); }
      if !keepStage { fs.DiscardStage(); }
      return false;
    }
  }

  /** What restoring the targets from number `n` on reports, newest first. */
  function Reports(l: Log, n: nat): seq<Report>
    decreases |l.snapshots| - n
  {
    if n >= |l.snapshots| then []
    else Reports(l, n + 1) + if Blocked(l, l.snapshots[n]) then [Kept(l.snapshots[n])] else []
  }

  lemma ReportsStep(start: Log, l: Log, i: nat)
    requires i < |start.snapshots| && l == start.(retainedCount := l.retainedCount, stageCount := l.stageCount)
    ensures Reports(start, i) ==
      Reports(start, i + 1) + if Blocked(l, start.snapshots[i]) then [Kept(start.snapshots[i])] else []
  {
  }

  lemma {:induction false} ReportsAlike(l: Log, l': Log, n: nat)
    requires l'.snapshots == l.snapshots && forall u :: Blocked(l', u) == Blocked(l, u)
    ensures Reports(l', n) == Reports(l, n)
    decreases |l.snapshots| - n
  {
    hide Blocked;
    if n < |l.snapshots| { ReportsAlike(l, l', n + 1); }
  }

  /** With no blocked target nothing is reported; with one, that one is. */
  lemma {:induction false} ReportsOf(l: Log, n: nat, blocked: Option<Path>)
    requires Unique(l.snapshots)
    requires forall t | t in l.snapshots :: Blocked(l, t) <==> blocked == Some(t)
    ensures Reports(l, n) ==
      if blocked.Some? && blocked.value in l.snapshots[if n < |l.snapshots| then n else |l.snapshots|..]
      then [Kept(blocked.value)] else []
    decreases |l.snapshots| - n
  {
    hide Blocked;
    if n < |l.snapshots| {
      ReportsOf(l, n + 1, blocked);
      var rest := l.snapshots[n + 1..];
      assert l.snapshots[n..] == [l.snapshots[n]] + rest;
      assert l.snapshots[n] !in rest by {
        forall k | 0 <= k < |rest| ensures rest[k] != l.snapshots[n] { assert rest[k] == l.snapshots[n + 1 + k]; }
      }
    }
  }

  /** The transaction's own directory is gone. */
  ghost predicate Swept(f: Files) {
    forall p: Path | p.Stage? :: p !in f
  }

  /** The two agree on every public name. */
  ghost predicate PubliclyEqual(f: Files, g: Files) {
    forall p: Path | p.Public? :: At(f, p) == At(g, p)
  }

  lemma NotAnArchive(l: Log, origin: Files, f: Files, p: Path)
    requires Journaled(l, origin, f) && (!p.Public? || p in l.snapshots)
    ensures !IsArchiveName(l, p)
  {
    forall i | 0 <= i < |l.archives|
      ensures p != l.archives[i].source && p != l.archives[i].archive
    {
      assert ArchiveJournaled(l, origin, f, l.archives[i]);
    }
  }

  lemma ArchivesThenTargets(l: Log, origin: Files, f: Files, g: Files)
    requires Journaled(l, origin, f) && l.pending.Keys <= l.preserve && ArchivesBack(l, origin, f, g, 0)
    ensures TargetsBack(l, origin, g, |l.snapshots|)
  {
    hide Journaled;
    JournalParts(l, origin, f);
    forall p: Path | !p.Public? || p in l.snapshots
      ensures At(g, p) == At(f, p)
    {
      NotAnArchive(l, origin, f, p);
    }
    FreshAlike(l, f, g);
    forall i | 0 <= i < |l.snapshots|
      ensures Restorable(l, origin, g, l.snapshots[i])
    {
      assert l.snapshots[i] in l.snapshots;
      assert TargetJournaled(l, origin, f, l.snapshots[i]);
      ReadyAlike(l, origin, f, g, l.snapshots[i]);
    }
  }

  lemma JournalParts(l: Log, origin: Files, f: Files)
    requires Journaled(l, origin, f)
    ensures forall t | t in l.snapshots :: TargetJournaled(l, origin, f, t)
    ensures Unique(l.snapshots) && Fresh(l, f)
    ensures forall s, t | s in l.preimages && t in l.preimages && s != t :: l.preimages[s] != l.preimages[t]
  {
  }

  lemma FreshAlike(l: Log, f: Files, g: Files)
    requires Fresh(l, f) && forall p: Path | !p.Public? :: At(g, p) == At(f, p)
    ensures Fresh(l, g)
  {
    forall k: nat
      ensures (k >= l.stageCount ==> Stage(k) !in g) && (k >= l.retainedCount ==> Retained(k) !in g)
    {
      assert At(g, Stage(k)) == At(f, Stage(k)) && At(g, Retained(k)) == At(f, Retained(k));
    }
  }

  lemma ReadyAlike(l: Log, origin: Files, f: Files, g: Files, t: Path)
    requires Restorable(l, origin, f, t) && At(g, t) == At(f, t)
    requires t in l.mutated && t in l.preimages ==> At(g, l.preimages[t]) == At(f, l.preimages[t])
    ensures Restorable(l, origin, g, t)
  {
  }

  lemma EverythingHome(l: Log, origin: Files, f: Files, g: Files, h: Files)
    requires Journaled(l, origin, f) && ArchivesBack(l, origin, f, g, 0)
    requires TargetsHome(l.snapshots, origin, h)
    requires forall p: Path | p.Public? && p !in l.snapshots :: At(h, p) == At(g, p)
    ensures PubliclyEqual(h, origin)
  {
    forall p: Path | p.Public?
      ensures At(h, p) == At(origin, p)
    {
      if p !in l.snapshots && !IsArchiveName(l, p) {
        assert At(g, p) == At(f, p) == At(origin, p);
      }
    }
  }

  /** Archives from `n` on are back in place; earlier ones still wait; nothing else moved. */
  ghost predicate ArchivesBack(l: Log, origin: Files, f: Files, g: Files, n: nat) {
    && n <= |l.archives|
    && (forall i, k | 0 <= i < k < |l.archives| :: Apart(l.archives[i], l.archives[k]))
    && (forall i | 0 <= i < |l.archives| ::
          var a := l.archives[i];
          && a.source.Public? && a.archive.Public? && a.source != a.archive
          && At(origin, a.source) == Some(a.preimage) && a.archive !in origin
          && if i < n then a.source !in g && At(g, a.archive) == Some(a.preimage)
             else At(g, a.source) == Some(a.preimage) && a.archive !in g)
    && (forall p | !IsArchiveName(l, p) :: At(g, p) == At(f, p))
  }

  lemma ArchivesStart(l: Log, origin: Files, f: Files)
    requires Journaled(l, origin, f)
    ensures ArchivesBack(l, origin, f, f, |l.archives|)
  {
    forall i | 0 <= i < |l.archives|
      ensures ArchiveJournaled(l, origin, f, l.archives[i])
    {
      assert l.archives[i] in l.archives;
    }
  }

  lemma ArchiveWaiting(l: Log, origin: Files, f: Files, g: Files, i: nat)
    requires i < |l.archives| && ArchivesBack(l, origin, f, g, i + 1)
    ensures l.archives[i].source !in g && At(g, l.archives[i].archive) == Some(l.archives[i].preimage)
  {
  }

  lemma ArchiveStep(l: Log, origin: Files, f: Files, g: Files, i: nat)
    requires i < |l.archives| && ArchivesBack(l, origin, f, g, i + 1)
    ensures l.archives[i].archive in g
    ensures ArchivesBack(l, origin, f, Moved(g, l.archives[i].archive, l.archives[i].source), i)
  {
    var a := l.archives[i];
    var h := Moved(g, a.archive, a.source);
    forall p | !IsArchiveName(l, p)
      ensures At(h, p) == At(f, p)
    {
      assert p != a.source && p != a.archive;
    }
    forall k | 0 <= k < |l.archives| && k != i
      ensures At(h, l.archives[k].source) == At(g, l.archives[k].source)
      ensures At(h, l.archives[k].archive) == At(g, l.archives[k].archive)
    {
      assert k < i ==> Apart(l.archives[k], a);
      assert i < k ==> Apart(a, l.archives[k]);
    }
  }

  /** Targets from `n` on are as in `origin`; earlier ones are still as journaled. */
  ghost predicate TargetsBack(l: Log, origin: Files, f: Files, n: nat) {
    && n <= |l.snapshots| && Unique(l.snapshots)
    && (forall i | 0 <= i < n :: Restorable(l, origin, f, l.snapshots[i]))
    && (forall i | n <= i < |l.snapshots| ::
          l.snapshots[i].Public? && At(f, l.snapshots[i]) == At(origin, l.snapshots[i]))
    && (forall s, t | s in l.preimages && t in l.preimages && s != t :: l.preimages[s] != l.preimages[t])
    && Fresh(l, f)
  }

  ghost predicate TargetsHome(snapshots: seq<Path>, origin: Files, f: Files) {
    forall t | t in snapshots :: At(f, t) == At(origin, t)
  }

  lemma AllHome(l: Log, origin: Files, f: Files)
    requires TargetsBack(l, origin, f, 0)
    ensures TargetsHome(l.snapshots, origin, f)
  {
  }

  lemma TargetWaiting(l: Log, origin: Files, f: Files, i: nat)
    requires i < |l.snapshots| && TargetsBack(l, origin, f, i + 1)
    ensures Fresh(l, f) && (Blocked(l, l.snapshots[i]) || TargetReady(l, f, l.snapshots[i]))
  {
    assert Restorable(l, origin, f, l.snapshots[i]);
  }

  lemma TargetStep(l: Log, l': Log, origin: Files, f: Files, i: nat)
    requires i < |l.snapshots| && TargetsBack(l, origin, f, i + 1)
    requires l' == l.(retainedCount := l'.retainedCount, stageCount := l'.stageCount)
    requires l'.retainedCount >= l.retainedCount && l'.stageCount >= l.stageCount
    requires l.snapshots[i] in l.mutated && !Blocked(l, l.snapshots[i]) ==> l'.retainedCount > l.retainedCount
    ensures var g := RestoredFiles(l, f, l.snapshots[i]);
      TargetsBack(l', origin, g, i) && forall p: Path | p.Public? && p !in l.snapshots :: At(g, p) == At(f, p)
  {
    hide TargetReady, Blocked;
    var t := l.snapshots[i];
    var g := RestoredFiles(l, f, t);
    assert Restorable(l, origin, f, t);
    RestoredHome(l, origin, f, t);
    RestoredFresh(l, l', f, t);
    forall k | 0 <= k < |l.snapshots| && k != i
      ensures l.snapshots[k].Public? && At(g, l.snapshots[k]) == At(f, l.snapshots[k])
      ensures k < i ==> Restorable(l', origin, g, l.snapshots[k])
    {
      var u := l.snapshots[k];
      assert u != t by { if k < i { assert l.snapshots[k] != l.snapshots[i]; } }
      if k < i {
        assert Restorable(l, origin, f, u);
        RestoredOther(l, origin, f, t, u);
        CountsAside(l, l', origin, g, u);
      }
    }
  }

  lemma RestoredHome(l: Log, origin: Files, f: Files, t: Path)
    requires Restorable(l, origin, f, t) && Fresh(l, f)
    ensures var g := RestoredFiles(l, f, t);
      At(g, t) == At(origin, t) && forall p: Path | p.Public? && p != t :: At(g, p) == At(f, p)
  {
  }

  lemma RestoredFresh(l: Log, l': Log, f: Files, t: Path)
    requires Fresh(l, f) && t.Public?
    requires l' == l.(retainedCount := l'.retainedCount, stageCount := l'.stageCount)
    requires l'.retainedCount >= l.retainedCount && l'.stageCount >= l.stageCount
    requires t in l.mutated && !Blocked(l, t) ==> l'.retainedCount > l.retainedCount
    ensures Fresh(l', RestoredFiles(l, f, t))
  {
  }

  lemma RestoredOther(l: Log, origin: Files, f: Files, t: Path, u: Path)
    requires Restorable(l, origin, f, u) && u != t && t.Public? && Fresh(l, f)
    requires forall s, t | s in l.preimages && t in l.preimages && s != t :: l.preimages[s] != l.preimages[t]
    ensures Restorable(l, origin, RestoredFiles(l, f, t), u)
  {
  }

  lemma CountsAside(l: Log, l': Log, origin: Files, g: Files, u: Path)
    requires l' == l.(retainedCount := l'.retainedCount, stageCount := l'.stageCount)
    ensures Restorable(l', origin, g, u) == Restorable(l, origin, g, u)
  {
  }
}
