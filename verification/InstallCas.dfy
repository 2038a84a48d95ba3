/**
 Compare-and-swap activation of one install target (scripts/install.py,
 `_activate_staged_file_cas` and `copytree_replace_cas`).
 */
module InstallCas {
  import opened Wrappers
  import opened InstallFiles

  /** The names one activation works with. */
  datatype Names = Names(target: Path, staged: Path, displaced: Path, retained: Path) {
    predicate Distinct() {
      && target.Public? && staged.Beside? && displaced.Beside? && retained.Retained?
      && staged != displaced
    }

    function All(): set<Path> { {target, staged, displaced, retained} }
  }

  // ------------------------------------------------- the three places it can stop

  /** The target as it was, the staged copy gone. */
  function Untouched(f: Files, n: Names): Files { f - {n.staged} }

  /** The preimage moved aside, nothing in its place yet. */
  function Aside(f: Files, n: Names): Files
    requires n.target in f
  {
    Moved(f, n.target, n.displaced)
  }

  /** The staged object in place, the preimage still beside it. */
  function Swapped(f: Files, n: Names): Files
    requires n.Distinct() && n.staged in f
  {
    if n.target in f then Moved(Aside(f, n), n.staged, n.target) else Moved(f, n.staged, n.target)
  }

  /** The staged object in place and the preimage, if there was one, retained. */
  function Activated(f: Files, n: Names): Files
    requires n.staged in f
  {
    var installed := (f - {n.staged})[n.target := f[n.staged]];
    if n.target in f then installed[n.retained := f[n.target]] else installed
  }

  lemma AsideThenBack(f: Files, n: Names)
    requires n.Distinct() && n.target in f && n.displaced !in f
    ensures Moved(Aside(f, n), n.displaced, n.target) == f
  {
    var g := Moved(Aside(f, n), n.displaced, n.target);
    assert g.Keys == f.Keys;
  }

  lemma SwappedThenRetained(f: Files, n: Names)
    requires n.Distinct() && n.staged in f && n.displaced !in f && n.retained !in f
    ensures n.target in f ==>
      n.displaced in Swapped(f, n) && Moved(Swapped(f, n), n.displaced, n.retained) == Activated(f, n)
    ensures n.target !in f ==> Swapped(f, n) == Activated(f, n)
  {
    if n.target in f {
      var g := Moved(Swapped(f, n), n.displaced, n.retained);
      assert g.Keys == Activated(f, n).Keys;
    }
  }

  /** What a caller sets up: fresh private names and a staged copy nobody has seen. */
  ghost predicate Prepared(fs: FileSystem, n: Names)
    reads fs
  {
    && fs.Valid() && n.Distinct()
    && n.staged in fs.files && fs.files[n.staged].id in fs.sealed
    && n.displaced !in fs.files && n.retained !in fs.files
  }

  /** The staged name holds nothing but the installer's own copy. */
  ghost predicate StagedIsOwn(fs: FileSystem, n: Names)
    reads fs
  {
    n.staged in fs.files ==> fs.files[n.staged].id in fs.sealed
  }

  ghost predicate SealedElsewhere(f: Files, s: set<nat>, g: Files, t: set<nat>, except: set<Path>) {
    forall p: Path | !p.Public? && p !in except && p in g && p in f && f[p].id in s :: g[p].id in t
  }

  /** Restore a displaced object, or retain it when the target was recreated. */
  method RestoreOrRetain(fs: FileSystem, displaced: Path, target: Path, retained: Path, owner: Option<Path> := None)
    returns (stuck: Result<bool, Raised>)
    requires displaced != target && displaced != retained && target != retained
    modifies fs
    ensures old(fs.Valid()) ==> fs.Valid()
    ensures fs.touched <= old(fs.touched) + {displaced, target, retained}
    ensures stuck.Failure? ==> stuck.error == Interrupt
    ensures fs.interrupts.After(old(fs.interrupts), stuck.Failure?, Inside)
    ensures fs.Quiet() ==> fs.faults <= old(fs.faults)
    ensures fs.Quiet() && old(fs.faults) == 0 ==> fs.failed == old(fs.failed)
    ensures old(fs.Valid()) ==> fs.PrivateElsewhere(old(fs.files), fs.files, {displaced, target, retained})
    ensures old(fs.Valid()) && !target.Stage? && !retained.Stage? ==> fs.Loose() <= old(fs.Loose())
    ensures old(fs.Valid()) ==> SealedElsewhere(old(fs.files), old(fs.sealed), fs.files, fs.sealed, {target, retained})
    ensures old(fs.Valid()) && !displaced.Public? && stuck == Success(false) ==> displaced !in fs.files
    ensures fs.Quiet() && old(fs.faults) == 0 && displaced in old(fs.files) && target !in old(fs.files) ==>
      (stuck == Success(false) && fs.files == Moved(old(fs.files), displaced, target))
      || (stuck.Failure? && (fs.files == old(fs.files) || fs.files == Moved(old(fs.files), displaced, target)))
    ensures fs.Quiet() && old(fs.faults) == 0
            && displaced in old(fs.files) && target in old(fs.files) && retained !in old(fs.files) ==>
      (stuck == Success(false) && fs.files == Moved(old(fs.files), displaced, retained))
      || (stuck.Failure? && (fs.files == old(fs.files) || fs.files == Moved(old(fs.files), displaced, retained)))
  {
    hide FileSystem.Loose, FileSystem.Valid;
    var s := fs.Rename(displaced, target, owner);
    if s == Interrupted { return Failure(Interrupt); }
    if s == Done { return Success(false); }
    s := fs.Rename(displaced, retained, owner);
    if s == Interrupted { return Failure(Interrupt); }
    return Success(s != Done);
  }

  /** Success means the preimage is kept: the very object, and unless somebody wrote
      through a handle they already held, exactly as expected. */
  ghost predicate PreimageKept(fs: FileSystem, n: Names, expected: Option<Obj>)
    reads fs
  {
    expected.Some? ==>
      && n.retained in fs.files && fs.files[n.retained].id == expected.value.id
      && (!fs.handles ==> fs.files[n.retained] == expected.value)
  }

  /** The activation is undisturbed so far, and at most one disturbance is to come: any
      one when the target is as expected, an interrupt when it is not. */
  ghost predicate Single(fs: FileSystem, f: Files, n: Names, expected: Option<Obj>)
    reads fs`interrupts, fs`faults
  {
    fs.Quiet() && fs.Left() <= 1 && (At(f, n.target) == expected || fs.faults == 0)
  }

  /** Which failing steps a file activation reports as a detected change.  Reading the
      displaced object counts the installer's own refusals too, as long as nothing is in
      its place. */
  predicate Detects(step: Step, target: Path) {
    match step
    case Renaming(src, dst, _) => src == target || dst == target
    case Writing(_, _) => false
    case Reading(p, error, files, _) => error == Drift || (error == Refused && target !in files)
  }

  /** The body of the activation, up to its clean-up. */
  method Attempt(fs: FileSystem, n: Names, expected: Option<Obj>, tree: bool)
    returns (r: Result<Option<Obj>, Raised>, moved: bool)
    requires Prepared(fs, n)
    modifies fs
    ensures fs.Valid() && StagedIsOwn(fs, n)
    ensures fs.touched <= old(fs.touched) + n.All()
    ensures fs.PrivateElsewhere(old(fs.files), fs.files, n.All()) && fs.Loose() <= old(fs.Loose())
    ensures r.Success? ==> !moved && PreimageKept(fs, n, expected)
    ensures fs.interrupts.After(old(fs.interrupts), r == Failure(Interrupt), Inside)
    ensures old(Single(fs, fs.files, n, expected)) ==>
      && AttemptLeaves(old(fs.files), fs.files, n, expected, r, moved)
      && AttemptTold(old(fs.Left()), old(fs.failed), fs, n, At(old(fs.files), n.target) == expected, r, tree)
  {
    hide FileSystem.Loose, FileSystem.Valid;
    ghost var before, single := fs.files, Single(fs, fs.files, n, expected);
    var s := fs.Rename(n.target, n.displaced, Some(n.target));
    match s {
      case Done => moved := true;
      case Missing => moved := false;
      case Interrupted =>
        moved := fs.Exists(n.displaced);
        return Failure(Interrupt), moved;
      case _ => return Failure(Drift), false;
    }
    if moved {
      r, moved := CheckDisplaced(fs, n, expected, before, single);
      if r.Failure? { return; }
    } else if expected.Some? {
      return Failure(Drift), false;
    }
    r, moved := Swap(fs, n, expected, tree, moved, before, single);
  }

  /** How an attempt disturbed at most once can end. */
  ghost predicate AttemptLeaves(f: Files, g: Files, n: Names, expected: Option<Obj>, r: Result<Option<Obj>, Raised>,
      moved: bool)
    requires n.Distinct() && n.staged in f
  {
    match r
    case Success(post) => At(f, n.target) == expected && g == Activated(f, n) && post == At(g, n.target) && !moved
    case Failure(Interrupt) =>
      || g == f
      || (n.target in f && g == Aside(f, n) && moved)
      || (At(f, n.target) == expected && g == Swapped(f, n) && moved == (n.target in f))
      || (At(f, n.target) == expected && g == Activated(f, n))
    case Failure(error) =>
      if At(f, n.target) != expected then g == f && error == Drift && !moved
      else
        || (g == f && !moved)
        || (n.target in f && g == Aside(f, n) && moved)
        || (g == Swapped(f, n) && moved == (n.target in f))
  }

  /** What an attempt spent, and what it raised for the step that failed. */
  ghost predicate AttemptTold(left: nat, failed: Option<Step>, fs: FileSystem, n: Names, expected: bool,
      r: Result<Option<Obj>, Raised>, tree: bool)
    reads fs`interrupts, fs`faults, fs`failed
  {
    match r
    case Success(_) => fs.Left() == left && fs.failed == failed
    case Failure(Interrupt) => fs.Left() == left - 1 && fs.failed == failed
    case Failure(error) =>
      expected ==> fs.Left() == left - 1 && fs.failed.Some? && fs.failed.value.owner == Some(n.target)
                   && !fs.failed.value.Writing? && (!tree ==> (error == Drift <==> Detects(fs.failed.value, n.target)))
  }

  /** Compare what was moved aside with the expected preimage; anything else goes back. */
  method CheckDisplaced(fs: FileSystem, n: Names, expected: Option<Obj>, ghost before: Files, ghost single: bool)
    returns (r: Result<Option<Obj>, Raised>, moved: bool)
    requires fs.Valid() && n.Distinct() && StagedIsOwn(fs, n)
    requires n.staged in before && n.displaced !in before && n.retained !in before && n.displaced in fs.files
    requires single ==> Single(fs, before, n, expected) && n.target in before && fs.files == Aside(before, n)
    modifies fs
    ensures fs.Valid() && StagedIsOwn(fs, n)
    ensures fs.touched <= old(fs.touched) + n.All()
    ensures fs.PrivateElsewhere(old(fs.files), fs.files, n.All()) && fs.Loose() <= old(fs.Loose())
    ensures r.Success? ==>
      moved && expected.Some? && n.displaced in fs.files && fs.files[n.displaced].id == expected.value.id
    ensures fs.interrupts.After(old(fs.interrupts), r == Failure(Interrupt), Inside)
    ensures single ==>
      && (r.Success? ==> At(before, n.target) == expected && fs.files == old(fs.files)
                         && fs.Left() == old(fs.Left()) && fs.failed == old(fs.failed))
      && (r.Failure? ==>
            && AttemptLeaves(before, fs.files, n, expected, r, moved)
            && AttemptTold(old(fs.Left()), old(fs.failed), fs, n, At(before, n.target) == expected, r, false))
  {
    hide FileSystem.Loose, FileSystem.Valid;
    var observed := fs.Inspect(n.displaced, Some(n.target));
    if observed == Failure(Interrupt) { return Failure(Interrupt), true; }
    if observed == Failure(OsError) { return Failure(OsError), true; }
    if expected.None? || observed != Success(expected) {
      if fs.Quiet() && n.target in before { AsideThenBack(before, n); }
      var stuck := RestoreOrRetain(fs, n.displaced, n.target, n.retained, Some(n.target));
      if stuck.Failure? { return Failure(Interrupt), true; }
      return Failure(Drift), stuck.value;
    }
    return Success(expected), true;
  }

  /** Second half: put the staged object in place, recheck and retain the preimage. */
  method Swap(fs: FileSystem, n: Names, expected: Option<Obj>, tree: bool, wasMoved: bool, ghost before: Files,
      ghost single: bool)
    returns (r: Result<Option<Obj>, Raised>, moved: bool)
    requires fs.Valid() && n.Distinct() && StagedIsOwn(fs, n)
    requires wasMoved == expected.Some?
    requires n.staged in before && n.displaced !in before && n.retained !in before
    requires wasMoved ==> n.displaced in fs.files && fs.files[n.displaced].id == expected.value.id
    requires single ==>
      && Single(fs, before, n, expected)
      && At(before, n.target) == expected && fs.files == if wasMoved then Aside(before, n) else before
    modifies fs
    ensures fs.Valid() && StagedIsOwn(fs, n)
    ensures fs.touched <= old(fs.touched) + n.All()
    ensures fs.PrivateElsewhere(old(fs.files), fs.files, n.All()) && fs.Loose() <= old(fs.Loose())
    ensures r.Success? ==> !moved && PreimageKept(fs, n, expected)
    ensures fs.interrupts.After(old(fs.interrupts), r == Failure(Interrupt), Inside)
    ensures single ==>
      && AttemptLeaves(before, fs.files, n, expected, r, moved)
      && AttemptTold(old(fs.Left()), old(fs.failed), fs, n, true, r, tree)
  {
    hide FileSystem.Loose, FileSystem.Valid;
    moved := wasMoved;
    SwappedThenRetained(before, n);
    var s := fs.Rename(n.staged, n.target, Some(n.target));
    if s == Interrupted { return Failure(Interrupt), moved; }
    if s != Done {
      if tree { return Failure(OsError), moved; }
      moved, s := GiveBack(fs, n, moved, before, single);
      return Failure(if s == Interrupted then Interrupt else Drift), moved;
    }
    r, moved := ReadBack(fs, n, expected, wasMoved, before, single);
  }

  /** Put the displaced object back after its replacement could not be put in place. */
  method GiveBack(fs: FileSystem, n: Names, wasMoved: bool, ghost before: Files, ghost single: bool)
    returns (moved: bool, s: Status)
    requires fs.Valid() && n.Distinct() && StagedIsOwn(fs, n) && n.displaced !in before
    requires single ==>
      && fs.Quiet() && fs.Left() == 0 && (wasMoved ==> n.target in before)
      && fs.files == if wasMoved then Aside(before, n) else before
    modifies fs
    ensures fs.Valid() && StagedIsOwn(fs, n)
    ensures fs.touched <= old(fs.touched) + n.All()
    ensures fs.PrivateElsewhere(old(fs.files), fs.files, n.All()) && fs.Loose() <= old(fs.Loose())
    ensures fs.interrupts.After(old(fs.interrupts), s == Interrupted, Inside)
    ensures single ==> !moved && s == Done && fs.files == before && fs.Left() == 0 && fs.failed == old(fs.failed)
  {
    hide FileSystem.Loose, FileSystem.Valid;
    moved := wasMoved;
    if moved {
      var present := fs.Exists(n.displaced);
      if present {
        if single { AsideThenBack(before, n); }
        var stuck := RestoreOrRetain(fs, n.displaced, n.target, n.retained, Some(n.target));
        if stuck.Failure? { return moved, Interrupted; }
        moved := stuck.value;
      }
    }
    return moved, Done;
  }

  /** Read the new object back, and keep the preimage. */
  method ReadBack(fs: FileSystem, n: Names, expected: Option<Obj>, wasMoved: bool, ghost before: Files,
      ghost single: bool)
    returns (r: Result<Option<Obj>, Raised>, moved: bool)
    requires fs.Valid() && n.Distinct() && StagedIsOwn(fs, n) && wasMoved == expected.Some?
    requires n.staged in before && n.displaced !in before && n.retained !in before
    requires wasMoved ==> n.displaced in fs.files && fs.files[n.displaced].id == expected.value.id
    requires single ==>
      Single(fs, before, n, expected) && At(before, n.target) == expected && fs.files == Swapped(before, n)
    modifies fs
    ensures fs.Valid() && StagedIsOwn(fs, n)
    ensures fs.touched <= old(fs.touched) + n.All()
    ensures fs.PrivateElsewhere(old(fs.files), fs.files, n.All()) && fs.Loose() <= old(fs.Loose())
    ensures r.Success? ==> !moved && PreimageKept(fs, n, expected)
    ensures fs.interrupts.After(old(fs.interrupts), r == Failure(Interrupt), Inside)
    ensures single ==>
      && AttemptLeaves(before, fs.files, n, expected, r, moved)
      && AttemptTold(old(fs.Left()), old(fs.failed), fs, n, true, r, false)
  {
    hide FileSystem.Loose, FileSystem.Valid;
    moved := wasMoved;
    SwappedThenRetained(before, n);
    var post := fs.Inspect(n.target, Some(n.target));
    if post.Failure? { return Failure(post.error), moved; }
    if moved {
      var kept := KeepPreimage(fs, n, expected.value);
      match kept
      case Success(_) => return Success(post.value), false;
      case Failure(why) => return Failure(why.0), why.1;
    }
    return Success(post.value), false;
  }

  /** Recheck the displaced preimage and retain it; on failure also report whether it is still displaced. */
  method KeepPreimage(fs: FileSystem, n: Names, expected: Obj) returns (r: Result<(), (Raised, bool)>)
    requires fs.Valid() && n.Distinct()
    requires n.displaced in fs.files && fs.files[n.displaced].id == expected.id
    modifies fs
    ensures fs.Valid()
    ensures old(StagedIsOwn(fs, n)) ==> StagedIsOwn(fs, n)
    ensures fs.touched <= old(fs.touched) + n.All()
    ensures fs.PrivateElsewhere(old(fs.files), fs.files, n.All()) && fs.Loose() <= old(fs.Loose())
    ensures r.Success? ==> PreimageKept(fs, n, Some(expected))
    ensures fs.interrupts.After(old(fs.interrupts), r.Failure? && r.error.0 == Interrupt, Inside)
    ensures fs.Quiet() && n.retained !in old(fs.files) && old(fs.files)[n.displaced] == expected ==>
      match r
      case Success(_) =>
        && fs.files == Moved(old(fs.files), n.displaced, n.retained)
        && fs.Left() == old(fs.Left()) && fs.failed == old(fs.failed)
      case Failure(why) =>
        && why.1 && fs.Left() == old(fs.Left()) - 1
        && (fs.files != old(fs.files) ==>
              why.0 == Interrupt && fs.files == Moved(old(fs.files), n.displaced, n.retained))
        && match why.0
           case Interrupt => fs.failed == old(fs.failed)
           case error =>
             fs.failed == Some(Reading(n.displaced, error, old(fs.files), Some(n.target)))
             || (error == OsError && fs.failed == Some(Renaming(n.displaced, n.retained, Some(n.target))))
  {
    hide FileSystem.Loose, FileSystem.Valid;
    var again := fs.Inspect(n.displaced, Some(n.target));
    if again == Failure(Interrupt) { return Failure((Interrupt, true)); }
    if again.Failure? { return Failure((again.error, true)); }
    if again != Success(Some(expected)) {
      var s := fs.Rename(n.displaced, n.retained, Some(n.target));
      if s == Interrupted { return Failure((Interrupt, true)); }
      return Failure((Drift, s != Done));
    }
    var s := fs.Rename(n.displaced, n.retained, Some(n.target));
    if s == Interrupted { return Failure((Interrupt, true)); }
    if s != Done { return Failure((OsError, true)); }
    return Success(());
  }

  // -------------------------------------------------------------- clean-up

  /** The `finally` clause: discard an unused staged copy, put back what is still displaced. */
  method CleanUp(fs: FileSystem, n: Names, moved: bool) returns (interrupted: bool)
    requires fs.Valid() && n.Distinct() && StagedIsOwn(fs, n)
    modifies fs
    ensures fs.Valid()
    ensures fs.touched <= old(fs.touched) + n.All()
    ensures fs.PrivateElsewhere(old(fs.files), fs.files, n.All()) && fs.Loose() <= old(fs.Loose())
    ensures fs.interrupts.After(old(fs.interrupts), interrupted, Inside)
    ensures fs.Quiet() ==> fs.faults <= old(fs.faults)
    ensures fs.Quiet() && (old(fs.faults) == 0 || !moved) ==> fs.faults == old(fs.faults) && fs.failed == old(fs.failed)
    ensures n.retained in old(fs.files) && !(moved && n.displaced in old(fs.files)) ==>
      n.retained in fs.files && fs.files[n.retained].id == old(fs.files)[n.retained].id
      && (!fs.handles ==> fs.files[n.retained] == old(fs.files)[n.retained])
    ensures fs.Quiet() && (old(fs.faults) == 0 || !moved) ==> CleanedUp(old(fs.files), fs.files, n, moved, interrupted)
  {
    hide FileSystem.Loose, FileSystem.Valid;
    interrupted := false;
    var present := fs.Exists(n.staged);
    if present {
      interrupted := fs.Discard(n.staged);
      if interrupted { return; }
    }
    if moved {
      var displaced := fs.Exists(n.displaced);
      if displaced {
        var stuck := RestoreOrRetain(fs, n.displaced, n.target, n.retained, Some(n.target));
        interrupted := stuck.Failure?;
      }
    }
  }

  /** What clean-up leaves behind in a quiet world, uninterrupted. */
  ghost predicate CleanedUp(f: Files, g: Files, n: Names, moved: bool, interrupted: bool)
    requires n.Distinct()
  {
    var swept := f - {n.staged};
    && (!interrupted && !(moved && n.displaced in f) ==> g == swept)
    && (!interrupted && moved && n.displaced in f && n.target !in f ==> g == Moved(swept, n.displaced, n.target))
    && (!interrupted && moved && n.displaced in f && n.target in f && n.retained !in f ==>
          g == Moved(swept, n.displaced, n.retained))
    && (interrupted && !(moved && n.displaced in f) ==> g == f || g == swept)
  }

  /** Where one activation, disturbed at most once, can leave the files. */
  ghost predicate Ends(f: Files, g: Files, n: Names, expected: Option<Obj>, r: Result<Option<Obj>, Raised>)
    requires n.Distinct() && n.staged in f
  {
    match r
    case Success(post) => At(f, n.target) == expected && g == Activated(f, n) && post == At(g, n.target)
    case Failure(Interrupt) =>
      || g == f || g == Untouched(f, n)
      || (At(f, n.target) == expected && g == Activated(f, n))
    case Failure(error) =>
      if At(f, n.target) != expected then g == Untouched(f, n) && error == Drift
      else g == Untouched(f, n) || g == Activated(f, n)
  }

  /** What it spent, and that a failing step is reported as a detected change always for
      a tree, and for a file exactly when the step `Detects` one. */
  ghost predicate Told(left: nat, failed: Option<Step>, fs: FileSystem, target: Path, r: Result<Option<Obj>, Raised>,
      tree: bool)
    reads fs`interrupts, fs`faults, fs`failed
  {
    match r
    case Success(_) => fs.Left() == left && fs.failed == failed
    case Failure(Interrupt) => fs.Left() == left - 1 && fs.failed == failed
    case Failure(error) =>
      && fs.Left() == left - 1 && fs.failed.Some? && fs.failed.value.owner == Some(target)
      && (error == Drift <==> tree || Detects(fs.failed.value, target))
  }

  /** Activate a staged file over exactly the expected preimage. */
  method ActivateStagedFileCas(fs: FileSystem, n: Names, expected: Option<Obj>) returns (r: Result<Option<Obj>, Raised>)
    requires Prepared(fs, n)
    modifies fs
    ensures fs.Valid()
    ensures fs.touched <= old(fs.touched) + n.All()
    ensures fs.PrivateElsewhere(old(fs.files), fs.files, n.All()) && fs.Loose() <= old(fs.Loose())
    ensures r.Success? ==> PreimageKept(fs, n, expected)
    ensures NoGap(old(fs.interrupts), fs.interrupts)
    ensures r == Failure(Interrupt) ==> fs.interrupts.left < old(fs.interrupts).left
    ensures old(Single(fs, fs.files, n, expected)) ==>
      && Ends(old(fs.files), fs.files, n, expected, r)
      && (At(old(fs.files), n.target) == expected ==> Told(old(fs.Left()), old(fs.failed), fs, n.target, r, false))
  {
    hide FileSystem.Loose, FileSystem.Valid;
    ghost var before := fs.files;
    ghost var single := Single(fs, before, n, expected);
    var moved;
    r, moved := Attempt(fs, n, expected, false);
    Stops(before, fs.files, n, expected, r, moved, single);
    var interrupted := CleanUp(fs, n, moved);
    if interrupted { r := Failure(Interrupt); }
  }

  /** What a tree activation does on any failure: give the displaced tree back at once,
      and report a detected change. */
  method Withdraw(fs: FileSystem, n: Names, wasMoved: bool, ghost before: Files, ghost single: bool)
    returns (told: Raised, moved: bool)
    requires fs.Valid() && n.Distinct() && StagedIsOwn(fs, n)
    requires n.staged in before && n.displaced !in before && n.retained !in before
    requires single ==>
      && fs.Quiet() && fs.Left() == 0
      && (|| (fs.files == before && !wasMoved)
          || (n.target in before && fs.files == Aside(before, n) && wasMoved)
          || (fs.files == Swapped(before, n) && wasMoved == (n.target in before)))
    modifies fs
    ensures fs.Valid() && StagedIsOwn(fs, n)
    ensures fs.touched <= old(fs.touched) + n.All()
    ensures fs.PrivateElsewhere(old(fs.files), fs.files, n.All()) && fs.Loose() <= old(fs.Loose())
    ensures told == Drift || told == Interrupt
    ensures fs.interrupts.After(old(fs.interrupts), told == Interrupt, Inside)
    ensures !wasMoved ==> !moved && fs.files == old(fs.files) && told == Drift
    ensures single ==>
      && told == Drift && !moved && (fs.files == before || fs.files == Activated(before, n))
      && fs.Left() == 0 && fs.failed == old(fs.failed)
  {
    hide FileSystem.Loose, FileSystem.Valid;
    SwappedThenRetained(before, n);
    moved := wasMoved;
    if moved {
      var displaced := fs.Exists(n.displaced);
      if single && n.target in before { AsideThenBack(before, n); }
      if displaced {
        var stuck := RestoreOrRetain(fs, n.displaced, n.target, n.retained, Some(n.target));
        if stuck.Failure? { return Interrupt, moved; }
        moved := stuck.value;
      }
    }
    return Drift, moved;
  }

  /** Replace one installer-owned tree without erasing a raced one. */
  method CopytreeReplaceCas(fs: FileSystem, n: Names, expected: Option<Obj>) returns (r: Result<Option<Obj>, Raised>)
    requires Prepared(fs, n)
    modifies fs
    ensures fs.Valid()
    ensures fs.touched <= old(fs.touched) + n.All()
    ensures fs.PrivateElsewhere(old(fs.files), fs.files, n.All()) && fs.Loose() <= old(fs.Loose())
    ensures r.Success? ==> PreimageKept(fs, n, expected)
    ensures NoGap(old(fs.interrupts), fs.interrupts)
    ensures r == Failure(Interrupt) ==> fs.interrupts.left < old(fs.interrupts).left
    ensures r.Failure? ==> r.error == Interrupt || r.error == Drift
    ensures old(Single(fs, fs.files, n, expected)) ==>
      && Ends(old(fs.files), fs.files, n, expected, r)
      && (At(old(fs.files), n.target) == expected ==> Told(old(fs.Left()), old(fs.failed), fs, n.target, r, true))
  {
    hide FileSystem.Loose, FileSystem.Valid;
    ghost var before := fs.files;
    ghost var single := Single(fs, before, n, expected);
    var moved;
    r, moved := Attempt(fs, n, expected, true);
    Stops(before, fs.files, n, expected, r, moved, single);
    if r.Failure? && r.error != Interrupt {
      var told;
      told, moved := Withdraw(fs, n, moved, before, single && At(before, n.target) == expected);
      r := Failure(told);
    }
    var interrupted := CleanUp(fs, n, moved);
    if interrupted { r := Failure(Interrupt); }
  }

  /** Cleaning up after each place an attempt can stop ends untouched or activated. */
  lemma Stops(f: Files, g: Files, n: Names, expected: Option<Obj>, r: Result<Option<Obj>, Raised>, moved: bool,
      quiet: bool)
    requires n.Distinct() && n.staged in f && n.displaced !in f && n.retained !in f
    requires quiet ==> AttemptLeaves(f, g, n, expected, r, moved)
    ensures quiet && n.target in f && g == Aside(f, n) ==>
      n.displaced in g && n.target !in g && Moved(g - {n.staged}, n.displaced, n.target) == Untouched(f, n)
    ensures quiet && n.target in f && g == Swapped(f, n) ==>
      n.displaced in g && n.target in g && n.retained !in g && n.staged !in g
      && Moved(g - {n.staged}, n.displaced, n.retained) == Activated(f, n)
    ensures quiet && g == Activated(f, n) ==> n.staged !in g && n.displaced !in g && g - {n.staged} == g
    ensures quiet && n.target !in f ==> Swapped(f, n) == Activated(f, n)
  {
    SwappedThenRetained(f, n);
    if quiet && n.target in f && g == Aside(f, n) {
      var h := Moved(g - {n.staged}, n.displaced, n.target);
      assert h.Keys == Untouched(f, n).Keys;
    }
    if quiet && n.target in f && g == Swapped(f, n) {
      assert g - {n.staged} == g;
    }
  }
}
