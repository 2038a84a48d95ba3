/**
 The installer's view of the file system (scripts/install.py).

 A path holds one object, a file or a whole tree, with an identity and a payload.
 The only ways the installer changes anything are renaming without replacing and
 discarding its own staged copies.  Between any two of its steps others may act,
 and any step may be interrupted.
 */
module InstallFiles {
  import opened Wrappers

  /** Public names are anybody's.  The rest carry random names or lie in private
      directories: beside a target, in the transaction's own root, or retained. */
  datatype Path = Public(name: string) | Beside(n: nat) | Stage(n: nat) | Retained(n: nat)

  datatype Obj = Obj(id: nat, payload: string)

  type Files = map<Path, Obj>

  datatype Status = Done | Missing | Occupied | Failed | Interrupted

  /** What a step raises: an interrupt, a detected change (`InstallPreimageDrift`),
      another refusal of the installer (`ManagedAgentsError`), or a system error. */
  datatype Raised = Interrupt | Drift | Refused | OsError

  /** A step that failed of itself: a rename, the write of a staged copy, or a read with
      what it raised and what the files were; and the target whose activation it belongs
      to, if any. */
  datatype Step =
    | Renaming(src: Path, dst: Path, owner: Option<Path>)
    | Writing(p: Path, owner: Option<Path>)
    | Reading(p: Path, error: Raised, files: Files, owner: Option<Path>)

  /** Where an interrupt falls: inside a step; before a statement that records what a
      target is to hold, after `done` of them; or between an archive move and its entry. */
  datatype Point =
    | Inside
    | Noting(target: Path, done: nat, replaced: bool)
    | Entering(source: Path, archive: Path)
  {
    /** The journal is wrong about a target just here: its entry is no longer pending and
        it is not marked as replaced, or not yet with the name of its original. */
    predicate Gap() { Entering? || (Noting? && replaced && done in {2, 3}) }
  }

  /** Interrupts still to come, and where the latest fell. */
  datatype Interrupts = Interrupts(left: nat, struck: Option<Point>) {
    /** One interrupt fell at this point, or none did. */
    predicate After(before: Interrupts, interrupted: bool, point: Point) {
      if interrupted then before.left == left + 1 && struck == Some(point) else this == before
    }
  }

  /** No interrupt, or fewer still to come. */
  predicate Later(before: Interrupts, now: Interrupts) { now == before || now.left < before.left }

  /** Nor did the latest fall into a gap of the journal. */
  predicate NoGap(before: Interrupts, now: Interrupts) {
    now == before || (now.left < before.left && now.struck.Some? && !now.struck.value.Gap())
  }

  function At(f: Files, p: Path): Option<Obj> { if p in f then Some(f[p]) else None }

  function Moved(f: Files, src: Path, dst: Path): Files
    requires src in f
  {
    (f - {src})[dst := f[src]]
  }

  ghost predicate Identified(f: Files) {
    forall p, q | p in f && q in f && f[p].id == f[q].id :: p == q
  }

  /** The objects that somebody other than the installer may have seen or written. */
  ghost function Exposed(f: Files, sealed: set<nat>): set<Obj> { set p | p in f && f[p].id !in sealed :: f[p] }

  /** Private names neither appear nor disappear; what they hold keeps its identity,
      and its payload too unless somebody still has it open. */
  predicate Spared(f: Files, g: Files, sealed: set<nat>, handles: bool) {
    && (forall p | p in f && !p.Public? ::
          p in g && g[p].id == f[p].id && (!handles || f[p].id in sealed ==> g[p] == f[p]))
    && (forall p | p in g && !p.Public? :: p in f)
    && (forall p | p in g && p.Public? :: g[p].id !in sealed)
    && (forall p, q | p in g && q in g && g[p].id == g[q].id :: p == q)
  }

  class FileSystem {
    const hostile: bool    // others act between steps
    const handles: bool    // others may write through handles they already hold
    var files: Files
    var sealed: set<nat>   // staged objects nobody else has seen
    var interrupts: Interrupts
    var faults: nat        // steps still to fail for reasons of their own
    var failed: Option<Step>      // the latest that did
    var serial: nat        // above every identity in use
    ghost var exposed: set<Obj>   // every other object, as its last writer left it
    ghost var touched: set<Path>  // names the installer itself renamed from or to, or discarded

    constructor (hostile: bool, handles: bool, files: Files, interrupts: nat, faults: nat, serial: nat)
      requires Identified(files) && forall p | p in files :: files[p].id < serial
      ensures Valid() && this.files == files && sealed == {} && failed == None
      ensures this.hostile == hostile && this.handles == handles
      ensures this.interrupts == Interrupts(interrupts, None) && this.faults == faults
    {
      this.hostile := hostile;
      this.handles := handles;
      this.faults := faults;
      failed := None;
      this.files := files;
      this.interrupts := Interrupts(interrupts, None);
      this.serial := serial;
      sealed := {};
      exposed := Exposed(files, {});
      touched := {};
    }

    /** Nothing exposed has been lost: what is on disk is what its last writer left. */
    ghost predicate Valid()
      reads this`files, this`sealed, this`exposed, this`serial
    {
      && Identified(files)
      && exposed == Exposed(files, sealed)
      && (forall p | p in files && p.Public? :: files[p].id !in sealed)
      && (forall p | p in files :: files[p].id < serial)
      && (forall id | id in sealed :: id < serial)
    }

    /** Nobody else acts. */
    ghost predicate Quiet() { !hostile }

    /** Interrupts and failures still to come. */
    ghost function Left(): nat
      reads this`interrupts, this`faults
    {
      interrupts.left + faults
    }

    /** Names in the transaction's own directory that hold something exposed. */
    ghost function Loose(): set<Path>
      reads this`files, this`sealed
    {
      set p | p in files && p.Stage? && files[p].id !in sealed
    }

    /** Others act: anything at all at public names. */
    method Meddle()
      modifies this`files, this`exposed, this`serial
      ensures old(Valid()) ==> Valid()
      ensures !hostile ==> files == old(files) && exposed == old(exposed) && serial == old(serial)
      ensures old(Valid()) ==> PrivateElsewhere(old(files), files, {}) && Loose() <= old(Loose())
    {
      if hostile {
        var next: Files := *;
        var above: nat := *;
        if Spared(files, next, sealed, handles) && serial <= above && forall p | p in next :: next[p].id < above {
          files := next;
          serial := above;
          exposed := Exposed(files, sealed);
        }
      }
    }

    /** An interrupt, if one is still to come, may arrive here. */
    method Tick(point: Point) returns (interrupted: bool)
      modifies this`interrupts
      ensures interrupts.After(old(interrupts), interrupted, point)
    {
      interrupted := false;
      if interrupts.left > 0 {
        var now: bool := *;
        if now {
          interrupts := Interrupts(interrupts.left - 1, Some(point));
          interrupted := true;
        }
      }
    }

    /** A step may fail of itself; where others act, it may fail at any time. */
    method Fails(step: Step) returns (fails: bool)
      modifies this`faults, this`failed
      ensures Quiet() ==>
        faults == old(faults) - (if fails then 1 else 0) && failed == if fails then Some(step) else old(failed)
    {
      fails := false;
      if hostile || faults > 0 {
        fails := *;
        if fails {
          failed := Some(step);
          if faults > 0 { faults := faults - 1; }
        }
      }
    }

    /** Before a step takes effect an interrupt may arrive, others may act, and the step
        may fail of itself. */
    method Begin(step: Step) returns (s: Status)
      modifies this`files, this`exposed, this`serial, this`interrupts, this`faults, this`failed
      ensures s in {Done, Interrupted, Failed}
      ensures old(Valid()) ==> Valid()
      ensures old(Valid()) ==> PrivateElsewhere(old(files), files, {}) && Loose() <= old(Loose())
      ensures interrupts.After(old(interrupts), s == Interrupted, Inside)
      ensures Quiet() ==> files == old(files) && serial == old(serial)
      ensures Quiet() ==> faults == old(faults) - if s == Failed then 1 else 0
      ensures Quiet() ==> failed == if s == Failed then Some(step) else old(failed)
    {
      var early := Tick(Inside);
      if early { return Interrupted; }
      Meddle();
      var fails := Fails(step);
      return if fails then Failed else Done;
    }

    /** Rename without replacing: `RENAME_NOREPLACE`. */
    method Rename(src: Path, dst: Path, owner: Option<Path> := None) returns (s: Status)
      modifies this
      ensures old(Valid()) ==> Valid()
      ensures touched == old(touched) + {src, dst}
      ensures interrupts.After(old(interrupts), s == Interrupted, Inside)
      ensures Quiet() ==> faults == old(faults) - if s == Failed then 1 else 0
      ensures Quiet() ==> failed == if s == Failed then Some(Renaming(src, dst, owner)) else old(failed)
      ensures old(Valid()) ==> StaysSealed(old(files), old(sealed), files, sealed, dst)
      ensures Quiet() ==>
        match s
        case Done => src in old(files) && dst !in old(files) && files == Moved(old(files), src, dst)
        case Missing => src !in old(files) && files == old(files)
        case Occupied => src in old(files) && dst in old(files) && files == old(files)
        case Failed => files == old(files)
        case Interrupted =>
          files == old(files) || (src in old(files) && dst !in old(files) && files == Moved(old(files), src, dst))
      ensures old(Valid()) && s == Done ==> src !in files && dst in files
      ensures old(Valid()) && s == Done && !src.Public? ==>
        && src in old(files) && files[dst].id == old(files)[src].id
        && (!handles ==> files[dst] == old(files)[src])
      ensures old(Valid()) && !src.Public? && src in files ==>
        src in old(files) && files[src].id == old(files)[src].id && (!handles ==> files[src] == old(files)[src])
      ensures old(Valid()) ==> PrivateElsewhere(old(files), files, {src, dst})
      ensures old(Valid()) ==> Loose() <= old(Loose()) + {dst}
      ensures old(Valid()) && s == Done ==> src !in Loose()
      ensures old(Valid()) && !dst.Stage? ==> dst !in Loose()
    {
      hide Exposed, Identified, Spared;
      touched := touched + {src, dst};
      s := Begin(Renaming(src, dst, owner));
      if s != Done { return; }
      if src !in files { return Missing; }
      if dst in files { return Occupied; }
      MoveNow(src, dst);
      var late := Tick(Inside);
      return if late then Interrupted else Done;
    }

    /** The move itself; a staged object that becomes public is sealed no longer. */
    method MoveNow(src: Path, dst: Path)
      requires src in files && dst !in files
      modifies this`files, this`sealed, this`exposed
      ensures old(Valid()) ==> Valid()
      ensures files == Moved(old(files), src, dst)
      ensures old(Valid()) ==> StaysSealed(old(files), old(sealed), files, sealed, dst)
      ensures old(Valid()) ==> Loose() <= old(Loose()) + {dst}
    {
      if dst.Public? {
        sealed := sealed - {files[src].id};
        exposed := exposed + {files[src]};
      }
      MovedIsSound(files, src, dst, sealed);
      files := Moved(files, src, dst);
    }

    /** A private name that held a sealed object, and still holds one, holds a sealed one. */
    ghost predicate StaysSealed(f: Files, s: set<nat>, g: Files, t: set<nat>, except: Path) {
      forall p: Path | !p.Public? && p != except && p in g && p in f && f[p].id in s :: g[p].id in t
    }

    ghost predicate PrivateElsewhere(f: Files, g: Files, except: set<Path>) {
      forall p: Path | !p.Public? && p !in except ::
        (p in f <==> p in g) && (p in f ==> g[p].id == f[p].id && (!handles ==> g[p] == f[p]))
    }

    /** Read a path's state; the read itself may fail. */
    method Inspect(p: Path, owner: Option<Path> := None) returns (r: Result<Option<Obj>, Raised>)
      modifies this`files, this`exposed, this`serial, this`interrupts, this`faults, this`failed
      ensures old(Valid()) ==> Valid()
      ensures old(Valid()) ==> PrivateElsewhere(old(files), files, {}) && Loose() <= old(Loose())
      ensures r.Success? ==> r.value == At(files, p)
      ensures Quiet() ==> files == old(files)
      ensures interrupts.After(old(interrupts), r == Failure(Interrupt), Inside)
      ensures Quiet() ==> faults == old(faults) - if r.Failure? && r.error != Interrupt then 1 else 0
      ensures Quiet() ==>
        failed == if r.Failure? && r.error != Interrupt then Some(Reading(p, r.error, files, owner)) else old(failed)
    {
      var early := Tick(Inside);
      if early { return Failure(Interrupt); }
      Meddle();
      var error: Raised := *;
      if error == Interrupt { error := OsError; }
      var fails := Fails(Reading(p, error, files, owner));
      if fails { return Failure(error); }
      return Success(At(files, p));
    }

    method Exists(p: Path) returns (present: bool)
      modifies this`files, this`exposed, this`serial
      ensures old(Valid()) ==> Valid()
      ensures old(Valid()) ==> PrivateElsewhere(old(files), files, {}) && Loose() <= old(Loose())
      ensures present <==> p in files
      ensures Quiet() ==> files == old(files)
    {
      Meddle();
      return p in files;
    }

    /** Write a new staged object at a free private name. */
    method Create(p: Path, payload: string, owner: Option<Path> := None) returns (s: Status)
      requires !p.Public?
      modifies this
      ensures old(Valid()) ==> Valid()
      ensures touched == old(touched) + {p}
      ensures interrupts.After(old(interrupts), s == Interrupted, Inside)
      ensures Quiet() ==> faults == old(faults) - if s == Failed then 1 else 0
      ensures Quiet() ==> failed == if s == Failed then Some(Writing(p, owner)) else old(failed)
      ensures old(Valid()) ==> PrivateElsewhere(old(files), files, {p}) && Loose() <= old(Loose())
      ensures old(Valid()) && p !in old(files) ==> (p in files ==> files[p].id in sealed)
      ensures old(Valid()) ==> StaysSealed(old(files), old(sealed), files, sealed, p)
      ensures old(Valid()) && s == Done ==> p in files && files[p].id in sealed && files[p].payload == payload
      ensures Quiet() ==>
        match s
        case Done => p !in old(files) && files == old(files)[p := Obj(old(serial), payload)]
        case Occupied => p in old(files) && files == old(files)
        case Interrupted =>
          files == old(files) || (p !in old(files) && files == old(files)[p := Obj(old(serial), payload)])
        case Failed => files == old(files)
        case Missing => false
    {
      hide Loose;
      touched := touched + {p};
      s := Begin(Writing(p, owner));
      if s != Done { return; }
      if p in files { return Occupied; }
      CreateNow(p, payload);
      var late := Tick(Inside);
      return if late then Interrupted else Done;
    }

    method CreateNow(p: Path, payload: string)
      requires p !in files && !p.Public?
      modifies this`files, this`sealed, this`exposed, this`serial
      ensures old(Valid()) ==> Valid()
      ensures files == old(files)[p := Obj(old(serial), payload)]
      ensures sealed == old(sealed) + {old(serial)}
      ensures Loose() <= old(Loose())
    {
      CreatedIsSound(files, p, Obj(serial, payload), sealed);
      sealed := sealed + {serial};
      files := files[p := Obj(serial, payload)];
      serial := serial + 1;
    }

    /** Remove the transaction's own directory: everything there is a staged copy. */
    method DiscardStage()
      requires Loose() == {}
      modifies this
      ensures old(Valid()) ==> Valid()
      ensures interrupts == old(interrupts) && faults == old(faults) && failed == old(failed) && sealed == old(sealed)
      ensures Quiet() ==> files == map p | p in old(files) && !p.Stage? :: old(files)[p]
    {
      Meddle();
      ghost var before := files;
      assert old(Valid()) ==> forall p | p in before && p.Stage? && before[p].id !in sealed :: p in Loose();
      touched := touched + set p | p in files && p.Stage?;
      files := map p | p in files && !p.Stage? :: files[p];
      StageIsSound(before, files, sealed);
    }

    /** Remove the installer's own staged copy. */
    method Discard(p: Path) returns (interrupted: bool)
      requires !p.Public? && (p in files ==> files[p].id in sealed)
      modifies this`files, this`exposed, this`serial, this`interrupts, this`touched
      ensures old(Valid()) ==> Valid()
      ensures touched == old(touched) + {p}
      ensures old(Valid()) ==> PrivateElsewhere(old(files), files, {p}) && Loose() <= old(Loose())
      ensures interrupts.After(old(interrupts), interrupted, Inside)
      ensures Quiet() ==> files == old(files) - {p} || (interrupted && files == old(files))
      ensures old(Valid()) && !interrupted ==> p !in files
    {
      touched := touched + {p};
      interrupted := Tick(Inside);
      if interrupted { return; }
      Meddle();
      DiscardedIsSound(files, p, sealed);
      files := files - {p};
    }
  }

  /** Renaming onto a free name keeps every object, whichever are sealed. */
  lemma MovedIsSound(f: Files, src: Path, dst: Path, sealed: set<nat>)
    requires src in f && dst !in f
    ensures Identified(f) ==> Identified(Moved(f, src, dst))
    ensures Exposed(Moved(f, src, dst), sealed) == Exposed(f, sealed)
  {
    var g := Moved(f, src, dst);
    forall o
      ensures o in Exposed(g, sealed) <==> o in Exposed(f, sealed)
    {
      if o in Exposed(f, sealed) {
        var p :| p in f && f[p].id !in sealed && f[p] == o;
        if p == src { assert g[dst] == o; } else { assert p in g && g[p] == o; }
      }
      if o in Exposed(g, sealed) {
        var p :| p in g && g[p].id !in sealed && g[p] == o;
        if p == dst { assert f[src] == o; } else { assert f[p] == o; }
      }
    }
  }

  lemma DiscardedIsSound(f: Files, p: Path, sealed: set<nat>)
    ensures p in f && f[p].id in sealed ==> Exposed(f - {p}, sealed) == Exposed(f, sealed)
    ensures p !in f ==> f - {p} == f
  {
    if p in f && f[p].id in sealed {
      forall o | o in Exposed(f, sealed)
        ensures o in Exposed(f - {p}, sealed)
      {
        var q :| q in f && f[q].id !in sealed && f[q] == o;
        assert q in f - {p};
      }
    }
  }

  lemma StageIsSound(f: Files, g: Files, sealed: set<nat>)
    requires g == map p | p in f && !p.Stage? :: f[p]
    ensures (forall p | p in f && p.Stage? :: f[p].id in sealed) ==> Exposed(g, sealed) == Exposed(f, sealed)
  {
    if forall p | p in f && p.Stage? :: f[p].id in sealed {
      forall o | o in Exposed(f, sealed)
        ensures o in Exposed(g, sealed)
      {
        var p :| p in f && f[p].id !in sealed && f[p] == o;
        assert p in g && g[p] == o;
      }
    }
  }

  lemma CreatedIsSound(f: Files, p: Path, o: Obj, sealed: set<nat>)
    requires p !in f
    ensures (forall q | q in f :: f[q].id != o.id) ==> Exposed(f[p := o], sealed + {o.id}) == Exposed(f, sealed)
    ensures (forall q | q in f :: f[q].id != o.id) && Identified(f) ==> Identified(f[p := o])
  {
    if forall q | q in f :: f[q].id != o.id {
      forall x | x in Exposed(f, sealed)
        ensures x in Exposed(f[p := o], sealed + {o.id})
      {
        var q :| q in f && f[q].id !in sealed && f[q] == x;
        assert q in f[p := o] && f[p := o][q] == x;
      }
    }
  }
}
