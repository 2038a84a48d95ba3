/**
 The crash-safe study controller (tools/proof_plane/controller.py).

 Every durable operation goes through `Durable`, where the process may die; every
 public method starts by repairing what an earlier death left behind.
 */
module StudyController {
  import opened Wrappers
  import opened Ledger
  import opened StudyEvents
  import opened StudyMachine
  import opened StudyHistory
  import opened StudyDisk
  import opened StudyRuns
  import opened StudyRecovery
  import opened StudyPromises

  lemma EvidenceIsAccepted(c: Config, d: Disk)
    requires c.Valid() && Inv(c, d) && d.journal != []
    ensures Replay(c, d.journal).value.Live? && |Replay(c, d.journal).value.cells| == |c.schedule|
    ensures Artifacts(c, d, Replay(c, d.journal).value)
  {
    ReplayShape(c, d.journal);
    var cells := Replay(c, d.journal).value.cells;
    forall i | 0 <= i < |c.schedule|
      ensures CellArtifacts(c, d, cells[i], i)
    {
      assert CellEvidence(c, d, cells, i);
    }
  }

  /** How many cells are reserved and not yet started. */
  ghost function HeldIn(cells: seq<Cell>, n: nat): nat
    requires n <= |cells|
  {
    if n == 0 then 0 else HeldIn(cells, n - 1) + if cells[n - 1].Held? then 1 else 0
  }

  lemma {:induction false} HeldInUpdate(cells: seq<Cell>, i: nat, cell: Cell, n: nat)
    requires i < |cells| && n <= |cells| && cells[i].Held? && !cell.Held?
    ensures HeldIn(cells[i := cell], n) == HeldIn(cells, n) - if i < n then 1 else 0
  {
    if n > 0 { HeldInUpdate(cells, i, cell, n - 1); }
  }

  ghost function HeldCount(c: Config, j: Journal): nat {
    if Replay(c, j).Some? && Replay(c, j).value.Live?
    then HeldIn(Replay(c, j).value.cells, |Replay(c, j).value.cells|) else 0
  }

  ghost predicate Distinct<T>(s: seq<T>) {
    forall i, k | 0 <= i < k < |s| :: s[i] != s[k]
  }

  /** Every run launched so far is distinct and consumed. */
  ghost predicate Launched(c: Config, d: Disk, launches: seq<RunId>) {
    && Distinct(launches)
    && (launches != [] ==> Replay(c, d.journal).Some? && d.journal != [])
    && forall i | 0 <= i < |launches| :: IsConsumed(c, d.journal, launches[i])
  }

  ghost predicate IsConsumed(c: Config, j: Journal, run: RunId) {
    && Replay(c, j).Some? && Replay(c, j).value.Live?
    && exists o :: c.Scheduled(run, o) && o <= |Replay(c, j).value.cells| && Replay(c, j).value.cells[o - 1].Consumed()
  }

  lemma ConsumedPersists(c: Config, j: Journal, j': Journal, run: RunId)
    requires c.Valid() && IsConsumed(c, j, run) && j <= j' && Replay(c, j').Some?
    ensures IsConsumed(c, j', run)
  {
    var o :| c.Scheduled(run, o) && o <= |Replay(c, j).value.cells| && Replay(c, j).value.cells[o - 1].Consumed();
    ReplayShape(c, j);
    ReplayShape(c, j');
    assert j'[..|j|] == j;
    ConsumedForever(c, j', |j|, o);
  }

  type Study = c: Config | c.Valid() ghost witness Config("", [], [], "", 1)

  class StudyRunController {
    const c: Study
    var disk: Disk
    var fuse: nat               // durable operations left before this process dies
    ghost var launches: seq<RunId>   // runs whose start this controller has handed out

    constructor (c: Study)
      ensures this.c == c && disk == EMPTY_DISK && launches == [] && Sound()
    {
      this.c := c;
      disk := EMPTY_DISK;
      fuse := 0;
      launches := [];
      new;
      assert Runs(c, []) && Exec(c, []) == disk;
    }

    /** Everything so far was a run of enabled operations, and no run was launched twice. */
    ghost predicate Sound()
      reads this
    {
      Reachable(c, disk) && Launched(c, disk, launches)
    }

    ghost predicate Good()
      reads this
    {
      Reachable(c, disk)
    }

    /** A new process takes over. */
    method Restart(operations: nat)
      modifies this`fuse
      ensures fuse == operations
    {
      fuse := operations;
    }

    /** One atomic durable operation, or death just before it: exactly when none is left. */
    method Durable(op: Op) returns (o: Result<(), Fault>)
      modifies this`disk, this`fuse
      ensures o.Success? <==> old(fuse) > 0
      ensures o.Success? ==> disk == Effect(c, old(disk), op) && fuse == old(fuse) - 1
      ensures o.Failure? ==> o.error == Crash && disk == old(disk) && fuse == 0
      ensures old(Good()) && Enabled(c, old(disk), op) ==> Good()
    {
      if fuse == 0 { return Failure(Crash); }
      fuse := fuse - 1;
      if Good() && Enabled(c, disk, op) { ReachableStep(c, disk, op); }
      disk := Effect(c, disk, op);
      return Success(());
    }

    /** A model runner publishes its terminal receipt, once, for a run it was given. */
    method RunnerEnds(receipt: TerminalReceipt)
      requires Sound() && Enabled(c, disk, Op.RunnerEnds(receipt))
      modifies this`disk
      ensures disk == Effect(c, old(disk), Op.RunnerEnds(receipt))
      ensures Sound()
    {
      ReachableStep(c, disk, Op.RunnerEnds(receipt));
      disk := Effect(c, disk, Op.RunnerEnds(receipt));
    }

    // ------------------------------------------------------------- recovery

    method IndexCheckpoints() returns (r: Option<map<int, Checkpoint>>)
      ensures r.Some? ==> Indexes(c, r.value, disk.checkpoints)
      ensures r.None? ==> !exists index :: Indexes(c, index, disk.checkpoints)
    {
      var byRevision: map<int, Checkpoint> := map[];
      var left := disk.checkpoints;
      while left != {}
        invariant left <= disk.checkpoints
        invariant Indexes(c, byRevision, disk.checkpoints - left)
        decreases |left|
      {
        hide Indexes;
        var k :| k in left;
        ghost var seen := disk.checkpoints - left;
        if !ValidCheckpoint(c, k) { Unindexable(c, disk.checkpoints, k, k); return None; }
        if k.body.revision in byRevision {
          IndexedTwin(c, byRevision, seen, k);
          Unindexable(c, disk.checkpoints, k, byRevision[k.body.revision]);
          return None;
        }
        IndexGrows(c, byRevision, seen, k);
        byRevision := byRevision[k.body.revision := k];
        left := left - {k};
        assert disk.checkpoints - left == seen + {k};
      }
      assert disk.checkpoints - left == disk.checkpoints;
      return Some(byRevision);
    }

    /** Publish the checkpoint of the live anchor, unless that file is already there. */
    method WriteCheckpointFile() returns (o: Result<(), Fault>)
      requires disk.anchor.Some?
      modifies this`disk, this`fuse
      ensures o == Failure(Crash) ==> fuse == 0
      ensures old(fuse) <= fuse + 1
      ensures o.Success? ==> disk == Effect(c, old(disk), WriteCheckpoint)
      ensures o.Failure? ==> disk == old(disk) && (o.error == Crash || o.error == Integrity)
      ensures o == Failure(Integrity) ==>
        exists k :: k in disk.checkpoints && k.body.revision == disk.anchor.value.body.revision
          && k != CheckpointOf(c, disk.anchor.value)
      ensures old(Good()) && Enabled(c, old(disk), WriteCheckpoint) ==> Good()
    {
      var a := disk.anchor.value;
      if k :| k in disk.checkpoints && k.body.revision == a.body.revision && k.body.anchorSha == a.sha {
        if k != CheckpointOf(c, a) { return Failure(Integrity); }
        assert disk.checkpoints + {k} == disk.checkpoints;
        return Success(());
      }
      var _ :- Durable(WriteCheckpoint);
      return Success(());
    }

    /** Index the checkpoints, after publishing the newest one if only it is missing. */
    method IndexWithRepair() returns (r: Result<map<int, Checkpoint>, Fault>)
      requires disk.anchor.Some? && ValidAnchor(disk.anchor.value)
      modifies this`disk, this`fuse
      ensures r == Failure(Crash) ==> fuse == 0
      ensures old(fuse) <= fuse + 1
      ensures disk.(checkpoints := old(disk).checkpoints) == old(disk)
      ensures r.Success? ==> disk.checkpoints == Repaired(c, old(disk).checkpoints, old(disk).anchor.value)
      ensures r.Success? ==> Indexes(c, r.value, disk.checkpoints)
      ensures r.Failure? ==> r.error == Crash || r.error == Integrity
      ensures r == Failure(Integrity) ==> !exists index :: Indexes(c, index, old(disk).checkpoints)
      ensures old(Good()) ==> Good()
    {
      hide Inv, Trail, ValidLedger, Step;
      var a := disk.anchor.value;
      if Good() { ReachableInv(c, disk); RepairCompletes(c, disk); }
      var indexed := IndexCheckpoints();
      if indexed.None? { return Failure(Integrity); }
      var byRevision := indexed.value;
      IndexRevisions(c, byRevision, disk.checkpoints, a.body.revision);
      if !Covers(byRevision, a.body.revision) { return Success(byRevision); }
      r := AddNewest(byRevision);
    }

    /** Publish the anchor's own checkpoint when it is the one missing. */
    method AddNewest(byRevision: map<int, Checkpoint>) returns (r: Result<map<int, Checkpoint>, Fault>)
      requires disk.anchor.Some? && ValidAnchor(disk.anchor.value)
      requires Indexes(c, byRevision, disk.checkpoints) && Covers(byRevision, disk.anchor.value.body.revision)
      modifies this`disk, this`fuse
      ensures r == Failure(Crash) ==> fuse == 0
      ensures old(fuse) <= fuse + 1
      ensures disk.(checkpoints := old(disk).checkpoints) == old(disk)
      ensures r.Success? ==> disk.checkpoints == old(disk).checkpoints + {CheckpointOf(c, old(disk).anchor.value)}
      ensures r.Success? ==> Indexes(c, r.value, disk.checkpoints)
      ensures r.Failure? ==> r.error == Crash
      ensures old(Good()) && Enabled(c, old(disk), WriteCheckpoint) ==> Good()
    {
      hide Inv, Trail, ValidLedger, Step;
      var a := disk.anchor.value;
      ghost var older := disk.checkpoints;
      NoRevision(c, byRevision, older, a.body.revision);
      var _ :- WriteCheckpointFile();
      IndexGrows(c, byRevision, older, CheckpointOf(c, a));
      return Success(byRevision[a.body.revision := CheckpointOf(c, a)]);
    }

    method ValidateCheckpointChain() returns (o: Result<(), Fault>)
      requires disk.anchor.Some? && ValidAnchor(disk.anchor.value)
      modifies this`disk, this`fuse
      ensures o == Failure(Crash) ==> fuse == 0
      ensures old(fuse) <= fuse + 1
      ensures disk.(checkpoints := old(disk).checkpoints) == old(disk)
      ensures o.Success? ==> disk.checkpoints == Repaired(c, old(disk).checkpoints, old(disk).anchor.value)
      ensures o.Success? ==> ChainAccepted(c, disk.checkpoints, old(disk).anchor.value)
      ensures o.Failure? && o.error != Crash ==>
        && o.error == Integrity
        && !ChainAccepted(c, Repaired(c, old(disk).checkpoints, old(disk).anchor.value), old(disk).anchor.value)
      ensures old(Good()) ==> Good()
    {
      var a := disk.anchor.value;
      if ChainAccepted(c, Repaired(c, disk.checkpoints, a), a) { RepairNeedsIndex(c, disk.checkpoints, a); }
      var byRevision :- IndexWithRepair();
      var ok := LinkedChain(byRevision, a);
      if !ok {
        forall other | Indexes(c, other, disk.checkpoints)
          ensures !Linked(other, a)
        {
          IndexUnique(c, byRevision, other, disk.checkpoints);
        }
        return Failure(Integrity);
      }
      return Success(());
    }

    static method LinkedChain(byRevision: map<int, Checkpoint>, a: JournalAnchor) returns (ok: bool)
      requires a.body.revision >= 0
      ensures ok <==> Linked(byRevision, a)
    {
      if !Covers(byRevision, a.body.revision + 1) { return false; }
      var current := byRevision[a.body.revision].body;
      if (current.count, current.head, current.anchorSha) != (a.body.count, a.body.head, a.sha) { return false; }
      for revision := 0 to a.body.revision + 1
        invariant forall r | 0 <= r < revision :: LinkAt(byRevision, r)
      {
        if byRevision[revision].body.count != revision {
          assert !LinkAt(byRevision, revision);
          return false;
        }
        if revision == 0 {
          if byRevision[revision].body.previous != NoAnchor {
            assert !LinkAt(byRevision, revision);
            return false;
          }
        } else if byRevision[revision].body.previous != byRevision[revision - 1].body.anchorSha {
          assert !LinkAt(byRevision, revision);
          return false;
        }
      }
      return true;
    }

    /** Advance the anchor over the journal and retain its checkpoint. */
    method AdvanceAndCheckpoint(now: Time) returns (o: Result<(), Fault>)
      requires disk.anchor.Some? && MayAdvance(disk.anchor.value, disk.journal)
      requires forall k | k in disk.checkpoints :: k.body.revision <= disk.anchor.value.body.revision
      modifies this`disk, this`fuse
      ensures o == Failure(Crash) ==> fuse == 0
      ensures old(fuse) <= fuse + 2
      ensures o.Success? ==> disk == Effect(c, Effect(c, old(disk), AdvanceAnchor(now)), WriteCheckpoint)
      ensures o.Failure? ==> o.error == Crash
      ensures disk.(anchor := old(disk).anchor, checkpoints := old(disk).checkpoints) == old(disk)
      ensures old(Good()) && Enabled(c, old(disk), AdvanceAnchor(now)) ==> Good() && (o.Success? ==> Settled(c, disk))
    {
      hide Inv, Justified, Trail, ValidLedger, Replay, Enabled, Settled;
      AdvanceSettles(c, disk, now);
      var a := disk.anchor.value;
      var advanced := AdvanceLedgerAnchor(a, disk.journal, a.body.count, a.body.head, a.sha, now);
      var _ :- Durable(AdvanceAnchor(now));
      var _ :- WriteCheckpointFile();
      return Success(());
    }

    /** Repair what a crash left, on any disk: it goes on exactly when the disk is recoverable. */
    method LoadJournalAndCatchUp() returns (o: Result<(), Fault>)
      modifies this`disk, this`fuse
      ensures o == Failure(Crash) ==> fuse == 0
      ensures old(fuse) <= fuse + 3
      ensures disk.(anchor := old(disk).anchor, checkpoints := old(disk).checkpoints) == old(disk)
      ensures o.Success? ==> Recoverable(c, old(disk)) && exists now :: disk == CaughtUp(c, old(disk), now)
      ensures o.Success? ==> Ready(disk)
      ensures o.Failure? ==> o.error == Crash || !Recoverable(c, old(disk))
      ensures o == Failure(NotInitialized) <==> !old(disk).hasJournal || old(disk).anchor.None?
      ensures old(Good()) ==> Good() && (o.Success? ==> Settled(c, disk)) && o != Failure(Integrity)
      ensures o.Failure? ==> !o.error.Refused?
    {
      hide Inv, Trail, Replay, Enabled, Settled, Reachable, ChainAccepted, Repaired;
      if !disk.hasJournal || disk.anchor.None? { return Failure(NotInitialized); }
      ghost var before := disk;
      var now: Time := *;
      if Good() { GoodRecovers(c, disk, now); }
      var valid := ValidateEntries(disk.journal);
      if !valid || !ValidAnchor(disk.anchor.value) { return Failure(Integrity); }
      var _ :- ValidateCheckpointChain();
      var a := disk.anchor.value;
      if |disk.journal| < a.body.count { return Failure(Integrity); }
      if a.body.count != 0 {
        assert Head(disk.journal[..a.body.count]) == disk.journal[a.body.count - 1].sha;
        if disk.journal[a.body.count - 1].sha != a.body.head { return Failure(Integrity); }
      }
      if |disk.journal| > a.body.count {
        if |disk.journal| != a.body.count + 1 { return Failure(Integrity); }
        FreshRevision(c, disk.checkpoints, a);
        var _ :- AdvanceAndCheckpoint(now);
      }
      assert disk == CaughtUp(c, before, now);
      CaughtUpIsReady(c, before, now);
      return Success(());
    }

    // ------------------------------------------------------------ appending

    /** Append one event, advance the anchor over it, retain the checkpoint. */
    method AppendEvent(event: Event) returns (r: Result<Entry<Event>, Fault>)
      requires Ready(disk)
      modifies this`disk, this`fuse
      ensures r == Failure(Crash) ==> fuse == 0
      ensures old(fuse) <= fuse + 3 * (|disk.journal| - |old(disk).journal|)
      ensures r.Success? ==> Ready(disk) && disk.journal == old(disk).journal + [r.value]
      ensures r.Success? ==> r.value == NextEntry(old(disk).journal, event, r.value.body.recordedAt)
      ensures r.Failure? ==>
        && r.error == Crash && old(disk).journal <= disk.journal && |disk.journal| <= |old(disk).journal| + 1
      ensures forall k | |old(disk).journal| <= k < |disk.journal| :: disk.journal[k].Event() == event
      ensures old(disk) ==
        disk.(journal := old(disk).journal, anchor := old(disk).anchor, checkpoints := old(disk).checkpoints)
      ensures old(Good()) && Settled(c, old(disk)) && Justified(c, old(disk), event) ==>
        Good() && (r.Success? ==> Settled(c, disk))
    {
      hide Inv, Justified, Trail, ValidLedger;
      var now: Time := *;
      var entry := NextEntry(disk.journal, event, now);
      AppendReady(c, disk, event, now);
      var _ :- Durable(Append(event, now));
      var _ :- AdvanceAndCheckpoint(now);
      return Success(entry);
    }

    /** Every referenced artifact is present and says what the journal says. */
    method ValidateReferencedArtifacts(st: State) returns (ok: bool)
      requires st.Live? && |st.cells| == |c.schedule|
      ensures ok <==> Artifacts(c, disk, st)
    {
      for k := 0 to |disk.journal|
        invariant forall m | 0 <= m < k && disk.journal[m].Event().Released? ::
          ManifestAccepted(disk.manifests, disk.journal[m].Event())
      {
        if disk.journal[k].Event().Released? && !ManifestAccepted(disk.manifests, disk.journal[k].Event()) {
          return false;
        }
      }
      for i := 0 to |c.schedule|
        invariant forall m | 0 <= m < i :: CellArtifacts(c, disk, st.cells[m], m)
      {
        if !CellArtifacts(c, disk, st.cells[i], i) { return false; }
      }
      return true;
    }

    /** Replay the journal and check it against the artifacts. */
    method Refresh() returns (r: Result<State, Fault>)
      ensures r.Success? ==> Replayed(c, disk, r.value)
      ensures r.Failure? ==> r.error == if disk.journal == [] then NotInitialized else Integrity
      ensures r.Failure? ==> forall st :: !Replayed(c, disk, st)
      ensures Good() && disk.journal != [] ==> r.Success?
    {
      var derived := DeriveState(c, disk.journal);
      ReplayLive(c, disk.journal);
      if Good() && disk.journal != [] { ReachableInv(c, disk); EvidenceIsAccepted(c, disk); }
      if derived.None? { return Failure(if disk.journal == [] then NotInitialized else Integrity); }
      var ok := ValidateReferencedArtifacts(derived.value);
      if !ok { return Failure(Integrity); }
      return Success(derived.value);
    }

    /** The first reserved cell whose start receipt is already on disk. */
    method UnrecordedStart(st: State) returns (i: nat)
      requires st.Live? && |st.cells| == |c.schedule|
      ensures i <= |c.schedule|
      ensures i < |c.schedule| ==> st.cells[i].Held? && c.schedule[i] in disk.starts
      ensures i == |c.schedule| ==> NoUnrecordedStart(c, disk, st)
    {
      i := 0;
      while i < |c.schedule| && !(st.cells[i].Held? && c.schedule[i] in disk.starts)
        invariant i <= |c.schedule|
        invariant forall k | 0 <= k < i :: !(st.cells[k].Held? && c.schedule[k] in disk.starts)
      {
        i := i + 1;
      }
    }

    /** Anchor every start that was published just before a crash. */
    method ReconcilePublishedStarts() returns (r: Result<State, Fault>)
      requires Ready(disk)
      modifies this`disk, this`fuse
      ensures r == Failure(Crash) ==> fuse == 0
      ensures old(fuse) <= fuse + 3 * c.maxParallel
      ensures r.Success? ==> Ready(disk) && Replayed(c, disk, r.value) && NoUnrecordedStart(c, disk, r.value)
      ensures r.Success? ==> r.value == Recovered(c, old(disk))
      ensures OnlyStarts(old(disk), disk)
      ensures old(Good()) && Settled(c, old(disk)) ==>
        && Good()
        && (r.Success? ==> Settled(c, disk))
        && (r.Failure? ==> r.error == Crash || r.error == NotInitialized)
      ensures old(disk).journal != [] ==> r != Failure(NotInitialized)
      ensures r.Failure? ==> !r.error.Refused?
    {
      hide Recovered, Halfway, HeldCount, Replay, Settled, Ready, Artifacts;
      ghost var good := Good() && Settled(c, disk);
      HeldIsBounded(c, disk.journal);
      NothingRecovered(c, disk);
      while true
        invariant Ready(disk) && OnlyStarts(old(disk), disk)
        invariant good ==> Good() && Settled(c, disk)
        invariant Halfway(c, old(disk), disk.journal)
        invariant HeldCount(c, disk.journal) + |disk.journal| == HeldCount(c, old(disk).journal) + |old(disk).journal|
        invariant old(fuse) <= fuse + 3 * (|disk.journal| - |old(disk).journal|)
        decreases HeldCount(c, disk.journal)
      {
        var st :- Refresh();
        var i := UnrecordedStart(st);
        if i == |c.schedule| {
          AllRecovered(c, old(disk), disk.journal, st);
          return Success(st);
        }
        SomeHeld(c, disk.journal, st, i);
        ghost var before := disk;
        var entry :- JournalStart(st, i);
        StartLowersHeld(c, before.journal, entry, i);
        OneMoreRecovered(c, old(disk), before.journal, st, entry, i);
      }
    }

    /** Journal the published start of a held run. */
    method JournalStart(st: State, i: nat) returns (r: Result<Entry<Event>, Fault>)
      requires Ready(disk) && Replayed(c, disk, st)
      requires i < |c.schedule| && st.cells[i].Held? && c.schedule[i] in disk.starts
      modifies this`disk, this`fuse
      ensures r == Failure(Crash) ==> fuse == 0
      ensures old(fuse) <= fuse + 3 * (|disk.journal| - |old(disk).journal|)
      ensures r.Success? ==>
        && Ready(disk) && disk.journal == old(disk).journal + [r.value]
        && var s := old(disk).starts[c.schedule[i]];
           r.value.Event()
             == Started(c.schedule[i], i + 1, st.cells[i].res.entrySha, Sha(s), Sha(s.plan), s.startedAt)
      ensures OnlyStarts(old(disk), disk) && |disk.journal| <= |old(disk).journal| + 1
      ensures r.Failure? ==> r.error == Crash
      ensures old(Good()) && Settled(c, old(disk)) ==> Good() && (r.Success? ==> Settled(c, disk))
    {
      hide Inv, Justified, Trail, ValidLedger, Replay, Settled, Ready;
      var run, res := c.schedule[i], st.cells[i].res;
      var start := disk.starts[run];
      assert CellArtifacts(c, disk, st.cells[i], i);
      if !StartAccepted(c, start, run, i + 1, res.entrySha) { return Failure(Integrity); }
      var event := Started(run, i + 1, res.entrySha, Sha(start), Sha(start.plan), start.startedAt);
      StartJustified(c, disk, st, i, event);
      r := AppendEvent(event);
    }

    /** What every public method does first. */
    method Enter() returns (r: Result<State, Fault>)
      modifies this`disk, this`fuse
      ensures r == Failure(Crash) ==> fuse == 0
      ensures old(fuse) <= fuse + RecoveryCost(c)
      ensures r.Success? ==> r.value == Recovered(c, old(disk))
      ensures r.Success? ==> Ready(disk) && Replayed(c, disk, r.value) && NoUnrecordedStart(c, disk, r.value)
      ensures OnlyStarts(old(disk), disk)
      ensures r.Failure? ==> !r.error.Refused?
      ensures old(Good()) ==>
        && Good()
        && (r.Success? ==> Settled(c, disk))
        && (r != Failure(Crash) ==> StatusAnswer(Recovered(c, old(disk)), r))
    {
      hide Recovered;
      BlankWithoutJournal(c, disk);
      if Good() { ReachableInv(c, disk); }
      var _ :- LoadJournalAndCatchUp();
      RecoveredAlike(c, old(disk), disk);
      r := ReconcilePublishedStarts();
    }

    // -------------------------------------------------------- public methods

    method Initialize() returns (r: Result<State, Fault>)
      modifies this`disk, this`fuse
      ensures r == Failure(Crash) ==> fuse == 0
      ensures old(fuse) <= fuse + RecoveryCost(c) + 6
      ensures old(Good()) && (r != Failure(Crash) || old(fuse) > RecoveryCost(c) + 6) ==>
        InitializeAnswer(c, Recovered(c, old(disk)), r)
      ensures old(disk).journal <= disk.journal
      ensures r.Success? ==> Replayed(c, disk, r.value)
      ensures r.Success? ==>
        forall k | |old(disk).journal| <= k < |disk.journal| ::
          var e := disk.journal[k].Event();
          e.Started? || (k == 0 && e == Initialized(c.study, c.maxParallel))
      ensures disk.(hasJournal := old(disk).hasJournal) == old(disk).(
          journal := disk.journal, anchor := disk.anchor, checkpoints := disk.checkpoints)
      ensures old(Good()) ==> Good() && (r.Success? ==> Settled(c, disk)) && (r.Failure? ==> r.error == Crash)
      ensures old(Sound()) ==> Sound()
    {
      hide Inv, Justified, Trail, ValidLedger, Step, Artifacts, Recoverable, CaughtUp, Recovered;
      var _ :- CreateJournalAndAnchor();
      var _ :- LoadJournalAndCatchUp();
      var _ :- AppendGenesis();
      ghost var ready := disk;
      r := ReconcilePublishedStarts();
      if old(Good()) && r.Success? { InitialState(c, old(disk), ready); }
      if old(Sound()) && Good() { LaunchesPersist(c, old(disk), disk, launches); }
    }

    /** The first event, unless the journal has one. */
    method AppendGenesis() returns (o: Result<(), Fault>)
      requires Ready(disk)
      modifies this`disk, this`fuse
      ensures o == Failure(Crash) ==> fuse == 0
      ensures old(fuse) <= fuse + 3
      ensures o.Success? ==> Ready(disk) && GenesisAdded(c, old(disk).journal, disk.journal)
      ensures o.Failure? ==> o.error == Crash && old(disk).journal == []
      ensures SameReceipts(old(disk), disk)
      ensures old(Good()) && Settled(c, old(disk)) ==> Good() && (o.Success? ==> Settled(c, disk))
    {
      hide Inv, Justified, Trail, ValidLedger, Step, Artifacts, Recoverable, CaughtUp;
      if disk.journal == [] {
        GenesisJustified(c, disk);
        var _ :- AppendEvent(Initialized(c.study, c.maxParallel));
      }
      return Success(());
    }

    /** The genesis files, each created only if missing, so a crash between them is repaired. */
    method CreateJournalAndAnchor() returns (o: Result<(), Fault>)
      modifies this`disk, this`fuse
      ensures o == Failure(Crash) ==> fuse == 0
      ensures old(fuse) <= fuse + 3
      ensures disk.journal == old(disk).journal
      ensures o.Success? ==> disk.hasJournal && disk.anchor.Some?
      ensures old(Good()) ==> Good() && (o.Failure? ==> o.error == Crash)
      ensures old(disk).(hasJournal := disk.hasJournal, anchor := disk.anchor, checkpoints := disk.checkpoints) == disk
    {
      if Good() { ReachableInv(c, disk); }
      if !disk.hasJournal { var _ :- Durable(CreateJournal); }
      if disk.anchor.None? {
        var now: Time := *;
        var anchor := CreateLedgerAnchor(disk.journal, Some((0, Zero)), now);
        if anchor.Failure? { return Failure(Integrity); }
        var _ :- Durable(CreateAnchor(now));
        var _ :- WriteCheckpointFile();
      }
      return Success(());
    }

    method Status() returns (r: Result<State, Fault>)
      modifies this`disk, this`fuse
      ensures r == Failure(Crash) ==> fuse == 0
      ensures old(fuse) <= fuse + RecoveryCost(c)
      ensures old(Good()) && (r != Failure(Crash) || old(fuse) > RecoveryCost(c)) ==>
        StatusAnswer(Recovered(c, old(disk)), r)
      ensures OnlyStarts(old(disk), disk)
      ensures r.Success? ==> Replayed(c, disk, r.value) && NoUnrecordedStart(c, disk, r.value)
      ensures old(Good()) ==> Good() && (r.Failure? ==> Clean(r.error))
      ensures old(Sound()) ==> Sound()
    {
      hide Recovered;
      r := Enter();
      if old(Sound()) { LaunchesPersist(c, old(disk), disk, launches); }
    }

    /** Reserve the earliest pending cell, when fewer than `maxParallel` are active. */
    method ReserveNext() returns (r: Result<Option<Handle>, Fault>)
      modifies this`disk, this`fuse
      ensures r == Failure(Crash) ==> fuse == 0
      ensures old(fuse) <= fuse + RecoveryCost(c) + 3
      ensures old(Good()) && (r != Failure(Crash) || old(fuse) > RecoveryCost(c) + 3) ==>
        ReserveAnswer(c, Recovered(c, old(disk)), r)
      ensures old(disk).journal <= disk.journal && SameReceipts(old(disk), disk)
      ensures r.Success? && r.value.Some? ==> ReservedNext(c, disk.journal, r.value.value)
      ensures r.Success? && r.value.Some? ==> StartsThen(old(disk).journal, disk.journal, ReservedEvent(r.value.value))
      ensures (r.Failure? && Declined(r.error)) || r == Success(None) ==> OnlyStarts(old(disk), disk)
      ensures r.Success? && r.value.None? ==> NoneAvailable(c, disk.journal)
      ensures r.Failure? && r.error.Refused? ==> SealBegun(c, disk.journal, r.error.why == AlreadySealed)
      ensures old(Good()) ==> Good() && (r.Failure? ==> Clean(r.error))
      ensures old(Sound()) ==> Sound()
    {
      r := ReserveEarliest();
      if old(Sound()) { LaunchesPersist(c, old(disk), disk, launches); }
    }

    method ReserveEarliest() returns (r: Result<Option<Handle>, Fault>)
      modifies this`disk, this`fuse
      ensures r == Failure(Crash) ==> fuse == 0
      ensures old(fuse) <= fuse + RecoveryCost(c) + 3
      ensures old(Good()) && (r != Failure(Crash) || old(fuse) > RecoveryCost(c) + 3) ==>
        ReserveAnswer(c, Recovered(c, old(disk)), r)
      ensures old(disk).journal <= disk.journal && SameReceipts(old(disk), disk)
      ensures r.Success? && r.value.Some? ==> ReservedNext(c, disk.journal, r.value.value)
      ensures r.Success? && r.value.Some? ==> StartsThen(old(disk).journal, disk.journal, ReservedEvent(r.value.value))
      ensures (r.Failure? && Declined(r.error)) || r == Success(None) ==> OnlyStarts(old(disk), disk)
      ensures r.Success? && r.value.None? ==> NoneAvailable(c, disk.journal)
      ensures r.Failure? && r.error.Refused? ==> SealBegun(c, disk.journal, r.error.why == AlreadySealed)
      ensures old(Good()) ==> Good() && (r.Failure? ==> Clean(r.error))
    {
      hide Inv, Trail, ValidLedger, Step, Artifacts, Replay, Trailing, Recoverable, Justified, Enabled;
      hide Recovered, ReservedNext, Settled, Ready;
      var st :- Enter();
      if st.sealed.Some? { return Failure(Refused(AlreadySealed)); }
      if st.sealPending.Some? { return Failure(Refused(SealIsPending)); }
      var active := CountActive(st.cells);
      if active >= c.maxParallel { return Success(None); }
      var first := FirstPending(st.cells);
      if first == |st.cells| { return Success(None); }
      var run := c.schedule[first];
      if run in disk.starts || run in disk.terminals {
        PendingHasNoReceipts(c, disk, st, first);
        return Failure(Integrity);
      }
      ghost var front := disk;
      var handle :- HoldCell(st, first);
      StartsThenOne(old(disk), front, disk.journal);
      return Success(Some(handle));
    }

    /** Journal the reservation of the earliest pending cell. */
    method HoldCell(st: State, first: nat) returns (r: Result<Handle, Fault>)
      requires Ready(disk) && Replayed(c, disk, st) && Open(c, st) && st.sealPending.None?
      requires EarliestPending(st.cells, first) && ActiveIn(st.cells, |st.cells|) < c.maxParallel
      modifies this`disk, this`fuse
      ensures r == Failure(Crash) ==> fuse == 0
      ensures old(fuse) <= fuse + 3
      ensures old(disk).journal <= disk.journal && SameReceipts(old(disk), disk)
      ensures r.Success? ==>
        && ReservedNext(c, disk.journal, r.value) && |disk.journal| == |old(disk).journal| + 1
        && disk.journal[|disk.journal| - 1].Event() == ReservedEvent(r.value)
      ensures r.Failure? ==> !Declined(r.error)
      ensures old(Good()) && Settled(c, old(disk)) ==> Good() && (r.Failure? ==> r.error == Crash)
    {
      hide Inv, Trail, ValidLedger, Step, Artifacts, Replay, Trailing, Recoverable, Justified, Enabled;
      hide Ready, Replayed, ReservedNext;
      ReplayedParts(c, disk, st);
      var now: Time := *;
      ghost var front := disk.journal;
      var run := c.schedule[first];
      ReservationJustified(c, disk, st, run, first, now);
      var entry :- AppendEvent(Reserved(run, first + 1, now));
      var handle := Handle(run, first + 1, now, entry.sha);
      ReservationTakesEffect(c, front, entry, st, handle);
      var _ :- Refresh();
      return Success(handle);
    }

    method OrdinalOf(run: RunId) returns (o: nat)
      ensures o == 0 <==> run !in c.schedule
      ensures o > 0 ==> c.Scheduled(run, o)
    {
      for i := 0 to |c.schedule|
        invariant run !in c.schedule[..i]
      {
        if c.schedule[i] == run { return i + 1; }
      }
      return 0;
    }

    /**
     Irreversibly consume one live reservation.  It returns successfully only to
     the caller whose own call recorded the start, and never twice for one run.
     */
    method BeginReservedAttempt(handle: Handle, plan: Plan, startedAt: Time) returns (r: Result<Start, Fault>)
      modifies this`disk, this`fuse, this`launches
      ensures r == Failure(Crash) ==> fuse == 0
      ensures old(fuse) <= fuse + RecoveryCost(c) + 4
      ensures old(Good()) && (r != Failure(Crash) || old(fuse) > RecoveryCost(c) + 4) ==>
        BeginAnswer(c, Recovered(c, old(disk)), handle, plan, r)
      ensures old(disk).journal <= disk.journal
      ensures r.Success? ==> Began(c, disk, handle, plan, startedAt) && r.value == disk.starts[handle.run]
      ensures r.Success? ==> handle.run !in old(disk).starts && launches == old(launches) + [handle.run]
      ensures r.Success? ==>
        && StartsThen(old(disk).journal, disk.journal, StartedEvent(r.value))
        && SameReceipts(Effect(c, old(disk), PublishStart(r.value)), disk)
      ensures r.Failure? ==> launches == old(launches) && (Declined(r.error) ==> OnlyStarts(old(disk), disk))
      ensures r == Failure(Refused(PlanMismatch)) <==> !PlanFits(c, handle.run, plan)
      ensures r == Failure(Refused(StaleHandle)) ==> !Holds(c, disk, handle)
      ensures r == Failure(Refused(StartExists)) ==> AlreadyRunning(c, disk, handle)
      ensures old(Good()) ==> Good() && (r.Failure? ==> Clean(r.error))
      ensures old(Good()) && r.Failure? && r.error.Refused? ==> r.error.why in {PlanMismatch, StaleHandle, StartExists}
      ensures old(Sound()) ==> Sound()
    {
      r := ConsumeReservation(handle, plan, startedAt);
      if old(Sound()) { LaunchesPersist(c, old(disk), disk, launches); }
      if r.Success? {
        if old(Sound()) { NewLaunch(c, old(disk), disk, launches, handle, plan, startedAt); }
        launches := launches + [handle.run];
      }
    }

    method ConsumeReservation(handle: Handle, plan: Plan, startedAt: Time) returns (r: Result<Start, Fault>)
      modifies this`disk, this`fuse
      ensures r == Failure(Crash) ==> fuse == 0
      ensures old(fuse) <= fuse + RecoveryCost(c) + 4
      ensures old(Good()) && (r != Failure(Crash) || old(fuse) > RecoveryCost(c) + 4) ==>
        BeginAnswer(c, Recovered(c, old(disk)), handle, plan, r)
      ensures old(disk).journal <= disk.journal
      ensures r.Success? ==> Began(c, disk, handle, plan, startedAt) && r.value == disk.starts[handle.run]
      ensures r.Success? ==> handle.run !in old(disk).starts && |old(disk).journal| < |disk.journal|
      ensures r.Success? ==>
        && StartsThen(old(disk).journal, disk.journal, StartedEvent(r.value))
        && SameReceipts(Effect(c, old(disk), PublishStart(r.value)), disk)
      ensures r.Failure? && Declined(r.error) ==> OnlyStarts(old(disk), disk)
      ensures r == Failure(Refused(PlanMismatch)) <==> !PlanFits(c, handle.run, plan)
      ensures r == Failure(Refused(StaleHandle)) ==> !Holds(c, disk, handle)
      ensures r == Failure(Refused(StartExists)) ==> AlreadyRunning(c, disk, handle)
      ensures old(Good()) ==> Good() && (r.Failure? ==> Clean(r.error))
      ensures old(Good()) && r.Failure? && r.error.Refused? ==> r.error.why in {PlanMismatch, StaleHandle, StartExists}
    {
      hide Inv, Trail, ValidLedger, Step, Artifacts, Replay, Trailing, Recoverable, Justified, Enabled, Settled;
      hide Recovered, PlanFits, Ready, Began;
      var o := OrdinalOf(handle.run);
      OnlyOrdinal(c, handle.run, plan, o);
      if o == 0 || plan.baseline != c.baselines[o - 1] || plan.runtimeTcb != c.runtimeTcb {
        return Failure(Refused(PlanMismatch));
      }
      var st :- Enter();
      var current := st.cells[o - 1];
      if !current.Active() || handle.ordinal != o || current.res != Reservation(handle.reservedAt, handle.entrySha) {
        return Failure(Refused(StaleHandle));
      }
      if current.Running? { return Failure(Refused(StartExists)); }
      if handle.run in disk.terminals {
        HeldHasNoTerminal(c, disk, st, o);
        return Failure(Integrity);
      }
      // the attempt ledger and its genesis anchor are created here
      ghost var front := disk;
      r := RecordStart(handle, st, Start(handle.run, o, startedAt, handle.entrySha, c.study, plan));
      if r.Success? { StartsThenOne(old(disk), front, disk.journal); }
    }

    /** Publish the start receipt of a held run and journal it. */
    method RecordStart(handle: Handle, st: State, start: Start) returns (r: Result<Start, Fault>)
      requires Ready(disk) && Replayed(c, disk, st) && c.Scheduled(handle.run, handle.ordinal)
      requires st.cells[handle.ordinal - 1] == Held(Reservation(handle.reservedAt, handle.entrySha))
      requires start == Start(handle.run, handle.ordinal, start.startedAt, handle.entrySha, c.study, start.plan)
      requires start.plan.baseline == c.baselines[handle.ordinal - 1] && start.plan.runtimeTcb == c.runtimeTcb
      requires handle.run !in disk.starts && handle.run !in disk.terminals
      modifies this`disk, this`fuse
      ensures r == Failure(Crash) ==> fuse == 0
      ensures old(fuse) <= fuse + 4
      ensures old(disk).journal <= disk.journal
      ensures r.Success? ==>
        && Began(c, disk, handle, start.plan, start.startedAt) && r.value == start == disk.starts[handle.run]
        && |disk.journal| == |old(disk).journal| + 1
        && disk.journal[|disk.journal| - 1].Event() == StartedEvent(start)
        && SameReceipts(Effect(c, old(disk), PublishStart(start)), disk)
      ensures r.Failure? ==> !Declined(r.error)
      ensures old(Good()) && Settled(c, old(disk)) ==> Good() && (r.Failure? ==> r.error == Crash)
    {
      hide Inv, Trail, ValidLedger, Step, Artifacts, Replay, Trailing, Recoverable, Justified, Enabled, Settled;
      hide Began, Ready, Replayed;
      ghost var before := disk;
      HeldMayStart(c, disk, st, start);
      StillReady(c, disk, start);
      ReplayedParts(c, disk, st);
      var _ :- Durable(PublishStart(start));
      var event := Started(start.run, start.ordinal, handle.entrySha, Sha(start), Sha(start.plan), start.startedAt);
      if old(Good()) { PublishedStartJustified(c, before, st, start, event); }
      var entry :- AppendEvent(event);
      StartTakesEffect(c, before.journal, entry, st, handle, start, disk);
      var _ :- Refresh();
      return Success(start);
    }

    /** Record a published terminal receipt, once; a repeat of the same one is accepted. */
    method RecordTerminal(run: RunId) returns (r: Result<State, Fault>)
      modifies this`disk, this`fuse
      ensures r == Failure(Crash) ==> fuse == 0
      ensures old(fuse) <= fuse + RecoveryCost(c) + 3
      ensures old(Good()) && (r != Failure(Crash) || old(fuse) > RecoveryCost(c) + 3) ==>
        TerminalAnswer(c, old(disk), Recovered(c, old(disk)), run, r)
      ensures old(disk).journal <= disk.journal && SameReceipts(old(disk), disk)
      ensures r.Success? ==> EndRecorded(c, disk, run) && Replayed(c, disk, r.value)
      ensures r.Success? ==>
        || OnlyStarts(old(disk), disk)
        || StartsThen(old(disk).journal, disk.journal, EndedEvent(c, disk.terminals[run]))
      ensures r.Failure? && Declined(r.error) ==> OnlyStarts(old(disk), disk)
      ensures r.Failure? && r.error.Refused? ==> TerminalRefused(c, disk, run, r.error.why)
      ensures old(Good()) ==> Good() && (r.Failure? ==> Clean(r.error))
      ensures old(Sound()) ==> Sound()
    {
      r := AnchorTerminal(run);
      if old(Sound()) { LaunchesPersist(c, old(disk), disk, launches); }
    }

    method AnchorTerminal(run: RunId) returns (r: Result<State, Fault>)
      modifies this`disk, this`fuse
      ensures r == Failure(Crash) ==> fuse == 0
      ensures old(fuse) <= fuse + RecoveryCost(c) + 3
      ensures old(Good()) && (r != Failure(Crash) || old(fuse) > RecoveryCost(c) + 3) ==>
        TerminalAnswer(c, old(disk), Recovered(c, old(disk)), run, r)
      ensures old(disk).journal <= disk.journal && SameReceipts(old(disk), disk)
      ensures r.Success? ==> EndRecorded(c, disk, run) && Replayed(c, disk, r.value)
      ensures r.Success? ==>
        || OnlyStarts(old(disk), disk)
        || StartsThen(old(disk).journal, disk.journal, EndedEvent(c, disk.terminals[run]))
      ensures r.Failure? && Declined(r.error) ==> OnlyStarts(old(disk), disk)
      ensures r.Failure? && r.error.Refused? ==> TerminalRefused(c, disk, run, r.error.why)
      ensures old(Good()) ==> Good() && (r.Failure? ==> Clean(r.error))
    {
      hide Inv, Trail, ValidLedger, Step, Replay, Artifacts, Trailing, Recoverable, Settled, Ready, Recovered;
      hide Replayed, EndRecorded, IndexOf, RunCell;
      var o := OrdinalOf(run);
      if o == 0 { return Failure(Refused(UnknownRun)); }
      var st :- Enter();
      ghost var front := disk;
      r := EndCell(run, o, st);
      TerminalAnswerAlike(c, old(disk), front, st, run, r);
      if r.Success? && disk != front { StartsThenOne(old(disk), front, disk.journal); }
    }

    /** Match the terminal receipt of a scheduled run with its cell, and journal it if the run is running. */
    method EndCell(run: RunId, o: int, st: State) returns (r: Result<State, Fault>)
      requires Ready(disk) && Replayed(c, disk, st) && c.Scheduled(run, o)
      modifies this`disk, this`fuse
      ensures r == Failure(Crash) ==> fuse == 0
      ensures old(fuse) <= fuse + 3
      ensures old(disk).journal <= disk.journal && SameReceipts(old(disk), disk)
      ensures r.Success? ==> EndRecorded(c, disk, run) && Replayed(c, disk, r.value)
      ensures r.Success? ==>
        || disk == old(disk)
        || (|disk.journal| == |old(disk).journal| + 1
            && disk.journal[|disk.journal| - 1].Event() == EndedEvent(c, disk.terminals[run]))
      ensures r.Failure? && Declined(r.error) ==> disk == old(disk)
      ensures r.Failure? && r.error.Refused? ==> TerminalRefused(c, disk, run, r.error.why)
      ensures old(Good()) && Settled(c, old(disk)) ==>
        Good() && (r != Failure(Crash) ==> TerminalAnswer(c, old(disk), st, run, r))
    {
      hide Inv, Trail, ValidLedger, Step, Replay, Artifacts, Trailing, Recoverable, Settled, Ready;
      hide Replayed, CellArtifacts, RunCell, IndexOf, EndRecorded;
      CellAt(c, disk, st, run, o);
      var cell := st.cells[o - 1];
      if cell.Pending? { return Failure(Refused(NotActive)); }
      if cell.Held? { return Failure(Refused(NotStarted)); }
      ConsumedHasStart(c, disk, cell, o - 1);
      if run !in disk.terminals || run !in disk.starts
         || !StartAccepted(c, disk.starts[run], run, o, cell.res.entrySha)
         || !EndAccepted(disk.terminals[run], disk.starts[run], run) {
        return Failure(Refused(BadReceipt));
      }
      var receipt := disk.terminals[run];
      if cell.Done? {
        DoneIsRecorded(c, disk, run, o, cell);
        if cell.terminalSha == Sha(receipt) { return Success(st); }
        return Failure(Refused(NotActive));
      }
      r := RecordEnd(run, o, st, receipt);
    }

    /** Journal the published terminal receipt of a running run. */
    method RecordEnd(run: RunId, o: int, st: State, receipt: TerminalReceipt) returns (r: Result<State, Fault>)
      requires Ready(disk) && Replayed(c, disk, st) && c.Scheduled(run, o) && st.cells[o - 1].Running?
      requires run in disk.starts && run in disk.terminals && receipt == disk.terminals[run]
      requires EndAccepted(receipt, disk.starts[run], run)
      modifies this`disk, this`fuse
      ensures r == Failure(Crash) ==> fuse == 0
      ensures old(fuse) <= fuse + 3
      ensures old(disk).journal <= disk.journal && SameReceipts(old(disk), disk)
      ensures r.Success? ==> EndRecorded(c, disk, run) && Replayed(c, disk, r.value)
      ensures r.Success? ==>
        && |disk.journal| == |old(disk).journal| + 1
        && disk.journal[|disk.journal| - 1].Event()
           == Ended(run, o, receipt.status, Sha(receipt), receipt.recordedAt)
      ensures r.Failure? ==> !Declined(r.error)
      ensures old(Good()) && Settled(c, old(disk)) ==> Good() && (r.Failure? ==> r.error == Crash)
    {
      hide Inv, Trail, ValidLedger, Step, ReleaseEvidence, Evidence, LiveState, SealEvidence;
      ghost var front := disk.journal;
      var event := Ended(run, o, receipt.status, Sha(receipt), receipt.recordedAt);
      EndJustified(c, disk, st, run, o, event);
      var entry :- AppendEvent(event);
      EndTakesEffect(c, front, entry, st, run, o);
      r := Refresh();
    }

    /** Give back a reservation that has no scored start, keeping its preparation in quarantine. */
    method ReleasePrestart(run: RunId, reason: string) returns (r: Result<State, Fault>)
      modifies this`disk, this`fuse
      ensures r == Failure(Crash) ==> fuse == 0
      ensures old(fuse) <= fuse + RecoveryCost(c) + 4
      ensures old(Good()) && (r != Failure(Crash) || old(fuse) > RecoveryCost(c) + 4) ==>
        ReleaseAnswer(c, old(disk), Recovered(c, old(disk)), run, r)
      ensures old(disk).journal <= disk.journal
      ensures disk.starts == old(disk).starts && disk.terminals == old(disk).terminals
      ensures r.Success? ==> GivenBack(c, disk, run) && Replayed(c, disk, r.value)
      ensures r.Success? ==> Quarantined(c, old(disk), disk, run, reason)
      ensures r.Failure? && Declined(r.error) ==> OnlyStarts(old(disk), disk)
      ensures r.Failure? && r.error.Refused? ==> ReleaseRefused(c, disk, run, reason, r.error.why)
      ensures old(Good()) ==> Good() && (r.Failure? ==> Clean(r.error))
      ensures old(Sound()) ==> Sound()
    {
      r := QuarantineAndRelease(run, reason);
      if old(Sound()) { LaunchesPersist(c, old(disk), disk, launches); }
    }

    method QuarantineAndRelease(run: RunId, reason: string) returns (r: Result<State, Fault>)
      modifies this`disk, this`fuse
      ensures r == Failure(Crash) ==> fuse == 0
      ensures old(fuse) <= fuse + RecoveryCost(c) + 4
      ensures old(Good()) && (r != Failure(Crash) || old(fuse) > RecoveryCost(c) + 4) ==>
        ReleaseAnswer(c, old(disk), Recovered(c, old(disk)), run, r)
      ensures old(disk).journal <= disk.journal
      ensures disk.starts == old(disk).starts && disk.terminals == old(disk).terminals
      ensures r.Success? ==> GivenBack(c, disk, run) && Replayed(c, disk, r.value)
      ensures r.Success? ==> Quarantined(c, old(disk), disk, run, reason)
      ensures r.Failure? && Declined(r.error) ==> OnlyStarts(old(disk), disk)
      ensures r.Failure? && r.error.Refused? ==> ReleaseRefused(c, disk, run, reason, r.error.why)
      ensures old(Good()) ==> Good() && (r.Failure? ==> Clean(r.error))
    {
      hide Inv, Trail, ValidLedger, Step, Artifacts, Replay, Trailing, Recoverable, Justified, Enabled, Settled;
      hide Recovered, RunCell, IndexOf, Ready, GivenBack, Quarantined;
      var o := OrdinalOf(run);
      var st :- Enter();
      if o == 0 { return Failure(Refused(NotActive)); }
      ghost var front := disk;
      r := ReleaseCell(run, o, st, reason);
      ReleaseAnswerAlike(c, old(disk), front, st, run, r);
      if r.Success? { StartsThenQuarantined(c, old(disk), front, disk, run, reason); }
    }

    /** Quarantine the preparation of a scheduled run and give its cell back, if it is held. */
    method ReleaseCell(run: RunId, o: int, st: State, reason: string) returns (r: Result<State, Fault>)
      requires Ready(disk) && Replayed(c, disk, st) && NoUnrecordedStart(c, disk, st) && c.Scheduled(run, o)
      modifies this`disk, this`fuse
      ensures r == Failure(Crash) ==> fuse == 0
      ensures old(fuse) <= fuse + 4
      ensures old(disk).journal <= disk.journal
      ensures disk.starts == old(disk).starts && disk.terminals == old(disk).terminals
      ensures r.Success? ==> GivenBack(c, disk, run) && Replayed(c, disk, r.value)
      ensures r.Success? ==>
        |disk.journal| == |old(disk).journal| + 1 && Quarantined(c, old(disk), disk, run, reason)
      ensures r.Failure? && Declined(r.error) ==> disk == old(disk)
      ensures r.Failure? && r.error.Refused? ==> ReleaseRefused(c, disk, run, reason, r.error.why)
      ensures old(Good()) && Settled(c, old(disk)) ==>
        Good() && (r != Failure(Crash) ==> ReleaseAnswer(c, old(disk), st, run, r))
    {
      hide Inv, Trail, ValidLedger, Step, Artifacts, Replay, Trailing, Recoverable, Justified, Enabled, Settled;
      hide RunCell, IndexOf, GivenBack, CellArtifacts;
      CellAt(c, disk, st, run, o);
      if !st.cells[o - 1].Active() { return Failure(Refused(NotActive)); }
      if st.cells[o - 1].Running? { return Failure(Refused(StartExists)); }
      assert run !in disk.starts;
      if run in disk.terminals {
        HeldHasNoTerminal(c, disk, st, o);
        return Failure(Integrity);
      }
      var id := QuarantineId(run, disk.anchor.value.sha);
      var at: Time := *;
      if id in disk.manifests { at := disk.manifests[id].quarantinedAt; }
      var manifest := Manifest(run, o, Sha(reason), at);
      ReplayShape(c, disk.journal);
      if id in disk.manifests {
        if disk.manifests[id] != manifest { return Failure(Refused(ManifestDiffers)); }
      } else {
        ManifestMayBePublished(c, disk, st, id, manifest);
        var _ :- Durable(PublishManifest(id, manifest));
      }
      r := RecordRelease(run, o, st, Released(run, o, id, Sha(reason), Sha(manifest), at));
    }

    /** Journal the release of a held run whose quarantine manifest is published. */
    method RecordRelease(run: RunId, o: int, st: State, event: Event) returns (r: Result<State, Fault>)
      requires Ready(disk) && Replay(c, disk.journal) == Some(st) && st.Live? && |st.cells| == |c.schedule|
      requires c.Scheduled(run, o) && st.cells[o - 1].Held?
      requires event.Released? && event.run == run && event.ordinal == o && ManifestAccepted(disk.manifests, event)
      requires run !in disk.starts && run !in disk.terminals
      modifies this`disk, this`fuse
      ensures r == Failure(Crash) ==> fuse == 0
      ensures old(fuse) <= fuse + 3
      ensures old(disk).journal <= disk.journal
      ensures disk.starts == old(disk).starts && disk.terminals == old(disk).terminals
      ensures r.Success? ==> GivenBack(c, disk, run) && Replayed(c, disk, r.value)
      ensures r.Success? ==>
        && |disk.journal| == |old(disk).journal| + 1 && disk.journal[|disk.journal| - 1].Event() == event
      ensures SameReceipts(old(disk), disk)
      ensures r.Failure? ==> !Declined(r.error)
      ensures old(Good()) && Settled(c, old(disk)) ==> Good() && (r.Failure? ==> r.error == Crash)
    {
      hide Inv, Trail, ValidLedger, Step, Artifacts, Replay, Trailing, Recoverable, Justified, Enabled, Settled;
      ghost var front := disk.journal;
      ReleaseJustified(c, disk, st, event);
      var entry :- AppendEvent(event);
      ReleaseTakesEffect(c, front, entry, st, run, o);
      r := Refresh();
    }

    /** Seal the complete terminal set at `path`: prepare, publish, record. */
    method Seal(path: string) returns (r: Result<State, Fault>)
      modifies this`disk, this`fuse
      ensures r == Failure(Crash) ==> fuse == 0
      ensures old(fuse) <= fuse + RecoveryCost(c) + 7
      ensures old(Good()) && (r != Failure(Crash) || old(fuse) > RecoveryCost(c) + 7) ==>
        SealAnswer(old(disk), Recovered(c, old(disk)), path, r)
      ensures old(disk).journal <= disk.journal
      ensures disk.starts == old(disk).starts && disk.terminals == old(disk).terminals
      ensures r.Success? ==> Replayed(c, disk, r.value) && SealedAt(c, disk, path)
      ensures r.Success? ==> OnlySeals(old(disk), disk, path, r.value.sealed)
      ensures r.Failure? && Declined(r.error) ==>
        disk.outputs == old(disk).outputs && disk.manifests == old(disk).manifests
      ensures r.Success? && Prepared(c, old(disk).journal).Some? ==> r.value.sealed == Prepared(c, old(disk).journal)
      ensures r.Failure? && r.error.Refused? ==> SealRefused(c, disk, path, r.error.why)
      ensures old(Good()) ==> Good() && (r.Failure? ==> Clean(r.error))
      ensures old(Good()) && r.Success? ==> Collects(c, disk.outputs[path], r.value)
      ensures old(Sound()) ==> Sound()
    {
      r := PrepareAndSeal(path);
      if old(Good()) && r.Success? { SealedDocumentIsComplete(c, disk); }
      if old(Sound()) { LaunchesPersist(c, old(disk), disk, launches); }
    }

    method PrepareAndSeal(path: string) returns (r: Result<State, Fault>)
      modifies this`disk, this`fuse
      ensures r == Failure(Crash) ==> fuse == 0
      ensures old(fuse) <= fuse + RecoveryCost(c) + 7
      ensures old(Good()) && (r != Failure(Crash) || old(fuse) > RecoveryCost(c) + 7) ==>
        SealAnswer(old(disk), Recovered(c, old(disk)), path, r)
      ensures old(disk).journal <= disk.journal
      ensures disk.starts == old(disk).starts && disk.terminals == old(disk).terminals
      ensures r.Success? ==> Replayed(c, disk, r.value) && SealedAt(c, disk, path)
      ensures r.Success? ==> OnlySeals(old(disk), disk, path, r.value.sealed)
      ensures r.Failure? && Declined(r.error) ==>
        disk.outputs == old(disk).outputs && disk.manifests == old(disk).manifests
      ensures r.Success? && Prepared(c, old(disk).journal).Some? ==> r.value.sealed == Prepared(c, old(disk).journal)
      ensures r.Failure? && r.error.Refused? ==> SealRefused(c, disk, path, r.error.why)
      ensures old(Good()) ==> Good() && (r.Failure? ==> Clean(r.error))
    {
      hide Inv, Trail, ValidLedger, Step, Artifacts, Justified, Trailing, Recoverable, Recovered;
      var st :- Enter();
      PreparedPersists(c, old(disk).journal, disk.journal);
      var finished := EveryDone(st.cells);
      if !finished { return Failure(Refused(NotFinished)); }
      ReplayShape(c, disk.journal);
      if st.sealed.Some? {
        SealIsOnDisk(c, disk, st);
        var seal := st.sealed.value;
        if seal.path != Sha(path) || path !in disk.outputs || Sha(disk.outputs[path]) != seal.document {
          return Failure(Refused(OutputDiffers));
        }
        return Success(st);
      }
      r := FinishSeal(path, st);
    }

    /** Prepare, publish and record the seal of an open study. */
    method FinishSeal(path: string, st: State) returns (r: Result<State, Fault>)
      requires Ready(disk) && Replayed(c, disk, st) && AllDone(st.cells) && Open(c, st)
      modifies this`disk, this`fuse
      ensures r == Failure(Crash) ==> fuse == 0
      ensures old(fuse) <= fuse + 7
      ensures old(disk).journal <= disk.journal
      ensures disk.starts == old(disk).starts && disk.terminals == old(disk).terminals
      ensures r.Success? ==> Replayed(c, disk, r.value) && SealedAt(c, disk, path)
      ensures r.Success? ==> OnlySeals(old(disk), disk, path, r.value.sealed)
      ensures r.Failure? && Declined(r.error) ==>
        disk.outputs == old(disk).outputs && disk.manifests == old(disk).manifests
      ensures r.Success? && st.sealPending.Some? ==> r.value.sealed == st.sealPending
      ensures r.Failure? && r.error.Refused? ==> SealRefused(c, disk, path, r.error.why)
      ensures old(Good()) && Settled(c, old(disk)) ==>
        Good() && (r != Failure(Crash) ==> SealAnswer(old(disk), st, path, r))
    {
      hide Inv, Trail, ValidLedger, Step, Artifacts, Justified, Trailing, Replay, SealedAt, SealRefused, Settled;
      var seal :- PrepareSeal(path, st);
      r := PublishAndRecord(path, seal);
    }

    /** Record which document will be sealed at which path, or find that already recorded. */
    method PrepareSeal(path: string, st: State) returns (r: Result<Seal, Fault>)
      requires Ready(disk) && Replayed(c, disk, st) && AllDone(st.cells) && Open(c, st)
      modifies this`disk, this`fuse
      ensures r == Failure(Crash) ==> fuse == 0
      ensures old(fuse) <= fuse + 3
      ensures old(disk) ==
        disk.(journal := old(disk).journal, anchor := old(disk).anchor, checkpoints := old(disk).checkpoints)
      ensures old(disk).journal <= disk.journal
      ensures forall k | |old(disk).journal| <= k < |disk.journal| :: disk.journal[k].Event().SealStarted?
      ensures r.Success? ==>
        forall k | |old(disk).journal| <= k < |disk.journal| :: disk.journal[k].Event() == SealStarted(r.value)
      ensures r.Success? ==>
        && Ready(disk) && Awaiting(c, disk.journal, r.value)
        && r.value.path == Sha(path)
        && r.value.document == Sha(SealDocument(c, disk.starts, disk.terminals, r.value.sealedAt))
        && (st.sealPending.Some? ==> r.value == st.sealPending.value)
      ensures r.Failure? && r.error.Refused? ==> SealRefused(c, disk, path, r.error.why)
      ensures old(Good()) && Settled(c, old(disk)) ==>
        && Good() && (r.Success? ==> Settled(c, disk))
        && (r.Failure? ==> r.error == Crash || (r.error == Refused(OutputDiffers) && PreparedElsewhere(st, path)))
      ensures r.Success? ==> !PreparedElsewhere(st, path)
    {
      hide Inv, Trail, ValidLedger, Step, Artifacts, Trailing;
      if st.sealPending.Some? { PreparedIsTrue(c, disk, st); }
      var sealedAt: Time := *;
      if st.sealPending.Some? { sealedAt := st.sealPending.value.sealedAt; }
      var document := SealDocument(c, disk.starts, disk.terminals, sealedAt);
      var seal := StudyEvents.Seal(Sha(document), Sha(path), sealedAt);
      if st.sealPending.Some? {
        if st.sealPending.value != seal { return Failure(Refused(OutputDiffers)); }
        return Success(seal);
      }
      ghost var front := disk.journal;
      var entry :- AppendEvent(SealStarted(seal));
      PreparationTakesEffect(c, front, entry, st, seal);
      return Success(seal);
    }

    /** Publish the prepared document, or find it published, and record the seal. */
    method PublishAndRecord(path: string, seal: Seal) returns (r: Result<State, Fault>)
      requires Ready(disk) && Awaiting(c, disk.journal, seal) && seal.path == Sha(path)
      requires seal.document == Sha(SealDocument(c, disk.starts, disk.terminals, seal.sealedAt))
      modifies this`disk, this`fuse
      ensures r == Failure(Crash) ==> fuse == 0
      ensures old(fuse) <= fuse + 4
      ensures old(disk).journal <= disk.journal
      ensures disk.starts == old(disk).starts && disk.terminals == old(disk).terminals
      ensures r.Success? ==> Replayed(c, disk, r.value) && SealedAt(c, disk, path) && r.value.sealed == Some(seal)
      ensures r.Failure? && r.error.Refused? ==> SealRefused(c, disk, path, r.error.why)
      ensures r.Success? ==> !TakenBy(old(disk), path, seal)
      ensures r.Success? ==> OnlySeals(old(disk), disk, path, Some(seal))
      ensures r.Failure? && Declined(r.error) ==> OnlyStarts(old(disk), disk)
      ensures old(Good()) && Settled(c, old(disk)) ==>
        && Good()
        && (r.Failure? ==> r.error == Crash || (r.error == Refused(OutputDiffers) && TakenBy(old(disk), path, seal)))
    {
      hide Inv, Trail, ValidLedger, Step, Artifacts, Trailing, Enabled, Justified, Settled;
      var _ :- PublishDocument(path, seal);
      ghost var front := disk.journal;
      SealJustified(c, disk, path, seal);
      var entry :- AppendEvent(Sealed(seal));
      SealTakesEffect(c, front, entry, seal);
      r := Refresh();
    }

    /** Put the prepared document at the path, unless it is there. */
    method PublishDocument(path: string, seal: Seal) returns (o: Result<(), Fault>)
      requires Ready(disk) && Awaiting(c, disk.journal, seal) && seal.path == Sha(path)
      requires seal.document == Sha(SealDocument(c, disk.starts, disk.terminals, seal.sealedAt))
      modifies this`disk, this`fuse
      ensures o == Failure(Crash) ==> fuse == 0
      ensures old(fuse) <= fuse + 1
      ensures disk == old(disk).(outputs := disk.outputs)
      ensures o.Success? ==>
        && !TakenBy(old(disk), path, seal)
        && disk.outputs == old(disk).outputs[path := SealDocument(c, disk.starts, disk.terminals, seal.sealedAt)]
        && (path in old(disk).outputs ==> disk.outputs == old(disk).outputs)
      ensures o.Failure? ==>
        && disk == old(disk) && o.error in {Crash, Refused(OutputDiffers)}
        && (o.error.Refused? ==> TakenBy(disk, path, seal))
      ensures old(Good()) && Settled(c, old(disk)) ==> Good() && Settled(c, disk)
    {
      hide Inv, Trail, ValidLedger, Step, Artifacts, Trailing, Enabled, Justified, Settled, Replay;
      var document := SealDocument(c, disk.starts, disk.terminals, seal.sealedAt);
      if path in disk.outputs {
        if disk.outputs[path] != document { return Failure(Refused(OutputDiffers)); }
        return Success(());
      }
      OutputMayBePublished(c, disk, path, seal, document);
      var _ :- Durable(PublishOutput(path, document));
      return Success(());
    }
  }

  // ---------------------------------------------------------- proof helpers

  lemma LaunchesPersist(c: Config, d: Disk, d': Disk, launches: seq<RunId>)
    requires c.Valid() && Launched(c, d, launches) && d.journal <= d'.journal && Reachable(c, d')
    ensures Launched(c, d', launches)
  {
    ReachableInv(c, d');
    forall i | 0 <= i < |launches|
      ensures IsConsumed(c, d'.journal, launches[i])
    {
      ConsumedPersists(c, d.journal, d'.journal, launches[i]);
    }
  }

  /** A run whose cell was still held had not been launched. */
  lemma NewLaunch(c: Config, d: Disk, d': Disk, launches: seq<RunId>, h: Handle, plan: Plan, at: Time)
    requires c.Valid() && Launched(c, d, launches) && Launched(c, d', launches)
    requires d.journal < d'.journal && Reachable(c, d') && Began(c, d', h, plan, at)
    ensures Launched(c, d', launches + [h.run])
  {
    hide Replay, IsConsumed, HeldUnder, Began, Reachable;
    var front := d'.journal[..|d'.journal| - 1];
    BeganIsConsumed(c, d', h, plan, at);
    assert d.journal <= front;
    HeldIsNotConsumed(c, front, h);
    forall i | 0 <= i < |launches|
      ensures launches[i] != h.run
    {
      ConsumedPersists(c, d.journal, front, launches[i]);
    }
  }

  lemma BeganIsConsumed(c: Config, d: Disk, h: Handle, plan: Plan, at: Time)
    requires Began(c, d, h, plan, at)
    ensures d.journal != [] && HeldUnder(c, d.journal[..|d.journal| - 1], h)
    ensures Replay(c, d.journal).Some? && IsConsumed(c, d.journal, h.run)
  {
    hide Replay;
  }

  lemma HeldIsNotConsumed(c: Config, j: Journal, h: Handle)
    requires c.Valid() && HeldUnder(c, j, h)
    ensures !IsConsumed(c, j, h.run) && Replay(c, j).Some?
  {
    hide Replay;
  }

  lemma OnlyOrdinal(c: Config, run: RunId, plan: Plan, o: nat)
    requires c.Valid() && (o == 0 <==> run !in c.schedule) && (o > 0 ==> c.Scheduled(run, o))
    ensures o > 0 ==> IndexOf(c.schedule, run) == o - 1 && forall k | c.Scheduled(run, k) :: k == o
    ensures PlanFits(c, run, plan) <==>
      o > 0 && plan.baseline == c.baselines[o - 1] && plan.runtimeTcb == c.runtimeTcb
  {
    if o > 0 { assert c.schedule[IndexOf(c.schedule, run)] == c.schedule[o - 1]; }
  }

  /** The cell of a scheduled run, and what is on disk for it. */
  lemma CellAt(c: Config, d: Disk, st: State, run: RunId, o: int)
    requires c.Valid() && c.Scheduled(run, o) && Replayed(c, d, st)
    ensures st.Live? && |st.cells| == |c.schedule| && IndexOf(c.schedule, run) == o - 1
    ensures RunCell(c, d.journal, run) == Some(st.cells[o - 1]) && CellArtifacts(c, d, st.cells[o - 1], o - 1)
  {
    hide Replay;
    assert c.schedule[IndexOf(c.schedule, run)] == c.schedule[o - 1];
  }

  lemma ConsumedHasStart(c: Config, d: Disk, cell: Cell, i: nat)
    requires c.Valid() && i < |c.schedule| && CellArtifacts(c, d, cell, i) && cell.Consumed()
    ensures var run := c.schedule[i];
      && run in d.starts && StartAccepted(c, d.starts[run], run, i + 1, cell.res.entrySha)
      && (cell.Done? ==>
            && run in d.terminals && EndAccepted(d.terminals[run], d.starts[run], run)
            && cell.terminalSha == Sha(d.terminals[run]))
  {
  }

  lemma DoneIsRecorded(c: Config, d: Disk, run: RunId, o: int, cell: Cell)
    requires c.Valid() && c.Scheduled(run, o) && RunCell(c, d.journal, run) == Some(cell) && cell.Done?
    requires CellArtifacts(c, d, cell, o - 1)
    ensures EndRecorded(c, d, run)
  {
    hide RunCell;
  }

  lemma PendingHasNoReceipts(c: Config, d: Disk, st: State, i: nat)
    requires c.Valid() && Replayed(c, d, st) && i < |c.schedule| && st.cells[i].Pending?
    ensures c.schedule[i] !in d.starts && c.schedule[i] !in d.terminals
  {
    assert CellArtifacts(c, d, st.cells[i], i);
  }

  lemma HeldHasNoTerminal(c: Config, d: Disk, st: State, o: int)
    requires c.Valid() && Replayed(c, d, st) && 1 <= o <= |c.schedule| && st.cells[o - 1].Held?
    ensures Reachable(c, d) ==> c.schedule[o - 1] !in d.terminals
  {
    if Reachable(c, d) {
      ReachableInv(c, d);
      assert CellEvidence(c, d, st.cells, o - 1);
    }
  }

  /** A justified event on a live journal takes its step. */
  lemma TakesStep(c: Config, j: Journal, entry: Entry<Event>, st: State)
    requires Replay(c, j) == Some(st)
    ensures Replay(c, j + [entry]) == Step(c, st, entry)
    ensures (j + [entry])[..|j|] == j && (j + [entry])[|j|] == entry
  {
    ReplaySnoc(c, j, entry);
    assert (j + [entry])[..|j|] == j;
  }

  lemma ReservationJustified(c: Config, d: Disk, st: State, run: RunId, first: nat, now: Time)
    requires c.Valid() && Replay(c, d.journal) == Some(st) && Open(c, st) && st.sealPending.None?
    requires first < |st.cells| && run == c.schedule[first] && EarliestPending(st.cells, first)
    requires ActiveIn(st.cells, |st.cells|) < c.maxParallel
    ensures Justified(c, d, Reserved(run, first + 1, now))
  {
  }

  lemma ReservationTakesEffect(c: Config, j: Journal, entry: Entry<Event>, st: State, h: Handle)
    requires c.Valid() && Replay(c, j) == Some(st) && Open(c, st) && st.sealPending.None?
    requires c.Scheduled(h.run, h.ordinal) && EarliestPending(st.cells, h.ordinal - 1)
    requires ActiveIn(st.cells, |st.cells|) < c.maxParallel
    requires entry.Event() == Reserved(h.run, h.ordinal, h.reservedAt) && entry.sha == h.entrySha
    ensures ReservedNext(c, j + [entry], h)
  {
    hide Replay;
    TakesStep(c, j, entry, st);
  }

  lemma TerminalAnswerAlike(c: Config, d: Disk, d': Disk, st: State, run: RunId, r: Result<State, Fault>)
    requires d'.starts == d.starts && d'.terminals == d.terminals
    ensures TerminalAnswer(c, d', st, run, r) == TerminalAnswer(c, d, st, run, r)
  {
  }

  lemma ReleaseAnswerAlike(c: Config, d: Disk, d': Disk, st: State, run: RunId, r: Result<State, Fault>)
    requires d'.manifests == d.manifests
    ensures ReleaseAnswer(c, d', st, run, r) == ReleaseAnswer(c, d, st, run, r)
  {
  }

  lemma StartsThenQuarantined(c: Config, d: Disk, d': Disk, d'': Disk, run: RunId, reason: string)
    requires OnlyStarts(d, d') && |d''.journal| == |d'.journal| + 1 && Quarantined(c, d', d'', run, reason)
    ensures Quarantined(c, d, d'', run, reason)
  {
    StartsThenOne(d, d', d''.journal);
  }

  lemma StartsThenOne(d: Disk, d': Disk, j: Journal)
    requires OnlyStarts(d, d') && d'.journal <= j && |j| == |d'.journal| + 1
    ensures StartsThen(d.journal, j, j[|j| - 1].Event())
  {
  }

  lemma ReplayedParts(c: Config, d: Disk, st: State)
    requires c.Valid() && Replayed(c, d, st)
    ensures Replay(c, d.journal) == Some(st) && st.Live? && |st.cells| == |c.schedule|
  {
  }

  lemma StillReady(c: Config, d: Disk, s: Start)
    requires Ready(d)
    ensures Ready(Effect(c, d, PublishStart(s)))
  {
  }

  lemma HeldMayStart(c: Config, d: Disk, st: State, s: Start)
    requires c.Valid() && Replayed(c, d, st) && c.Scheduled(s.run, s.ordinal)
    requires st.cells[s.ordinal - 1].Held? && s.run !in d.starts && s.run !in d.terminals
    requires StartAccepted(c, s, s.run, s.ordinal, st.cells[s.ordinal - 1].res.entrySha)
    ensures Settled(c, d) ==> Enabled(c, d, PublishStart(s))
  {
    ReplayShape(c, d.journal);
    UndoneRemains(st.cells, s.ordinal - 1);
  }

  lemma UndoneRemains(cells: seq<Cell>, i: nat)
    requires i < |cells| && !cells[i].Done?
    ensures !AllDone(cells)
  {
  }

  lemma PublishedStartJustified(c: Config, d: Disk, st: State, s: Start, e: Event)
    requires c.Valid() && Replayed(c, d, st) && c.Scheduled(s.run, s.ordinal) && st.cells[s.ordinal - 1].Held?
    requires StartAccepted(c, s, s.run, s.ordinal, st.cells[s.ordinal - 1].res.entrySha)
    requires e == Started(s.run, s.ordinal, s.reservation, Sha(s), Sha(s.plan), s.startedAt)
    ensures Settled(c, d) ==> Settled(c, Effect(c, d, PublishStart(s)))
    ensures Justified(c, Effect(c, d, PublishStart(s)), e)
  {
    ReplayShape(c, d.journal);
    UndoneRemains(st.cells, s.ordinal - 1);
  }

  lemma StartTakesEffect(c: Config, j: Journal, entry: Entry<Event>, st: State, h: Handle, s: Start, d: Disk)
    requires c.Valid() && Replay(c, j) == Some(st) && st.Live? && |st.cells| == |c.schedule|
    requires c.Scheduled(h.run, h.ordinal) && st.cells[h.ordinal - 1] == Held(Reservation(h.reservedAt, h.entrySha))
    requires entry.Event() == Started(h.run, h.ordinal, h.entrySha, Sha(s), Sha(s.plan), s.startedAt)
    requires s == Start(h.run, h.ordinal, s.startedAt, h.entrySha, c.study, s.plan)
    requires d.journal == j + [entry] && h.run in d.starts && d.starts[h.run] == s
    ensures Began(c, d, h, s.plan, s.startedAt)
  {
    hide Replay, Step;
    assert (j + [entry])[..|j|] == j;
    TakesStep(c, j, entry, st);
    OpenWhileUndone(c, j, st, h.ordinal - 1);
    StartStep(c, st, entry);
  }

  lemma StartStep(c: Config, st: State, entry: Entry<Event>)
    requires c.Valid() && Open(c, st) && entry.Event().Started?
    requires c.Scheduled(entry.Event().run, entry.Event().ordinal)
    requires st.cells[entry.Event().ordinal - 1].Held?
    requires st.cells[entry.Event().ordinal - 1].res.entrySha == entry.Event().reservation
    ensures var e, st' := entry.Event(), Step(c, st, entry);
      && st'.Some? && Open(c, st'.value)
      && st'.value.cells[e.ordinal - 1]
         == Running(st.cells[e.ordinal - 1].res, StartFacts(e.startSha, e.planSha, e.startedAt))
  {
  }

  lemma OpenWhileUndone(c: Config, j: Journal, st: State, i: nat)
    requires Replay(c, j) == Some(st) && st.Live? && |st.cells| == |c.schedule| && i < |st.cells| && !st.cells[i].Done?
    ensures Open(c, st) && st.sealPending.None?
  {
    ReplayShape(c, j);
    UndoneRemains(st.cells, i);
  }

  lemma EndJustified(c: Config, d: Disk, st: State, run: RunId, o: int, e: Event)
    requires c.Valid() && Replayed(c, d, st) && c.Scheduled(run, o) && st.cells[o - 1].Running?
    requires run in d.terminals && run in d.starts && EndAccepted(d.terminals[run], d.starts[run], run)
    requires var t := d.terminals[run]; e == Ended(run, o, t.status, Sha(t), t.recordedAt)
    ensures Justified(c, d, e)
  {
    OpenWhileUndone(c, d.journal, st, o - 1);
  }

  lemma EndTakesEffect(c: Config, j: Journal, entry: Entry<Event>, st: State, run: RunId, o: int)
    requires c.Valid() && Replay(c, j) == Some(st) && st.Live? && |st.cells| == |c.schedule|
    requires c.Scheduled(run, o) && st.cells[o - 1].Running?
    requires entry.Event().Ended? && entry.Event().run == run && entry.Event().ordinal == o
    requires TerminalStatus(entry.Event().status)
    ensures RunCell(c, j + [entry], run).Some? && RunCell(c, j + [entry], run).value.Done?
    ensures RunCell(c, j + [entry], run).value.terminalSha == entry.Event().terminalSha
  {
    hide Replay;
    TakesStep(c, j, entry, st);
    OpenWhileUndone(c, j, st, o - 1);
  }

  lemma ReleaseJustified(c: Config, d: Disk, st: State, e: Event)
    requires c.Valid() && Replay(c, d.journal) == Some(st) && st.Live? && |st.cells| == |c.schedule|
    requires e.Released? && c.Scheduled(e.run, e.ordinal) && st.cells[e.ordinal - 1].Held?
    requires e.run !in d.starts && e.run !in d.terminals && ManifestAccepted(d.manifests, e)
    ensures Justified(c, d, e)
  {
    OpenWhileUndone(c, d.journal, st, e.ordinal - 1);
  }

  lemma ManifestMayBePublished(c: Config, d: Disk, st: State, id: QuarantineId, m: Manifest)
    requires c.Valid() && Replay(c, d.journal) == Some(st) && Open(c, st) && id !in d.manifests
    ensures Settled(c, d) ==> Enabled(c, d, PublishManifest(id, m)) && Settled(c, Effect(c, d, PublishManifest(id, m)))
  {
  }

  lemma ReleaseTakesEffect(c: Config, j: Journal, entry: Entry<Event>, st: State, run: RunId, o: int)
    requires c.Valid() && Replay(c, j) == Some(st) && st.Live? && |st.cells| == |c.schedule|
    requires c.Scheduled(run, o) && st.cells[o - 1].Held?
    requires entry.Event().Released? && entry.Event().run == run && entry.Event().ordinal == o
    ensures (j + [entry])[..|j|] == j
    ensures RunCell(c, j, run).Some? && RunCell(c, j, run).value.Held? && RunCell(c, j + [entry], run).Some?
    ensures RunCell(c, j + [entry], run).value.Pending?
  {
    hide Replay;
    TakesStep(c, j, entry, st);
    OpenWhileUndone(c, j, st, o - 1);
    assert c.schedule[IndexOf(c.schedule, run)] == c.schedule[o - 1];
  }

  /** Once prepared, a seal is the only one the journal can ever hold. */
  lemma {:induction false} PreparedPersists(c: Config, j: Journal, j': Journal)
    requires j <= j'
    ensures Replay(c, j').Some? && Prepared(c, j).Some? ==> Prepared(c, j') == Prepared(c, j)
    decreases |j'|
  {
    if |j| < |j'| {
      var front := j'[..|j'| - 1];
      assert j <= front;
      PreparedPersists(c, j, front);
    } else {
      assert j == j';
    }
  }

  ghost predicate GenesisAdded(c: Config, j: Journal, j': Journal) {
    if j != [] then j' == j else |j'| == 1 && j'[0].Event() == Initialized(c.study, c.maxParallel)
  }

  /** The state a study is in once it is initialized. */
  lemma InitialState(c: Config, d: Disk, d': Disk)
    requires c.Valid() && Reachable(c, d) && GenesisAdded(c, d.journal, d'.journal) && d'.starts == d.starts
    ensures InitializeAnswer(c, Recovered(c, d), Success(Recovered(c, d')))
  {
    ReachableInv(c, d);
    ReplayShape(c, d.journal);
    if d.journal == [] {
      EmptyIsBlank(c);
      BlankWithoutJournal(c, d);
      assert d'.journal[..0] == [];
      assert Recovered(c, d').cells == seq(|c.schedule|, _ => Pending);
    } else {
      RecoveredAlike(c, d, d');
    }
  }

  /** The document of a prepared seal is that of the receipts on disk. */
  lemma PreparedIsTrue(c: Config, d: Disk, st: State)
    requires c.Valid() && Replay(c, d.journal) == Some(st) && st.Live? && st.sealPending.Some?
    ensures Reachable(c, d) ==>
      st.sealPending.value.document == Sha(SealDocument(c, d.starts, d.terminals, st.sealPending.value.sealedAt))
  {
    if Reachable(c, d) { ReachableInv(c, d); }
  }

  /** What a recorded seal names is there. */
  lemma SealIsOnDisk(c: Config, d: Disk, st: State)
    requires c.Valid() && Replay(c, d.journal) == Some(st) && st.Live? && st.sealed.Some?
    ensures Reachable(c, d) ==>
      st.sealed.value.path.of in d.outputs && Sha(d.outputs[st.sealed.value.path.of]) == st.sealed.value.document
  {
    if Reachable(c, d) { ReachableInv(c, d); }
  }

  lemma GenesisJustified(c: Config, d: Disk)
    requires c.Valid() && d.journal == []
    ensures Justified(c, d, Initialized(c.study, c.maxParallel))
  {
  }

  lemma OutputMayBePublished(c: Config, d: Disk, path: string, seal: Seal, document: TerminalSet)
    requires c.Valid() && Awaiting(c, d.journal, seal) && seal.path == Sha(path) && seal.document == Sha(document)
    requires path !in d.outputs
    ensures Settled(c, d) ==> Enabled(c, d, PublishOutput(path, document))
    ensures var d' := Effect(c, d, PublishOutput(path, document));
      d' == d.(outputs := d'.outputs) && path in d'.outputs && d'.outputs[path] == document
    ensures Settled(c, d) ==> Settled(c, Effect(c, d, PublishOutput(path, document)))
  {
  }

  lemma SealJustified(c: Config, d: Disk, path: string, seal: Seal)
    requires c.Valid() && Awaiting(c, d.journal, seal) && seal.path == Sha(path)
    requires path in d.outputs && Sha(d.outputs[path]) == seal.document
    ensures Justified(c, d, Sealed(seal))
  {
  }

  lemma PreparationTakesEffect(c: Config, j: Journal, entry: Entry<Event>, st: State, seal: Seal)
    requires c.Valid() && Replay(c, j) == Some(st) && Open(c, st) && AllDone(st.cells) && st.sealPending.None?
    requires entry.Event() == SealStarted(seal)
    ensures Replay(c, j + [entry]) == Some(st.(sealPending := Some(seal)))
  {
    TakesStep(c, j, entry, st);
  }

  lemma SealTakesEffect(c: Config, j: Journal, entry: Entry<Event>, seal: Seal)
    requires c.Valid() && Replay(c, j).Some? && Open(c, Replay(c, j).value)
    requires AllDone(Replay(c, j).value.cells) && Replay(c, j).value.sealPending == Some(seal)
    requires entry.Event() == Sealed(seal)
    ensures Replay(c, j + [entry]) == Some(Replay(c, j).value.(sealed := Some(seal)))
  {
    TakesStep(c, j, entry, Replay(c, j).value);
  }

  lemma AdvanceSettles(c: Config, d: Disk, now: Time)
    requires c.Valid() && d.anchor.Some?
    ensures Enabled(c, d, AdvanceAnchor(now)) ==>
      && Enabled(c, Effect(c, d, AdvanceAnchor(now)), WriteCheckpoint)
      && Settled(c, Effect(c, Effect(c, d, AdvanceAnchor(now)), WriteCheckpoint))
  {
  }

  lemma AppendReady(c: Config, d: Disk, event: Event, now: Time)
    requires Ready(d)
    ensures var d1 := Effect(c, d, Append(event, now));
      && MayAdvance(d.anchor.value, d1.journal)
      && Ready(Effect(c, Effect(c, d1, AdvanceAnchor(now)), WriteCheckpoint))
  {
    AppendValid(d.journal, event, now);
    var grown := d.journal + [NextEntry(d.journal, event, now)];
    assert grown[..|d.journal|] == d.journal;
    assert ValidAt(grown, |d.journal|);
  }

  lemma CaughtUpIsReady(c: Config, d: Disk, now: Time)
    requires Recoverable(c, d)
    ensures Ready(CaughtUp(c, d, now))
  {
    hide Replay, Trail, ChainAccepted, Repaired;
    FreshRevision(c, Repaired(c, d.checkpoints, d.anchor.value), d.anchor.value);
    assert d.journal[..|d.journal|] == d.journal;
    if d.journal != [] { assert ValidAt(d.journal, |d.journal| - 1); }
  }

  lemma ReplayLive(c: Config, j: Journal)
    ensures j != [] && Replay(c, j).Some? ==>
      Replay(c, j).value.Live? && |Replay(c, j).value.cells| == |c.schedule|
  {
    if Replay(c, j).Some? { ReplayShape(c, j); }
  }

  lemma StartJustified(c: Config, d: Disk, st: State, i: nat, e: Event)
    requires c.Valid() && Replayed(c, d, st) && i < |c.schedule| && st.cells[i].Held? && c.schedule[i] in d.starts
    requires StartAccepted(c, d.starts[c.schedule[i]], c.schedule[i], i + 1, st.cells[i].res.entrySha)
    requires var s := d.starts[c.schedule[i]];
      e == Started(c.schedule[i], i + 1, st.cells[i].res.entrySha, Sha(s), Sha(s.plan), s.startedAt)
    ensures Justified(c, d, e)
  {
    ReplayShape(c, d.journal);
  }

  lemma StartLowersHeld(c: Config, j: Journal, entry: Entry<Event>, i: nat)
    requires c.Valid() && Replay(c, j).Some? && Replay(c, j).value.Live?
    requires i < |c.schedule| == |Replay(c, j).value.cells|
    requires Replay(c, j).value.cells[i].Held? && entry.Event().Started?
    requires entry.Event().run == c.schedule[i] && entry.Event().ordinal == i + 1
    requires entry.Event().reservation == Replay(c, j).value.cells[i].res.entrySha
    ensures HeldCount(c, j + [entry]) == HeldCount(c, j) - 1
  {
    ReplayShape(c, j);
    ReplaySnoc(c, j, entry);
    var cells := Replay(c, j).value.cells;
    var after := Replay(c, j + [entry]).value.cells;
    HeldInUpdate(cells, i, after[i], |cells|);
  }

  lemma SomeHeld(c: Config, j: Journal, st: State, i: nat)
    requires Replay(c, j) == Some(st) && st.Live? && i < |st.cells| && st.cells[i].Held?
    ensures HeldCount(c, j) >= 1
  {
    HeldInUpdate(st.cells, i, Pending, |st.cells|);
  }

  /** No more cells are held than may be active. */
  lemma HeldIsBounded(c: Config, j: Journal)
    requires c.Valid()
    ensures HeldCount(c, j) <= c.maxParallel
  {
    if Replay(c, j).Some? && Replay(c, j).value.Live? {
      ReplayShape(c, j);
      WindowBound(c, j);
      HeldAreActive(Replay(c, j).value.cells, |Replay(c, j).value.cells|);
    }
  }

  lemma {:induction false} HeldAreActive(cells: seq<Cell>, n: nat)
    requires n <= |cells|
    ensures HeldIn(cells, n) <= ActiveIn(cells, n)
  {
    if n > 0 { HeldAreActive(cells, n - 1); }
  }

  /** While recovery goes on, every cell is as it was or as it will be. */
  ghost predicate Halfway(c: Config, d: Disk, j: Journal) {
    && (d.journal == [] ==> j == [])
    && (d.journal != [] && Replay(c, j).Some? ==>
          && Replay(c, d.journal).Some? && Replay(c, d.journal).value.Live? && Replay(c, j).value.Live?
          && var st, st' := Replay(c, d.journal).value, Replay(c, j).value;
             && |st.cells| == |st'.cells| == |c.schedule|
             && (st'.sealPending, st'.sealed) == (st.sealPending, st.sealed)
             && forall i | 0 <= i < |c.schedule| ::
                  st'.cells[i] == st.cells[i] || st'.cells[i] == RecoveredCell(c, d, st.cells[i], i))
  }

  /** Recovery changes neither what is pending nor how many cells are active, nor the seal;
      and a reachable disk recovers to no state exactly before it is initialized. */
  lemma RecoveryKeepsRoom(c: Config, d: Disk)
    requires c.Valid() && Reachable(c, d)
    ensures Recovered(c, d).Blank? <==> d.journal == []
    ensures d.journal != [] ==>
      && Replay(c, d.journal).Some? && Replay(c, d.journal).value.Live?
      && var st, st' := Replay(c, d.journal).value, Recovered(c, d);
         && (st'.sealPending, st'.sealed) == (st.sealPending, st.sealed) && |st'.cells| == |st.cells|
         && ActiveIn(st'.cells, |st'.cells|) == ActiveIn(st.cells, |st.cells|)
         && forall k | 0 <= k < |st.cells| :: st'.cells[k].Pending? <==> st.cells[k].Pending?
  {
    ReachableInv(c, d);
    ReplayShape(c, d.journal);
    if d.journal != [] {
      SameActive(Replay(c, d.journal).value.cells, Recovered(c, d).cells, |c.schedule|);
    } else {
      BlankWithoutJournal(c, d);
    }
  }

  lemma {:induction false} SameActive(cells: seq<Cell>, cells': seq<Cell>, n: nat)
    requires n <= |cells| == |cells'| && forall i | 0 <= i < n :: cells'[i].Active() == cells[i].Active()
    ensures ActiveIn(cells', n) == ActiveIn(cells, n)
  {
    if n > 0 { SameActive(cells, cells', n - 1); }
  }

  lemma RecoveredAlike(c: Config, d: Disk, d': Disk)
    requires d'.journal == d.journal && d'.starts == d.starts
    ensures Recovered(c, d') == Recovered(c, d)
  {
  }

  lemma BlankWithoutJournal(c: Config, d: Disk)
    ensures d.journal == [] ==> Recovered(c, d) == Blank
  {
  }

  lemma NothingRecovered(c: Config, d: Disk)
    ensures Halfway(c, d, d.journal)
  {
    if Replay(c, d.journal).Some? { ReplayShape(c, d.journal); }
  }

  lemma OneMoreRecovered(c: Config, d: Disk, j: Journal, st: State, entry: Entry<Event>, i: nat)
    requires c.Valid() && Halfway(c, d, j) && Replay(c, j) == Some(st) && st.Live?
    requires i < |c.schedule| == |st.cells| && st.cells[i].Held? && c.schedule[i] in d.starts
    requires var s := d.starts[c.schedule[i]];
      entry.Event() == Started(c.schedule[i], i + 1, st.cells[i].res.entrySha, Sha(s), Sha(s.plan), s.startedAt)
    ensures Halfway(c, d, j + [entry])
  {
    hide Replay;
    TakesStep(c, j, entry, st);
    if j == [] { EmptyIsBlank(c); }
  }

  lemma EmptyIsBlank(c: Config)
    ensures Replay(c, []) == Some(Blank)
  {
  }

  lemma AllRecovered(c: Config, d: Disk, j: Journal, st: State)
    requires c.Valid() && Halfway(c, d, j) && Replay(c, j) == Some(st) && st.Live? && |st.cells| == |c.schedule|
    requires forall k | 0 <= k < |c.schedule| :: !(st.cells[k].Held? && c.schedule[k] in d.starts)
    ensures st == Recovered(c, d)
  {
    hide Replay;
    if j == [] { EmptyIsBlank(c); }
    assert st.cells == Recovered(c, d).cells;
  }

  /** A reachable disk with its checkpoints complete is settled, or one advance short of it. */
  lemma GoodRecovers(c: Config, d: Disk, now: Time)
    requires c.Valid() && Reachable(c, d) && d.anchor.Some?
    ensures Recoverable(c, d)
    ensures var d1 := d.(checkpoints := Repaired(c, d.checkpoints, d.anchor.value));
      && (|d.journal| == d.anchor.value.body.count ==> Settled(c, d1))
      && (|d.journal| > d.anchor.value.body.count ==> Enabled(c, d1, AdvanceAnchor(now)))
  {
    hide Replay;
    CrashStatesRecover(c, d, now);
    ReachableInv(c, d);
    RepairCompletes(c, d);
  }

  lemma Unindexable(c: Config, checkpoints: set<Checkpoint>, k: Checkpoint, twin: Checkpoint)
    requires k in checkpoints && twin in checkpoints
    requires !ValidCheckpoint(c, k) || (k != twin && k.body.revision == twin.body.revision)
    ensures !exists index :: Indexes(c, index, checkpoints)
  {
  }

  lemma IndexedTwin(c: Config, index: map<int, Checkpoint>, seen: set<Checkpoint>, k: Checkpoint)
    requires Indexes(c, index, seen) && k !in seen && k.body.revision in index
    ensures var twin := index[k.body.revision];
      twin in seen && twin != k && twin.body.revision == k.body.revision
  {
  }

  lemma IndexRevisions(c: Config, index: map<int, Checkpoint>, checkpoints: set<Checkpoint>, n: int)
    requires Indexes(c, index, checkpoints)
    ensures (forall r :: HasRevision(checkpoints, r) <==> 0 <= r < n) <==> Covers(index, n)
  {
    forall r
      ensures HasRevision(checkpoints, r) <==> r in index
    {
      if r in index { assert index[r] in checkpoints; }
    }
  }

  lemma NoRevision(c: Config, index: map<int, Checkpoint>, checkpoints: set<Checkpoint>, n: int)
    requires Indexes(c, index, checkpoints) && Covers(index, n)
    ensures forall k | k in checkpoints :: k.body.revision != n
  {
  }

  lemma IndexGrows(c: Config, index: map<int, Checkpoint>, checkpoints: set<Checkpoint>, k: Checkpoint)
    requires Indexes(c, index, checkpoints) && ValidCheckpoint(c, k) && k.body.revision !in index
    ensures Indexes(c, index[k.body.revision := k], checkpoints + {k})
  {
  }

  /** Only an indexable set can be repaired into an accepted one. */
  lemma RepairNeedsIndex(c: Config, checkpoints: set<Checkpoint>, a: JournalAnchor)
    requires ChainAccepted(c, Repaired(c, checkpoints, a), a)
    ensures exists index :: Indexes(c, index, checkpoints)
  {
    var index :| Indexes(c, index, Repaired(c, checkpoints, a)) && Linked(index, a);
    if Repaired(c, checkpoints, a) != checkpoints {
      var older := map r | r in index && r != a.body.revision :: index[r];
      assert Indexes(c, older, checkpoints);
    }
  }

  lemma FreshRevision(c: Config, checkpoints: set<Checkpoint>, a: JournalAnchor)
    requires ChainAccepted(c, checkpoints, a)
    ensures forall k | k in checkpoints :: k.body.revision <= a.body.revision
  {
    var index :| Indexes(c, index, checkpoints) && Linked(index, a);
  }
}
