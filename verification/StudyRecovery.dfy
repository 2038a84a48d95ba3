/** What the controller's start-of-call validation accepts, on any disk at all. */
module StudyRecovery {
  import opened Wrappers
  import opened Ledger
  import opened StudyEvents
  import opened StudyMachine
  import opened StudyDisk
  import opened StudyRuns

  predicate ValidCheckpoint(c: Config, k: Checkpoint) {
    && k.body.study == c.study
    && k.sha == Sha(k.body)
    && k.body.revision >= 0 && k.body.count >= 0
    && (k.body.revision == 0 <==> k.body.previous == NoAnchor)
  }

  /** `index` files every checkpoint under its own revision, with no two alike. */
  ghost predicate Indexes(c: Config, index: map<int, Checkpoint>, checkpoints: set<Checkpoint>) {
    && (forall r | r in index :: index[r] in checkpoints && index[r].body.revision == r && ValidCheckpoint(c, index[r]))
    && (forall k | k in checkpoints :: k.body.revision in index && index[k.body.revision] == k)
  }

  /** The revisions filed are exactly those below `n`. */
  predicate Covers(index: map<int, Checkpoint>, n: int) {
    && (forall r | 0 <= r < n :: r in index)
    && (forall r | r in index :: 0 <= r < n)
  }

  /** Checkpoint `r` counts `r` records and names the anchor before it. */
  predicate LinkAt(index: map<int, Checkpoint>, r: int) {
    && r in index
    && index[r].body.count == r
    && (if r == 0 then index[r].body.previous == NoAnchor
        else r - 1 in index && index[r].body.previous == index[r - 1].body.anchorSha)
  }

  ghost predicate Linked(index: map<int, Checkpoint>, a: JournalAnchor) {
    && a.body.revision >= 0 && Covers(index, a.body.revision + 1)
    && (var k := index[a.body.revision].body; (k.count, k.head, k.anchorSha) == (a.body.count, a.body.head, a.sha))
    && (forall r | 0 <= r <= a.body.revision :: LinkAt(index, r))
  }

  /** A complete, linked chain of checkpoints up to this anchor. */
  ghost predicate ChainAccepted(c: Config, checkpoints: set<Checkpoint>, a: JournalAnchor) {
    exists index :: Indexes(c, index, checkpoints) && Linked(index, a)
  }

  ghost predicate HasRevision(checkpoints: set<Checkpoint>, r: int) {
    exists k :: k in checkpoints && k.body.revision == r
  }

  /** The one repair: the newest checkpoint, when exactly that one is missing. */
  ghost function Repaired(c: Config, checkpoints: set<Checkpoint>, a: JournalAnchor): set<Checkpoint> {
    if forall r :: HasRevision(checkpoints, r) <==> 0 <= r < a.body.revision
    then checkpoints + {CheckpointOf(c, a)} else checkpoints
  }

  /** A disk from which the next call can go on: at most one unanchored record and
      at most the newest checkpoint missing. */
  ghost predicate Recoverable(c: Config, d: Disk) {
    && d.hasJournal && d.anchor.Some?
    && ValidLedger(d.journal)
    && var a := d.anchor.value;
       && ValidAnchor(a)
       && ChainAccepted(c, Repaired(c, d.checkpoints, a), a)
       && a.body.count <= |d.journal| <= a.body.count + 1
       && Head(d.journal[..a.body.count]) == a.body.head
  }

  /** The disk that catching up leaves: the same journal, its anchor and every checkpoint. */
  ghost function CaughtUp(c: Config, d: Disk, now: Time): Disk
    requires d.anchor.Some?
  {
    var repaired := d.(checkpoints := Repaired(c, d.checkpoints, d.anchor.value));
    if |d.journal| > d.anchor.value.body.count
    then Effect(c, Effect(c, repaired, AdvanceAnchor(now)), WriteCheckpoint)
    else repaired
  }

  lemma IndexUnique(c: Config, index: map<int, Checkpoint>, other: map<int, Checkpoint>, checkpoints: set<Checkpoint>)
    requires Indexes(c, index, checkpoints) && Indexes(c, other, checkpoints)
    ensures index == other
  {
    forall r
      ensures r in index <==> r in other
      ensures r in index ==> index[r] == other[r]
    {
      if r in index { assert index[r] in checkpoints; }
      if r in other { assert other[r] in checkpoints; }
    }
    assert index.Keys == other.Keys;
  }

  lemma {:induction false} TrailIndex(c: Config, j: Journal, d: AnchorDigest<Event>, n: nat)
    returns (index: map<int, Checkpoint>)
    requires Chained(j, d, n)
    ensures Indexes(c, index, Trail(c, d)) && Linked(index, Anchor(d.body, d))
  {
    var k := CheckpointOf(c, Anchor(d.body, d));
    if n == 0 {
      index := map[0 := k];
      assert Trail(c, d) == {k};
    } else {
      var older := TrailIndex(c, j, d.body.previous, n - 1);
      index := older[n := k];
      forall r | 0 <= r <= n
        ensures LinkAt(index, r)
      {
        if r < n { assert LinkAt(older, r); }
      }
    }
  }

  lemma TrailRevisions(c: Config, j: Journal, d: AnchorDigest<Event>, n: nat)
    requires Chained(j, d, n)
    ensures forall r :: HasRevision(Trail(c, d), r) <==> 0 <= r <= n
  {
    var index := TrailIndex(c, j, d, n);
    forall r
      ensures HasRevision(Trail(c, d), r) <==> 0 <= r <= n
    {
      if 0 <= r <= n { assert index[r] in Trail(c, d) && index[r].body.revision == r; }
      if HasRevision(Trail(c, d), r) { var k :| k in Trail(c, d) && k.body.revision == r; }
    }
  }

  /** The repair turns either legitimate checkpoint set into the full trail. */
  lemma RepairCompletes(c: Config, d: Disk)
    requires c.Valid() && Inv(c, d) && d.anchor.Some?
    ensures Repaired(c, d.checkpoints, d.anchor.value) == Trail(c, d.anchor.value.sha)
    ensures d.checkpoints != Trail(c, d.anchor.value.sha) ==> d.checkpoints == Trail(c, d.anchor.value.body.previous)
  {
    var a := d.anchor.value;
    var n := a.body.count;
    if d.checkpoints == Trail(c, a.sha) {
      TrailRevisions(c, d.journal, a.sha, n);
      assert HasRevision(d.checkpoints, n);
    } else if n == 0 {
      assert Trail(c, a.body.previous) == {};
    } else {
      TrailRevisions(c, d.journal, a.body.previous, n - 1);
    }
  }

  /** Every state a crash can leave is recoverable, and recovery settles it with
      the journal as it was: the anchored one, or that plus exactly one event. */
  lemma CrashStatesRecover(c: Config, d: Disk, now: Time)
    requires c.Valid() && Reachable(c, d) && d.anchor.Some?
    ensures Recoverable(c, d)
    ensures |d.journal| <= d.anchor.value.body.count + 1
    ensures Settled(c, CaughtUp(c, d, now)) && CaughtUp(c, d, now).journal == d.journal
    ensures Reachable(c, CaughtUp(c, d, now))
  {
    ReachableInv(c, d);
    var a := d.anchor.value;
    var index := TrailIndex(c, d.journal, a.sha, a.body.count);
    RepairCompletes(c, d);
    var d1 := d.(checkpoints := Repaired(c, d.checkpoints, a));
    if d.checkpoints != d1.checkpoints {
      assert d1 == Effect(c, d, WriteCheckpoint);
      ReachableStep(c, d, WriteCheckpoint);
    }
    if |d.journal| > a.body.count {
      ReachableStep(c, d1, AdvanceAnchor(now));
      ReachableStep(c, Effect(c, d1, AdvanceAnchor(now)), WriteCheckpoint);
    }
  }
}
