/** Safety over every run of the durable operations, crashes included. */
module StudyRuns {
  import opened Wrappers
  import opened Ledger
  import opened StudyEvents
  import opened StudyMachine
  import opened StudyDisk

  /** A run: each operation is enabled where the previous ones left the disk. */
  ghost predicate Runs(c: Config, ops: seq<Op>)
    requires c.Valid()
    decreases |ops|
  {
    ops == [] || (Runs(c, ops[..|ops| - 1]) && Enabled(c, Exec(c, ops[..|ops| - 1]), ops[|ops| - 1]))
  }

  function Exec(c: Config, ops: seq<Op>): Disk
    decreases |ops|
  {
    if ops == [] then EMPTY_DISK else Effect(c, Exec(c, ops[..|ops| - 1]), ops[|ops| - 1])
  }

  ghost predicate Reachable(c: Config, d: Disk)
    requires c.Valid()
  {
    exists ops :: Runs(c, ops) && Exec(c, ops) == d
  }

  lemma ReachableStep(c: Config, d: Disk, op: Op)
    requires c.Valid() && Reachable(c, d) && Enabled(c, d, op)
    ensures Reachable(c, Effect(c, d, op))
  {
    var ops :| Runs(c, ops) && Exec(c, ops) == d;
    var more := ops + [op];
    assert more[..|more| - 1] == ops;
    assert Runs(c, more) && Exec(c, more) == Effect(c, d, op);
  }

  lemma {:induction false} RunKeepsInv(c: Config, ops: seq<Op>)
    requires c.Valid() && Runs(c, ops)
    ensures Inv(c, Exec(c, ops))
    decreases |ops|
  {
    if ops != [] {
      RunKeepsInv(c, ops[..|ops| - 1]);
      OpKeepsInv(c, Exec(c, ops[..|ops| - 1]), ops[|ops| - 1]);
    }
  }

  lemma ReachableInv(c: Config, d: Disk)
    requires c.Valid() && Reachable(c, d)
    ensures Inv(c, d)
  {
    var ops :| Runs(c, ops) && Exec(c, ops) == d;
    RunKeepsInv(c, ops);
  }

  // ---------------------------------------------------------- crash windows

  /** The revision of the newest retained checkpoint, or -1. */
  ghost predicate Newest(checkpoints: set<Checkpoint>, revision: int) {
    && (revision == -1 <==> checkpoints == {})
    && (forall k | k in checkpoints :: 0 <= k.body.revision <= revision)
    && (revision >= 0 ==> exists k :: k in checkpoints && k.body.revision == revision)
  }

  lemma {:induction false} TrailNewest(c: Config, j: Journal, d: AnchorDigest<Event>, n: nat)
    requires Chained(j, d, n)
    ensures Newest(Trail(c, d), n)
  {
    assert CheckpointOf(c, Anchor(d.body, d)) in Trail(c, d);
    if n > 0 { TrailNewest(c, j, d.body.previous, n - 1); }
  }

  /** In every state a crash can leave, the journal is ahead of its anchor or the
      anchor ahead of its checkpoints, by one step in all and never both. */
  lemma LagIsAtMostOne(c: Config, d: Disk) returns (newest: int)
    requires c.Valid() && Reachable(c, d) && d.anchor.Some?
    ensures Newest(d.checkpoints, newest)
    ensures var a := d.anchor.value.body;
      0 <= (|d.journal| - a.count) + (a.revision - newest) <= 1
  {
    hide Inv, Replay, Reachable;
    var a := d.anchor.value;
    ReachableTrails(c, d);
    if d.checkpoints == Trail(c, a.sha) {
      newest := a.body.count;
      TrailNewest(c, d.journal, a.sha, a.body.count);
    } else {
      newest := a.body.count - 1;
      if a.body.count > 0 { TrailNewest(c, d.journal, a.body.previous, a.body.count - 1); }
    }
  }

  lemma ReachableTrails(c: Config, d: Disk)
    requires c.Valid() && Reachable(c, d)
    ensures Trailing(c, d)
  {
    ReachableInv(c, d);
  }

  /** Nothing recorded is ever rewritten: the journal only grows, and no receipt,
      manifest or output is replaced or removed. */
  ghost predicate Grows(d: Disk, d': Disk) {
    && d.journal <= d'.journal
    && (d.anchor.Some? ==> d'.anchor.Some? && d.anchor.value.body.count <= d'.anchor.value.body.count)
    && d.checkpoints <= d'.checkpoints
    && (forall r | r in d.starts :: r in d'.starts && d'.starts[r] == d.starts[r])
    && (forall r | r in d.terminals :: r in d'.terminals && d'.terminals[r] == d.terminals[r])
    && (forall q | q in d.manifests :: q in d'.manifests && d'.manifests[q] == d.manifests[q])
    && (forall p | p in d.outputs :: p in d'.outputs && d'.outputs[p] == d.outputs[p])
  }

  lemma EnabledGrows(c: Config, d: Disk, op: Op)
    requires c.Valid() && Enabled(c, d, op)
    ensures Grows(d, Effect(c, d, op))
  {
  }

  /** Along any run, everything an earlier crash could have left is still there. */
  lemma {:induction false} RunGrows(c: Config, ops: seq<Op>, k: nat)
    requires c.Valid() && Runs(c, ops) && k <= |ops|
    ensures Grows(Exec(c, ops[..k]), Exec(c, ops))
    decreases |ops|
  {
    if k == |ops| {
      assert ops[..k] == ops;
    } else {
      var front := ops[..|ops| - 1];
      assert front[..k] == ops[..k];
      RunGrows(c, front, k);
      EnabledGrows(c, Exec(c, front), ops[|ops| - 1]);
    }
  }

  // -------------------------------------------------------- one scored start

  /** A start receipt on disk means its run is held under that very reservation,
      running or done: never pending, never reserved anew. */
  lemma StartReceiptIsClaimed(c: Config, d: Disk, run: RunId)
    requires c.Valid() && Reachable(c, d) && run in d.starts
    ensures Replay(c, d.journal).Some? && Replay(c, d.journal).value.Live?
    ensures exists o ::
      && c.Scheduled(run, o) && o <= |Replay(c, d.journal).value.cells|
      && var cell := Replay(c, d.journal).value.cells[o - 1];
         && !cell.Pending? && cell.res.entrySha == d.starts[run].reservation
         && (cell.Consumed() ==> cell.start.startSha == Sha(d.starts[run]))
  {
    ReachableInv(c, d);
    var i :| 0 <= i < |c.schedule| && c.schedule[i] == run;
    assert CellEvidence(c, d, Replay(c, d.journal).value.cells, i);
    assert c.Scheduled(run, i + 1);
  }

  /** Once consumed, a cell stays consumed under the same reservation and start. */
  lemma {:induction false} ConsumedForever(c: Config, j: Journal, n: nat, o: int)
    requires c.Valid() && Replay(c, j).Some? && 0 < n <= |j| && 1 <= o <= |c.schedule|
    ensures Replay(c, j[..n]).Some?
    ensures |Replay(c, j[..n]).value.cells| == |Replay(c, j).value.cells| == |c.schedule|
    ensures var before, after := Replay(c, j[..n]).value.cells[o - 1], Replay(c, j).value.cells[o - 1];
      && (before.Consumed() ==> after.Consumed() && after.res == before.res && after.start == before.start)
      && (before.Done? ==> after == before)
    decreases |j|
  {
    hide Step;
    if n == |j| {
      assert j[..n] == j;
      ReplayShape(c, j);
    } else {
      var front := j[..|j| - 1];
      assert front[..n] == j[..n];
      LastMove(c, j, o);
      ConsumedForever(c, front, n, o);
    }
  }

  /** Every journaled release has its manifest on disk, saying the same as the event. */
  lemma ReleasesAreExplained(c: Config, d: Disk, k: nat)
    requires c.Valid() && Reachable(c, d) && k < |d.journal| && d.journal[k].Event().Released?
    ensures var e := d.journal[k].Event();
      && e.quarantine in d.manifests && d.manifests[e.quarantine] == Manifest(e.run, e.ordinal, e.reason, e.releasedAt)
      && e.manifest == Sha(d.manifests[e.quarantine])
  {
    ReachableInv(c, d);
    assert ManifestAccepted(d.manifests, d.journal[k].Event());
  }

  // ------------------------------------------------------- the sealed document

  /** The document has, for every scheduled run in its place, the start and the terminal
      receipt that the run's cell records. */
  ghost predicate Collects(c: Config, document: TerminalSet, st: State)
    requires c.Valid() && st.Live?
  {
    && st.sealed.Some? && document.study == c.study && document.sealedAt == st.sealed.value.sealedAt
    && |document.starts| == |document.terminals| == |st.cells| == |c.schedule|
    && forall i | 0 <= i < |st.cells| ::
         && document.starts[i].Some? && document.terminals[i].Some?
         && StartedAs(c, document.starts[i].value, st.cells[i], i)
         && EndedAs(document.terminals[i].value, document.starts[i].value, st.cells[i])
  }

  /** The receipt of the start that the cell of run `i` records, by the frozen inputs. */
  ghost predicate StartedAs(c: Config, s: Start, cell: Cell, i: nat)
    requires c.Valid() && i < |c.schedule|
  {
    && cell.Consumed() && cell.start == StartFacts(Sha(s), Sha(s.plan), s.startedAt)
    && s.run == c.schedule[i] && s.ordinal == i + 1 && s.study == c.study && s.reservation == cell.res.entrySha
    && s.plan.baseline == c.baselines[i] && s.plan.runtimeTcb == c.runtimeTcb
  }

  /** The terminal receipt the cell records, for that very start. */
  ghost predicate EndedAs(t: TerminalReceipt, s: Start, cell: Cell) {
    && cell.Done? && cell.terminalSha == Sha(t) && (cell.status, cell.recordedAt) == (t.status, t.recordedAt)
    && t.run == s.run && t.startSha == Sha(s) && t.modelInstance == s.plan.modelInstance
    && TerminalStatus(t.status) && s.startedAt <= t.recordedAt
  }

  /** A sealed study's document is on disk, under the sealed digest, and complete. */
  lemma SealedDocumentIsComplete(c: Config, d: Disk)
    requires c.Valid() && Reachable(c, d) && Replay(c, d.journal).Some?
    requires Replay(c, d.journal).value.Live? && Replay(c, d.journal).value.sealed.Some?
    ensures var st := Replay(c, d.journal).value;
      && st.sealed.value.path.of in d.outputs
      && var document := d.outputs[st.sealed.value.path.of];
         Sha(document) == st.sealed.value.document && Collects(c, document, st)
  {
    hide Replay;
    ReachableInv(c, d);
    ReplayShape(c, d.journal);
    var st := Replay(c, d.journal).value;
    var document := d.outputs[st.sealed.value.path.of];
    assert document == SealDocument(c, d.starts, d.terminals, st.sealed.value.sealedAt);
    forall i | 0 <= i < |st.cells|
      ensures document.starts[i].Some? && document.terminals[i].Some?
      ensures StartedAs(c, document.starts[i].value, st.cells[i], i)
      ensures EndedAs(document.terminals[i].value, document.starts[i].value, st.cells[i])
    {
      assert CellEvidence(c, d, st.cells, i);
    }
  }

  /** A controller decision survives a runner finishing, or a stranger placing a
      file elsewhere, between the decision and the operation. */
  lemma DecisionsSurviveTheRunner(c: Config, d: Disk, op: Op, other: Op)
    requires c.Valid() && Inv(c, d) && Enabled(c, d, op) && Enabled(c, d, other)
    requires !op.RunnerEnds? && !op.PlaceFile?
    requires other.RunnerEnds? || (other.PlaceFile? && !(op.PublishOutput? && op.path == other.path))
    ensures Enabled(c, Effect(c, d, other), op)
  {
    hide Evidence, SealEvidence, ReleaseEvidence, Trailing, Trail, Step;
    if other.RunnerEnds? {
      var o := EndedCell(c, d, other.receipt);
      if op.Append? { JustificationSurvives(c, d, op.event, other.receipt, o); }
    } else if op.Append? {
      assert Justified(c, d, op.event);
    }
  }

  /** The runner's own cell is running; no other cell shares its run. */
  lemma EndedCell(c: Config, d: Disk, t: TerminalReceipt) returns (o: int)
    requires c.Valid() && Enabled(c, d, RunnerEnds(t))
    ensures LiveState(c, d) && c.Scheduled(t.run, o) && CellOf(c, d, o).Running?
    ensures forall k | c.Scheduled(t.run, k) :: k == o
  {
    o :| c.Scheduled(t.run, o) && CellOf(c, d, o).Running?;
  }

  lemma JustificationSurvives(c: Config, d: Disk, e: Event, t: TerminalReceipt, o: int)
    requires c.Valid() && Inv(c, d) && Justified(c, d, e)
    requires LiveState(c, d) && c.Scheduled(t.run, o) && CellOf(c, d, o).Running? && t.run !in d.terminals
    requires forall k | c.Scheduled(t.run, k) :: k == o
    ensures Justified(c, Effect(c, d, RunnerEnds(t)), e)
  {
    hide Evidence, SealEvidence, ReleaseEvidence, Trailing, Step;
    RunningIsNotDone(Replay(c, d.journal).value.cells, o - 1);
  }

  lemma RunningIsNotDone(cells: seq<Cell>, i: nat)
    requires i < |cells| && cells[i].Running?
    ensures !AllDone(cells)
  {
    assert !cells[i].Done?;
  }
}
