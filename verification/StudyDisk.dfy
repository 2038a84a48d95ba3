/**
 The controller's durable state, its atomic operations, and the invariant of
 every state those operations can leave behind.

 A process may die between any two operations, so the states below are exactly
 what the next process can find.
 */
module StudyDisk {
  import opened Wrappers
  import opened Ledger
  import opened StudyEvents
  import opened StudyMachine

  datatype CheckpointBody =
    CheckpointBody(study: string, revision: int, count: int, head: Digest<Event>, previous: AnchorDigest<Event>,
        anchorSha: AnchorDigest<Event>)

  datatype Checkpoint = Checkpoint(body: CheckpointBody, sha: Sha<CheckpointBody>)

  type JournalAnchor = Anchor<Event>

  datatype Disk = Disk(
    hasJournal: bool,
    journal: Journal,
    anchor: Option<JournalAnchor>,
    checkpoints: set<Checkpoint>,
    starts: map<RunId, Start>,
    terminals: map<RunId, TerminalReceipt>,
    manifests: map<QuarantineId, Manifest>,
    outputs: map<string, TerminalSet>)

  const EMPTY_DISK := Disk(false, [], None, {}, map[], map[], map[], map[])

  function CheckpointOf(c: Config, a: JournalAnchor): Checkpoint {
    var body := CheckpointBody(c.study, a.body.revision, a.body.count, a.body.head, a.body.previous, a.sha);
    Checkpoint(body, Sha(body))
  }

  /** One checkpoint per anchor, back along the digest chain. */
  function Trail(c: Config, d: AnchorDigest<Event>): set<Checkpoint> {
    match d
    case NoAnchor => {}
    case OfAnchor(body) => Trail(c, body.previous) + {CheckpointOf(c, Anchor(body, d))}
  }

  /** The digest of a chain of `n + 1` anchors, one record apart, over this journal. */
  ghost predicate Chained(j: Journal, d: AnchorDigest<Event>, n: nat)
    decreases n
  {
    && d.OfAnchor?
    && d.body.revision == d.body.count == n <= |j|
    && d.body.head == Head(j[..n])
    && (if n == 0 then d.body.previous == NoAnchor else Chained(j, d.body.previous, n - 1))
  }

  lemma {:induction false} ChainedExtends(j: Journal, e: Entry<Event>, d: AnchorDigest<Event>, n: nat)
    requires Chained(j, d, n)
    ensures Chained(j + [e], d, n)
  {
    assert (j + [e])[..n] == j[..n];
    if n > 0 { ChainedExtends(j, e, d.body.previous, n - 1); }
  }

  // ---------------------------------------------------------------- receipts

  predicate StartAccepted(c: Config, s: Start, run: RunId, o: int, reservation: Digest<Event>)
    requires |c.baselines| == |c.schedule| && c.Scheduled(run, o)
  {
    && s.run == run && s.ordinal == o
    && s.reservation == reservation
    && s.study == c.study
    && s.plan.baseline == c.baselines[o - 1]
    && s.plan.runtimeTcb == c.runtimeTcb
  }

  predicate EndAccepted(t: TerminalReceipt, s: Start, run: RunId) {
    && t.run == run
    && TerminalStatus(t.status)
    && t.startSha == Sha(s)
    && t.modelInstance == s.plan.modelInstance
    && s.startedAt <= t.recordedAt
  }

  predicate ManifestAccepted(manifests: map<QuarantineId, Manifest>, e: Event)
    requires e.Released?
  {
    && e.quarantine in manifests
    && var m := manifests[e.quarantine];
       m.run == e.run && m.ordinal == e.ordinal && m.reason == e.reason
       && m.quarantinedAt == e.releasedAt && e.manifest == Sha(m)
  }

  function Lookup<K, V>(m: map<K, V>, k: K): Option<V> {
    if k in m then Some(m[k]) else None
  }

  /** `seal_terminal_set`: a function of the frozen inputs and the receipts. */
  function SealDocument(c: Config, starts: map<RunId, Start>, terminals: map<RunId, TerminalReceipt>,
      at: Time): TerminalSet {
    TerminalSet(
      c.study,
      seq(|c.schedule|, i requires 0 <= i < |c.schedule| => Lookup(starts, c.schedule[i])),
      seq(|c.schedule|, i requires 0 <= i < |c.schedule| => Lookup(terminals, c.schedule[i])),
      at)
  }

  // -------------------------------------------------------------- operations

  datatype Op =
    | CreateJournal
    | CreateAnchor(now: Time)
    | AdvanceAnchor(now: Time)
    | WriteCheckpoint
    | Append(event: Event, now: Time)
    | PublishStart(start: Start)
    | PublishManifest(id: QuarantineId, manifest: Manifest)
    | PublishOutput(path: string, document: TerminalSet)
    | RunnerEnds(receipt: TerminalReceipt)              // a model runner, outside the lock
    | PlaceFile(path: string, document: TerminalSet)    // anybody, at a free output path

  function Effect(c: Config, d: Disk, op: Op): Disk {
    match op
    case CreateJournal => d.(hasJournal := true)
    case CreateAnchor(now) => d.(anchor := Some(NewAnchor(d.journal, 0, NoAnchor, now)))
    case AdvanceAnchor(now) =>
      if d.anchor.None? then d else d.(anchor := Some(Advanced(d.anchor.value, d.journal, now)))
    case WriteCheckpoint =>
      if d.anchor.None? then d else d.(checkpoints := d.checkpoints + {CheckpointOf(c, d.anchor.value)})
    case Append(event, now) => d.(journal := d.journal + [NextEntry(d.journal, event, now)])
    case PublishStart(start) => d.(starts := d.starts[start.run := start])
    case PublishManifest(id, manifest) => d.(manifests := d.manifests[id := manifest])
    case PublishOutput(path, document) => d.(outputs := d.outputs[path := document])
    case RunnerEnds(receipt) => d.(terminals := d.terminals[receipt.run := receipt])
    case PlaceFile(path, document) => d.(outputs := d.outputs[path := document])
  }

  /** Journal, anchor and checkpoints agree. */
  ghost predicate Settled(c: Config, d: Disk) {
    && d.anchor.Some?
    && |d.journal| == d.anchor.value.body.count
    && d.checkpoints == Trail(c, d.anchor.value.sha)
  }

  ghost predicate LiveState(c: Config, d: Disk) {
    && Replay(c, d.journal).Some?
    && Open(c, Replay(c, d.journal).value)
  }

  ghost function CellOf(c: Config, d: Disk, o: int): Cell
    requires LiveState(c, d) && 1 <= o <= |c.schedule|
  {
    Replay(c, d.journal).value.cells[o - 1]
  }

  /** What the public methods check before they append each kind of event. */
  ghost predicate Justified(c: Config, d: Disk, e: Event)
    requires c.Valid()
  {
    match e
    case Initialized(study, maxParallel) => d.journal == [] && study == c.study && maxParallel == c.maxParallel
    case Reserved(run, o, _) =>
      && LiveState(c, d) && c.Scheduled(run, o)
      && var st := Replay(c, d.journal).value;
         st.sealPending.None? && EarliestPending(st.cells, o - 1) && ActiveIn(st.cells, |st.cells|) < c.maxParallel
    case Started(run, o, reservation, startSha, planSha, at) =>
      && LiveState(c, d) && c.Scheduled(run, o)
      && CellOf(c, d, o).Held? && CellOf(c, d, o).res.entrySha == reservation
      && run in d.starts && StartAccepted(c, d.starts[run], run, o, reservation)
      && startSha == Sha(d.starts[run]) && planSha == Sha(d.starts[run].plan) && at == d.starts[run].startedAt
    case Released(run, o, _, _, _, _) =>
      && LiveState(c, d) && c.Scheduled(run, o) && CellOf(c, d, o).Held?
      && run !in d.starts && run !in d.terminals
      && ManifestAccepted(d.manifests, e)
    case Ended(run, o, status, terminalSha, at) =>
      && LiveState(c, d) && c.Scheduled(run, o) && CellOf(c, d, o).Running?
      && run in d.terminals && run in d.starts && EndAccepted(d.terminals[run], d.starts[run], run)
      && terminalSha == Sha(d.terminals[run]) && status == d.terminals[run].status && at == d.terminals[run].recordedAt
    case SealStarted(seal) =>
      && LiveState(c, d)
      && AllDone(Replay(c, d.journal).value.cells) && Replay(c, d.journal).value.sealPending.None?
      && seal.document == Sha(SealDocument(c, d.starts, d.terminals, seal.sealedAt))
    case Sealed(seal) =>
      && LiveState(c, d) && Replay(c, d.journal).value.sealPending == Some(seal)
      && seal.path.of in d.outputs && Sha(d.outputs[seal.path.of]) == seal.document
  }

  ghost predicate Enabled(c: Config, d: Disk, op: Op)
    requires c.Valid()
  {
    match op
    case CreateJournal => !d.hasJournal
    case CreateAnchor(_) => d.hasJournal && d.anchor.None? && d.journal == []
    case AdvanceAnchor(_) =>
      && d.anchor.Some? && |d.journal| == d.anchor.value.body.count + 1
      && d.checkpoints == Trail(c, d.anchor.value.sha)
    case WriteCheckpoint => d.anchor.Some? && d.checkpoints == Trail(c, d.anchor.value.body.previous)
    case Append(event, _) => Settled(c, d) && Justified(c, d, event)
    case PublishStart(s) =>
      && Settled(c, d) && LiveState(c, d) && c.Scheduled(s.run, s.ordinal)
      && CellOf(c, d, s.ordinal).Held?
      && s.run !in d.starts && s.run !in d.terminals
      && StartAccepted(c, s, s.run, s.ordinal, CellOf(c, d, s.ordinal).res.entrySha)
    case PublishManifest(id, m) => Settled(c, d) && LiveState(c, d) && id !in d.manifests
    case PublishOutput(path, document) =>
      && Settled(c, d) && LiveState(c, d) && path !in d.outputs
      && Replay(c, d.journal).value.sealPending.Some?
      && Replay(c, d.journal).value.sealPending.value.path == Sha(path)
      && Replay(c, d.journal).value.sealPending.value.document == Sha(document)
    case RunnerEnds(t) =>
      && LiveState(c, d) && t.run !in d.terminals
      && exists o :: c.Scheduled(t.run, o) && CellOf(c, d, o).Running?
    case PlaceFile(path, _) => path !in d.outputs
  }

  // --------------------------------------------------------------- invariant

  /** The receipts on disk for the run of cell `i` are the ones its cell records. */
  ghost predicate CellEvidence(c: Config, d: Disk, cells: seq<Cell>, i: nat)
    requires c.Valid() && i < |c.schedule| == |cells|
  {
    var run := c.schedule[i];
    match cells[i]
    case Pending => run !in d.starts && run !in d.terminals
    case Held(res) =>
      run !in d.terminals && (run in d.starts ==> StartAccepted(c, d.starts[run], run, i + 1, res.entrySha))
    case Running(res, start) => RunEvidence(c, d, run, i + 1, res, start)
    case Done(res, start, status, terminalSha, at) =>
      && RunEvidence(c, d, run, i + 1, res, start)
      && run in d.terminals && EndAccepted(d.terminals[run], d.starts[run], run)
      && terminalSha == Sha(d.terminals[run]) && status == d.terminals[run].status && at == d.terminals[run].recordedAt
  }

  ghost predicate RunEvidence(c: Config, d: Disk, run: RunId, o: int, res: Reservation, start: StartFacts)
    requires c.Valid() && c.Scheduled(run, o)
  {
    && run in d.starts
    && StartAccepted(c, d.starts[run], run, o, res.entrySha)
    && start == StartFacts(Sha(d.starts[run]), Sha(d.starts[run].plan), d.starts[run].startedAt)
  }

  ghost predicate Evidence(c: Config, d: Disk)
    requires c.Valid() && Replay(c, d.journal).Some?
  {
    var st := Replay(c, d.journal).value;
    && (forall run | run in d.starts || run in d.terminals :: run in c.schedule)
    && (st.Blank? ==> d.starts == map[] && d.terminals == map[])
    && (st.Live? ==> |st.cells| == |c.schedule| && forall i | 0 <= i < |c.schedule| :: CellEvidence(c, d, st.cells, i))
  }

  ghost predicate SealEvidence(c: Config, d: Disk)
    requires Replay(c, d.journal).Some?
  {
    var st := Replay(c, d.journal).value;
    && (st.Live? && st.sealPending.Some? ==>
          st.sealPending.value.document == Sha(SealDocument(c, d.starts, d.terminals, st.sealPending.value.sealedAt)))
    && (st.Live? && st.sealed.Some? ==>
          st.sealed.value.path.of in d.outputs && Sha(d.outputs[st.sealed.value.path.of]) == st.sealed.value.document)
  }

  ghost predicate ReleaseEvidence(d: Disk) {
    forall k | 0 <= k < |d.journal| && d.journal[k].Event().Released? ::
      ManifestAccepted(d.manifests, d.journal[k].Event())
  }

  /** Anchor and checkpoints trail the journal by at most one step between them. */
  ghost predicate Trailing(c: Config, d: Disk) {
    if d.anchor.None? then
      d.journal == [] && d.checkpoints == {} && d.starts == map[] && d.terminals == map[]
    else
      var a := d.anchor.value;
      && d.hasJournal
      && ValidAnchor(a)
      && Chained(d.journal, a.sha, a.body.count)
      && |d.journal| <= a.body.count + 1
      && (d.checkpoints == Trail(c, a.sha)
          || (d.checkpoints == Trail(c, a.body.previous) && |d.journal| == a.body.count))
  }

  ghost predicate Inv(c: Config, d: Disk)
    requires c.Valid()
  {
    && ValidLedger(d.journal)
    && Replay(c, d.journal).Some?
    && Trailing(c, d)
    && Evidence(c, d)
    && SealEvidence(c, d)
    && ReleaseEvidence(d)
  }

  // ------------------------------------------------------------ preservation

  lemma AppendKeepsTrailing(c: Config, d: Disk, e: Event, now: Time)
    requires c.Valid() && Inv(c, d) && Settled(c, d)
    ensures Trailing(c, Effect(c, d, Append(e, now)))
  {
    ChainedExtends(d.journal, NextEntry(d.journal, e, now), d.anchor.value.sha, d.anchor.value.body.count);
  }

  /** The writer's guard is strong enough for the replayer: a justified event is accepted. */
  lemma JustifiedIsAccepted(c: Config, d: Disk, e: Event, now: Time)
    requires c.Valid() && Inv(c, d) && Justified(c, d, e)
    ensures Replay(c, d.journal + [NextEntry(d.journal, e, now)])
         == Step(c, Replay(c, d.journal).value, NextEntry(d.journal, e, now))
    ensures Replay(c, d.journal + [NextEntry(d.journal, e, now)]).Some?
  {
    ReplaySnoc(c, d.journal, NextEntry(d.journal, e, now));
    ReplayShape(c, d.journal);
  }

  lemma AppendKeepsEvidence(c: Config, d: Disk, e: Event, now: Time)
    requires c.Valid() && Inv(c, d) && Justified(c, d, e)
    ensures var d' := Effect(c, d, Append(e, now));
      Replay(c, d'.journal).Some? && Evidence(c, d')
  {
    var entry := NextEntry(d.journal, e, now);
    var d' := Effect(c, d, Append(e, now));
    JustifiedIsAccepted(c, d, e, now);
    var st, st' := Replay(c, d.journal).value, Replay(c, d'.journal).value;
    ReplayShape(c, d.journal);
    ReplayShape(c, d'.journal);
    if st.Live? {
      forall i | 0 <= i < |c.schedule|
        ensures CellEvidence(c, d', st'.cells, i)
      {
        AppendKeepsCell(c, d, e, entry, i);
      }
    }
  }

  lemma AppendKeepsCell(c: Config, d: Disk, e: Event, entry: Entry<Event>, i: nat)
    requires c.Valid() && LiveState(c, d) && Evidence(c, d)
    requires Justified(c, d, e) && entry.Event() == e && i < |c.schedule|
    requires Step(c, Replay(c, d.journal).value, entry).Some?
    ensures var st := Replay(c, d.journal).value;
      CellEvidence(c, d, Step(c, st, entry).value.cells, i)
  {
    hide Replay, SealDocument, AllDone, ActiveIn;
    assert CellEvidence(c, d, Replay(c, d.journal).value.cells, i);
  }

  lemma AppendKeepsSealEvidence(c: Config, d: Disk, e: Event, now: Time)
    requires c.Valid() && Inv(c, d) && Justified(c, d, e)
    ensures var d' := Effect(c, d, Append(e, now));
      Replay(c, d'.journal).Some? && SealEvidence(c, d') && ReleaseEvidence(d')
  {
    JustifiedIsAccepted(c, d, e, now);
    var d' := Effect(c, d, Append(e, now));
    forall k | 0 <= k < |d'.journal| && d'.journal[k].Event().Released?
      ensures ManifestAccepted(d'.manifests, d'.journal[k].Event())
    {
      if k < |d.journal| { assert d'.journal[k] == d.journal[k]; }
    }
  }

  lemma AppendKeepsInv(c: Config, d: Disk, e: Event, now: Time)
    requires c.Valid() && Inv(c, d) && Enabled(c, d, Append(e, now))
    ensures Inv(c, Effect(c, d, Append(e, now)))
  {
    AppendValid(d.journal, e, now);
    AppendKeepsTrailing(c, d, e, now);
    AppendKeepsEvidence(c, d, e, now);
    AppendKeepsSealEvidence(c, d, e, now);
  }

  lemma AdvanceKeepsInv(c: Config, d: Disk, now: Time)
    requires c.Valid() && Inv(c, d) && Enabled(c, d, AdvanceAnchor(now))
    ensures Inv(c, Effect(c, d, AdvanceAnchor(now)))
    ensures MayAdvance(d.anchor.value, d.journal)
  {
    var a := d.anchor.value;
    var n := |d.journal|;
    assert ValidAt(d.journal, n - 1);
    assert d.journal[..n] == d.journal;
    SameEvidence(c, d, Effect(c, d, AdvanceAnchor(now)));
  }

  lemma ReceiptKeepsInv(c: Config, d: Disk, op: Op)
    requires c.Valid() && Inv(c, d) && Enabled(c, d, op)
    requires op.PublishStart? || op.RunnerEnds?
    ensures Inv(c, Effect(c, d, op))
  {
    hide CellEvidence;
    var d' := Effect(c, d, op);
    var st := Replay(c, d.journal).value;
    ReplayShape(c, d.journal);
    forall i | 0 <= i < |c.schedule|
      ensures CellEvidence(c, d', st.cells, i)
    {
      ReceiptKeepsCell(c, d, op, i);
    }
    assert st.sealPending.None?;
  }

  lemma ReceiptKeepsCell(c: Config, d: Disk, op: Op, i: nat)
    requires c.Valid() && LiveState(c, d) && Evidence(c, d) && Enabled(c, d, op)
    requires (op.PublishStart? || op.RunnerEnds?) && i < |c.schedule|
    ensures CellEvidence(c, Effect(c, d, op), Replay(c, d.journal).value.cells, i)
  {
    hide Replay;
    assert CellEvidence(c, d, Replay(c, d.journal).value.cells, i);
  }

  /** Every operation keeps the invariant, so every crash state has it. */
  lemma OpKeepsInv(c: Config, d: Disk, op: Op)
    requires c.Valid() && Inv(c, d) && Enabled(c, d, op)
    ensures Inv(c, Effect(c, d, op))
  {
    var d' := Effect(c, d, op);
    match op
    case Append(e, now) => AppendKeepsInv(c, d, e, now);
    case AdvanceAnchor(now) => AdvanceKeepsInv(c, d, now);
    case PublishStart(_) => ReceiptKeepsInv(c, d, op);
    case RunnerEnds(_) => ReceiptKeepsInv(c, d, op);
    case CreateAnchor(_) =>
      assert Evidence(c, d') by { ReplayShape(c, d.journal); }
    case WriteCheckpoint => SameEvidence(c, d, d');
    case CreateJournal => SameEvidence(c, d, d');
    case PublishManifest(_, _) => SameEvidence(c, d, d');
    case PublishOutput(_, _) => SameEvidence(c, d, d');
    case PlaceFile(_, _) => SameEvidence(c, d, d');
  }

  lemma SameEvidence(c: Config, d: Disk, d': Disk)
    requires c.Valid() && Inv(c, d)
    requires (d'.journal, d'.starts, d'.terminals) == (d.journal, d.starts, d.terminals)
    ensures Evidence(c, d')
  {
    var st := Replay(c, d.journal).value;
    if st.Live? {
      forall i | 0 <= i < |c.schedule|
        ensures CellEvidence(c, d', st.cells, i)
      {
        assert CellEvidence(c, d, st.cells, i);
      }
    }
  }
}
