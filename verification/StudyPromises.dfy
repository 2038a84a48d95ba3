/** What the controller's public methods promise (tools/proof_plane/controller.py). */
module StudyPromises {
  import opened Wrappers
  import opened Ledger
  import opened StudyEvents
  import opened StudyMachine
  import opened StudyDisk

  datatype Refusal =
    | AlreadySealed | SealIsPending | StaleHandle | PlanMismatch | NotActive | NotStarted
    | StartExists | BadReceipt | ManifestDiffers | NotFinished | OutputDiffers | UnknownRun

  datatype Fault = Crash | NotInitialized | Integrity | Refused(why: Refusal)

  datatype Handle = Handle(run: RunId, ordinal: int, reservedAt: Time, entrySha: Digest<Event>)

  /** What the validation of referenced artifacts accepts beside a replayed state. */
  ghost predicate Artifacts(c: Config, d: Disk, st: State)
    requires c.Valid() && st.Live? && |st.cells| == |c.schedule|
  {
    && ReleaseEvidence(d)
    && forall i | 0 <= i < |c.schedule| :: CellArtifacts(c, d, st.cells[i], i)
  }

  predicate CellArtifacts(c: Config, d: Disk, cell: Cell, i: nat)
    requires |c.baselines| == |c.schedule| && i < |c.schedule|
  {
    var run := c.schedule[i];
    match cell
    case Pending => run !in d.starts && run !in d.terminals
    case Held(res) => run in d.starts ==> StartAccepted(c, d.starts[run], run, i + 1, res.entrySha)
    case Running(res, start) =>
      && run in d.starts && StartAccepted(c, d.starts[run], run, i + 1, res.entrySha)
      && start == StartFacts(Sha(d.starts[run]), Sha(d.starts[run].plan), d.starts[run].startedAt)
    case Done(res, start, status, terminalSha, at) =>
      && run in d.starts && StartAccepted(c, d.starts[run], run, i + 1, res.entrySha)
      && run in d.terminals && EndAccepted(d.terminals[run], d.starts[run], run)
      && terminalSha == Sha(d.terminals[run])
  }

  /** The handle the loaders give the rest of a call: anchored and free to append. */
  ghost predicate Ready(d: Disk) {
    && d.hasJournal && d.anchor.Some?
    && Anchors(d.anchor.value, d.journal)
    && forall k | k in d.checkpoints :: k.body.revision <= d.anchor.value.body.revision
  }

  /** `st` is the state of this disk's journal, and its artifacts bear it out. */
  ghost predicate Replayed(c: Config, d: Disk, st: State)
    requires c.Valid()
  {
    && Replay(c, d.journal) == Some(st)
    && st.Live? && |st.cells| == |c.schedule|
    && Artifacts(c, d, st)
  }

  ghost predicate NoUnrecordedStart(c: Config, d: Disk, st: State)
    requires st.Live? && |st.cells| == |c.schedule|
  {
    forall k | 0 <= k < |c.schedule| :: !(st.cells[k].Held? && c.schedule[k] in d.starts)
  }

  /** Recovery adds nothing but `started` events, and touches no receipt. */
  ghost predicate OnlyStarts(d: Disk, d': Disk) {
    && d.journal <= d'.journal
    && (forall k | |d.journal| <= k < |d'.journal| :: d'.journal[k].Event().Started?)
    && d'.(journal := d.journal, anchor := d.anchor, checkpoints := d.checkpoints) == d
  }

  // ------------------------------------------------------ what recovery does

  /** A held run whose start was published is running. */
  ghost function RecoveredCell(c: Config, d: Disk, cell: Cell, i: nat): Cell
    requires i < |c.schedule|
  {
    var run := c.schedule[i];
    if cell.Held? && run in d.starts
    then Running(cell.res, StartFacts(Sha(d.starts[run]), Sha(d.starts[run].plan), d.starts[run].startedAt)) else cell
  }

  /** The state a disk is in once every published start is journaled; blank before the
      study is initialized. */
  ghost function Recovered(c: Config, d: Disk): State {
    if Replay(c, d.journal).Some? && Replay(c, d.journal).value.Live?
       && |Replay(c, d.journal).value.cells| == |c.schedule|
    then
      var st := Replay(c, d.journal).value;
      st.(cells := seq(|c.schedule|, i requires 0 <= i < |c.schedule| => RecoveredCell(c, d, st.cells[i], i)))
    else Blank
  }

  /** Durable operations that always suffice to recover. */
  function RecoveryCost(c: Config): int { 3 + 3 * c.maxParallel }

  // ------------------------------------------------ what each method leaves

  predicate Clean(fault: Fault) { fault != Integrity }

  /** The call was turned down before it recorded anything of its own. */
  predicate Declined(fault: Fault) { fault.Refused? || fault.NotInitialized? }

  ghost predicate SameReceipts(d: Disk, d': Disk) {
    d'.(journal := d.journal, anchor := d.anchor, checkpoints := d.checkpoints) == d
  }

  /** The last entry reserved the earliest pending cell of an open, unsealed study
      below its ceiling, and that cell is now held under this handle. */
  ghost predicate ReservedNext(c: Config, j: Journal, h: Handle) {
    && j != []
    && var last := j[|j| - 1];
       && last.Event() == Reserved(h.run, h.ordinal, h.reservedAt) && last.sha == h.entrySha
       && LiveJournal(c, j[..|j| - 1]) && LiveJournal(c, j)
       && var before := Replay(c, j[..|j| - 1]).value;
          && before.sealPending.None?
          && c.Scheduled(h.run, h.ordinal) && EarliestPending(before.cells, h.ordinal - 1)
          && ActiveIn(before.cells, |before.cells|) < c.maxParallel
          && Replay(c, j).value.cells[h.ordinal - 1] == Held(Reservation(h.reservedAt, h.entrySha))
  }

  ghost predicate LiveJournal(c: Config, j: Journal) {
    Replay(c, j).Some? && Open(c, Replay(c, j).value)
  }

  /** Nothing to hand out: the ceiling is reached or no cell is pending. */
  ghost predicate NoneAvailable(c: Config, j: Journal) {
    && LiveJournal(c, j) && Replay(c, j).value.sealPending.None?
    && var cells := Replay(c, j).value.cells;
       ActiveIn(cells, |cells|) >= c.maxParallel || forall k | 0 <= k < |cells| :: !cells[k].Pending?
  }

  ghost predicate SealBegun(c: Config, j: Journal, finished: bool) {
    && Replay(c, j).Some? && Replay(c, j).value.Live?
    && (if finished then Replay(c, j).value.sealed.Some?
        else Replay(c, j).value.sealPending.Some? && Replay(c, j).value.sealed.None?)
  }

  /** Every run is finished and exactly this seal is prepared but not recorded. */
  ghost predicate Awaiting(c: Config, j: Journal, seal: Seal) {
    && LiveJournal(c, j)
    && AllDone(Replay(c, j).value.cells)
    && Replay(c, j).value.sealPending == Some(seal)
  }

  ghost predicate PlanFits(c: Config, run: RunId, plan: Plan)
    requires c.Valid()
  {
    exists o :: c.Scheduled(run, o) && plan.baseline == c.baselines[o - 1] && plan.runtimeTcb == c.runtimeTcb
  }

  /** The run's cell is held under exactly this handle. */
  ghost predicate HeldUnder(c: Config, j: Journal, h: Handle) {
    && Replay(c, j).Some? && Replay(c, j).value.Live? && |Replay(c, j).value.cells| == |c.schedule|
    && c.Scheduled(h.run, h.ordinal)
    && Replay(c, j).value.cells[h.ordinal - 1] == Held(Reservation(h.reservedAt, h.entrySha))
  }

  ghost predicate Holds(c: Config, d: Disk, h: Handle) { HeldUnder(c, d.journal, h) }

  ghost predicate AlreadyRunning(c: Config, d: Disk, h: Handle) {
    && Replay(c, d.journal).Some? && Replay(c, d.journal).value.Live?
    && |Replay(c, d.journal).value.cells| == |c.schedule|
    && c.Scheduled(h.run, h.ordinal)
    && var cell := Replay(c, d.journal).value.cells[h.ordinal - 1];
       cell.Running? && cell.res == Reservation(h.reservedAt, h.entrySha)
  }

  /** The handle was live, and the last entry turned its cell into a running one. */
  ghost predicate Began(c: Config, d: Disk, h: Handle, plan: Plan, at: Time) {
    var j := d.journal;
    && j != [] && HeldUnder(c, j[..|j| - 1], h)
    && h.run in d.starts && d.starts[h.run] == Start(h.run, h.ordinal, at, h.entrySha, c.study, plan)
    && j[|j| - 1].Event() == Started(h.run, h.ordinal, h.entrySha, Sha(d.starts[h.run]), Sha(plan), at)
    && LiveJournal(c, j)
    && Replay(c, j).value.cells[h.ordinal - 1]
       == Running(Reservation(h.reservedAt, h.entrySha), StartFacts(Sha(d.starts[h.run]), Sha(plan), at))
  }

  ghost function IndexOf(schedule: seq<RunId>, run: RunId): (i: nat)
    ensures i <= |schedule|
    ensures i < |schedule| ==> schedule[i] == run
    ensures i == |schedule| ==> run !in schedule
  {
    if schedule == [] || schedule[0] == run then 0 else 1 + IndexOf(schedule[1..], run)
  }

  /** The cell of a scheduled run in a live journal's state. */
  ghost function RunCell(c: Config, j: Journal, run: RunId): Option<Cell> {
    if Replay(c, j).Some? && Replay(c, j).value.Live? && |Replay(c, j).value.cells| == |c.schedule| && run in c.schedule
    then Some(Replay(c, j).value.cells[IndexOf(c.schedule, run)]) else None
  }

  ghost predicate EndRecorded(c: Config, d: Disk, run: RunId) {
    && run in d.terminals && TerminalStatus(d.terminals[run].status)
    && RunCell(c, d.journal, run).Some? && RunCell(c, d.journal, run).value.Done?
    && RunCell(c, d.journal, run).value.terminalSha == Sha(d.terminals[run])
  }

  ghost predicate TerminalRefused(c: Config, d: Disk, run: RunId, why: Refusal) {
    match why
    case UnknownRun => run !in c.schedule
    case NotActive => RunCell(c, d.journal, run).Some? && RunCell(c, d.journal, run).value.Pending?
    case NotStarted => RunCell(c, d.journal, run).Some? && RunCell(c, d.journal, run).value.Held?
    case BadReceipt => RunCell(c, d.journal, run).Some? && RunCell(c, d.journal, run).value.Consumed()
      && (run in d.terminals && run in d.starts ==> !EndAccepted(d.terminals[run], d.starts[run], run))
    case _ => false
  }

  ghost predicate GivenBack(c: Config, d: Disk, run: RunId) {
    && run !in d.starts && run !in d.terminals
    && d.journal != [] && d.journal[|d.journal| - 1].Event().Released? && d.journal[|d.journal| - 1].Event().run == run
    && RunCell(c, d.journal[..|d.journal| - 1], run).Some? && RunCell(c, d.journal[..|d.journal| - 1], run).value.Held?
    && RunCell(c, d.journal, run).Some? && RunCell(c, d.journal, run).value.Pending?
  }

  ghost predicate ReleaseRefused(c: Config, d: Disk, run: RunId, reason: string, why: Refusal) {
    match why
    case NotActive =>
      run in c.schedule ==> (RunCell(c, d.journal, run).Some? && !RunCell(c, d.journal, run).value.Active())
    case StartExists => RunCell(c, d.journal, run).Some? && RunCell(c, d.journal, run).value.Running?
    case ManifestDiffers =>
      && RunCell(c, d.journal, run).Some? && RunCell(c, d.journal, run).value.Held?
      && d.anchor.Some? && QuarantineId(run, d.anchor.value.sha) in d.manifests
      && var m := d.manifests[QuarantineId(run, d.anchor.value.sha)];
         m.run != run || m.ordinal != IndexOf(c.schedule, run) + 1 || m.reason != Sha(reason)
    case _ => false
  }

  /** The seal a journal has prepared, whether or not it is recorded yet. */
  ghost function Prepared(c: Config, j: Journal): Option<Seal> {
    if Replay(c, j).Some? && Replay(c, j).value.Live? then Replay(c, j).value.sealPending else None
  }

  /** Sealed at this path: the file there is the document of the receipts on disk. */
  ghost predicate SealedAt(c: Config, d: Disk, path: string) {
    && Replay(c, d.journal).Some? && Replay(c, d.journal).value.Live?
    && Replay(c, d.journal).value.sealed.Some?
    && var seal := Replay(c, d.journal).value.sealed.value;
       seal.path == Sha(path) && path in d.outputs && seal.document == Sha(d.outputs[path])
  }

  /** Refused for unfinished runs, or because the seal is prepared for another path
      or document, or a different file already sits at the path. */
  ghost predicate SealRefused(c: Config, d: Disk, path: string, why: Refusal) {
    && Replay(c, d.journal).Some? && Replay(c, d.journal).value.Live?
    && var st := Replay(c, d.journal).value;
       match why
       case NotFinished => !AllDone(st.cells)
       case OutputDiffers =>
         && AllDone(st.cells) && st.sealPending.Some?
         && var seal := st.sealPending.value;
            || seal.path != Sha(path)
            || seal.document != Sha(SealDocument(c, d.starts, d.terminals, seal.sealedAt))
            || (path in d.outputs && Sha(d.outputs[path]) != seal.document)
            || (st.sealed.Some? && path !in d.outputs)
       case _ => false
  }

  // -------------------------------------------- what each method answers
  //
  // The answer of a call that does not die, on a reachable disk whose recovered state
  // is `st`.

  ghost predicate StatusAnswer(st: State, r: Result<State, Fault>) {
    r == if st.Blank? then Failure(NotInitialized) else Success(st)
  }

  ghost predicate InitializeAnswer(c: Config, st: State, r: Result<State, Fault>) {
    r == Success(if st.Blank? then Live(seq(|c.schedule|, _ => Pending), None, None) else st)
  }

  ghost predicate ReserveAnswer(c: Config, st: State, r: Result<Option<Handle>, Fault>) {
    match st
    case Blank => r == Failure(NotInitialized)
    case Live(cells, pending, sealed) =>
      if sealed.Some? then r == Failure(Refused(AlreadySealed))
      else if pending.Some? then r == Failure(Refused(SealIsPending))
      else if ActiveIn(cells, |cells|) >= c.maxParallel || forall k | 0 <= k < |cells| :: !cells[k].Pending?
      then r == Success(None)
      else r.Success? && r.value.Some?
  }

  /** The handle is that of an active cell. */
  predicate Claims(c: Config, cells: seq<Cell>, h: Handle) {
    && c.Scheduled(h.run, h.ordinal) && h.ordinal <= |cells|
    && cells[h.ordinal - 1].Active() && cells[h.ordinal - 1].res == Reservation(h.reservedAt, h.entrySha)
  }

  ghost predicate BeginAnswer(c: Config, st: State, h: Handle, plan: Plan, r: Result<Start, Fault>)
    requires c.Valid()
  {
    if !PlanFits(c, h.run, plan) then r == Failure(Refused(PlanMismatch))
    else match st
         case Blank => r == Failure(NotInitialized)
         case Live(cells, _, _) =>
           if !Claims(c, cells, h) then r == Failure(Refused(StaleHandle))
           else if cells[h.ordinal - 1].Running? then r == Failure(Refused(StartExists))
           else r.Success?
  }

  ghost predicate TerminalAnswer(c: Config, d: Disk, st: State, run: RunId, r: Result<State, Fault>) {
    if run !in c.schedule then r == Failure(Refused(UnknownRun))
    else match st
         case Blank => r == Failure(NotInitialized)
         case Live(cells, _, _) =>
           && IndexOf(c.schedule, run) < |cells|
           && match cells[IndexOf(c.schedule, run)]
              case Pending => r == Failure(Refused(NotActive))
              case Held(_) => r == Failure(Refused(NotStarted))
              case _ =>
                if run in d.starts && run in d.terminals && Belongs(d.terminals[run], d.starts[run])
                then r.Success? else r == Failure(Refused(BadReceipt))
  }

  /** The receipt ends this very start, with a status that ends a run. */
  predicate Belongs(t: TerminalReceipt, s: Start) {
    && t.run == s.run && t.startSha == Sha(s) && t.modelInstance == s.plan.modelInstance
    && s.startedAt <= t.recordedAt && t.status in {Completed, Failed, Blocked, TimedOut}
  }

  /** A release may also meet a manifest of the same run that an earlier one left. */
  ghost predicate ReleaseAnswer(c: Config, d: Disk, st: State, run: RunId, r: Result<State, Fault>) {
    match st
    case Blank => r == Failure(NotInitialized)
    case Live(cells, _, _) =>
      if run !in c.schedule then r == Failure(Refused(NotActive))
      else
        && IndexOf(c.schedule, run) < |cells|
        && match cells[IndexOf(c.schedule, run)]
           case Held(_) =>
             r.Success? || (r == Failure(Refused(ManifestDiffers)) && exists q :: q in d.manifests && q.run == run)
           case Running(_, _) => r == Failure(Refused(StartExists))
           case _ => r == Failure(Refused(NotActive))
  }

  /** A seal is prepared, but for another path. */
  predicate PreparedElsewhere(st: State, path: string)
    requires st.Live?
  {
    st.sealPending.Some? && st.sealPending.value.path != Sha(path)
  }

  /** Another document sits at the path. */
  predicate TakenBy(d: Disk, path: string, seal: Seal) {
    path in d.outputs && Sha(d.outputs[path]) != seal.document
  }

  /** Without a prepared seal, a file already at the path decides by what it holds. */
  ghost predicate SealAnswer(d: Disk, st: State, path: string, r: Result<State, Fault>) {
    match st
    case Blank => r == Failure(NotInitialized)
    case Live(cells, pending, sealed) =>
      if !AllDone(cells) then r == Failure(Refused(NotFinished))
      else if sealed.Some? then
        r == if sealed.value.path == Sha(path) then Success(st) else Failure(Refused(OutputDiffers))
      else if pending.Some? then
        if PreparedElsewhere(st, path) || TakenBy(d, path, pending.value)
        then r == Failure(Refused(OutputDiffers)) else r.Success?
      else r.Success? || (path in d.outputs && r == Failure(Refused(OutputDiffers)))
  }

  function ReservedEvent(h: Handle): Event { Reserved(h.run, h.ordinal, h.reservedAt) }

  function StartedEvent(s: Start): Event {
    Started(s.run, s.ordinal, s.reservation, Sha(s), Sha(s.plan), s.startedAt)
  }

  ghost function EndedEvent(c: Config, t: TerminalReceipt): Event {
    Ended(t.run, IndexOf(c.schedule, t.run) + 1, t.status, Sha(t), t.recordedAt)
  }

  predicate ReleasedUnder(e: Event, m: Manifest)
    requires e.Released?
  {
    e == Released(m.run, m.ordinal, e.quarantine, m.reason, Sha(m), m.quarantinedAt)
  }

  /** The last entry released the run for this reason; its manifest, new unless the same
      one was there, says so, and nothing else changed but for published starts. */
  ghost predicate Quarantined(c: Config, d: Disk, d': Disk, run: RunId, reason: string) {
    && d'.journal != []
    && var e := d'.journal[|d'.journal| - 1].Event();
       && e.Released? && e.quarantine in d'.manifests
       && ReleasedUnder(e, Manifest(run, IndexOf(c.schedule, run) + 1, Sha(reason), e.releasedAt))
       && d'.manifests[e.quarantine] == Manifest(run, IndexOf(c.schedule, run) + 1, Sha(reason), e.releasedAt)
       && StartsThen(d.journal, d'.journal, e)
       && (e.quarantine in d.manifests ==> d'.manifests == d.manifests)
       && SameReceipts(d.(manifests := d.manifests[e.quarantine := d'.manifests[e.quarantine]]), d')
  }

  /** Nothing changed but for published starts, this seal, and its document at the path,
      new unless the same one was there. */
  ghost predicate OnlySeals(d: Disk, d': Disk, path: string, seal: Option<Seal>) {
    && seal.Some? && d.journal <= d'.journal && path in d'.outputs
    && (forall k | |d.journal| <= k < |d'.journal| ::
          var e := d'.journal[k].Event();
          e.Started? || e == SealStarted(seal.value) || e == Sealed(seal.value))
    && (path in d.outputs ==> d'.outputs == d.outputs)
    && SameReceipts(d.(outputs := d.outputs[path := d'.outputs[path]]), d')
  }

  /** Recovery's `started` events, and then this one. */
  ghost predicate StartsThen(j: Journal, j': Journal, e: Event) {
    && |j| < |j'| && j <= j' && j'[|j'| - 1].Event() == e
    && forall k | |j| <= k < |j'| - 1 :: j'[k].Event().Started?
  }
}
