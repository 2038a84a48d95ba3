/** What every journal the replayer accepts has in common, whatever wrote it. */
module StudyHistory {
  import opened Ledger
  import opened StudyEvents
  import opened StudyMachine

  // ------------------------------------------------------------ event counts

  datatype Kind = Reserving | Starting | Releasing | Ending

  predicate Is(e: Event, kind: Kind, run: RunId) {
    match kind
    case Reserving => e.Reserved? && e.run == run
    case Starting => e.Started? && e.run == run
    case Releasing => e.Released? && e.run == run
    case Ending => e.Ended? && e.run == run
  }

  function Count(j: Journal, kind: Kind, run: RunId): nat {
    if j == [] then 0
    else Count(j[..|j| - 1], kind, run) + if Is(j[|j| - 1].Event(), kind, run) then 1 else 0
  }

  /** The cell of a run tells exactly how often each event has happened to it. */
  lemma {:induction false} Tally(c: Config, j: Journal, run: RunId, o: int)
    requires c.Valid() && j != [] && Replay(c, j).Some? && c.Scheduled(run, o)
    ensures |Replay(c, j).value.cells| == |c.schedule|
    ensures var cell := Replay(c, j).value.cells[o - 1];
      && Count(j, Starting, run) == (if cell.Consumed() then 1 else 0)
      && Count(j, Ending, run) == (if cell.Done? then 1 else 0)
      && Count(j, Reserving, run) == Count(j, Releasing, run) + (if cell.Pending? then 0 else 1)
    decreases |j|
  {
    hide Step;
    var front := j[..|j| - 1];
    if front == [] {
      FirstMove(c, j);
      assert forall kind :: Count(front, kind, run) == 0;
    } else {
      LastMove(c, j, o);
      Tally(c, front, run, o);
    }
  }

  /** No journal starts a run twice: two started events of one run are one entry. */
  lemma StartedAtMostOnce(c: Config, j: Journal, run: RunId, i: nat, k: nat)
    requires c.Valid() && Replay(c, j).Some?
    requires i < |j| && k < |j| && Is(j[i].Event(), Starting, run) && Is(j[k].Event(), Starting, run)
    ensures i == k
  {
    if i != k {
      CountTwo(j, Starting, run, if i < k then i else k, if i < k then k else i);
      ReplayPrefix(c, j, i + 1);
      StepSchedules(c, j, i);
      Tally(c, j, run, j[i].Event().ordinal);
    }
  }

  lemma StepSchedules(c: Config, j: Journal, i: nat)
    requires i < |j| && Replay(c, j[..i + 1]).Some?
    requires j[i].Event().Started? || j[i].Event().Reserved? || j[i].Event().Released? || j[i].Event().Ended?
    ensures c.Scheduled(j[i].Event().run, j[i].Event().ordinal)
  {
    assert j[..i + 1][..i] == j[..i];
  }

  lemma {:induction false} CountOne(j: Journal, kind: Kind, run: RunId, i: nat)
    requires i < |j| && Is(j[i].Event(), kind, run)
    ensures Count(j, kind, run) >= 1
    decreases |j|
  {
    if i < |j| - 1 { CountOne(j[..|j| - 1], kind, run, i); }
  }

  lemma {:induction false} CountTwo(j: Journal, kind: Kind, run: RunId, i: nat, k: nat)
    requires i < k < |j| && Is(j[i].Event(), kind, run) && Is(j[k].Event(), kind, run)
    ensures Count(j, kind, run) >= 2
    decreases |j|
  {
    if k < |j| - 1 {
      CountTwo(j[..|j| - 1], kind, run, i, k);
    } else {
      CountOne(j[..|j| - 1], kind, run, i);
    }
  }

  // ------------------------------------------------------ reservation origin

  /** Entry `i` reserved the run, under this very digest, and was never released. */
  ghost predicate ReservedBy(j: Journal, run: RunId, res: Reservation, i: nat) {
    && i < |j|
    && j[i].sha == res.entrySha
    && Is(j[i].Event(), Reserving, run)
    && j[i].Event().reservedAt == res.reservedAt
    && forall k | i < k < |j| :: !Is(j[k].Event(), Releasing, run)
  }

  /** Entry `k` started that reservation, by name and after it. */
  ghost predicate StartedBy(j: Journal, run: RunId, res: Reservation, start: StartFacts, i: nat, k: nat) {
    && i < k < |j|
    && Is(j[k].Event(), Starting, run)
    && j[k].Event().reservation == res.entrySha
    && StartFacts(j[k].Event().startSha, j[k].Event().planSha, j[k].Event().startedAt) == start
  }

  /** The journal entries behind a cell, in order: reserved, started, ended. */
  ghost predicate Story(j: Journal, run: RunId, cell: Cell) {
    match cell
    case Pending => true
    case Held(res) => exists i :: ReservedBy(j, run, res, i)
    case Running(res, start) => exists i, k :: ReservedBy(j, run, res, i) && StartedBy(j, run, res, start, i, k)
    case Done(res, start, status, terminalSha, at) =>
      exists i, k, m ::
        && ReservedBy(j, run, res, i) && StartedBy(j, run, res, start, i, k)
        && EndedBy(j, run, cell, k, m)
  }

  ghost predicate EndedBy(j: Journal, run: RunId, cell: Cell, k: nat, m: nat)
    requires cell.Done?
  {
    && k < m < |j|
    && Is(j[m].Event(), Ending, run)
    && j[m].Event().status == cell.status && TerminalStatus(cell.status)
    && j[m].Event().terminalSha == cell.terminalSha
  }

  lemma StoryExtends(j: Journal, e: Entry<Event>, run: RunId, cell: Cell)
    requires Story(j, run, cell) && !Is(e.Event(), Releasing, run)
    ensures Story(j + [e], run, cell)
  {
    match cell
    case Pending =>
    case Held(res) =>
      var i :| ReservedBy(j, run, res, i);
      assert ReservedBy(j + [e], run, res, i);
    case Running(res, start) =>
      var i, k :| ReservedBy(j, run, res, i) && StartedBy(j, run, res, start, i, k);
      assert ReservedBy(j + [e], run, res, i) && StartedBy(j + [e], run, res, start, i, k);
    case Done(res, start, _, _, _) =>
      var i, k, m :| ReservedBy(j, run, res, i) && StartedBy(j, run, res, start, i, k) && EndedBy(j, run, cell, k, m);
      assert ReservedBy(j + [e], run, res, i) && StartedBy(j + [e], run, res, start, i, k);
      assert EndedBy(j + [e], run, cell, k, m);
  }

  /** Every cell of every accepted journal has its story. */
  lemma {:induction false} Stories(c: Config, j: Journal, run: RunId, o: int)
    requires c.Valid() && j != [] && Replay(c, j).Some? && c.Scheduled(run, o)
    ensures |Replay(c, j).value.cells| == |c.schedule|
    ensures Story(j, run, Replay(c, j).value.cells[o - 1])
    decreases |j|
  {
    hide Step;
    var front, last := j[..|j| - 1], j[|j| - 1];
    assert j == front + [last];
    if front == [] {
      FirstMove(c, j);
    } else {
      LastMove(c, j, o);
      Stories(c, front, run, o);
      StoryMoves(front, last, run, Replay(c, front).value.cells[o - 1], Replay(c, j).value.cells[o - 1]);
    }
  }

  lemma StoryMoves(front: Journal, last: Entry<Event>, run: RunId, before: Cell, after: Cell)
    requires Story(front, run, before)
    requires if Touches(last.Event(), run) then Moves(before, last, after) else after == before
    ensures Story(front + [last], run, after)
  {
    var j, e := front + [last], last.Event();
    if !Touches(e, run) {
      StoryExtends(front, last, run, after);
    } else if e.Reserved? {
      assert ReservedBy(j, run, after.res, |front|);
    } else if e.Started? {
      var i :| ReservedBy(front, run, before.res, i);
      assert ReservedBy(j, run, after.res, i) && StartedBy(j, run, after.res, after.start, i, |front|);
    } else if e.Ended? {
      var i, k :| ReservedBy(front, run, before.res, i) && StartedBy(front, run, before.res, before.start, i, k);
      assert ReservedBy(j, run, after.res, i) && StartedBy(j, run, after.res, after.start, i, k);
      assert EndedBy(j, run, after, k, |front|);
    }
  }

  lemma ReservationOf(j: Journal, run: RunId, cell: Cell) returns (i: nat)
    requires Story(j, run, cell) && !cell.Pending?
    ensures ReservedBy(j, run, cell.res, i)
  {
    match cell
    case Held(res) => i :| ReservedBy(j, run, res, i);
    case Running(res, start) =>
      var i', k :| ReservedBy(j, run, res, i') && StartedBy(j, run, res, start, i', k);
      i := i';
    case Done(res, start, _, _, _) =>
      var i', k, m :|
        ReservedBy(j, run, res, i') && StartedBy(j, run, res, start, i', k) && EndedBy(j, run, cell, k, m);
      i := i';
  }

  /** A reservation that was released is never the live one again, even after the
      same run is reserved anew: entry digests name their position. */
  lemma ReleasedReservationIsStale(c: Config, j: Journal, run: RunId, o: int, i: nat, k: nat)
    requires c.Valid() && ValidLedger(j) && Replay(c, j).Some? && c.Scheduled(run, o)
    requires i < k < |j| && Is(j[k].Event(), Releasing, run)
    ensures |Replay(c, j).value.cells| == |c.schedule|
    ensures var cell := Replay(c, j).value.cells[o - 1];
      !cell.Pending? ==> cell.res.entrySha != j[i].sha
  {
    Stories(c, j, run, o);
    var cell := Replay(c, j).value.cells[o - 1];
    if !cell.Pending? {
      var origin := ReservationOf(j, run, cell);
      DigestNamesPosition(j, i, origin);
    }
  }

  lemma DigestNamesPosition<E>(j: seq<Entry<E>>, i: nat, k: nat)
    requires ValidLedger(j) && i < |j| && k < |j|
    ensures j[i].sha == j[k].sha ==> i == k
  {
    assert ValidAt(j, i) && ValidAt(j, k);
  }

  // ------------------------------------------------------- scheduling window

  /** The highest ordinal ever reserved. */
  function Highest(j: Journal): (h: int)
    ensures h >= 0
  {
    if j == [] then 0
    else
      var h := Highest(j[..|j| - 1]);
      var e := j[|j| - 1].Event();
      if e.Reserved? && e.ordinal > h then e.ordinal else h
  }

  function PendingIn(cells: seq<Cell>, n: nat): nat
    requires n <= |cells|
  {
    if n == 0 then 0 else PendingIn(cells, n - 1) + if cells[n - 1].Pending? then 1 else 0
  }

  function DoneIn(cells: seq<Cell>, n: nat): nat
    requires n <= |cells|
  {
    if n == 0 then 0 else DoneIn(cells, n - 1) + if cells[n - 1].Done? then 1 else 0
  }

  lemma {:induction false} PendingInUpdate(cells: seq<Cell>, i: nat, cell: Cell, n: nat)
    requires i < |cells| && n <= |cells|
    ensures var change := (if cell.Pending? then 1 else 0) - (if cells[i].Pending? then 1 else 0);
      PendingIn(cells[i := cell], n) == PendingIn(cells, n) + if i < n then change else 0
  {
    if n > 0 { PendingInUpdate(cells, i, cell, n - 1); }
  }

  lemma {:induction false} PendingInZero(cells: seq<Cell>, n: nat)
    requires n <= |cells| && forall k | 0 <= k < n :: !cells[k].Pending?
    ensures PendingIn(cells, n) == 0
  {
    if n > 0 { PendingInZero(cells, n - 1); }
  }

  lemma {:induction false} ActiveInTail(cells: seq<Cell>, h: nat, n: nat)
    requires h <= n <= |cells| && forall k | h <= k < n :: cells[k].Pending?
    ensures ActiveIn(cells, n) == ActiveIn(cells, h)
  {
    if h < n { ActiveInTail(cells, h, n - 1); }
  }

  lemma {:induction false} CellsPartition(cells: seq<Cell>, n: nat)
    requires n <= |cells|
    ensures PendingIn(cells, n) + ActiveIn(cells, n) + DoneIn(cells, n) == n
  {
    if n > 0 { CellsPartition(cells, n - 1); }
  }

  ghost predicate Windowed(c: Config, cells: seq<Cell>, h: int) {
    && 0 <= h <= |cells|
    && (forall k | h <= k < |cells| :: cells[k].Pending?)
    && PendingIn(cells, h) + ActiveIn(cells, |cells|) <= c.maxParallel
  }

  lemma WindowStep(c: Config, st: State, e: Entry<Event>, h: int)
    requires c.Valid() && st.Live? && Windowed(c, st.cells, h) && Step(c, st, e).Some?
    ensures Windowed(c, Step(c, st, e).value.cells,
      if e.Event().Reserved? && e.Event().ordinal > h then e.Event().ordinal else h)
  {
    var ev := e.Event();
    if ev.Reserved? || ev.Started? || ev.Released? || ev.Ended? {
      var i := ev.ordinal - 1;
      var after := Step(c, st, e).value.cells;
      PendingInUpdate(st.cells, i, after[i], h);
      ActiveInUpdate(st.cells, i, after[i], |after|);
      if ev.Reserved? && ev.ordinal > h {
        assert st.cells[h].Pending?;
        assert i == h;
        PendingInZero(after, i + 1);
      }
    }
  }

  lemma {:induction false} WindowInvariant(c: Config, j: Journal)
    requires c.Valid() && j != [] && Replay(c, j).Some?
    ensures |Replay(c, j).value.cells| == |c.schedule|
    ensures Windowed(c, Replay(c, j).value.cells, Highest(j))
    decreases |j|
  {
    ReplayShape(c, j);
    var front := j[..|j| - 1];
    if front == [] {
      assert Highest(front) == 0;
      ActiveInTail(Replay(c, j).value.cells, 0, |c.schedule|);
    } else {
      ReplayShape(c, front);
      WindowInvariant(c, front);
      WindowStep(c, Replay(c, front).value, j[|j| - 1], Highest(front));
    }
  }

  /** The window bound: everything ever reserved lies in the first `Highest(j)`
      cells, the rest were never touched, and at most `maxParallel` of those first
      cells are not terminal, through any releases. */
  lemma WindowBound(c: Config, j: Journal)
    requires c.Valid() && j != [] && Replay(c, j).Some?
    ensures 0 <= Highest(j) <= |c.schedule| == |Replay(c, j).value.cells|
    ensures var h, cells := Highest(j), Replay(c, j).value.cells;
      && PendingIn(cells, h) + ActiveIn(cells, |cells|) <= c.maxParallel
      && DoneIn(cells, h) >= h - c.maxParallel
      && forall k | h <= k < |cells| :: cells[k].Pending? && Count(j, Reserving, c.schedule[k]) == 0
  {
    WindowInvariant(c, j);
    var h, cells := Highest(j), Replay(c, j).value.cells;
    ActiveInTail(cells, h, |cells|);
    CellsPartition(cells, h);
    forall k | h <= k < |cells|
      ensures Count(j, Reserving, c.schedule[k]) == 0
    {
      NeverReserved(c, j, k);
    }
  }

  lemma {:induction false} NeverReserved(c: Config, j: Journal, k: nat)
    requires c.Valid() && Replay(c, j).Some? && Highest(j) <= k < |c.schedule|
    ensures Count(j, Reserving, c.schedule[k]) == 0
    decreases |j|
  {
    if j != [] { NeverReserved(c, j[..|j| - 1], k); }
  }

  // ----------------------------------------------------------------- sealing

  /** A sealed journal holds the full denominator: every scheduled run is done,
      with exactly one start and one end, in the order reserved, started, ended. */
  lemma SealedJournalIsComplete(c: Config, j: Journal, run: RunId, o: int)
    requires c.Valid() && j != [] && Replay(c, j).Some? && Replay(c, j).value.sealed.Some?
    requires c.Scheduled(run, o)
    ensures Count(j, Starting, run) == 1 && Count(j, Ending, run) == 1
    ensures |Replay(c, j).value.cells| == |c.schedule|
    ensures Replay(c, j).value.cells[o - 1].Done? && Story(j, run, Replay(c, j).value.cells[o - 1])
  {
    ReplayShape(c, j);
    Tally(c, j, run, o);
    Stories(c, j, run, o);
  }

  /** No event follows `sealed`. */
  lemma NothingFollowsSealed(c: Config, j: Journal, i: nat)
    requires c.Valid() && Replay(c, j).Some? && i < |j| && j[i].Event().Sealed?
    ensures i == |j| - 1
  {
    if i < |j| - 1 {
      ReplayPrefix(c, j, i + 2);
      SealedStops(c, j[..i + 2]);
    }
  }

  lemma SealedStops(c: Config, j: Journal)
    requires |j| >= 2 && j[|j| - 2].Event().Sealed?
    ensures Replay(c, j).None?
  {
    var front := j[..|j| - 1];
    assert front[|front| - 1] == j[|j| - 2];
  }

  /** What was sealed is exactly what was prepared. */
  lemma {:induction false} SealedWasPrepared(c: Config, j: Journal)
    requires c.Valid() && j != [] && Replay(c, j).Some? && Replay(c, j).value.sealPending.Some?
    ensures exists k: nat :: k < |j| && j[k].Event() == SealStarted(Replay(c, j).value.sealPending.value)
    decreases |j|
  {
    var front := j[..|j| - 1];
    if j[|j| - 1].Event() != SealStarted(Replay(c, j).value.sealPending.value) {
      SealedWasPrepared(c, front);
      var k: nat :| k < |front| && front[k].Event() == SealStarted(Replay(c, front).value.sealPending.value);
      assert j[k] == front[k];
    }
  }
}
