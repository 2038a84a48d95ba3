/**
 The study journal's events, and the machine that replays them
 (tools/proof_plane/controller.py, `_derive_state`).

 Run identifiers are unique in the schedule and ordinals are positions in it, so
 the replayer's per-run dictionary is a sequence of cells, one per ordinal.
 */
module StudyMachine {
  import opened Wrappers
  import opened Ledger
  import opened StudyEvents

  datatype Config = Config(study: string, schedule: seq<RunId>, baselines: seq<string>, runtimeTcb: string,
      maxParallel: int) {
    ghost predicate Valid() {
      && |baselines| == |schedule|
      && maxParallel >= 1
      && forall i, j | 0 <= i < j < |schedule| :: schedule[i] != schedule[j]
    }

    predicate Scheduled(run: RunId, ordinal: int) {
      1 <= ordinal <= |schedule| && schedule[ordinal - 1] == run
    }
  }

  // ------------------------------------------------------------------- cells

  datatype Reservation = Reservation(reservedAt: Time, entrySha: Digest<Event>)
  datatype StartFacts = StartFacts(startSha: Sha<Start>, planSha: Sha<Plan>, startedAt: Time)

  datatype Cell =
    | Pending
    | Held(res: Reservation)
    | Running(res: Reservation, start: StartFacts)
    | Done(res: Reservation, start: StartFacts, status: Status, terminalSha: Sha<TerminalReceipt>, recordedAt: Time)
  {
    predicate Active() { Held? || Running? }
    predicate Consumed() { Running? || Done? }
  }

  datatype State =
    | Blank
    | Live(cells: seq<Cell>, sealPending: Option<Seal>, sealed: Option<Seal>)

  /** How many of the first `n` cells are active. */
  function ActiveIn(cells: seq<Cell>, n: nat): (count: nat)
    requires n <= |cells|
    ensures count <= n
  {
    if n == 0 then 0 else ActiveIn(cells, n - 1) + if cells[n - 1].Active() then 1 else 0
  }

  ghost predicate EarliestPending(cells: seq<Cell>, i: nat) {
    && i < |cells|
    && cells[i].Pending?
    && forall k | 0 <= k < i :: !cells[k].Pending?
  }

  ghost predicate AllDone(cells: seq<Cell>) {
    forall i | 0 <= i < |cells| :: cells[i].Done?
  }

  /** One event of the abstract study machine, or its refusal. */
  ghost function Step(c: Config, st: State, e: Entry<Event>): Option<State> {
    match e.Event()
    case Initialized(study, maxParallel) =>
      if st.Blank? && study == c.study && maxParallel == c.maxParallel
      then Some(Live(seq(|c.schedule|, _ => Pending), None, None)) else None
    case Reserved(run, o, at) =>
      if Open(c, st) && c.Scheduled(run, o)
         && EarliestPending(st.cells, o - 1) && ActiveIn(st.cells, |st.cells|) < c.maxParallel
      then Some(st.(cells := st.cells[o - 1 := Held(Reservation(at, e.sha))])) else None
    case Started(run, o, reservation, startSha, planSha, at) =>
      if Open(c, st) && c.Scheduled(run, o)
         && st.cells[o - 1].Held? && st.cells[o - 1].res.entrySha == reservation
      then Some(st.(cells := st.cells[o - 1 := Running(st.cells[o - 1].res,
          StartFacts(startSha, planSha, at))])) else None
    case Released(run, o, _, _, _, _) =>
      if Open(c, st) && c.Scheduled(run, o) && st.cells[o - 1].Held?
      then Some(st.(cells := st.cells[o - 1 := Pending])) else None
    case Ended(run, o, status, terminalSha, at) =>
      if Open(c, st) && c.Scheduled(run, o) && st.cells[o - 1].Running? && TerminalStatus(status)
      then Some(st.(cells := st.cells[o - 1 := Done(st.cells[o - 1].res, st.cells[o - 1].start, status, terminalSha,
          at)]))
      else None
    case SealStarted(seal) =>
      if Open(c, st) && AllDone(st.cells) && st.sealPending.None?
      then Some(st.(sealPending := Some(seal))) else None
    case Sealed(seal) =>
      if Open(c, st) && AllDone(st.cells) && st.sealPending == Some(seal)
      then Some(st.(sealed := Some(seal))) else None
  }

  /** Initialized, unsealed and shaped like the schedule. */
  ghost predicate Open(c: Config, st: State) {
    st.Live? && st.sealed.None? && |st.cells| == |c.schedule|
  }

  /** Stepping a whole journal. */
  ghost function Replay(c: Config, j: Journal): Option<State>
    decreases |j|
  {
    if j == [] then Some(Blank)
    else
      var before := Replay(c, j[..|j| - 1]);
      if before.None? then None else Step(c, before.value, j[|j| - 1])
  }

  lemma ReplaySnoc(c: Config, j: Journal, e: Entry<Event>)
    ensures Replay(c, j + [e]) == (if Replay(c, j).None? then None else Step(c, Replay(c, j).value, e))
  {
    assert (j + [e])[..|j|] == j;
  }

  lemma {:induction false} ReplayPrefix(c: Config, j: Journal, n: nat)
    requires n <= |j| && Replay(c, j).Some?
    ensures Replay(c, j[..n]).Some?
    decreases |j|
  {
    if n == |j| {
      assert j[..n] == j;
    } else {
      ReplayPrefix(c, j[..|j| - 1], n);
      assert j[..|j| - 1][..n] == j[..n];
    }
  }

  lemma {:induction false} ReplayShape(c: Config, j: Journal)
    requires Replay(c, j).Some?
    ensures Replay(c, j).value.Blank? <==> j == []
    ensures j != [] ==> |Replay(c, j).value.cells| == |c.schedule|
    ensures Replay(c, j).value.Live? && Replay(c, j).value.sealed.Some? ==>
      AllDone(Replay(c, j).value.cells) && Replay(c, j).value.sealPending == Replay(c, j).value.sealed
    ensures Replay(c, j).value.Live? && Replay(c, j).value.sealPending.Some? ==> AllDone(Replay(c, j).value.cells)
    decreases |j|
  {
    if j != [] { ReplayShape(c, j[..|j| - 1]); }
  }

  /** How one event moves the cell of its run. */
  ghost predicate Moves(before: Cell, e: Entry<Event>, after: Cell) {
    match e.Event()
    case Reserved(_, _, at) => before.Pending? && after == Held(Reservation(at, e.sha))
    case Started(_, _, reservation, startSha, planSha, at) =>
      before.Held? && before.res.entrySha == reservation
      && after == Running(before.res, StartFacts(startSha, planSha, at))
    case Released(_, _, _, _, _, _) => before.Held? && after.Pending?
    case Ended(_, _, status, terminalSha, at) =>
      before.Running? && TerminalStatus(status)
      && after == Done(before.res, before.start, status, terminalSha, at)
    case _ => false
  }

  predicate Touches(e: Event, run: RunId) {
    (e.Reserved? || e.Started? || e.Released? || e.Ended?) && e.run == run
  }

  /** An accepted entry moves the cell of its own run and leaves every other alone. */
  lemma LastMove(c: Config, j: Journal, o: int)
    requires c.Valid() && |j| >= 2 && Replay(c, j).Some? && 1 <= o <= |c.schedule|
    ensures Replay(c, j[..|j| - 1]).Some? && Replay(c, j[..|j| - 1]).value.Live? && Replay(c, j).value.Live?
    ensures |Replay(c, j[..|j| - 1]).value.cells| == |Replay(c, j).value.cells| == |c.schedule|
    ensures var e := j[|j| - 1];
      var before, after := Replay(c, j[..|j| - 1]).value.cells[o - 1], Replay(c, j).value.cells[o - 1];
      if Touches(e.Event(), c.schedule[o - 1])
      then e.Event().ordinal == o && Moves(before, e, after) else after == before
  {
    ReplayShape(c, j);
    ReplayShape(c, j[..|j| - 1]);
  }

  /** A journal's first entry initializes every cell as pending. */
  lemma FirstMove(c: Config, j: Journal)
    requires |j| == 1 && Replay(c, j).Some?
    ensures j[0].Event().Initialized?
    ensures Replay(c, j).value == Live(seq(|c.schedule|, _ => Pending), None, None)
  {
    assert j[..0] == [];
  }

  lemma {:induction false} ActiveInUpdate(cells: seq<Cell>, i: nat, cell: Cell, n: nat)
    requires i < |cells| && n <= |cells|
    ensures var change := (if cell.Active() then 1 else 0) - (if cells[i].Active() then 1 else 0);
      ActiveIn(cells[i := cell], n) == ActiveIn(cells, n) + if i < n then change else 0
  {
    if n > 0 { ActiveInUpdate(cells, i, cell, n - 1); }
  }

  // ---------------------------------------------------------------- replayer

  method CountActive(cells: seq<Cell>) returns (count: nat)
    ensures count == ActiveIn(cells, |cells|)
  {
    count := 0;
    for i := 0 to |cells|
      invariant count == ActiveIn(cells, i)
    {
      if cells[i].Active() { count := count + 1; }
    }
  }

  /** The position of the least pending ordinal. */
  method FirstPending(cells: seq<Cell>) returns (i: nat)
    ensures i <= |cells|
    ensures i < |cells| ==> EarliestPending(cells, i)
    ensures i == |cells| ==> forall k | 0 <= k < |cells| :: !cells[k].Pending?
  {
    i := 0;
    while i < |cells| && !cells[i].Pending?
      invariant i <= |cells|
      invariant forall k | 0 <= k < i :: !cells[k].Pending?
    {
      i := i + 1;
    }
  }

  method EveryDone(cells: seq<Cell>) returns (all: bool)
    ensures all <==> AllDone(cells)
  {
    for i := 0 to |cells|
      invariant forall k | 0 <= k < i :: cells[k].Done?
    {
      if !cells[i].Done? { return false; }
    }
    return true;
  }

  /** The replayer's handling of one entry, in the order of its checks. */
  method ApplyEntry(c: Config, index: nat, st: State, entry: Entry<Event>) returns (r: Option<State>)
    requires st.Blank? <==> index == 0
    requires st.Live? ==> |st.cells| == |c.schedule|
    ensures r == Step(c, st, entry)
  {
    var event := entry.Event();
    if event.Initialized? {
      if index != 0 || event.study != c.study || event.maxParallel != c.maxParallel { return None; }
      return Some(Live(seq(|c.schedule|, _ => Pending), None, None));
    }
    if st.Blank? || st.sealed.Some? { return None; }
    if event.SealStarted? || event.Sealed? {
      var all := EveryDone(st.cells);
      if !all { return None; }
      if event.SealStarted? {
        if st.sealPending.Some? { return None; }
        return Some(st.(sealPending := Some(event.seal)));
      }
      if st.sealPending != Some(event.seal) { return None; }
      return Some(st.(sealed := Some(event.seal)));
    }
    if !c.Scheduled(event.run, event.ordinal) { return None; }
    var i := event.ordinal - 1;
    var previous := st.cells[i];
    match event {
      case Reserved(_, _, reservedAt) =>
        if !previous.Pending? { return None; }
        var active := CountActive(st.cells);
        if active >= c.maxParallel { return None; }
        var first := FirstPending(st.cells);
        if first != i { return None; }
        return Some(st.(cells := st.cells[i := Held(Reservation(reservedAt, entry.sha))]));
      case Started(_, _, reservation, startSha, planSha, startedAt) =>
        if !previous.Held? || previous.res.entrySha != reservation { return None; }
        return Some(st.(cells := st.cells[i := Running(previous.res, StartFacts(startSha, planSha, startedAt))]));
      case Released(_, _, _, _, _, _) =>
        if !previous.Held? { return None; }
        return Some(st.(cells := st.cells[i := Pending]));
      case Ended(_, _, status, terminalSha, recordedAt) =>
        if !previous.Running? || !TerminalStatus(status) { return None; }
        return Some(st.(cells := st.cells[i := Done(previous.res, previous.start, status, terminalSha, recordedAt)]));
    }
  }

  /**
   The controller's replayer: one pass over the journal.  It accepts exactly the
   journals the abstract machine can step through, and ends in the same state.
   */
  method DeriveState(c: Config, entries: Journal) returns (r: Option<State>)
    ensures r == if entries == [] then None else Replay(c, entries)
  {
    if entries == [] { return None; }
    var st := Blank;
    for index := 0 to |entries|
      invariant Replay(c, entries[..index]) == Some(st)
      invariant st.Blank? <==> index == 0
      invariant st.Live? ==> |st.cells| == |c.schedule|
    {
      var next := ApplyEntry(c, index, st, entries[index]);
      assert entries[..index + 1] == entries[..index] + [entries[index]];
      ReplaySnoc(c, entries[..index], entries[index]);
      if next.None? {
        RejectedPrefix(c, entries, index + 1);
        return None;
      }
      ReplayShape(c, entries[..index + 1]);
      st := next.value;
    }
    assert entries[..|entries|] == entries;
    return Some(st);
  }

  lemma RejectedPrefix(c: Config, j: Journal, n: nat)
    requires n <= |j| && Replay(c, j[..n]).None?
    ensures Replay(c, j).None?
  {
    if Replay(c, j).Some? { ReplayPrefix(c, j, n); }
  }
}
