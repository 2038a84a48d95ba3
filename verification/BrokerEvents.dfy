/**
 The broker's ledger events and their replay (tools/proof_plane/broker.py,
 `_restore_tool_calls`).  The ledger is taken as its sequence of events; the hash
 chain under it is the one in `Ledger`.
 */
module BrokerEvents {
  import opened Wrappers

  datatype Config = Config(binding: string, toolCallLimit: nat, commandTimeout: int) {
    predicate Valid() { 1 <= toolCallLimit <= 10_000 && 1 <= commandTimeout <= 3_600 }
  }

  const TOOL_NAMES := {"proof_exec", "proof_read_file", "proof_apply_patch", "proof_git_evidence"}

  /** What one command left as evidence. */
  datatype Evidence = Evidence(
    commandOrdinal: int, exitCode: int, exit: Sha<(int, bool)>, timedOut: bool, truncated: bool,
    stdout: string, stderr: string, result: string)

  datatype Event =
    | Foreign(text: string)                       // any event whose type does not begin with "broker-"
    | Unsupported(binding: string, text: string)  // a broker event of another type
    | ToolStart(binding: string, tool: string, ordinal: int, args: Sha<string>, env: Sha<string>, timeout: int)
    | Command(binding: string, tool: string, ordinal: int, args: Sha<string>, env: Sha<string>, timeout: int,
              argv: Sha<string>, cwd: string, evidence: Evidence)
    | ToolResult(binding: string, tool: string, ordinal: int, succeeded: bool, result: Sha<string>,
                 commandCount: int, commands: Sha<seq<Evidence>>)

  /** What replay has gathered: starts by ordinal, the commands under each, the closed ordinals. */
  datatype Replayed = Replayed(starts: map<int, Event>, commands: map<int, seq<Evidence>>, results: set<int>)

  const NOTHING := Replayed(map[], map[], {})

  predicate SameCall(start: Event, e: Event)
    requires start.ToolStart? && e.Command?
  {
    e.tool == start.tool && e.args == start.args && e.env == start.env && e.timeout == start.timeout
  }

  predicate Coherent(st: Replayed) {
    && st.commands.Keys == st.starts.Keys
    && forall o | o in st.starts :: st.starts[o].ToolStart?
  }

  function Step(c: Config, st: Replayed, e: Event): (r: Option<Replayed>)
    requires Coherent(st)
    ensures r.Some? ==> Coherent(r.value)
  {
    match e
    case Foreign(_) => Some(st)
    case Unsupported(_, _) => None
    case ToolStart(binding, tool, o, _, _, timeout) =>
      if binding == c.binding && o == |st.starts| + 1 && tool in TOOL_NAMES && 1 <= timeout <= c.commandTimeout
      then Some(st.(starts := st.starts[o := e], commands := st.commands[o := []])) else None
    case Command(binding, tool, o, _, _, _, _, _, v) =>
      if binding == c.binding && o in st.starts && o !in st.results && SameCall(st.starts[o], e)
         && v.commandOrdinal == |st.commands[o]| + 1 && v.exit == Sha((v.exitCode, v.timedOut))
      then Some(st.(commands := st.commands[o := st.commands[o] + [v]])) else None
    case ToolResult(binding, tool, o, _, _, count, commands) =>
      if binding == c.binding && o in st.starts && o !in st.results && tool == st.starts[o].tool
         && count == |st.commands[o]| && commands == Sha(st.commands[o])
      then Some(st.(results := st.results + {o})) else None
  }

  function Replay(c: Config, events: seq<Event>): (r: Option<Replayed>)
    ensures r.Some? ==> Coherent(r.value)
    decreases |events|
  {
    if events == [] then Some(NOTHING)
    else
      var before := Replay(c, events[..|events| - 1]);
      if before.None? then None else Step(c, before.value, events[|events| - 1])
  }

  lemma ReplaySnoc(c: Config, events: seq<Event>, e: Event)
    ensures Replay(c, events + [e]) == if Replay(c, events).None? then None else Step(c, Replay(c, events).value, e)
  {
    assert (events + [e])[..|events|] == events;
  }

  lemma {:induction false} ReplayStuck(c: Config, events: seq<Event>, n: nat)
    requires n <= |events| && Replay(c, events[..n]).None?
    ensures Replay(c, events).None?
    decreases |events|
  {
    if n < |events| {
      assert events[..|events| - 1][..n] == events[..n];
      ReplayStuck(c, events[..|events| - 1], n);
    } else {
      assert events[..n] == events;
    }
  }

  /** The replay loop; the number of tool calls it restores, or none for a refusal. */
  method RestoreToolCalls(c: Config, events: seq<Event>) returns (calls: Option<nat>)
    ensures calls == if Replay(c, events).None? then None else Some(|Replay(c, events).value.starts|)
  {
    var starts: map<int, Event> := map[];
    var commands: map<int, seq<Evidence>> := map[];
    var results: set<int> := {};
    for i := 0 to |events|
      invariant Coherent(Replayed(starts, commands, results))
      invariant Replay(c, events[..i]) == Some(Replayed(starts, commands, results))
    {
      var e := events[i];
      assert events[..i + 1] == events[..i] + [e];
      ReplaySnoc(c, events[..i], e);
      if Step(c, Replayed(starts, commands, results), e).None? { ReplayStuck(c, events, i + 1); }
      if e.Foreign? { continue; }
      if e.Unsupported? || e.binding != c.binding { return None; }
      if e.ToolStart? {
        if e.ordinal != |starts| + 1 || e.tool !in TOOL_NAMES || !(1 <= e.timeout <= c.commandTimeout) { return None; }
        starts, commands := starts[e.ordinal := e], commands[e.ordinal := []];
      } else if e.Command? {
        if e.ordinal !in starts || e.ordinal in results { return None; }
        if !SameCall(starts[e.ordinal], e) { return None; }
        var v := e.evidence;
        if v.commandOrdinal != |commands[e.ordinal]| + 1 || v.exit != Sha((v.exitCode, v.timedOut)) { return None; }
        commands := commands[e.ordinal := commands[e.ordinal] + [v]];
      } else {
        if e.ordinal !in starts || e.ordinal in results || e.tool != starts[e.ordinal].tool { return None; }
        if e.commandCount != |commands[e.ordinal]| || e.commands != Sha(commands[e.ordinal]) { return None; }
        results := results + {e.ordinal};
      }
    }
    assert events[..|events|] == events;
    return Some(|starts|);
  }

  // ------------------------------------------------- what the ledger itself says

  /** The commands recorded under one ordinal, in order. */
  function CommandsOf(events: seq<Event>, o: int): seq<Evidence>
    decreases |events|
  {
    if events == [] then []
    else
      var last := events[|events| - 1];
      CommandsOf(events[..|events| - 1], o) + if last.Command? && last.ordinal == o then [last.evidence] else []
  }

  /** The command events recorded under one ordinal, in order. */
  function RunsOf(events: seq<Event>, o: int): seq<Event>
    decreases |events|
  {
    if events == [] then []
    else
      var last := events[|events| - 1];
      RunsOf(events[..|events| - 1], o) + if last.Command? && last.ordinal == o then [last] else []
  }

  lemma RunsSnoc(front: seq<Event>, last: Event, o: int)
    ensures RunsOf(front + [last], o) == RunsOf(front, o) + if last.Command? && last.ordinal == o then [last] else []
  {
    assert (front + [last])[..|front|] == front;
  }

  /** The evidence of a call is that of its command events. */
  lemma {:induction false} RunsLeaveEvidence(events: seq<Event>, o: int)
    ensures |RunsOf(events, o)| == |CommandsOf(events, o)|
    ensures forall i | 0 <= i < |CommandsOf(events, o)| ::
      RunsOf(events, o)[i].Command? && RunsOf(events, o)[i].evidence == CommandsOf(events, o)[i]
    decreases |events|
  {
    if events != [] { RunsLeaveEvidence(events[..|events| - 1], o); }
  }

  ghost predicate Started(events: seq<Event>, o: int) {
    exists i :: 0 <= i < |events| && events[i].ToolStart? && events[i].ordinal == o
  }

  ghost predicate Closed(events: seq<Event>, o: int) {
    exists i :: 0 <= i < |events| && events[i].ToolResult? && events[i].ordinal == o
  }

  /** How many tool calls were started. */
  function StartCount(events: seq<Event>): nat
    decreases |events|
  {
    if events == [] then 0
    else StartCount(events[..|events| - 1]) + if events[|events| - 1].ToolStart? then 1 else 0
  }

  ghost predicate ReadsStarts(st: Replayed, events: seq<Event>) {
    && |st.starts| == StartCount(events)
    && (forall o :: o in st.starts <==> 1 <= o <= StartCount(events))
    && (forall o :: o in st.starts <==> Started(events, o))
  }

  ghost predicate ReadsResults(st: Replayed, events: seq<Event>) {
    && (forall o :: o in st.results <==> Closed(events, o))
    && (forall o | o in st.results :: o in st.starts)
  }

  ghost predicate ReadsCommands(st: Replayed, events: seq<Event>)
    requires Coherent(st)
  {
    && (forall o | o in st.starts :: st.commands[o] == CommandsOf(events, o))
    && (forall o | o !in st.starts :: CommandsOf(events, o) == [])
  }

  /** An accepted ledger has started exactly the ordinals from 1 to its number of
      starts, and replay's tables say what the ledger says. */
  lemma {:induction false} ReplayReadsTheLedger(c: Config, events: seq<Event>)
    requires Replay(c, events).Some?
    ensures var st := Replay(c, events).value;
      ReadsStarts(st, events) && ReadsResults(st, events) && ReadsCommands(st, events)
    decreases |events|
  {
    hide ReadsStarts, ReadsResults, ReadsCommands, Step;
    if events == [] {
      NothingRead(events);
    } else {
      var front, last := events[..|events| - 1], events[|events| - 1];
      assert events == front + [last];
      ReplayReadsTheLedger(c, front);
      var before := Replay(c, front).value;
      StepReadsStarts(c, before, front, last);
      StepReadsResults(c, before, front, last);
      StepReadsCommands(c, before, front, last);
    }
  }

  lemma NothingRead(events: seq<Event>)
    requires events == []
    ensures ReadsStarts(NOTHING, events) && ReadsResults(NOTHING, events) && ReadsCommands(NOTHING, events)
  {
  }

  lemma StepReadsStarts(c: Config, st: Replayed, front: seq<Event>, last: Event)
    requires Coherent(st) && ReadsStarts(st, front) && Step(c, st, last).Some?
    ensures ReadsStarts(Step(c, st, last).value, front + [last])
  {
    StartedSnoc(front, last);
    assert (front + [last])[..|front|] == front;
    var after := Step(c, st, last).value;
    if last.ToolStart? { assert after.starts.Keys == st.starts.Keys + {last.ordinal}; }
  }

  lemma StepReadsResults(c: Config, st: Replayed, front: seq<Event>, last: Event)
    requires Coherent(st) && ReadsResults(st, front) && Step(c, st, last).Some?
    ensures ReadsResults(Step(c, st, last).value, front + [last])
  {
    StartedSnoc(front, last);
  }

  lemma StepReadsCommands(c: Config, st: Replayed, front: seq<Event>, last: Event)
    requires Coherent(st) && ReadsStarts(st, front) && ReadsCommands(st, front) && Step(c, st, last).Some?
    ensures ReadsCommands(Step(c, st, last).value, front + [last])
  {
    hide CommandsOf, Started, StartCount;
    forall o
      ensures CommandsOf(front + [last], o)
        == if last.Command? && last.ordinal == o then CommandsOf(front, o) + [last.evidence] else CommandsOf(front, o)
    {
      CommandsSnoc(front, last, o);
    }
  }

  lemma CommandsSnoc(front: seq<Event>, last: Event, o: int)
    ensures CommandsOf(front + [last], o)
      == if last.Command? && last.ordinal == o then CommandsOf(front, o) + [last.evidence] else CommandsOf(front, o)
  {
    assert (front + [last])[..|front|] == front;
  }

  lemma StartedSnoc(front: seq<Event>, last: Event)
    ensures forall o :: Started(front + [last], o) <==> Started(front, o) || (last.ToolStart? && last.ordinal == o)
    ensures forall o :: Closed(front + [last], o) <==> Closed(front, o) || (last.ToolResult? && last.ordinal == o)
  {
    var events := front + [last];
    assert events[|front|] == last;
    assert forall i | 0 <= i < |front| :: events[i] == front[i];
  }
}
