/**
 The proof broker (tools/proof_plane/broker.py): reserving, executing and closing
 one tool call at a time over its ledger file.  A process may die before any append;
 the next one starts from what the ledger says, if it can still be read.
 */
module Broker {
  import opened Wrappers
  import opened Ledger
  import opened LedgerText
  import opened BrokerEvents
  import opened GuestPaths

  /** A normalized tool call: the canonical form `args` of all its arguments, and the
      command line that an execution or a read makes of them. */
  datatype Call =
    | ProofExec(args: string, argv: string, cwd: string, env: string, timeout: int)
    | ReadFile(args: string, argv: string)
    | ApplyPatch(args: string)
    | GitEvidence

  function ToolName(call: Call): string {
    match call
    case ProofExec(_, _, _, _, _) => "proof_exec"
    case ReadFile(_, _) => "proof_read_file"
    case ApplyPatch(_) => "proof_apply_patch"
    case GitEvidence => "proof_git_evidence"
  }

  function Arguments(call: Call): string { if call.GitEvidence? then "{}" else call.args }

  function EnvironmentOf(call: Call): string { if call.ProofExec? then call.env else "{}" }

  function TimeoutOf(c: Config, call: Call): int { if call.ProofExec? then call.timeout else c.commandTimeout }

  /** The directory a call's commands run in, the one free text of a broker event. */
  function CwdOf(call: Call): string { if call.ProofExec? then call.cwd else "." }

  /** The command lines of each tool, in order. */
  function CommandLines(call: Call): seq<string> {
    match call
    case ProofExec(_, argv, _, _, _) => [argv]
    case ReadFile(_, argv) => [argv]
    case ApplyPatch(_) => ["git apply --check --whitespace=error -", "git apply --whitespace=error -"]
    case GitEvidence => ["git status --short", "git diff --stat --", "git diff --no-ext-diff --binary --"]
  }

  /** A recorded command says which call it was part of. */
  predicate Tells(c: Config, call: Call, e: Event) {
    && e.Command? && e.binding == c.binding
    && match call
       case ProofExec(args, _, cwd, env, timeout) =>
         && e.tool == "proof_exec" && e.args == Sha(args) && e.env == Sha(env) && e.timeout == timeout
         && e.cwd == cwd
       case ReadFile(args, _) => e.tool == "proof_read_file" && e.args == Sha(args) && Plainly(c, e)
       case ApplyPatch(args) => e.tool == "proof_apply_patch" && e.args == Sha(args) && Plainly(c, e)
       case GitEvidence => e.tool == "proof_git_evidence" && e.args == Sha("{}") && Plainly(c, e)
  }

  /** With the default environment, time limit and directory. */
  predicate Plainly(c: Config, e: Event)
    requires e.Command?
  {
    e.env == Sha("{}") && e.timeout == c.commandTimeout && e.cwd == "."
  }

  /** The recorded commands are the first of the call's own, a patch being applied only
      after its check passed. */
  ghost predicate Follows(c: Config, call: Call, runs: seq<Event>) {
    && |runs| <= |CommandLines(call)|
    && (forall i | 0 <= i < |runs| :: Tells(c, call, runs[i]) && runs[i].argv == Sha(CommandLines(call)[i]))
    && (call.ApplyPatch? && |runs| == 2 ==> runs[0].evidence.exitCode == 0)
  }

  /** The command line a call comes to after the first `k`; a patch is applied only when
      its check passed. */
  ghost predicate Next(call: Call, k: nat, argv: string, runs: seq<Event>) {
    && k < |CommandLines(call)| && argv == CommandLines(call)[k]
    && (call.ApplyPatch? && k == 1 ==> runs != [] && runs[0].Command? && runs[0].evidence.exitCode == 0)
  }

  /** All of them, and the patch unless its check failed. */
  ghost predicate Complete(c: Config, call: Call, runs: seq<Event>) {
    && Follows(c, call, runs) && runs != []
    && |runs| == if call.ApplyPatch? && runs[0].evidence.exitCode != 0 then 1 else |CommandLines(call)|
  }

  /** A caller sees an exception from the command itself, or from the ledger. */
  datatype Fault = Died | Raised | LedgerFailed | LimitExceeded | Invalid

  /** Another writer's event changes nothing the broker reads. */
  lemma ForeignIsSkipped(c: Config, events: seq<Event>, text: string)
    ensures Replay(c, events + [Foreign(text)]) == Replay(c, events)
    ensures StartCount(events + [Foreign(text)]) == StartCount(events)
    ensures forall o :: RunsOf(events + [Foreign(text)], o) == RunsOf(events, o)
  {
    ReplaySnoc(c, events, Foreign(text));
    assert (events + [Foreign(text)])[..|events|] == events;
    forall o
      ensures RunsOf(events + [Foreign(text)], o) == RunsOf(events, o)
    {
      RunsSnoc(events, Foreign(text), o);
    }
  }

  /** Call `o` is the latest, started for `call`, still open, with `k` commands so far. */
  ghost predicate InFlight(c: Config, events: seq<Event>, o: int, call: Call, k: nat) {
    && Replay(c, events).Some?
    && var st := Replay(c, events).value;
       && o == |st.starts| && o in st.starts && o !in st.results
       && st.starts[o] == StartEvent(c, call, o)
       && |st.commands[o]| == k == |RunsOf(events, o)| && Follows(c, call, RunsOf(events, o))
  }

  function StartEvent(c: Config, call: Call, o: int): Event {
    ToolStart(c.binding, ToolName(call), o, Sha(Arguments(call)), Sha(EnvironmentOf(call)), TimeoutOf(c, call))
  }

  /** The latest call is closed, its result counting and naming exactly its commands. */
  ghost predicate ClosedCall(c: Config, events: seq<Event>, o: int, call: Call, succeeded: bool, k: nat) {
    && Replay(c, events).Some?
    && var st := Replay(c, events).value;
       && o == |st.starts| && o in st.starts && o in st.results && st.starts[o] == StartEvent(c, call, o)
       && |st.commands[o]| == k == |RunsOf(events, o)| && Follows(c, call, RunsOf(events, o))
       && (succeeded ==> Complete(c, call, RunsOf(events, o)))
       && exists i :: 0 <= i < |events| && ClosesWith(c, events[i], o, call, succeeded, st.commands[o])
  }

  predicate ClosesWith(c: Config, e: Event, o: int, call: Call, succeeded: bool, commands: seq<Evidence>) {
    && e.ToolResult? && e.binding == c.binding && e.tool == ToolName(call) && e.ordinal == o
    && e.succeeded == succeeded && e.commandCount == |commands| && e.commands == Sha(commands)
  }

  // ------------------------------------------------------------ the ledger file

  /** What an event brings into its line besides identifiers, digests and numbers. */
  function FreeText(e: Event): string {
    match e
    case Foreign(text) => text
    case Unsupported(_, text) => text
    case Command(_, _, _, _, _, _, _, cwd, _) => cwd
    case _ => ""
  }

  /** A line holds a raw separator exactly when the free text of its event does. */
  ghost predicate Carries(codec: Codec<Event>) {
    forall entry :: Unbroken(codec.encode(entry)) <==> Unbroken(FreeText(entry.Event()))
  }

  function EventsOf(entries: seq<Entry<Event>>): (events: seq<Event>)
    ensures |events| == |entries| && forall i | 0 <= i < |entries| :: events[i] == entries[i].Event()
  {
    seq(|entries|, i requires 0 <= i < |entries| => entries[i].Event())
  }

  lemma EventsSnoc(entries: seq<Entry<Event>>, entry: Entry<Event>)
    ensures EventsOf(entries + [entry]) == EventsOf(entries) + [entry.Event()]
  {
  }

  /** No event's free text holds a raw separator. */
  ghost predicate Whole(events: seq<Event>) {
    forall e | e in events :: Unbroken(FreeText(e))
  }

  lemma WholeSnoc(events: seq<Event>, e: Event)
    ensures Whole(events + [e]) <==> Whole(events) && Unbroken(FreeText(e))
  {
    assert e in events + [e];
    assert forall x | x in events :: x in events + [e];
  }

  /** The broker's ledger: a text file, and everything that was ever appended to it. */
  class BrokerLedger {
    const file: LedgerFile<Event>
    ghost var entries: seq<Entry<Event>>

    constructor (codec: Codec<Event>)
      requires Sound(codec) && Carries(codec)
      ensures Valid() && Legible() && Events() == [] && fresh(file)
    {
      file := new LedgerFile(codec);
      entries := [];
      new;
      EmptyParses(codec);
    }

    ghost function Events(): seq<Event>
      reads this
    {
      EventsOf(entries)
    }

    /** The file can be read: no separator in any text, and within the size cap. */
    ghost predicate Legible()
      reads this, file
    {
      Whole(Events()) && Bytes(file.raw) <= MAX_LEDGER_BYTES
    }

    ghost predicate Valid()
      reads this, file
    {
      && Sound(file.codec) && Carries(file.codec)
      && Parse(file.codec, file.raw) == if Legible() then Some(entries) else None
    }

    method Read() returns (r: Option<seq<Event>>)
      requires Valid()
      ensures r == if Legible() then Some(Events()) else None
    {
      hide Sound, Carries, Legible;
      var read := file.Read();
      return if read.Success? then Some(EventsOf(read.value)) else None;
    }

    /** Appending validates the old file first, and the grown one never. */
    method Append(e: Event, now: int) returns (ok: bool)
      requires Valid()
      modifies this, file
      ensures Valid() && ok == old(Legible())
      ensures Events() == if ok then old(Events()) + [e] else old(Events())
      ensures ok ==> (Legible() <==> Unbroken(FreeText(e)) && Bytes(file.raw) <= MAX_LEDGER_BYTES)
      ensures !ok ==> !Legible()
    {
      hide Sound, Carries, Parse, Whole;
      ghost var raw := file.raw;
      var r := file.Append(e, now);
      if r.Failure? { return false; }
      GrownBytes(raw, file.codec.encode(r.value));
      CarriesText(file.codec, r.value);
      EventsSnoc(entries, r.value);
      WholeSnoc(Events(), e);
      entries := entries + [r.value];
      return true;
    }
  }

  lemma EmptyParses(codec: Codec<Event>)
    ensures Parse(codec, "") == Some([])
  {
  }

  lemma GrownBytes(raw: string, line: string)
    ensures Bytes(raw + line + "\n") == Bytes(raw) + Bytes(line) + 1
  {
    BytesAdd(raw + line, "\n");
    BytesAdd(raw, line);
    assert Bytes("\n") == Bytes("") + 1;
  }

  lemma CarriesText(codec: Codec<Event>, entry: Entry<Event>)
    requires Carries(codec)
    ensures Unbroken(codec.encode(entry)) <==> Unbroken(FreeText(entry.Event()))
  {
  }

  // ------------------------------------------------------------ ledgers over time

  /** Nothing the broker reads back differs between two ledgers. */
  ghost predicate Alike(c: Config, before: seq<Event>, now: seq<Event>) {
    && before <= now && Replay(c, now) == Replay(c, before) && StartCount(now) == StartCount(before)
    && forall o :: RunsOf(now, o) == RunsOf(before, o)
  }

  /** As far as the broker reads back, only `e` was appended. */
  ghost predicate Extends(c: Config, before: seq<Event>, now: seq<Event>, e: Event) {
    && before <= now && e in now
    && Replay(c, now) == (if Replay(c, before).None? then None else Step(c, Replay(c, before).value, e))
    && StartCount(now) == StartCount(before) + (if e.ToolStart? then 1 else 0)
    && forall o :: RunsOf(now, o) == RunsOf(before, o) + if e.Command? && e.ordinal == o then [e] else []
  }

  lemma AlikeThenOne(c: Config, before: seq<Event>, now: seq<Event>, e: Event)
    requires Alike(c, before, now)
    ensures Extends(c, before, now + [e], e)
  {
    ReplaySnoc(c, now, e);
    assert (now + [e])[..|now|] == now;
    forall o
      ensures RunsOf(now + [e], o) == RunsOf(now, o) + if e.Command? && e.ordinal == o then [e] else []
    {
      RunsSnoc(now, e, o);
    }
  }

  /** Besides what was there before, only this call's own events. */
  ghost predicate Adds(before: seq<Event>, now: seq<Event>, o: int, call: Call) {
    && before <= now
    && forall e | e in now :: e in before || Own(e, o, call)
  }

  predicate Own(e: Event, o: int, call: Call) {
    if e.Command? then e.ordinal == o && e.cwd == CwdOf(call) else FreeText(e) == ""
  }

  lemma AddsOne(before: seq<Event>, e: Event, o: int, call: Call)
    requires Own(e, o, call)
    ensures Adds(before, before + [e], o, call)
  {
  }

  lemma AddsChain(a: seq<Event>, b: seq<Event>, d: seq<Event>, o: int, call: Call)
    requires Adds(a, b, o, call) && Adds(b, d, o, call)
    ensures Adds(a, d, o, call)
  {
  }

  /** A call that added only its own events keeps the ledger free of separators exactly
      when its directory is, or none of its commands was recorded. */
  lemma WholeExactly(c: Config, before: seq<Event>, now: seq<Event>, o: int, call: Call)
    requires Adds(before, now, o, call) && Whole(before)
    requires Replay(c, before).Some? && o == StartCount(before) + 1
    ensures Whole(now) <==> Unbroken(CwdOf(call)) || CommandsOf(now, o) == []
  {
    hide Replay;
    NoneRecorded(c, before, o);
    RecordedIn(before, o);
    RecordedIn(now, o);
  }

  lemma NoneRecorded(c: Config, events: seq<Event>, o: int)
    requires Replay(c, events).Some? && o > StartCount(events)
    ensures CommandsOf(events, o) == []
  {
    ReplayReadsTheLedger(c, events);
  }

  lemma {:induction false} RecordedIn(events: seq<Event>, o: int)
    ensures CommandsOf(events, o) == [] <==> forall e | e in events :: !(e.Command? && e.ordinal == o)
    decreases |events|
  {
    if events != [] {
      var front, last := events[..|events| - 1], events[|events| - 1];
      RecordedIn(front, o);
      assert events == front + [last];
    }
  }

  // ------------------------------------------------------------------ the broker

  type BrokerConfig = c: Config | c.Valid() witness Config("", 1, 1)

  class ProofBroker {
    const c: BrokerConfig
    const store: BrokerLedger
    const alone: bool    // nobody else writes, and writing never fails of itself
    const able: bool     // every command can be run
    var toolCalls: nat
    var fuse: nat        // appends left before this process dies

    constructor (c: BrokerConfig, codec: Codec<Event>, alone: bool, able: bool)
      requires Sound(codec) && Carries(codec)
      ensures this.c == c && this.alone == alone && this.able == able && Ready() && Ledger() == [] && Accepted()
      ensures fresh(store) && fresh(store.file)
    {
      this.c := c;
      this.alone := alone;
      this.able := able;
      store := new BrokerLedger(codec);
      toolCalls, fuse := 0, 0;
    }

    ghost predicate Ready()
      reads store, store.file
    {
      store.Valid()
    }

    /** Everything ever appended, whether or not it can still be read. */
    ghost function Ledger(): seq<Event>
      reads store
    {
      store.Events()
    }

    /** Replay accepts what was written, and no more calls than allowed were ever started. */
    ghost predicate Orderly()
      reads store
    {
      Replay(c, Ledger()).Some? && StartCount(Ledger()) <= c.toolCallLimit
    }

    /** The ledger file can be read, and replay accepts it. */
    ghost predicate Accepted()
      reads store, store.file
    {
      store.Legible() && Orderly()
    }

    /** The count of calls the ledger restores; refused exactly when the file cannot be
        read or replay refuses it. */
    method Restored() returns (calls: Option<nat>)
      requires Ready()
      ensures calls == if store.Legible() && Replay(c, Ledger()).Some? then Some(StartCount(Ledger())) else None
    {
      hide BrokerLedger.Valid, BrokerLedger.Legible;
      var events := store.Read();
      if events.None? { return None; }
      calls := RestoreToolCalls(c, events.value);
      if calls.Some? { ReplayReadsTheLedger(c, events.value); }
    }

    /** A new process restores its counter, or refuses to start. */
    method Restart(appends: nat) returns (ok: bool)
      requires Ready()
      modifies this`toolCalls, this`fuse
      ensures ok <==> store.Legible() && Replay(c, Ledger()).Some?
      ensures ok ==> toolCalls == StartCount(Ledger())
    {
      hide BrokerLedger.Valid, BrokerLedger.Legible;
      fuse := appends;
      var restored := Restored();
      if restored.None? { return false; }
      toolCalls := restored.value;
      return true;
    }

    /** Other writers may append events of their own. */
    method Others()
      requires Ready()
      modifies store, store.file
      ensures Ready() && Alike(c, old(Ledger()), Ledger())
      ensures alone ==> Ledger() == old(Ledger()) && store.Legible() == old(store.Legible())
    {
      hide BrokerLedger.Valid, BrokerLedger.Legible;
      if !alone {
        var texts: seq<string>, now: int := *, *;
        for i := 0 to |texts|
          invariant Ready() && Alike(c, old(Ledger()), Ledger())
        {
          ghost var before := Ledger();
          var ok := store.Append(Foreign(texts[i]), now);
          ForeignIsSkipped(c, before, texts[i]);
        }
      }
    }

    /** Append one event, unless the process dies first or the ledger fails; it may fail
        after the event is written. */
    method Append(e: Event) returns (o: Result<(), Fault>)
      requires Ready()
      modifies store, store.file, this`fuse
      ensures Ready() && old(fuse) <= fuse + 1
      ensures o.Failure? ==>
        && (o.error == Died || o.error == LedgerFailed)
        && (Alike(c, old(Ledger()), Ledger()) || (o.error == LedgerFailed && Extends(c, old(Ledger()), Ledger(), e)))
      ensures o.Success? ==> Extends(c, old(Ledger()), Ledger(), e)
      ensures o == Failure(Died) ==> old(fuse) == 0
      ensures alone ==> Ledger() == if o.Success? then old(Ledger()) + [e] else old(Ledger())
      ensures alone && old(store.Legible()) && old(fuse) > 0 ==> o.Success?
      ensures alone && o == Failure(LedgerFailed) ==> !store.Legible()
    {
      hide BrokerLedger.Valid, BrokerLedger.Legible, Alike, Extends;
      Others();
      if fuse == 0 { return Failure(Died); }
      fuse := fuse - 1;
      var fails, late, now: int := false, false, *;
      if !alone { fails, late := *, *; }
      if fails { return Failure(LedgerFailed); }
      ghost var before := Ledger();
      var ok := store.Append(e, now);
      if !ok { return Failure(LedgerFailed); }
      AlikeThenOne(c, old(Ledger()), before, e);
      return if late then Failure(LedgerFailed) else Success(());
    }

    /** Reserve the next ordinal for a call, within the limit. */
    method ReserveCall(call: Call) returns (r: Result<int, Fault>)
      requires Ready() && 1 <= TimeoutOf(c, call) <= c.commandTimeout
      modifies this, store, store.file
      ensures Ready() && old(fuse) <= fuse + 1 && old(Ledger()) <= Ledger()
      ensures old(Orderly()) ==> Orderly()
      ensures r.Failure? ==>
        && r.error in {Died, LedgerFailed, LimitExceeded}
        && (StartCount(Ledger()) == StartCount(old(Ledger())) || Begun(c, old(Ledger()), Ledger(), call, r.error))
      ensures r == Failure(LimitExceeded) ==> StartCount(Ledger()) >= c.toolCallLimit
      ensures r.Success? ==>
        && InFlight(c, Ledger(), r.value, call, 0)
        && r.value == StartCount(Ledger()) == StartCount(old(Ledger())) + 1 <= c.toolCallLimit
      ensures r == Failure(Died) ==> old(fuse) == 0
      ensures alone && r.Success? ==> Adds(old(Ledger()), Ledger(), r.value, call)
      ensures alone && old(fuse) > 0 && old(Accepted()) && StartCount(old(Ledger())) < c.toolCallLimit ==> r.Success?
    {
      hide Step, InFlight, Adds, Replay, StartCount,
          BrokerLedger.Valid, BrokerLedger.Legible, BrokerLedger.Events;
      Others();
      var restored := Restored();
      if restored.None? { return Failure(LedgerFailed); }
      toolCalls := restored.value;
      if toolCalls >= c.toolCallLimit { return Failure(LimitExceeded); }
      var ordinal := toolCalls + 1;
      ghost var before := Ledger();
      var e := StartEvent(c, call, ordinal);
      var appended := Append(e);
      if appended.Success? || !Alike(c, before, Ledger()) { StartIsAccepted(c, before, Ledger(), call, ordinal); }
      if appended.Failure? { return Failure(appended.error); }
      if alone { AddsOne(before, e, ordinal, call); }
      toolCalls := ordinal;
      return Success(ordinal);
    }

    /** Run one command of the open call and record it; it may raise first, and so may
        the append, before or after the command is written. */
    method Execute(call: Call, ordinal: int, ghost k: nat, commandOrdinal: int, argv: string)
      returns (r: Result<int, Fault>, ghost done: nat)
      requires Ready() && InFlight(c, Ledger(), ordinal, call, k) && commandOrdinal == k + 1
      requires Next(call, k, argv, RunsOf(Ledger(), ordinal))
      modifies store, store.file, this`fuse
      ensures Ready() && old(fuse) <= fuse + 1
      ensures old(Ledger()) <= Ledger() && StartCount(Ledger()) == StartCount(old(Ledger()))
      ensures InFlight(c, Ledger(), ordinal, call, done) && k <= done <= k + 1 && (r.Success? ==> done == k + 1)
      ensures RunsOf(old(Ledger()), ordinal) <= RunsOf(Ledger(), ordinal)
      ensures r.Success? ==>
        && k < |RunsOf(Ledger(), ordinal)| && RunsOf(Ledger(), ordinal)[k].Command?
        && RunsOf(Ledger(), ordinal)[k].evidence.exitCode == r.value
      ensures r.Failure? ==> r.error in {Died, Raised}
      ensures r == Failure(Died) ==> old(fuse) == 0
      ensures alone && able && r == Failure(Raised) ==> !store.Legible()
      ensures alone ==> Adds(old(Ledger()), Ledger(), ordinal, call)
    {
      hide InFlight, Adds, Next, BrokerLedger.Valid, BrokerLedger.Legible, BrokerLedger.Events;
      Others();
      var raises := false;
      if !able { raises := *; }
      StillInFlight(c, old(Ledger()), Ledger(), ordinal, call, k);
      if alone { AddsNothing(Ledger(), ordinal, call); }
      if raises { return Failure(Raised), k; }
      var exitCode: int, timedOut: bool, truncated: bool := *, *, *;
      var stdout: string, stderr: string, result: string := *, *, *;
      var v := Evidence(commandOrdinal, exitCode, Sha((exitCode, timedOut)), timedOut, truncated, stdout, stderr,
          result);
      r, done := RecordCommand(call, ordinal, k, argv, v);
    }

    /** Record what a command that ran left behind. */
    method RecordCommand(call: Call, ordinal: int, ghost k: nat, argv: string, v: Evidence)
      returns (r: Result<int, Fault>, ghost done: nat)
      requires Ready() && InFlight(c, Ledger(), ordinal, call, k)
      requires v.commandOrdinal == k + 1 && v.exit == Sha((v.exitCode, v.timedOut))
      requires Next(call, k, argv, RunsOf(Ledger(), ordinal))
      modifies store, store.file, this`fuse
      ensures Ready() && old(fuse) <= fuse + 1
      ensures old(Ledger()) <= Ledger() && StartCount(Ledger()) == StartCount(old(Ledger()))
      ensures InFlight(c, Ledger(), ordinal, call, done) && k <= done <= k + 1 && (r.Success? ==> done == k + 1)
      ensures RunsOf(old(Ledger()), ordinal) <= RunsOf(Ledger(), ordinal)
      ensures r.Success? ==>
        && k < |RunsOf(Ledger(), ordinal)| && RunsOf(Ledger(), ordinal)[k].Command?
        && RunsOf(Ledger(), ordinal)[k].evidence.exitCode == r.value
      ensures r.Failure? ==> r.error in {Died, Raised}
      ensures r == Failure(Died) ==> old(fuse) == 0
      ensures alone && r == Failure(Raised) ==> !store.Legible()
      ensures alone ==> Adds(old(Ledger()), Ledger(), ordinal, call)
    {
      hide Step, InFlight, Adds, Next, RunsOf, BrokerLedger.Valid, BrokerLedger.Legible, BrokerLedger.Events;
      var e := Command(c.binding, ToolName(call), ordinal, Sha(Arguments(call)), Sha(EnvironmentOf(call)),
          TimeoutOf(c, call), Sha(argv), CwdOf(call), v);
      ghost var before := Ledger();
      RunsInFlight(c, before, ordinal, call, k);
      var appended := Append(e);
      if appended.Failure? && Alike(c, before, Ledger()) {
        done := k;
        StillInFlight(c, before, Ledger(), ordinal, call, k);
        if alone { AddsNothing(before, ordinal, call); }
      } else {
        done := k + 1;
        CommandIsAccepted(c, before, Ledger(), ordinal, call, k, argv, e);
        if alone { AddsOne(before, e, ordinal, call); }
      }
      r := if appended.Success? then Success(v.exitCode)
           else Failure(if appended.error == Died then Died else Raised);
    }

    /** The one, two or three commands of each tool. */
    method ExecuteCall(call: Call, ordinal: int) returns (r: Result<nat, Fault>, ghost done: nat)
      requires Ready() && InFlight(c, Ledger(), ordinal, call, 0)
      modifies store, store.file, this`fuse
      ensures Ready() && old(fuse) <= fuse + 3
      ensures old(Ledger()) <= Ledger() && StartCount(Ledger()) == StartCount(old(Ledger()))
      ensures InFlight(c, Ledger(), ordinal, call, done) && done <= 3
      ensures r.Failure? ==> r.error in {Died, Raised}
      ensures r.Success? ==> done == r.value && Complete(c, call, RunsOf(Ledger(), ordinal))
      ensures r == Failure(Died) ==> old(fuse) < 3
      ensures alone && able && r == Failure(Raised) ==> !store.Legible()
      ensures alone ==> Adds(old(Ledger()), Ledger(), ordinal, call)
    {
      hide InFlight, Adds, Complete, RunsOf, BrokerLedger.Valid, BrokerLedger.Legible, BrokerLedger.Events;
      done := 0;
      match call {
        case ProofExec(_, argv, _, _, _) =>
          var first;
          first, done := Execute(call, ordinal, 0, 1, argv);
          if first.Failure? { return Failure(first.error), done; }
        case ReadFile(_, argv) =>
          var first;
          first, done := Execute(call, ordinal, 0, 1, argv);
          if first.Failure? { return Failure(first.error), done; }
        case ApplyPatch(args) =>
          var checked;
          checked, done := Execute(call, ordinal, 0, 1, "git apply --check --whitespace=error -");
          if checked.Failure? { return Failure(checked.error), done; }
          if checked.value == 0 {
            ghost var first := Ledger();
            var applied;
            applied, done := Execute(call, ordinal, 1, 2, "git apply --whitespace=error -");
            if alone { AddsChain(old(Ledger()), first, Ledger(), ordinal, call); }
            if applied.Failure? { return Failure(applied.error), done; }
            AllRan(c, Ledger(), ordinal, call, done);
            return Success(2), done;
          }
        case GitEvidence =>
          var status;
          status, done := Execute(call, ordinal, 0, 1, "git status --short");
          if status.Failure? { return Failure(status.error), done; }
          ghost var first := Ledger();
          var statistics;
          statistics, done := Execute(call, ordinal, 1, 2, "git diff --stat --");
          if alone { AddsChain(old(Ledger()), first, Ledger(), ordinal, call); }
          if statistics.Failure? { return Failure(statistics.error), done; }
          ghost var second := Ledger();
          var patch;
          patch, done := Execute(call, ordinal, 2, 3, "git diff --no-ext-diff --binary --");
          if alone { AddsChain(old(Ledger()), second, Ledger(), ordinal, call); }
          if patch.Failure? { return Failure(patch.error), done; }
      }
      AllRan(c, Ledger(), ordinal, call, done);
      return Success(if call.GitEvidence? then 3 else 1), done;
    }

    /** Close the open call with the commands the ledger holds for it. */
    method RecordToolResult(call: Call, ordinal: int, ghost k: nat, succeeded: bool, result: string)
      returns (o: Result<(), Fault>)
      requires Ready() && InFlight(c, Ledger(), ordinal, call, k)
      requires succeeded ==> Complete(c, call, RunsOf(Ledger(), ordinal))
      modifies store, store.file, this`fuse
      ensures Ready() && old(Ledger()) <= Ledger() && StartCount(Ledger()) == StartCount(old(Ledger()))
      ensures o.Success? ==> ClosedCall(c, Ledger(), ordinal, call, succeeded, k)
      ensures o.Failure? ==>
        && (o.error == Died || o.error == LedgerFailed)
        && (InFlight(c, Ledger(), ordinal, call, k)
            || (o.error == LedgerFailed && ClosedCall(c, Ledger(), ordinal, call, succeeded, k)))
      ensures o == Failure(Died) ==> old(fuse) == 0
      ensures alone ==> Adds(old(Ledger()), Ledger(), ordinal, call)
      ensures alone && o == Failure(LedgerFailed) ==> !store.Legible()
      ensures alone && o.Success? ==> old(store.Legible())
    {
      hide Step, InFlight, ClosedCall, Adds, Replay, Complete, RunsOf, CommandsOf, BrokerLedger.Valid;
      hide BrokerLedger.Legible, BrokerLedger.Events;
      Others();
      StillInFlight(c, old(Ledger()), Ledger(), ordinal, call, k);
      if alone { AddsNothing(Ledger(), ordinal, call); }
      var restored := Restored();
      if restored.None? {
        OpenIsAccepted(c, Ledger(), ordinal, call, k);
        return Failure(LedgerFailed);
      }
      var events := store.Read();
      ghost var before := Ledger();
      var commands := FilterCommands(events.value, ordinal);
      var e := ToolResult(c.binding, ToolName(call), ordinal, succeeded, Sha(result), |commands|, Sha(commands));
      o := Append(e);
      if o.Failure? && Alike(c, before, Ledger()) {
        StillInFlight(c, before, Ledger(), ordinal, call, k);
      } else {
        ResultIsAccepted(c, before, Ledger(), ordinal, call, k, e);
        if alone { AddsOne(before, e, ordinal, call); }
      }
    }

    static method FilterCommands(ledger: seq<Event>, ordinal: int) returns (commands: seq<Evidence>)
      ensures commands == CommandsOf(ledger, ordinal)
    {
      commands := [];
      for i := 0 to |ledger|
        invariant commands == CommandsOf(ledger[..i], ordinal)
      {
        assert ledger[..i + 1] == ledger[..i] + [ledger[i]];
        CommandsSnoc(ledger[..i], ledger[i], ordinal);
        if ledger[i].Command? && ledger[i].ordinal == ordinal { commands := commands + [ledger[i].evidence]; }
      }
      assert ledger[..|ledger|] == ledger;
    }

    /**
     One tool call.  However it ends, replay accepts what is written, the number of starts
     stays within the limit, and the call, if it was started, is open or closed with
     exactly its own commands.  A call that returns is closed as succeeded, one that raises
     while executing as failed; one whose process dies stays open, and one whose ledger
     fails stays open unless its result was written all the same.  With nobody else at work, the call is closed
     and the ledger stays acceptable if and only if no recorded command names a directory
     with a raw separator and the grown file fits the size cap.
     */
    method CallTool(call: Call) returns (r: Result<nat, Fault>)
      requires Ready()
      modifies this, store, store.file
      ensures Ready() && old(Ledger()) <= Ledger()
      ensures old(Orderly()) ==> Orderly()
      ensures StartCount(Ledger()) <= StartCount(old(Ledger())) + 1
      ensures r.Success? ==>
        && StartCount(Ledger()) == StartCount(old(Ledger())) + 1 <= c.toolCallLimit
        && ClosedCall(c, Ledger(), StartCount(Ledger()), call, true, r.value)
      ensures r == Failure(Raised) ==>
        exists k :: k <= 3 && ClosedCall(c, Ledger(), StartCount(Ledger()), call, false, k)
      ensures StartCount(Ledger()) == StartCount(old(Ledger())) + 1 ==>
        Accounted(c, Ledger(), StartCount(Ledger()), call, r == Failure(Died))
      ensures alone && able ==> r != Failure(Raised)
      ensures r == Failure(Died) ==> old(fuse) < 5
      ensures r == Failure(LimitExceeded) ==> StartCount(Ledger()) == StartCount(old(Ledger())) >= c.toolCallLimit
      ensures r == Failure(Invalid) <==> !(1 <= TimeoutOf(c, call) <= c.commandTimeout)
      ensures alone && old(fuse) >= 5 && old(Accepted()) && StartCount(old(Ledger())) < c.toolCallLimit
              && r != Failure(Invalid) ==>
        ((r.Success? || r == Failure(Raised)) && Accepted()
         <==> (Unbroken(CwdOf(call)) || CommandsOf(Ledger(), StartCount(Ledger())) == [])
              && Bytes(store.file.raw) <= MAX_LEDGER_BYTES)
    {
      hide ClosedCall, InFlight, Adds, Replay, StartCount, CommandsOf, Whole, BrokerLedger.Valid, BrokerLedger.Events;
      if !(1 <= TimeoutOf(c, call) <= c.commandTimeout) { return Failure(Invalid); }
      ghost var before, whole := Ledger(), Whole(Ledger());
      var ordinal :- ReserveCall(call);
      ghost var reserved := Ledger();
      var executed, done := ExecuteCall(call, ordinal);
      if executed == Failure(Died) {
        OpenIsAccepted(c, Ledger(), ordinal, call, done);
        return Failure(Died);
      }
      ghost var ran := Ledger();
      var closed := RecordToolResult(call, ordinal, done, executed.Success?,
          if executed.Success? then "result" else "error");
      if alone {
        AddsChain(before, reserved, ran, ordinal, call);
        AddsChain(before, ran, Ledger(), ordinal, call);
        if whole && Replay(c, before).Some? { WholeExactly(c, before, Ledger(), ordinal, call); }
      }
      if InFlight(c, Ledger(), ordinal, call, done) {
        OpenIsAccepted(c, Ledger(), ordinal, call, done);
      } else {
        ClosedIsAccepted(c, Ledger(), ordinal, call, executed.Success?, done);
      }
      if closed.Failure? { return Failure(closed.error); }
      return if executed.Success? then executed else Failure(Raised);
    }
  }

  /** A start that was written although the append failed. */
  ghost predicate Begun(c: Config, before: seq<Event>, now: seq<Event>, call: Call, error: Fault) {
    error == LedgerFailed && StartCount(now) == StartCount(before) + 1 && InFlight(c, now, StartCount(now), call, 0)
  }

  /** The call is open, or closed with exactly its own commands. */
  ghost predicate Accounted(c: Config, events: seq<Event>, o: int, call: Call, died: bool) {
    exists k: nat :: k <= 3
      && (|| InFlight(c, events, o, call, k)
          || (!died && (ClosedCall(c, events, o, call, true, k) || ClosedCall(c, events, o, call, false, k))))
  }

  /** What the ledger holds of a call closed as succeeded: the tool's command lines in
      order, each with the call's own arguments, and the second one of a patch exactly when
      the first exited with zero. */
  lemma SucceededCall(c: Config, events: seq<Event>, o: int, call: Call, k: nat)
    requires ClosedCall(c, events, o, call, true, k)
    ensures var cs := CommandsOf(events, o);
      |cs| == k && cs != [] && k <= |CommandLines(call)|
      && if call.ApplyPatch? then cs[0].exitCode == 0 <==> k == 2 else k == |CommandLines(call)|
    ensures var runs := RunsOf(events, o);
      |runs| == k && forall i | 0 <= i < k :: Tells(c, call, runs[i]) && runs[i].argv == Sha(CommandLines(call)[i])
  {
    RunsLeaveEvidence(events, o);
  }

  /**
   Directories that the broker accepts and that no reader of its ledger survives: once a
   command that ran there is recorded, the text of the ledger parses to nothing.
   */
  lemma SeparatorBreaksTheLedger(codec: Codec<Event>, raw: string, entries: seq<Entry<Event>>, e: Event, now: int,
      x: char)
    requires Sound(codec) && Carries(codec) && Parse(codec, raw) == Some(entries)
    requires x in {'\U{85}', '\U{2028}', '\U{2029}'} && e.Command? && e.cwd == ['a', x, 'b']
    ensures GuestRelative(e.cwd) == Some(e.cwd)
    ensures Parse(codec, raw + codec.encode(NextEntry(entries, e, now)) + "\n") == None
  {
    OnePart(e.cwd);
    AppendReadsBack(codec, raw, entries, e, now);
    assert RawSeparator(e.cwd[1]);
    CarriesText(codec, NextEntry(entries, e, now));
  }

  lemma ClosedIsAccepted(c: Config, events: seq<Event>, o: int, call: Call, succeeded: bool, k: nat)
    requires ClosedCall(c, events, o, call, succeeded, k)
    ensures Replay(c, events).Some?
  {
  }

  lemma OpenIsAccepted(c: Config, events: seq<Event>, o: int, call: Call, k: nat)
    requires InFlight(c, events, o, call, k)
    ensures Replay(c, events).Some?
  {
  }

  /** A call that ran its last command, or whose patch did not pass its check, is complete. */
  lemma AllRan(c: Config, events: seq<Event>, o: int, call: Call, k: nat)
    requires InFlight(c, events, o, call, k)
    requires k == |CommandLines(call)|
      || (call.ApplyPatch? && k == 1 && RunsOf(events, o)[0].evidence.exitCode != 0)
    ensures Complete(c, call, RunsOf(events, o))
  {
  }

  lemma RunsInFlight(c: Config, events: seq<Event>, o: int, call: Call, k: nat)
    requires InFlight(c, events, o, call, k)
    ensures |RunsOf(events, o)| == k
  {
  }

  lemma StillInFlight(c: Config, before: seq<Event>, now: seq<Event>, o: int, call: Call, k: nat)
    requires InFlight(c, before, o, call, k) && Alike(c, before, now)
    ensures InFlight(c, now, o, call, k)
  {
  }

  lemma AddsNothing(events: seq<Event>, o: int, call: Call)
    ensures Adds(events, events, o, call)
  {
  }

  lemma StartIsAccepted(c: Config, before: seq<Event>, now: seq<Event>, call: Call, o: int)
    requires Replay(c, before).Some? && 1 <= TimeoutOf(c, call) <= c.commandTimeout && o == StartCount(before) + 1
    requires Extends(c, before, now, StartEvent(c, call, o))
    ensures InFlight(c, now, o, call, 0)
  {
    ReplayReadsTheLedger(c, before);
    RunsLeaveEvidence(before, o);
    var st := Replay(c, before).value;
    assert o !in st.starts;
    assert |st.starts[o := StartEvent(c, call, o)]| == |st.starts| + 1;
  }

  lemma CommandIsAccepted(c: Config, before: seq<Event>, now: seq<Event>, o: int, call: Call, k: nat, argv: string,
      e: Event)
    requires InFlight(c, before, o, call, k) && e.Command? && e.binding == c.binding && e.ordinal == o
    requires SameCall(StartEvent(c, call, o), e) && Extends(c, before, now, e) && e.cwd == CwdOf(call)
    requires Next(call, k, argv, RunsOf(before, o)) && e.argv == Sha(argv)
    requires e.evidence.commandOrdinal == k + 1 && e.evidence.exit == Sha((e.evidence.exitCode, e.evidence.timedOut))
    ensures InFlight(c, now, o, call, k + 1)
  {
  }

  lemma ResultIsAccepted(c: Config, before: seq<Event>, now: seq<Event>, o: int, call: Call, k: nat, e: Event)
    requires InFlight(c, before, o, call, k) && Extends(c, before, now, e)
    requires e.ToolResult? && e.succeeded ==> Complete(c, call, RunsOf(before, o))
    requires var commands := CommandsOf(before, o);
      e.ToolResult? && e.binding == c.binding && e.ordinal == o && e.tool == ToolName(call)
      && e.commandCount == |commands| && e.commands == Sha(commands)
    ensures ClosedCall(c, now, o, call, e.succeeded, k)
  {
    ReplayReadsTheLedger(c, before);
    var i :| 0 <= i < |now| && now[i] == e;
    var st := Replay(c, now).value;
    assert ClosesWith(c, now[i], o, call, e.succeeded, st.commands[o]);
  }
}
