/**
 Taking the JStack servers out of config.toml (scripts/install.py:2812-2944): one
 pass over the lines with four flags, against a reference that only asks whose line
 each one is.  Lines are dropped exactly when they belong to a jstack or gstack
 server, and scanning what was kept drops nothing more.
 */
module ConfigRewrite {
  import opened Wrappers
  import opened TomlScan

  type Name = seq<string>

  const SERVERS := "mcp_servers"

  predicate Owned(key: Name) {
    |key| >= 2 && key[0] == SERVERS && (key[1] == "jstack" || key[1] == "gstack")
  }

  predicate UnderServers(key: Name) { key != [] && key[0] == SERVERS }

  datatype Refusal =
    | MultilineString | UnparsedServers | ArrayTables | DeclaredTwice | RootInline | BrokenArray | UnterminatedArray

  // --------------------------------------------------------- reading a line

  /** What a line is when no array value is open before it. */
  datatype Kind =
    | Empty
    | Array(name: Option<Name>, servers: bool)
    | Table(name: Option<Name>, servers: bool)
    | Assign(key: Name, opens: int)
    | Other

  /** `delta` is the bracket depth of the whole line, `value` that of what follows
      its equals sign. */
  datatype Reading = Reading(kind: Kind, delta: int, value: int, triple: bool)

  function ValueDelta(s: string): int {
    var split := SplitAssignment(s);
    if split.None? then 0 else Delta(Bare, split.value.1)
  }

  function AssignmentOf(text: string): Kind {
    var split := SplitAssignment(text);
    if split.None? then Other
    else
      var key := KeyParts(split.value.0, []);
      if key.None? then Other else Assign(key.value, Delta(Bare, split.value.1))
  }

  function KindOf(semantic: string, text: string): Kind {
    var n := |semantic|;
    if n == 0 then Empty
    else if n >= 4 && semantic[..2] == "[[" && semantic[n - 2..] == "]]" then
      Array(KeyParts(semantic[2..n - 2], []), Contains(semantic[2..n - 2], SERVERS))
    else if n >= 2 && semantic[0] == '[' && semantic[n - 1] == ']' then
      Table(KeyParts(semantic[1..n - 1], []), Contains(semantic[1..n - 1], SERVERS))
    else AssignmentOf(text)
  }

  function Read(line: string): Reading {
    var text := Uncommented(Bare, line);
    var semantic := Strip(text);
    Reading(KindOf(semantic, text), Delta(Bare, semantic), ValueDelta(semantic), HasTriple(text))
  }

  lemma AssignmentTail(text: string, w: string)
    requires Blank(w)
    ensures AssignmentOf(text + w) == AssignmentOf(text)
  {
    SplitTail(text, w);
    var split := SplitAssignment(text);
    if split.Some? { DeltaTail(Bare, split.value.1, w); }
  }

  /** Space after a line, its line break included, does not change its reading. */
  lemma ReadTail(line: string, w: string)
    requires Blank(w)
    ensures Read(line + w) == Read(line)
  {
    hide KindOf, AssignmentOf, HasTriple, Strip, ValueDelta;
    var text := Uncommented(Bare, line);
    UncommentedTail(Bare, line, w);
    if Uncommented(Bare, line + w) != text {
      StripAppend(text, w);
      TripleTail(text, w);
      KindTail(text, w);
    }
  }

  lemma KindTail(text: string, w: string)
    requires Blank(w)
    ensures KindOf(Strip(text), text + w) == KindOf(Strip(text), text)
  {
    hide AssignmentOf, Strip, KeyParts, Contains;
    AssignmentTail(text, w);
  }

  lemma ReadBlank(w: string)
    requires Blank(w)
    ensures Read(w).kind == Empty && !Read(w).triple
  {
    UncommentedBlank(Bare, w);
    StripBlank(w);
    NotInBlank(TRIPLE_BASIC, w);
    NotInBlank(TRIPLE_LITERAL, w);
  }

  // ------------------------------------------------------------ the scanner

  datatype Scan = Scan(table: Name, skip: Option<string>, skipArray: nat, skipValue: nat, preserve: nat,
                       seen: set<string>)

  const START := Scan([], None, 0, 0, 0, {})

  datatype Turn = Turn(scan: Scan, keep: bool)

  function Opened(st: Scan, table: Name): Scan { st.(table := table, skip := None, skipArray := 0) }

  function Header(st: Scan, table: Name): Result<Turn, Refusal> {
    if !Owned(table) then Success(Turn(Opened(st, table), true))
    else if |table| == 2 && table[1] in st.seen then Failure(DeclaredTwice)
    else
      var seen := if |table| == 2 then st.seen + {table[1]} else st.seen;
      Success(Turn(st.(table := table, skip := Some(table[1]), skipArray := 0, seen := seen), false))
  }

  function Entry(st: Scan, key: Name, opens: int): Result<Turn, Refusal> {
    var full := st.table + key;
    if full == [SERVERS] then Failure(RootInline)
    else if opens < 0 then Failure(BrokenArray)
    else if Owned(full) then Success(Turn(st.(skipValue := opens), false))
    else Success(Turn(st.(preserve := opens), true))
  }

  /** One line that is not inside an open array value. */
  function Fresh(st: Scan, r: Reading): Result<Turn, Refusal> {
    match r.kind
    case Array(name, servers) =>
      if name.None? && servers then Failure(UnparsedServers)
      else if name.Some? && UnderServers(name.value) then Failure(ArrayTables)
      else Success(Turn(Opened(st, name.GetOr([])), true))
    case Table(name, servers) =>
      if name.None? && servers then Failure(UnparsedServers) else Header(st, name.GetOr([]))
    case _ =>
      if st.skip.Some? then
        if r.value < 0 then Failure(BrokenArray) else Success(Turn(st.(skipArray := r.value), false))
      else if r.kind.Assign? then Entry(st, r.kind.key, r.kind.opens)
      else Success(Turn(st, true))
  }

  function Step(st: Scan, r: Reading): Result<Turn, Refusal> {
    if r.kind == Empty then Success(Turn(st, st.skip.None? && st.skipValue == 0))
    else if st.skipValue != 0 then
      if st.skipValue + r.delta < 0 then Failure(BrokenArray)
      else Success(Turn(st.(skipValue := st.skipValue + r.delta), false))
    else if st.skip.Some? && st.skipArray != 0 then
      if st.skipArray + r.delta < 0 then Failure(BrokenArray)
      else Success(Turn(st.(skipArray := st.skipArray + r.delta), false))
    else if st.preserve != 0 then
      if st.preserve + r.delta < 0 then Failure(BrokenArray)
      else Success(Turn(st.(preserve := st.preserve + r.delta), true))
    else Fresh(st, r)
  }

  datatype Pass = Pass(kept: seq<string>, scan: Scan)

  function Run(st: Scan, lines: seq<string>): Result<Pass, Refusal>
    decreases |lines|
  {
    if lines == [] then Success(Pass([], st))
    else
      var turn := Step(st, Read(lines[0]));
      if turn.Failure? then Failure(turn.error)
      else
        var rest := Run(turn.value.scan, lines[1..]);
        if rest.Failure? then Failure(rest.error)
        else Success(rest.value.(kept := (if turn.value.keep then [lines[0]] else []) + rest.value.kept))
  }

  predicate AnyTriple(lines: seq<string>) { exists i | 0 <= i < |lines| :: Read(lines[i]).triple }

  predicate AllClosed(st: Scan) { st.skipArray == 0 && st.skipValue == 0 && st.preserve == 0 }

  /** `remove_existing_stack_blocks`, apart from the checks by the TOML parser. */
  function StripBlocks(config: string): Result<string, Refusal> {
    var lines := Lines(config);
    if AnyTriple(lines) then Failure(MultilineString)
    else
      var run := Run(START, lines);
      if run.Failure? then Failure(run.error)
      else if !AllClosed(run.value.scan) then Failure(UnterminatedArray)
      else Success(Flatten(run.value.kept))
  }

  // --------------------------------------------------------- the loop itself

  function After(output: seq<string>, run: Result<Pass, Refusal>): Result<Pass, Refusal> {
    if run.Failure? then run else Success(run.value.(kept := output + run.value.kept))
  }

  lemma RunStep(output: seq<string>, st: Scan, lines: seq<string>, i: nat)
    requires i < |lines|
    ensures var turn := Step(st, Read(lines[i]));
            After(output, Run(st, lines[i..])) ==
              if turn.Failure? then Failure(turn.error)
              else After(if turn.value.keep then output + [lines[i]] else output, Run(turn.value.scan, lines[i + 1..]))
  {
    hide Read, Step;
    var rest := lines[i..];
    assert rest[0] == lines[i] && rest[1..] == lines[i + 1..];
    var turn := Step(st, Read(lines[i]));
    if turn.Success? {
      var run := Run(turn.value.scan, lines[i + 1..]);
      if run.Success? {
        var kept := run.value.kept;
        assert output + ([lines[i]] + kept) == (output + [lines[i]]) + kept;
        assert output + ([] + kept) == output + kept;
      }
    }
  }

  /** The pass of the source over the lines, flag by flag. */
  method RemoveExistingStackBlocks(config: string) returns (r: Result<string, Refusal>)
    ensures r == StripBlocks(config)
  {
    hide Read, Lines, Owned, UnderServers, Run, Flatten;
    var lines := Lines(config);
    if AnyTriple(lines) { return Failure(MultilineString); }
    var output: seq<string> := [];
    var currentTable: Name, skipServer: Option<string>, seen: set<string> := [], None, {};
    var skipArrayDepth: nat, skipValueDepth: nat, preserveValueDepth: nat := 0, 0, 0;
    assert lines[0..] == lines;
    AfterNothing(Run(START, lines));
    for i := 0 to |lines|
      invariant Run(START, lines) ==
        After(output, Run(Scan(currentTable, skipServer, skipArrayDepth, skipValueDepth, preserveValueDepth, seen),
            lines[i..]))
    {
      ghost var st := Scan(currentTable, skipServer, skipArrayDepth, skipValueDepth, preserveValueDepth, seen);
      RunStep(output, st, lines, i);
      var line := lines[i];
      var reading := Read(line);
      if reading.kind == Empty {
        if skipServer.None? && skipValueDepth == 0 { output := output + [line]; }
      } else if skipValueDepth != 0 {
        var depth := skipValueDepth + reading.delta;
        if depth < 0 { return Failure(BrokenArray); }
        skipValueDepth := depth;
      } else if skipServer.Some? && skipArrayDepth != 0 {
        var depth := skipArrayDepth + reading.delta;
        if depth < 0 { return Failure(BrokenArray); }
        skipArrayDepth := depth;
      } else if preserveValueDepth != 0 {
        var depth := preserveValueDepth + reading.delta;
        if depth < 0 { return Failure(BrokenArray); }
        preserveValueDepth := depth;
        output := output + [line];
      } else if reading.kind.Array? {
        if reading.kind.name.None? && reading.kind.servers { return Failure(UnparsedServers); }
        var parts := reading.kind.name.GetOr([]);
        if reading.kind.name.Some? && UnderServers(parts) { return Failure(ArrayTables); }
        currentTable, skipServer, skipArrayDepth, output := parts, None, 0, output + [line];
      } else if reading.kind.Table? {
        if reading.kind.name.None? && reading.kind.servers { return Failure(UnparsedServers); }
        currentTable := reading.kind.name.GetOr([]);
        skipArrayDepth := 0;
        if Owned(currentTable) {
          assert |currentTable| >= 2 by { OwnedLong(currentTable); }
          if |currentTable| == 2 {
            if currentTable[1] in seen { return Failure(DeclaredTwice); }
            seen := seen + {currentTable[1]};
          }
          skipServer := Some(currentTable[1]);
        } else {
          skipServer, output := None, output + [line];
        }
      } else if skipServer.Some? {
        if reading.value < 0 { return Failure(BrokenArray); }
        skipArrayDepth := reading.value;
      } else if reading.kind.Assign? {
        var fullKey := currentTable + reading.kind.key;
        if fullKey == [SERVERS] { return Failure(RootInline); }
        if reading.kind.opens < 0 { return Failure(BrokenArray); }
        if Owned(fullKey) {
          skipValueDepth := reading.kind.opens;
        } else {
          preserveValueDepth, output := reading.kind.opens, output + [line];
        }
      } else {
        output := output + [line];
      }
    }
    assert lines[|lines|..] == [];
    RunNothing(Scan(currentTable, skipServer, skipArrayDepth, skipValueDepth, preserveValueDepth, seen), output);
    if skipArrayDepth != 0 || skipValueDepth != 0 || preserveValueDepth != 0 { return Failure(UnterminatedArray); }
    return Success(Flatten(output));
  }

  lemma OwnedLong(key: Name)
    requires Owned(key)
    ensures |key| >= 2
  {
  }

  lemma AfterNothing(run: Result<Pass, Refusal>)
    ensures After([], run) == run
  {
    assert run.Success? ==> [] + run.value.kept == run.value.kept;
  }

  lemma RunNothing(st: Scan, output: seq<string>)
    ensures After(output, Run(st, [])) == Success(Pass(output, st))
  {
    assert output + [] == output;
  }

  // ------------------------------------------------------- whose line it is

  /** The reference: the table in force, and the key whose array value is open. */
  datatype Place = Place(table: Name, owner: Name, depth: int)

  const TOP := Place([], [], 0)

  function Owner(p: Place, r: Reading): Name {
    if p.depth != 0 then p.owner
    else match r.kind
      case Array(name, _) => name.GetOr([])
      case Table(name, _) => name.GetOr([])
      case Assign(key, _) => p.table + key
      case _ => p.table
  }

  function Move(p: Place, r: Reading): Place {
    if r.kind == Empty then p
    else if p.depth != 0 then p.(depth := p.depth + r.delta)
    else match r.kind
      case Assign(_, opens) => Place(p.table, Owner(p, r), opens)
      case Other => Place(p.table, p.table, if Owned(p.table) then r.value else 0)
      case _ => Place(Owner(p, r), Owner(p, r), 0)
  }

  /** The lines whose owner is not a JStack or gstack server. */
  function Unowned(p: Place, lines: seq<string>): seq<string>
    decreases |lines|
  {
    if lines == [] then []
    else (if Owned(Owner(p, Read(lines[0]))) then [] else [lines[0]]) + Unowned(Move(p, Read(lines[0])), lines[1..])
  }

  /** A key is a JStack server's when it names the server or anything under it. */
  lemma OwnedIsUnderAServer(key: Name)
    ensures Owned(key) <==> [SERVERS, "jstack"] <= key || [SERVERS, "gstack"] <= key
  {
    if Owned(key) { assert key[..2] == [key[0], key[1]]; }
  }

  /** A line that mentions no server table, and leaves no array open. */
  predicate Elsewhere(r: Reading) {
    && !r.triple
    && match r.kind
       case Empty => true
       case Other => true
       case Array(name, servers) => if name.None? then !servers else !UnderServers(name.value)
       case Table(name, servers) => if name.None? then !servers else !UnderServers(name.value)
       case Assign(key, opens) => !UnderServers(key) && opens == 0
  }

  /** A file without server tables is left as it is. */
  lemma OtherFilesAreKept(config: string)
    requires forall i | 0 <= i < |Lines(config)| :: Elsewhere(Read(Lines(config)[i]))
    ensures StripBlocks(config) == Success(config)
  {
    hide Lines, Read, Flatten, Run, Elsewhere;
    var lines := Lines(config);
    ElsewhereRuns(START, lines);
    FlattenLines(config);
    forall i | 0 <= i < |lines|
      ensures !Read(lines[i]).triple
    {
      NotTriple(Read(lines[i]));
    }
  }

  lemma NotTriple(r: Reading)
    requires Elsewhere(r)
    ensures !r.triple
  {
  }

  lemma {:induction false} ElsewhereRuns(st: Scan, lines: seq<string>)
    requires forall i | 0 <= i < |lines| :: Elsewhere(Read(lines[i]))
    requires st.skip.None? && AllClosed(st) && !UnderServers(st.table)
    ensures Run(st, lines).Success? && Run(st, lines).value.kept == lines && AllClosed(Run(st, lines).value.scan)
    decreases |lines|
  {
    hide Read, Step, Elsewhere;
    if lines != [] {
      ElsewhereStep(st, Read(lines[0]));
      ElsewhereRuns(Step(st, Read(lines[0])).value.scan, lines[1..]);
      assert [lines[0]] + lines[1..] == lines;
    }
  }

  lemma ElsewhereStep(st: Scan, r: Reading)
    requires Elsewhere(r) && st.skip.None? && AllClosed(st) && !UnderServers(st.table)
    ensures Step(st, r).Success? && Step(st, r).value.keep
    ensures var next := Step(st, r).value.scan; next.skip.None? && AllClosed(next) && !UnderServers(next.table)
  {
    if r.kind.Assign? {
      var full := st.table + r.kind.key;
      assert full != [] ==> full[0] == if st.table == [] then r.kind.key[0] else st.table[0];
    }
  }

  /** What the four flags mean. */
  predicate Agree(st: Scan, p: Place) {
    && st.table == p.table
    && (st.skip.Some? <==> Owned(p.table))
    && (st.skip.Some? ==> p.depth == st.skipArray && st.skipValue == 0 && st.preserve == 0)
    && (st.skip.None? ==> p.depth == st.skipValue + st.preserve && st.skipArray == 0)
    && (st.skipValue == 0 || st.preserve == 0)
    && (p.depth != 0 ==> (Owned(p.owner) <==> st.preserve == 0))
  }

  lemma OwnedKey(table: Name, key: Name)
    requires Owned(table)
    ensures Owned(table + key)
  {
  }

  lemma StepAgrees(st: Scan, p: Place, r: Reading)
    requires Agree(st, p) && Step(st, r).Success?
    requires r.kind.Assign? ==> r.value == r.kind.opens
    requires r.kind.Array? && r.kind.name.Some? ==> r.kind.name.value != []
    ensures Agree(Step(st, r).value.scan, Move(p, r))
    ensures Step(st, r).value.keep <==> !Owned(Owner(p, r))
  {
    if Owned(p.table) && r.kind.Assign? { OwnedKey(p.table, r.kind.key); }
  }

  // ------------------------------------------------------ facts of a reading

  lemma {:induction false} KeyPartsNamed(s: string, parts: Name)
    requires KeyParts(s, parts).Some?
    ensures parts <= KeyParts(s, parts).value && KeyParts(s, parts).value != []
    decreases |s|
  {
    LStripShorter(s);
    var t := LStrip(s);
    if t != "" {
      var part := KeyPart(t);
      LStripShorter(part.value.1);
      var more, rest := parts + [part.value.0], LStrip(part.value.1);
      if rest != "" { KeyPartsNamed(rest[1..], more); }
    }
  }

  lemma {:induction false} EqualsLead(s: string)
    ensures EqualsAt(Bare, LStrip(s)).None? <==> EqualsAt(Bare, s).None?
    ensures EqualsAt(Bare, s).Some? ==>
      s[EqualsAt(Bare, s).value + 1..] == LStrip(s)[EqualsAt(Bare, LStrip(s)).value + 1..]
    decreases |s|
  {
    if s != "" && IsSpace(s[0]) {
      EqualsLead(s[1..]);
      assert Next(Bare, s[0]) == Bare;
      var at := EqualsAt(Bare, s);
      assert at.Some? ==> s[at.value + 1..] == s[1..][at.value..];
    }
  }

  /** Stripping a text leaves the depth of its value alone. */
  lemma ValueOfStripped(text: string)
    ensures ValueDelta(Strip(text)) == ValueDelta(text)
  {
    var front := RStrip(text);
    RStripTail(text);
    var w := text[|front|..];
    assert front + w == text;
    SplitTail(front, w);
    EqualsLead(front);
    var split := SplitAssignment(front);
    if split.Some? { DeltaTail(Bare, split.value.1, w); }
  }

  lemma ReadFacts(line: string)
    ensures var r := Read(line);
      && (r.kind.Assign? ==> r.value == r.kind.opens)
      && (r.kind.Array? && r.kind.name.Some? ==> r.kind.name.value != [])
  {
    hide Strip, Contains, HasTriple, Delta, KeyParts;
    var text := Uncommented(Bare, line);
    var semantic := Strip(text);
    ValueOfStripped(text);
    var n := |semantic|;
    if n >= 4 && KeyParts(semantic[2..n - 2], []).Some? { KeyPartsNamed(semantic[2..n - 2], []); }
  }

  // ---------------------------------------------------------------- locality

  lemma {:induction false} RunAgrees(st: Scan, p: Place, lines: seq<string>)
    requires Agree(st, p) && Run(st, lines).Success?
    ensures Run(st, lines).value.kept == Unowned(p, lines)
    decreases |lines|
  {
    hide Read, Step, Move, Owner, Agree, Owned;
    if lines != [] {
      var r := Read(lines[0]);
      ReadFacts(lines[0]);
      StepAgrees(st, p, r);
      RunAgrees(Step(st, r).value.scan, Move(p, r), lines[1..]);
    }
  }

  /** What is stripped is exactly the lines of the JStack and gstack servers: their
      tables, their dotted keys and the lines of their array values. */
  lemma StripsTheServersLines(config: string)
    requires StripBlocks(config).Success?
    ensures StripBlocks(config).value == Flatten(Unowned(TOP, Lines(config)))
  {
    hide Lines, Run, Flatten, Unowned, AnyTriple, Agree;
    StartAgrees();
    RunAgrees(START, TOP, Lines(config));
  }

  lemma StartAgrees()
    ensures Agree(START, TOP)
  {
  }

  // --------------------------------------------------- scanning what is kept

  /** Every one of these lines is kept, and the scan ends in `end`. */
  predicate Keeps(st: Scan, lines: seq<string>, end: Scan)
    decreases |lines|
  {
    if lines == [] then st == end
    else
      var r := Read(lines[0]);
      var turn := Step(st, r);
      !r.triple && turn.Success? && turn.value.keep && Keeps(turn.value.scan, lines[1..], end)
  }

  /** A scan of the kept lines only, beside the scan of all of them. */
  predicate Follows(re: Scan, st: Scan) {
    && re.skip.None? && re.skipArray == 0 && re.skipValue == 0 && re.preserve == st.preserve && re.seen == {}
    && (st.skip.None? ==> re.table == st.table)
    && (st.preserve != 0 ==> st.skip.None? && st.skipValue == 0)
  }

  lemma StepFollows(st: Scan, re: Scan, r: Reading) returns (again: Scan)
    requires Follows(re, st) && Step(st, r).Success?
    ensures Follows(again, Step(st, r).value.scan)
    ensures if Step(st, r).value.keep then Step(re, r) == Success(Turn(again, true)) else again == re
  {
    var turn := Step(st, r).value;
    again := if turn.keep then Step(re, r).value.scan else re;
  }

  lemma {:induction false} RunFollows(st: Scan, re: Scan, lines: seq<string>) returns (end: Scan)
    requires Follows(re, st) && Run(st, lines).Success?
    requires forall i | 0 <= i < |lines| :: !Read(lines[i]).triple
    ensures Keeps(re, Run(st, lines).value.kept, end) && Follows(end, Run(st, lines).value.scan)
    decreases |lines|
  {
    hide Read, Step, Follows;
    if lines == [] { return re; }
    var r := Read(lines[0]);
    var again := StepFollows(st, re, r);
    end := RunFollows(Step(st, r).value.scan, again, lines[1..]);
    var kept := Run(Step(st, r).value.scan, lines[1..]).value.kept;
    if Step(st, r).value.keep {
      assert ([lines[0]] + kept)[1..] == kept;
    } else {
      assert [] + kept == kept;
    }
  }

  // ----------------------------------------- the kept text and its own lines

  /** Lines in a row: each whole, the last one whole or open. */
  predicate Joinable(lines: seq<string>)
    decreases |lines|
  {
    lines == [] || ((IsLine(lines[0]) || (IsOpen(lines[0]) && |lines| == 1)) && Joinable(lines[1..]))
  }

  lemma {:induction false} LinesJoinable(t: string)
    ensures Joinable(Lines(t))
    decreases |t|
  {
    if t != "" {
      FirstLineKinds(t);
      LinesJoinable(t[FirstLine(t)..]);
    }
  }

  lemma {:induction false} KeptJoinable(st: Scan, lines: seq<string>)
    requires Joinable(lines) && Run(st, lines).Success?
    ensures Joinable(Run(st, lines).value.kept)
    ensures |Run(st, lines).value.kept| <= |lines|
    decreases |lines|
  {
    hide Read, Step, IsLine, IsOpen;
    if lines != [] {
      var turn := Step(st, Read(lines[0])).value;
      KeptJoinable(turn.scan, lines[1..]);
      var kept := Run(turn.scan, lines[1..]).value.kept;
      assert ([lines[0]] + kept)[1..] == kept && [] + kept == kept;
    }
  }

  /** A blank line is kept and changes nothing while nothing is skipped. */
  lemma BlankKept(st: Scan, w: string)
    requires Blank(w) && st.skip.None? && st.skipValue == 0
    ensures !Read(w).triple && Step(st, Read(w)) == Success(Turn(st, true))
  {
    ReadBlank(w);
  }

  /** Joined into one text, the kept lines may merge (a bare CR with an LF) but are
      all kept again. */
  lemma {:induction false} KeepsJoined(st: Scan, lines: seq<string>, end: Scan)
    requires Keeps(st, lines, end) && Joinable(lines) && st.skip.None? && st.skipValue == 0
    ensures Keeps(st, Lines(Flatten(lines)), end)
    decreases |lines|
  {
    hide Read, Step, KeyParts;
    if lines == [] { return; }
    var l, rest := lines[0], Flatten(lines[1..]);
    var next := Step(st, Read(l)).value.scan;
    KeptStaysOpen(st, Read(l));
    if IsOpen(l) {
      OpenAlone(l);
      OpenLast(lines);
    } else if l[|l| - 1] == '\r' && rest != "" && rest[0] == '\n' {
      var m := lines[1];
      LoneFeed(m, Flatten(lines[2..]));
      assert lines[1..][1..] == lines[2..];
      BlankKept(next, m);
      assert Keeps(next, lines[2..], end);
      KeepsJoined(next, lines[2..], end);
      ReadTail(l, m);
      MergedLines(l, Flatten(lines[2..]));
      assert Flatten(lines) == l + (m + Flatten(lines[2..]));
    } else {
      KeepsJoined(next, lines[1..], end);
      LinesAppend(l, rest);
    }
  }

  lemma KeptStaysOpen(st: Scan, r: Reading)
    requires st.skip.None? && st.skipValue == 0 && Step(st, r).Success? && Step(st, r).value.keep
    ensures Step(st, r).value.scan.skip.None? && Step(st, r).value.scan.skipValue == 0
  {
  }

  lemma {:induction false} OpenAlone(l: string)
    requires IsOpen(l)
    ensures FirstLine(l) == |l| && Lines(l) == [l]
  {
    if |l| > 1 { OpenAlone(l[1..]); }
    assert l[..|l|] == l && l[|l|..] == "";
  }

  lemma OpenLast(lines: seq<string>)
    requires Joinable(lines) && lines != [] && IsOpen(lines[0])
    ensures lines == [lines[0]] && Flatten(lines) == lines[0]
  {
    assert !IsBreak(lines[0][|lines[0]| - 1]);
    assert lines[1..] == [] && lines[0] + "" == lines[0];
  }

  lemma LoneFeed(m: string, rest: string)
    requires (IsLine(m) || IsOpen(m)) && (m + rest)[0] == '\n'
    ensures m == "\n" && IsLine(m)
  {
    assert m[0] == '\n';
  }

  lemma MergedLines(l: string, rest: string)
    requires IsLine(l) && l[|l| - 1] == '\r'
    ensures Lines(l + ("\n" + rest)) == [l + "\n"] + Lines(rest)
  {
    CrLfJoins(l, "\n" + rest);
    var t := l + ("\n" + rest);
    assert t[..|l| + 1] == l + "\n" && t[|l| + 1..] == rest;
  }

  // ------------------------------------------------- trimming the kept text

  lemma {:induction false} KeepsBlank(st: Scan, w: string, end: Scan)
    requires Blank(w) && st.skip.None? && st.skipValue == 0
    requires Keeps(st, Lines(w), end)
    ensures end == st
    decreases |w|
  {
    hide Read, Step;
    if w != "" {
      var n := FirstLine(w);
      BlankKept(st, w[..n]);
      KeepsBlank(st, w[n..], end);
    }
  }

  lemma RStripSplit(l: string, rest: string)
    requires RStrip(rest) != ""
    ensures RStrip(l + rest) == l + RStrip(rest)
  {
    RStripTail(rest);
    var r := RStrip(rest);
    var w := rest[|r|..];
    assert l + rest == (l + r) + w;
    RStripAppend(l + r, w);
    RStripSolid(l + r);
  }

  /** Only the end of a line holds breaks: one, or CR and LF. */
  lemma {:induction false} BreaksLast(l: string, i: nat)
    requires IsLine(l) && i < |l| && IsBreak(l[i])
    ensures i >= |l| - 2 && forall j | i <= j < |l| :: IsBreak(l[j])
    decreases |l|
  {
    if |l| > 1 && !(l[0] == '\r' && l[1] == '\n') {
      LineTail(l);
      BreaksLast(l[1..], i - 1);
      assert forall j | i <= j < |l| :: l[j] == l[1..][j - 1];
    }
  }

  /** A line without the space at its end is open. */
  lemma TrimmedIsOpen(l: string)
    requires IsLine(l) || IsOpen(l)
    requires RStrip(l) != ""
    ensures IsOpen(RStrip(l))
  {
    RStripTail(l);
    var t := RStrip(l);
    assert !IsBreak(l[|t| - 1]);
    if IsLine(l) {
      forall i | 0 <= i < |t|
        ensures !IsBreak(t[i])
      {
        if IsBreak(l[i]) { BreaksLast(l, i); }
      }
    }
  }

  lemma TwoFeeds()
    ensures Lines("\n") == ["\n"] && Lines("\n\n") == ["\n", "\n"]
  {
    assert "\n"[..1] == "\n" && "\n"[1..] == "";
    assert Lines("\n") == ["\n"] + Lines("");
    assert "\n\n"[1..] == "\n" && "\n\n"[..1] == "\n";
  }

  lemma TrimmedLines(t: string)
    requires IsOpen(t)
    ensures Lines(t + "\n\n") == [t + "\n", "\n"]
  {
    TwoFeeds();
    OpenAppend(t, "\n\n");
    var text := t + "\n\n";
    assert text[..|t| + 1] == t + "\n" && text[|t| + 1..] == "\n";
  }

  lemma KeepsTwoFeeds(st: Scan)
    requires st.skip.None? && st.skipValue == 0
    ensures Keeps(st, Lines("\n\n"), st)
  {
    hide Read, Step;
    TwoFeeds();
    BlankKept(st, "\n");
    assert Keeps(st, ["\n"], st);
    assert ["\n", "\n"][1..] == ["\n"];
  }

  /** The kept text is kept whole after its final space became one empty line. */
  lemma {:induction false} KeepsTrimmed(st: Scan, text: string, end: Scan)
    requires Keeps(st, Lines(text), end) && st.skip.None? && st.skipValue == 0
    ensures Keeps(st, Lines(RStrip(text) + "\n\n"), end)
    decreases |text|
  {
    hide Read, Step, RStrip, IsLine, IsOpen, Lines;
    RStripTail(text);
    var trimmed := RStrip(text);
    if trimmed == "" {
      assert text[0..] == text;
      KeepsBlank(st, text, end);
      KeepsTwoFeeds(st);
      assert "" + "\n\n" == "\n\n";
    } else {
      var l, rest := text[..FirstLine(text)], text[FirstLine(text)..];
      assert text == l + rest;
      FirstOfLines(text);
      FirstLineKinds(text);
      KeptStaysOpen(st, Read(l));
      var next := Step(st, Read(l)).value.scan;
      if RStrip(rest) != "" {
        KeepsTrimmed(next, rest, end);
        RStripSplit(l, rest);
        FirstStays(l, rest, RStrip(rest) + "\n\n");
        assert trimmed + "\n\n" == l + (RStrip(rest) + "\n\n");
      } else {
        RStripTail(rest);
        assert rest[0..] == rest;
        RStripAppend(l, rest);
        KeepsBlank(next, rest, end);
        TrimmedIsOpen(l);
        TrimmedLines(trimmed);
        ReadTail(trimmed, "\n");
        RStripTail(l);
        ReadTail(trimmed, l[|trimmed|..]);
        assert trimmed + l[|trimmed|..] == l;
        BlankKept(next, "\n");
        assert Keeps(next, ["\n"], next);
        assert [trimmed + "\n", "\n"][1..] == ["\n"];
      }
    }
  }

  lemma FirstOfLines(t: string)
    requires t != ""
    ensures Lines(t) == [t[..FirstLine(t)]] + Lines(t[FirstLine(t)..])
  {
  }

  lemma FirstStays(l: string, rest: string, other: string)
    requires l != "" && rest != "" && FirstLine(l + rest) == |l|
    requires IsLine(l) || (IsOpen(l) && l == l + rest)
    requires RStrip(rest) != "" && other == RStrip(rest) + "\n\n"
    ensures Lines(l + other) == [l] + Lines(other)
  {
    hide Lines;
    assert |l + rest| > |l|;
    RStripTail(rest);
    assert other[0] == rest[0];
    if l[|l| - 1] == '\r' && rest[0] == '\n' { CrLfJoins(l, rest); }
    LinesAppend(l, other);
  }
}
