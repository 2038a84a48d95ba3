/**
 Rewriting config.toml twice (scripts/install.py:3551-3552): the block the installer
 appends is read back as one jstack table, so a second rewrite finds and removes
 exactly that and appends it again.
 */
module ConfigUpdate {
  import opened Wrappers
  import opened TomlScan
  import opened ConfigRewrite
  import opened ConfigBlock

  // -------------------------------------------------------- the header line

  const JSTACK: Name := [SERVERS, "jstack"]

  lemma TrimLine(s: string)
    requires s != "" && !IsSpace(s[0]) && !IsSpace(s[|s| - 1])
    ensures Strip(s + "\n") == s
  {
    RStripAppend(s, "\n");
    RStripSolid(s);
  }

  lemma BareName(name: string, rest: string)
    requires name != "" && (forall i | 0 <= i < |name| :: IsBareKey(name[i]))
    requires rest != "" ==> !IsBareKey(rest[0])
    ensures LStrip(name + rest) == name + rest && KeyPart(name + rest) == Some((name, rest))
  {
    var t := name + rest;
    assert t[0] == name[0] && IsBareKey(t[0]);
    var n := BareLength(t);
    assert forall i | 0 <= i < |name| :: t[i] == name[i] && IsBareKey(t[i]);
    assert rest != "" ==> t[|name|] == rest[0];
    assert t[..|name|] == name && t[|name|..] == rest;
  }

  lemma HeaderName()
    ensures KeyParts("mcp_servers.jstack", []) == Some(JSTACK)
  {
    hide KeyPart;
    BareName("jstack", "");
    assert "jstack" + "" == "jstack";
    assert [SERVERS] + ["jstack"] == JSTACK;
    assert KeyParts("jstack", [SERVERS]) == Some(JSTACK);
    BareName(SERVERS, ".jstack");
    assert SERVERS + ".jstack" == "mcp_servers.jstack";
    assert ".jstack"[1..] == "jstack" && LStrip(".jstack") == ".jstack";
    assert [] + [SERVERS] == [SERVERS];
  }

  lemma Brackets()
    ensures !IsSpace('[') && !IsSpace(']')
  {
  }

  lemma NoTriple()
    ensures !HasTriple("")
  {
    NotInBlank(TRIPLE_BASIC, "");
    NotInBlank(TRIPLE_LITERAL, "");
  }

  lemma HeaderText(s: string, header: string)
    requires s != "" && s[0] == '[' && s[|s| - 1] == ']' && Open(s) && header == s + "\n"
    ensures Uncommented(Bare, header) == header && Strip(header) == s && !HasTriple(header)
  {
    hide Contains, Strip, IsSpace, HasTriple;
    OpenScan(header, "");
    OpenTriple(header, "");
    NoTriple();
    assert header + "" == header;
    Brackets();
    TrimLine(s);
  }

  lemma HeaderKind(inner: string, header: string)
    requires inner != "" && inner[0] != '['
    ensures var kind := KindOf("[" + inner + "]", header); kind.Table? && kind.name == KeyParts(inner, [])
  {
    hide KeyParts, Contains;
    var s := "[" + inner + "]";
    assert s[1] == inner[0] && s[1..|s| - 1] == inner;
  }

  lemma HeaderLine(inner: string, header: string)
    requires inner != "" && inner[0] != '[' && Open(inner) && header == "[" + inner + "]" + "\n"
    ensures var r := Read(header); r.kind.Table? && r.kind.name == KeyParts(inner, []) && !r.triple
  {
    hide KindOf, HasTriple, Strip, KeyParts, Uncommented;
    HeaderText("[" + inner + "]", header);
    HeaderKind(inner, header);
  }

  lemma HeaderReading()
    ensures var r := Read(HEADER); r.kind.Table? && r.kind.name == Some(JSTACK) && !r.triple
  {
    hide Read, KeyParts;
    assert HEADER == "[" + "mcp_servers.jstack" + "]" + "\n";
    HeaderLine("mcp_servers.jstack", HEADER);
    HeaderName();
  }

  // --------------------------------------------------------- the other lines

  /** A line that a skipped table swallows whole. */
  predicate Swallowed(r: Reading) { !r.triple && r.value == 0 && (r.kind.Assign? || r.kind.Other?) }

  lemma PlainKind(text: string)
    requires text != "" && !IsSpace(text[0]) && text[0] != '['
    ensures var k := KindOf(Strip(text), text); k.Assign? || k.Other?
  {
    hide AssignmentOf, KeyParts, Contains, IsSpace;
    StripHead(text);
    AssignmentKinds(text);
    var s := Strip(text);
    assert |s| >= 2 ==> s[..2][0] == s[0];
  }

  lemma AssignmentKinds(text: string)
    ensures AssignmentOf(text).Assign? || AssignmentOf(text).Other?
  {
  }

  lemma StripHead(text: string)
    requires text != "" && !IsSpace(text[0])
    ensures Strip(text) != "" && Strip(text)[0] == text[0]
  {
    hide IsSpace;
    RStripTail(text);
    assert text[0..] == text;
  }

  lemma SwallowedText(line: string)
    requires Uncommented(Bare, line) == line && line != "" && !IsSpace(line[0]) && line[0] != '['
    requires ValueDelta(line) == 0 && !HasTriple(line)
    ensures Swallowed(Read(line))
  {
    hide KindOf, Strip, HasTriple, ValueDelta, IsSpace;
    PlainKind(line);
    ValueOfStripped(line);
  }

  lemma ValueAfter(key: string, value: string)
    requires Open(key) && '=' !in key
    ensures ValueDelta(key + ("=" + value)) == Delta(Bare, value)
  {
    OpenScan(key, value);
    var t := key + ("=" + value);
    assert t[|key| + 1..] == value;
  }

  lemma FeedScan()
    ensures Uncommented(Bare, "\n") == "\n" && Delta(Bare, "\n") == 0 && !HasTriple("\n")
    ensures Uncommented(Bare, "]\n") == "]\n" && Delta(Bare, "]\n") == -1 && !HasTriple("]\n")
  {
    assert "]\n"[1..] == "\n" && "\n"[1..] == "";
    NotInBlank(TRIPLE_BASIC, "\n");
    NotInBlank(TRIPLE_LITERAL, "\n");
  }

  lemma CommandSwallowed(command: string)
    requires Plain(command)
    ensures Swallowed(Read(CommandLine(command)))
  {
    hide JsonString, HasTriple, Uncommented, Delta, Read, ValueDelta, Contains;
    var json := JsonString(command) + "\n";
    FeedScan();
    JsonScan(command, "\n");
    JsonTriple(command, "\n");
    OpenScan("command = ", json);
    OpenTriple("command = ", json);
    OpenScan(" ", json);
    ValueAfter("command ", " " + json);
    assert "command = " + json == "command " + ("=" + (" " + json));
    SwallowedText(CommandLine(command));
  }

  lemma BracketOpens(rest: string)
    ensures Delta(Bare, " [" + rest) == 1 + Delta(Bare, rest)
  {
    var t := " [" + rest;
    assert t[1..] == "[" + rest && t[1..][1..] == rest;
  }

  lemma ArgsSwallowed(server: string)
    requires Plain(server)
    ensures Swallowed(Read(ArgsLine(server)))
  {
    hide JsonString, HasTriple, Uncommented, Delta, Read, ValueDelta, Contains;
    var json := JsonString(server) + "]\n";
    FeedScan();
    JsonScan(server, "]\n");
    JsonTriple(server, "]\n");
    OpenScan("args = [", json);
    OpenTriple("args = [", json);
    BracketOpens(json);
    ValueAfter("args ", " [" + json);
    assert "args = [" + json == "args " + ("=" + (" [" + json));
    SwallowedText(ArgsLine(server));
  }

  predicate IsSetting(c: char) { IsBareKey(c) || c == ' ' || c == '=' || c == '.' || c == '\n' }

  lemma SettingSwallowed(line: string)
    requires line != "" && IsBareKey(line[0]) && forall i | 0 <= i < |line| :: IsSetting(line[i])
    ensures Swallowed(Read(line))
  {
    assert Open(line) && '[' !in line && ']' !in line && !IsSpace(line[0]);
    hide Read, Strip, IsSpace, HasTriple, IsSetting;
    OpenScan(line, "");
    OpenTriple(line, "");
    assert line + "" == line;
    NoTriple();
    var split := SplitAssignment(line);
    if split.Some? { NoBrackets(Bare, split.value.1); }
    SwallowedText(line);
  }

  // ---------------------------------------------------------- the whole block

  lemma SwallowedStep(st: Scan, r: Reading)
    requires Swallowed(r) && st.skip.Some? && AllClosed(st)
    ensures Step(st, r) == Success(Turn(st, false))
  {
  }

  lemma {:induction false} SwallowedRun(st: Scan, lines: seq<string>)
    requires st.skip.Some? && AllClosed(st) && forall i | 0 <= i < |lines| :: Swallowed(Read(lines[i]))
    ensures Run(st, lines) == Success(Pass([], st))
    decreases |lines|
  {
    hide Read, Step, Swallowed;
    var none: seq<string> := [];
    assert none + none == none;
    if lines != [] {
      SwallowedStep(st, Read(lines[0]));
      SwallowedRun(st, lines[1..]);
    }
  }

  lemma HeaderStep(st: Scan, r: Reading)
    requires AllClosed(st) && st.skip.None? && st.seen == {} && r.kind.Table? && r.kind.name == Some(JSTACK)
    ensures var turn := Step(st, r); turn.Success? && !turn.value.keep && turn.value.scan.skip.Some? &&
                                     AllClosed(turn.value.scan)
  {
  }

  /** After lines that were kept, the block is dropped whole. */
  lemma BlockDropped(st: Scan, command: string, server: string)
    requires AllClosed(st) && st.skip.None? && st.seen == {}
    requires OneLine(command) && OneLine(server) && Plain(command) && Plain(server)
    ensures var lines := Lines(Block(command, server));
      && !AnyTriple(lines)
      && Run(st, lines).Success? && Run(st, lines).value.kept == [] && AllClosed(Run(st, lines).value.scan)
  {
    hide Read, Step, Lines, Block, Plain, OneLine, CommandLine, ArgsLine;
    BlockLines(command, server);
    BlockReadings(command, server);
    var rest := [CommandLine(command), ArgsLine(server), STARTUP, TOOL];
    var lines := [HEADER] + rest;
    assert lines == Lines(Block(command, server));
    HeaderStep(st, Read(HEADER));
    SwallowedRun(Step(st, Read(HEADER)).value.scan, rest);
    assert lines[1..] == rest;
  }

  lemma BlockReadings(command: string, server: string)
    requires Plain(command) && Plain(server)
    ensures var r := Read(HEADER); r.kind.Table? && r.kind.name == Some(JSTACK)
    ensures !Read(HEADER).triple
    ensures Swallowed(Read(CommandLine(command))) && Swallowed(Read(ArgsLine(server)))
    ensures Swallowed(Read(STARTUP)) && Swallowed(Read(TOOL))
  {
    hide Read, Plain, CommandLine, ArgsLine, Swallowed;
    HeaderReading();
    CommandSwallowed(command);
    ArgsSwallowed(server);
    StartupSwallowed();
    ToolSwallowed();
  }

  lemma StartupSwallowed()
    ensures Swallowed(Read(STARTUP))
  {
    hide Read, Swallowed;
    SettingSwallowed(STARTUP);
  }

  lemma ToolSwallowed()
    ensures Swallowed(Read(TOOL))
  {
    hide Read, Swallowed;
    SettingSwallowed(TOOL);
  }

  /** A line whose path holds three literal quotes is one of a multiline string to the
      scanner. */
  lemma TripleLines(command: string, server: string)
    requires OneLine(command) && OneLine(server) && !(Plain(command) && Plain(server))
    ensures AnyTriple(Lines(Block(command, server)))
  {
    hide Read, Lines, Block, Plain, OneLine, CommandLine, ArgsLine;
    BlockLines(command, server);
    var lines := [HEADER, CommandLine(command), ArgsLine(server), STARTUP, TOOL];
    if !Plain(command) {
      CommandTriple(command);
      assert Read(lines[1]).triple;
    } else {
      ArgsTriple(server);
      assert Read(lines[2]).triple;
    }
  }

  lemma CommandTriple(command: string)
    requires !Plain(command)
    ensures Read(CommandLine(command)).triple
  {
    hide JsonString, HasTriple, Uncommented, Plain;
    FeedScan();
    JsonScan(command, "\n");
    JsonTriple(command, "\n");
    OpenScan("command = ", JsonString(command) + "\n");
    OpenTriple("command = ", JsonString(command) + "\n");
  }

  lemma ArgsTriple(server: string)
    requires !Plain(server)
    ensures Read(ArgsLine(server)).triple
  {
    hide JsonString, HasTriple, Uncommented, Plain;
    FeedScan();
    JsonScan(server, "]\n");
    JsonTriple(server, "]\n");
    OpenScan("args = [", JsonString(server) + "]\n");
    OpenTriple("args = [", JsonString(server) + "]\n");
  }

  // ------------------------------------------------------------- twice is once

  lemma {:induction false} LinesAfterFeed(a: string, b: string)
    requires a != "" && a[|a| - 1] == '\n'
    ensures Lines(a + b) == Lines(a) + Lines(b)
    decreases |a|
  {
    hide Lines;
    var l, rest := a[..FirstLine(a)], a[FirstLine(a)..];
    FirstOfLines(a);
    FirstLineKinds(a);
    assert a == l + rest && a + b == l + (rest + b);
    if rest == "" {
      NoLines();
      assert l == a;
      LinesAppend(a, b);
    } else {
      if l[|l| - 1] == '\r' && rest[0] == '\n' { CrLfJoins(l, rest); }
      LinesAppend(l, rest + b);
      LinesAfterFeed(rest, b);
    }
  }

  lemma {:induction false} KeptRun(st: Scan, kept: seq<string>, mid: Scan, lines: seq<string>)
    requires Keeps(st, kept, mid)
    ensures Run(st, kept + lines) == After(kept, Run(mid, lines))
    ensures AnyTriple(kept + lines) == AnyTriple(lines)
    decreases |kept|
  {
    hide Read, Step;
    if kept == [] {
      assert kept + lines == lines;
      AfterNothing(Run(mid, lines));
    } else {
      var all := kept + lines;
      var turn := Step(st, Read(kept[0])).value;
      KeptRun(turn.scan, kept[1..], mid, lines);
      assert all[1..] == kept[1..] + lines;
      TripleHead(all);
      var run := Run(mid, lines);
      if run.Success? { assert [kept[0]] + (kept[1..] + run.value.kept) == kept + run.value.kept; }
    }
  }

  lemma TripleHead(lines: seq<string>)
    requires lines != [] && !Read(lines[0]).triple
    ensures AnyTriple(lines) == AnyTriple(lines[1..])
  {
    hide Read;
    if AnyTriple(lines) {
      var i :| 0 <= i < |lines| && Read(lines[i]).triple;
      assert Read(lines[1..][i - 1]).triple;
    }
    if AnyTriple(lines[1..]) {
      var i :| 0 <= i < |lines[1..]| && Read(lines[1..][i]).triple;
      assert Read(lines[i + 1]).triple;
    }
  }

  /** Stripping what was stripped takes nothing more, and leaves no line of a JStack
      or gstack server. */
  lemma StrippingTwice(config: string) returns (end: Scan)
    requires StripBlocks(config).Success?
    ensures var text := StripBlocks(config).value;
      && StripBlocks(text) == Success(text)
      && Unowned(TOP, Lines(text)) == Lines(text)
      && Keeps(START, Lines(text), end)
    ensures end.skip.None? && end.seen == {} && AllClosed(end)
  {
    hide Read, Step, Lines, Flatten, Run, Keeps, Unowned, Joinable;
    var lines := Lines(config);
    var kept := Run(START, lines).value.kept;
    end := RunFollows(START, START, lines);
    LinesJoinable(config);
    KeptJoinable(START, lines);
    KeepsJoined(START, kept, end);
    var text := Flatten(kept);
    KeptWhole(text, end);
    StartAgrees();
    RunAgrees(START, TOP, Lines(text));
  }

  lemma KeptWhole(text: string, end: Scan)
    requires Keeps(START, Lines(text), end)
    ensures Run(START, Lines(text)) == Success(Pass(Lines(text), end)) && !AnyTriple(Lines(text))
    ensures Flatten(Lines(text)) == text
  {
    hide Read, Step, Lines, Flatten, Keeps;
    var lines := Lines(text);
    KeptRun(START, lines, end, []);
    RunNothing(end, lines);
    assert lines + [] == lines;
    FlattenLines(text);
  }

  /** Rewriting config.toml twice changes nothing the second time, exactly when neither
      path holds three literal quotes in a row; otherwise the second rewrite refuses
      the file the first one wrote. */
  lemma UpdateIsIdempotent(config: string, command: string, server: string)
    requires OneLine(command) && OneLine(server)
    requires Update(config, command, server).Success?
    ensures var updated := Update(config, command, server).value;
      Update(updated, command, server) ==
        if Plain(command) && Plain(server) then Success(updated) else Failure(MultilineString)
  {
    hide StripBlocks, Lines, Keeps, Block, Plain, OneLine, RStrip, Run, AnyTriple, Flatten;
    var text := StripBlocks(config).value;
    var end := StrippingTwice(config);
    KeepsTrimmed(START, text, end);
    var front, block := RStrip(text) + "\n\n", Block(command, server);
    LinesAfterFeed(front, block);
    KeptRun(START, Lines(front), end, Lines(block));
    if Plain(command) && Plain(server) {
      BlockDropped(end, command, server);
      Refront(front + block, front, Lines(block), end);
      Retrim(text);
    } else {
      TripleLines(command, server);
      TripleRefused(front + block);
    }
  }

  lemma TripleRefused(config: string)
    requires AnyTriple(Lines(config))
    ensures StripBlocks(config) == Failure(MultilineString)
  {
  }

  lemma Refront(config: string, front: string, rest: seq<string>, end: Scan)
    requires Lines(config) == Lines(front) + rest && !AnyTriple(Lines(config))
    requires Run(START, Lines(config)) == After(Lines(front), Run(end, rest))
    requires Run(end, rest).Success? && Run(end, rest).value.kept == [] && AllClosed(Run(end, rest).value.scan)
    ensures StripBlocks(config) == Success(front)
  {
    hide Lines, Run, AnyTriple, Flatten;
    assert Lines(front) + [] == Lines(front);
    FlattenLines(front);
  }

  lemma Retrim(text: string)
    ensures RStrip(RStrip(text) + "\n\n") == RStrip(text)
  {
    RStripTail(text);
    RStripAppend(RStrip(text), "\n\n");
  }

  /** The lines of JStack servers in the rewritten file are exactly those of the new
      block; all the others are the old file's other lines, trimmed. */
  lemma UpdateIsLocal(config: string, command: string, server: string)
    requires OneLine(command) && OneLine(server) && Plain(command) && Plain(server)
    requires Update(config, command, server).Success?
    ensures var updated := Update(config, command, server).value;
            var others := Unowned(TOP, Lines(updated));
      && Lines(updated) == others + Lines(Block(command, server))
      && Flatten(others) == RStrip(Flatten(Unowned(TOP, Lines(config)))) + "\n\n"
  {
    hide StripBlocks, Lines, Keeps, Block, Plain, OneLine, RStrip, Run, AnyTriple, Flatten, Unowned, Agree;
    var text := StripBlocks(config).value;
    var end := StrippingTwice(config);
    StripsTheServersLines(config);
    KeepsTrimmed(START, text, end);
    var front, block := RStrip(text) + "\n\n", Block(command, server);
    LinesAfterFeed(front, block);
    KeptRun(START, Lines(front), end, Lines(block));
    BlockDropped(end, command, server);
    StartAgrees();
    RunAgrees(START, TOP, Lines(front + block));
    assert Lines(front) + [] == Lines(front);
    FlattenLines(front);
  }

  // ------------------------------------------------- the paths read back

  lemma {:induction false} EscapedEnds(s: string, rest: string)
    ensures BasicLength(Escaped(s) + ("\"" + rest), false) == Some(|Escaped(s)|)
    decreases |s|
  {
    hide EscapeChar, BasicLength;
    if s == "" {
      assert Escaped(s) + ("\"" + rest) == "\"" + rest;
      QuoteEnds(rest);
    } else {
      var t := Escaped(s[1..]) + ("\"" + rest);
      assert Escaped(s) + ("\"" + rest) == EscapeChar(s[0]) + t;
      EscapedEnds(s[1..], rest);
      CharEnds(s[0], t);
    }
  }

  lemma QuoteEnds(rest: string)
    ensures BasicLength("\"" + rest, false) == Some(0)
  {
  }

  function Plus(n: nat, r: Option<nat>): Option<nat> { if r.None? then None else Some(n + r.value) }

  lemma {:induction false} QuietEnds(s: string, rest: string)
    requires Quiet(s)
    ensures BasicLength(s + rest, false) == Plus(|s|, BasicLength(rest, false))
    decreases |s|
  {
    if s == "" {
      assert s + rest == rest;
    } else {
      assert (s + rest)[1..] == s[1..] + rest;
      QuietEnds(s[1..], rest);
    }
  }

  lemma CharEnds(c: char, rest: string)
    ensures BasicLength(EscapeChar(c) + rest, false) == Plus(|EscapeChar(c)|, BasicLength(rest, false))
  {
    hide BasicLength, EscapeChar, Quiet;
    EscapeShape(c);
    var e := EscapeChar(c);
    if |e| == 1 {
      QuietEnds(e, rest);
    } else {
      var tail := e[2..] + rest;
      assert e + rest == ['\\', e[1]] + tail;
      EscapeEnds(e[1], tail);
      QuietEnds(e[2..], rest);
    }
  }

  lemma EscapeEnds(x: char, rest: string)
    ensures BasicLength(['\\', x] + rest, false) == Plus(2, BasicLength(rest, false))
  {
    var t := ['\\', x] + rest;
    assert t[1..] == [x] + rest && t[1..][1..] == rest;
  }

  lemma HexOf(n: nat)
    requires n < 0x80
    ensures HexValue("00" + [Hex(n / 16), Hex(n % 16)]) == Some(n)
  {
    var s := "00" + [Hex(n / 16), Hex(n % 16)];
    assert s[..3] == "00" + [Hex(n / 16)] && s[..3][..2] == "00" && "00"[..1] == "0" && "0"[..0] == "";
    assert HexDigit(Hex(n / 16)) == Some(n / 16) && HexDigit(Hex(n % 16)) == Some(n % 16);
    assert HexValue("0") == Some(0) && HexValue("00") == Some(0);
  }

  lemma UnicodeDecodes(digits: string, rest: string, n: nat)
    requires |digits| == 4 && HexValue(digits) == Some(n) && n < 0x80
    ensures DecodeBasic("\\u" + digits + rest) == Prepend(n as char, DecodeBasic(rest))
  {
    hide HexValue;
    var t := "\\u" + digits + rest;
    assert t[2..6] == digits && t[6..] == rest;
    assert SimpleEscape(t[1]) == None;
  }

  lemma CharDecodes(c: char, rest: string)
    ensures DecodeBasic(EscapeChar(c) + rest) == Prepend(c, DecodeBasic(rest))
  {
    hide HexValue;
    var e, n := EscapeChar(c), Code(c);
    var t := e + rest;
    if |e| == 1 {
      assert t[1..] == rest;
    } else if |e| == 2 {
      assert t[2..] == rest;
    } else {
      if n == 0x7F {
        HexDel();
        UnicodeDecodes("007F", rest, n);
        assert e == "\\u" + "007F";
      } else {
        HexOf(n);
        UnicodeDecodes("00" + [Hex(n / 16), Hex(n % 16)], rest, n);
        assert e == "\\u" + ("00" + [Hex(n / 16), Hex(n % 16)]);
      }
    }
  }

  lemma HexDel()
    ensures HexValue("007F") == Some(0x7F)
  {
    var s := "007F";
    assert s[..3] == "007" && s[..3][..2] == "00" && "00"[..1] == "0" && "0"[..0] == "";
    assert HexValue("0") == Some(0) && HexValue("00") == Some(0) && HexValue("007") == Some(7);
  }

  lemma {:induction false} EscapedDecodes(s: string)
    ensures DecodeBasic(Escaped(s)) == Some(s)
    decreases |s|
  {
    hide EscapeChar, DecodeBasic;
    if s == "" {
      NothingDecodes();
    } else {
      CharDecodes(s[0], Escaped(s[1..]));
      EscapedDecodes(s[1..]);
      assert [s[0]] + s[1..] == s;
    }
  }

  lemma NothingDecodes()
    ensures DecodeBasic("") == Some("")
  {
  }

  /** A path written into the block reads back, by the TOML basic-string rules of the
      same file, as that path and nothing more. */
  lemma PathReadsBack(path: string, rest: string)
    ensures KeyPart(JsonString(path) + rest) == Some((path, rest))
  {
    hide BasicLength, Escaped, DecodeBasic;
    var t, e := JsonString(path) + rest, Escaped(path);
    assert t[0] == '"' && t[1..] == e + ("\"" + rest);
    EscapedEnds(path, rest);
    EscapedDecodes(path);
    assert t[1..1 + |e|] == e && t[2 + |e|..] == rest;
  }
}
