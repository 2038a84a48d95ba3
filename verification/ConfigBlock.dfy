/**
 The JStack block of config.toml and the whole rewrite (scripts/install.py:2947-2971,
 3551-3552): strip the old block, trim, append the new one.  Rewriting the result
 again changes nothing.
 */
module ConfigBlock {
  import opened Wrappers
  import opened TomlScan
  import opened ConfigRewrite

  // ------------------------------------------------------------ JSON strings

  function Hex(n: nat): char
    requires n < 16
  {
    "0123456789abcdef"[n]
  }

  function ShortEscape(c: char): Option<char> {
    match c
    case '"' => Some('"')
    case '\\' => Some('\\')
    case '\n' => Some('n')
    case '\r' => Some('r')
    case '\t' => Some('t')
    case _ => if Code(c) == 8 then Some('b') else if Code(c) == 12 then Some('f') else None
  }

  /** `json.dumps(..., ensure_ascii=False)`, and `\u007F` for DEL. */
  function EscapeChar(c: char): string {
    var short, n := ShortEscape(c), Code(c);
    if short.Some? then ['\\', short.value]
    else if n < 0x20 then ['\\', 'u', '0', '0', Hex(n / 16), Hex(n % 16)]
    else if n == 0x7F then "\\u007F"
    else [c]
  }

  function Escaped(s: string): string {
    if s == "" then "" else EscapeChar(s[0]) + Escaped(s[1..])
  }

  function JsonString(s: string): string { "\"" + Escaped(s) + "\"" }

  const HEADER := "[mcp_servers.jstack]\n"
  const STARTUP := "startup_timeout_sec = 30.0\n"
  const TOOL := "tool_timeout_sec = 1900.0\n"

  function CommandLine(command: string): string { "command = " + (JsonString(command) + "\n") }

  function ArgsLine(server: string): string { "args = [" + (JsonString(server) + "]\n") }

  /** The block and the newline after it. */
  function Block(command: string, server: string): string {
    HEADER + (CommandLine(command) + (ArgsLine(server) + (STARTUP + TOOL)))
  }

  function Update(config: string, command: string, server: string): Result<string, Refusal> {
    var stripped := StripBlocks(config);
    if stripped.Failure? then stripped
    else Success(RStrip(stripped.value) + "\n\n" + Block(command, server))
  }

  /** No character that JSON leaves raw but `splitlines` breaks at. */
  predicate OneLine(path: string) { forall i | 0 <= i < |path| :: Code(path[i]) !in {0x85, 0x2028, 0x2029} }

  /** No three literal quotes in a row. */
  predicate Plain(path: string) { !Contains(path, TRIPLE_LITERAL) }

  // --------------------------------------------- scanning through a string

  const INSIDE := Basic(false)

  /** Plain characters inside a string do not end it. */
  predicate Quiet(s: string) { '"' !in s && '\\' !in s }

  lemma {:induction false} QuietScan(s: string, rest: string)
    requires Quiet(s)
    ensures Uncommented(INSIDE, s + rest) == s + Uncommented(INSIDE, rest)
    ensures Delta(INSIDE, s + rest) == Delta(INSIDE, rest)
    decreases |s|
  {
    if s == "" {
      assert s + rest == rest;
    } else {
      assert (s + rest)[1..] == s[1..] + rest;
      QuietScan(s[1..], rest);
    }
  }

  lemma EscapeScan(x: char, rest: string)
    ensures Uncommented(INSIDE, ['\\', x] + rest) == ['\\', x] + Uncommented(INSIDE, rest)
    ensures Delta(INSIDE, ['\\', x] + rest) == Delta(INSIDE, rest)
  {
    var t := ['\\', x] + rest;
    assert t[1..] == [x] + rest && t[1..][1..] == rest;
    assert Next(INSIDE, '\\') == Basic(true) && Next(Basic(true), x) == INSIDE;
  }

  /** An escape is one quiet character, or a backslash with one more and a quiet rest. */
  lemma EscapeShape(c: char)
    ensures var e := EscapeChar(c);
      if |e| == 1 then Quiet(e) else |e| >= 2 && e == ['\\', e[1]] + e[2..] && Quiet(e[2..])
  {
  }

  lemma CharScan(c: char, rest: string)
    ensures Uncommented(INSIDE, EscapeChar(c) + rest) == EscapeChar(c) + Uncommented(INSIDE, rest)
    ensures Delta(INSIDE, EscapeChar(c) + rest) == Delta(INSIDE, rest)
  {
    hide Uncommented, Delta, EscapeChar, Quiet;
    EscapeShape(c);
    var e := EscapeChar(c);
    if |e| == 1 {
      QuietScan(e, rest);
    } else {
      var tail := e[2..];
      assert e + rest == ['\\', e[1]] + (tail + rest);
      EscapeScan(e[1], tail + rest);
      QuietScan(tail, rest);
      assert ['\\', e[1]] + (tail + Uncommented(INSIDE, rest)) == e + Uncommented(INSIDE, rest);
    }
  }

  lemma {:induction false} EscapedScan(s: string, rest: string)
    ensures Uncommented(INSIDE, Escaped(s) + rest) == Escaped(s) + Uncommented(INSIDE, rest)
    ensures Delta(INSIDE, Escaped(s) + rest) == Delta(INSIDE, rest)
    decreases |s|
  {
    hide Uncommented, Delta, EscapeChar;
    if s == "" {
      assert Escaped(s) + rest == rest;
      assert Escaped(s) + Uncommented(INSIDE, rest) == Uncommented(INSIDE, rest);
    } else {
      var e, more := EscapeChar(s[0]), Escaped(s[1..]);
      assert Escaped(s) + rest == e + (more + rest);
      CharScan(s[0], more + rest);
      EscapedScan(s[1..], rest);
      assert e + (more + Uncommented(INSIDE, rest)) == Escaped(s) + Uncommented(INSIDE, rest);
    }
  }

  /** A JSON string is opaque to the scanners: no comment, no bracket. */
  lemma JsonScan(s: string, rest: string)
    ensures Uncommented(Bare, JsonString(s) + rest) == JsonString(s) + Uncommented(Bare, rest)
    ensures Delta(Bare, JsonString(s) + rest) == Delta(Bare, rest)
  {
    hide Escaped;
    var text, tail := JsonString(s) + rest, "\"" + rest;
    assert text[1..] == Escaped(s) + tail;
    EscapedScan(s, tail);
    assert tail[1..] == rest && Next(INSIDE, '"') == Bare;
    assert Uncommented(INSIDE, tail) == "\"" + Uncommented(Bare, rest);
    assert "\"" + (Escaped(s) + ("\"" + Uncommented(Bare, rest))) == JsonString(s) + Uncommented(Bare, rest);
  }

  /** Text with neither quotes nor comments. */
  predicate Open(s: string) { '"' !in s && '\'' !in s && '#' !in s }

  lemma {:induction false} OpenScan(s: string, rest: string)
    requires Open(s)
    ensures Uncommented(Bare, s + rest) == s + Uncommented(Bare, rest)
    ensures '[' !in s && ']' !in s ==> Delta(Bare, s + rest) == Delta(Bare, rest)
    ensures '=' !in s ==> EqualsAt(Bare, s + ("=" + rest)) == Some(|s|)
    decreases |s|
  {
    if s == "" {
      assert s + rest == rest && s + ("=" + rest) == "=" + rest;
    } else {
      assert (s + rest)[1..] == s[1..] + rest;
      assert (s + ("=" + rest))[1..] == s[1..] + ("=" + rest);
      OpenScan(s[1..], rest);
    }
  }

  // ------------------------------------------------------------ triple quotes

  lemma {:induction false} ContainsSkip(s: string, rest: string, m: string)
    requires m != "" && m[0] !in s
    ensures Contains(s + rest, m) == Contains(rest, m)
    decreases |s|
  {
    if s == "" {
      assert s + rest == rest;
    } else {
      assert (s + rest)[1..] == s[1..] + rest;
      ContainsSkip(s[1..], rest, m);
    }
  }

  lemma LiteralQuote(c: char)
    ensures EscapeChar('\'') == ['\'']
    ensures EscapeChar(c) != "" && (c != '\'' ==> '\'' !in EscapeChar(c))
  {
  }

  /** A leading literal quote adds a run only in front of two more. */
  lemma LiteralFirst(s: string)
    ensures Contains(['\''] + s, TRIPLE_LITERAL) <==> "''" <= s || Contains(s, TRIPLE_LITERAL)
  {
    var t := ['\''] + s;
    assert t[1..] == s;
    assert TRIPLE_LITERAL == ['\''] + "''";
    assert TRIPLE_LITERAL <= t <==> "''" <= s by {
      if "''" <= s { assert t[1] == s[0] && t[2] == s[1]; }
      if TRIPLE_LITERAL <= t { assert s[0] == t[1] == '\'' && s[1] == t[2] == '\''; }
    }
  }

  /** Escaping keeps the runs of literal quotes, and makes none. */
  lemma {:induction false} LiteralsEscaped(s: string, rest: string)
    requires rest != "" && rest[0] != '\''
    ensures Contains(Escaped(s) + rest, TRIPLE_LITERAL) == (!Plain(s) || Contains(rest, TRIPLE_LITERAL))
    decreases |s|
  {
    hide EscapeChar;
    if s == "" {
      assert Escaped(s) + rest == rest;
    } else {
      var t := Escaped(s[1..]) + rest;
      assert Escaped(s) + rest == EscapeChar(s[0]) + t;
      assert [s[0]] + s[1..] == s;
      LiteralsEscaped(s[1..], rest);
      LiteralQuote(s[0]);
      if s[0] != '\'' {
        ContainsSkip(EscapeChar(s[0]), t, TRIPLE_LITERAL);
        ContainsSkip([s[0]], s[1..], TRIPLE_LITERAL);
      } else {
        LiteralFirst(s[1..]);
        LiteralFirst(t);
        LiteralRun(s[1..], rest);
      }
    }
  }

  lemma LiteralRun(s: string, rest: string)
    requires rest != "" && rest[0] != '\''
    ensures "''" <= Escaped(s) + rest <==> "''" <= s
  {
    hide EscapeChar, Contains;
    FirstOfEscaped(s, rest);
    if s != "" && s[0] == '\'' {
      LiteralQuote('\'');
      assert Escaped(s) == ['\''] + Escaped(s[1..]);
      FirstOfEscaped(s[1..], rest);
      assert (Escaped(s) + rest)[1..] == Escaped(s[1..]) + rest;
    }
  }

  lemma FirstOfEscaped(s: string, rest: string)
    requires rest != ""
    ensures Escaped(s) + rest != ""
    ensures (Escaped(s) + rest)[0] == '\'' <==> (if s == "" then rest[0] else s[0]) == '\''
  {
    hide EscapeChar, Contains;
    if s != "" { LiteralQuote(s[0]); }
  }

  lemma BasicQuote(c: char)
    ensures EscapeChar('"') == "\\\""
    ensures EscapeChar(c) != "" && EscapeChar(c)[0] != '"' && (c != '"' ==> '"' !in EscapeChar(c))
  {
  }

  /** A leading quote not followed by two more adds no run. */
  lemma BasicFirst(t: string)
    requires |t| >= 2 && !(t[0] == '"' && t[1] == '"')
    ensures Contains("\"" + t, TRIPLE_BASIC) == Contains(t, TRIPLE_BASIC)
  {
    assert ("\"" + t)[1..] == t;
    assert ("\"" + t)[1] == t[0] && ("\"" + t)[2] == t[1];
    assert TRIPLE_BASIC[1] == '"' && TRIPLE_BASIC[2] == '"';
  }

  /** Inside a JSON string and at its end quotes never pair up. */
  lemma NoPair(s: string, x: string)
    requires x != "" && x[0] != '"'
    ensures var t := Escaped(s) + ("\"" + x); |t| >= 2 && !(t[0] == '"' && t[1] == '"')
  {
    hide EscapeChar;
    if s == "" {
      assert Escaped(s) + ("\"" + x) == "\"" + x;
    } else {
      BasicQuote(s[0]);
    }
  }

  lemma {:induction false} BasicsEscaped(s: string, x: string)
    requires x != "" && x[0] != '"'
    ensures Contains(Escaped(s) + ("\"" + x), TRIPLE_BASIC) == Contains(x, TRIPLE_BASIC)
    decreases |s|
  {
    hide EscapeChar, Contains;
    if s == "" {
      assert Escaped(s) + ("\"" + x) == "\"" + x;
      QuoteThen(x);
    } else {
      var t := Escaped(s[1..]) + ("\"" + x);
      assert Escaped(s) + ("\"" + x) == EscapeChar(s[0]) + t;
      BasicsEscaped(s[1..], x);
      BasicQuote(s[0]);
      if s[0] != '"' {
        ContainsSkip(EscapeChar(s[0]), t, TRIPLE_BASIC);
      } else {
        NoPair(s[1..], x);
        BasicFirst(t);
        ContainsSkip("\\", "\"" + t, TRIPLE_BASIC);
        assert EscapeChar(s[0]) + t == "\\" + ("\"" + t);
      }
    }
  }

  lemma QuoteThen(x: string)
    requires x != "" && x[0] != '"'
    ensures Contains("\"" + x, TRIPLE_BASIC) == Contains(x, TRIPLE_BASIC)
  {
    assert ("\"" + x)[1..] == x;
    assert |x| >= 1 ==> ("\"" + x)[1] == x[0];
    assert TRIPLE_BASIC[1] == '"';
  }

  /** A JSON string holds triple quotes only when its path holds literal ones. */
  lemma JsonTriple(s: string, x: string)
    requires x != "" && x[0] != '"'
    ensures HasTriple(JsonString(s) + x) == (!Plain(s) || HasTriple(x))
  {
    hide Escaped, Contains;
    var t := Escaped(s) + ("\"" + x);
    assert JsonString(s) + x == "\"" + t;
    NoPair(s, x);
    BasicFirst(t);
    BasicsEscaped(s, x);
    ContainsSkip("\"", t, TRIPLE_LITERAL);
    LiteralsEscaped(s, "\"" + x);
    ContainsSkip("\"", x, TRIPLE_LITERAL);
  }

  lemma OpenTriple(s: string, rest: string)
    requires Open(s)
    ensures HasTriple(s + rest) == HasTriple(rest)
  {
    ContainsSkip(s, rest, TRIPLE_BASIC);
    ContainsSkip(s, rest, TRIPLE_LITERAL);
  }

  // ------------------------------------------------------------- whole lines

  predicate Unbroken(s: string) { forall i | 0 <= i < |s| :: !IsBreak(s[i]) }

  lemma CharUnbroken(c: char)
    requires Code(c) !in {0x85, 0x2028, 0x2029}
    ensures Unbroken(EscapeChar(c))
  {
  }

  lemma {:induction false} EscapedUnbroken(s: string)
    requires OneLine(s)
    ensures Unbroken(Escaped(s))
    decreases |s|
  {
    hide EscapeChar, Code, IsBreak;
    if s != "" {
      CharUnbroken(s[0]);
      EscapedUnbroken(s[1..]);
    }
  }

  lemma {:induction false} UnbrokenLine(s: string, rest: string)
    requires Unbroken(s)
    ensures Lines(s + "\n" + rest) == [s + "\n"] + Lines(rest)
  {
    hide Lines;
    if s == "" {
      assert s + "\n" == "\n";
      FirstOfLines("\n" + rest);
      assert s + "\n" + rest == "\n" + rest;
      assert ("\n" + rest)[..1] == "\n" && ("\n" + rest)[1..] == rest;
    } else {
      var t := s + "\n" + rest;
      assert t == s + ("\n" + rest);
      OpenAppend(s, "\n" + rest);
      FirstOfLines(t);
      assert t[..|s| + 1] == s + "\n" && t[|s| + 1..] == rest;
    }
  }

  lemma BlockLines(command: string, server: string)
    requires OneLine(command) && OneLine(server)
    ensures Lines(Block(command, server)) == [HEADER, CommandLine(command), ArgsLine(server), STARTUP, TOOL]
  {
    hide Escaped, IsBreak, Lines, Contains;
    PlainLines(command, server);
    var c := "command = " + JsonString(command);
    var a := "args = [" + JsonString(server) + "]";
    var h, s, o := HEADER[..|HEADER| - 1], STARTUP[..|STARTUP| - 1], TOOL[..|TOOL| - 1];
    assert CommandLine(command) == c + "\n" && ArgsLine(server) == a + "\n";
    assert HEADER == h + "\n" && STARTUP == s + "\n" && TOOL == o + "\n";
    UnbrokenLine(o, "");
    assert TOOL + "" == TOOL;
    UnbrokenLine(s, TOOL);
    UnbrokenLine(a, STARTUP + TOOL);
    UnbrokenLine(c, ArgsLine(server) + (STARTUP + TOOL));
    UnbrokenLine(h, CommandLine(command) + (ArgsLine(server) + (STARTUP + TOOL)));
    NoLines();
  }

  lemma NoLines()
    ensures Lines("") == []
  {
  }

  lemma PlainLines(command: string, server: string)
    requires OneLine(command) && OneLine(server)
    ensures Unbroken("command = " + JsonString(command)) && Unbroken("args = [" + JsonString(server) + "]")
    ensures Unbroken(HEADER[..|HEADER| - 1]) && Unbroken(STARTUP[..|STARTUP| - 1]) && Unbroken(TOOL[..|TOOL| - 1])
  {
    hide Escaped, Contains;
    EscapedUnbroken(command);
    EscapedUnbroken(server);
  }
}
