/**
 The single-line TOML scanners of the config rewrite (scripts/install.py): quotes
 and comments, bracket depth, assignments and dotted keys.
 */
module TomlScan {
  import opened Wrappers

  // -------------------------------------------------------------- characters

  function Code(c: char): int { c as int }

  /** Where `str.splitlines` ends a line. */
  predicate IsBreak(c: char) {
    var n := Code(c);
    0x0A <= n <= 0x0D || 0x1C <= n <= 0x1E || n == 0x85 || n == 0x2028 || n == 0x2029
  }

  /** What `str.strip` removes. */
  predicate IsSpace(c: char) {
    var n := Code(c);
    || IsBreak(c) || n == 0x09 || n == 0x1F || n == 0x20 || n == 0xA0 || n == 0x1680 || 0x2000 <= n <= 0x200A
    || n == 0x202F || n == 0x205F || n == 0x3000
  }

  predicate Blank(s: string) { forall i | 0 <= i < |s| :: IsSpace(s[i]) }

  function LStrip(s: string): string
  {
    if s != "" && IsSpace(s[0]) then LStrip(s[1..]) else s
  }

  function RStrip(s: string): string
    decreases |s|
  {
    if s != "" && IsSpace(s[|s| - 1]) then RStrip(s[..|s| - 1]) else s
  }

  function Strip(s: string): string { LStrip(RStrip(s)) }

  /** Stripping is undone by some blank tail, and leaves no trailing space. */
  lemma {:induction false} RStripTail(s: string)
    ensures RStrip(s) <= s && Blank(s[|RStrip(s)|..])
    ensures RStrip(s) == "" || !IsSpace(RStrip(s)[|RStrip(s)| - 1])
    decreases |s|
  {
    if s != "" && IsSpace(s[|s| - 1]) {
      var front := s[..|s| - 1];
      RStripTail(front);
      var t := RStrip(front);
      assert s[|t|..] == front[|t|..] + [s[|s| - 1]];
    }
  }

  lemma {:induction false} RStripAppend(s: string, w: string)
    requires Blank(w)
    ensures RStrip(s + w) == RStrip(s)
    decreases |w|
  {
    if w == "" {
      assert s + w == s;
    } else {
      assert (s + w)[..|s + w| - 1] == s + w[..|w| - 1];
      RStripAppend(s, w[..|w| - 1]);
    }
  }

  lemma RStripSolid(s: string)
    requires s != "" && !IsSpace(s[|s| - 1])
    ensures RStrip(s) == s
  {
  }

  lemma StripAppend(s: string, w: string)
    requires Blank(w)
    ensures Strip(s + w) == Strip(s)
  {
    RStripAppend(s, w);
  }

  lemma StripBlank(w: string)
    requires Blank(w)
    ensures RStrip(w) == "" && Strip(w) == ""
  {
    RStripAppend("", w);
    assert "" + w == w;
  }

  // ------------------------------------------------------------------- lines

  /** The length of the first line, its line break included. */
  function FirstLine(t: string): (n: nat)
    requires t != ""
    ensures 0 < n <= |t|
  {
    if t[0] == '\r' && |t| > 1 && t[1] == '\n' then 2
    else if IsBreak(t[0]) || |t| == 1 then 1
    else 1 + FirstLine(t[1..])
  }

  function Lines(t: string): seq<string>
  {
    if t == "" then [] else [t[..FirstLine(t)]] + Lines(t[FirstLine(t)..])
  }

  function Flatten(lines: seq<string>): string {
    if lines == [] then "" else lines[0] + Flatten(lines[1..])
  }

  lemma {:induction false} FlattenLines(t: string)
    ensures Flatten(Lines(t)) == t
    decreases |t|
  {
    if t != "" { FlattenLines(t[FirstLine(t)..]); }
  }

  /** One whole line: a break at its end and nowhere before. */
  predicate IsLine(l: string) { l != "" && FirstLine(l) == |l| && IsBreak(l[|l| - 1]) }

  /** A line still open at the end of the text. */
  predicate IsOpen(l: string) { l != "" && forall i | 0 <= i < |l| :: !IsBreak(l[i]) }

  lemma {:induction false} FirstLineKinds(t: string)
    requires t != ""
    ensures var l := t[..FirstLine(t)]; IsLine(l) || (IsOpen(l) && l == t)
  {
    if |t| > 1 && !IsBreak(t[0]) {
      var rest := t[1..];
      FirstLineKinds(rest);
      var l := t[..FirstLine(t)];
      assert l == [t[0]] + rest[..FirstLine(rest)];
      assert l[1..] == rest[..FirstLine(rest)];
    }
  }

  /** What follows a whole line does not change it, unless it completes a CRLF. */
  lemma {:induction false} FirstLineAppend(l: string, rest: string)
    requires IsLine(l) && !(l[|l| - 1] == '\r' && rest != "" && rest[0] == '\n')
    ensures FirstLine(l + rest) == |l|
  {
    if |l| > 1 && !(l[0] == '\r' && l[1] == '\n') {
      LineTail(l);
      FirstLineAppend(l[1..], rest);
      assert (l + rest)[1..] == l[1..] + rest;
    }
  }

  lemma LineTail(l: string)
    requires IsLine(l) && |l| > 1 && !(l[0] == '\r' && l[1] == '\n')
    ensures !IsBreak(l[0]) && IsLine(l[1..])
  {
  }

  lemma {:induction false} CrLfJoins(l: string, rest: string)
    requires IsLine(l) && l[|l| - 1] == '\r' && rest != "" && rest[0] == '\n'
    ensures FirstLine(l + rest) == |l| + 1
  {
    if |l| > 1 {
      LineTail(l);
      CrLfJoins(l[1..], rest);
      assert (l + rest)[1..] == l[1..] + rest;
    }
  }

  /** An open line takes in everything up to the next break. */
  lemma {:induction false} OpenAppend(l: string, rest: string)
    requires IsOpen(l) && rest != ""
    ensures FirstLine(l + rest) == |l| + FirstLine(rest)
  {
    assert (l + rest)[1..] == l[1..] + rest;
    if |l| == 1 {
      assert l[1..] + rest == rest;
    } else {
      OpenAppend(l[1..], rest);
    }
  }

  lemma LinesAppend(l: string, rest: string)
    requires IsLine(l) && !(l[|l| - 1] == '\r' && rest != "" && rest[0] == '\n')
    ensures Lines(l + rest) == [l] + Lines(rest)
  {
    FirstLineAppend(l, rest);
    assert (l + rest)[..|l|] == l && (l + rest)[|l|..] == rest;
  }

  // ------------------------------------------------------------------ quotes

  datatype Quote = Bare | Basic(escaped: bool) | Literal

  function Next(q: Quote, c: char): Quote {
    match q
    case Basic(escaped) =>
      if escaped then Basic(false) else if c == '\\' then Basic(true) else if c == '"' then Bare else q
    case Literal => if c == '\'' then Bare else q
    case Bare => if c == '"' then Basic(false) else if c == '\'' then Literal else Bare
  }

  /** The text before its comment. */
  function Uncommented(q: Quote, s: string): string
    decreases |s|
  {
    if s == "" || (q.Bare? && s[0] == '#') then "" else [s[0]] + Uncommented(Next(q, s[0]), s[1..])
  }

  function Weight(q: Quote, c: char): int {
    if q.Bare? then (if c == '[' then 1 else if c == ']' then -1 else 0) else 0
  }

  /** Array brackets opened less those closed, outside quotes and comments. */
  function Delta(q: Quote, s: string): int
    decreases |s|
  {
    if s == "" || (q.Bare? && s[0] == '#') then 0 else Weight(q, s[0]) + Delta(Next(q, s[0]), s[1..])
  }

  /** Where the first unquoted `=` stands. */
  function EqualsAt(q: Quote, s: string): (r: Option<nat>)
    ensures r.Some? ==> r.value < |s|
    decreases |s|
  {
    if s == "" then None
    else if q.Bare? && s[0] == '=' then Some(0)
    else
      var later := EqualsAt(Next(q, s[0]), s[1..]);
      if later.None? then None else Some(later.value + 1)
  }

  /** Key and value on either side of the first unquoted `=`. */
  function SplitAssignment(s: string): Option<(string, string)> {
    var at := EqualsAt(Bare, s);
    if at.None? then None else Some((s[..at.value], s[at.value + 1..]))
  }

  predicate Contains(s: string, m: string)
    decreases |s|
  {
    m <= s || (s != "" && Contains(s[1..], m))
  }

  const TRIPLE_BASIC := "\"\"\""
  const TRIPLE_LITERAL := "'''"

  predicate HasTriple(s: string) { Contains(s, TRIPLE_BASIC) || Contains(s, TRIPLE_LITERAL) }

  // ------------------------------------------------------------- dotted keys

  predicate IsBareKey(c: char) { 'A' <= c <= 'Z' || 'a' <= c <= 'z' || '0' <= c <= '9' || c == '_' || c == '-' }

  function BareLength(s: string): (n: nat)
    ensures n <= |s| && forall i | 0 <= i < n :: IsBareKey(s[i])
    ensures n < |s| ==> !IsBareKey(s[n])
  {
    if s != "" && IsBareKey(s[0]) then 1 + BareLength(s[1..]) else 0
  }

  /** Up to the closing quote of a basic key, the quote excluded. */
  function BasicLength(s: string, escaped: bool): (r: Option<nat>)
    ensures r.Some? ==> r.value < |s|
  {
    if s == "" then None
    else if !escaped && s[0] == '"' then Some(0)
    else
      var later := BasicLength(s[1..], !escaped && s[0] == '\\');
      if later.None? then None else Some(later.value + 1)
  }

  function LiteralLength(s: string): (r: Option<nat>)
    ensures r.Some? ==> r.value < |s|
  {
    if s == "" then None
    else if s[0] == '\'' then Some(0)
    else
      var later := LiteralLength(s[1..]);
      if later.None? then None else Some(later.value + 1)
  }

  function HexDigit(c: char): Option<nat> {
    if '0' <= c <= '9' then Some(Code(c) - Code('0'))
    else if 'a' <= c <= 'f' then Some(Code(c) - Code('a') + 10)
    else if 'A' <= c <= 'F' then Some(Code(c) - Code('A') + 10)
    else None
  }

  function HexValue(s: string): Option<nat>
    decreases |s|
  {
    if s == "" then Some(0)
    else
      var front, last := HexValue(s[..|s| - 1]), HexDigit(s[|s| - 1]);
      if front.None? || last.None? then None else Some(front.value * 16 + last.value)
  }

  function SimpleEscape(c: char): Option<char> {
    match c
    case 'b' => Some(8 as char)
    case 't' => Some('\t')
    case 'n' => Some('\n')
    case 'f' => Some(12 as char)
    case 'r' => Some('\r')
    case '"' => Some('"')
    case '\\' => Some('\\')
    case _ => None
  }

  function DecodeBasic(s: string): Option<string>
  {
    if s == "" then Some("")
    else if s[0] != '\\' then
      if Code(s[0]) < 0x20 || Code(s[0]) == 0x7F then None else Prepend(s[0], DecodeBasic(s[1..]))
    else if |s| == 1 then None
    else if SimpleEscape(s[1]).Some? then Prepend(SimpleEscape(s[1]).value, DecodeBasic(s[2..]))
    else if s[1] != 'u' && s[1] != 'U' then None
    else
      var width := if s[1] == 'u' then 4 else 8;
      if |s| < 2 + width then None
      else
        var n := HexValue(s[2..2 + width]);
        if n.None? || n.value > 0x10FFFF || 0xD800 <= n.value <= 0xDFFF then None
        else Prepend(n.value as char, DecodeBasic(s[2 + width..]))
  }

  function Prepend(c: char, s: Option<string>): Option<string> {
    if s.None? then None else Some([c] + s.value)
  }

  /** One key part at the front of a text, and what follows it. */
  function KeyPart(s: string): (r: Option<(string, string)>)
    requires s != ""
    ensures r.Some? ==> |r.value.1| < |s|
  {
    if s[0] == '"' then
      var n := BasicLength(s[1..], false);
      if n.None? then None
      else
        var part := DecodeBasic(s[1..1 + n.value]);
        if part.None? then None else Some((part.value, s[2 + n.value..]))
    else if s[0] == '\'' then
      var n := LiteralLength(s[1..]);
      if n.None? then None else Some((s[1..1 + n.value], s[2 + n.value..]))
    else
      var n := BareLength(s);
      if n == 0 then None else Some((s[..n], s[n..]))
  }

  lemma {:induction false} LStripShorter(s: string)
    ensures |LStrip(s)| <= |s|
  {
    if s != "" && IsSpace(s[0]) { LStripShorter(s[1..]); }
  }

  /** A dotted key; as in the source, a final dot followed by nothing is accepted. */
  function KeyParts(s: string, parts: seq<string>): Option<seq<string>>
    decreases |s|
  {
    LStripShorter(s);
    var t := LStrip(s);
    if t == "" then (if parts == [] then None else Some(parts))
    else
      var part := KeyPart(t);
      if part.None? then None
      else
        LStripShorter(part.value.1);
        var more, rest := parts + [part.value.0], LStrip(part.value.1);
        if rest == "" then Some(more)
        else if rest[0] != '.' then None
        else KeyParts(rest[1..], more)
  }

  /** A literal string is opaque to the scanners: nothing in it is a comment, a bracket, an
      equals sign or an escape. */
  lemma LiteralScan(s: string, rest: string)
    requires '\'' !in s
    ensures Uncommented(Bare, "'" + (s + ("'" + rest))) == "'" + (s + ("'" + Uncommented(Bare, rest)))
    ensures Delta(Bare, "'" + (s + ("'" + rest))) == Delta(Bare, rest)
    ensures EqualsAt(Bare, rest).None? <==> EqualsAt(Bare, "'" + (s + ("'" + rest))).None?
  {
    var text := "'" + (s + ("'" + rest));
    assert text[1..] == s + ("'" + rest) && Next(Bare, '\'') == Literal;
    InLiteral(s, rest);
  }

  lemma {:induction false} InLiteral(s: string, rest: string)
    requires '\'' !in s
    ensures Uncommented(Literal, s + ("'" + rest)) == s + ("'" + Uncommented(Bare, rest))
    ensures Delta(Literal, s + ("'" + rest)) == Delta(Bare, rest)
    ensures EqualsAt(Bare, rest).None? <==> EqualsAt(Literal, s + ("'" + rest)).None?
    decreases |s|
  {
    var text := s + ("'" + rest);
    if s == "" {
      assert text == "'" + rest && text[1..] == rest;
      assert s + ("'" + Uncommented(Bare, rest)) == "'" + Uncommented(Bare, rest);
    } else {
      assert text[1..] == s[1..] + ("'" + rest);
      assert s == [s[0]] + s[1..] && s[0] in s;
      InLiteral(s[1..], rest);
      assert [s[0]] + (s[1..] + ("'" + Uncommented(Bare, rest))) == s + ("'" + Uncommented(Bare, rest));
    }
  }

  /** A literal key part reads as its own characters, up to the closing quote. */
  lemma LiteralPart(name: string, rest: string)
    requires '\'' !in name
    ensures KeyPart("'" + (name + ("'" + rest))) == Some((name, rest))
  {
    var text, tail := "'" + (name + ("'" + rest)), name + ("'" + rest);
    assert text[1..] == tail;
    LiteralEnds(name, rest);
    assert text[1..1 + |name|] == name && text[2 + |name|..] == rest;
  }

  lemma {:induction false} LiteralEnds(name: string, rest: string)
    requires '\'' !in name
    ensures LiteralLength(name + ("'" + rest)) == Some(|name|)
    decreases |name|
  {
    var text := name + ("'" + rest);
    if name == "" {
      assert text == "'" + rest;
    } else {
      assert text[1..] == name[1..] + ("'" + rest);
      assert name == [name[0]] + name[1..] && name[0] in name;
      LiteralEnds(name[1..], rest);
    }
  }

  // -------------------------------------------------- space at a line's end

  lemma {:induction false} UncommentedTail(q: Quote, s: string, w: string)
    requires Blank(w)
    ensures Uncommented(q, s + w) == Uncommented(q, s) || Uncommented(q, s + w) == Uncommented(q, s) + w
    decreases |s|
  {
    if s == "" {
      assert s + w == w;
      UncommentedBlank(q, w);
    } else if !(q.Bare? && s[0] == '#') {
      assert (s + w)[1..] == s[1..] + w;
      UncommentedTail(Next(q, s[0]), s[1..], w);
    }
  }

  lemma {:induction false} UncommentedBlank(q: Quote, w: string)
    requires Blank(w)
    ensures Uncommented(q, w) == w
    decreases |w|
  {
    if w != "" {
      UncommentedBlank(Next(q, w[0]), w[1..]);
    }
  }

  lemma {:induction false} DeltaTail(q: Quote, s: string, w: string)
    requires Blank(w)
    ensures Delta(q, s + w) == Delta(q, s)
    decreases |s|
  {
    if s == "" {
      assert s + w == w;
      NoBrackets(q, w);
    } else if !(q.Bare? && s[0] == '#') {
      assert (s + w)[1..] == s[1..] + w;
      DeltaTail(Next(q, s[0]), s[1..], w);
    }
  }

  lemma {:induction false} NoBrackets(q: Quote, s: string)
    requires '[' !in s && ']' !in s
    ensures Delta(q, s) == 0
    decreases |s|
  {
    if s != "" { NoBrackets(Next(q, s[0]), s[1..]); }
  }

  lemma {:induction false} EqualsTail(q: Quote, s: string, w: string)
    requires Blank(w)
    ensures EqualsAt(q, s + w) == EqualsAt(q, s)
    decreases |s|
  {
    if s == "" {
      assert s + w == w;
      assert !IsSpace('=');
      NoEquals(q, w);
    } else {
      assert (s + w)[1..] == s[1..] + w;
      EqualsTail(Next(q, s[0]), s[1..], w);
    }
  }

  lemma {:induction false} NoEquals(q: Quote, s: string)
    requires '=' !in s
    ensures EqualsAt(q, s) == None
    decreases |s|
  {
    if s != "" { NoEquals(Next(q, s[0]), s[1..]); }
  }

  /** Key and value keep their meaning when space follows the line. */
  lemma SplitTail(s: string, w: string)
    requires Blank(w)
    ensures SplitAssignment(s).None? <==> SplitAssignment(s + w).None?
    ensures SplitAssignment(s).Some? ==>
      && SplitAssignment(s + w).value.0 == SplitAssignment(s).value.0
      && SplitAssignment(s + w).value.1 == SplitAssignment(s).value.1 + w
  {
    EqualsTail(Bare, s, w);
    var at := EqualsAt(Bare, s);
    if at.Some? {
      assert (s + w)[..at.value] == s[..at.value];
      assert (s + w)[at.value + 1..] == s[at.value + 1..] + w;
    }
  }

  lemma {:induction false} ContainsTail(s: string, m: string, w: string)
    requires Blank(w) && m != "" && forall i | 0 <= i < |m| :: !IsSpace(m[i])
    ensures Contains(s + w, m) == Contains(s, m)
    decreases |s|
  {
    if s == "" {
      assert s + w == w;
      NotInBlank(m, w);
    } else {
      assert (s + w)[1..] == s[1..] + w;
      ContainsTail(s[1..], m, w);
      assert |s| < |m| <= |s + w| ==> IsSpace((s + w)[|m| - 1]);
    }
  }

  lemma {:induction false} NotInBlank(m: string, w: string)
    requires Blank(w) && m != "" && forall i | 0 <= i < |m| :: !IsSpace(m[i])
    ensures !Contains(w, m)
    decreases |w|
  {
    if w != "" {
      assert IsSpace(w[0]) && !IsSpace(m[0]);
      NotInBlank(m, w[1..]);
    }
  }

  lemma TripleTail(s: string, w: string)
    requires Blank(w)
    ensures HasTriple(s + w) == HasTriple(s)
  {
    ContainsTail(s, TRIPLE_BASIC, w);
    ContainsTail(s, TRIPLE_LITERAL, w);
  }
}
