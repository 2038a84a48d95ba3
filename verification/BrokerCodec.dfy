/**
 A line encoding with the two properties the broker's proofs assume of canonical JSON:
 `Sound`, and `Carries`.  Every number is unary and every text a list of code points,
 except the one free text of the entry's own event, whose printable characters are raw.

 Each encoder writes its value in front of the rest `k` of the line.
 */
module BrokerCodec {
  import opened Wrappers
  import opened Ledger
  import opened LedgerText
  import opened BrokerEvents
  import opened Broker

  function Count(n: nat, k: string): string { if n == 0 then "." + k else "1" + Count(n - 1, k) }

  function Number(n: int, k: string): string { if n < 0 then "-" + Count(-n, k) else "+" + Count(n, k) }

  function Flag(b: bool, k: string): string { Count(if b then 1 else 0, k) }

  function Text(s: string, k: string): string {
    if s == "" then "." + k else "," + Count(s[0] as int, Text(s[1..], k))
  }

  function Raw(s: string, k: string): string {
    if s == "" then "." + k
    else if s[0] < ' ' then "," + Count(s[0] as int, Raw(s[1..], k))
    else "'" + ([s[0]] + Raw(s[1..], k))
  }

  function Free(s: string, raw: bool, k: string): string { if raw then Raw(s, k) else Text(s, k) }

  function Facts(v: Evidence, k: string): string {
    Number(v.commandOrdinal, Number(v.exitCode, Number(v.exit.of.0, Flag(v.exit.of.1, Flag(v.timedOut,
      Flag(v.truncated, Text(v.stdout, Text(v.stderr, Text(v.result, k)))))))))
  }

  function AllFacts(vs: seq<Evidence>, k: string): string {
    if vs == [] then "." + k else "," + Facts(vs[0], AllFacts(vs[1..], k))
  }

  /** The fields a tool start and a command have in common. */
  datatype Start = Start(binding: string, tool: string, ordinal: int, args: Sha<string>, env: Sha<string>, timeout: int)

  function StartOf(e: Event): Start
    requires e.ToolStart? || e.Command?
  {
    Start(e.binding, e.tool, e.ordinal, e.args, e.env, e.timeout)
  }

  function Opening(x: Start, k: string): string {
    Text(x.binding, Text(x.tool, Number(x.ordinal, Text(x.args.of, Text(x.env.of, Number(x.timeout, k))))))
  }

  function Outcome(e: Event, k: string): string
    requires e.ToolResult?
  {
    Text(e.binding, Text(e.tool, Number(e.ordinal, Flag(e.succeeded, Text(e.result.of, Number(e.commandCount,
      AllFacts(e.commands.of, k)))))))
  }

  function Tag(e: Event): char {
    match e
    case Foreign(_) => 'f'
    case Unsupported(_, _) => 'u'
    case ToolStart(_, _, _, _, _, _) => 's'
    case Command(_, _, _, _, _, _, _, _, _) => 'c'
    case ToolResult(_, _, _, _, _, _, _) => 'r'
  }

  function Fields(e: Event, raw: bool, k: string): string {
    match e
    case Foreign(text) => Free(text, raw, k)
    case Unsupported(binding, text) => Text(binding, Free(text, raw, k))
    case ToolStart(_, _, _, _, _, _) => Opening(StartOf(e), k)
    case Command(_, _, _, _, _, _, argv, cwd, evidence) =>
      Opening(StartOf(e), Text(argv.of, Free(cwd, raw, Facts(evidence, k))))
    case ToolResult(_, _, _, _, _, _, _) => Outcome(e, k)
  }

  function Told(e: Event, raw: bool, k: string): string { [Tag(e)] + Fields(e, raw, k) }

  function Linked(d: Digest<Event>, k: string): string
    decreases d
  {
    match d
    case Zero => "z" + k
    case OfEntry(body) => "o" + Held(body, false, k)
  }

  function Held(b: Body<Event>, raw: bool, k: string): string
    decreases b
  {
    Number(b.index, Number(b.recordedAt, Linked(b.previous, Told(b.event, raw, k))))
  }

  function Line(entry: Entry<Event>): string { Linked(entry.sha, Held(entry.body, true, "")) }

  // ------------------------------------------------------------- reading back

  /** Equal lines, or one the beginning of another, split at the same place. */
  lemma Peel(c: char, s: string, d: char, t: string, r: string)
    requires [c] + s == [d] + t + r
    ensures c == d && s == t + r
  {
    assert ([c] + s)[0] == c && ([d] + t + r)[0] == d;
    assert ([c] + s)[1..] == s && ([d] + t + r)[1..] == t + r;
  }

  lemma {:induction false} CountReads(n: nat, k: string, m: nat, l: string, r: string)
    requires Count(n, k) == Count(m, l) + r
    ensures n == m && k == l + r
    decreases n
  {
    if n == 0 && m == 0 {
      Peel('.', k, '.', l, r);
    } else if n == 0 {
      Peel('.', k, '1', Count(m - 1, l), r);
    } else if m == 0 {
      Peel('1', Count(n - 1, k), '.', l, r);
    } else {
      Peel('1', Count(n - 1, k), '1', Count(m - 1, l), r);
      CountReads(n - 1, k, m - 1, l, r);
    }
  }

  lemma NumberReads(n: int, k: string, m: int, l: string, r: string)
    requires Number(n, k) == Number(m, l) + r
    ensures n == m && k == l + r
  {
    var (a, b) := (if n < 0 then -n else n, if m < 0 then -m else m);
    Peel(if n < 0 then '-' else '+', Count(a, k), if m < 0 then '-' else '+', Count(b, l), r);
    CountReads(a, k, b, l, r);
  }

  lemma FlagReads(a: bool, k: string, b: bool, l: string, r: string)
    requires Flag(a, k) == Flag(b, l) + r
    ensures a == b && k == l + r
  {
    CountReads(if a then 1 else 0, k, if b then 1 else 0, l, r);
  }

  lemma {:induction false} TextReads(s: string, k: string, t: string, l: string, r: string)
    requires Text(s, k) == Text(t, l) + r
    ensures s == t && k == l + r
    decreases |s|
  {
    if s == "" || t == "" {
      Peel(if s == "" then '.' else ',', Text(s, k)[1..], if t == "" then '.' else ',', Text(t, l)[1..], r);
    } else {
      Peel(',', Count(s[0] as int, Text(s[1..], k)), ',', Count(t[0] as int, Text(t[1..], l)), r);
      CountReads(s[0] as int, Text(s[1..], k), t[0] as int, Text(t[1..], l), r);
      TextReads(s[1..], k, t[1..], l, r);
      assert s == [s[0]] + s[1..] && t == [t[0]] + t[1..];
    }
  }

  function RawMark(s: string): char { if s == "" then '.' else if s[0] < ' ' then ',' else '\'' }

  lemma {:induction false} RawReads(s: string, k: string, t: string, l: string, r: string)
    requires Raw(s, k) == Raw(t, l) + r
    ensures s == t && k == l + r
    decreases |s|
  {
    assert Raw(s, k) == [RawMark(s)] + Raw(s, k)[1..] && Raw(t, l) == [RawMark(t)] + Raw(t, l)[1..];
    Peel(RawMark(s), Raw(s, k)[1..], RawMark(t), Raw(t, l)[1..], r);
    if s != "" {
      if s[0] < ' ' {
        CountReads(s[0] as int, Raw(s[1..], k), t[0] as int, Raw(t[1..], l), r);
      } else {
        Peel(s[0], Raw(s[1..], k), t[0], Raw(t[1..], l), r);
      }
      RawReads(s[1..], k, t[1..], l, r);
      assert s == [s[0]] + s[1..] && t == [t[0]] + t[1..];
    }
  }

  lemma FreeReads(s: string, raw: bool, k: string, t: string, l: string, r: string)
    requires Free(s, raw, k) == Free(t, raw, l) + r
    ensures s == t && k == l + r
  {
    if raw { RawReads(s, k, t, l, r); } else { TextReads(s, k, t, l, r); }
  }

  lemma FactsReads(v: Evidence, k: string, w: Evidence, l: string, r: string)
    requires Facts(v, k) == Facts(w, l) + r
    ensures v == w && k == l + r
  {
    hide Count, Number, Flag, Text;
    var a, b := Text(v.result, k), Text(w.result, l);
    var a', b' := Text(v.stderr, a), Text(w.stderr, b);
    var c, d := Text(v.stdout, a'), Text(w.stdout, b');
    var c', d' := Flag(v.truncated, c), Flag(w.truncated, d);
    var e, f := Flag(v.timedOut, c'), Flag(w.timedOut, d');
    var e', f' := Flag(v.exit.of.1, e), Flag(w.exit.of.1, f);
    var g, h := Number(v.exit.of.0, e'), Number(w.exit.of.0, f');
    NumberReads(v.commandOrdinal, Number(v.exitCode, g), w.commandOrdinal, Number(w.exitCode, h), r);
    NumberReads(v.exitCode, g, w.exitCode, h, r);
    NumberReads(v.exit.of.0, e', w.exit.of.0, f', r);
    FlagReads(v.exit.of.1, e, w.exit.of.1, f, r);
    FlagReads(v.timedOut, c', w.timedOut, d', r);
    FlagReads(v.truncated, c, w.truncated, d, r);
    TextReads(v.stdout, a', w.stdout, b', r);
    TextReads(v.stderr, a, w.stderr, b, r);
    TextReads(v.result, k, w.result, l, r);
  }

  lemma {:induction false} AllFactsReads(vs: seq<Evidence>, k: string, ws: seq<Evidence>, l: string, r: string)
    requires AllFacts(vs, k) == AllFacts(ws, l) + r
    ensures vs == ws && k == l + r
    decreases |vs|
  {
    hide Facts;
    if vs == [] || ws == [] {
      Peel(if vs == [] then '.' else ',', AllFacts(vs, k)[1..], if ws == [] then '.' else ',', AllFacts(ws, l)[1..], r);
    } else {
      Peel(',', Facts(vs[0], AllFacts(vs[1..], k)), ',', Facts(ws[0], AllFacts(ws[1..], l)), r);
      FactsReads(vs[0], AllFacts(vs[1..], k), ws[0], AllFacts(ws[1..], l), r);
      AllFactsReads(vs[1..], k, ws[1..], l, r);
      assert vs == [vs[0]] + vs[1..] && ws == [ws[0]] + ws[1..];
    }
  }

  lemma OpeningReads(x: Start, k: string, y: Start, l: string, r: string)
    requires Opening(x, k) == Opening(y, l) + r
    ensures x == y && k == l + r
  {
    hide Number, Text;
    var a, b := Number(x.timeout, k), Number(y.timeout, l);
    var a', b' := Text(x.env.of, a), Text(y.env.of, b);
    var c, d := Text(x.args.of, a'), Text(y.args.of, b');
    var c', d' := Number(x.ordinal, c), Number(y.ordinal, d);
    TextReads(x.binding, Text(x.tool, c'), y.binding, Text(y.tool, d'), r);
    TextReads(x.tool, c', y.tool, d', r);
    NumberReads(x.ordinal, c, y.ordinal, d, r);
    TextReads(x.args.of, a', y.args.of, b', r);
    TextReads(x.env.of, a, y.env.of, b, r);
    NumberReads(x.timeout, k, y.timeout, l, r);
  }

  lemma ToldReads(x: Event, raw: bool, k: string, y: Event, l: string, r: string)
    requires Told(x, raw, k) == Told(y, raw, l) + r
    ensures x == y && k == l + r
  {
    hide Number, Flag, Text, Free, Facts, AllFacts, Opening;
    Peel(Tag(x), Fields(x, raw, k), Tag(y), Fields(y, raw, l), r);
    match x
    case Foreign(text) => FreeReads(text, raw, k, y.text, l, r);
    case Unsupported(binding, text) =>
      TextReads(binding, Free(text, raw, k), y.binding, Free(y.text, raw, l), r);
      FreeReads(text, raw, k, y.text, l, r);
    case ToolStart(_, _, _, _, _, _) => OpeningReads(StartOf(x), k, StartOf(y), l, r);
    case Command(_, _, _, _, _, _, argv, cwd, evidence) =>
      var a, b := Facts(evidence, k), Facts(y.evidence, l);
      OpeningReads(StartOf(x), Text(argv.of, Free(cwd, raw, a)), StartOf(y), Text(y.argv.of, Free(y.cwd, raw, b)), r);
      TextReads(argv.of, Free(cwd, raw, a), y.argv.of, Free(y.cwd, raw, b), r);
      FreeReads(cwd, raw, a, y.cwd, b, r);
      FactsReads(evidence, k, y.evidence, l, r);
    case ToolResult(_, _, _, _, _, _, _) => ResultReads(x, k, y, l, r);
  }

  lemma ResultReads(x: Event, k: string, y: Event, l: string, r: string)
    requires x.ToolResult? && y.ToolResult? && Outcome(x, k) == Outcome(y, l) + r
    ensures x == y && k == l + r
  {
    hide Number, Flag, Text, AllFacts;
    var a, b := AllFacts(x.commands.of, k), AllFacts(y.commands.of, l);
    var a', b' := Number(x.commandCount, a), Number(y.commandCount, b);
    var c, d := Text(x.result.of, a'), Text(y.result.of, b');
    var c', d' := Flag(x.succeeded, c), Flag(y.succeeded, d);
    var e, f := Number(x.ordinal, c'), Number(y.ordinal, d');
    TextReads(x.binding, Text(x.tool, e), y.binding, Text(y.tool, f), r);
    TextReads(x.tool, e, y.tool, f, r);
    NumberReads(x.ordinal, c', y.ordinal, d', r);
    FlagReads(x.succeeded, c, y.succeeded, d, r);
    TextReads(x.result.of, a', y.result.of, b', r);
    NumberReads(x.commandCount, a, y.commandCount, b, r);
    AllFactsReads(x.commands.of, k, y.commands.of, l, r);
  }

  lemma {:induction false} LinkedReads(x: Digest<Event>, k: string, y: Digest<Event>, l: string, r: string)
    requires Linked(x, k) == Linked(y, l) + r
    ensures x == y && k == l + r
    decreases x
  {
    hide Held;
    if x.Zero? || y.Zero? {
      Peel(if x.Zero? then 'z' else 'o', Linked(x, k)[1..], if y.Zero? then 'z' else 'o', Linked(y, l)[1..], r);
    } else {
      Peel('o', Held(x.body, false, k), 'o', Held(y.body, false, l), r);
      HeldReads(x.body, false, k, y.body, l, r);
    }
  }

  lemma {:induction false} HeldReads(x: Body<Event>, raw: bool, k: string, y: Body<Event>, l: string, r: string)
    requires Held(x, raw, k) == Held(y, raw, l) + r
    ensures x == y && k == l + r
    decreases x
  {
    hide Number, Linked, Told;
    var a, b := Told(x.event, raw, k), Told(y.event, raw, l);
    var c, d := Linked(x.previous, a), Linked(y.previous, b);
    NumberReads(x.index, Number(x.recordedAt, c), y.index, Number(y.recordedAt, d), r);
    NumberReads(x.recordedAt, c, y.recordedAt, d, r);
    LinkedReads(x.previous, a, y.previous, b, r);
    ToldReads(x.event, raw, k, y.event, l, r);
  }

  /** A line is no other entry's, nor the beginning of another's. */
  lemma LineReads(x: Entry<Event>, y: Entry<Event>, r: string)
    requires Line(x) == Line(y) + r
    ensures x == y && r == ""
  {
    hide Linked, Held;
    LinkedReads(x.sha, Held(x.body, true, ""), y.sha, Held(y.body, true, ""), r);
    HeldReads(x.body, true, "", y.body, "", r);
  }

  // ------------------------------------------------------------ what is in a line

  ghost predicate All(ok: char -> bool, s: string) {
    forall i | 0 <= i < |s| :: ok(s[i])
  }

  /** The printable ASCII characters are among these. */
  ghost predicate Plain(ok: char -> bool) {
    forall c | ' ' <= c <= '~' :: ok(c)
  }

  /** The characters a raw text brings into its line. */
  ghost predicate Printed(ok: char -> bool, s: string) {
    forall i | 0 <= i < |s| && ' ' <= s[i] :: ok(s[i])
  }

  lemma AllCons(ok: char -> bool, c: char, s: string)
    ensures All(ok, [c] + s) <==> ok(c) && All(ok, s)
  {
    assert ([c] + s)[0] == c;
    assert forall i | 0 <= i < |s| :: ([c] + s)[i + 1] == s[i];
  }

  lemma {:induction false} CountHolds(ok: char -> bool, n: nat, k: string)
    requires Plain(ok)
    ensures All(ok, Count(n, k)) <==> All(ok, k)
    decreases n
  {
    if n == 0 {
      AllCons(ok, '.', k);
    } else {
      AllCons(ok, '1', Count(n - 1, k));
      CountHolds(ok, n - 1, k);
    }
  }

  lemma NumberHolds(ok: char -> bool, n: int, k: string)
    requires Plain(ok)
    ensures All(ok, Number(n, k)) <==> All(ok, k)
  {
    var m := if n < 0 then -n else n;
    AllCons(ok, if n < 0 then '-' else '+', Count(m, k));
    CountHolds(ok, m, k);
  }

  lemma FlagHolds(ok: char -> bool, b: bool, k: string)
    requires Plain(ok)
    ensures All(ok, Flag(b, k)) <==> All(ok, k)
  {
    CountHolds(ok, if b then 1 else 0, k);
  }

  lemma {:induction false} TextHolds(ok: char -> bool, s: string, k: string)
    requires Plain(ok)
    ensures All(ok, Text(s, k)) <==> All(ok, k)
    decreases |s|
  {
    if s == "" {
      AllCons(ok, '.', k);
    } else {
      AllCons(ok, ',', Count(s[0] as int, Text(s[1..], k)));
      CountHolds(ok, s[0] as int, Text(s[1..], k));
      TextHolds(ok, s[1..], k);
    }
  }

  lemma {:induction false} RawHolds(ok: char -> bool, s: string, k: string)
    requires Plain(ok)
    ensures All(ok, Raw(s, k)) <==> Printed(ok, s) && All(ok, k)
    decreases |s|
  {
    if s == "" {
      AllCons(ok, '.', k);
    } else {
      var rest := Raw(s[1..], k);
      RawHolds(ok, s[1..], k);
      assert Printed(ok, s) <==> (' ' <= s[0] ==> ok(s[0])) && Printed(ok, s[1..]) by {
        assert forall i | 0 <= i < |s| - 1 :: s[1..][i] == s[i + 1];
      }
      if s[0] < ' ' {
        AllCons(ok, ',', Count(s[0] as int, rest));
        CountHolds(ok, s[0] as int, rest);
      } else {
        AllCons(ok, '\'', [s[0]] + rest);
        AllCons(ok, s[0], rest);
      }
    }
  }

  lemma FreeHolds(ok: char -> bool, s: string, raw: bool, k: string)
    requires Plain(ok)
    ensures All(ok, Free(s, raw, k)) <==> (raw ==> Printed(ok, s)) && All(ok, k)
  {
    if raw { RawHolds(ok, s, k); } else { TextHolds(ok, s, k); }
  }

  lemma FactsHold(ok: char -> bool, v: Evidence, k: string)
    requires Plain(ok)
    ensures All(ok, Facts(v, k)) <==> All(ok, k)
  {
    hide Number, Flag, Text, All, Plain;
    var a := Text(v.result, k);
    var b := Text(v.stderr, a);
    var c := Text(v.stdout, b);
    var d := Flag(v.truncated, c);
    var e := Flag(v.timedOut, d);
    var f := Flag(v.exit.of.1, e);
    var g := Number(v.exit.of.0, f);
    NumberHolds(ok, v.commandOrdinal, Number(v.exitCode, g));
    NumberHolds(ok, v.exitCode, g);
    NumberHolds(ok, v.exit.of.0, f);
    FlagHolds(ok, v.exit.of.1, e);
    FlagHolds(ok, v.timedOut, d);
    FlagHolds(ok, v.truncated, c);
    TextHolds(ok, v.stdout, b);
    TextHolds(ok, v.stderr, a);
    TextHolds(ok, v.result, k);
  }

  lemma {:induction false} AllFactsHold(ok: char -> bool, vs: seq<Evidence>, k: string)
    requires Plain(ok)
    ensures All(ok, AllFacts(vs, k)) <==> All(ok, k)
    decreases |vs|
  {
    hide Facts;
    if vs == [] {
      AllCons(ok, '.', k);
    } else {
      AllCons(ok, ',', Facts(vs[0], AllFacts(vs[1..], k)));
      FactsHold(ok, vs[0], AllFacts(vs[1..], k));
      AllFactsHold(ok, vs[1..], k);
    }
  }

  lemma OpeningHolds(ok: char -> bool, x: Start, k: string)
    requires Plain(ok)
    ensures All(ok, Opening(x, k)) <==> All(ok, k)
  {
    hide Number, Text, All, Plain;
    var a := Number(x.timeout, k);
    var b := Text(x.env.of, a);
    var c := Text(x.args.of, b);
    var d := Number(x.ordinal, c);
    TextHolds(ok, x.binding, Text(x.tool, d));
    TextHolds(ok, x.tool, d);
    NumberHolds(ok, x.ordinal, c);
    TextHolds(ok, x.args.of, b);
    TextHolds(ok, x.env.of, a);
    NumberHolds(ok, x.timeout, k);
  }

  lemma ResultHolds(ok: char -> bool, e: Event, k: string)
    requires Plain(ok) && e.ToolResult?
    ensures All(ok, Outcome(e, k)) <==> All(ok, k)
  {
    hide Number, Flag, Text, AllFacts, All, Plain;
    var a := AllFacts(e.commands.of, k);
    var b := Number(e.commandCount, a);
    var c := Text(e.result.of, b);
    var d := Flag(e.succeeded, c);
    var f := Number(e.ordinal, d);
    TextHolds(ok, e.binding, Text(e.tool, f));
    TextHolds(ok, e.tool, f);
    NumberHolds(ok, e.ordinal, d);
    FlagHolds(ok, e.succeeded, c);
    TextHolds(ok, e.result.of, b);
    NumberHolds(ok, e.commandCount, a);
    AllFactsHold(ok, e.commands.of, k);
  }

  lemma ToldHolds(ok: char -> bool, e: Event, raw: bool, k: string)
    requires Plain(ok)
    ensures All(ok, Told(e, raw, k)) <==> (raw ==> Printed(ok, FreeText(e))) && All(ok, k)
  {
    hide Number, Flag, Text, Free, Facts, AllFacts, Opening, Outcome, All;
    AllCons(ok, Tag(e), Fields(e, raw, k));
    match e
    case Foreign(text) => FreeHolds(ok, text, raw, k);
    case Unsupported(binding, text) =>
      TextHolds(ok, binding, Free(text, raw, k));
      FreeHolds(ok, text, raw, k);
    case ToolStart(_, _, _, _, _, _) => OpeningHolds(ok, StartOf(e), k);
    case Command(_, _, _, _, _, _, argv, cwd, evidence) =>
      var a := Facts(evidence, k);
      OpeningHolds(ok, StartOf(e), Text(argv.of, Free(cwd, raw, a)));
      TextHolds(ok, argv.of, Free(cwd, raw, a));
      FreeHolds(ok, cwd, raw, a);
      FactsHold(ok, evidence, k);
    case ToolResult(_, _, _, _, _, _, _) => ResultHolds(ok, e, k);
  }

  lemma {:induction false} LinkedHolds(ok: char -> bool, d: Digest<Event>, k: string)
    requires Plain(ok)
    ensures All(ok, Linked(d, k)) <==> All(ok, k)
    decreases d
  {
    hide Held, All;
    match d
    case Zero => AllCons(ok, 'z', k);
    case OfEntry(body) =>
      AllCons(ok, 'o', Held(body, false, k));
      HeldHolds(ok, body, false, k);
  }

  lemma {:induction false} HeldHolds(ok: char -> bool, b: Body<Event>, raw: bool, k: string)
    requires Plain(ok)
    ensures All(ok, Held(b, raw, k)) <==> (raw ==> Printed(ok, FreeText(b.event))) && All(ok, k)
    decreases b
  {
    hide Number, Linked, Told, All, Plain, Printed;
    var a := Told(b.event, raw, k);
    var c := Linked(b.previous, a);
    NumberHolds(ok, b.index, Number(b.recordedAt, c));
    NumberHolds(ok, b.recordedAt, c);
    LinkedHolds(ok, b.previous, a);
    ToldHolds(ok, b.event, raw, k);
  }

  lemma LineHolds(ok: char -> bool, entry: Entry<Event>)
    requires Plain(ok)
    ensures All(ok, Line(entry)) <==> Printed(ok, FreeText(entry.Event()))
  {
    hide Linked, Held, Printed;
    LinkedHolds(ok, entry.sha, Held(entry.body, true, ""));
    HeldHolds(ok, entry.body, true, "");
  }

  // ------------------------------------------------------------------- the codec

  ghost function Decoded(s: string): Option<Entry<Event>> {
    if exists e :: Line(e) == s then
      var e :| Line(e) == s;
      Some(e)
    else None
  }

  /** An encoding with both properties exists, so the broker's contracts speak of something. */
  lemma CodecExists() returns (codec: Codec<Event>)
    ensures Sound(codec) && Carries(codec)
  {
    hide Line;
    codec := Codec((e: Entry<Event>) => Line(e), (s: string) => Decoded(s));
    forall e: Entry<Event>
      ensures Decoded(Line(e)) == Some(e)
    {
      LineDecodes(e);
    }
    forall e: Entry<Event>, n: nat | n < |Line(e)|
      ensures Decoded(Line(e)[..n]) == None
    {
      PrefixDecodesNot(e, n);
    }
    forall e: Entry<Event>
      ensures All(Visible, Line(e)) && (Unbroken(Line(e)) <==> Unbroken(FreeText(e.Event())))
    {
      LineHolds(Visible, e);
      LineHolds(NoSeparator, e);
    }
  }

  predicate Visible(c: char) { ' ' <= c }

  predicate NoSeparator(c: char) { !RawSeparator(c) }

  lemma LineDecodes(e: Entry<Event>)
    ensures Decoded(Line(e)) == Some(e)
  {
    hide Line;
    var d := Decoded(Line(e)).value;
    assert Line(d) + "" == Line(d);
    LineReads(e, d, "");
  }

  lemma PrefixDecodesNot(e: Entry<Event>, n: nat)
    requires n < |Line(e)|
    ensures Decoded(Line(e)[..n]) == None
  {
    hide Line;
    if Decoded(Line(e)[..n]).Some? {
      var d := Decoded(Line(e)[..n]).value;
      assert Line(e) == Line(d) + Line(e)[n..];
      LineReads(e, d, Line(e)[n..]);
      assert false;
    }
  }
}
