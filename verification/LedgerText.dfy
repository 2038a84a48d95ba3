/**
 The ledger as a text file: one JSON line per entry, read back with Python's
 `str.splitlines`.  The JSON codec is a parameter; `Sound` records what canonical
 JSON provides.
 */
module LedgerText {
  import opened Wrappers
  import opened Ledger

  const MAX_LEDGER_BYTES := 100_000_000

  /** UTF-8 width of one code point. */
  function Width(c: char): nat {
    if c <= '\U{7F}' then 1 else if c <= '\U{7FF}' then 2 else if c <= '\U{FFFF}' then 3 else 4
  }

  function Bytes(s: string): nat {
    if s == "" then 0 else Bytes(s[..|s| - 1]) + Width(s[|s| - 1])
  }

  lemma {:induction false} BytesAdd(a: string, b: string)
    ensures Bytes(a + b) == Bytes(a) + Bytes(b)
    decreases |b|
  {
    if b == "" {
      assert a + b == a;
    } else {
      var n := |b| - 1;
      assert (a + b)[..|a + b| - 1] == a + b[..n];
      BytesAdd(a, b[..n]);
    }
  }

  /** The separators JSON leaves raw when non-ASCII output is enabled. */
  predicate RawSeparator(c: char) {
    c == '\U{85}' || c == '\U{2028}' || c == '\U{2029}'
  }

  /** Every character on which `str.splitlines` ends a line. */
  predicate LineBreak(c: char) {
    || ('\U{0A}' <= c <= '\U{0D}')
    || ('\U{1C}' <= c <= '\U{1E}')
    || RawSeparator(c)
  }

  function FirstBreak(s: string): (k: nat)
    ensures k <= |s|
    ensures forall i | 0 <= i < k :: !LineBreak(s[i])
    ensures k < |s| ==> LineBreak(s[k])
  {
    if s == "" || LineBreak(s[0]) then 0 else 1 + FirstBreak(s[1..])
  }

  lemma FirstBreakUnique(s: string, k: nat)
    requires k <= |s|
    requires forall i | 0 <= i < k :: !LineBreak(s[i])
    requires k < |s| ==> LineBreak(s[k])
    ensures FirstBreak(s) == k
  {
  }

  function BreakWidth(s: string, k: nat): (w: nat)
    requires k < |s|
    ensures 1 <= w && k + w <= |s|
  {
    if s[k] == '\r' && k + 1 < |s| && s[k + 1] == '\n' then 2 else 1
  }

  function SplitLines(s: string): seq<string>
    decreases |s|
  {
    if s == "" then []
    else
      var k := FirstBreak(s);
      if k == |s| then [s] else [s[..k]] + SplitLines(s[k + BreakWidth(s, k)..])
  }

  predicate Terminated(s: string) {
    s == "" || s[|s| - 1] == '\n'
  }

  /** One step of the split, at a known first break. */
  lemma SplitStep(s: string, k: nat)
    requires k < |s| && LineBreak(s[k])
    requires forall i | 0 <= i < k :: !LineBreak(s[i])
    ensures SplitLines(s) == [s[..k]] + SplitLines(s[k + BreakWidth(s, k)..])
  {
    FirstBreakUnique(s, k);
  }

  /** Text after a newline splits on its own. */
  lemma {:induction false} SplitAfterNewline(a: string, b: string)
    requires Terminated(a)
    ensures SplitLines(a + b) == SplitLines(a) + SplitLines(b)
    decreases |a|
  {
    if a == "" {
      assert a + b == b;
    } else {
      var k, w := FirstBreakIn(a, b);
      var rest := a[k + w..];
      assert (a + b)[..k] == a[..k] && (a + b)[k + w..] == rest + b;
      SplitStep(a + b, k);
      SplitStep(a, k);
      SplitAfterNewline(rest, b);
      Concat3([a[..k]], SplitLines(rest), SplitLines(b));
    }
  }

  lemma Concat3<T>(x: seq<T>, y: seq<T>, z: seq<T>)
    ensures x + (y + z) == x + y + z
  {
  }

  /** The first break of terminated text, and its width, ignore what follows. */
  lemma FirstBreakIn(a: string, b: string) returns (k: nat, w: nat)
    requires a != "" && Terminated(a)
    ensures k < |a| && LineBreak(a[k]) && (forall i | 0 <= i < k :: !LineBreak(a[i]))
    ensures LineBreak((a + b)[k]) && (forall i | 0 <= i < k :: !LineBreak((a + b)[i]))
    ensures w == BreakWidth(a, k) == BreakWidth(a + b, k)
    ensures Terminated(a[k + w..])
  {
    k := FirstBreak(a);
    assert LineBreak(a[|a| - 1]);
    w := BreakWidth(a, k);
    if a[k] == '\r' { assert k + 1 < |a|; }
  }

  datatype Codec<!E> = Codec(encode: Entry<E> -> string, decode: string -> Option<Entry<E>>)

  ghost predicate Unbroken(s: string) {
    forall i | 0 <= i < |s| :: !RawSeparator(s[i])
  }

  /** Canonical JSON: decoding inverts encoding, no proper prefix of an object is a
      document, and control characters are escaped. */
  ghost predicate Sound<E(!new)>(codec: Codec<E>) {
    && (forall e :: codec.decode(codec.encode(e)) == Some(e))
    && (forall e, k: nat | k < |codec.encode(e)| :: codec.decode(codec.encode(e)[..k]) == None)
    && (forall e, i: nat | i < |codec.encode(e)| :: ' ' <= codec.encode(e)[i])
  }

  /** Decoding every line, or nothing. */
  function DecodeLines<E>(codec: Codec<E>, lines: seq<string>): Option<seq<Entry<E>>> {
    if lines == [] then Some([])
    else
      match (DecodeLines(codec, lines[..|lines| - 1]), codec.decode(lines[|lines| - 1]))
      case (Some(front), Some(last)) => Some(front + [last])
      case _ => None
  }

  lemma {:induction false} DecodeFailsAt<E>(codec: Codec<E>, lines: seq<string>, i: nat)
    requires i < |lines| && codec.decode(lines[i]) == None
    ensures DecodeLines(codec, lines) == None
    decreases |lines|
  {
    if i < |lines| - 1 {
      DecodeFailsAt(codec, lines[..|lines| - 1], i);
    }
  }

  /** `_validate_ledger_bytes` on the text of a file. */
  ghost function Parse<E>(codec: Codec<E>, raw: string): Option<seq<Entry<E>>> {
    if Bytes(raw) > MAX_LEDGER_BYTES || !Terminated(raw) then None
    else
      var entries := DecodeLines(codec, SplitLines(raw));
      if entries.Some? && ValidLedger(entries.value) then entries else None
  }

  lemma DecodeSnoc<E>(codec: Codec<E>, lines: seq<string>, line: string)
    ensures DecodeLines(codec, lines + [line])
         == match (DecodeLines(codec, lines), codec.decode(line))
            case (Some(front), Some(last)) => Some(front + [last])
            case _ => None
  {
    assert (lines + [line])[..|lines|] == lines;
  }

  /** A terminated line with a raw separator in it decodes to nothing at its first piece. */
  lemma BrokenLineFails<E(!new)>(codec: Codec<E>, lines: seq<string>, entry: Entry<E>)
    requires Sound(codec) && !Unbroken(codec.encode(entry))
    ensures DecodeLines(codec, lines + SplitLines(codec.encode(entry) + "\n")) == None
  {
    var line := codec.encode(entry);
    var text := line + "\n";
    var bad :| 0 <= bad < |line| && RawSeparator(line[bad]);
    assert LineBreak(text[bad]);
    var k: nat := FirstBreak(text);
    assert k <= bad;
    SplitStep(text, k);
    assert SplitLines(text)[0] == text[..k] == line[..k];
    var all := lines + SplitLines(text);
    assert all[|lines|] == line[..k];
    assert codec.decode(codec.encode(entry)[..k]) == None;
    DecodeFailsAt(codec, all, |lines|);
  }

  lemma UnbrokenLineSplits<E(!new)>(codec: Codec<E>, entry: Entry<E>)
    requires Sound(codec) && Unbroken(codec.encode(entry))
    ensures SplitLines(codec.encode(entry) + "\n") == [codec.encode(entry)]
  {
    var line := codec.encode(entry);
    var text := line + "\n";
    forall i | 0 <= i < |line|
      ensures !LineBreak(text[i])
    {
      assert ' ' <= codec.encode(entry)[i];
    }
    SplitStep(text, |line|);
    assert text[..|line|] == line && text[|line| + 1..] == "";
  }

  /** Reading back one appended line: the old entries and exactly the new one, if
      and only if the encoding holds no raw separator and the grown file fits the cap. */
  lemma AppendReadsBack<E(!new)>(codec: Codec<E>, raw: string, entries: seq<Entry<E>>, event: E, now: int)
    requires Sound(codec)
    requires Parse(codec, raw) == Some(entries)
    ensures
      var entry := NextEntry(entries, event, now);
      var line := codec.encode(entry);
      Parse(codec, raw + line + "\n")
      == if Unbroken(line) && Bytes(raw) + Bytes(line) + 1 <= MAX_LEDGER_BYTES
         then Some(entries + [entry]) else None
  {
    var entry := NextEntry(entries, event, now);
    var line := codec.encode(entry);
    assert raw + line + "\n" == raw + (line + "\n");
    assert Bytes(raw + line + "\n") == Bytes(raw) + Bytes(line) + 1 by {
      BytesAdd(raw + line, "\n");
      BytesAdd(raw, line);
      assert Bytes("\n") == Bytes("") + 1;
    }
    SplitAfterNewline(raw, line + "\n");
    var lines := SplitLines(raw);
    if Unbroken(line) {
      UnbrokenLineSplits(codec, entry);
      DecodeSnoc(codec, lines, line);
      AppendValid(entries, event, now);
    } else {
      BrokenLineFails(codec, lines, entry);
    }
  }

  /** The file `append_ledger_event` grows in place. */
  class LedgerFile<E(==,!new)> {
    const codec: Codec<E>
    var raw: string

    constructor (codec: Codec<E>)
      ensures this.codec == codec && raw == ""
    {
      this.codec := codec;
      raw := "";
    }

    /** The validation every reader runs. */
    method Read() returns (r: Result<seq<Entry<E>>, LedgerError>)
      ensures r.Success? <==> Parse(codec, raw).Some?
      ensures r.Success? ==> Parse(codec, raw) == Some(r.value)
    {
      var size := MeasureBytes(raw);
      if size > MAX_LEDGER_BYTES || !Terminated(raw) { return Failure(BadLedger); }
      var lines := SplitLines(raw);
      var entries: seq<Entry<E>> := [];
      for index := 0 to |lines|
        invariant DecodeLines(codec, lines[..index]) == Some(entries)
      {
        var value := codec.decode(lines[index]);
        assert lines[..index + 1][..index] == lines[..index];
        if value.None? {
          DecodeFailsAt(codec, lines, index);
          return Failure(BadLedger);
        }
        entries := entries + [value.value];
      }
      assert lines[..|lines|] == lines;
      var ok := ValidateEntries(entries);
      if !ok { return Failure(BadLedger); }
      return Success(entries);
    }

    static method MeasureBytes(s: string) returns (n: nat)
      ensures n == Bytes(s)
    {
      n := 0;
      for i := 0 to |s|
        invariant n == Bytes(s[..i])
      {
        n := n + Width(s[i]);
        assert s[..i + 1][..i] == s[..i];
      }
      assert s[..|s|] == s;
    }

    /** Appending never rewrites an earlier byte; what the next reader sees is exact. */
    method Append(event: E, now: int) returns (r: Result<Entry<E>, LedgerError>)
      modifies this
      ensures r.Success? <==> old(Parse(codec, raw)).Some?
      ensures r.Failure? ==> raw == old(raw)
      ensures r.Success? ==>
        && r.value == NextEntry(old(Parse(codec, raw)).value, event, now)
        && raw == old(raw) + codec.encode(r.value) + "\n"
      ensures r.Success? && Sound(codec) ==>
        Parse(codec, raw)
        == if Unbroken(codec.encode(r.value))
              && Bytes(old(raw)) + Bytes(codec.encode(r.value)) + 1 <= MAX_LEDGER_BYTES
           then Some(old(Parse(codec, raw)).value + [r.value]) else None
    {
      var entries :- Read();
      var entry := NextEntry(entries, event, now);
      ghost var before := raw;
      raw := raw + codec.encode(entry) + "\n";
      if Sound(codec) { AppendReadsBack(codec, before, entries, event, now); }
      return Success(entry);
    }
  }
}
