/**
 The hash-chained ledger and its external anchor (tools/proof_plane/common.py).

 Digests are free constructors: injective, and never the zero digest.  Entries
 carry the digest they claim, so a tampered file is a value of the same type.
 */
module Ledger {
  import opened Wrappers

  datatype Digest<+E> = Zero | OfEntry(body: Body<E>)

  datatype Body<+E> = Body(index: int, recordedAt: int, previous: Digest<E>, event: E)

  datatype Entry<+E> = Entry(body: Body<E>, sha: Digest<E>) {
    function Event(): E { body.event }
  }

  datatype AnchorDigest<+E> = NoAnchor | OfAnchor(body: AnchorBody<E>)

  datatype AnchorBody<+E> =
    AnchorBody(revision: int, count: int, head: Digest<E>, previous: AnchorDigest<E>, recordedAt: int)

  datatype Anchor<+E> = Anchor(body: AnchorBody<E>, sha: AnchorDigest<E>)

  datatype LedgerError = BadLedger | BadAnchor | AnchorMoved | NothingNew | PrefixLost

  /** The digest the next entry must name. */
  function Head<E>(entries: seq<Entry<E>>): Digest<E> {
    if entries == [] then Zero else entries[|entries| - 1].sha
  }

  ghost predicate ValidAt<E>(entries: seq<Entry<E>>, i: nat)
    requires i < |entries|
  {
    && entries[i].body.index == i
    && entries[i].body.previous == Head(entries[..i])
    && entries[i].sha == OfEntry(entries[i].body)
  }

  ghost predicate ValidLedger<E>(entries: seq<Entry<E>>) {
    forall i | 0 <= i < |entries| :: ValidAt(entries, i)
  }

  /** The validation loop: indices, links and digests, front to back. */
  method ValidateEntries<E(==)>(lines: seq<Entry<E>>) returns (ok: bool)
    ensures ok <==> ValidLedger(lines)
  {
    var previous: Digest<E> := Zero;
    for index := 0 to |lines|
      invariant previous == Head(lines[..index])
      invariant forall i | 0 <= i < index :: ValidAt(lines, i)
    {
      var value := lines[index];
      if value.body.index != index || value.body.previous != previous || value.sha != OfEntry(value.body) {
        assert !ValidAt(lines, index);
        return false;
      }
      assert ValidAt(lines, index);
      previous := value.sha;
      assert lines[..index + 1][|lines[..index + 1]| - 1] == value;
    }
    return true;
  }

  /** The entry an append writes after `entries`. */
  function NextEntry<E>(entries: seq<Entry<E>>, event: E, now: int): Entry<E> {
    var index := if entries == [] then 0 else entries[|entries| - 1].body.index + 1;
    var body := Body(index, now, Head(entries), event);
    Entry(body, OfEntry(body))
  }

  lemma PrefixValid<E>(entries: seq<Entry<E>>, n: nat)
    requires ValidLedger(entries) && n <= |entries|
    ensures ValidLedger(entries[..n])
  {
    forall i | 0 <= i < n
      ensures ValidAt(entries[..n], i)
    {
      assert ValidAt(entries, i);
      assert entries[..n][..i] == entries[..i];
    }
  }

  lemma AppendValid<E>(entries: seq<Entry<E>>, event: E, now: int)
    requires ValidLedger(entries)
    ensures ValidLedger(entries + [NextEntry(entries, event, now)])
  {
    var grown := entries + [NextEntry(entries, event, now)];
    if entries != [] { assert ValidAt(entries, |entries| - 1); }
    forall i | 0 <= i < |grown|
      ensures ValidAt(grown, i)
    {
      assert grown[..i] == entries[..i];
      if i < |entries| { assert ValidAt(entries, i); } else { assert grown[..i] == entries; }
    }
  }

  /** One head digest names one ledger: the chain cannot fork below a head. */
  lemma {:induction false} HeadDeterminesLedger<E>(a: seq<Entry<E>>, b: seq<Entry<E>>)
    requires ValidLedger(a) && ValidLedger(b)
    requires Head(a) == Head(b)
    ensures a == b
    decreases |a|
  {
    if a != [] { assert ValidAt(a, |a| - 1); }
    if b != [] { assert ValidAt(b, |b| - 1); }
    if a == [] || b == [] {
      assert a == [] && b == [];
    } else {
      var m, n := |a| - 1, |b| - 1;
      assert a[m] == b[n];
      PrefixValid(a, m);
      PrefixValid(b, n);
      HeadDeterminesLedger(a[..m], b[..n]);
      assert a == a[..m] + [a[m]] && b == b[..n] + [b[n]];
    }
  }

  // ----------------------------------------------------------------- anchors

  predicate ValidAnchor<E(==)>(a: Anchor<E>) {
    && a.body.revision >= 0
    && a.body.count >= 0
    && a.sha == OfAnchor(a.body)
    && (a.body.count == 0 <==> a.body.head == Zero)
    && (a.body.revision == 0 <==> a.body.previous == NoAnchor)
  }

  function NewAnchor<E>(entries: seq<Entry<E>>, revision: int, previous: AnchorDigest<E>, now: int): Anchor<E> {
    var body := AnchorBody(revision, |entries|, Head(entries), previous, now);
    Anchor(body, OfAnchor(body))
  }

  /** The anchor records exactly this ledger. */
  ghost predicate Anchors<E>(a: Anchor<E>, entries: seq<Entry<E>>) {
    && ValidAnchor(a)
    && ValidLedger(entries)
    && a.body.count == |entries|
    && a.body.head == Head(entries)
  }

  /** The first anchor, for a ledger whose state the caller may pin. */
  method CreateLedgerAnchor<E(==)>(entries: seq<Entry<E>>, expected: Option<(int, Digest<E>)>, now: int)
    returns (r: Result<Anchor<E>, LedgerError>)
    ensures r.Success? <==>
      ValidLedger(entries) && (expected.Some? ==> expected.value == (|entries|, Head(entries)))
    ensures r.Success? ==>
      Anchors(r.value, entries) && r.value.body.revision == 0 && r.value.body.recordedAt == now
    ensures r.Success? ==> r.value == NewAnchor(entries, 0, NoAnchor, now)
  {
    var ok := ValidateEntries(entries);
    if !ok { return Failure(BadLedger); }
    if expected.Some? && expected.value != (|entries|, Head(entries)) { return Failure(AnchorMoved); }
    if entries != [] { assert ValidAt(entries, |entries| - 1); }
    return Success(NewAnchor(entries, 0, NoAnchor, now));
  }

  /** What the compare-and-swap demands before it replaces the anchor. */
  ghost predicate MayAdvance<E>(current: Anchor<E>, entries: seq<Entry<E>>) {
    && ValidAnchor(current)
    && ValidLedger(entries)
    && current.body.count < |entries|
    && Head(entries[..current.body.count]) == current.body.head
  }

  function Advanced<E>(current: Anchor<E>, entries: seq<Entry<E>>, now: int): Anchor<E> {
    NewAnchor(entries, current.body.revision + 1, current.sha, now)
  }

  method AdvanceLedgerAnchor<E(==)>(
      current: Anchor<E>, entries: seq<Entry<E>>,
      expectedCount: int, expectedHead: Digest<E>, expectedSha: AnchorDigest<E>, now: int)
    returns (r: Result<Anchor<E>, LedgerError>)
    ensures r.Success? <==>
      MayAdvance(current, entries)
      && (expectedCount, expectedHead, expectedSha) == (current.body.count, current.body.head, current.sha)
    ensures r.Success? ==>
      && Anchors(r.value, entries)
      && r.value.body.previous == current.sha
      && r.value.body.revision == current.body.revision + 1 && r.value.body.recordedAt == now
    ensures r.Success? ==> r.value == Advanced(current, entries, now)
  {
    if !ValidAnchor(current) { return Failure(BadAnchor); }
    if current.body.count != expectedCount || current.body.head != expectedHead || current.sha != expectedSha {
      return Failure(AnchorMoved);
    }
    var ok := ValidateEntries(entries);
    if !ok { return Failure(BadLedger); }
    if |entries| <= current.body.count { return Failure(NothingNew); }
    assert ValidAt(entries, |entries| - 1);
    if current.body.count != 0 {
      var preserved := entries[current.body.count - 1].sha;
      assert preserved == Head(entries[..current.body.count]);
      if preserved != current.body.head { return Failure(PrefixLost); }
    } else {
      assert ValidAt(entries, 0) && entries[..0] == [];
      if entries[0].body.previous != Zero { assert false; }
    }
    return Success(Advanced(current, entries, now));
  }

  /** Whenever an anchor advances, the ledger it recorded is still a prefix. */
  lemma AdvanceKeepsAnchoredPrefix<E>(current: Anchor<E>, before: seq<Entry<E>>, after: seq<Entry<E>>)
    requires Anchors(current, before)
    requires MayAdvance(current, after)
    ensures before < after
  {
    PrefixValid(after, |before|);
    HeadDeterminesLedger(before, after[..|before|]);
  }

  /** A history of anchors: created on `ledgers[0]`, then advanced once on each later ledger. */
  ghost predicate AnchorChain<E>(ledgers: seq<seq<Entry<E>>>, anchors: seq<Anchor<E>>, times: seq<int>) {
    && |ledgers| == |anchors| == |times| > 0
    && ValidLedger(ledgers[0])
    && anchors[0] == NewAnchor(ledgers[0], 0, NoAnchor, times[0])
    && forall k | 0 < k < |anchors| ::
         && MayAdvance(anchors[k - 1], ledgers[k])
         && anchors[k] == Advanced(anchors[k - 1], ledgers[k], times[k])
  }

  /** Along any chain each anchor records its own ledger, revisions count up from
      zero, and every earlier ledger survives as a prefix of every later one. */
  lemma {:induction false} AnchorChainGrows<E>(
      ledgers: seq<seq<Entry<E>>>, anchors: seq<Anchor<E>>, times: seq<int>, i: nat, j: nat)
    requires AnchorChain(ledgers, anchors, times)
    requires i <= j < |anchors|
    ensures Anchors(anchors[j], ledgers[j]) && anchors[j].body.revision == j
    ensures ledgers[i] <= ledgers[j]
    ensures i < j ==> |ledgers[i]| + (j - i) <= |ledgers[j]|
    decreases j
  {
    if j == 0 {
      if ledgers[0] != [] { assert ValidAt(ledgers[0], |ledgers[0]| - 1); }
    } else {
      assert MayAdvance(anchors[j - 1], ledgers[j]);
      assert ValidAt(ledgers[j], |ledgers[j]| - 1);
      AnchorChainGrows(ledgers, anchors, times, if i < j then i else j - 1, j - 1);
      AdvanceKeepsAnchoredPrefix(anchors[j - 1], ledgers[j - 1], ledgers[j]);
    }
  }
}
