/**
 The managed block in AGENTS.md (scripts/install.py, `render_managed_agents`).
 Contents are bytes, each written as the character with that code.
 */
module AgentsGuidance {
  import opened Wrappers

  function Begin(): string { "<!-- BEGIN JSTACK PRODUCT UI (managed) -->" }
  function End(): string { "<!-- END JSTACK PRODUCT UI (managed) -->" }
  const MAX_BYTES: nat := 2 * 1024 * 1024

  datatype Rejection = TooLarge | BadMarkers | ReversedMarkers | MarkerNotAlone

  predicate IsAt(c: string, m: string, i: int) { 0 <= i <= i + |m| <= |c| && c[i..i + |m|] == m }

  /** The first occurrence at or after `i`. */
  function Find(c: string, m: string, i: nat): (r: Option<nat>)
    ensures r.Some? ==> i <= r.value && IsAt(c, m, r.value) && forall j | i <= j < r.value :: !IsAt(c, m, j)
    ensures r.None? ==> forall j | i <= j :: !IsAt(c, m, j)
    decreases |c| - i
  {
    if i + |m| > |c| then None
    else if IsAt(c, m, i) then Some(i)
    else Find(c, m, i + 1)
  }

  /** Occurrences at or after `i`, not overlapping. */
  function Count(c: string, m: string, i: nat): nat
    requires |m| > 0
    decreases |c| - i
  {
    var first := Find(c, m, i);
    if first.None? then 0 else 1 + Count(c, m, first.value + |m|)
  }

  predicate IsBreak(b: char) { b == '\n' || b == '\r' }

  /** The marker at this position has its line to itself. */
  predicate Alone(c: string, position: nat, m: string)
    requires position + |m| <= |c|
  {
    && (position > 0 ==> IsBreak(c[position - 1]))
    && (position + |m| < |c| ==> IsBreak(c[position + |m|]))
  }

  /** The break that follows the opening marker, if one does. */
  function NewlineAfter(c: string, i: nat): Option<string> {
    if i + 2 <= |c| && c[i..i + 2] == "\r\n" then Some("\r\n")
    else if i < |c| && IsBreak(c[i]) then Some([c[i]])
    else None
  }

  /** The most common line break, CRLF first, then LF. */
  function DominantNewline(c: string): string {
    var crlf := Count(c, "\r\n", 0);
    var lf := Count(c, "\n", 0) - crlf;
    var cr := Count(c, "\r", 0) - crlf;
    if crlf > 0 && crlf >= lf && crlf >= cr then "\r\n" else if cr > lf then "\r" else "\n"
  }

  // The wording of the guidance is a parameter: any lines without line breaks or `<`.

  function Joined(lines: seq<string>, newline: string): string {
    if lines == [] then "" else lines[0] + newline + Joined(lines[1..], newline)
  }

  /** The block without its outer markers' line breaks: markers and guidance joined by `newline`. */
  function Block(guidance: seq<string>, newline: string): string {
    Begin() + newline + Joined(guidance, newline) + End()
  }

  function Render(guidance: seq<string>, c: string): Result<string, Rejection> {
    if |c| > MAX_BYTES then Failure(TooLarge)
    else
      var begins, ends := Count(c, Begin(), 0), Count(c, End(), 0);
      if begins != ends || begins > 1 then Failure(BadMarkers)
      else if begins == 1 then
        var begin, end := Find(c, Begin(), 0).value, Find(c, End(), 0).value;
        if end <= begin then Failure(ReversedMarkers)
        else if !Alone(c, begin, Begin()) || !Alone(c, end, End()) then Failure(MarkerNotAlone)
        else
          var newline := NewlineAfter(c, begin + |Begin()|).GetOr(DominantNewline(c));
          Success(c[..begin] + Block(guidance, newline) + c[end + |End()|..])
      else
        var newline := DominantNewline(c);
        var block := Block(guidance, newline);
        if c == "" then Success(block + newline)
        else
          var separator := if IsBreak(c[|c| - 1]) then newline else newline + newline;
          Success(c + separator + block + newline)
  }

  // ---------------------------------------------------------------- markers

  /** Only the first character of a marker is an opening angle bracket. */
  ghost predicate IsMarker(m: string) {
    |m| > 0 && m[0] == '<' && forall k | 0 < k < |m| :: m[k] != '<'
  }

  lemma MarkersAreMarkers()
    ensures IsMarker(Begin()) && IsMarker(End())
    ensures |Begin()| == 42 && |End()| == 40
  {
  }

  lemma CharsAt(c: string, m: string, p: nat)
    requires IsAt(c, m, p)
    ensures forall q | p <= q < p + |m| :: c[q] == m[q - p]
  {
    forall q | p <= q < p + |m|
      ensures c[q] == m[q - p]
    {
      assert c[p..p + |m|][q - p] == m[q - p];
    }
  }

  /** Hence two different occurrences never overlap. */
  lemma NoOverlap(c: string, m: string, p: nat, q: nat)
    requires IsMarker(m) && IsAt(c, m, p) && IsAt(c, m, q) && p < q
    ensures q >= p + |m|
  {
    CharsAt(c, m, p);
    CharsAt(c, m, q);
  }

  lemma {:induction false} CountZero(c: string, m: string, i: nat)
    requires |m| > 0
    ensures Count(c, m, i) == 0 <==> forall j | i <= j :: !IsAt(c, m, j)
    decreases |c| - i
  {
  }

  /** One occurrence counted is one position. */
  lemma CountOne(c: string, m: string, p: nat)
    requires IsMarker(m)
    ensures (Count(c, m, 0) == 1 && Find(c, m, 0) == Some(p)) <==> OnlyAt(c, m, p)
  {
    var first := Find(c, m, 0);
    if first.Some? {
      var f := first.value;
      CountZero(c, m, f + |m|);
      if OnlyAt(c, m, p) {
        assert f == p;
      }
      if Count(c, m, 0) == 1 && f == p {
        forall j | IsAt(c, m, j)
          ensures j == p
        {
          if j > f { NoOverlap(c, m, f, j); }
        }
      }
    }
  }

  ghost predicate OnlyAt(c: string, m: string, p: nat) {
    IsAt(c, m, p) && forall j | IsAt(c, m, j) :: j == p
  }

  lemma CountNone(c: string, m: string)
    requires |m| > 0
    ensures Count(c, m, 0) == 0 <==> forall j :: !IsAt(c, m, j)
  {
    CountZero(c, m, 0);
  }

  // ---------------------------------------------------------------- the block

  predicate IsNewline(newline: string) { newline == "\n" || newline == "\r" || newline == "\r\n" }

  predicate IsPlain(b: char) { b != '<' && !IsBreak(b) }

  /** Guidance lines hold neither line breaks nor opening angle brackets. */
  predicate IsGuidance(lines: seq<string>) {
    forall i, k | 0 <= i < |lines| && 0 <= k < |lines[i]| :: IsPlain(lines[i][k])
  }

  lemma {:induction false} JoinedIsPlain(lines: seq<string>, newline: string)
    requires IsGuidance(lines) && IsNewline(newline)
    ensures forall k | 0 <= k < |Joined(lines, newline)| :: Joined(lines, newline)[k] != '<'
    ensures newline == "\r" && Joined(lines, newline) != "" ==> Joined(lines, newline)[0] != '\n'
  {
    if lines != [] {
      JoinedIsPlain(lines[1..], newline);
      assert forall k | 0 <= k < |lines[0]| :: IsPlain(lines[0][k]);
    }
  }

  function EndOffset(guidance: seq<string>, newline: string): nat {
    |Begin()| + |newline| + |Joined(guidance, newline)|
  }

  /** In the block, only the two markers open an angle bracket. */
  lemma BlockAngles(guidance: seq<string>, newline: string)
    requires IsGuidance(guidance) && IsNewline(newline)
    ensures var block, end := Block(guidance, newline), EndOffset(guidance, newline);
      && |block| == end + |End()| && |Begin()| <= end && block[..|Begin()|] == Begin() && block[end..] == End()
      && block[0] == '<'
      && forall k | 0 <= k < |block| && block[k] == '<' :: k == 0 || k == end
  {
    hide Joined, Begin, End;
    MarkersAreMarkers();
    JoinedIsPlain(guidance, newline);
    var inner := newline + Joined(guidance, newline);
    assert Block(guidance, newline) == Begin() + inner + End();
    AnglesOf(Begin(), inner, End(), Block(guidance, newline));
  }

  lemma AnglesOf(first: string, inner: string, last: string, block: string)
    requires IsMarker(first) && IsMarker(last) && block == first + inner + last
    requires forall k | 0 <= k < |inner| :: inner[k] != '<'
    ensures block[..|first|] == first && block[|first| + |inner|..] == last
    ensures forall k | 0 <= k < |block| && block[k] == '<' :: k == 0 || k == |first| + |inner|
  {
    var end := |first| + |inner|;
    assert forall k | 0 <= k < |first| :: block[k] == first[k];
    assert forall k | |first| <= k < end :: block[k] == inner[k - |first|];
    assert forall k | end <= k < |block| :: block[k] == last[k - end];
  }

  ghost predicate Unmarked(c: string) { (forall j :: !IsAt(c, Begin(), j)) && forall j :: !IsAt(c, End(), j) }

  /** A content with exactly one block, on lines of its own, and no marker elsewhere. */
  ghost predicate Placed(guidance: seq<string>, r: string, pre: string, newline: string, post: string) {
    && IsNewline(newline)
    && r == pre + Block(guidance, newline) + post
    && Unmarked(pre) && Unmarked(post)
    && (pre != "" ==> IsBreak(pre[|pre| - 1]))
    && (post != "" ==> IsBreak(post[0]))
  }

  /** Each marker occurs once, where the block puts it. */
  lemma OneOfEach(guidance: seq<string>, r: string, pre: string, newline: string, post: string)
    requires IsGuidance(guidance) && Placed(guidance, r, pre, newline, post)
    ensures OnlyAt(r, Begin(), |pre|)
    ensures OnlyAt(r, End(), |pre| + EndOffset(guidance, newline))
  {
    hide Block, EndOffset, Begin, End, IsAt;
    var block, end := Block(guidance, newline), EndOffset(guidance, newline);
    BlockAngles(guidance, newline);
    MarkersAreMarkers();
    AtBlock(r, pre, block, post, 0, Begin());
    AtBlock(r, pre, block, post, end, End());
    NotBoth(r, |pre|);
    NotBoth(r, |pre| + end);
    OnlyThere(r, pre, block, post, end, Begin());
    OnlyThere(r, pre, block, post, end, End());
  }

  lemma AtBlock(r: string, pre: string, block: string, post: string, i: nat, m: string)
    requires r == pre + block + post && i + |m| <= |block| && block[i..i + |m|] == m
    ensures IsAt(r, m, |pre| + i)
  {
    Middle(r, pre, block, post, i, i + |m|);
  }

  lemma OnlyThere(r: string, pre: string, block: string, post: string, end: nat, m: string)
    requires r == pre + block + post && IsMarker(m)
    requires (forall i :: !IsAt(pre, m, i)) && (forall i :: !IsAt(post, m, i))
    requires block != "" && block[0] == '<' && forall k | 0 <= k < |block| && block[k] == '<' :: k == 0 || k == end
    ensures IsAt(r, m, |pre|) && !IsAt(r, m, |pre| + end) ==> OnlyAt(r, m, |pre|)
    ensures !IsAt(r, m, |pre|) && IsAt(r, m, |pre| + end) ==> OnlyAt(r, m, |pre| + end)
  {
    hide IsAt;
    forall j | IsAt(r, m, j)
      ensures j == |pre| || j == |pre| + end
    {
      Occurs(r, m, j);
      WhereMarkersFall(r, pre, block, post, end, m, j);
    }
  }

  lemma Occurs(r: string, m: string, j: int)
    requires IsAt(r, m, j)
    ensures j >= 0
  {
  }

  lemma NotBoth(r: string, p: nat)
    ensures !(IsAt(r, Begin(), p) && IsAt(r, End(), p))
  {
    assert Begin()[5] == 'B' && End()[5] == 'E';
    if IsAt(r, Begin(), p) { CharsAt(r, Begin(), p); }
  }

  lemma WhereMarkersFall(r: string, pre: string, block: string, post: string, end: nat, m: string, j: nat)
    requires r == pre + block + post && IsMarker(m) && IsAt(r, m, j)
    requires (forall i :: !IsAt(pre, m, i)) && (forall i :: !IsAt(post, m, i))
    requires block != "" && block[0] == '<' && forall k | 0 <= k < |block| && block[k] == '<' :: k == 0 || k == end
    ensures j == |pre| || j == |pre| + end
  {
    CharsAt(r, m, j);
    BeforeAndAfter(r, pre, block, post, m, j);
    assert r[|pre|] == block[0];
    assert |pre| <= j < |pre| + |block| ==> r[j + 0] == block[j - |pre|];
  }

  /** An occurrence inside the first or the last part is one of that part. */
  lemma BeforeAndAfter(r: string, pre: string, block: string, post: string, m: string, j: nat)
    requires r == pre + block + post && IsAt(r, m, j)
    ensures j + |m| <= |pre| ==> IsAt(pre, m, j)
    ensures j >= |pre| + |block| ==> IsAt(post, m, j - |pre| - |block|)
  {
    if j + |m| <= |pre| { assert pre[j..j + |m|] == r[j..j + |m|]; }
    if j >= |pre| + |block| {
      var k := j - |pre| - |block|;
      assert post[k..k + |m|] == r[j..j + |m|];
    }
  }

  lemma Middle(r: string, pre: string, block: string, post: string, i: nat, j: nat)
    requires r == pre + block + post && i <= j <= |block|
    ensures r[|pre| + i..|pre| + j] == block[i..j]
  {
  }

  // ----------------------------------------------------------------- theorems

  /** Rendering a content that already holds the block gives it back unchanged. */
  lemma PlacedIsFixed(guidance: seq<string>, r: string, pre: string, newline: string, post: string)
    requires IsGuidance(guidance) && Placed(guidance, r, pre, newline, post)
    ensures Render(guidance, r) == if |r| > MAX_BYTES then Failure(TooLarge) else Success(r)
  {
    hide Block, EndOffset, Placed, Begin, End, Find, Count, Alone, NewlineAfter;
    PlacedCounts(guidance, r, pre, newline, post);
    PlacedLines(guidance, r, pre, newline, post);
    if |r| <= MAX_BYTES { Replaces(guidance, r, |pre|, |pre| + EndOffset(guidance, newline), newline); }
  }

  lemma PlacedCounts(guidance: seq<string>, r: string, pre: string, newline: string, post: string)
    requires IsGuidance(guidance) && Placed(guidance, r, pre, newline, post)
    ensures Count(r, Begin(), 0) == 1 && Count(r, End(), 0) == 1
    ensures Find(r, Begin(), 0) == Some(|pre|) && Find(r, End(), 0) == Some(|pre| + EndOffset(guidance, newline))
  {
    hide Placed, Block, EndOffset, Begin, End, Find, Count, OnlyAt;
    OneOfEach(guidance, r, pre, newline, post);
    MarkersAreMarkers();
    CountOne(r, Begin(), |pre|);
    CountOne(r, End(), |pre| + EndOffset(guidance, newline));
  }

  lemma PlacedLines(guidance: seq<string>, r: string, pre: string, newline: string, post: string)
    requires IsGuidance(guidance) && Placed(guidance, r, pre, newline, post)
    ensures var end := |pre| + EndOffset(guidance, newline);
      && |pre| < end && end + |End()| <= |r|
      && Alone(r, |pre|, Begin()) && Alone(r, end, End()) && NewlineAfter(r, |pre| + |Begin()|) == Some(newline)
      && r[..|pre|] + Block(guidance, newline) + r[end + |End()|..] == r
  {
    hide Block, EndOffset, Begin, End, Alone, NewlineAfter, IsAt;
    MarkersAreMarkers();
    BlockBreaks(guidance, newline);
    BlockAngles(guidance, newline);
    var block := Block(guidance, newline);
    BothAlone(r, pre, block, post, EndOffset(guidance, newline));
    Middle(r, pre, block, post, 0, |block|);
    NewlineKept(r, |pre| + |Begin()|, block, |pre|, newline);
    assert r[..|pre|] == pre && r[|pre| + |block|..] == post;
  }

  lemma Replaces(guidance: seq<string>, c: string, begin: nat, end: nat, newline: string)
    requires |c| <= MAX_BYTES && Count(c, Begin(), 0) == 1 && Count(c, End(), 0) == 1
    requires Find(c, Begin(), 0) == Some(begin) && Find(c, End(), 0) == Some(end) && begin < end
    requires Alone(c, begin, Begin()) && Alone(c, end, End()) && NewlineAfter(c, begin + |Begin()|) == Some(newline)
    ensures Render(guidance, c) == Success(c[..begin] + Block(guidance, newline) + c[end + |End()|..])
  {
    hide Begin, End, Find, Count, Alone, NewlineAfter, Block, DominantNewline;
  }

  /** Both markers of a placed block stand alone on their lines. */
  lemma BothAlone(r: string, pre: string, block: string, post: string, end: nat)
    requires r == pre + block + post && |Begin()| < end && |block| == end + |End()|
    requires IsBreak(block[|Begin()|]) && IsBreak(block[end - 1])
    requires (pre != "" ==> IsBreak(pre[|pre| - 1])) && (post != "" ==> IsBreak(post[0]))
    ensures Alone(r, |pre|, Begin()) && Alone(r, |pre| + end, End())
  {
    hide Begin, End;
    assert r[|pre| + |Begin()|] == block[|Begin()|] && r[|pre| + end - 1] == block[end - 1];
    assert pre != "" ==> r[|pre| - 1] == pre[|pre| - 1];
    assert post != "" ==> r[|pre| + |block|] == post[0];
  }

  /** Inside the block, each marker is set off by the block's own line break. */
  lemma BlockBreaks(guidance: seq<string>, newline: string)
    requires IsGuidance(guidance) && IsNewline(newline)
    ensures var block, end := Block(guidance, newline), EndOffset(guidance, newline);
      && |Begin()| + |newline| < |block| && block[|Begin()|..|Begin()| + |newline|] == newline
      && IsBreak(block[|Begin()|])
      && |Begin()| < end <= |block| && IsBreak(block[end - 1])
      && (newline == "\r" ==> block[|Begin()| + 1] != '\n')
  {
    JoinedIsPlain(guidance, newline);
    JoinedEnds(guidance, newline);
    var joined := Joined(guidance, newline);
    hide Joined;
    assert Block(guidance, newline) == Begin() + newline + joined + End();
    if joined == "" { assert Block(guidance, newline)[|Begin()| + |newline|] == End()[0]; }
  }

  lemma {:induction false} JoinedEnds(lines: seq<string>, newline: string)
    requires IsNewline(newline)
    ensures Joined(lines, newline) != "" ==> IsBreak(Joined(lines, newline)[|Joined(lines, newline)| - 1])
  {
    if lines != [] { JoinedEnds(lines[1..], newline); }
  }

  lemma NewlineKept(r: string, i: nat, block: string, p: nat, newline: string)
    requires IsNewline(newline) && i == p + |Begin()| && p + |block| <= |r| && r[p..p + |block|] == block
    requires |Begin()| + |newline| < |block| && block[|Begin()|..|Begin()| + |newline|] == newline
    requires newline == "\r" ==> block[|Begin()| + 1] != '\n'
    ensures NewlineAfter(r, i) == Some(newline)
  {
    forall k | 0 <= k < |block|
      ensures r[p + k] == block[k]
    {
      assert r[p..p + |block|][k] == block[k];
    }
    forall k | 0 <= k < |newline|
      ensures block[|Begin()| + k] == newline[k]
    {
      assert block[|Begin()|..|Begin()| + |newline|][k] == newline[k];
    }
  }

  /** A marker met nowhere in a content is not met in what is cut from it either. */
  lemma CutUnmarked(c: string, i: nat, j: nat, m: string, p: int)
    requires i <= j <= |c| && IsAt(c[i..j], m, p)
    ensures IsAt(c, m, i + p)
  {
    assert forall k | p <= k < p + |m| :: c[i + k] == c[i..j][k];
    assert c[i + p..i + p + |m|] == c[i..j][p..p + |m|];
  }

  /** Around the one marker pair, no other marker is left. */
  lemma OutsideUnmarked(c: string, begin: nat, end: nat)
    requires OnlyAt(c, Begin(), begin) && OnlyAt(c, End(), end) && begin < end
    ensures Unmarked(c[..begin]) && Unmarked(c[end + |End()|..])
  {
    hide Begin, End;
    MarkersAreMarkers();
    NoneOutside(c, Begin(), begin, begin, end + |End()|);
    NoneOutside(c, End(), end, begin, end + |End()|);
  }

  lemma NoneOutside(c: string, m: string, p: nat, i: nat, k: nat)
    requires IsMarker(m) && OnlyAt(c, m, p) && i <= p < k <= |c|
    ensures (forall j :: !IsAt(c[..i], m, j)) && (forall j :: !IsAt(c[k..], m, j))
  {
    assert c[..i] == c[0..i] && c[k..] == c[k..|c|];
    forall j
      ensures !IsAt(c[..i], m, j) && !IsAt(c[k..], m, j)
    {
      if IsAt(c[..i], m, j) { CutUnmarked(c, 0, i, m, j); }
      if IsAt(c[k..], m, j) { CutUnmarked(c, k, |c|, m, j); }
    }
  }

  /** What rendering did to a content: the old block replaced, or a block appended. */
  datatype Change = Replaced(begin: nat, after: nat) | Appended

  /** Every byte outside the old block, or the whole content, is still there; a block that
      is appended to other lines comes after an empty one. */
  ghost predicate Keeps(c: string, change: Change, pre: string, newline: string, post: string) {
    match change
    case Replaced(begin, after) =>
      && begin <= after <= |c| && pre == c[..begin] && post == c[after..]
      && OnlyAt(c, Begin(), begin) && after >= |End()| && OnlyAt(c, End(), after - |End()|)
    case Appended =>
      && Unmarked(c) && post == newline
      && pre == if c == "" then "" else if IsBreak(c[|c| - 1]) then c + newline else c + newline + newline
  }

  /** A rendered content holds exactly one block on lines of its own, and
      everything outside the old one is unchanged. */
  lemma RenderPlaces(guidance: seq<string>, c: string)
    returns (change: Change, pre: string, newline: string, post: string)
    requires IsGuidance(guidance) && Render(guidance, c).Success?
    ensures Placed(guidance, Render(guidance, c).value, pre, newline, post)
    ensures Keeps(c, change, pre, newline, post)
    ensures change.Appended? ==> newline == DominantNewline(c)
  {
    hide Begin, End, Block, Find, DominantNewline, NewlineAfter;
    MarkersAreMarkers();
    CountNone(c, Begin());
    CountNone(c, End());
    if Count(c, Begin(), 0) == 1 {
      var begin, end := Find(c, Begin(), 0).value, Find(c, End(), 0).value;
      CountOne(c, Begin(), begin);
      CountOne(c, End(), end);
      OutsideUnmarked(c, begin, end);
      newline := NewlineAfter(c, begin + |Begin()|).GetOr(DominantNewline(c));
      AnyNewline(c, begin + |Begin()|);
      change, pre, post := Replaced(begin, end + |End()|), c[..begin], c[end + |End()|..];
    } else {
      newline := DominantNewline(c);
      AnyNewline(c, 0);
      change, post := Appended, newline;
      pre := Appending(guidance, c, newline);
    }
  }

  /** A block after everything there is. */
  lemma Appending(guidance: seq<string>, c: string, newline: string) returns (pre: string)
    requires IsNewline(newline) && Unmarked(c)
    ensures var block := Block(guidance, newline);
      var separator := if c == "" then "" else if IsBreak(c[|c| - 1]) then newline else newline + newline;
      Placed(guidance, if c == "" then block + newline else c + separator + block + newline, pre, newline, newline)
    ensures Keeps(c, Appended, pre, newline, newline)
  {
    hide Begin, End, Block, Unmarked;
    var separator := if c == "" then "" else if IsBreak(c[|c| - 1]) then newline else newline + newline;
    pre := c + separator;
    BreaksUnmarked(c, separator);
    NoMarkers();
    BreaksUnmarked("", newline);
    assert "" + newline == newline;
    assert c == "" ==> pre == "" && pre + Block(guidance, newline) == Block(guidance, newline);
    assert c + (newline + newline) == c + newline + newline;
  }

  lemma NoMarkers()
    ensures Unmarked("")
  {
  }

  lemma AnyNewline(c: string, i: nat)
    ensures IsNewline(DominantNewline(c))
    ensures IsNewline(NewlineAfter(c, i).GetOr(DominantNewline(c)))
  {
    if i < |c| && IsBreak(c[i]) { assert [c[i]] == "\n" || [c[i]] == "\r"; }
  }

  /** Appending line breaks adds no marker. */
  lemma BreaksUnmarked(c: string, breaks: string)
    requires Unmarked(c) && forall k | 0 <= k < |breaks| :: IsBreak(breaks[k])
    ensures Unmarked(c + breaks)
  {
    hide Begin, End;
    MarkersAreMarkers();
    forall j, m | m == Begin() || m == End()
      ensures !IsAt(c + breaks, m, j)
    {
      if IsAt(c + breaks, m, j) {
        LastIsNotBreak(m);
        LastChar(c + breaks, m, j);
        BeforeAndAfter(c + breaks, c, breaks, "", m, j);
      }
    }
  }

  lemma LastChar(c: string, m: string, j: nat)
    requires IsAt(c, m, j) && m != ""
    ensures c[j + |m| - 1] == m[|m| - 1]
  {
    CharsAt(c, m, j);
  }

  lemma LastIsNotBreak(m: string)
    requires m == Begin() || m == End()
    ensures m != "" && !IsBreak(m[|m| - 1])
  {
  }

  /** Rendering twice is rendering once, exactly while the result stays within the
      size limit; beyond it, the file just written would be refused next time. */
  lemma RenderIsIdempotent(guidance: seq<string>, c: string)
    requires IsGuidance(guidance) && Render(guidance, c).Success?
    ensures var r := Render(guidance, c).value;
      Render(guidance, r) == if |r| <= MAX_BYTES then Success(r) else Failure(TooLarge)
  {
    var change, pre, newline, post := RenderPlaces(guidance, c);
    PlacedIsFixed(guidance, Render(guidance, c).value, pre, newline, post);
  }

  // ------------------------------------------------------- what is accepted

  /** A content within the limit is rendered exactly when it holds no marker at all, or one
      opening marker before one closing marker, each on a line of its own. */
  lemma RenderAccepts(guidance: seq<string>, c: string)
    requires |c| <= MAX_BYTES
    ensures Render(guidance, c).Success? <==>
      Unmarked(c) || exists begin: nat, end: nat :: MarkedAt(c, begin, end)
  {
    hide Begin, End, Block, Find, DominantNewline, NewlineAfter, Alone;
    MarkersAreMarkers();
    CountNone(c, Begin());
    CountNone(c, End());
    if Count(c, Begin(), 0) == 1 && Count(c, End(), 0) == 1 {
      var begin, end := Find(c, Begin(), 0).value, Find(c, End(), 0).value;
      CountOne(c, Begin(), begin);
      CountOne(c, End(), end);
      NotBoth(c, begin);
      if Render(guidance, c).Success? { assert MarkedAt(c, begin, end); }
    }
    if begin: nat, end: nat :| MarkedAt(c, begin, end) {
      CountOne(c, Begin(), begin);
      CountOne(c, End(), end);
    }
  }

  ghost predicate MarkedAt(c: string, begin: nat, end: nat) {
    && OnlyAt(c, Begin(), begin) && OnlyAt(c, End(), end) && begin < end
    && Alone(c, begin, Begin()) && Alone(c, end, End())
  }

  /** How many line breaks of this kind there are, a CRLF being one break and no other. */
  function Breaks(c: string, newline: string): int {
    if newline == "\r\n" then Count(c, "\r\n", 0)
    else if newline == "\n" then Count(c, "\n", 0) - Count(c, "\r\n", 0)
    else Count(c, "\r", 0) - Count(c, "\r\n", 0)
  }

  /** The line break of a new block is the most common one; of two equally common ones CRLF
      comes first and a lone carriage return last. */
  lemma DominantIsMostCommon(c: string)
    ensures var most := DominantNewline(c);
      && (forall newline | IsNewline(newline) :: Breaks(c, newline) <= Breaks(c, most) || Breaks(c, newline) <= 0)
      && (Breaks(c, "\r\n") > 0 && Breaks(c, "\r\n") == Breaks(c, most) ==> most == "\r\n")
      && (Breaks(c, "\n") == Breaks(c, most) ==> most != "\r")
  {
  }
}
