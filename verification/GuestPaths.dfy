/** The paths a proof tool may name (tools/proof_plane/broker.py, `_guest_relative_path`). */
module GuestPaths {
  import opened Wrappers
  import opened LedgerText

  /** The parts of a POSIX path: between slashes, without the empty ones and ".". */
  function Parts(path: string, part: string := ""): seq<string>
    decreases |path|
  {
    if path == "" then Named(part)
    else if path[0] == '/' then Named(part) + Parts(path[1..])
    else Parts(path[1..], part + [path[0]])
  }

  function Named(part: string): seq<string> { if part == "" || part == "." then [] else [part] }

  function Joined(parts: seq<string>): string {
    if parts == [] then "" else if |parts| == 1 then parts[0] else parts[0] + "/" + Joined(parts[1..])
  }

  /** `_guest_relative_path`: the normal form of an accepted path. */
  function GuestRelative(value: string): Option<string> {
    if |value| > 1000 || '\\' in value || '\0' in value then None
    else if value == "" then Some(".")
    else if value[0] == '/' || ".." in Parts(value) then None
    else Some(if Parts(value) == [] then "." else Joined(Parts(value)))
  }

  /** Normalizing keeps every raw separator, and brings none in. */
  lemma PathKeepsSeparators(value: string)
    ensures GuestRelative(value).Some? ==> (Unbroken(GuestRelative(value).value) <==> Unbroken(value))
  {
    if GuestRelative(value).Some? && value != "" {
      PartsKeepSeparators(value, "");
      JoinedUnbroken(Parts(value));
    }
  }

  ghost predicate AllUnbroken(parts: seq<string>) {
    forall part | part in parts :: Unbroken(part)
  }

  lemma {:induction false} PartsKeepSeparators(path: string, part: string)
    ensures AllUnbroken(Parts(path, part)) <==> Unbroken(part) && Unbroken(path)
    decreases |path|
  {
    if path == "" {
    } else if path[0] == '/' {
      PartsKeepSeparators(path[1..], "");
      assert path == [path[0]] + path[1..];
      BothUnbroken([path[0]], path[1..]);
      BothAllUnbroken(Named(part), Parts(path[1..]));
    } else {
      PartsKeepSeparators(path[1..], part + [path[0]]);
      assert path == [path[0]] + path[1..];
      BothUnbroken([path[0]], path[1..]);
      BothUnbroken(part, [path[0]]);
    }
  }

  lemma BothUnbroken(a: string, b: string)
    ensures Unbroken(a + b) <==> Unbroken(a) && Unbroken(b)
  {
    if Unbroken(a + b) {
      forall i | 0 <= i < |a| ensures !RawSeparator(a[i]) { assert (a + b)[i] == a[i]; }
      forall i | 0 <= i < |b| ensures !RawSeparator(b[i]) { assert (a + b)[|a| + i] == b[i]; }
    }
  }

  lemma BothAllUnbroken(a: seq<string>, b: seq<string>)
    ensures AllUnbroken(a + b) <==> AllUnbroken(a) && AllUnbroken(b)
  {
    if AllUnbroken(a + b) {
      forall part | part in a ensures Unbroken(part) { assert part in a + b; }
      forall part | part in b ensures Unbroken(part) { assert part in a + b; }
    }
  }

  lemma {:induction false} JoinedUnbroken(parts: seq<string>)
    ensures Unbroken(Joined(parts)) <==> AllUnbroken(parts)
    decreases |parts|
  {
    if |parts| > 1 {
      JoinedUnbroken(parts[1..]);
      BothUnbroken(parts[0] + "/", Joined(parts[1..]));
      BothUnbroken(parts[0], "/");
      assert parts == [parts[0]] + parts[1..];
      BothAllUnbroken([parts[0]], parts[1..]);
    } else if |parts| == 1 {
      assert parts == [parts[0]];
    }
  }

  ghost predicate Plain(path: string) {
    forall i | 0 <= i < |path| :: path[i] != '/' && path[i] != '\\' && path[i] != '\0'
  }

  /** A plain name of one part is accepted as it is. */
  lemma OnePart(path: string)
    requires 0 < |path| <= 1000 && Plain(path) && path != "." && path != ".."
    ensures GuestRelative(path) == Some(path)
  {
    PartsOfPlain(path, "");
    assert "" + path == path;
    assert Parts(path) == [path] && Joined([path]) == path;
  }

  lemma {:induction false} PartsOfPlain(path: string, part: string)
    requires Plain(path)
    ensures Parts(path, part) == Named(part + path)
    decreases |path|
  {
    if path == "" {
      assert part + path == part;
    } else {
      PartsOfPlain(path[1..], part + [path[0]]);
      assert part + [path[0]] + path[1..] == part + path;
    }
  }

  // --------------------------------------------- which paths, and in what form

  /** A component of the path is "..". */
  ghost predicate Climbs(path: string) {
    exists i: nat :: ClimbsAt(path, i)
  }

  predicate ClimbsAt(path: string, i: nat) {
    && i + 2 <= |path| && path[i] == '.' && path[i + 1] == '.'
    && (i == 0 || path[i - 1] == '/') && (i + 2 == |path| || path[i + 2] == '/')
  }

  /** A path is refused exactly when it is too long, holds a backslash or a null character,
      is absolute, or climbs. */
  lemma RefusedExactly(value: string)
    ensures GuestRelative(value).None? <==>
      |value| > 1000 || '\\' in value || '\0' in value || (value != "" && value[0] == '/') || Climbs(value)
  {
    ClimbingParts(value, "");
    assert "" + value == value;
  }

  lemma {:induction false} ClimbingParts(path: string, part: string)
    requires '/' !in part
    ensures ".." in Parts(path, part) <==> Climbs(part + path)
    decreases |path|
  {
    if path == "" {
      assert part + path == part;
      LonePart(part);
    } else if path[0] == '/' {
      ClimbingParts(path[1..], "");
      assert "" + path[1..] == path[1..];
      assert part + path == part + "/" + path[1..];
      ClimbsEitherSide(part, path[1..]);
      LonePart(part);
    } else {
      ClimbingParts(path[1..], part + [path[0]]);
      assert part + [path[0]] + path[1..] == part + path;
    }
  }

  lemma LonePart(part: string)
    requires '/' !in part
    ensures ".." in Named(part) <==> part == ".."
    ensures Climbs(part) <==> part == ".."
  {
    if part == ".." { assert ClimbsAt(part, 0); }
    forall i: nat | ClimbsAt(part, i)
      ensures i == 0 && |part| == 2
    {
      assert forall k | 0 <= k < |part| :: part[k] in part;
    }
  }

  lemma ClimbsEitherSide(part: string, rest: string)
    requires '/' !in part
    ensures Climbs(part + "/" + rest) <==> part == ".." || Climbs(rest)
  {
    var path, n := part + "/" + rest, |part| + 1;
    assert forall i | 0 <= i < |part| :: path[i] == part[i] && part[i] in part;
    assert forall i | 0 <= i < |rest| :: path[n + i] == rest[i];
    assert path[n - 1] == '/';
    if part == ".." { assert ClimbsAt(path, 0); }
    if i: nat :| ClimbsAt(rest, i) { assert ClimbsAt(path, n + i); }
    if i: nat :| ClimbsAt(path, i) {
      assert i != n - 1 && i + 1 != n - 1;
      if i >= n {
        assert ClimbsAt(rest, i - n);
      } else {
        assert i == 0 && i + 2 == n - 1;
        assert part == "..";
      }
    }
  }

  /** What Parts finds: no slash in it, neither empty nor ".". */
  predicate WellNamed(part: string) { part != "" && part != "." && '/' !in part }

  lemma {:induction false} PartsAreNamed(path: string, part: string)
    requires '/' !in part
    ensures forall p | p in Parts(path, part) :: WellNamed(p)
    ensures |Joined(Parts(path, part))| <= |part| + |path|
    ensures forall c | c in Joined(Parts(path, part)) :: c in part || c in path
    decreases |path|
  {
    if path == "" {
    } else if path[0] == '/' {
      var rest := Parts(path[1..]);
      PartsAreNamed(path[1..], "");
      assert path == ['/'] + path[1..];
      JoinedCons(Named(part), rest);
      assert Named(part) != [] ==> Joined(Named(part)) == part;
    } else {
      PartsAreNamed(path[1..], part + [path[0]]);
      assert path == [path[0]] + path[1..];
    }
  }

  lemma JoinedCons(first: seq<string>, rest: seq<string>)
    requires |first| <= 1
    ensures Joined(first + rest) ==
      if first == [] then Joined(rest) else if rest == [] then first[0] else first[0] + "/" + Joined(rest)
  {
    if first == [] {
      assert first + rest == rest;
    } else {
      assert (first + rest)[1..] == rest;
    }
  }

  lemma {:induction false} PartsOfJoined(parts: seq<string>)
    requires forall p | p in parts :: WellNamed(p)
    ensures Parts(Joined(parts)) == parts
    ensures parts != [] ==> Joined(parts) != "" && Joined(parts)[0] != '/'
    decreases |parts|
  {
    if parts != [] { assert parts[0] in parts; }
    if |parts| == 1 {
      PartsThrough(parts[0], "", "");
      assert parts[0] + "" == parts[0] && "" + parts[0] == parts[0];
      assert parts[0][0] in parts[0];
    } else if |parts| > 1 {
      assert parts == [parts[0]] + parts[1..];
      PartsOfJoined(parts[1..]);
      PartsThrough(parts[0], "/" + Joined(parts[1..]), "");
      assert parts[0] + "/" + Joined(parts[1..]) == parts[0] + ("/" + Joined(parts[1..]));
      assert ("/" + Joined(parts[1..]))[1..] == Joined(parts[1..]) && "" + parts[0] == parts[0];
      assert Parts("/" + Joined(parts[1..]), parts[0]) == [parts[0]] + parts[1..];
      assert parts[0][0] in parts[0];
    }
  }

  /** Up to its first slash a path only adds to the part being read. */
  lemma {:induction false} PartsThrough(front: string, rest: string, part: string)
    requires '/' !in front
    ensures Parts(front + rest, part) == Parts(rest, part + front)
    decreases |front|
  {
    if front == "" {
      assert front + rest == rest && part + front == part;
    } else {
      assert front == [front[0]] + front[1..] && front[0] in front;
      assert (front + rest)[1..] == front[1..] + rest;
      PartsThrough(front[1..], rest, part + [front[0]]);
      assert part + [front[0]] + front[1..] == part + front;
    }
  }

  /** The normal form of an accepted path is relative, does not climb, and is its own. */
  lemma NormalFormIsFixed(value: string)
    requires GuestRelative(value).Some?
    ensures var normal := GuestRelative(value).value;
      GuestRelative(normal) == Some(normal) && normal != "" && normal[0] != '/' && !Climbs(normal)
  {
    var normal := GuestRelative(value).value;
    if value == "" || Parts(value) == [] {
      DotIsFixed(normal);
    } else {
      PartsAreNamed(value, "");
      PartsOfJoined(Parts(value));
    }
    RefusedExactly(normal);
  }

  lemma DotIsFixed(dot: string)
    requires dot == "."
    ensures GuestRelative(dot) == Some(".")
  {
    PartsThrough(dot, "", "");
    assert dot + "" == dot && "" + dot == dot;
  }
}
