/** Sorting by a string key, and why it forgets the order of its input. */
module Ordering {

  /** Code-point order, the order Python compares strings in. */
  predicate AtMost(a: string, b: string) {
    a == [] || (b != [] && (a[0] < b[0] || (a[0] == b[0] && AtMost(a[1..], b[1..]))))
  }

  lemma {:induction false} AtMostTotal(a: string, b: string)
    ensures AtMost(a, b) || AtMost(b, a)
  {
    if a != [] && b != [] { AtMostTotal(a[1..], b[1..]); }
  }

  lemma {:induction false} AtMostAntisymmetric(a: string, b: string)
    requires AtMost(a, b) && AtMost(b, a)
    ensures a == b
  {
    if a != [] && b != [] {
      AtMostAntisymmetric(a[1..], b[1..]);
      assert a == [a[0]] + a[1..] && b == [b[0]] + b[1..];
    }
  }

  lemma {:induction false} AtMostTransitive(a: string, b: string, c: string)
    requires AtMost(a, b) && AtMost(b, c)
    ensures AtMost(a, c)
  {
    if a != [] && a[0] == b[0] == c[0] { AtMostTransitive(a[1..], b[1..], c[1..]); }
  }

  /** A string comes before its extensions, and otherwise the first difference decides. */
  lemma {:induction false} FirstDifferenceDecides(a: string, b: string)
    ensures AtMost(a, b) <==> a <= b || exists k: nat :: k < |a| && k < |b| && a[..k] == b[..k] && a[k] < b[k]
  {
    if a != [] && b != [] && a[0] == b[0] {
      FirstDifferenceDecides(a[1..], b[1..]);
      assert a == [a[0]] + a[1..] && b == [a[0]] + b[1..];
      if k: nat :| k < |a[1..]| && k < |b[1..]| && a[1..][..k] == b[1..][..k] && a[1..][k] < b[1..][k] {
        assert a[..k + 1] == [a[0]] + a[1..][..k] && b[..k + 1] == [a[0]] + b[1..][..k];
        assert a[k + 1] < b[k + 1];
      }
      if k: nat :| k < |a| && k < |b| && a[..k] == b[..k] && a[k] < b[k] {
        assert k > 0;
        assert a[1..][..k - 1] == a[..k][1..] && b[1..][..k - 1] == b[..k][1..];
        assert a[1..][k - 1] < b[1..][k - 1];
      }
      assert a <= b <==> a[1..] <= b[1..];
    } else if a != [] && b != [] {
      assert a[..0] == b[..0];
      CommonPrefix(a, b);
    }
  }

  lemma CommonPrefix(a: string, b: string)
    requires a != [] && b != []
    ensures forall k: nat | 0 < k <= |a| && k <= |b| && a[..k] == b[..k] :: a[0] == b[0]
  {
    forall k: nat | 0 < k <= |a| && k <= |b| && a[..k] == b[..k]
      ensures a[0] == b[0]
    {
      assert a[0] == a[..k][0] && b[0] == b[..k][0];
    }
  }

  ghost predicate OrderedBy<T>(s: seq<T>, key: T -> string) {
    forall i, j | 0 <= i < j < |s| :: AtMost(key(s[i]), key(s[j]))
  }

  /** No two elements share a key. */
  ghost predicate KeyedBy<T(!new)>(s: multiset<T>, key: T -> string) {
    forall x, y | x in s && y in s && key(x) == key(y) :: x == y
  }

  /** No two positions share a key. */
  ghost predicate Distinct<T, K>(s: seq<T>, key: T -> K) {
    forall i, j | 0 <= i < j < |s| :: key(s[i]) != key(s[j])
  }

  function Insert<T>(x: T, s: seq<T>, key: T -> string): (r: seq<T>)
    ensures multiset(r) == multiset(s) + multiset{x}
    ensures |r| == |s| + 1
  {
    if s == [] || AtMost(key(x), key(s[0])) then
      assert [x] + s == [x] + s[..];
      [x] + s
    else
      assert s == [s[0]] + s[1..];
      [s[0]] + Insert(x, s[1..], key)
  }

  function SortBy<T>(s: seq<T>, key: T -> string): (r: seq<T>)
    ensures multiset(r) == multiset(s)
    ensures |r| == |s|
  {
    if s == [] then []
    else
      assert s == [s[0]] + s[1..];
      Insert(s[0], SortBy(s[1..], key), key)
  }

  lemma {:induction false} InsertOrders<T>(x: T, s: seq<T>, key: T -> string)
    requires OrderedBy(s, key)
    ensures OrderedBy(Insert(x, s, key), key)
  {
    var r := Insert(x, s, key);
    if s == [] {
    } else if AtMost(key(x), key(s[0])) {
      forall j | 0 < j < |r|
        ensures AtMost(key(x), key(r[j]))
      {
        if j > 1 { AtMostTransitive(key(x), key(s[0]), key(s[j - 1])); }
      }
    } else {
      var rest := Insert(x, s[1..], key);
      InsertOrders(x, s[1..], key);
      AtMostTotal(key(x), key(s[0]));
      forall j | 0 <= j < |rest|
        ensures AtMost(key(s[0]), key(rest[j]))
      {
        assert rest[j] in multiset(rest);
        if rest[j] != x {
          assert rest[j] in multiset(s[1..]) && rest[j] in s[1..];
        }
      }
    }
  }

  lemma {:induction false} SortOrders<T>(s: seq<T>, key: T -> string)
    ensures OrderedBy(SortBy(s, key), key)
  {
    if s != [] {
      SortOrders(s[1..], key);
      InsertOrders(s[0], SortBy(s[1..], key), key);
    }
  }

  lemma LeastIsFirst<T(!new)>(s: seq<T>, t: seq<T>, key: T -> string)
    requires s != [] && OrderedBy(s, key) && OrderedBy(t, key) && multiset(s) == multiset(t)
    requires KeyedBy(multiset(s), key)
    ensures t != [] && s[0] == t[0]
  {
    assert s[0] in multiset(t);
    var i :| 0 <= i < |t| && t[i] == s[0];
    assert t[0] in multiset(s);
    var j :| 0 <= j < |s| && s[j] == t[0];
    if i > 0 && j > 0 { AtMostAntisymmetric(key(s[0]), key(t[0])); }
  }

  lemma TailOrdered<T>(s: seq<T>, key: T -> string)
    requires s != [] && OrderedBy(s, key)
    ensures OrderedBy(s[1..], key)
  {
  }

  lemma DropFirst<T>(s: seq<T>)
    requires s != []
    ensures multiset(s[1..]) == multiset(s) - multiset{s[0]}
  {
    assert s == [s[0]] + s[1..];
  }

  /** With distinct keys there is only one ordered arrangement. */
  lemma {:induction false} OrderUnique<T(!new)>(s: seq<T>, t: seq<T>, key: T -> string)
    requires OrderedBy(s, key) && OrderedBy(t, key) && multiset(s) == multiset(t)
    requires KeyedBy(multiset(s), key)
    ensures s == t
  {
    if s == [] {
      SameLength(s, t);
    } else {
      LeastIsFirst(s, t, key);
      hide OrderedBy, AtMost;
      DropFirst(s);
      DropFirst(t);
      TailOrdered(s, key);
      TailOrdered(t, key);
      OrderUnique(s[1..], t[1..], key);
      assert s == [s[0]] + s[1..] && t == [t[0]] + t[1..];
    }
  }

  lemma SameLength<T>(s: seq<T>, t: seq<T>)
    requires multiset(s) == multiset(t)
    ensures |s| == |t|
  {
    assert |multiset(s)| == |s| && |multiset(t)| == |t|;
  }

  /** Sorting forgets the order its input came in. */
  lemma SortForgetsOrder<T(!new)>(s: seq<T>, t: seq<T>, key: T -> string)
    requires multiset(s) == multiset(t) && KeyedBy(multiset(s), key)
    ensures SortBy(s, key) == SortBy(t, key)
  {
    SortOrders(s, key);
    SortOrders(t, key);
    OrderUnique(SortBy(s, key), SortBy(t, key), key);
  }

  // -------------------------------------------------- distinctness and order

  lemma {:induction false} DistinctCounts<T, K>(s: seq<T>, key: T -> K, x: T)
    requires Distinct(s, key)
    ensures multiset(s)[x] <= 1
    decreases |s|
  {
    if s != [] {
      var front, last := s[..|s| - 1], s[|s| - 1];
      assert s == front + [last];
      DistinctCounts(front, key, x);
      assert forall i | 0 <= i < |front| :: s[i] == front[i];
    }
  }

  lemma TwicePresent<T>(s: seq<T>, i: nat, j: nat)
    requires i < j < |s| && s[i] == s[j]
    ensures multiset(s)[s[i]] >= 2
  {
    assert s == s[..j] + [s[j]] + s[j + 1..];
    assert s[..j][i] in multiset(s[..j]);
  }

  /** Distinctness does not depend on the order. */
  lemma DistinctForgetsOrder<T, K>(s: seq<T>, t: seq<T>, key: T -> K)
    requires multiset(s) == multiset(t) && Distinct(s, key)
    ensures Distinct(t, key)
  {
    forall i, j | 0 <= i < j < |t|
      ensures key(t[i]) != key(t[j])
    {
      if t[i] == t[j] {
        TwicePresent(t, i, j);
        DistinctCounts(s, key, t[i]);
      } else {
        assert t[i] in multiset(s) && t[j] in multiset(s);
        var a :| 0 <= a < |s| && s[a] == t[i];
        var b :| 0 <= b < |s| && s[b] == t[j];
      }
    }
  }

  lemma DistinctKeyed<T(!new)>(s: seq<T>, key: T -> string)
    requires Distinct(s, key)
    ensures KeyedBy(multiset(s), key)
  {
    forall x, y | x in multiset(s) && y in multiset(s) && key(x) == key(y)
      ensures x == y
    {
      var a :| 0 <= a < |s| && s[a] == x;
      var b :| 0 <= b < |s| && s[b] == y;
    }
  }

  /** Any element of a non-empty set. */
  method Pick<T>(s: set<T>) returns (x: T)
    requires s != {}
    ensures x in s
  {
    x :| x in s;
  }

  /** One pass over a list, with the keys met so far. */
  method AllDistinct<T, K(==)>(s: seq<T>, key: T -> K) returns (ok: bool)
    ensures ok <==> Distinct(s, key)
  {
    var seen: set<K> := {};
    for i := 0 to |s|
      invariant seen == set k | 0 <= k < i :: key(s[k])
      invariant Distinct(s[..i], key)
    {
      if key(s[i]) in seen {
        assert exists k :: 0 <= k < i && key(s[k]) == key(s[i]);
        return false;
      }
      seen := seen + {key(s[i])};
    }
    assert s[..|s|] == s;
    return true;
  }

  lemma SameMembers<T>(s: seq<T>, t: seq<T>)
    requires multiset(s) == multiset(t)
    ensures forall x :: x in s <==> x in t
  {
    forall x
      ensures x in s <==> x in t
    {
      assert x in s <==> x in multiset(s);
      assert x in t <==> x in multiset(t);
    }
  }
}
