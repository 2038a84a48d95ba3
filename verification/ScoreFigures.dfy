/**
 The scorer's derived figures (evals/runner/score.py) over real numbers, with
 every rounded value an integer number of millionths.
 */
module ScoreFigures {
  import opened Wrappers
  import opened Rounding

  /** The two irrational ingredients: square roots, and the natural logarithm of 40. */
  datatype Numerics = Numerics(sqrt: real -> real, ln40: real) {
    ghost predicate Exact() {
      && ln40 > 0.0
      && forall x | x >= 0.0 :: IsRoot(sqrt(x), x)
    }
  }

  predicate IsRoot(root: real, x: real) { root >= 0.0 && root * root == x }

  datatype Interval = Interval(low: int, high: int)

  datatype Rate = Rate(numerator: int, denominator: int, rate: Option<int>, interval: Option<Interval>)

  datatype Timing = Timing(sampleCount: int, p50: Option<int>, p90: Option<int>)

  datatype Delta = Delta(sampleCount: int, mean: Option<int>)

  datatype Uplift = Uplift(
    pairCount: int,
    unmatchedPairCount: int,
    plainCompletion: Rate,
    jstackCompletion: Rate,
    pairedDifference: Option<int>,
    interval: Option<Interval>)

  const Z := 1.959963984540054

  function Max(x: real, y: real): real { if x < y then y else x }
  function Min(x: real, y: real): real { if y < x then y else x }

  // ------------------------------------------------------------------- rates

  function WilsonCenter(p: real, n: real): real
    requires n > 0.0
  {
    (p + Z * Z / (2.0 * n)) / (1.0 + Z * Z / n)
  }

  function WilsonVariance(p: real, n: real): real
    requires n > 0.0
  {
    (p * (1.0 - p) + Z * Z / (4.0 * n)) / n
  }

  function WilsonMargin(a: Numerics, p: real, n: real): real
    requires n > 0.0
  {
    Z * a.sqrt(WilsonVariance(p, n)) / (1.0 + Z * Z / n)
  }

  function WilsonInterval(a: Numerics, p: real, n: real): Interval
    requires n > 0.0
  {
    var center, margin := WilsonCenter(p, n), WilsonMargin(a, p, n);
    Interval(Micros(Max(0.0, center - margin)), Micros(Min(1.0, center + margin)))
  }

  function Ratio(k: int, n: nat): real
    requires n > 0
  {
    k as real / n as real
  }

  function RateOf(a: Numerics, numerator: int, denominator: nat): Rate {
    if denominator == 0 then Rate(numerator, 0, None, None)
    else RateFor(a, numerator, denominator, Ratio(numerator, denominator))
  }

  function RateFor(a: Numerics, numerator: int, denominator: nat, p: real): Rate
    requires denominator > 0
  {
    Rate(numerator, denominator, Some(Micros(p)), Some(WilsonInterval(a, p, denominator as real)))
  }

  lemma SquareGrows(x: real, y: real)
    requires x > y >= 0.0
    ensures x * x > y * y
  {
    assert (x - y) * (x + y) == x * x - y * y;
    ProductPositive(x - y, x + y);
  }

  lemma ProductPositive(x: real, y: real)
    requires x > 0.0 && y > 0.0
    ensures x * y > 0.0
  {
  }

  lemma SquareOrder(x: real, y: real)
    requires y >= 0.0 && x * x <= y * y
    ensures -y <= x <= y
  {
    if x > y { SquareGrows(x, y); }
    if -x > y { SquareGrows(-x, y); }
  }

  lemma ProductNonNegative(x: real, y: real)
    requires x >= 0.0 && y >= 0.0
    ensures x * y >= 0.0
  {
  }

  // The same quantities with z squared as `w` and 1/n as `u`.
  function Spread(p: real, w: real, u: real): real { (p * (1.0 - p) + w * u / 4.0) * u }

  function Pull(p: real, w: real, u: real): real { w * u * (p - 0.5) }

  /** The heart of the Wilson bound. */
  lemma WilsonSquares(p: real, w: real, u: real)
    requires 0.0 <= p <= 1.0 && w >= 0.0 && u >= 0.0
    ensures Pull(p, w, u) * Pull(p, w, u) <= w * Spread(p, w, u)
  {
    var q := p * (1.0 - p);
    ProductNonNegative(p, 1.0 - p);
    assert (p - 0.5) * (p - 0.5) == 0.25 - q;
    ProductNonNegative(w, u);
    var wu := w * u;
    assert (wu * (p - 0.5)) * (wu * (p - 0.5)) == wu * wu * (0.25 - q);
    assert w * ((q + wu / 4.0) * u) == wu * q + wu * wu / 4.0;
    ProductNonNegative(wu, q);
    ProductNonNegative(wu * wu, q);
  }

  lemma VarianceNonNegative(p: real, n: real)
    requires 0.0 <= p <= 1.0 && n > 0.0
    ensures WilsonVariance(p, n) >= 0.0
  {
    ProductNonNegative(p, 1.0 - p);
  }

  /** The raw proportion is off the Wilson center by at most the margin, before both are scaled. */
  lemma WilsonUnscaled(p: real, z: real, w: real, u: real, root: real)
    requires 0.0 <= p <= 1.0 && z >= 0.0 && w == z * z && w >= 0.0 && u >= 0.0
    requires IsRoot(root, Spread(p, w, u))
    ensures -(z * root) <= Pull(p, w, u) <= z * root
  {
    hide Spread, Pull;
    WilsonSquares(p, w, u);
    RootBound(Pull(p, w, u), z, w, root, Spread(p, w, u));
  }

  lemma RootBound(half: real, z: real, w: real, root: real, v: real)
    requires z >= 0.0 && w == z * z && IsRoot(root, v) && half * half <= w * v
    ensures -(z * root) <= half <= z * root
  {
    SquareOfProduct(z, root);
    ProductNonNegative(z, root);
    SquareOrder(half, z * root);
  }

  lemma SquareOfProduct(x: real, y: real)
    ensures (x * y) * (x * y) == (x * x) * (y * y)
  {
  }

  lemma WilsonScaled(p: real, z: real, w: real, u: real, root: real)
    requires 0.0 <= p <= 1.0 && z >= 0.0 && w == z * z && w >= 0.0 && u >= 0.0
    requires IsRoot(root, Spread(p, w, u))
    ensures 1.0 + w * u > 0.0
    ensures var center, margin := (p + w * u / 2.0) / (1.0 + w * u), z * root / (1.0 + w * u);
      center - margin <= p <= center + margin
  {
    hide IsRoot;
    ProductNonNegative(w, u);
    WilsonUnscaled(p, z, w, u, root);
    Centered(p, w * u);
    Quotients(p, p + w * u / 2.0, z * root, 1.0 + w * u);
  }

  lemma Centered(p: real, s: real)
    ensures s * (p - 0.5) == p * (1.0 + s) - (p + s / 2.0)
  {
  }

  lemma Quotients(p: real, c: real, m: real, scale: real)
    requires scale > 0.0 && -m <= p * scale - c <= m
    ensures c / scale - m / scale <= p <= c / scale + m / scale
  {
    assert c / scale * scale == c && m / scale * scale == m;
    if p > c / scale + m / scale { Scaled(p, c / scale + m / scale, scale); }
    if p < c / scale - m / scale { Scaled(c / scale - m / scale, p, scale); }
  }

  lemma Scaled(x: real, y: real, scale: real)
    requires scale > 0.0 && x > y
    ensures x * scale > y * scale
  {
    ProductPositive(x - y, scale);
  }

  /** The raw proportion lies inside its Wilson interval. */
  lemma WilsonContains(a: Numerics, p: real, n: real)
    requires a.Exact() && 0.0 <= p <= 1.0 && n > 0.0
    ensures WilsonCenter(p, n) - WilsonMargin(a, p, n) <= p <= WilsonCenter(p, n) + WilsonMargin(a, p, n)
  {
    VarianceNonNegative(p, n);
    var root := a.sqrt(WilsonVariance(p, n));
    assert IsRoot(root, WilsonVariance(p, n));
    var u := 1.0 / n;
    Reciprocal(Z * Z, n);
    Reciprocal(p * (1.0 - p) + Z * Z / (4.0 * n), n);
    ProductNonNegative(Z, Z);
    WilsonScaled(p, Z, Z * Z, u, root);
  }

  lemma Reciprocal(x: real, n: real)
    requires n > 0.0
    ensures x / n == x * (1.0 / n)
    ensures x / (2.0 * n) == x * (1.0 / n) / 2.0
    ensures x / (4.0 * n) == x * (1.0 / n) / 4.0
  {
    var u := 1.0 / n;
    assert u * n == 1.0;
    assert (x * u) * n == x;
    assert (x * u / 2.0) * (2.0 * n) == x;
    assert (x * u / 4.0) * (4.0 * n) == x;
  }

  /** The equation whose two roots are the ends of the Wilson interval. */
  predicate WilsonEquation(p: real, n: real, w: real, x: real) { n * ((p - x) * (p - x)) == w * (x * (1.0 - x)) }

  lemma WilsonRoots(a: Numerics, p: real, n: real, x: real)
    requires a.Exact() && 0.0 <= p <= 1.0 && n > 0.0
    requires x == WilsonCenter(p, n) - WilsonMargin(a, p, n) || x == WilsonCenter(p, n) + WilsonMargin(a, p, n)
    ensures WilsonEquation(p, n, Z * Z, x) && WilsonMargin(a, p, n) >= 0.0
  {
    hide WilsonEquation;
    VarianceNonNegative(p, n);
    var root, u, w := a.sqrt(WilsonVariance(p, n)), 1.0 / n, Z * Z;
    assert IsRoot(root, WilsonVariance(p, n));
    Reciprocal(Z * Z, n);
    Reciprocal(p * (1.0 - p) + Z * Z / (4.0 * n), n);
    WilsonEnds(p, Z, w, n, u, root, x);
  }

  lemma WilsonEnds(p: real, z: real, w: real, n: real, u: real, root: real, x: real)
    requires z >= 0.0 && w == z * z && n * u == 1.0 && u >= 0.0 && IsRoot(root, Spread(p, w, u))
    requires 1.0 + w * u > 0.0 ==>
      var center, margin := (p + w * u / 2.0) / (1.0 + w * u), z * root / (1.0 + w * u);
      x == center - margin || x == center + margin
    ensures 1.0 + w * u > 0.0 && z * root / (1.0 + w * u) >= 0.0
    ensures WilsonEquation(p, n, w, x)
  {
    hide Spread, IsRoot, WilsonEquation;
    ProductNonNegative(z, z);
    ProductNonNegative(w, u);
    Squared(p, z, w, u, root);
    SpreadScaled(p, w, u, w * u);
    EndsOf(p, w, n, u, w * u, p + w * u / 2.0, z * root, x);
  }

  lemma Squared(p: real, z: real, w: real, u: real, root: real)
    requires z >= 0.0 && w == z * z && IsRoot(root, Spread(p, w, u))
    ensures z * root >= 0.0 && (z * root) * (z * root) == w * Spread(p, w, u)
  {
    hide Spread;
    SquareOfProduct(z, root);
    ProductNonNegative(z, root);
  }

  lemma EndsOf(p: real, w: real, n: real, u: real, t: real, b: real, d: real, x: real)
    requires t >= 0.0 && t == w * u && n * u == 1.0 && b == p + t / 2.0 && d >= 0.0
    requires d * d == t * (p * (1.0 - p)) + t * t / 4.0
    requires x == b / (1.0 + t) - d / (1.0 + t) || x == b / (1.0 + t) + d / (1.0 + t)
    ensures d / (1.0 + t) >= 0.0 && WilsonEquation(p, n, w, x)
  {
    hide WilsonEquation;
    Quotient(b, 1.0 + t);
    Quotient(d, 1.0 + t);
    EndsSolve(p, w, n, u, t, b / (1.0 + t), d / (1.0 + t), d, x);
  }

  lemma Quotient(x: real, scale: real)
    requires scale > 0.0
    ensures x / scale * scale == x && (x >= 0.0 ==> x / scale >= 0.0)
  {
    assert x / scale * scale == x;
    if x / scale < 0.0 { Scaled(0.0, x / scale, scale); }
  }

  predicate Solves(p: real, t: real, x: real) { (p - x) * (p - x) == t * (x * (1.0 - x)) }

  lemma EndsSolve(p: real, w: real, n: real, u: real, t: real, c: real, m: real, d: real, x: real)
    requires t >= 0.0 && t == w * u && n * u == 1.0 && (x == c - m || x == c + m)
    requires c * (1.0 + t) == p + t / 2.0 && m * (1.0 + t) == d && d * d == t * (p * (1.0 - p)) + t * t / 4.0
    ensures WilsonEquation(p, n, w, x)
  {
    hide WilsonEquation, Solves;
    EndScaled(p, t, c, m, d, x);
    Quadratic(p, t, x, x * (1.0 + t), p + t / 2.0, d);
    Unscaled(p, n, u, w, t, x);
  }

  lemma EndScaled(p: real, t: real, c: real, m: real, d: real, x: real)
    requires c * (1.0 + t) == p + t / 2.0 && m * (1.0 + t) == d && (x == c - m || x == c + m)
    ensures var y, b := x * (1.0 + t), p + t / 2.0; (y - b) * (y - b) == d * d
  {
    var y, b := x * (1.0 + t), p + t / 2.0;
    assert y == b - d || y == b + d;
  }

  lemma Unscaled(p: real, n: real, u: real, w: real, t: real, x: real)
    requires n * u == 1.0 && t == w * u && Solves(p, t, x)
    ensures WilsonEquation(p, n, w, x)
  {
    var right := x * (1.0 - x);
    assert n * (w * u * right) == (n * u) * (w * right);
  }

  lemma SpreadScaled(p: real, w: real, u: real, t: real)
    requires t == w * u
    ensures w * Spread(p, w, u) == t * (p * (1.0 - p)) + t * t / 4.0
  {
    var q := p * (1.0 - p);
    assert w * ((q + t / 4.0) * u) == t * q + t * t / 4.0;
  }

  lemma Quadratic(p: real, t: real, x: real, y: real, b: real, d: real)
    requires t >= 0.0 && y == x * (1.0 + t) && b == p + t / 2.0
    requires (y - b) * (y - b) == d * d && d * d == t * (p * (1.0 - p)) + t * t / 4.0
    ensures Solves(p, t, x)
  {
    var gap := (p - x) * (p - x) - t * (x * (1.0 - x));
    GapScaled(p, t, x, gap);
    assert (1.0 + t) * gap == y * y - 2.0 * b * y + (1.0 + t) * (p * p);
    assert y * y - 2.0 * b * y == d * d - b * b;
    assert b * b == p * p + p * t + t * t / 4.0;
    if gap > 0.0 { Scaled(gap, 0.0, 1.0 + t); }
    if gap < 0.0 { Scaled(0.0, gap, 1.0 + t); }
  }

  lemma GapScaled(p: real, t: real, x: real, gap: real)
    requires gap == (p - x) * (p - x) - t * (x * (1.0 - x))
    ensures var y := x * (1.0 + t); (1.0 + t) * gap == y * y - 2.0 * (p + t / 2.0) * y + (1.0 + t) * (p * p)
  {
    assert gap == (1.0 + t) * (x * x) - (2.0 * p + t) * x + p * p;
  }

  // ------------------------------------------------------------- percentiles

  ghost predicate Ordered(s: seq<real>) {
    forall i, j | 0 <= i <= j < |s| :: s[i] <= s[j]
  }

  function InsertReal(x: real, s: seq<real>): (r: seq<real>)
    ensures multiset(r) == multiset(s) + multiset{x}
  {
    if s == [] || x <= s[0] then [x] + s
    else
      assert s == [s[0]] + s[1..];
      [s[0]] + InsertReal(x, s[1..])
  }

  lemma {:induction false} InsertKeepsOrder(x: real, s: seq<real>)
    requires Ordered(s)
    ensures Ordered(InsertReal(x, s))
  {
    if s != [] && x > s[0] {
      var rest := InsertReal(x, s[1..]);
      InsertKeepsOrder(x, s[1..]);
      forall j | 0 <= j < |rest|
        ensures s[0] <= rest[j]
      {
        assert rest[j] in multiset(rest);
        if rest[j] != x { assert rest[j] in s[1..]; }
      }
    }
  }

  function Sorted(s: seq<real>): (r: seq<real>)
    ensures multiset(r) == multiset(s)
    ensures |r| == |s|
    ensures Ordered(r)
  {
    if s == [] then []
    else
      assert s == [s[0]] + s[1..];
      InsertKeepsOrder(s[0], Sorted(s[1..]));
      var r := InsertReal(s[0], Sorted(s[1..]));
      assert |multiset(r)| == |r| && |multiset(s)| == |s|;
      r
  }

  function Ceiling(x: real): int { -((-x).Floor) }

  /** Linear interpolation between the two neighbouring order statistics. */
  function Interpolate(s: seq<real>, position: real): real
    requires 0.0 <= position <= |s| as real - 1.0
  {
    var lower, upper := position.Floor, Ceiling(position);
    if lower == upper then s[lower]
    else
      var weight := position - lower as real;
      s[lower] * (1.0 - weight) + s[upper] * weight
  }

  function Position(n: nat, q: real): (p: real)
    requires n > 0 && 0.0 <= q <= 1.0
    ensures 0.0 <= p <= n as real - 1.0
  {
    ScaledBelow((n - 1) as real, q);
    (n - 1) as real * q
  }

  function Percentile(values: seq<real>, q: real): Option<int>
    requires 0.0 <= q <= 1.0
  {
    if values == [] then None
    else
      var ordered := Sorted(values);
      if |ordered| == 1 then Some(Micros(ordered[0]))
      else
        Some(Micros(Interpolate(ordered, Position(|ordered|, q))))
  }

  function TimingOf(values: seq<real>): Timing {
    Timing(|values|, Percentile(values, 0.5), Percentile(values, 0.9))
  }

  lemma ScaledBelow(x: real, q: real)
    requires x >= 0.0 && 0.0 <= q <= 1.0
    ensures 0.0 <= x * q <= x
  {
    assert x * q + x * (1.0 - q) == x;
    ProductNonNegative(x, q);
    ProductNonNegative(x, 1.0 - q);
  }

  /** An interpolated value lies between its two neighbours. */
  lemma InterpolateBetween(s: seq<real>, position: real)
    requires Ordered(s) && 0.0 <= position <= |s| as real - 1.0
    ensures s[position.Floor] <= Interpolate(s, position) <= s[Ceiling(position)]
  {
    var lower, upper := position.Floor, Ceiling(position);
    if lower != upper {
      var weight, gap := position - lower as real, s[upper] - s[lower];
      ScaledBelow(gap, weight);
      assert Interpolate(s, position) == s[lower] + gap * weight;
    }
  }

  /** A later position never interpolates to a smaller value. */
  lemma InterpolateMonotone(s: seq<real>, p: real, q: real)
    requires Ordered(s) && 0.0 <= p <= q <= |s| as real - 1.0
    ensures Interpolate(s, p) <= Interpolate(s, q)
  {
    InterpolateBetween(s, p);
    InterpolateBetween(s, q);
    if p.Floor == q.Floor && p.Floor as real != p {
      var lower := p.Floor;
      var gap := s[lower + 1] - s[lower];
      assert Interpolate(s, p) == s[lower] + gap * (p - lower as real);
      assert Interpolate(s, q) == s[lower] + gap * (q - lower as real);
      ProductNonNegative(gap, q - p);
    } else if p.Floor as real != p {
      assert Ceiling(p) <= q.Floor;
    }
  }

  /** Percentiles are ordered and stay within any bounds on the sample. */
  lemma PercentilesOrdered(values: seq<real>, low: int, high: int)
    requires values != []
    requires forall i | 0 <= i < |values| :: low as real <= values[i] <= high as real
    ensures Percentile(values, 0.5).Some? && Percentile(values, 0.9).Some?
    ensures low * 1000000 <= Percentile(values, 0.5).value <= Percentile(values, 0.9).value <= high * 1000000
  {
    hide Interpolate, Micros, InsertReal, Sorted;
    var s := Sorted(values);
    forall i | 0 <= i < |s|
      ensures low as real <= s[i] <= high as real
    {
      assert s[i] in multiset(values);
    }
    OrderedPercentiles(s, low, high);
  }

  lemma OrderedPercentiles(s: seq<real>, low: int, high: int)
    requires s != [] && Ordered(s)
    requires forall i | 0 <= i < |s| :: low as real <= s[i] <= high as real
    ensures low * 1000000 <= Micros(s[0]) <= high * 1000000
    ensures low * 1000000 <= Micros(Interpolate(s, Position(|s|, 0.5)))
         <= Micros(Interpolate(s, Position(|s|, 0.9))) <= high * 1000000
  {
    hide Interpolate, Micros;
    var p, q := Position(|s|, 0.5), Position(|s|, 0.9);
    MicrosWithin(s[0], low, high);
    InterpolateMonotone(s, p, q);
    InterpolateBetween(s, p);
    InterpolateBetween(s, q);
    MicrosMonotone(Interpolate(s, p), Interpolate(s, q));
    MicrosWithin(Interpolate(s, p), low, high);
    MicrosWithin(Interpolate(s, q), low, high);
  }

  /** The value at a position of an ordered sample: the gap between its neighbours is
      divided as the position divides the step between them. */
  ghost predicate AtPosition(value: Option<int>, s: seq<real>, position: real) {
    var i := position.Floor;
    && 0 <= i < |s|
    && value == Some(Micros(Along(s[i], if i + 1 < |s| then s[i + 1] else s[i], position - i as real)))
  }

  function Along(low: real, high: real, weight: real): real { low + weight * (high - low) }

  /** The value `q` of the way through an ordered sample. */
  ghost predicate AtRank(value: Option<int>, s: seq<real>, q: real) {
    if s == [] then value == None else AtPosition(value, s, (|s| - 1) as real * q)
  }

  /** However the sample is put in order. */
  ghost predicate Ranked(t: Timing, values: seq<real>) {
    forall s: seq<real> | Ordered(s) && multiset(s) == multiset(values) ::
      AtRank(t.p50, s, 0.5) && AtRank(t.p90, s, 0.9)
  }

  lemma {:induction false} OnlyOneOrder(s: seq<real>, t: seq<real>)
    requires Ordered(s) && Ordered(t) && multiset(s) == multiset(t)
    ensures s == t
    decreases |s|
  {
    if s == [] || t == [] {
      assert |multiset(s)| == |s| && |multiset(t)| == |t|;
    } else {
      SmallestFirst(s, t);
      SmallestFirst(t, s);
      RestOrdered(s);
      RestOrdered(t);
      OnlyOneOrder(s[1..], t[1..]);
      assert s == [s[0]] + s[1..] && t == [t[0]] + t[1..];
    }
  }

  lemma SmallestFirst(s: seq<real>, t: seq<real>)
    requires s != [] && t != [] && Ordered(s) && multiset(s) == multiset(t)
    ensures s[0] <= t[0]
  {
    assert t[0] in multiset(t);
    var i :| 0 <= i < |s| && s[i] == t[0];
  }

  lemma RestOrdered(s: seq<real>)
    requires s != [] && Ordered(s)
    ensures Ordered(s[1..]) && multiset(s[1..]) == multiset(s) - multiset{s[0]}
  {
    assert s == [s[0]] + s[1..];
  }

  lemma PercentileRanks(values: seq<real>, q: real)
    requires 0.0 <= q <= 1.0
    ensures AtRank(Percentile(values, q), Sorted(values), q)
  {
    if values != [] { RankDivides(Sorted(values), q); }
  }

  lemma RankDivides(s: seq<real>, q: real)
    requires 0.0 <= q <= 1.0 && s != []
    ensures AtRank(Some(Micros(if |s| == 1 then s[0] else Interpolate(s, Position(|s|, q)))), s, q)
  {
    hide Micros, AtPosition, Interpolate;
    if |s| > 1 {
      InterpolateDivides(s, Position(|s|, q));
    } else {
      OneDivides(s, (|s| - 1) as real * q);
    }
  }

  lemma OneDivides(s: seq<real>, position: real)
    requires |s| == 1 && position == 0.0
    ensures AtPosition(Some(Micros(s[0])), s, position)
  {
    hide Micros;
    Undivided(s[0], s[0], position - 0 as real);
  }

  lemma InterpolateDivides(s: seq<real>, position: real)
    requires 0.0 <= position <= |s| as real - 1.0
    ensures AtPosition(Some(Micros(Interpolate(s, position))), s, position)
  {
    hide Micros, Along, Interpolate;
    InterpolatedAlong(s, position, position.Floor);
  }

  lemma InterpolatedAlong(s: seq<real>, position: real, i: int)
    requires 0.0 <= position <= |s| as real - 1.0 && i == position.Floor
    ensures 0 <= i < |s|
    ensures Interpolate(s, position) == Along(s[i], if i + 1 < |s| then s[i + 1] else s[i], position - i as real)
  {
    if position == i as real {
      assert -position == (-i) as real && Ceiling(position) == i;
      Undivided(s[i], if i + 1 < |s| then s[i + 1] else s[i], position - i as real);
    } else {
      assert Ceiling(position) == i + 1;
      Divided(s[i], s[i + 1], position - i as real);
    }
  }

  lemma Divided(low: real, high: real, weight: real)
    ensures low * (1.0 - weight) + high * weight == Along(low, high, weight)
  {
  }

  lemma Undivided(low: real, high: real, weight: real)
    requires weight == 0.0
    ensures Along(low, high, weight) == low
  {
  }

  lemma TimingRanks(values: seq<real>)
    ensures Ranked(TimingOf(values), values)
  {
    hide Percentile, AtRank, Sorted;
    forall s: seq<real> | Ordered(s) && multiset(s) == multiset(values)
      ensures AtRank(Percentile(values, 0.5), s, 0.5) && AtRank(Percentile(values, 0.9), s, 0.9)
    {
      OnlyOneOrder(s, Sorted(values));
      PercentileRanks(values, 0.5);
      PercentileRanks(values, 0.9);
    }
  }

  // ------------------------------------------------------- means and uplifts

  function DeltaOf(count: nat, total: real): Delta {
    Delta(count, if count == 0 then None else Some(Micros(total / count as real)))
  }

  /** The distribution-free margin for `n` bounded paired differences. */
  function HoeffdingMargin(a: Numerics, n: nat): real
    requires n > 0
  {
    a.sqrt(2.0 * a.ln40 / n as real)
  }

  /** The squared margin, times the number of pairs, is twice the logarithm of 40. */
  lemma HoeffdingSquares(a: Numerics, n: nat)
    requires a.Exact() && n > 0
    ensures HoeffdingMargin(a, n) >= 0.0
    ensures HoeffdingMargin(a, n) * HoeffdingMargin(a, n) * n as real == 2.0 * a.ln40
  {
    var x := 2.0 * a.ln40 / n as real;
    assert x * n as real == 2.0 * a.ln40;
    if x < 0.0 { Scaled(0.0, x, n as real); }
    assert IsRoot(a.sqrt(x), x);
  }

  function HoeffdingInterval(a: Numerics, mean: real, n: nat): Interval
    requires n > 0
  {
    var margin := HoeffdingMargin(a, n);
    Interval(Micros(Max(-1.0, mean - margin)), Micros(Min(1.0, mean + margin)))
  }

  function MeanDifference(plain: int, jstack: int, pairs: nat): real {
    if pairs == 0 then 0.0 else (jstack - plain) as real / pairs as real
  }

  /** The uplift of one mode from its pair counts; the paired differences sum to
      the difference of the two success counts. */
  function UpliftOf(a: Numerics, pairs: nat, unmatched: nat, plain: int, jstack: int): Uplift {
    var mean := MeanDifference(plain, jstack, pairs);
    Uplift(
      pairs, unmatched, RateOf(a, plain, pairs), RateOf(a, jstack, pairs),
      if pairs == 0 then None else Some(Micros(mean)),
      if pairs < 2 then None else Some(HoeffdingInterval(a, mean, pairs)))
  }
}
