/**
 Python's `round(x, 6)` in exact arithmetic: the nearest integer number of
 millionths, ties to the even one.
 */
module Rounding {

  /** The nearest integer, ties to even. */
  function RoundEven(x: real): (r: int)
    ensures Nearest(r, x)
  {
    var below := x.Floor;
    var rest := x - below as real;
    if rest < 0.5 then below
    else if rest > 0.5 then below + 1
    else if below % 2 == 0 then below else below + 1
  }

  ghost predicate Nearest(r: int, x: real) {
    && -0.5 <= r as real - x <= 0.5
    && (r as real - x == 0.5 || r as real - x == -0.5 ==> r % 2 == 0)
  }

  /** A real number as integer millionths. */
  function Micros(x: real): int { RoundEven(x * 1000000.0) }

  /** The real number that integer millionths stand for. */
  function FromMicros(m: int): real { m as real / 1000000.0 }

  /** "Nearest, ties to even" leaves no choice. */
  lemma NearestUnique(r: int, x: real)
    requires Nearest(r, x)
    ensures r == RoundEven(x)
  {
    var other := RoundEven(x);
  }

  lemma RoundInteger(n: int)
    ensures RoundEven(n as real) == n
  {
    NearestUnique(n, n as real);
  }

  lemma RoundMonotone(x: real, y: real)
    requires x <= y
    ensures RoundEven(x) <= RoundEven(y)
  {
    var a, b := RoundEven(x), RoundEven(y);
  }

  lemma MicrosMonotone(x: real, y: real)
    requires x <= y
    ensures Micros(x) <= Micros(y)
  {
    RoundMonotone(x * 1000000.0, y * 1000000.0);
  }

  lemma MicrosOfInteger(n: int)
    ensures Micros(n as real) == n * 1000000
  {
    assert n as real * 1000000.0 == (n * 1000000) as real;
    RoundInteger(n * 1000000);
  }

  lemma MicrosWithin(x: real, low: int, high: int)
    requires low as real <= x <= high as real
    ensures low * 1000000 <= Micros(x) <= high * 1000000
  {
    MicrosMonotone(low as real, x);
    MicrosMonotone(x, high as real);
    MicrosOfInteger(low);
    MicrosOfInteger(high);
  }

  function Abs(n: int): nat { if n < 0 then -n else n }

  /** Numbers half a millionth apart round at most one millionth apart. */
  lemma RoundClose(x: real, y: real)
    requires -0.5 <= x - y <= 0.5
    ensures Abs(RoundEven(x) - RoundEven(y)) <= 1
  {
  }

  /** Rounding commutes with a sum or difference of two up to one millionth. */
  lemma RoundOfSum(x: real, y: real)
    ensures Abs(RoundEven(x + y) - (RoundEven(x) + RoundEven(y))) <= 1
    ensures Abs(RoundEven(x - y) - (RoundEven(x) - RoundEven(y))) <= 1
  {
  }

  /** Exactly halfway between an even integer and the odd one above it: 0.5, 2.5, -1.5. */
  predicate TieAboveEven(x: real) {
    x == x.Floor as real + 0.5 && x.Floor % 2 == 0
  }

  /** Exactly halfway between an odd integer and the even one above it: 1.5, 3.5, -0.5. */
  predicate TieAboveOdd(x: real) {
    x == x.Floor as real + 0.5 && x.Floor % 2 == 1
  }

  /** Three amounts that all round down by a half, or all round up by a half. */
  predicate TripleTie(x: real, y: real, z: real) {
    || (TieAboveEven(x) && TieAboveEven(y) && TieAboveEven(z))
    || (TieAboveOdd(x) && TieAboveOdd(y) && TieAboveOdd(z))
  }

  /** The rounded total of three amounts is within one millionth of the total of
      their roundings, except exactly when all three tie the same way. */
  lemma RoundOfThree(x: real, y: real, z: real)
    ensures Abs(RoundEven(x + y + z) - (RoundEven(x) + RoundEven(y) + RoundEven(z))) <= 1
       <==> !TripleTie(x, y, z)
  {
    var error := RoundEven(x) as real - x + (RoundEven(y) as real - y) + (RoundEven(z) as real - z);
    if TripleTie(x, y, z) {
      var f := x.Floor + y.Floor + z.Floor;
      assert x + y + z == (f + 1) as real + 0.5;
      assert (x + y + z).Floor == f + 1;
    } else {
      assert -1.5 < error < 1.5;
    }
  }
}
