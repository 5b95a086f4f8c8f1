/**
 * Cloud cover in percent converted to oktas (eighths of sky), the Cloud9am
 * feature: round(cloud_cover / 100 * 8). Python 3's round() returns the
 * nearest integer and breaks ties toward the even one. Arithmetic is exact
 * over `real`.
 */
module Oktas {

  /** Nearest integer, ties to the even neighbour (Python's round on one argument). */
  function RoundHalfEven(x: real): (n: int)
    ensures n as real - 0.5 <= x <= n as real + 0.5
    ensures x == n as real - 0.5 || x == n as real + 0.5 ==> n % 2 == 0
  {
    var f := x.Floor;
    var frac := x - f as real;
    if frac < 0.5 then f
    else if frac > 0.5 then f + 1
    else if f % 2 == 0 then f
    else f + 1
  }

  /** The two properties in RoundHalfEven's contract single out its result. */
  lemma RoundHalfEvenUnique(x: real, m: int)
    requires m as real - 0.5 <= x <= m as real + 0.5
    requires x == m as real - 0.5 || x == m as real + 0.5 ==> m % 2 == 0
    ensures RoundHalfEven(x) == m
  {
  }

  /** Rounding never reverses the order of two numbers. */
  lemma RoundHalfEvenMonotone(x: real, y: real)
    requires x <= y
    ensures RoundHalfEven(x) <= RoundHalfEven(y)
  {
  }

  /** An integer rounds to itself. */
  lemma RoundOfInteger(k: int)
    ensures RoundHalfEven(k as real) == k
  {
    RoundHalfEvenUnique(k as real, k);
  }

  /** Cloud9am: the cover percentage scaled to eighths and rounded, within half an okta of the exact share. */
  function CloudOktas(cover: real): (oktas: int)
    ensures oktas as real - 0.5 <= cover * 0.08 <= oktas as real + 0.5
  {
    RoundHalfEven(cover / 100.0 * 8.0)
  }

  /** Over the percentage range [0, 100] the okta count stays in 0..8. */
  lemma CloudOktasRange(cover: real)
    requires 0.0 <= cover <= 100.0
    ensures 0 <= CloudOktas(cover) <= 8
  {
    RoundHalfEvenMonotone(0.0, cover / 100.0 * 8.0);
    RoundHalfEvenMonotone(cover / 100.0 * 8.0, 8.0);
    RoundOfInteger(0);
    RoundOfInteger(8);
  }

  /** A clear sky is 0 oktas and an overcast one 8. */
  lemma CloudOktasEnds()
    ensures CloudOktas(0.0) == 0
    ensures CloudOktas(100.0) == 8
  {
    RoundOfInteger(0);
    RoundOfInteger(8);
  }

  /** More cloud cover never gives fewer oktas. */
  lemma CloudOktasMonotone(a: real, b: real)
    requires a <= b
    ensures CloudOktas(a) <= CloudOktas(b)
  {
    RoundHalfEvenMonotone(a / 100.0 * 8.0, b / 100.0 * 8.0);
  }

  /** Ties go to the even count: 6.25% (half an okta) is 0, 18.75% (one and a half) is 2. */
  lemma CloudOktasTies()
    ensures CloudOktas(6.25) == 0
    ensures CloudOktas(18.75) == 2
  {
    RoundHalfEvenUnique(0.5, 0);
    RoundHalfEvenUnique(1.5, 2);
  }
}
