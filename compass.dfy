/**
 * Conversion of a wind bearing in degrees to one of the 16 compass points
 * (degrees_to_cardinal in app.py).
 *
 * The lookup index is int((d + 11.25) / 22.5) taken modulo 16. Python's int()
 * truncates toward zero and Python's % with a positive divisor never returns a
 * negative number; both are written out here. Arithmetic is exact over `real`,
 * an idealisation of the source's IEEE doubles.
 */
module Compass {

  /** The 16 compass points, clockwise from north. */
  const Directions: seq<string> :=
    ["N", "NNE", "NE", "ENE", "E", "ESE", "SE", "SSE",
     "S", "SSW", "SW", "WSW", "W", "WNW", "NW", "NNW"]

  /** Python's int() applied to a float: truncation toward zero. */
  function Trunc(x: real): (n: int)
    ensures 0.0 <= x ==> n as real <= x < n as real + 1.0
    ensures x < 0.0 ==> n as real - 1.0 < x <= n as real
    ensures -1.0 < x < 1.0 ==> n == 0
  {
    if 0.0 <= x then x.Floor else -((-x).Floor)
  }

  /**
   * The index into Directions before wrap-around, int((d + 11.25) / 22.5).
   * From -11.25 on it is the floor of the quotient; below, truncation rounds
   * the negative quotient up toward 0.
   */
  function RawIndex(d: real): (ix: int)
    ensures -11.25 <= d ==> ix == ((d + 11.25) / 22.5).Floor
    ensures d < -11.25 ==> ix == -((-(d + 11.25) / 22.5).Floor)
  {
    Trunc((d + 11.25) / 22.5)
  }

  /** The wrapped index; Python's `ix % 16` agrees with Dafny's % for a positive divisor. */
  function CardinalIndex(d: real): (k: nat)
    ensures k < |Directions|
  {
    RawIndex(d) % 16
  }

  function DegreesToCardinal(d: real): (point: string)
    ensures point in Directions
  {
    Directions[CardinalIndex(d)]
  }

  /** Bearing d lies in the 22.5-degree sector centred on 22.5 * n. */
  ghost predicate InSector(d: real, n: int) {
    22.5 * n as real - 11.25 <= d < 22.5 * n as real + 11.25
  }

  /** The 16 labels are pairwise different, so a label identifies its index. */
  lemma DirectionsDistinct(i: nat, j: nat)
    requires i < |Directions| && j < |Directions| && i != j
    ensures Directions[i] != Directions[j]
  {
    var a, b := Directions[i], Directions[j];
    if |a| == |b| {
      if |a| == 1 {
        assert a[0] != b[0];
      } else if |a| == 2 {
        assert a[0] != b[0] || a[1] != b[1];
      } else {
        assert a[0] != b[0] || a[1] != b[1] || a[2] != b[2];
      }
    }
  }

  /**
   * Every bearing in the sector around 22.5 * n (n >= 0) is labelled
   * Directions[n % 16]; in particular 22.5 * k is labelled Directions[k].
   */
  lemma SectorLabel(d: real, n: nat)
    requires InSector(d, n)
    ensures CardinalIndex(d) == n % 16
    ensures DegreesToCardinal(d) == Directions[n % 16]
  {
    var x := (d + 11.25) / 22.5;
    assert x * 22.5 == d + 11.25;
    assert n as real <= x < n as real + 1.0;
    assert RawIndex(d) == n;
  }

  /** Both ends of the circle are north: [0, 11.25) and [348.75, 360). */
  lemma NorthWraps(d: real)
    requires 0.0 <= d < 11.25 || 348.75 <= d < 360.0
    ensures DegreesToCardinal(d) == "N"
  {
    if d < 11.25 {
      SectorLabel(d, 0);
    } else {
      SectorLabel(d, 16);
    }
  }

  /** The non-negative sector index of a bearing no smaller than -11.25. */
  lemma SectorOf(d: real) returns (n: nat)
    requires -11.25 <= d
    ensures InSector(d, n) && n == RawIndex(d)
  {
    var x := (d + 11.25) / 22.5;
    assert x * 22.5 == d + 11.25;
    n := RawIndex(d);
  }

  /**
   * Adding a full turn does not change the label, for every bearing from
   * -11.25 on (where the truncated index is a floor).
   */
  lemma Periodic(d: real)
    requires -11.25 <= d
    ensures DegreesToCardinal(d + 360.0) == DegreesToCardinal(d)
  {
    var n := SectorOf(d);
    assert 22.5 * (n + 16) as real == 22.5 * n as real + 360.0;
    assert InSector(d + 360.0, n + 16);
    assert (n + 16) % 16 == n % 16;
    SectorLabel(d, n);
    SectorLabel(d + 360.0, n + 16);
  }

  /** Over one turn [0, 360), label k is produced exactly on the sector of k (north spans both ends). */
  lemma LabelIffSector(d: real, k: nat)
    requires 0.0 <= d < 360.0 && k < |Directions|
    ensures DegreesToCardinal(d) == Directions[k] <==> InSector(d, k) || (k == 0 && InSector(d, 16))
  {
    var n := SectorOf(d);
    SectorLabel(d, n);
    assert n <= 16;
    if n % 16 != k {
      DirectionsDistinct(n % 16, k);
    }
  }

  /**
   * For bearings below -11.25 the truncation is not a floor, and the label
   * is no longer periodic: -20 is labelled N although 340 is NNW.
   */
  lemma TruncationBreaksPeriodicity()
    ensures DegreesToCardinal(-20.0) == "N"
    ensures DegreesToCardinal(-20.0 + 360.0) == "NNW"
  {
    SectorLabel(340.0, 15);
  }
}
