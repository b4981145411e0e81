/** Arithmetic on ecliptic longitudes, in exact real arithmetic.

    Python's `x % 360` on a float is a floor modulo: its result has the sign of
    the divisor, so it always lies in [0, 360). Python's `int(x)` on a float
    truncates toward zero. Both are written out here because Dafny's `real`
    has neither operator. */
module Angles {

  /** `d` is a whole number of turns. */
  predicate IsWholeTurns(d: real) {
    (d / 360.0).Floor as real == d / 360.0
  }

  /** Python's `x % 360` for a float `x`. */
  function Mod360(x: real): (r: real)
    ensures 0.0 <= r < 360.0
    ensures IsWholeTurns(x - r)
  {
    x - 360.0 * ((x / 360.0).Floor as real)
  }

  /** The normalised value is the only point of [0, 360) that differs from
      `x` by whole turns. */
  lemma Mod360Unique(x: real, y: real, k: int)
    requires 0.0 <= y < 360.0
    requires y == x + 360.0 * k as real
    ensures Mod360(x) == y
  {
    var f := (x / 360.0).Floor;
    assert x / 360.0 == y / 360.0 - k as real;
    assert 0.0 <= y / 360.0 < 1.0;
    assert f == -k;
  }

  /** Adding whole turns does not change the normalised longitude. */
  lemma Mod360Periodic(x: real, k: int)
    ensures Mod360(x + 360.0 * k as real) == Mod360(x)
  {
    var f := (x / 360.0).Floor;
    Mod360Unique(x + 360.0 * k as real, Mod360(x), -k - f);
  }

  /** A longitude already in [0, 360) is left as it is. */
  lemma Mod360OfNormalised(x: real)
    requires 0.0 <= x < 360.0
    ensures Mod360(x) == x
  {
    Mod360Unique(x, x, 0);
  }

  /** A difference of two normalised longitudes lies in (-360, 360) and is
      normalised by adding one turn when it is negative. */
  lemma Mod360OfDifference(d: real)
    requires -360.0 < d < 360.0
    ensures Mod360(d) == if d < 0.0 then d + 360.0 else d
  {
    if d < 0.0 {
      Mod360Unique(d, d + 360.0, 1);
    } else {
      Mod360Unique(d, d, 0);
    }
  }

  /** Python's `int(x)` for a float `x`: the integer part, truncated toward zero. */
  function TruncateToInt(x: real): (r: int)
    ensures 0.0 <= x ==> 0.0 <= r as real <= x < r as real + 1.0
    ensures x < 0.0 ==> r as real - 1.0 < x <= r as real <= 0.0
  {
    if x >= 0.0 then x.Floor else -((-x).Floor)
  }

  /** The point opposite `x` on the circle, `(x + 180) % 360`: the Descendant
      from the Ascendant, the Imum Coeli from the Midheaven, and the South Node
      from the North Node. */
  function OppositePoint(x: real): (r: real)
    ensures 0.0 <= r < 360.0
    ensures Mod360(r - x) == 180.0
  {
    var r := Mod360(x + 180.0);
    var f := ((x + 180.0) / 360.0).Floor;
    Mod360Unique(r - x, 180.0, f);
    r
  }

  /** Taking the opposite point twice brings a longitude back to itself,
      modulo a whole turn. */
  lemma OppositePointInvolution(x: real)
    ensures OppositePoint(OppositePoint(x)) == Mod360(x)
  {
    var y := OppositePoint(x);
    var a := ((x + 180.0) / 360.0).Floor;
    var b := ((y + 180.0) / 360.0).Floor;
    assert y == x + 180.0 - 360.0 * a as real;
    assert OppositePoint(y) == y + 180.0 - 360.0 * b as real;
    Mod360Unique(x, OppositePoint(y), 1 - a - b);
  }
}
