/**
 * The per-sample normalization formula: an affine map that sends the rest
 * level to 0 and the calibrated extreme to 1, clamped to [0, 1].
 */
module Normalization {

  /** max(min(v, 1), 0). */
  function Clamp(v: real): (r: real)
    ensures 0.0 <= r <= 1.0
    ensures 0.0 <= v <= 1.0 ==> r == v
    ensures v < 0.0 ==> r == 0.0
    ensures v > 1.0 ==> r == 1.0
  {
    var upper := if 1.0 < v then 1.0 else v;
    if upper < 0.0 then 0.0 else upper
  }

  /** Clamping preserves order. */
  lemma ClampMonotone(u: real, v: real)
    requires u <= v
    ensures Clamp(u) <= Clamp(v)
  {
  }

  /**
   * A reading `d` rescaled against the rest level `rest` and the extreme level
   * `top`, then clamped.
   */
  function Scaled(d: real, rest: real, top: real): (r: real)
    requires top != rest
    ensures 0.0 <= r <= 1.0
    ensures d == rest ==> r == 0.0
    ensures rest < top && d <= rest ==> r == 0.0
    ensures rest < top && top <= d ==> r == 1.0
    ensures rest < top && rest <= d <= top ==> r * (top - rest) == d - rest
    ensures top < rest && rest <= d ==> r == 0.0
    ensures top < rest && d <= top ==> r == 1.0
    ensures top < rest && top <= d <= rest ==> r * (top - rest) == d - rest
  {
    QuotientReachesOne(d - rest, top - rest);
    Clamp((d - rest) / (top - rest))
  }

  /** A numerator at or beyond a same-signed denominator gives a quotient of at least 1. */
  lemma QuotientReachesOne(a: real, b: real)
    requires b != 0.0
    ensures (0.0 < b <= a || a <= b < 0.0) ==> a / b >= 1.0
  {
    if 0.0 < b <= a || a <= b < 0.0 {
      var q := a / b;
      assert q * b == a;
      assert (q - 1.0) * b == a - b;
    }
  }

  /**
   * With the extreme above the rest level, a stronger activation never
   * normalizes to a smaller value.
   */
  lemma ScaledMonotone(d1: real, d2: real, rest: real, top: real)
    requires rest < top && d1 <= d2
    ensures Scaled(d1, rest, top) <= Scaled(d2, rest, top)
  {
    var span := top - rest;
    var v1, v2 := (d1 - rest) / span, (d2 - rest) / span;
    assert v1 * span == d1 - rest && v2 * span == d2 - rest;
    assert (v2 - v1) * span == d2 - d1;
    assert v1 <= v2;
    ClampMonotone(v1, v2);
  }
}
