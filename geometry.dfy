/** Distance tests and clamping on exact reals. */
module Geometry {
  import opened Host

  /** `Math.hypot(dx, dy) < r`, stated without the square root: the hypotenuse is
      never negative, so the test holds exactly when `r` is positive and the
      squared length is below `r * r`. */
  predicate Within(dx: real, dy: real, r: real) {
    0.0 < r && dx * dx + dy * dy < r * r
  }

  function Min(a: real, b: real): (r: real)
    ensures r <= a && r <= b && (r == a || r == b)
  {
    if a <= b then a else b
  }

  /** `Math.max(lo, Math.min(hi, v))`. */
  function Clamp(lo: real, hi: real, v: real): (r: real)
    ensures lo <= r
    ensures lo <= hi ==> r <= hi
    ensures lo <= v <= hi ==> r == v
    ensures r == lo || r == hi || r == v
  {
    var m := if hi <= v then hi else v;
    if lo <= m then m else lo
  }

  /** The steering normalisation of game.js: divide the vector by its
      `Math.hypot` when that is positive, otherwise leave it as it is. */
  function Unit(m: MathLib, vx: real, vy: real): (real, real) {
    var d := m.hypot(vx, vy);
    if d > 0.0 then (vx / d, vy / d) else (vx, vy)
  }

  /** Whatever the host's hypot returns, `Unit` points the same way as the vector. */
  lemma UnitKeepsDirection(m: MathLib, vx: real, vy: real)
    ensures Unit(m, vx, vy).0 * vy == Unit(m, vx, vy).1 * vx
    ensures vx * vx + vy * vy > 0.0 ==> Unit(m, vx, vy).0 * vx + Unit(m, vx, vy).1 * vy > 0.0
  {
    var d := m.hypot(vx, vy);
    var u := Unit(m, vx, vy);
    if d > 0.0 {
      assert u.0 == vx / d && u.1 == vy / d;
      ScaledKeepsDirection(vx, vy, d);
    } else {
      assert u.0 == vx && u.1 == vy;
      assert vx * vy == vy * vx;
    }
  }

  /** Dividing a vector by a positive length keeps its direction. */
  lemma ScaledKeepsDirection(vx: real, vy: real, d: real)
    requires d > 0.0
    ensures (vx / d) * vy == (vy / d) * vx
    ensures vx * vx + vy * vy > 0.0 ==> (vx / d) * vx + (vy / d) * vy > 0.0
  {
    var ux, uy := vx / d, vy / d;
    assert ux * d == vx;
    assert uy * d == vy;
    calc {
      ux * vy;
      ux * (uy * d);
      uy * (ux * d);
      uy * vx;
    }
    var dot := ux * vx + uy * vy;
    calc {
      dot * d;
      ux * d * vx + uy * d * vy;
      vx * vx + vy * vy;
    }
    if vx * vx + vy * vy > 0.0 {
      assert dot > 0.0;
    }
  }
}
