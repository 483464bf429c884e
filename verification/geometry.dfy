/** Plane vectors. The source uses 32-bit floats; every coordinate it produces here is a small
    integer or an integer plus one half, so exact reals model them. */
module Geometry {
  datatype Vec2 = Vec2(x: real, y: real) {
    function Plus(o: Vec2): Vec2 { Vec2(x + o.x, y + o.y) }
    function Minus(o: Vec2): Vec2 { Vec2(x - o.x, y - o.y) }
    function Times(k: real): Vec2 { Vec2(x * k, y * k) }
    /** Component-wise product. */
    function Mul(o: Vec2): Vec2 { Vec2(x * o.x, y * o.y) }
  }

  const ZERO: Vec2 := Vec2(0.0, 0.0)

  /** Twice the signed area of triangle (a, b, c): positive exactly when the corners run
      counter-clockwise with the y axis pointing up, zero when they are collinear. */
  function SignedArea2(a: Vec2, b: Vec2, c: Vec2): real {
    (b.x - a.x) * (c.y - a.y) - (b.y - a.y) * (c.x - a.x)
  }

  /** The signed area depends only on the offsets of b and c from a. */
  lemma SignedArea2ByOffsets(a: Vec2, b: Vec2, c: Vec2, ux: real, uy: real, vx: real, vy: real)
    requires b == Vec2(a.x + ux, a.y + uy) && c == Vec2(a.x + vx, a.y + vy)
    ensures SignedArea2(a, b, c) == ux * vy - uy * vx
  {
  }

  /** Three points an equal step apart are collinear, whatever order they are listed in. */
  lemma EqualStepsCollinear(p: Vec2, q: Vec2, r: Vec2, d: Vec2)
    requires q == p.Plus(d) && r == q.Plus(d)
    ensures SignedArea2(q, p, r) == 0.0
  {
    SignedArea2ByOffsets(q, p, r, -d.x, -d.y, d.x, d.y);
  }
}
