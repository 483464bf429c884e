/** Snapping a camera coordinate down to a multiple of a level's cell size. */
module Snapping {
  /** `(c / s).floor() * s` for a positive cell size s. */
  function Snap(c: real, s: real): real
    requires s > 0.0
  {
    (c / s).Floor as real * s
  }

  lemma MulLeq(a: real, b: real, s: real)
    requires a <= b && s > 0.0
    ensures a * s <= b * s
  {
  }

  lemma MulLess(a: real, b: real, s: real)
    requires a < b && s > 0.0
    ensures a * s < b * s
  {
  }

  /** The snapped value is the largest multiple of s not above c:
      it is Floor(c / s) · s, and c lies in [Snap(c, s), Snap(c, s) + s). */
  lemma SnapBounds(c: real, s: real)
    requires s > 0.0
    ensures Snap(c, s) <= c < Snap(c, s) + s
    ensures Snap(c, s) == (c / s).Floor as real * s
  {
    var f := (c / s).Floor;
    assert c == (c / s) * s;
    MulLeq(f as real, c / s, s);
    MulLess(c / s, f as real + 1.0, s);
  }

  /** Snap(c, s) is the only multiple k·s of s with k·s <= c < k·s + s. */
  lemma SnapUnique(c: real, s: real, k: int)
    requires s > 0.0 && k as real * s <= c < k as real * s + s
    ensures Snap(c, s) == k as real * s && (c / s).Floor == k
  {
    var q := c / s;
    assert q * s == c;
    assert (k as real + 1.0) * s == k as real * s + s;
    if q < k as real {
      MulLess(q, k as real, s);
      assert false;
    }
    if q >= k as real + 1.0 {
      MulLeq(k as real + 1.0, q, s);
      assert false;
    }
    var f := q.Floor;
    assert f as real <= q < f as real + 1.0;
    assert f <= k && k <= f;
  }

  /** Snapping to the doubled cell halves the cell index: Floor(c / 2s) = Floor(c / s) div 2. */
  lemma SnapDouble(c: real, s: real)
    requires s > 0.0
    ensures (c / (2.0 * s)).Floor == (c / s).Floor / 2
    ensures Snap(c, 2.0 * s) == ((c / s).Floor / 2) as real * (2.0 * s)
  {
    var f := (c / s).Floor;
    var g := f / 2;
    SnapBounds(c, s);
    assert (g as real) * (2.0 * s) == (2 * g) as real * s;
    assert (2 * g) as real * s <= f as real * s by {
      MulLeq((2 * g) as real, f as real, s);
    }
    assert f as real * s + s <= (2 * g + 2) as real * s by {
      MulLeq(f as real + 1.0, (2 * g + 2) as real, s);
    }
    SnapUnique(c, 2.0 * s, g);
  }

  /** The offset from the coarser snap lies in [0, 2s), and it is below s exactly when both
      snaps agree. */
  lemma CoarserSnapOffset(c: real, s: real)
    requires s > 0.0
    ensures 0.0 <= c - Snap(c, 2.0 * s) < 2.0 * s
    ensures c - Snap(c, 2.0 * s) < s <==> Snap(c, s) == Snap(c, 2.0 * s)
    ensures Snap(c, s) == Snap(c, 2.0 * s) || Snap(c, s) == Snap(c, 2.0 * s) + s
  {
    var f := (c / s).Floor;
    var g := f / 2;
    SnapBounds(c, s);
    SnapBounds(c, 2.0 * s);
    SnapDouble(c, s);
    assert Snap(c, 2.0 * s) == (2 * g) as real * s;
    if f == 2 * g {
      assert Snap(c, s) == Snap(c, 2.0 * s);
    } else {
      assert f == 2 * g + 1;
      assert Snap(c, s) == Snap(c, 2.0 * s) + s;
    }
  }

  /** Two coordinates in the same cell of size s snap alike, at s and at every coarser
      power-of-two multiple of s. */
  lemma SnapSameCell(c: real, c': real, s: real)
    requires s > 0.0 && (c / s).Floor == (c' / s).Floor
    ensures Snap(c, s) == Snap(c', s)
    ensures (c / (2.0 * s)).Floor == (c' / (2.0 * s)).Floor
  {
    SnapDouble(c, s);
    SnapDouble(c', s);
  }
}
