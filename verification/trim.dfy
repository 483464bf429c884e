/** The trim stamp: an L of one vertical bar (CLIP_VERT_RES + 1 rows) and one horizontal bar
    (CLIP_VERT_RES columns), both one unit wide, shifted by HALF on each axis. */
module TrimStamp {
  import opened Consts
  import opened Geometry
  import opened Mesh

  /** Half the extent the source assumes: (CLIP_VERT_RES + 1) / 2 = 129.5. */
  const HALF: real := 0.5 * (CLIP_VERT_RES as real + 1.0)
  /** Vertices of the vertical bar; the horizontal bar's first vertex. */
  const START_H: nat := 2 * (CLIP_VERT_RES + 1)

  /** Vertical bar: row i runs at y = CLIP_VERT_RES - i - HALF, from the top down.
      Horizontal bar: column i runs at x = i + 1 - HALF, left to right. */
  function TrimVertex(k: int): Vec2
    requires 0 <= k < V_TRIM
  {
    if k < START_H then
      var y := CLIP_VERT_RES as real - (k / 2) as real - HALF;
      if k % 2 == 0 then Vec2(0.0 - HALF, y) else Vec2(1.0 - HALF, y)
    else
      var x := ((k - START_H) / 2) as real + 1.0 - HALF;
      if k % 2 == 0 then Vec2(x, 0.0 - HALF) else Vec2(x, 1.0 - HALF)
  }

  /** One strip segment over vertices base .. base + 3: [br, bl, next_bl], [next_br, br, next_bl]. */
  function StripQuad(base: int): seq<u32>
    requires 0 <= base < V_TRIM - 3
  {
    [base + 1, base, base + 2, base + 3, base + 1, base + 2]
  }

  /** First vertex of strip segment q: CLIP_VERT_RES vertical segments, then CLIP_VERT_RES - 1
      horizontal ones starting at START_H. */
  function TrimQuadBase(q: int): int
    requires 0 <= q < 2 * CLIP_VERT_RES - 1
  {
    if q < CLIP_VERT_RES then q * 2 else START_H + (q - CLIP_VERT_RES) * 2
  }

  function TrimIndex(k: int): u32
    requires 0 <= k < I_TRIM
  {
    StripQuad(TrimQuadBase(k / 6))[k % 6]
  }

  /** Positions 6·q .. 6·q + 5 of the index list hold segment q. */
  lemma TrimIndexOfQuad(q: int)
    requires 0 <= q < 2 * CLIP_VERT_RES - 1
    ensures forall k :: 6 * q <= k < 6 * q + 6 ==> TrimIndex(k) == StripQuad(TrimQuadBase(q))[k - 6 * q]
  {
    forall k | 6 * q <= k < 6 * q + 6 ensures TrimIndex(k) == StripQuad(TrimQuadBase(q))[k - 6 * q] {
      DivModUnique(k, 6, q, k - 6 * q);
    }
  }

  /** The trim stamp as `generate_trim_mesh` leaves it. */
  function TrimMesh(): Mesh2d {
    Mesh2d("Trim",
      seq(V_MAX, k requires 0 <= k < V_MAX => if k < V_TRIM then TrimVertex(k) else ZERO),
      seq(I_MAX, k requires 0 <= k < I_MAX => if k < I_TRIM then TrimIndex(k) else 0),
      V_TRIM, I_TRIM, N_TRIMS)
  }

  /** The vertical bar holds 2·(CLIP_VERT_RES + 1) = START_H vertices and the horizontal bar
      2·CLIP_VERT_RES more, which is V_TRIM in all; the strips hold 2·CLIP_VERT_RES - 1
      segments of six indices, which is I_TRIM. */
  lemma TrimCounts()
    ensures START_H + 2 * CLIP_VERT_RES == V_TRIM
    ensures 6 * (CLIP_VERT_RES + (CLIP_VERT_RES - 1)) == I_TRIM
  {
  }

  /** Vertical-strip indices stay below START_H; horizontal-strip indices stay in
      [START_H, V_TRIM). */
  lemma TrimStripsSeparate(k: int)
    requires 0 <= k < I_TRIM
    ensures k < 6 * CLIP_VERT_RES ==> TrimIndex(k) < START_H
    ensures k >= 6 * CLIP_VERT_RES ==> START_H <= TrimIndex(k) < V_TRIM
  {
    var q := k / 6;
    assert k < 6 * CLIP_VERT_RES <==> q < CLIP_VERT_RES;
  }

  lemma TrimMeshWellFormed()
    ensures WellFormed(TrimMesh())
  {
    var m := TrimMesh();
    forall k | 0 <= k < m.indexCount
      ensures m.indices[k] < m.vertexCount
    {
      TrimStripsSeparate(k);
    }
  }

  /** p lies on the lattice of integer points shifted by -HALF, inside [-HALF, CLIP_VERT_RES - HALF]². */
  predicate OnShiftedGrid(p: Vec2) {
    && (p.x + HALF).Floor as real == p.x + HALF && 0.0 <= p.x + HALF <= CLIP_VERT_RES as real
    && (p.y + HALF).Floor as real == p.y + HALF && 0.0 <= p.y + HALF <= CLIP_VERT_RES as real
  }

  /** Every trim vertex is an integer grid point of [0, CLIP_VERT_RES]² minus HALF on each axis. */
  lemma TrimVertexOnShiftedGrid(k: int)
    requires 0 <= k < V_TRIM
    ensures OnShiftedGrid(TrimVertex(k))
  {
    var p := TrimVertex(k);
    var bit := k % 2;
    if k < START_H {
      var n := CLIP_VERT_RES - k / 2;
      assert p == Vec2(bit as real - HALF, n as real - HALF);
      assert (p.y + HALF).Floor == n && (p.x + HALF).Floor == bit;
    } else {
      var n := (k - START_H) / 2 + 1;
      assert p == Vec2(n as real - HALF, bit as real - HALF);
      assert (p.x + HALF).Floor == n && (p.y + HALF).Floor == bit;
    }
  }

  /** The vertices at base .. base + 3 of segment q: (p, p + d) and (p + e, p + d + e), where the
      vertical bar steps down (e = (0, -1)) and the horizontal bar right (e = (1, 0)). */
  lemma TrimQuadCorners(q: int)
    requires 0 <= q < 2 * CLIP_VERT_RES - 1
    ensures var b := TrimQuadBase(q);
      && 0 <= b && b + 3 < V_TRIM
      && var p := TrimVertex(b);
      if q < CLIP_VERT_RES then
        && TrimVertex(b + 1) == Vec2(p.x + 1.0, p.y)
        && TrimVertex(b + 2) == Vec2(p.x, p.y - 1.0)
        && TrimVertex(b + 3) == Vec2(p.x + 1.0, p.y - 1.0)
      else
        && TrimVertex(b + 1) == Vec2(p.x, p.y + 1.0)
        && TrimVertex(b + 2) == Vec2(p.x + 1.0, p.y)
        && TrimVertex(b + 3) == Vec2(p.x + 1.0, p.y + 1.0)
  {
    var b := TrimQuadBase(q);
    if q < CLIP_VERT_RES {
      DivModUnique(b, 2, q, 0);
      DivModUnique(b + 1, 2, q, 1);
      DivModUnique(b + 2, 2, q + 1, 0);
      DivModUnique(b + 3, 2, q + 1, 1);
    } else {
      var i := q - CLIP_VERT_RES;
      DivModUnique(b - START_H, 2, i, 0);
      DivModUnique(b + 1 - START_H, 2, i, 1);
      DivModUnique(b + 2 - START_H, 2, i + 1, 0);
      DivModUnique(b + 3 - START_H, 2, i + 1, 1);
    }
  }

  /** A unit quad of the vertical bar, p and p + (1, 0) above p + (0, -1) and p + (1, -1): both
      halves are counter-clockwise. */
  lemma DownStepQuad(p: Vec2, a: Vec2, b: Vec2, c: Vec2)
    requires a == Vec2(p.x + 1.0, p.y) && b == Vec2(p.x, p.y - 1.0) && c == Vec2(p.x + 1.0, p.y - 1.0)
    ensures SignedArea2(a, p, b) == 1.0 && SignedArea2(c, a, b) == 1.0
  {
    SignedArea2ByOffsets(a, p, b, -1.0, 0.0, -1.0, -1.0);
    SignedArea2ByOffsets(c, a, b, 0.0, 1.0, -1.0, 0.0);
  }

  /** A unit quad of the horizontal bar, p and p + (0, 1) left of p + (1, 0) and p + (1, 1): both
      halves are counter-clockwise. */
  lemma RightStepQuad(p: Vec2, a: Vec2, b: Vec2, c: Vec2)
    requires a == Vec2(p.x, p.y + 1.0) && b == Vec2(p.x + 1.0, p.y) && c == Vec2(p.x + 1.0, p.y + 1.0)
    ensures SignedArea2(a, p, b) == 1.0 && SignedArea2(c, a, b) == 1.0
  {
    SignedArea2ByOffsets(a, p, b, 0.0, -1.0, 1.0, -1.0);
    SignedArea2ByOffsets(c, a, b, -1.0, 0.0, 0.0, -1.0);
  }

  /** Both triangles of segment q, [base + 1, base, base + 2] and [base + 3, base + 1, base + 2],
      are counter-clockwise. */
  lemma TrimSegmentCounterClockwise(q: int)
    requires 0 <= q < 2 * CLIP_VERT_RES - 1
    ensures var b := TrimQuadBase(q);
      && 0 <= b && b + 3 < V_TRIM
      && SignedArea2(TrimVertex(b + 1), TrimVertex(b), TrimVertex(b + 2)) == 1.0
      && SignedArea2(TrimVertex(b + 3), TrimVertex(b + 1), TrimVertex(b + 2)) == 1.0
  {
    TrimQuadCorners(q);
    var b := TrimQuadBase(q);
    var p, v1, v2, v3 := TrimVertex(b), TrimVertex(b + 1), TrimVertex(b + 2), TrimVertex(b + 3);
    if q < CLIP_VERT_RES {
      DownStepQuad(p, v1, v2, v3);
    } else {
      RightStepQuad(p, v1, v2, v3);
    }
  }

  /** Both triangles of every strip segment are counter-clockwise unit half-squares. */
  lemma TrimQuadCounterClockwise(q: int, h: int)
    requires 0 <= q < 2 * CLIP_VERT_RES - 1 && 0 <= h < 2
    ensures var s := StripQuad(TrimQuadBase(q));
      && s[3 * h] < V_TRIM && s[3 * h + 1] < V_TRIM && s[3 * h + 2] < V_TRIM
      && SignedArea2(TrimVertex(s[3 * h]), TrimVertex(s[3 * h + 1]), TrimVertex(s[3 * h + 2])) == 1.0
  {
    TrimSegmentCounterClockwise(q);
  }

  /** Live triangle t is half 3·(t mod 2) of strip segment t / 2. */
  lemma TrimTriangleIndices(t: int)
    requires 0 <= t < I_TRIM / 3
    ensures var m := TrimMesh(); var s := StripQuad(TrimQuadBase(t / 2)); var h := t % 2;
      && m.indices[3 * t] == s[3 * h]
      && m.indices[3 * t + 1] == s[3 * h + 1]
      && m.indices[3 * t + 2] == s[3 * h + 2]
  {
    var q, h := t / 2, t % 2;
    assert 3 * t == 6 * q + 3 * h;
    TrimIndexOfQuad(q);
  }

  /** Every trim triangle is half a unit square, wound counter-clockwise. */
  lemma TrimMeshCounterClockwise()
    ensures WellFormed(TrimMesh()) && UnitCounterClockwise(TrimMesh())
  {
    TrimMeshWellFormed();
    var m := TrimMesh();
    forall t | 0 <= t < m.indexCount / 3
      ensures TriangleArea2(m, t) == 1.0
    {
      TrimTriangleIndices(t);
      TrimQuadCounterClockwise(t / 2, t % 2);
    }
  }

  /** Row i of the vertical bar: vertices 2·i and 2·i + 1. */
  lemma TrimRowVertices(i: int)
    requires 0 <= i <= CLIP_VERT_RES
    ensures var y := CLIP_VERT_RES as real - i as real - HALF;
      && 2 * i + 1 < START_H
      && TrimVertex(2 * i) == Vec2(0.0 - HALF, y) && TrimVertex(2 * i + 1) == Vec2(1.0 - HALF, y)
  {
    DivModUnique(2 * i, 2, i, 0);
    DivModUnique(2 * i + 1, 2, i, 1);
  }

  /** Column i of the horizontal bar: vertices START_H + 2·i and START_H + 2·i + 1. */
  lemma TrimColumnVertices(i: int)
    requires 0 <= i < CLIP_VERT_RES
    ensures var x := i as real + 1.0 - HALF;
      && START_H + 2 * i + 1 < V_TRIM
      && TrimVertex(START_H + 2 * i) == Vec2(x, 0.0 - HALF)
      && TrimVertex(START_H + 2 * i + 1) == Vec2(x, 1.0 - HALF)
  {
    DivModUnique(2 * i, 2, i, 0);
    DivModUnique(2 * i + 1, 2, i, 1);
  }

  /** First pass of `generate_trim_mesh`: the vertical bar, then the horizontal bar. Returns
      the cursor between them, `start_h`. */
  method WriteTrimVertices(vertices: array<Vec2>) returns (startH: u32)
    requires vertices.Length == V_MAX && forall k :: 0 <= k < V_MAX ==> vertices[k] == ZERO
    modifies vertices
    ensures vertices[..] == TrimMesh().vertices
    ensures startH == START_H
  {
    var extent := CLIP_VERT_RES as real + 1.0;
    var half := 0.5 * extent;
    var v := 0;
    for i := 0 to CLIP_VERT_RES + 1
      invariant v == 2 * i
      invariant forall k :: 0 <= k < v ==> vertices[k] == TrimVertex(k)
      invariant forall k :: v <= k < V_MAX ==> vertices[k] == ZERO
    {
      var y := CLIP_VERT_RES as real - i as real - half;
      TrimRowVertices(i);
      vertices[v] := Vec2(0.0 - half, y);
      vertices[v + 1] := Vec2(1.0 - half, y);
      v := v + 2;
    }
    startH := v;
    for i := 0 to CLIP_VERT_RES
      invariant v == START_H + 2 * i
      invariant forall k :: 0 <= k < v ==> vertices[k] == TrimVertex(k)
      invariant forall k :: v <= k < V_MAX ==> vertices[k] == ZERO
    {
      var x := (i as real + 1.0) - half;
      TrimColumnVertices(i);
      vertices[v] := Vec2(x, 0.0 - half);
      vertices[v + 1] := Vec2(x, 1.0 - half);
      v := v + 2;
    }
  }

  /** Second pass of `generate_trim_mesh`: the vertical strip, then the horizontal strip from
      `start_h` on. */
  method WriteTrimIndices(indices: array<u32>, startH: u32)
    requires indices.Length == I_MAX && forall k :: 0 <= k < I_MAX ==> indices[k] == 0
    requires startH == START_H
    modifies indices
    ensures indices[..] == TrimMesh().indices
  {
    var idx := 0;
    for i := 0 to CLIP_VERT_RES
      invariant idx == 6 * i
      invariant forall k :: 0 <= k < idx ==> indices[k] == TrimIndex(k)
      invariant forall k :: idx <= k < I_MAX ==> indices[k] == 0
    {
      var base: u32 := i * 2;
      TrimIndexOfQuad(i);
      // The source assigns indices[idx + 0] .. indices[idx + 5] one by one; the same six writes.
      CopyFromSlice(indices, idx, [base + 1, base + 0, base + 2, base + 3, base + 1, base + 2]);
      idx := idx + 6;
    }
    for i := 0 to CLIP_VERT_RES - 1
      invariant idx == 6 * (CLIP_VERT_RES + i)
      invariant forall k :: 0 <= k < idx ==> indices[k] == TrimIndex(k)
      invariant forall k :: idx <= k < I_MAX ==> indices[k] == 0
    {
      var base: u32 := startH + i * 2;
      TrimIndexOfQuad(CLIP_VERT_RES + i);
      // The source assigns indices[idx + 0] .. indices[idx + 5] one by one; the same six writes.
      CopyFromSlice(indices, idx, [base + 1, base + 0, base + 2, base + 3, base + 1, base + 2]);
      idx := idx + 6;
    }
  }

  /** `generate_trim_mesh`. */
  method GenerateTrimMesh() returns (m: Mesh2d)
    ensures m == TrimMesh()
  {
    var vertices := new Vec2[V_MAX](_ => ZERO);
    var startH := WriteTrimVertices(vertices);
    var indices := new u32[I_MAX](_ => 0);
    WriteTrimIndices(indices, startH);
    m := Mesh2d("Trim", vertices[..], indices[..], V_TRIM, I_TRIM, N_TRIMS);
  }
}
