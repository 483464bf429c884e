/** The cross stamp: a horizontal and a vertical bar of unit quads through the centre of level
    0, each 2·TILE_RES + 1 quads long, with the centre quad laid only once. */
module CrossStamp {
  import opened Consts
  import opened Geometry
  import opened Mesh

  /** Vertices of the horizontal bar; the vertical bar's first vertex. */
  const VERT_BASE: nat := 2 * (PATCH_RES * 2)
  /** Quads of each bar. */
  const BAR_QUADS: nat := TILE_RES * 2 + 1

  /** Horizontal bar: column i at x = i - TILE_RES, bottom (y = 0) then top (y = 1).
      Vertical bar: row i at y = i - TILE_RES, left (x = 0) then right (x = 1). */
  function CrossVertex(k: int): Vec2
    requires 0 <= k < V_CROSS
  {
    if k < VERT_BASE then
      var x := (k / 2) as real - TILE_RES as real;
      if k % 2 == 0 then Vec2(x, 0.0) else Vec2(x, 1.0)
    else
      var y := ((k - VERT_BASE) / 2) as real - TILE_RES as real;
      if k % 2 == 0 then Vec2(0.0, y) else Vec2(1.0, y)
  }

  /** Column of the vertical bar that quad q of that bar covers: the centre column TILE_RES is
      passed over. */
  function VerticalColumn(j: int): int
    requires 0 <= j < BAR_QUADS - 1
  {
    if j < TILE_RES then j else j + 1
  }

  /** First vertex of quad q: the horizontal quads come first, then the vertical ones. */
  function CrossQuadBase(q: int): int
    requires 0 <= q < 2 * BAR_QUADS - 1
  {
    if q < BAR_QUADS then q * 2 else VERT_BASE + VerticalColumn(q - BAR_QUADS) * 2
  }

  /** The six indices of quad q over bl = base, br = base + 1, tl = base + 2, tr = base + 3. */
  function CrossQuad(q: int): seq<u32>
    requires 0 <= q < 2 * BAR_QUADS - 1
  {
    var bl := CrossQuadBase(q);
    if q < BAR_QUADS then [bl + 1, bl, bl + 3, bl, bl + 2, bl + 3]
    else [bl + 1, bl + 3, bl, bl, bl + 3, bl + 2]
  }

  function CrossIndex(k: int): u32
    requires 0 <= k < I_CROSS
  {
    CrossQuad(k / 6)[k % 6]
  }

  /** Positions 6·q .. 6·q + 5 of the index list hold quad q. */
  lemma CrossIndexOfQuad(q: int)
    requires 0 <= q < 2 * BAR_QUADS - 1
    ensures forall k :: 6 * q <= k < 6 * q + 6 ==> CrossIndex(k) == CrossQuad(q)[k - 6 * q]
  {
    forall k | 6 * q <= k < 6 * q + 6 ensures CrossIndex(k) == CrossQuad(q)[k - 6 * q] {
      DivModUnique(k, 6, q, k - 6 * q);
    }
  }

  /** The cross stamp as `generate_cross_mesh` leaves it. */
  function CrossMesh(): Mesh2d {
    Mesh2d("Cross",
      seq(V_MAX, k requires 0 <= k < V_MAX => if k < V_CROSS then CrossVertex(k) else ZERO),
      seq(I_MAX, k requires 0 <= k < I_MAX => if k < I_CROSS then CrossIndex(k) else 0),
      V_CROSS, I_CROSS, N_CROSS)
  }

  /** Each bar holds 2·PATCH_RES columns of two vertices (V_CROSS in all); the bars hold
      2·TILE_RES + 1 and 2·TILE_RES quads (I_CROSS indices in all). */
  lemma CrossCounts()
    ensures 2 * VERT_BASE == V_CROSS
    ensures 6 * (BAR_QUADS + (BAR_QUADS - 1)) == I_CROSS
  {
  }

  /** Horizontal quads index only the horizontal bar's vertices, vertical quads only the
      vertical bar's. */
  lemma CrossBarsSeparate(k: int)
    requires 0 <= k < I_CROSS
    ensures k < 6 * BAR_QUADS ==> CrossIndex(k) < VERT_BASE
    ensures k >= 6 * BAR_QUADS ==> VERT_BASE <= CrossIndex(k) < V_CROSS
  {
    assert k < 6 * BAR_QUADS <==> k / 6 < BAR_QUADS;
  }

  lemma CrossMeshWellFormed()
    ensures WellFormed(CrossMesh())
  {
    var m := CrossMesh();
    forall k | 0 <= k < m.indexCount
      ensures m.indices[k] < m.vertexCount
    {
      CrossBarsSeparate(k);
    }
  }

  /** The lower-left corner of the unit cell quad q covers. */
  function CrossCell(q: int): Vec2
    requires 0 <= q < 2 * BAR_QUADS - 1
  {
    CrossVertex(CrossQuadBase(q))
  }

  /** The four vertices of quad q are the corners of the unit cell at CrossCell(q). */
  lemma CrossQuadCorners(q: int)
    requires 0 <= q < 2 * BAR_QUADS - 1
    ensures var b := CrossQuadBase(q);
      && 0 <= b && b + 3 < V_CROSS
      && var c := CrossCell(q);
      if q < BAR_QUADS then
        && c == Vec2(q as real - TILE_RES as real, 0.0)
        && CrossVertex(b + 1) == Vec2(c.x, c.y + 1.0)
        && CrossVertex(b + 2) == Vec2(c.x + 1.0, c.y)
        && CrossVertex(b + 3) == Vec2(c.x + 1.0, c.y + 1.0)
      else
        && c == Vec2(0.0, VerticalColumn(q - BAR_QUADS) as real - TILE_RES as real)
        && CrossVertex(b + 1) == Vec2(c.x + 1.0, c.y)
        && CrossVertex(b + 2) == Vec2(c.x, c.y + 1.0)
        && CrossVertex(b + 3) == Vec2(c.x + 1.0, c.y + 1.0)
  {
    var b := CrossQuadBase(q);
    var i := if q < BAR_QUADS then q else VerticalColumn(q - BAR_QUADS);
    var o := if q < BAR_QUADS then 0 else VERT_BASE;
    assert b - o == 2 * i;
    DivModUnique(b - o, 2, i, 0);
    DivModUnique(b + 1 - o, 2, i, 1);
    DivModUnique(b + 2 - o, 2, i + 1, 0);
    DivModUnique(b + 3 - o, 2, i + 1, 1);
  }

  /** The cells are laid along the two axes inside [-TILE_RES, TILE_RES], no two quads share a
      cell, and the centre cell belongs to the horizontal bar's middle quad alone. */
  lemma CrossCellsDistinct(q1: int, q2: int)
    requires 0 <= q1 < 2 * BAR_QUADS - 1 && 0 <= q2 < 2 * BAR_QUADS - 1
    ensures var c := CrossCell(q1);
      && (c.x == 0.0 || c.y == 0.0)
      && -(TILE_RES as real) <= c.x <= TILE_RES as real
      && -(TILE_RES as real) <= c.y <= TILE_RES as real
    ensures CrossCell(q1) == ZERO <==> q1 == TILE_RES
    ensures q1 != q2 ==> CrossCell(q1) != CrossCell(q2)
  {
    CrossQuadCorners(q1);
    CrossQuadCorners(q2);
  }

  /** Corner j of the triangle stored at positions 3·h .. 3·h + 2 of quad q. */
  function CrossQuadCorner(q: int, h: int, j: int): Vec2
    requires 0 <= q < 2 * BAR_QUADS - 1 && 0 <= h < 2 && 0 <= j < 3
  {
    CrossQuadCorners(q);
    CrossVertex(CrossQuad(q)[3 * h + j])
  }

  /** A unit cell of the horizontal bar, corners c, c + (0, 1), c + (1, 0), c + (1, 1): both
      stored triangles are counter-clockwise. */
  lemma HorizontalCellCounterClockwise(v0: Vec2, v1: Vec2, v2: Vec2, v3: Vec2)
    requires v1 == Vec2(v0.x, v0.y + 1.0) && v2 == Vec2(v0.x + 1.0, v0.y) && v3 == Vec2(v0.x + 1.0, v0.y + 1.0)
    ensures SignedArea2(v1, v0, v3) == 1.0 && SignedArea2(v0, v2, v3) == 1.0
  {
    SignedArea2ByOffsets(v1, v0, v3, 0.0, -1.0, 1.0, 0.0);
    SignedArea2ByOffsets(v0, v2, v3, 1.0, 0.0, 1.0, 1.0);
  }

  /** A unit cell of the vertical bar, corners c, c + (1, 0), c + (0, 1), c + (1, 1): both
      stored triangles are counter-clockwise. */
  lemma VerticalCellCounterClockwise(v0: Vec2, v1: Vec2, v2: Vec2, v3: Vec2)
    requires v1 == Vec2(v0.x + 1.0, v0.y) && v2 == Vec2(v0.x, v0.y + 1.0) && v3 == Vec2(v0.x + 1.0, v0.y + 1.0)
    ensures SignedArea2(v1, v3, v0) == 1.0 && SignedArea2(v0, v3, v2) == 1.0
  {
    SignedArea2ByOffsets(v1, v3, v0, 0.0, 1.0, -1.0, 0.0);
    SignedArea2ByOffsets(v0, v3, v2, 1.0, 1.0, 0.0, 1.0);
  }

  lemma CrossQuadCounterClockwise(q: int, h: int)
    requires 0 <= q < 2 * BAR_QUADS - 1 && 0 <= h < 2
    ensures SignedArea2(CrossQuadCorner(q, h, 0), CrossQuadCorner(q, h, 1), CrossQuadCorner(q, h, 2)) == 1.0
  {
    CrossQuadCorners(q);
    var b := CrossQuadBase(q);
    var v0, v1, v2, v3 := CrossVertex(b), CrossVertex(b + 1), CrossVertex(b + 2), CrossVertex(b + 3);
    if q < BAR_QUADS {
      HorizontalCellCounterClockwise(v0, v1, v2, v3);
    } else {
      VerticalCellCounterClockwise(v0, v1, v2, v3);
    }
  }

  /** Every cross triangle is half a unit square, wound counter-clockwise. */
  lemma CrossMeshCounterClockwise()
    ensures WellFormed(CrossMesh()) && UnitCounterClockwise(CrossMesh())
  {
    CrossMeshWellFormed();
    var m := CrossMesh();
    forall t | 0 <= t < m.indexCount / 3
      ensures TriangleArea2(m, t) == 1.0
    {
      var q, h := t / 2, t % 2;
      assert 3 * t == 6 * q + 3 * h;
      forall j | 0 <= j < 3
        ensures Corner(m, t, j) == CrossQuadCorner(q, h, j)
      {
        DivModUnique(3 * t + j, 6, q, 3 * h + j);
      }
      CrossQuadCounterClockwise(q, h);
    }
  }

  /** Column i of the horizontal bar: vertices 2·i and 2·i + 1. */
  lemma CrossColumnVertices(i: int)
    requires 0 <= i < PATCH_RES * 2
    ensures var x := i as real - TILE_RES as real;
      && 2 * i + 1 < VERT_BASE
      && CrossVertex(2 * i) == Vec2(x, 0.0) && CrossVertex(2 * i + 1) == Vec2(x, 1.0)
  {
    DivModUnique(2 * i, 2, i, 0);
    DivModUnique(2 * i + 1, 2, i, 1);
  }

  /** Row i of the vertical bar: vertices VERT_BASE + 2·i and VERT_BASE + 2·i + 1. */
  lemma CrossRowVertices(i: int)
    requires 0 <= i < PATCH_RES * 2
    ensures var y := i as real - TILE_RES as real;
      && VERT_BASE + 2 * i + 1 < V_CROSS
      && CrossVertex(VERT_BASE + 2 * i) == Vec2(0.0, y)
      && CrossVertex(VERT_BASE + 2 * i + 1) == Vec2(1.0, y)
  {
    DivModUnique(2 * i, 2, i, 0);
    DivModUnique(2 * i + 1, 2, i, 1);
  }

  /** First pass of `generate_cross_mesh`: the horizontal bar, then the vertical bar. Returns
      the cursor between them, `vert_base`. */
  method WriteCrossVertices(vertices: array<Vec2>) returns (vertBase: u32)
    requires vertices.Length == V_MAX && forall k :: 0 <= k < V_MAX ==> vertices[k] == ZERO
    modifies vertices
    ensures vertices[..] == CrossMesh().vertices
    ensures vertBase == VERT_BASE
  {
    var tileF := TILE_RES as real;
    var v := 0;
    for i := 0 to PATCH_RES * 2
      invariant v == 2 * i
      invariant forall k :: 0 <= k < v ==> vertices[k] == CrossVertex(k)
      invariant forall k :: v <= k < V_MAX ==> vertices[k] == ZERO
    {
      var x := i as real - tileF;
      CrossColumnVertices(i);
      vertices[v] := Vec2(x, 0.0);
      vertices[v + 1] := Vec2(x, 1.0);
      v := v + 2;
    }
    vertBase := v;
    for i := 0 to PATCH_RES * 2
      invariant v == VERT_BASE + 2 * i
      invariant forall k :: 0 <= k < v ==> vertices[k] == CrossVertex(k)
      invariant forall k :: v <= k < V_MAX ==> vertices[k] == ZERO
    {
      var y := i as real - tileF;
      CrossRowVertices(i);
      vertices[v] := Vec2(0.0, y);
      vertices[v + 1] := Vec2(1.0, y);
      v := v + 2;
    }
  }

  /** Second pass of `generate_cross_mesh`, horizontal strip: 2·TILE_RES + 1 quads. */
  method WriteHorizontalStrip(indices: array<u32>) returns (idx: nat)
    requires indices.Length == I_MAX && forall k :: 0 <= k < I_MAX ==> indices[k] == 0
    modifies indices
    ensures idx == 6 * BAR_QUADS
    ensures forall k :: 0 <= k < idx ==> indices[k] == CrossIndex(k)
    ensures forall k :: idx <= k < I_MAX ==> indices[k] == 0
  {
    idx := 0;
    for i := 0 to TILE_RES * 2 + 1
      invariant idx == 6 * i
      invariant forall k :: 0 <= k < idx ==> indices[k] == CrossIndex(k)
      invariant forall k :: idx <= k < I_MAX ==> indices[k] == 0
    {
      var bl: u32 := i * 2;
      var br := bl + 1;
      var tl := bl + 2;
      var tr := br + 2;
      CrossIndexOfQuad(i);
      // The source assigns indices[idx + 0] .. indices[idx + 5] one by one; the same six writes.
      CopyFromSlice(indices, idx, [br, bl, tr, bl, tl, tr]);
      idx := idx + 6;
    }
  }

  /** Second pass of `generate_cross_mesh`, vertical strip: the same quads over the vertical
      bar's vertices, offset by `vert_base`, except the centre column i == TILE_RES. */
  method WriteVerticalStrip(indices: array<u32>, vertBase: u32, start: nat)
    requires indices.Length == I_MAX && vertBase == VERT_BASE && start == 6 * BAR_QUADS
    requires forall k :: 0 <= k < start ==> indices[k] == CrossIndex(k)
    requires forall k :: start <= k < I_MAX ==> indices[k] == 0
    modifies indices
    ensures indices[..] == CrossMesh().indices
  {
    var idx := start;
    for i := 0 to TILE_RES * 2 + 1
      invariant idx == 6 * (BAR_QUADS + if i <= TILE_RES then i else i - 1)
      invariant forall k :: 0 <= k < idx ==> indices[k] == CrossIndex(k)
      invariant forall k :: idx <= k < I_MAX ==> indices[k] == 0
    {
      if i != TILE_RES {
        var q := BAR_QUADS + if i < TILE_RES then i else i - 1;
        assert VerticalColumn(q - BAR_QUADS) == i;
        var bl: u32 := i * 2;
        var br := bl + 1;
        var tl := bl + 2;
        var tr := br + 2;
        CrossIndexOfQuad(q);
        // The source assigns indices[idx + 0] .. indices[idx + 5] one by one; the same six writes.
        CopyFromSlice(indices, idx,
          [vertBase + br, vertBase + tr, vertBase + bl, vertBase + bl, vertBase + tr, vertBase + tl]);
        idx := idx + 6;
      }
    }
  }

  /** `generate_cross_mesh`. */
  method GenerateCrossMesh() returns (m: Mesh2d)
    ensures m == CrossMesh()
  {
    var vertices := new Vec2[V_MAX](_ => ZERO);
    var vertBase := WriteCrossVertices(vertices);
    var indices := new u32[I_MAX](_ => 0);
    var idx := WriteHorizontalStrip(indices);
    WriteVerticalStrip(indices, vertBase, idx);
    m := Mesh2d("Cross", vertices[..], indices[..], V_CROSS, I_CROSS, N_CROSS);
  }
}
