/** The tile stamp: a PATCH_RES x PATCH_RES grid of unit-spaced vertices, two triangles per
    unit quad. */
module TileStamp {
  import opened Consts
  import opened Geometry
  import opened Mesh

  /** Vertex k sits at column k mod PATCH_RES of row k div PATCH_RES. */
  function TileVertex(k: int): Vec2
    requires 0 <= k < V_TILE
  {
    Vec2((k % PATCH_RES) as real, (k / PATCH_RES) as real)
  }

  /** The six indices of quad (x, y): [base, up_right, up] and [base, right, up_right]. */
  function TileQuad(x: int, y: int): seq<u32>
    requires 0 <= x < TILE_RES && 0 <= y < TILE_RES
  {
    var base := y * PATCH_RES + x;
    [base, base + PATCH_RES + 1, base + PATCH_RES, base, base + 1, base + PATCH_RES + 1]
  }

  /** Quads are emitted row by row, six indices each. */
  function TileIndex(k: int): u32
    requires 0 <= k < I_TILE
  {
    var q := k / 6;
    TileQuad(q % TILE_RES, q / TILE_RES)[k % 6]
  }

  /** The tile stamp as `generate_tile_mesh` leaves it; the tile fills the shared capacity
      (V_MAX = V_TILE, I_MAX = I_TILE) exactly. */
  function TileMesh(): Mesh2d {
    Mesh2d("Tile",
      seq(V_MAX, k requires 0 <= k < V_MAX => TileVertex(k)),
      seq(I_MAX, k requires 0 <= k < I_MAX => TileIndex(k)),
      V_TILE, I_TILE, N_TILES)
  }

  /** The indices at positions 6·(y·TILE_RES + x) .. 6·(y·TILE_RES + x) + 5 are quad (x, y). */
  lemma TileIndexOfQuad(x: int, y: int)
    requires 0 <= x < TILE_RES && 0 <= y < TILE_RES
    ensures var start := 6 * (y * TILE_RES + x);
      forall k :: start <= k < start + 6 ==> TileIndex(k) == TileQuad(x, y)[k - start]
  {
    var q := y * TILE_RES + x;
    forall k | 6 * q <= k < 6 * q + 6
      ensures TileIndex(k) == TileQuad(x, y)[k - 6 * q]
    {
      DivModUnique(k, 6, q, k - 6 * q);
      DivModUnique(q, TILE_RES, y, x);
    }
  }

  /** The indices of quad (x, y) name the corners of the unit square at (x, y). */
  lemma TileQuadCorners(x: int, y: int)
    requires 0 <= x < TILE_RES && 0 <= y < TILE_RES
    ensures var b := y * PATCH_RES + x;
      && b + PATCH_RES + 1 < V_TILE
      && TileVertex(b) == Vec2(x as real, y as real)
      && TileVertex(b + 1) == Vec2(x as real + 1.0, y as real)
      && TileVertex(b + PATCH_RES) == Vec2(x as real, y as real + 1.0)
      && TileVertex(b + PATCH_RES + 1) == Vec2(x as real + 1.0, y as real + 1.0)
  {
    var b := y * PATCH_RES + x;
    DivModUnique(b, PATCH_RES, y, x);
    DivModUnique(b + 1, PATCH_RES, y, x + 1);
    DivModUnique(b + PATCH_RES, PATCH_RES, y + 1, x);
    DivModUnique(b + PATCH_RES + 1, PATCH_RES, y + 1, x + 1);
  }

  /** Every index names one of the V_TILE vertices, so the stamp is well formed. */
  lemma TileMeshWellFormed()
    ensures WellFormed(TileMesh())
    ensures TileMesh().vertexCount == PATCH_RES * PATCH_RES && TileMesh().indexCount == 6 * TILE_RES * TILE_RES
  {
    var m := TileMesh();
    forall k | 0 <= k < m.indexCount
      ensures m.indices[k] < m.vertexCount
    {
      var q := k / 6;
      TileQuadCorners(q % TILE_RES, q / TILE_RES);
    }
  }

  /** Both triangles of quad (x, y) are halves of its unit square, wound counter-clockwise. */
  lemma TileQuadCounterClockwise(x: int, y: int, h: int)
    requires 0 <= x < TILE_RES && 0 <= y < TILE_RES && 0 <= h < 2
    ensures var q := TileQuad(x, y);
      && q[3 * h] < V_TILE && q[3 * h + 1] < V_TILE && q[3 * h + 2] < V_TILE
      && SignedArea2(TileVertex(q[3 * h]), TileVertex(q[3 * h + 1]), TileVertex(q[3 * h + 2])) == 1.0
  {
    TileQuadCorners(x, y);
    var q := TileQuad(x, y);
    var p := Vec2(x as real, y as real);
    if h == 0 {
      SignedArea2ByOffsets(p, TileVertex(q[1]), TileVertex(q[2]), 1.0, 1.0, 0.0, 1.0);
    } else {
      SignedArea2ByOffsets(p, TileVertex(q[4]), TileVertex(q[5]), 1.0, 0.0, 1.0, 1.0);
    }
  }

  /** Live triangle t is the half 3·(t mod 2) of quad t / 2, that is of quad (x, y) with
      x = (t / 2) mod TILE_RES and y = (t / 2) / TILE_RES. */
  lemma TileTriangleIndices(t: int)
    requires 0 <= t < I_TILE / 3
    ensures var m := TileMesh(); var q, h := t / 2, t % 2;
      var quad := TileQuad(q % TILE_RES, q / TILE_RES);
      && m.indices[3 * t] == quad[3 * h]
      && m.indices[3 * t + 1] == quad[3 * h + 1]
      && m.indices[3 * t + 2] == quad[3 * h + 2]
  {
    var q, h := t / 2, t % 2;
    assert 3 * t == 6 * q + 3 * h;
    DivModUnique(3 * t, 6, q, 3 * h);
    DivModUnique(3 * t + 1, 6, q, 3 * h + 1);
    DivModUnique(3 * t + 2, 6, q, 3 * h + 2);
  }

  /** Both triangles of every quad are half a unit square, wound counter-clockwise. */
  lemma TileMeshCounterClockwise()
    ensures WellFormed(TileMesh()) && UnitCounterClockwise(TileMesh())
  {
    TileMeshWellFormed();
    var m := TileMesh();
    forall t | 0 <= t < m.indexCount / 3
      ensures TriangleArea2(m, t) == 1.0
    {
      var q := t / 2;
      TileTriangleIndices(t);
      TileQuadCounterClockwise(q % TILE_RES, q / TILE_RES, t % 2);
    }
  }

  /** First pass of `generate_tile_mesh`: vertex v at (v mod PATCH_RES, v div PATCH_RES). */
  method WriteTileVertices(vertices: array<Vec2>)
    requires vertices.Length == V_MAX
    modifies vertices
    ensures vertices[..] == TileMesh().vertices
  {
    for v := 0 to V_TILE
      invariant forall k :: 0 <= k < v ==> vertices[k] == TileVertex(k)
    {
      var x := (v % PATCH_RES) as real;
      var y := (v / PATCH_RES) as real;
      vertices[v] := Vec2(x, y);
    }
  }

  /** Second pass of `generate_tile_mesh`: the quads row by row, six indices each. */
  method WriteTileIndices(indices: array<u32>)
    requires indices.Length == I_MAX
    modifies indices
    ensures indices[..] == TileMesh().indices
  {
    var idx := 0;
    for y := 0 to TILE_RES
      invariant idx == 6 * (y * TILE_RES)
      invariant forall k :: 0 <= k < idx ==> indices[k] == TileIndex(k)
    {
      for x := 0 to TILE_RES
        invariant idx == 6 * (y * TILE_RES + x)
        invariant forall k :: 0 <= k < idx ==> indices[k] == TileIndex(k)
      {
        var base: u32 := y * PATCH_RES + x;
        var right := base + 1;
        var up := base + PATCH_RES;
        var upRight := up + 1;
        TileIndexOfQuad(x, y);
        CopyFromSlice(indices, idx, [base, upRight, up, base, right, upRight]);
        idx := idx + 6;
      }
    }
  }

  /** `generate_tile_mesh`. */
  method GenerateTileMesh() returns (m: Mesh2d)
    ensures m == TileMesh()
  {
    var vertices := new Vec2[V_MAX](_ => ZERO);
    WriteTileVertices(vertices);
    var indices := new u32[I_MAX](_ => 0);
    WriteTileIndices(indices);
    m := Mesh2d("Tile", vertices[..], indices[..], V_TILE, I_TILE, N_TILES);
  }
}
