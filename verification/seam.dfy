/** The seam stamp: a closed ring of unit steps around the square [0, CLIP_VERT_RES]², one side
    after another, stitched by one triangle per pair of ring vertices. */
module SeamStamp {
  import opened Consts
  import opened Geometry
  import opened Mesh

  const SIDE: nat := CLIP_VERT_RES

  /** Point i of side s: side 0 runs along the bottom to the right, side 1 up the right edge,
      side 2 along the top to the left, side 3 down the left edge. */
  function RingPoint(s: int, i: int): Vec2 {
    var f := i as real;
    var r := SIDE as real;
    match s
    case 0 => Vec2(f, 0.0)
    case 1 => Vec2(r, f)
    case 2 => Vec2(r - f, r)
    case _ => Vec2(0.0, r - f)
  }

  /** Vertex k is point k % CLIP_VERT_RES of side k / CLIP_VERT_RES. */
  function SeamVertex(k: int): Vec2
    requires 0 <= k < V_SEAM
  {
    RingPoint(k / SIDE, k % SIDE)
  }

  /** Pair p of ring vertices gives the triangle [j + 1, j, j + 2] with j = 2·p, the last one
      closing the ring through vertex 0. */
  function SeamIndex(k: int): u32
    requires 0 <= k < I_SEAM
  {
    var j := (k / 3) * 2;
    [j + 1, j, (j + 2) % V_SEAM][k % 3]
  }

  /** The seam stamp as `generate_seam_mesh` leaves it. */
  function SeamMesh(): Mesh2d {
    Mesh2d("Seam",
      seq(V_MAX, k requires 0 <= k < V_MAX => if k < V_SEAM then SeamVertex(k) else ZERO),
      seq(I_MAX, k requires 0 <= k < I_MAX => if k < I_SEAM then SeamIndex(k) else 0),
      V_SEAM, I_SEAM, N_SEAMS)
  }

  /** Four sides of CLIP_VERT_RES vertices make V_SEAM; one triangle for each of the V_SEAM / 2
      vertex pairs makes I_SEAM indices. */
  lemma SeamCounts()
    ensures 4 * SIDE == V_SEAM && V_SEAM % 2 == 0
    ensures 3 * (V_SEAM / 2) == I_SEAM
  {
  }

  lemma SeamMeshWellFormed()
    ensures WellFormed(SeamMesh())
  {
  }

  /** The last triangle wraps around: its third index is 0. */
  lemma SeamLastTriangle()
    ensures SeamMesh().indices[I_SEAM - 3..I_SEAM] == [V_SEAM - 1, V_SEAM - 2, 0]
  {
    var m := SeamMesh();
    DivModUnique(I_SEAM - 3, 3, V_SEAM / 2 - 1, 0);
    DivModUnique(I_SEAM - 2, 3, V_SEAM / 2 - 1, 1);
    DivModUnique(I_SEAM - 1, 3, V_SEAM / 2 - 1, 2);
  }

  /** Every ring vertex is used by some triangle. */
  lemma SeamCoversRing(k: int)
    requires 0 <= k < V_SEAM
    ensures exists i :: 0 <= i < I_SEAM && SeamMesh().indices[i] == k
  {
    var m := SeamMesh();
    if k % 2 == 1 {
      var i := 3 * ((k - 1) / 2);
      DivModUnique(i, 3, (k - 1) / 2, 0);
      assert m.indices[i] == k;
    } else {
      var i := 3 * (k / 2) + 1;
      DivModUnique(i, 3, k / 2, 1);
      assert m.indices[i] == k;
    }
  }

  /** Direction in which side s of the ring advances. */
  function SideDirection(s: int): Vec2 {
    match s
    case 0 => Vec2(1.0, 0.0)
    case 1 => Vec2(0.0, 1.0)
    case 2 => Vec2(-1.0, 0.0)
    case _ => Vec2(0.0, -1.0)
  }

  /** Every vertex lies on the boundary of the square [0, CLIP_VERT_RES]². */
  lemma SeamVertexOnBoundary(k: int)
    requires 0 <= k < V_SEAM
    ensures var p := SeamVertex(k); var r := SIDE as real;
      && 0.0 <= p.x <= r && 0.0 <= p.y <= r
      && (p.x == 0.0 || p.x == r || p.y == 0.0 || p.y == r)
  {
  }

  /** One step along side s from point i reaches point i + 1, or the next side's first
      corner after the side's last point. */
  lemma RingPointStep(s: int, i: int)
    requires 0 <= s < 4 && 0 <= i < SIDE
    ensures RingPoint(s, i).Plus(SideDirection(s))
         == if i < SIDE - 1 then RingPoint(s, i + 1) else RingPoint((s + 1) % 4, 0)
  {
  }

  /** The ring is closed and made of unit steps: the vertex after k (vertex 0 after the last)
      is one step from k in the direction of k's side. */
  lemma SeamRingStep(k: int)
    requires 0 <= k < V_SEAM
    ensures SeamVertex((k + 1) % V_SEAM) == SeamVertex(k).Plus(SideDirection(k / SIDE))
  {
    assert SIDE == 258 && V_SEAM == 1032;
    var s, i := k / SIDE, k % SIDE;
    RingPointStep(s, i);
    if i < SIDE - 1 {
      DivModUnique(k + 1, SIDE, s, i + 1);
      DivModUnique(k + 1, V_SEAM, 0, k + 1);
    } else if s < 3 {
      DivModUnique(k + 1, SIDE, s + 1, 0);
      DivModUnique(k + 1, V_SEAM, 0, k + 1);
    } else {
      DivModUnique(k + 1, V_SEAM, 1, 0);
      DivModUnique(0, SIDE, 0, 0);
    }
  }

  /** An even ring vertex and the one after it lie on the same side, because each side has
      an even number of vertices. */
  lemma SeamPairOnOneSide(t: int)
    requires 0 <= t < V_SEAM / 2
    ensures (2 * t + 1) / SIDE == (2 * t) / SIDE
  {
    var j := 2 * t;
    var q, r := j / SIDE, j % SIDE;
    assert j == 258 * q + r;
    assert r == 2 * (t - 129 * q);
    DivModUnique(j + 1, SIDE, q, r + 1);
  }

  /** Three consecutive ring vertices starting at an even one lie on one line. */
  lemma SeamTriangleFlat(t: int)
    requires 0 <= t < V_SEAM / 2
    ensures SignedArea2(SeamVertex(2 * t + 1), SeamVertex(2 * t), SeamVertex((2 * t + 2) % V_SEAM)) == 0.0
  {
    var j := 2 * t;
    SeamRingStep(j);
    SeamRingStep(j + 1);
    SeamPairOnOneSide(t);
    assert (j + 1) % V_SEAM == j + 1;
    EqualStepsCollinear(SeamVertex(j), SeamVertex(j + 1), SeamVertex((j + 2) % V_SEAM),
      SideDirection(j / SIDE));
  }

  /** Triangle t of the stamp is [2·t + 1, 2·t, (2·t + 2) % V_SEAM]. */
  lemma SeamTriangleCorners(t: int)
    requires 0 <= t < I_SEAM / 3
    ensures var m := SeamMesh();
      && 3 * t + 2 < |m.indices|
      && m.indices[3 * t] == 2 * t + 1
      && m.indices[3 * t + 1] == 2 * t
      && m.indices[3 * t + 2] == (2 * t + 2) % V_SEAM
  {
    DivModUnique(3 * t, 3, t, 0);
    DivModUnique(3 * t + 1, 3, t, 1);
    DivModUnique(3 * t + 2, 3, t, 2);
  }

  /** Every seam triangle is degenerate: its three corners are consecutive ring vertices on one
      line, so the stamp adds no area in the plane. */
  lemma SeamMeshFlat()
    ensures WellFormed(SeamMesh()) && Flat(SeamMesh())
  {
    SeamMeshWellFormed();
    var m := SeamMesh();
    forall t | 0 <= t < m.indexCount / 3
      ensures TriangleArea2(m, t) == 0.0
    {
      SeamTriangleCorners(t);
      SeamTriangleFlat(t);
    }
  }

  /** First pass of `generate_seam_mesh`: step i writes the i-th vertex of all four sides. */
  method WriteSeamVertices(vertices: array<Vec2>)
    requires vertices.Length == V_MAX && forall k :: 0 <= k < V_MAX ==> vertices[k] == ZERO
    modifies vertices
    ensures vertices[..] == SeamMesh().vertices
  {
    var resF := SIDE as real;
    assert SIDE == 258 && V_SEAM == 1032 && V_MAX == 4225;
    for i := 0 to SIDE
      invariant forall k :: 0 <= k < V_SEAM && k % SIDE < i ==> vertices[k] == SeamVertex(k)
      invariant forall k :: 0 <= k < V_MAX && !(k < V_SEAM && k % SIDE < i) ==> vertices[k] == ZERO
    {
      var f := i as real;
      DivModUnique(i, SIDE, 0, i);
      DivModUnique(SIDE + i, SIDE, 1, i);
      DivModUnique(SIDE * 2 + i, SIDE, 2, i);
      DivModUnique(SIDE * 3 + i, SIDE, 3, i);
      vertices[i] := Vec2(f, 0.0);
      vertices[SIDE + i] := Vec2(resF, f);
      vertices[SIDE * 2 + i] := Vec2(resF - f, resF);
      vertices[SIDE * 3 + i] := Vec2(0.0, resF - f);
      forall k | 0 <= k < V_SEAM && k % SIDE == i
        ensures k == i || k == SIDE + i || k == SIDE * 2 + i || k == SIDE * 3 + i
      {
        DivModUnique(k, SIDE, k / SIDE, i);
      }
    }
  }

  /** Second pass of `generate_seam_mesh`. */
  method WriteSeamIndices(indices: array<u32>)
    requires indices.Length == I_MAX && forall k :: 0 <= k < I_MAX ==> indices[k] == 0
    modifies indices
    ensures indices[..] == SeamMesh().indices
  {
    var idx := 0;
    var vcount: u32 := V_SEAM;
    for pair := 0 to V_SEAM / 2
      invariant idx == 3 * pair
      invariant forall k :: 0 <= k < idx ==> indices[k] == SeamIndex(k)
      invariant forall k :: idx <= k < I_MAX ==> indices[k] == 0
    {
      var j: u32 := pair * 2;
      var triangle := [j + 1, j, (j + 2) % vcount];
      forall k | idx <= k < idx + 3 ensures SeamIndex(k) == triangle[k - idx] {
        DivModUnique(k, 3, pair, k - idx);
      }
      // The source assigns indices[idx + 0] .. indices[idx + 2] one by one; the same three writes.
      CopyFromSlice(indices, idx, triangle);
      idx := idx + 3;
    }
  }

  /** `generate_seam_mesh`. */
  method GenerateSeamMesh() returns (m: Mesh2d)
    ensures m == SeamMesh()
  {
    var vertices := new Vec2[V_MAX](_ => ZERO);
    WriteSeamVertices(vertices);
    var indices := new u32[I_MAX](_ => 0);
    WriteSeamIndices(indices);
    m := Mesh2d("Seam", vertices[..], indices[..], V_SEAM, I_SEAM, N_SEAMS);
  }
}
