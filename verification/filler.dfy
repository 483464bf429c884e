/** The filler (ring) stamp: four one-unit-wide arms of PATCH_RES quads each, reaching out
    from the tile grid along +X, +Y, -X and -Y. */
module FillerStamp {
  import opened Consts
  import opened Geometry
  import opened Mesh

  /** Vertices written per arm: PATCH_RES steps of two. */
  const ARM_VERTS: nat := PATCH_RES * 2

  /** The two vertices written for step i of an arm. */
  function ArmPair(arm: int, i: int): (Vec2, Vec2)
    requires 0 <= arm < 4 && 0 <= i < PATCH_RES
  {
    var offset := TILE_RES as real;
    var f := i as real;
    match arm
    case 0 => var x := offset + f + 1.0; (Vec2(x, 0.0), Vec2(x, 1.0))          // +X arm
    case 1 => var y := offset + f + 1.0; (Vec2(1.0, y), Vec2(0.0, y))          // +Y arm
    case 2 => var x := -(offset + f); (Vec2(x, 1.0), Vec2(x, 0.0))             // -X arm
    case _ => var y := -(offset + f); (Vec2(0.0, y), Vec2(1.0, y))             // -Y arm
  }

  /** Vertex k is member k mod 2 of step (k mod ARM_VERTS) div 2 of arm k div ARM_VERTS. */
  function FillerVertex(k: int): Vec2
    requires 0 <= k < V_FILL
  {
    var pair := ArmPair(k / ARM_VERTS, (k % ARM_VERTS) / 2);
    if k % 2 == 0 then pair.0 else pair.1
  }

  /** Quad a lies in arm a / TILE_RES; even (horizontal) arms emit [br,bl,tr],[bl,tl,tr] and
      odd (vertical) arms [br,bl,tl],[br,tl,tr]. */
  function FillerQuad(a: int): seq<u32>
    requires 0 <= a < TILE_RES * 4
  {
    var arm := a / TILE_RES;
    var local := a % TILE_RES;
    var armStart := arm * PATCH_RES * 2;
    var bl := armStart + local * 2;
    var br := bl + 1;
    var tl := bl + 2;
    var tr := tl + 1;
    if arm % 2 == 0 then [br, bl, tr, bl, tl, tr] else [br, bl, tl, br, tl, tr]
  }

  function FillerIndex(k: int): u32
    requires 0 <= k < I_FILL
  {
    FillerQuad(k / 6)[k % 6]
  }

  /** Positions 6·a .. 6·a + 5 of the index list hold quad a. */
  lemma FillerIndexOfQuad(a: int)
    requires 0 <= a < TILE_RES * 4
    ensures forall k :: 6 * a <= k < 6 * a + 6 ==> FillerIndex(k) == FillerQuad(a)[k - 6 * a]
  {
    forall k | 6 * a <= k < 6 * a + 6 ensures FillerIndex(k) == FillerQuad(a)[k - 6 * a] {
      DivModUnique(k, 6, a, k - 6 * a);
    }
  }

  /** The filler stamp as `generate_filler_mesh` leaves it. */
  function FillerMesh(): Mesh2d {
    Mesh2d("Filler",
      seq(V_MAX, k requires 0 <= k < V_MAX => if k < V_FILL then FillerVertex(k) else ZERO),
      seq(I_MAX, k requires 0 <= k < I_MAX => if k < I_FILL then FillerIndex(k) else 0),
      V_FILL, I_FILL, N_FILLERS)
  }

  /** The two vertices written at cursor 2·(arm·PATCH_RES + i) are the pair of step i. */
  lemma FillerVertexOfStep(arm: int, i: int)
    requires 0 <= arm < 4 && 0 <= i < PATCH_RES
    ensures var v := 2 * (arm * PATCH_RES + i);
      && v + 1 < V_FILL
      && FillerVertex(v) == ArmPair(arm, i).0 && FillerVertex(v + 1) == ArmPair(arm, i).1
  {
    var v := 2 * (arm * PATCH_RES + i);
    DivModUnique(v, ARM_VERTS, arm, 2 * i);
    DivModUnique(v + 1, ARM_VERTS, arm, 2 * i + 1);
  }

  /** Quad a only uses vertices of its own arm's block [arm·2·PATCH_RES, (arm+1)·2·PATCH_RES). */
  lemma FillerQuadInArm(a: int)
    requires 0 <= a < TILE_RES * 4
    ensures forall j :: 0 <= j < 6 ==>
      (a / TILE_RES) * ARM_VERTS <= FillerQuad(a)[j] < (a / TILE_RES + 1) * ARM_VERTS
  {
  }

  /** Every index names one of the V_FILL vertices. */
  lemma FillerMeshWellFormed()
    ensures WellFormed(FillerMesh())
    ensures FillerMesh().vertexCount == 4 * PATCH_RES * 2 && FillerMesh().indexCount == 4 * TILE_RES * 6
  {
    var m := FillerMesh();
    forall k | 0 <= k < m.indexCount
      ensures m.indices[k] < m.vertexCount
    {
      FillerQuadInArm(k / 6);
    }
  }

  /** The corners of quad a: bl and br are the pair of step a mod TILE_RES of its arm, tl and
      tr the pair of the next step. */
  lemma FillerQuadCorners(a: int)
    requires 0 <= a < TILE_RES * 4
    ensures var arm, local := a / TILE_RES, a % TILE_RES;
      var bl := arm * PATCH_RES * 2 + local * 2;
      && FillerQuad(a) == (if arm % 2 == 0 then [bl + 1, bl, bl + 3, bl, bl + 2, bl + 3]
                                           else [bl + 1, bl, bl + 2, bl + 1, bl + 2, bl + 3])
      && bl + 3 < V_FILL
      && FillerVertex(bl) == ArmPair(arm, local).0 && FillerVertex(bl + 1) == ArmPair(arm, local).1
      && FillerVertex(bl + 2) == ArmPair(arm, local + 1).0 && FillerVertex(bl + 3) == ArmPair(arm, local + 1).1
  {
    var arm, local := a / TILE_RES, a % TILE_RES;
    FillerVertexOfStep(arm, local);
    FillerVertexOfStep(arm, local + 1);
  }

  /** The two triangles of step `local` of an arm, with bl, br the pair of the step and tl, tr
      the pair of the next one: horizontal arms wind [br,bl,tr],[bl,tl,tr], vertical arms
      [br,bl,tl],[br,tl,tr], and all four windings are counter-clockwise, although the arms
      pointing the negative way store their pairs in the opposite order. */
  lemma ArmStepCounterClockwise(arm: int, local: int)
    requires 0 <= arm < 4 && 0 <= local < TILE_RES
    ensures var (bl, br) := ArmPair(arm, local); var (tl, tr) := ArmPair(arm, local + 1);
      if arm % 2 == 0 then SignedArea2(br, bl, tr) == 1.0 && SignedArea2(bl, tl, tr) == 1.0
      else SignedArea2(br, bl, tl) == 1.0 && SignedArea2(br, tl, tr) == 1.0
  {
    var (bl, br) := ArmPair(arm, local);
    var (tl, tr) := ArmPair(arm, local + 1);
    if arm == 0 {
      SignedArea2ByOffsets(br, bl, tr, 0.0, -1.0, 1.0, 0.0);
      SignedArea2ByOffsets(bl, tl, tr, 1.0, 0.0, 1.0, 1.0);
    } else if arm == 1 {
      SignedArea2ByOffsets(br, bl, tl, 1.0, 0.0, 1.0, 1.0);
      SignedArea2ByOffsets(br, tl, tr, 1.0, 1.0, 0.0, 1.0);
    } else if arm == 2 {
      SignedArea2ByOffsets(br, bl, tr, 0.0, 1.0, -1.0, 0.0);
      SignedArea2ByOffsets(bl, tl, tr, -1.0, 0.0, -1.0, -1.0);
    } else {
      SignedArea2ByOffsets(br, bl, tl, -1.0, 0.0, -1.0, -1.0);
      SignedArea2ByOffsets(br, tl, tr, -1.0, -1.0, 0.0, -1.0);
    }
  }

  /** Live triangle t of the filler is stored at positions 3·(t mod 2) .. 3·(t mod 2) + 2 of
      quad t / 2. */
  lemma FillerTriangleIndices(t: int)
    requires 0 <= t < I_FILL / 3
    ensures var m := FillerMesh(); var a, h := t / 2, t % 2;
      && m.indices[3 * t] == FillerQuad(a)[3 * h]
      && m.indices[3 * t + 1] == FillerQuad(a)[3 * h + 1]
      && m.indices[3 * t + 2] == FillerQuad(a)[3 * h + 2]
  {
    var a, h := t / 2, t % 2;
    assert 3 * t == 6 * a + 3 * h;
    DivModUnique(3 * t, 6, a, 3 * h);
    DivModUnique(3 * t + 1, 6, a, 3 * h + 1);
    DivModUnique(3 * t + 2, 6, a, 3 * h + 2);
  }

  /** Both triangles of every filler quad are counter-clockwise unit half-squares. */
  lemma FillerQuadCounterClockwise(a: int, h: int)
    requires 0 <= a < TILE_RES * 4 && 0 <= h < 2
    ensures var q := FillerQuad(a);
      && q[3 * h] < V_FILL && q[3 * h + 1] < V_FILL && q[3 * h + 2] < V_FILL
      && SignedArea2(FillerVertex(q[3 * h]), FillerVertex(q[3 * h + 1]), FillerVertex(q[3 * h + 2])) == 1.0
  {
    FillerQuadCorners(a);
    ArmStepCounterClockwise(a / TILE_RES, a % TILE_RES);
  }

  /** Every triangle of the filler is half a unit square, wound counter-clockwise. */
  lemma FillerMeshCounterClockwise()
    ensures WellFormed(FillerMesh()) && UnitCounterClockwise(FillerMesh())
  {
    FillerMeshWellFormed();
    var m := FillerMesh();
    forall t | 0 <= t < m.indexCount / 3
      ensures TriangleArea2(m, t) == 1.0
    {
      FillerTriangleIndices(t);
      FillerQuadCounterClockwise(t / 2, t % 2);
    }
  }

  /** First pass of `generate_filler_mesh`: a single loop writes both vertices of every
      step of all four arms, advancing the cursor v by two. */
  method WriteFillerVertices(vertices: array<Vec2>)
    requires vertices.Length == V_MAX && forall k :: 0 <= k < V_MAX ==> vertices[k] == ZERO
    modifies vertices
    ensures vertices[..] == FillerMesh().vertices
  {
    var v := 0;
    for arm := 0 to 4
      invariant v == 2 * (arm * PATCH_RES)
      invariant forall k :: 0 <= k < v ==> vertices[k] == FillerVertex(k)
      invariant forall k :: v <= k < V_MAX ==> vertices[k] == ZERO
    {
      for i := 0 to PATCH_RES
        invariant v == 2 * (arm * PATCH_RES + i)
        invariant forall k :: 0 <= k < v ==> vertices[k] == FillerVertex(k)
        invariant forall k :: v <= k < V_MAX ==> vertices[k] == ZERO
      {
        var (lo, hi) := ArmPair(arm, i);
        FillerVertexOfStep(arm, i);
        CopyFromSlice(vertices, v, [lo, hi]);
        v := v + 2;
      }
    }
  }

  /** Second pass of `generate_filler_mesh`: six indices per quad, wound by arm parity. */
  method WriteFillerIndices(indices: array<u32>)
    requires indices.Length == I_MAX && forall k :: 0 <= k < I_MAX ==> indices[k] == 0
    modifies indices
    ensures indices[..] == FillerMesh().indices
  {
    var idx := 0;
    for a := 0 to TILE_RES * 4
      invariant idx == 6 * a
      invariant forall k :: 0 <= k < idx ==> indices[k] == FillerIndex(k)
      invariant forall k :: idx <= k < I_MAX ==> indices[k] == 0
    {
      var arm := a / TILE_RES;
      var local := a % TILE_RES;
      var armStart: u32 := arm * PATCH_RES * 2;
      var bl := armStart + local * 2;
      var br := bl + 1;
      var tl := bl + 2;
      var tr := tl + 1;
      var quad := if arm % 2 == 0 then [br, bl, tr, bl, tl, tr] else [br, bl, tl, br, tl, tr];
      FillerIndexOfQuad(a);
      CopyFromSlice(indices, idx, quad);
      idx := idx + 6;
    }
  }

  /** `generate_filler_mesh`. */
  method GenerateFillerMesh() returns (m: Mesh2d)
    ensures m == FillerMesh()
  {
    var vertices := new Vec2[V_MAX](_ => ZERO);
    WriteFillerVertices(vertices);
    var indices := new u32[I_MAX](_ => 0);
    WriteFillerIndices(indices);
    m := Mesh2d("Filler", vertices[..], indices[..], V_FILL, I_FILL, N_FILLERS);
  }
}
