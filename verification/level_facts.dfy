/** What the per-level arithmetic promises: exact shifts, doubling cell sizes, snapping
    bounds, the trim's rotation choice, the seam's corner, and a plan that only changes when
    the camera crosses a cell of the finest level. */
module LevelFacts {
  import opened Consts
  import opened Geometry
  import opened Snapping
  import opened Placement

  lemma {:induction false} Pow2Add(a: nat, b: nat)
    ensures Pow2(a + b) == Pow2(a) * Pow2(b)
  {
    if b > 0 {
      Pow2Add(a, b - 1);
    }
  }

  lemma {:induction false} Pow2Monotone(a: nat, b: nat)
    requires a <= b
    ensures Pow2(a) <= Pow2(b)
  {
    if a < b {
      Pow2Monotone(a, b - 1);
    }
  }

  /** Every shift of the update keeps all its bits in a u32 and stays below 2^24, so the
      conversions to f32 are exact: the largest is `TILE_RES << 9 + SCALE_OFFSET + 1` = 2^21. */
  lemma ShiftsFit(level: nat)
    requires level < N_LEVELS
    ensures Shl(1, level + SCALE_OFFSET + 1) <= 0x8000
    ensures Shl(TILE_RES, level + SCALE_OFFSET + 1) <= 0x20_0000 < 0x100_0000
  {
    Pow2Monotone(level + SCALE_OFFSET + 1, 15);
    assert Pow2(15) == 0x8000 by {
      Pow2Add(5, 10);
      Pow2Add(5, 5);
      assert Pow2(5) == 32;
    }
  }

  /** Level 0 cells are 32 units wide, every level doubles the cell and tile size of the one
      inside it, a tile is TILE_RES cells, and the seam's offset is two tiles. */
  lemma {:induction false} LevelScales(level: nat)
    ensures LevelScale(0) == 32.0
    ensures LevelScale(level + 1) == 2.0 * LevelScale(level)
    ensures TileSize(level) == TILE_RES as real * LevelScale(level)
    ensures Shl(TILE_RES, level + SCALE_OFFSET + 1) as real == 2.0 * TileSize(level) == TileSize(level + 1)
  {
    assert Pow2(5) == 32;
  }

  /** The snapped camera is the corner of the level cell holding the camera: a whole number
      of cells from the origin, at most the camera and less than a cell below it. */
  lemma SnappedBounds(cam: Vec2, level: nat)
    ensures var s, p := LevelScale(level), Snapped(cam, level);
      && p.x <= cam.x < p.x + s && p.y <= cam.y < p.y + s
      && p.x == (cam.x / s).Floor as real * s && p.y == (cam.y / s).Floor as real * s
  {
    SnapBounds(cam.x, LevelScale(level));
    SnapBounds(cam.y, LevelScale(level));
  }

  /** `next_snap` is the next coarser level's snapped camera. */
  lemma NextSnapIsCoarserSnap(cam: Vec2, level: nat)
    ensures NextSnapped(cam, level) == Snapped(cam, level + 1)
  {
    LevelScales(level);
  }

  /** The camera's offset d from `next_snap` lies in [0, 2s) on each axis, and d is below one
      cell s exactly when the level's snap and the coarser snap agree on that axis; otherwise
      the level's snap is one cell further. The trim's rotation index has bit 1 set exactly
      when they agree on x, and bit 0 exactly when they agree on y. */
  lemma TrimRotationFollowsSnaps(cam: Vec2, level: nat)
    ensures var s, p, q := LevelScale(level), Snapped(cam, level), NextSnapped(cam, level);
      var d, r := cam.Minus(q), TrimRotationIndex(cam.Minus(q), s);
      && 0.0 <= d.x < 2.0 * s && 0.0 <= d.y < 2.0 * s
      && (d.x < s <==> p.x == q.x) && (d.y < s <==> p.y == q.y)
      && (p.x == q.x || p.x == q.x + s) && (p.y == q.y || p.y == q.y + s)
      && (r / 2 == 1 <==> p.x == q.x) && (r % 2 == 1 <==> p.y == q.y)
      && TrimInstance(cam, level).transform.rotation == ROTATIONS[r]
  {
    var s := LevelScale(level);
    CoarserSnapOffset(cam.x, s);
    CoarserSnapOffset(cam.y, s);
    assert NextSnapped(cam, level) == Vec2(Snap(cam.x, 2.0 * s), Snap(cam.y, 2.0 * s));
  }

  /** A camera sitting exactly on a point of the coarser grid gets the trim turned by 180
      degrees (index 3). */
  lemma TrimAtCoarseGridPoint(cam: Vec2, level: nat)
    requires cam == NextSnapped(cam, level)
    ensures TrimInstance(cam, level).transform.rotation == ROTATIONS[3] == Rot180
  {
    assert cam.Minus(NextSnapped(cam, level)) == ZERO;
  }

  /** The seam's corner is the bottom-left corner of tile (1, 1) of the next level, the
      corner of the middle that level leaves out. */
  lemma SeamAtCoarserHoleCorner(cam: Vec2, level: nat)
    ensures SeamInstance(cam, level).transform.translation == TileCorner(cam, level + 1, 1, 1)
    ensures SeamInstance(cam, level).transform.scale == LevelScale(level)
  {
    LevelScales(level);
    NextSnapIsCoarserSnap(cam, level);
  }

  /** Two coordinates in the same cell of the finest level are in the same cell of every
      level. */
  lemma {:induction false} SameCellAtEveryLevel(c: real, c': real, level: nat)
    requires (c / LevelScale(0)).Floor == (c' / LevelScale(0)).Floor
    ensures (c / LevelScale(level)).Floor == (c' / LevelScale(level)).Floor
  {
    if level > 0 {
      SameCellAtEveryLevel(c, c', level - 1);
      var s := LevelScale(level - 1);
      LevelScales(level - 1);
      SnapSameCell(c, c', s);
      assert LevelScale(level) == 2.0 * s;
    }
  }

  /** Within a cell of a level, that level's plan does not change. */
  lemma SameCellSameLevelPlan(cam: Vec2, cam': Vec2, level: nat)
    requires (cam.x / LevelScale(level)).Floor == (cam'.x / LevelScale(level)).Floor
    requires (cam.y / LevelScale(level)).Floor == (cam'.y / LevelScale(level)).Floor
    ensures LevelPlan(cam, level) == LevelPlan(cam', level)
  {
    var s := LevelScale(level);
    SnapSameCell(cam.x, cam'.x, s);
    SnapSameCell(cam.y, cam'.y, s);
    SnapDouble(cam.x, s);
    SnapDouble(cam'.x, s);
    SnapDouble(cam.y, s);
    SnapDouble(cam'.y, s);
    assert NextSnapped(cam, level) == NextSnapped(cam', level);
    TrimRotationFollowsSnaps(cam, level);
    TrimRotationFollowsSnaps(cam', level);
    assert TrimInstance(cam, level) == TrimInstance(cam', level);
  }

  /** The plan depends on the camera only through the 32-unit cell of the finest level that
      holds it: two cameras in the same finest cell get identical instance lists. */
  lemma {:induction false} SameCellSamePlan(cam: Vec2, cam': Vec2, n: nat)
    requires (cam.x / 32.0).Floor == (cam'.x / 32.0).Floor && (cam.y / 32.0).Floor == (cam'.y / 32.0).Floor
    ensures FramePlan(cam, n) == FramePlan(cam', n)
  {
    if n > 0 {
      SameCellSamePlan(cam, cam', n - 1);
      LevelScales(0);
      SameCellAtEveryLevel(cam.x, cam'.x, n - 1);
      SameCellAtEveryLevel(cam.y, cam'.y, n - 1);
      SameCellSameLevelPlan(cam, cam', n - 1);
      FramePlanStep(cam, n - 1);
      FramePlanStep(cam', n - 1);
    }
  }
}
