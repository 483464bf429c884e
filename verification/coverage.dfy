/** How the placed stamps fit together on the ground plane. Each stamp's vertices lie in a
    rectangle with two of its vertices at opposite corners; a placement maps that rectangle to
    another one, and the lemmas here compute those images: the tiles and filler arms of a level
    tile its footprint around a one-cell middle band, the footprint sits in the coarser level's
    hole with a one-cell margin on one side of each axis, the trim's two bars are exactly that
    margin, and the seam runs along the boundary of the hole. */
module Coverage {
  import opened Consts
  import opened Geometry
  import opened Snapping
  import opened Placement
  import opened LevelFacts
  import TileStamp
  import FillerStamp
  import TrimStamp
  import CrossStamp
  import SeamStamp

  /** The closed rectangle [lo.x, hi.x] × [lo.y, hi.y]. */
  datatype Box = Box(lo: Vec2, hi: Vec2) {
    predicate Contains(p: Vec2) {
      lo.x <= p.x <= hi.x && lo.y <= p.y <= hi.y
    }

    predicate OnBoundary(p: Vec2) {
      Contains(p) && (p.x == lo.x || p.x == hi.x || p.y == lo.y || p.y == hi.y)
    }
  }

  function Min(a: real, b: real): real { if a <= b then a else b }
  function Max(a: real, b: real): real { if a <= b then b else a }

  /** The rectangle spanned by the images of b's two corners. */
  function ImageBox(t: Transform, b: Box): Box {
    var p, q := t.Apply(b.lo), t.Apply(b.hi);
    Box(Vec2(Min(p.x, q.x), Min(p.y, q.y)), Vec2(Max(p.x, q.x), Max(p.y, q.y)))
  }

  /** A placement with a positive scale maps every point of a rectangle into the rectangle
      spanned by the images of its corners, and boundary points onto its boundary. */
  lemma ImageInImageBox(t: Transform, b: Box, p: Vec2)
    requires t.scale > 0.0 && b.Contains(p)
    ensures ImageBox(t, b).Contains(t.Apply(p))
    ensures b.OnBoundary(p) ==> ImageBox(t, b).OnBoundary(t.Apply(p))
  {
    var u, lo, hi := p.Times(t.scale), b.lo.Times(t.scale), b.hi.Times(t.scale);
    ScaledInBox(b, p, t.scale);
    RotatedInBox(t.rotation, t.translation, lo, hi, u);
  }

  /** The scaling step of ImageInImageBox. */
  lemma ScaledInBox(b: Box, p: Vec2, s: real)
    requires s > 0.0 && b.Contains(p)
    ensures Box(b.lo.Times(s), b.hi.Times(s)).Contains(p.Times(s))
    ensures b.OnBoundary(p) ==> Box(b.lo.Times(s), b.hi.Times(s)).OnBoundary(p.Times(s))
  {
    MulLeq(b.lo.x, p.x, s);
    MulLeq(p.x, b.hi.x, s);
    MulLeq(b.lo.y, p.y, s);
    MulLeq(p.y, b.hi.y, s);
  }

  /** The rotation-and-translation step of ImageInImageBox, with the scaled points as data. */
  lemma RotatedInBox(r: Rotation, c: Vec2, lo: Vec2, hi: Vec2, u: Vec2)
    requires lo.x <= u.x <= hi.x && lo.y <= u.y <= hi.y
    ensures var p, q, v := c.Plus(Rotate(r, lo)), c.Plus(Rotate(r, hi)), c.Plus(Rotate(r, u));
      var image := Box(Vec2(Min(p.x, q.x), Min(p.y, q.y)), Vec2(Max(p.x, q.x), Max(p.y, q.y)));
      && image.Contains(v)
      && (u.x == lo.x || u.x == hi.x || u.y == lo.y || u.y == hi.y ==> image.OnBoundary(v))
  {
    match r
    case Identity =>
    case Rot90 =>
    case Rot180 =>
    case Rot270 =>
  }

  /** The image of a rectangle under a placement with a positive scale, rotation by rotation,
      from its corners scaled by t.scale. */
  lemma ImageBoxOf(t: Transform, b: Box)
    requires t.scale > 0.0 && b.lo.x <= b.hi.x && b.lo.y <= b.hi.y
    ensures var c, lo, hi := t.translation, b.lo.Times(t.scale), b.hi.Times(t.scale);
      ImageBox(t, b) == match t.rotation
        case Identity => Box(Vec2(c.x + lo.x, c.y + lo.y), Vec2(c.x + hi.x, c.y + hi.y))
        case Rot90 => Box(Vec2(c.x - hi.y, c.y + lo.x), Vec2(c.x - lo.y, c.y + hi.x))
        case Rot180 => Box(Vec2(c.x - hi.x, c.y - hi.y), Vec2(c.x - lo.x, c.y - lo.y))
        case Rot270 => Box(Vec2(c.x + lo.y, c.y - hi.x), Vec2(c.x + hi.y, c.y - lo.x))
  {
    MulLeq(b.lo.x, b.hi.x, t.scale);
    MulLeq(b.lo.y, b.hi.y, t.scale);
    RotatedBox(t.rotation, t.translation, b.lo.Times(t.scale), b.hi.Times(t.scale));
  }

  /** ImageBoxOf once the corners are scaled. */
  lemma RotatedBox(r: Rotation, c: Vec2, lo: Vec2, hi: Vec2)
    requires lo.x <= hi.x && lo.y <= hi.y
    ensures var p, q := c.Plus(Rotate(r, lo)), c.Plus(Rotate(r, hi));
      Box(Vec2(Min(p.x, q.x), Min(p.y, q.y)), Vec2(Max(p.x, q.x), Max(p.y, q.y))) == match r
        case Identity => Box(Vec2(c.x + lo.x, c.y + lo.y), Vec2(c.x + hi.x, c.y + hi.y))
        case Rot90 => Box(Vec2(c.x - hi.y, c.y + lo.x), Vec2(c.x - lo.y, c.y + hi.x))
        case Rot180 => Box(Vec2(c.x - hi.x, c.y - hi.y), Vec2(c.x - lo.x, c.y - lo.y))
        case Rot270 => Box(Vec2(c.x + lo.y, c.y - hi.x), Vec2(c.x + hi.y, c.y - lo.x))
  {
  }

  // ---- The rectangles of the stamps -------------------------------------------------------

  /** [0, TILE_RES]², TILE_RES = 64. */
  const TILE_BOX: Box := Box(Vec2(0.0, 0.0), Vec2(64.0, 64.0))

  /** Tile vertices fill [0, TILE_RES]², the first and the last at its corners. */
  lemma TileVertexInBox(k: int)
    requires 0 <= k < V_TILE
    ensures TILE_BOX.Contains(TileStamp.TileVertex(k))
    ensures TileStamp.TileVertex(0) == TILE_BOX.lo && TileStamp.TileVertex(V_TILE - 1) == TILE_BOX.hi
  {
  }

  /** The rectangle of filler arm a: +X, +Y, -X, -Y in turn, each PATCH_RES - 1 cells long and
      one cell wide, starting TILE_RES cells out from the middle cell [0, 1]²: the +X arm is
      [PATCH_RES, 2·TILE_RES + 1] × [0, 1] = [65, 129] × [0, 1], the -X arm
      [-2·TILE_RES, -TILE_RES] × [0, 1] = [-128, -64] × [0, 1], and the Y arms likewise. */
  function ArmBox(a: int): Box {
    match a
    case 0 => Box(Vec2(65.0, 0.0), Vec2(129.0, 1.0))
    case 1 => Box(Vec2(0.0, 65.0), Vec2(1.0, 129.0))
    case 2 => Box(Vec2(-128.0, 0.0), Vec2(-64.0, 1.0))
    case _ => Box(Vec2(0.0, -128.0), Vec2(1.0, -64.0))
  }

  /** Every vertex of arm a lies in ArmBox(a), and the arm's first and last vertices are
      opposite corners of it. */
  lemma FillerVertexInArm(k: int)
    requires 0 <= k < V_FILL
    ensures ArmBox(k / FillerStamp.ARM_VERTS).Contains(FillerStamp.FillerVertex(k))
    ensures k % FillerStamp.ARM_VERTS == 0 || k % FillerStamp.ARM_VERTS == FillerStamp.ARM_VERTS - 1 ==>
      var b, v := ArmBox(k / FillerStamp.ARM_VERTS), FillerStamp.FillerVertex(k);
      (v.x == b.lo.x || v.x == b.hi.x) && (v.y == b.lo.y || v.y == b.hi.y)
  {
  }

  /** The cross's horizontal bar spans TILE_RES cells either side of the middle cell along x,
      its vertical bar the same along y: [-TILE_RES, TILE_RES + 1] × [0, 1] = [-64, 65] × [0, 1]. */
  const CROSS_HORIZONTAL: Box := Box(Vec2(-64.0, 0.0), Vec2(65.0, 1.0))
  const CROSS_VERTICAL: Box := Box(Vec2(0.0, -64.0), Vec2(1.0, 65.0))

  lemma CrossVertexInBars(k: int)
    requires 0 <= k < V_CROSS
    ensures k < CrossStamp.VERT_BASE ==> CROSS_HORIZONTAL.Contains(CrossStamp.CrossVertex(k))
    ensures k >= CrossStamp.VERT_BASE ==> CROSS_VERTICAL.Contains(CrossStamp.CrossVertex(k))
    ensures CrossStamp.CrossVertex(0) == CROSS_HORIZONTAL.lo
    ensures CrossStamp.CrossVertex(CrossStamp.VERT_BASE - 1) == CROSS_HORIZONTAL.hi
    ensures CrossStamp.CrossVertex(CrossStamp.VERT_BASE) == CROSS_VERTICAL.lo
    ensures CrossStamp.CrossVertex(V_CROSS - 1) == CROSS_VERTICAL.hi
  {
  }

  /** The trim's vertical bar: one cell wide on the left, CLIP_VERT_RES + 1 = 259 cells tall;
      its horizontal bar: one cell tall at the bottom, CLIP_VERT_RES - 1 = 257 cells wide,
      starting right of the vertical bar. Both are shifted by -HALF = -129.5 on each axis:
      [-HALF, 1 - HALF] × [-HALF, CLIP_VERT_RES - HALF] and
      [1 - HALF, CLIP_VERT_RES - HALF] × [-HALF, 1 - HALF], with CLIP_VERT_RES = 258. */
  const TRIM_VERTICAL: Box := Box(Vec2(-129.5, -129.5), Vec2(-128.5, 128.5))
  const TRIM_HORIZONTAL: Box := Box(Vec2(-128.5, -129.5), Vec2(128.5, -128.5))

  lemma TrimVertexInBars(k: int)
    requires 0 <= k < V_TRIM
    ensures k < TrimStamp.START_H ==> TRIM_VERTICAL.Contains(TrimStamp.TrimVertex(k))
    ensures k >= TrimStamp.START_H ==> TRIM_HORIZONTAL.Contains(TrimStamp.TrimVertex(k))
    ensures TrimStamp.TrimVertex(TrimStamp.START_H - 1) == Vec2(TRIM_VERTICAL.hi.x, TRIM_VERTICAL.lo.y)
    ensures TrimStamp.TrimVertex(0) == Vec2(TRIM_VERTICAL.lo.x, TRIM_VERTICAL.hi.y)
    ensures TrimStamp.TrimVertex(TrimStamp.START_H) == TRIM_HORIZONTAL.lo
    ensures TrimStamp.TrimVertex(V_TRIM - 1) == TRIM_HORIZONTAL.hi
  {
  }

  /** The seam ring runs around the boundary of [0, CLIP_VERT_RES]², CLIP_VERT_RES = 258. */
  const SEAM_BOX: Box := Box(Vec2(0.0, 0.0), Vec2(258.0, 258.0))

  /** The stamp rectangles above, written with the named constants they come from. */
  lemma StampBoxesFollowConstants()
    ensures TILE_BOX == Box(ZERO, Splat(TILE_RES as real))
    ensures forall a :: 0 <= a < 4 ==> ArmBox(a) == match a
      case 0 => Box(Vec2(PATCH_RES as real, 0.0), Vec2(2.0 * TILE_RES as real + 1.0, 1.0))
      case 1 => Box(Vec2(0.0, PATCH_RES as real), Vec2(1.0, 2.0 * TILE_RES as real + 1.0))
      case 2 => Box(Vec2(-2.0 * TILE_RES as real, 0.0), Vec2(-(TILE_RES as real), 1.0))
      case _ => Box(Vec2(0.0, -2.0 * TILE_RES as real), Vec2(1.0, -(TILE_RES as real)))
    ensures CROSS_HORIZONTAL == Box(Vec2(-(TILE_RES as real), 0.0), Vec2(TILE_RES as real + 1.0, 1.0))
    ensures CROSS_VERTICAL == Box(Vec2(0.0, -(TILE_RES as real)), Vec2(1.0, TILE_RES as real + 1.0))
    ensures TRIM_VERTICAL == Box(Vec2(-TrimStamp.HALF, -TrimStamp.HALF), Vec2(1.0 - TrimStamp.HALF, CLIP_VERT_RES as real - TrimStamp.HALF))
    ensures TRIM_HORIZONTAL == Box(Vec2(1.0 - TrimStamp.HALF, -TrimStamp.HALF), Vec2(CLIP_VERT_RES as real - TrimStamp.HALF, 1.0 - TrimStamp.HALF))
    ensures SEAM_BOX == Box(ZERO, Splat(CLIP_VERT_RES as real))
  {
  }

  lemma SeamVertexOnRing(k: int)
    requires 0 <= k < V_SEAM
    ensures SEAM_BOX.OnBoundary(SeamStamp.SeamVertex(k))
    ensures SeamStamp.SeamVertex(0) == SEAM_BOX.lo && SeamStamp.SeamVertex(2 * SeamStamp.SIDE) == SEAM_BOX.hi
  {
    SeamStamp.SeamVertexOnBoundary(k);
  }

  /** p lies strictly inside b. */
  predicate Interior(b: Box, p: Vec2) {
    b.lo.x < p.x < b.hi.x && b.lo.y < p.y < b.hi.y
  }

  predicate Within(inner: Box, outer: Box) {
    outer.lo.x <= inner.lo.x && inner.hi.x <= outer.hi.x && outer.lo.y <= inner.lo.y && inner.hi.y <= outer.hi.y
  }

  /** The interiors of a and b do not meet: a lies on one side of b along some axis. */
  predicate Apart(a: Box, b: Box) {
    a.hi.x <= b.lo.x || b.hi.x <= a.lo.x || a.hi.y <= b.lo.y || b.hi.y <= a.lo.y
  }

  lemma PointOfBox(w: Vec2, b: Box, outer: Box, avoid: Box)
    requires b.Contains(w)
    ensures Within(b, outer) ==> outer.Contains(w)
    ensures Apart(b, avoid) ==> !Interior(avoid, w)
  {
  }

  // ---- Where a level's stamps land --------------------------------------------------------

  /** The square the sixteen tile positions of a level span. */
  function Footprint(cam: Vec2, level: nat): Box {
    Box(TileCorner(cam, level, 0, 0), TileCorner(cam, level, 3, 3).Plus(Splat(TileSize(level))))
  }

  /** The square of the four middle tile positions, which every level above 0 leaves out. */
  function Hole(cam: Vec2, level: nat): Box {
    Box(TileCorner(cam, level, 1, 1), TileCorner(cam, level, 2, 2).Plus(Splat(TileSize(level))))
  }

  /** Measured in cells s of the level from its snapped camera p, the footprint is
      [p - 128s, p + 129s] on each axis: 128 = 2·TILE_RES and 129 = 2·TILE_RES + 1, the two
      tiles below p and the band cell plus the two tiles above it. */
  lemma FootprintExtent(cam: Vec2, level: nat)
    ensures var s, p := LevelScale(level), Snapped(cam, level);
      Footprint(cam, level) == Box(p.Minus(Splat(128.0 * s)), p.Plus(Splat(129.0 * s)))
  {
    LevelScales(level);
  }

  /** Measured the same way, the hole is [p - 64s, p + 65s] on each axis: 64 = TILE_RES and
      65 = TILE_RES + 1, one tile below p and the band cell plus one tile above it. */
  lemma HoleExtent(cam: Vec2, level: nat)
    ensures var s, p := LevelScale(level), Snapped(cam, level);
      Hole(cam, level) == Box(p.Minus(Splat(64.0 * s)), p.Plus(Splat(65.0 * s)))
  {
    LevelScales(level);
  }

  /** Both extents at once. */
  lemma LevelExtents(cam: Vec2, level: nat)
    ensures var s, p := LevelScale(level), Snapped(cam, level);
      && Footprint(cam, level) == Box(p.Minus(Splat(128.0 * s)), p.Plus(Splat(129.0 * s)))
      && Hole(cam, level) == Box(p.Minus(Splat(64.0 * s)), p.Plus(Splat(65.0 * s)))
  {
    FootprintExtent(cam, level);
    HoleExtent(cam, level);
  }

  /** A placed tile covers the square of one tile size from its corner. */
  lemma TileImage(cam: Vec2, level: nat, x: int, y: int)
    ensures var c := TileCorner(cam, level, x, y);
      ImageBox(TileInstance(cam, level, x, y).transform, TILE_BOX) == Box(c, c.Plus(Splat(TileSize(level))))
  {
    LevelScales(level);
    ImageBoxOf(TileInstance(cam, level, x, y).transform, TILE_BOX);
  }

  /** Along x, for every row j, tile columns 0 and 1 abut, then comes the one-cell band
      [p, p + s] at the snapped camera, then columns 2 and 3 abut; the outer edges are the
      footprint's and the middle columns border the hole. Along y the rows do the same. */
  lemma TilesAbut(cam: Vec2, level: nat, j: int)
    ensures var s, p, ts := LevelScale(level), Snapped(cam, level), TileSize(level);
      var f, h := Footprint(cam, level), Hole(cam, level);
      && TileCorner(cam, level, 0, j).x == f.lo.x
      && TileCorner(cam, level, 0, j).x + ts == TileCorner(cam, level, 1, j).x == h.lo.x
      && TileCorner(cam, level, 1, j).x + ts == p.x
      && p.x + s == TileCorner(cam, level, 2, j).x
      && TileCorner(cam, level, 2, j).x + ts == TileCorner(cam, level, 3, j).x == h.hi.x
      && TileCorner(cam, level, 3, j).x + ts == f.hi.x
      && TileCorner(cam, level, j, 0).y == f.lo.y
      && TileCorner(cam, level, j, 0).y + ts == TileCorner(cam, level, j, 1).y == h.lo.y
      && TileCorner(cam, level, j, 1).y + ts == p.y
      && p.y + s == TileCorner(cam, level, j, 2).y
      && TileCorner(cam, level, j, 2).y + ts == TileCorner(cam, level, j, 3).y == h.hi.y
      && TileCorner(cam, level, j, 3).y + ts == f.hi.y
  {
    LevelScales(level);
  }

  /** Every tile a level places lies in its footprint; above level 0, where the middle four
      are skipped, none overlaps the hole. */
  lemma TilePlacedOutsideHole(cam: Vec2, level: nat, x: int, y: int)
    requires 0 <= x < 4 && 0 <= y < 4 && !Skipped(level, x, y)
    ensures var b := ImageBox(TileInstance(cam, level, x, y).transform, TILE_BOX);
      Within(b, Footprint(cam, level)) && (level != 0 ==> Apart(b, Hole(cam, level)))
  {
    TileImage(cam, level, x, y);
    ColumnSpan(cam, level, x, y);
    RowSpan(cam, level, y, x);
  }

  /** Column i (at any row j) lies within the footprint; column 0 ends where the hole starts
      and column 3 starts where it ends. */
  lemma ColumnSpan(cam: Vec2, level: nat, i: int, j: int)
    requires 0 <= i < 4
    ensures var ts, f, h, c := TileSize(level), Footprint(cam, level), Hole(cam, level), TileCorner(cam, level, i, j);
      && f.lo.x <= c.x && c.x + ts <= f.hi.x
      && (i == 0 ==> c.x + ts <= h.lo.x) && (i == 3 ==> h.hi.x <= c.x)
  {
    TilesAbut(cam, level, j);
    LevelScales(level);
    if i == 0 {
    } else if i == 1 {
    } else if i == 2 {
    } else {
    }
  }

  /** Row i (at any column j) lies within the footprint; row 0 ends where the hole starts and
      row 3 starts where it ends. */
  lemma RowSpan(cam: Vec2, level: nat, i: int, j: int)
    requires 0 <= i < 4
    ensures var ts, f, h, d := TileSize(level), Footprint(cam, level), Hole(cam, level), TileCorner(cam, level, j, i);
      && f.lo.y <= d.y && d.y + ts <= f.hi.y
      && (i == 0 ==> d.y + ts <= h.lo.y) && (i == 3 ==> h.hi.y <= d.y)
  {
    TilesAbut(cam, level, j);
    LevelScales(level);
    if i == 0 {
    } else if i == 1 {
    } else if i == 2 {
    } else {
    }
  }

  /** Hence every tile vertex lands in the footprint, and above level 0 not strictly inside
      the hole. */
  lemma TileVertexOutsideHole(cam: Vec2, level: nat, x: int, y: int, k: int)
    requires 0 <= x < 4 && 0 <= y < 4 && !Skipped(level, x, y) && 0 <= k < V_TILE
    ensures var w := TileInstance(cam, level, x, y).transform.Apply(TileStamp.TileVertex(k));
      && Footprint(cam, level).Contains(w)
      && (level != 0 ==> !Interior(Hole(cam, level), w))
  {
    var t := TileInstance(cam, level, x, y).transform;
    TileVertexInBox(k);
    LevelScales(level);
    ImageInImageBox(t, TILE_BOX, TileStamp.TileVertex(k));
    TilePlacedOutsideHole(cam, level, x, y);
    PointOfBox(t.Apply(TileStamp.TileVertex(k)), ImageBox(t, TILE_BOX), Footprint(cam, level), Hole(cam, level));
  }

  /** The filler's four arms cover the one-cell band through the snapped camera where it
      crosses the outer columns and rows: +X and -X beside columns 3 and 0, +Y and -Y beside
      rows 3 and 0. The band's stretch inside the hole is left to the finer levels. */
  lemma FillerArmsFillBand(cam: Vec2, level: nat)
    ensures var t, s, p := FillerInstance(cam, level).transform, LevelScale(level), Snapped(cam, level);
      var f, h := Footprint(cam, level), Hole(cam, level);
      && ImageBox(t, ArmBox(0)) == Box(Vec2(h.hi.x, p.y), Vec2(f.hi.x, p.y + s))
      && ImageBox(t, ArmBox(1)) == Box(Vec2(p.x, h.hi.y), Vec2(p.x + s, f.hi.y))
      && ImageBox(t, ArmBox(2)) == Box(Vec2(f.lo.x, p.y), Vec2(h.lo.x, p.y + s))
      && ImageBox(t, ArmBox(3)) == Box(Vec2(p.x, f.lo.y), Vec2(p.x + s, h.lo.y))
  {
    var t := FillerInstance(cam, level).transform;
    LevelScales(level);
    LevelExtents(cam, level);
    ImageBoxOf(t, ArmBox(0));
    ImageBoxOf(t, ArmBox(1));
    ImageBoxOf(t, ArmBox(2));
    ImageBoxOf(t, ArmBox(3));
  }

  /** Placed like the level's filler, the cross's two bars cover the stretch of the band
      through the snapped camera that lies inside the hole, along each axis. The cross is
      placed at level 0, which has no hole of its own, with the transform of that level's
      filler (PlanFacts.CrossMatchesFinestFiller). */
  lemma BandSpansHole(cam: Vec2, level: nat)
    ensures var t, s, p := FillerInstance(cam, level).transform, LevelScale(level), Snapped(cam, level);
      var h := Hole(cam, level);
      && ImageBox(t, CROSS_HORIZONTAL) == Box(Vec2(h.lo.x, p.y), Vec2(h.hi.x, p.y + s))
      && ImageBox(t, CROSS_VERTICAL) == Box(Vec2(p.x, h.lo.y), Vec2(p.x + s, h.hi.y))
  {
    var t := FillerInstance(cam, level).transform;
    LevelScales(level);
    LevelExtents(cam, level);
    ImageBoxOf(t, CROSS_HORIZONTAL);
    ImageBoxOf(t, CROSS_VERTICAL);
  }

  // ---- How consecutive levels meet --------------------------------------------------------

  /** A level's footprint lies in the next level's hole, which is one cell s wider on each
      axis: the spare cell is on the high side where the level's snap agrees with the coarser
      one, and on the low side where it is one cell further. */
  lemma FootprintInCoarserHole(cam: Vec2, level: nat)
    ensures var s, p, q := LevelScale(level), Snapped(cam, level), NextSnapped(cam, level);
      var f, h := Footprint(cam, level), Hole(cam, level + 1);
      && (p.x == q.x ==> h.lo.x == f.lo.x && h.hi.x == f.hi.x + s)
      && (p.x != q.x ==> h.lo.x + s == f.lo.x && h.hi.x == f.hi.x)
      && (p.y == q.y ==> h.lo.y == f.lo.y && h.hi.y == f.hi.y + s)
      && (p.y != q.y ==> h.lo.y + s == f.lo.y && h.hi.y == f.hi.y)
  {
    LevelExtents(cam, level);
    LevelExtents(cam, level + 1);
    LevelScales(level);
    NextSnapIsCoarserSnap(cam, level);
    TrimRotationFollowsSnaps(cam, level);
  }

  /** The spare column [gx.0, gx.1] and row [gy.0, gy.1] the footprint leaves in the coarser
      hole. */
  function GapColumn(cam: Vec2, level: nat): (real, real) {
    var f, h := Footprint(cam, level), Hole(cam, level + 1);
    if Snapped(cam, level).x == NextSnapped(cam, level).x then (f.hi.x, h.hi.x) else (h.lo.x, f.lo.x)
  }

  function GapRow(cam: Vec2, level: nat): (real, real) {
    var f, h := Footprint(cam, level), Hole(cam, level + 1);
    if Snapped(cam, level).y == NextSnapped(cam, level).y then (f.hi.y, h.hi.y) else (h.lo.y, f.lo.y)
  }

  /** The trim's rotation turns its L onto the L-shaped gap between a level's footprint and
      the coarser hole: one bar covers the spare column or the spare row across the whole
      hole, the other the remaining stretch of the other one alongside the footprint. */
  lemma TrimFillsGap(cam: Vec2, level: nat)
    ensures var t := TrimInstance(cam, level).transform;
      var f, h, gx, gy := Footprint(cam, level), Hole(cam, level + 1), GapColumn(cam, level), GapRow(cam, level);
      var v, w := ImageBox(t, TRIM_VERTICAL), ImageBox(t, TRIM_HORIZONTAL);
      || (v == Box(Vec2(gx.0, h.lo.y), Vec2(gx.1, h.hi.y)) && w == Box(Vec2(f.lo.x, gy.0), Vec2(f.hi.x, gy.1)))
      || (v == Box(Vec2(h.lo.x, gy.0), Vec2(h.hi.x, gy.1)) && w == Box(Vec2(gx.0, f.lo.y), Vec2(gx.1, f.hi.y)))
  {
    var s, p, q := LevelScale(level), Snapped(cam, level), NextSnapped(cam, level);
    var r := TrimRotationIndex(cam.Minus(q), s);
    LevelExtents(cam, level);
    LevelExtents(cam, level + 1);
    LevelScales(level);
    NextSnapIsCoarserSnap(cam, level);
    TrimRotationFollowsSnaps(cam, level);
    assert r == (if p.x == q.x then 2 else 0) + (if p.y == q.y then 1 else 0);
    TrimBarsPlaced(TrimInstance(cam, level).transform, s, p, q, Footprint(cam, level), Hole(cam, level + 1),
      GapColumn(cam, level), GapRow(cam, level));
  }

  /** TrimFillsGap in terms of the level's cell s, its snapped camera p and the coarser
      snapped camera q. */
  lemma TrimBarsPlaced(t: Transform, s: real, p: Vec2, q: Vec2, f: Box, h: Box, gx: (real, real), gy: (real, real))
    requires s > 0.0 && t.scale == s && t.translation == p.Plus(Splat(s).Times(0.5))
    requires f == Box(p.Minus(Splat(128.0 * s)), p.Plus(Splat(129.0 * s)))
    requires h == Box(q.Minus(Splat(128.0 * s)), q.Plus(Splat(130.0 * s)))
    requires (p.x == q.x || p.x == q.x + s) && (p.y == q.y || p.y == q.y + s)
    requires gx == if p.x == q.x then (f.hi.x, h.hi.x) else (h.lo.x, f.lo.x)
    requires gy == if p.y == q.y then (f.hi.y, h.hi.y) else (h.lo.y, f.lo.y)
    requires t.rotation == ROTATIONS[(if p.x == q.x then 2 else 0) + (if p.y == q.y then 1 else 0)]
    ensures var v, w := ImageBox(t, TRIM_VERTICAL), ImageBox(t, TRIM_HORIZONTAL);
      || (v == Box(Vec2(gx.0, h.lo.y), Vec2(gx.1, h.hi.y)) && w == Box(Vec2(f.lo.x, gy.0), Vec2(f.hi.x, gy.1)))
      || (v == Box(Vec2(h.lo.x, gy.0), Vec2(h.hi.x, gy.1)) && w == Box(Vec2(gx.0, f.lo.y), Vec2(gx.1, f.hi.y)))
  {
    ImageBoxOf(t, TRIM_VERTICAL);
    ImageBoxOf(t, TRIM_HORIZONTAL);
    if p.x == q.x {
      if p.y == q.y {
        assert t.rotation == Rot180;
      } else {
        assert t.rotation == Rot90;
      }
    } else {
      if p.y == q.y {
        assert t.rotation == Rot270;
      } else {
        assert t.rotation == Identity;
      }
    }
  }

  /** Both placed trim bars lie in the coarser hole and clear of the level's footprint. */
  lemma TrimBarsInGap(cam: Vec2, level: nat)
    ensures var t, f, h := TrimInstance(cam, level).transform, Footprint(cam, level), Hole(cam, level + 1);
      && Within(ImageBox(t, TRIM_VERTICAL), h) && Apart(ImageBox(t, TRIM_VERTICAL), f)
      && Within(ImageBox(t, TRIM_HORIZONTAL), h) && Apart(ImageBox(t, TRIM_HORIZONTAL), f)
  {
    var f, h := Footprint(cam, level), Hole(cam, level + 1);
    LevelScales(level);
    LevelExtents(cam, level);
    TrimFillsGap(cam, level);
    FootprintInCoarserHole(cam, level);
    GapStripsPlaced(f, h, GapColumn(cam, level), GapRow(cam, level));
  }

  /** The four strips an L-shaped gap between f and a box h around it can be cut into: the
      spare column across h or alongside f, the spare row across h or alongside f. Each lies
      in h and clear of f. */
  lemma GapStripsPlaced(f: Box, h: Box, gx: (real, real), gy: (real, real))
    requires f.lo.x <= f.hi.x && f.lo.y <= f.hi.y
    requires (gx == (f.hi.x, h.hi.x) && h.lo.x == f.lo.x && f.hi.x <= h.hi.x)
          || (gx == (h.lo.x, f.lo.x) && h.hi.x == f.hi.x && h.lo.x <= f.lo.x)
    requires (gy == (f.hi.y, h.hi.y) && h.lo.y == f.lo.y && f.hi.y <= h.hi.y)
          || (gy == (h.lo.y, f.lo.y) && h.hi.y == f.hi.y && h.lo.y <= f.lo.y)
    ensures var column, row := Box(Vec2(gx.0, h.lo.y), Vec2(gx.1, h.hi.y)), Box(Vec2(h.lo.x, gy.0), Vec2(h.hi.x, gy.1));
      && Within(column, h) && Apart(column, f) && Within(row, h) && Apart(row, f)
    ensures var column, row := Box(Vec2(gx.0, f.lo.y), Vec2(gx.1, f.hi.y)), Box(Vec2(f.lo.x, gy.0), Vec2(f.hi.x, gy.1));
      && Within(column, h) && Apart(column, f) && Within(row, h) && Apart(row, f)
  {
  }

  /** Hence every trim vertex lands in the coarser hole and not strictly inside the level's
      footprint. */
  lemma TrimVertexInGap(cam: Vec2, level: nat, k: int)
    requires 0 <= k < V_TRIM
    ensures var w := TrimInstance(cam, level).transform.Apply(TrimStamp.TrimVertex(k));
      Hole(cam, level + 1).Contains(w) && !Interior(Footprint(cam, level), w)
  {
    var t := TrimInstance(cam, level).transform;
    var u := TrimStamp.TrimVertex(k);
    var bar := if k < TrimStamp.START_H then TRIM_VERTICAL else TRIM_HORIZONTAL;
    LevelScales(level);
    TrimVertexInBars(k);
    ImageInImageBox(t, bar, u);
    TrimBarsInGap(cam, level);
    PointOfBox(t.Apply(u), ImageBox(t, bar), Hole(cam, level + 1), Footprint(cam, level));
  }

  /** The seam's square is exactly the coarser level's hole. */
  lemma SeamOutlinesHole(cam: Vec2, level: nat)
    ensures ImageBox(SeamInstance(cam, level).transform, SEAM_BOX) == Hole(cam, level + 1)
  {
    LevelExtents(cam, level + 1);
    LevelScales(level);
    SeamAtCoarserHoleCorner(cam, level);
    ImageBoxOf(SeamInstance(cam, level).transform, SEAM_BOX);
  }

  /** Every seam vertex lands on the boundary of the coarser level's hole, where the coarser
      tiles meet the trim. */
  lemma SeamVertexOnHoleBoundary(cam: Vec2, level: nat, k: int)
    requires 0 <= k < V_SEAM
    ensures Hole(cam, level + 1).OnBoundary(SeamInstance(cam, level).transform.Apply(SeamStamp.SeamVertex(k)))
  {
    LevelScales(level);
    SeamVertexOnRing(k);
    ImageInImageBox(SeamInstance(cam, level).transform, SEAM_BOX, SeamStamp.SeamVertex(k));
    SeamOutlinesHole(cam, level);
  }
}
