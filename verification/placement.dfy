/** The per-frame placement: where every stamp instance of every level goes for a camera
    position, as a specification (`LevelPlan`, `FramePlan`) and as the source's loops
    (`PushLevel`, `PlanFrame`). */
module Placement {
  import opened Consts
  import opened Geometry
  import opened Snapping

  /** Quarter turns about the vertical axis. */
  datatype Rotation = Identity | Rot270 | Rot90 | Rot180

  /** `ROTATIONS`, in the table's order: identity, 270, 90 and 180 degrees. */
  const ROTATIONS: seq<Rotation> := [Identity, Rot270, Rot90, Rot180]

  /** Turning a point of the ground plane counter-clockwise by the rotation's angle. */
  function Rotate(r: Rotation, p: Vec2): Vec2 {
    match r
    case Identity => p
    case Rot90 => Vec2(-p.y, p.x)
    case Rot180 => Vec2(-p.x, -p.y)
    case Rot270 => Vec2(p.y, -p.x)
  }

  /** `Mat4::from_scale_rotation_translation` restricted to the ground plane: a uniform scale
      (the height scale is 1), a quarter turn and a translation. */
  datatype Transform = Transform(scale: real, rotation: Rotation, translation: Vec2) {
    /** Where the transform takes a stamp vertex: scale, rotate, then translate. */
    function Apply(p: Vec2): Vec2 {
      translation.Plus(Rotate(rotation, p.Times(scale)))
    }
  }

  /** One entry of an instance buffer. */
  datatype InstanceData = InstanceData(transform: Transform)

  /** The five instance lists an update fills, one per stamp. */
  datatype Instances = Instances(
    tile: seq<InstanceData>,
    fill: seq<InstanceData>,
    trim: seq<InstanceData>,
    cross: seq<InstanceData>,
    seam: seq<InstanceData>)

  const NO_INSTANCES: Instances := Instances([], [], [], [], [])

  /** Each list of `a` followed by the same list of `b`. */
  function Append(a: Instances, b: Instances): Instances {
    Instances(a.tile + b.tile, a.fill + b.fill, a.trim + b.trim, a.cross + b.cross, a.seam + b.seam)
  }

  // ---- Level quantities -------------------------------------------------------

  function Pow2(n: nat): (p: nat)
    ensures p >= 1
  {
    if n == 0 then 1 else 2 * Pow2(n - 1)
  }

  /** `a << n` on an integer wide enough that no bit is shifted out (`ShiftsFit` shows the
      update's shifts are). */
  function Shl(a: nat, n: nat): nat {
    a * Pow2(n)
  }

  function Splat(v: real): Vec2 {
    Vec2(v, v)
  }

  /** `scale`: the cell size of a level, `1 << level + SCALE_OFFSET`. */
  function LevelScale(level: nat): real {
    Shl(1, level + SCALE_OFFSET) as real
  }

  /** `tile_size`: one side of a tile at this level, `TILE_RES << level + SCALE_OFFSET`. */
  function TileSize(level: nat): real {
    Shl(TILE_RES, level + SCALE_OFFSET) as real
  }

  /** Both coordinates snapped down to multiples of s. */
  function SnapVec(p: Vec2, s: real): Vec2
    requires s > 0.0
  {
    Vec2(Snap(p.x, s), Snap(p.y, s))
  }

  /** `snapped_pos`: the camera snapped to the level's cell size. */
  function Snapped(cam: Vec2, level: nat): Vec2 {
    SnapVec(cam, LevelScale(level))
  }

  /** `next_snap`: the camera snapped to twice the level's cell size. */
  function NextSnapped(cam: Vec2, level: nat): Vec2 {
    SnapVec(cam, LevelScale(level) * 2.0)
  }

  /** `base`: the bottom-left corner of the level's 4x4 tile grid. */
  function Base(cam: Vec2, level: nat): Vec2 {
    Snapped(cam, level).Minus(Splat(TileSize(level)).Times(2.0))
  }

  // ---- The instances of one level ---------------------------------------------

  /** The middle 2x2 tiles of every level but the finest are left to the finer levels. */
  predicate Skipped(level: nat, x: int, y: int) {
    level != 0 && (x == 1 || x == 2) && (y == 1 || y == 2)
  }

  /** `bl`: the corner of tile (x, y) of a grid with the given corner, tile size and cell size;
      tiles right of or above the middle move one cell further out to leave room for the
      filler. */
  function TileCornerAt(base: Vec2, tileSize: Vec2, scale: real, x: int, y: int): Vec2 {
    var fill := Vec2(if x >= 2 then 1.0 else 0.0, if y >= 2 then 1.0 else 0.0).Times(scale);
    base.Plus(Vec2(x as real, y as real).Mul(tileSize)).Plus(fill)
  }

  /** The corner of tile (x, y) of a level. */
  function TileCorner(cam: Vec2, level: nat, x: int, y: int): Vec2 {
    TileCornerAt(Base(cam, level), Splat(TileSize(level)), LevelScale(level), x, y)
  }

  function TileInstance(cam: Vec2, level: nat, x: int, y: int): InstanceData {
    InstanceData(Transform(LevelScale(level), Identity, TileCorner(cam, level, x, y)))
  }

  /** The filler sits at the snapped camera. */
  function FillerInstance(cam: Vec2, level: nat): InstanceData {
    InstanceData(Transform(LevelScale(level), Identity, Snapped(cam, level)))
  }

  /** The cross sits at the finest level's snapped camera. */
  function CrossInstance(cam: Vec2): InstanceData {
    InstanceData(Transform(LevelScale(0), Identity, Snapped(cam, 0)))
  }

  /** `next_base`: the seam's corner, `TILE_RES << level + SCALE_OFFSET + 1` below `next_snap`
      on both axes. */
  function SeamInstance(cam: Vec2, level: nat): InstanceData {
    var offset := Shl(TILE_RES, level + SCALE_OFFSET + 1) as real;
    InstanceData(Transform(LevelScale(level), Identity, NextSnapped(cam, level).Minus(Splat(offset))))
  }

  /** `r`: bit 1 set when the camera is less than a cell right of `next_snap`, bit 0 when it
      is less than a cell above it. */
  function TrimRotationIndex(d: Vec2, scale: real): (r: nat)
    ensures r / 2 == (if d.x < scale then 1 else 0)
    ensures r % 2 == (if d.y < scale then 1 else 0)
  {
    ((if d.x < scale then 2 else 0) as bv2 | (if d.y < scale then 1 else 0) as bv2) as nat
  }

  /** The trim is centred half a cell beyond the snapped camera and turned by `r`. */
  function TrimInstance(cam: Vec2, level: nat): InstanceData {
    var scale := LevelScale(level);
    var d := cam.Minus(NextSnapped(cam, level));
    var r := TrimRotationIndex(d, scale);
    InstanceData(Transform(scale, ROTATIONS[r], Snapped(cam, level).Plus(Splat(scale).Times(0.5))))
  }

  // ---- Tile order ------------------------------------------------------------

  /** The placed tiles of column x with row below y, in row order. */
  function Column(level: nat, x: int, y: nat): seq<(int, int)>
    requires y <= 4
  {
    if y == 0 then []
    else Column(level, x, y - 1) + (if Skipped(level, x, y - 1) then [] else [(x, y - 1)])
  }

  /** The placed tiles of the columns left of x, column by column. */
  function Grid(level: nat, x: nat): seq<(int, int)>
    requires x <= 4
  {
    if x == 0 then [] else Grid(level, x - 1) + Column(level, x - 1, 4)
  }

  /** The tiles of a level in the order the update pushes them: x outer, y inner. */
  function TileSlots(level: nat): seq<(int, int)> {
    Grid(level, 4)
  }

  /** The tile instances of the given slots of a grid, in order. */
  function Place(scale: real, tileSize: Vec2, base: Vec2, slots: seq<(int, int)>): seq<InstanceData> {
    seq(|slots|, i requires 0 <= i < |slots| =>
      InstanceData(Transform(scale, Identity, TileCornerAt(base, tileSize, scale, slots[i].0, slots[i].1))))
  }

  /** The tiles of a level, in push order. */
  function LevelTiles(cam: Vec2, level: nat): seq<InstanceData> {
    Place(LevelScale(level), Splat(TileSize(level)), Base(cam, level), TileSlots(level))
  }

  /** Everything one level pushes. */
  function LevelPlan(cam: Vec2, level: nat): Instances {
    var inner := level < N_LEVELS - 1;
    Instances(
      LevelTiles(cam, level),
      [FillerInstance(cam, level)],
      if inner then [TrimInstance(cam, level)] else [],
      if level == 0 then [CrossInstance(cam)] else [],
      if inner then [SeamInstance(cam, level)] else [])
  }

  /** The tiles the first n levels push. */
  function TilesUpTo(cam: Vec2, n: nat): seq<InstanceData> {
    if n == 0 then [] else TilesUpTo(cam, n - 1) + LevelTiles(cam, n - 1)
  }

  /** The fillers the first n levels push, one per level. */
  function FillersUpTo(cam: Vec2, n: nat): seq<InstanceData> {
    if n == 0 then [] else FillersUpTo(cam, n - 1) + [FillerInstance(cam, n - 1)]
  }

  /** The trims the first n levels push, one per level below the coarsest. */
  function TrimsUpTo(cam: Vec2, n: nat): seq<InstanceData> {
    if n == 0 then []
    else TrimsUpTo(cam, n - 1) + (if n - 1 < N_LEVELS - 1 then [TrimInstance(cam, n - 1)] else [])
  }

  /** The crosses the first n levels push: level 0's only. */
  function CrossesUpTo(cam: Vec2, n: nat): seq<InstanceData> {
    if n == 0 then [] else CrossesUpTo(cam, n - 1) + (if n - 1 == 0 then [CrossInstance(cam)] else [])
  }

  /** The seams the first n levels push, one per level below the coarsest. */
  function SeamsUpTo(cam: Vec2, n: nat): seq<InstanceData> {
    if n == 0 then []
    else SeamsUpTo(cam, n - 1) + (if n - 1 < N_LEVELS - 1 then [SeamInstance(cam, n - 1)] else [])
  }

  /** Everything the first n levels push, list by list. */
  function FramePlan(cam: Vec2, n: nat): Instances {
    Instances(TilesUpTo(cam, n), FillersUpTo(cam, n), TrimsUpTo(cam, n), CrossesUpTo(cam, n), SeamsUpTo(cam, n))
  }

  /** One more level appends that level's plan to every list. */
  lemma FramePlanStep(cam: Vec2, n: nat)
    ensures FramePlan(cam, n + 1) == Append(FramePlan(cam, n), LevelPlan(cam, n))
  {
  }

  /** Placing one more slot appends its instance. */
  lemma PlaceSnoc(scale: real, tileSize: Vec2, base: Vec2, slots: seq<(int, int)>, x: int, y: int)
    ensures Place(scale, tileSize, base, slots + [(x, y)])
      == Place(scale, tileSize, base, slots) + [InstanceData(Transform(scale, Identity, TileCornerAt(base, tileSize, scale, x, y)))]
  {
  }

  // ---- The update loop -------------------------------------------------------

  /** The update's shifts are the level quantities above. */
  lemma LevelValuesComputed(cam: Vec2, level: nat, scale: real)
    requires scale == Shl(1, level + SCALE_OFFSET) as real
    ensures scale == LevelScale(level) > 0.0
    ensures TileSize(level) == Shl(TILE_RES, level + SCALE_OFFSET) as real
    ensures Snapped(cam, level) == SnapVec(cam, scale)
    ensures NextSnapped(cam, level) == SnapVec(cam, scale * 2.0)
  {
  }

  /** Placing two runs of slots places the first run, then the second. */
  lemma PlaceAppend(scale: real, tileSize: Vec2, base: Vec2, a: seq<(int, int)>, b: seq<(int, int)>)
    ensures Place(scale, tileSize, base, a + b) == Place(scale, tileSize, base, a) + Place(scale, tileSize, base, b)
  {
  }

  /** One step of the inner tile loop: tile (x, y) is placed after the ones before it in its
      column, unless it is skipped. */
  lemma PlaceColumnStep(level: nat, scale: real, tileSize: Vec2, base: Vec2, x: int, y: nat)
    requires y < 4
    ensures Place(scale, tileSize, base, Column(level, x, y + 1))
      == Place(scale, tileSize, base, Column(level, x, y))
         + (if Skipped(level, x, y) then [] else [InstanceData(Transform(scale, Identity, TileCornerAt(base, tileSize, scale, x, y)))])
  {
    if !Skipped(level, x, y) {
      PlaceSnoc(scale, tileSize, base, Column(level, x, y), x, y);
    }
  }

  /** The inner loop of the tile loop: push the tiles of column x, bottom to top, leaving out
      the skipped middle. */
  method PushColumn(level: nat, x: int, scale: real, tileSize: Vec2, base: Vec2, tiles: seq<InstanceData>)
    returns (out: seq<InstanceData>)
    ensures out == tiles + Place(scale, tileSize, base, Column(level, x, 4))
  {
    out := tiles;
    for y := 0 to 4
      invariant out == tiles + Place(scale, tileSize, base, Column(level, x, y))
    {
      PlaceColumnStep(level, scale, tileSize, base, x, y);
      ghost var placed := Place(scale, tileSize, base, Column(level, x, y));
      if level != 0 && (x == 1 || x == 2) && (y == 1 || y == 2) {
        assert Place(scale, tileSize, base, Column(level, x, y + 1)) == placed + [];
        continue;
      }
      var pos := Vec2(x as real, y as real);
      var fill := Vec2(if x >= 2 then 1.0 else 0.0, if y >= 2 then 1.0 else 0.0).Times(scale);
      var bl := base.Plus(pos.Mul(tileSize)).Plus(fill);
      var inst := InstanceData(Transform(scale, Identity, bl));
      assert Place(scale, tileSize, base, Column(level, x, y + 1)) == placed + [inst];
      out := out + [inst];
      assert out == tiles + (placed + [inst]);
    }
  }

  /** The 4x4 tile loop of one level: push every tile outside the skipped middle, x outer,
      y inner, onto `tiles`. */
  method PushTiles(level: nat, scale: real, tileSize: Vec2, base: Vec2, tiles: seq<InstanceData>)
    returns (out: seq<InstanceData>)
    ensures out == tiles + Place(scale, tileSize, base, TileSlots(level))
  {
    out := tiles;
    for x := 0 to 4
      invariant out == tiles + Place(scale, tileSize, base, Grid(level, x))
    {
      out := PushColumn(level, x, scale, tileSize, base, out);
      PlaceAppend(scale, tileSize, base, Grid(level, x), Column(level, x, 4));
      assert Grid(level, x + 1) == Grid(level, x) + Column(level, x, 4);
      assert out == tiles + (Place(scale, tileSize, base, Grid(level, x)) + Place(scale, tileSize, base, Column(level, x, 4)));
    }
  }

  /** The seam and trim block of a level that has a coarser level around it. */
  method PushSeamAndTrim(cam: Vec2, level: nat, scale: real, snapped: Vec2, seams: seq<InstanceData>, trims: seq<InstanceData>)
    returns (seamsOut: seq<InstanceData>, trimsOut: seq<InstanceData>)
    requires scale == LevelScale(level) && snapped == Snapped(cam, level)
    ensures seamsOut == seams + [SeamInstance(cam, level)]
    ensures trimsOut == trims + [TrimInstance(cam, level)]
  {
    LevelValuesComputed(cam, level, scale);
    var nextScale := scale * 2.0;
    var nextSnap := Vec2((cam.x / nextScale).Floor as real * nextScale, (cam.y / nextScale).Floor as real * nextScale);
    assert nextSnap == SnapVec(cam, nextScale);
    var nextBase := nextSnap.Minus(Splat(Shl(TILE_RES, level + SCALE_OFFSET + 1) as real));
    seamsOut := seams + [InstanceData(Transform(scale, Identity, nextBase))];

    var d := cam.Minus(nextSnap);
    var r := ((if d.x < scale then 2 else 0) as bv2 | (if d.y < scale then 1 else 0) as bv2) as nat;
    assert r == TrimRotationIndex(d, scale);
    var center := snapped.Plus(Splat(scale).Times(0.5));
    assert InstanceData(Transform(scale, ROTATIONS[r], center)) == TrimInstance(cam, level);
    trimsOut := trims + [InstanceData(Transform(scale, ROTATIONS[r], center))];
  }

  /** The body of the update's level loop: push level `level`'s instances onto `acc`. */
  method PushLevel(cam: Vec2, level: nat, acc: Instances) returns (out: Instances)
    requires level < N_LEVELS
    ensures out == Append(acc, LevelPlan(cam, level))
  {
    var scale := Shl(1, level + SCALE_OFFSET) as real;
    LevelValuesComputed(cam, level, scale);
    var tileSize := Splat(Shl(TILE_RES, level + SCALE_OFFSET) as real);
    var snapped := Vec2((cam.x / scale).Floor as real * scale, (cam.y / scale).Floor as real * scale);
    assert snapped == SnapVec(cam, scale);
    var base := snapped.Minus(tileSize.Times(2.0));
    var tile, fill, trim, cross, seam := acc.tile, acc.fill, acc.trim, acc.cross, acc.seam;

    if level == 0 {
      cross := cross + [InstanceData(Transform(scale, Identity, snapped))];
    }

    tile := PushTiles(level, scale, tileSize, base, tile);

    fill := fill + [InstanceData(Transform(scale, Identity, snapped))];

    if level < N_LEVELS - 1 {
      seam, trim := PushSeamAndTrim(cam, level, scale, snapped, seam, trim);
    }

    out := Instances(tile, fill, trim, cross, seam);
  }

  /** The instance computation of `update`: every level pushes onto five empty lists. */
  method PlanFrame(cam: Vec2) returns (plan: Instances)
    ensures plan == FramePlan(cam, N_LEVELS)
  {
    plan := NO_INSTANCES;
    for level := 0 to N_LEVELS
      invariant plan == FramePlan(cam, level)
    {
      plan := PushLevel(cam, level, plan);
      FramePlanStep(cam, level);
    }
  }
}
