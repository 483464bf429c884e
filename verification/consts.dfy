/** The compile-time constants shared by the stamp generators and the per-frame placement. */
module Consts {
  // ---- Level-of-detail ring -------------------------------------------------

  /** Level 0 cells are 2^SCALE_OFFSET world units wide. */
  const SCALE_OFFSET: nat := 5
  /** Number of nested LOD rings placed around the camera every frame. */
  const N_LEVELS: nat := 10

  /** Instance-buffer capacities each stamp's GPU buffer is sized with. */
  const N_TILES: nat := 160    // N_LEVELS * 16: 4x4 tiles per level
  const N_FILLERS: nat := 10    // N_LEVELS: one filler per level
  const N_TRIMS: nat := 9       // N_LEVELS - 1: none for the coarsest level
  const N_SEAMS: nat := 9       // N_LEVELS - 1: none for the coarsest level
  const N_CROSS: nat := 1       // one cross under the camera

  // ---- Stamp resolution -----------------------------------------------------

  const TILE_RES: nat := 64
  const PATCH_RES: nat := 65         // TILE_RES + 1
  const CLIP_RES: nat := 257         // TILE_RES * 4 + 1
  const CLIP_VERT_RES: nat := 258    // CLIP_RES + 1

  const V_TILE: nat := 4225          // PATCH_RES * PATCH_RES
  const I_TILE: nat := 24576         // 6 * TILE_RES * TILE_RES

  const V_FILL: nat := 520           // 8 * PATCH_RES
  const I_FILL: nat := 1536          // 24 * TILE_RES

  const V_TRIM: nat := 1034          // (CLIP_VERT_RES * 2 + 1) * 2
  const I_TRIM: nat := 3090          // (CLIP_VERT_RES * 2 - 1) * 6

  const V_CROSS: nat := 520          // 8 * PATCH_RES
  const I_CROSS: nat := 1542         // 24 * TILE_RES + 6

  const V_SEAM: nat := 1032          // 4 * CLIP_VERT_RES
  const I_SEAM: nat := 1548          // 6 * CLIP_VERT_RES

  /** Every stamp is stored in arrays sized for the largest one, the tile. */
  const V_MAX: nat := 4225           // V_TILE
  const I_MAX: nat := 24576          // I_TILE

  // ---- The same sizes as functions of an arbitrary tile resolution t --------

  function ClipVertRes(t: nat): nat { t * 4 + 1 + 1 }
  function VTile(t: nat): nat { (t + 1) * (t + 1) }
  function ITile(t: nat): nat { 6 * (t * t) }
  function VFill(t: nat): nat { 8 * (t + 1) }
  function IFill(t: nat): nat { 24 * t }
  function VTrim(t: nat): nat { (ClipVertRes(t) * 2 + 1) * 2 }
  function ITrim(t: nat): nat { (ClipVertRes(t) * 2 - 1) * 6 }
  function VCross(t: nat): nat { 8 * (t + 1) }
  function ICross(t: nat): nat { 24 * t + 6 }
  function VSeam(t: nat): nat { 4 * ClipVertRes(t) }
  function ISeam(t: nat): nat { 6 * ClipVertRes(t) }

  /** Every stamp's vertices and indices fit the tile-sized arrays. */
  predicate StampsFit(t: nat) {
    && VFill(t) <= VTile(t) && VTrim(t) <= VTile(t) && VCross(t) <= VTile(t) && VSeam(t) <= VTile(t)
    && IFill(t) <= ITile(t) && ITrim(t) <= ITile(t) && ICross(t) <= ITile(t) && ISeam(t) <= ITile(t)
  }

  /** Sizing every stamp by the tile is only sound from TILE_RES = 15 on: below that the trim
      has more vertices than the tile (for instance 26 against 4 at t = 1). */
  lemma StampsFitIff(t: nat)
    ensures StampsFit(t) <==> t >= 15
  {
    if t >= 15 {
      assert t * t >= 15 * t;
      assert t * t >= 9 * t;
    } else {
      assert t * t <= 14 * t;
      assert VTrim(t) > VTile(t);
    }
  }

  /** The literals above are the source's formulas evaluated at TILE_RES = 64 and
      N_LEVELS = 10, and they fit the tile-sized arrays. */
  lemma ConstantsFollowTileRes()
    ensures N_TILES == N_LEVELS * 16 && N_FILLERS == N_LEVELS
    ensures N_TRIMS == N_LEVELS - 1 && N_SEAMS == N_LEVELS - 1
    ensures PATCH_RES == TILE_RES + 1 && CLIP_RES == TILE_RES * 4 + 1
    ensures CLIP_VERT_RES == CLIP_RES + 1 && CLIP_VERT_RES == ClipVertRes(TILE_RES)
    ensures V_TILE == VTile(TILE_RES) && I_TILE == ITile(TILE_RES)
    ensures V_FILL == VFill(TILE_RES) && I_FILL == IFill(TILE_RES)
    ensures V_TRIM == VTrim(TILE_RES) && I_TRIM == ITrim(TILE_RES)
    ensures V_CROSS == VCross(TILE_RES) && I_CROSS == ICross(TILE_RES)
    ensures V_SEAM == VSeam(TILE_RES) && I_SEAM == ISeam(TILE_RES)
    ensures V_MAX == V_TILE && I_MAX == I_TILE
    ensures StampsFit(TILE_RES)
  {
    StampsFitIff(TILE_RES);
  }
}
