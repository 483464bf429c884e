# Geometry-clipmap terrain and per-frame input, modelled in Dafny

This project models the terrain core of the `wgpu-renderer` repository and proves properties of
that model. The core has three parts.

- **Five stamp meshes.** Tile, filler, trim, cross and seam. Each `generate_*_mesh` fills
  fixed-size vertex and `u32` index arrays (sized for the tile, `V_MAX` / `I_MAX`) with counted
  loops and running cursors. Each stamp is modelled by:
  - a specification function `XMesh()`, built position by position;
  - methods that run the source's loops over Dafny arrays and are proved to leave exactly
    `XMesh()`;
  - lemmas about `XMesh()`: counts, index ranges, per-strip and per-arm blocks, vertex
    positions, and triangle winding.
- **The per-frame placement.** `update` walks the `N_LEVELS` levels of detail. At each level it
  snaps the camera to the level's cell size and pushes instance records onto five lists: tiles,
  fillers, trims, crosses and seams.
  - A transform is a record of scale, quarter turn and translation.
  - `FramePlan` is the specification of the five lists. `PushLevel`, `PushTiles`, `PushColumn`
    and `PushSeamAndTrim` are the loop bodies.
  - `PlanFrame` is the update of `src/terrain.rs` and `crates/wre-terrain/src/system.rs`, which
    builds the lists in local vectors.
  - `Terrain.Update` is the update of `crates/wre_terrain/src/lib.rs`, which rebuilds the
    `instances` fields of its components.
  - Lemmas state the counts, the order, the snapping arithmetic and the trim's rotation index.
    They also state how the pieces of one level and of the next coarser level fit together:
    tiles outside the hole, filler and cross in the middle band, trim in the L-shaped gap, seam
    on the coarser hole's boundary.
- **Input edge detection.** `WreInput` keeps held keys and mouse buttons as sets.
  - `start_frame` remembers the held sets and clears the edges.
  - `end_frame` adds `pressed - previous` to "just pressed" and `previous - pressed` to "just
    released".

The three copies of the update are the same code.

- Reference copy: `src/terrain.rs:202-295`.
- `crates/wre-terrain/src/system.rs:120-213` has the same lines, 82 earlier.
- `crates/wre_terrain/src/lib.rs:72-166` has them, 130 earlier, writing into fields instead of
  local vectors.

The generators in `crates/wre-terrain/src/consts.rs:79-349` are those of
`src/terrain.rs:400-670`, 321 lines earlier. The table cites the reference copy.

Coordinates are exact reals. Every vertex coordinate is a small integer, or such an integer
minus 129.5. Camera positions are arbitrary reals, and snapping uses `Floor`.

## Model

| member | source | states |
|---|---|---|
| Consts.ConstantsFollowTileRes | crates/wre-terrain/src/consts.rs:4-35 | every literal constant is the source's formula at TILE_RES = 64 and N_LEVELS = 10, and every stamp fits the tile-sized arrays |
| Consts.StampsFitIff | src/terrain.rs:354-356 | sizing all stamps by the tile is sound exactly when TILE_RES >= 15; below that the trim has more vertices than the tile |
| TileStamp.GenerateTileMesh | src/terrain.rs:400-432 | the generated mesh is TileMesh(): V_TILE vertices, I_TILE indices, instance count N_TILES |
| TileStamp.WriteTileVertices | src/terrain.rs:401-406 | every slot v of the vertex array holds (v mod PATCH_RES, v div PATCH_RES), and all V_MAX = V_TILE slots are written |
| TileStamp.WriteTileIndices | src/terrain.rs:408-422 | the index array holds the quads row by row, six indices each, and ends full at I_TILE |
| TileStamp.TileIndexOfQuad | src/terrain.rs:413-420 | positions 6·(y·TILE_RES + x) .. +5 hold [b, b+PATCH_RES+1, b+PATCH_RES, b, b+1, b+PATCH_RES+1] with b = y·PATCH_RES + x |
| TileStamp.TileQuadCorners | src/terrain.rs:414-417 | the four indices of quad (x, y) name the corners of the unit square at (x, y) |
| TileStamp.TileMeshWellFormed | src/terrain.rs:424-431 | PATCH_RES² vertices, 6·TILE_RES² indices, every index below V_TILE |
| TileStamp.TileQuadCounterClockwise | src/terrain.rs:417-418 | both triangles of every quad are unit half-squares wound counter-clockwise |
| TileStamp.TileTriangleIndices | src/terrain.rs:408-422 | live triangle t is half t mod 2 of quad t / 2 in row-major order |
| TileStamp.TileMeshCounterClockwise | src/terrain.rs:400-432 | every triangle of the tile stamp has signed area 1/2 (counter-clockwise) |
| FillerStamp.GenerateFillerMesh | src/terrain.rs:434-501 | the generated mesh is FillerMesh(): V_FILL vertices, I_FILL indices, N_FILLERS instances |
| FillerStamp.WriteFillerVertices | src/terrain.rs:439-469 | the single arm loop writes both vertices of every step of the four arms at cursor 2·(arm·PATCH_RES + i); the slots above V_FILL stay zero |
| FillerStamp.WriteFillerIndices | src/terrain.rs:471-492 | quad a is written at positions 6a .. 6a+5, and the rest of the array stays zero |
| FillerStamp.FillerVertexOfStep | src/terrain.rs:440-468 | the two vertices at cursor 2·(arm·PATCH_RES + i) are the pair of step i of that arm |
| FillerStamp.FillerIndexOfQuad | src/terrain.rs:489-490 | positions 6a .. 6a+5 of the index list hold quad a |
| FillerStamp.FillerQuadInArm | src/terrain.rs:473-476 | quad a only uses vertices of its own arm's block [arm·2·PATCH_RES, (arm+1)·2·PATCH_RES) |
| FillerStamp.FillerQuadCorners | src/terrain.rs:477-488 | even arms emit [br,bl,tr,bl,tl,tr] and odd arms [br,bl,tl,br,tl,tr], over the pairs of steps local and local + 1 |
| FillerStamp.FillerMeshWellFormed | src/terrain.rs:494-500 | 8·PATCH_RES vertices, 24·TILE_RES indices, every index below V_FILL |
| FillerStamp.ArmStepCounterClockwise | src/terrain.rs:482-488 | with both windings, all four arms' triangles are counter-clockwise, although the negative arms store their pairs in the opposite order |
| FillerStamp.FillerTriangleIndices | src/terrain.rs:471-492 | live triangle t is half t mod 2 of quad t / 2 |
| FillerStamp.FillerQuadCounterClockwise | src/terrain.rs:482-488 | both triangles of every filler quad are counter-clockwise unit half-squares |
| FillerStamp.FillerMeshCounterClockwise | src/terrain.rs:434-501 | every filler triangle has signed area 1/2 |
| TrimStamp.GenerateTrimMesh | src/terrain.rs:503-567 | the generated mesh is TrimMesh(): V_TRIM vertices, I_TRIM indices, N_TRIMS instances |
| TrimStamp.WriteTrimVertices | src/terrain.rs:512-528 | the vertical bar writes 2·(CLIP_VERT_RES + 1) vertices, start_h equals that count, then the horizontal bar writes 2·CLIP_VERT_RES more |
| TrimStamp.WriteTrimIndices | src/terrain.rs:531-558 | the vertical strip's CLIP_VERT_RES segments, then the horizontal strip's CLIP_VERT_RES − 1 from start_h, six indices each |
| TrimStamp.TrimIndexOfQuad | src/terrain.rs:537-543 | positions 6q .. 6q+5 hold [b+1, b, b+2, b+3, b+1, b+2] for segment q's first vertex b |
| TrimStamp.TrimCounts | src/terrain.rs:345-346 | start_h + 2·CLIP_VERT_RES = V_TRIM and 6·(2·CLIP_VERT_RES − 1) = I_TRIM |
| TrimStamp.TrimStripsSeparate | src/terrain.rs:534-558 | vertical-strip indices are below start_h, horizontal-strip indices in [start_h, V_TRIM) |
| TrimStamp.TrimMeshWellFormed | src/terrain.rs:560-566 | every trim index is below V_TRIM |
| TrimStamp.TrimVertexOnShiftedGrid | src/terrain.rs:506-528 | every trim vertex is an integer point of [0, CLIP_VERT_RES]² minus half = 129.5 on each axis |
| TrimStamp.TrimQuadCorners | src/terrain.rs:512-528 | segment q's four vertices are a unit square: the vertical bar steps down, the horizontal bar right |
| TrimStamp.TrimSegmentCounterClockwise | src/terrain.rs:536-543 | for every segment of either strip, both triangles [br, bl, next_bl] and [next_br, br, next_bl] are counter-clockwise unit half-squares |
| TrimStamp.TrimQuadCounterClockwise | src/terrain.rs:536-557 | triangle h of segment q, as stored, is a counter-clockwise unit half-square |
| TrimStamp.TrimTriangleIndices | src/terrain.rs:531-558 | live triangle t is half t mod 2 of segment t / 2 |
| TrimStamp.TrimMeshCounterClockwise | src/terrain.rs:503-567 | every trim triangle has signed area 1/2 |
| TrimStamp.TrimRowVertices | src/terrain.rs:512-517 | row i of the vertical bar is (−half, y), (1 − half, y) with y = CLIP_VERT_RES − i − half |
| TrimStamp.TrimColumnVertices | src/terrain.rs:522-527 | column i of the horizontal bar is (x, −half), (x, 1 − half) with x = i + 1 − half |
| CrossStamp.GenerateCrossMesh | src/terrain.rs:569-635 | the generated mesh is CrossMesh(): V_CROSS vertices, I_CROSS indices, N_CROSS instances |
| CrossStamp.WriteCrossVertices | src/terrain.rs:573-591 | the horizontal bar's 2·PATCH_RES columns, then the vertical bar's rows, with vert_base = 4·PATCH_RES |
| CrossStamp.WriteHorizontalStrip | src/terrain.rs:593-608 | 2·TILE_RES + 1 quads of six indices, idx ends at 6·(2·TILE_RES + 1) |
| CrossStamp.WriteVerticalStrip | src/terrain.rs:610-626 | the same quads over the vertical bar, offset by vert_base, skipping i = TILE_RES; the array ends as CrossMesh().indices |
| CrossStamp.CrossIndexOfQuad | src/terrain.rs:596-605 | positions 6q .. 6q+5 hold quad q (horizontal quads first, then the vertical ones) |
| CrossStamp.CrossCounts | src/terrain.rs:348-349 | the two bars hold V_CROSS vertices; 2·TILE_RES + 1 plus 2·TILE_RES quads give I_CROSS = 24·TILE_RES + 6 indices |
| CrossStamp.CrossBarsSeparate | src/terrain.rs:593-626 | horizontal-strip indices are below vert_base, vertical-strip indices in [vert_base, V_CROSS) |
| CrossStamp.CrossMeshWellFormed | src/terrain.rs:628-634 | every cross index is below V_CROSS |
| CrossStamp.CrossQuadCorners | src/terrain.rs:573-626 | the four vertices of quad q are the corners of one unit cell on an axis |
| CrossStamp.CrossCellsDistinct | src/terrain.rs:610-612 | cells lie on the axes within [−TILE_RES, TILE_RES]; no two quads share a cell; the centre cell belongs to the horizontal bar alone, because the vertical strip skips it |
| CrossStamp.CrossQuadCounterClockwise | src/terrain.rs:596-624 | both windings, horizontal and vertical, are counter-clockwise |
| CrossStamp.CrossMeshCounterClockwise | src/terrain.rs:569-635 | every cross triangle has signed area 1/2 |
| CrossStamp.CrossColumnVertices | src/terrain.rs:575-580 | column i of the horizontal bar is (i − TILE_RES, 0), (i − TILE_RES, 1) |
| CrossStamp.CrossRowVertices | src/terrain.rs:586-591 | row i of the vertical bar is (0, i − TILE_RES), (1, i − TILE_RES) |
| SeamStamp.GenerateSeamMesh | src/terrain.rs:637-670 | the generated mesh is SeamMesh(): V_SEAM vertices, I_SEAM indices, N_SEAMS instances |
| SeamStamp.WriteSeamVertices | src/terrain.rs:642-648 | the vertex array ends as the ring of 4·CLIP_VERT_RES points: side by side (i, 0), (R, i), (R − i, R), (0, R − i) with R = CLIP_VERT_RES, zero above V_SEAM |
| SeamStamp.WriteSeamIndices | src/terrain.rs:651-660 | triangle p is [2p + 1, 2p, (2p + 2) mod V_SEAM] for p < V_SEAM / 2 |
| SeamStamp.SeamCounts | src/terrain.rs:351-352 | four sides make V_SEAM, and V_SEAM / 2 triangles make I_SEAM = 6·CLIP_VERT_RES indices |
| SeamStamp.SeamMeshWellFormed | src/terrain.rs:662-669 | every seam index is below V_SEAM |
| SeamStamp.SeamLastTriangle | src/terrain.rs:657 | the last triangle wraps: [V_SEAM − 1, V_SEAM − 2, 0] |
| SeamStamp.SeamCoversRing | src/terrain.rs:653-659 | every ring vertex is used by some triangle |
| SeamStamp.SeamVertexOnBoundary | src/terrain.rs:642-648 | every vertex lies on the boundary of [0, CLIP_VERT_RES]² |
| SeamStamp.SeamTriangleCorners | src/terrain.rs:653-658 | triangle t of the stamp is [2t + 1, 2t, (2t + 2) mod V_SEAM] |
| SeamStamp.SeamRingStep | src/terrain.rs:642-648 | the ring is closed and made of unit steps along its four sides |
| SeamStamp.SeamPairOnOneSide | src/terrain.rs:653-659 | an even ring vertex and the next lie on the same side |
| SeamStamp.SeamTriangleFlat | src/terrain.rs:653-659 | each triangle's corners are three consecutive ring vertices on one line |
| SeamStamp.SeamMeshFlat | src/terrain.rs:637-670 | every seam triangle is degenerate (area 0) on the flat ground plane |
| Placement.TrimRotationIndex | src/terrain.rs:284 | bit 1 of r is d.x < scale and bit 0 is d.y < scale, so r < 4 and ROTATIONS[r] is in bounds |
| Placement.LevelValuesComputed | src/terrain.rs:214-221 | the update's shifts and floors are LevelScale, TileSize, Snapped and NextSnapped |
| Placement.FramePlanStep | src/terrain.rs:213-294 | one more level appends that level's plan to each of the five lists |
| Placement.PlaceColumnStep | src/terrain.rs:235-252 | tile (x, y) is placed after the earlier tiles of its column unless it is skipped |
| Placement.PushColumn | src/terrain.rs:235-253 | the y loop pushes column x's unskipped tiles bottom to top, at corner base + (x, y)·tile_size + fill |
| Placement.PushTiles | src/terrain.rs:234-254 | the 4x4 loop pushes the level's tiles in TileSlots order (x outer, y inner) |
| Placement.PushSeamAndTrim | src/terrain.rs:267-294 | pushes the seam at next_snap − (TILE_RES << level + SCALE_OFFSET + 1), then the trim at snapped_pos + scale/2 turned by ROTATIONS[r] |
| Placement.PushLevel | src/terrain.rs:213-294 | one pass of the level loop appends exactly LevelPlan: the cross at level 0 only, the tiles, one filler, and the seam and trim except at the last level |
| Placement.PlanFrame | src/terrain.rs:202-295 | the five lists of one update are FramePlan(cam, N_LEVELS) |
| Snapping.SnapBounds | src/terrain.rs:219 | the snap is Floor(c / s)·s, and c lies in [snap, snap + s) |
| Snapping.SnapUnique | src/terrain.rs:219 | a multiple k·s with k·s ≤ c < k·s + s is the snap, so the snap is the only such multiple |
| Snapping.SnapDouble | src/terrain.rs:269 | the cell index at scale 2s is the cell index at scale s halved (rounding down) |
| Snapping.CoarserSnapOffset | src/terrain.rs:283-284 | c − snap(c, 2s) lies in [0, 2s), and it is below s exactly when the snaps at s and 2s agree; otherwise they differ by s |
| Snapping.SnapSameCell | src/terrain.rs:219 | two coordinates in the same cell of size s have the same snap, and lie in the same cell of size 2s |
| LevelFacts.Pow2Add | src/terrain.rs:214-215 | 2^(a+b) = 2^a · 2^b |
| LevelFacts.ShiftsFit | src/terrain.rs:214-215 | every shift of the update keeps its bits in a u32 and below 2^24, so the f32 conversion is exact |
| LevelFacts.LevelScales | src/terrain.rs:214-215 | scale(0) = 32, each level doubles the cell, tile_size = TILE_RES·scale, and the seam shift is the next level's tile size |
| LevelFacts.SnappedBounds | src/terrain.rs:219 | snapped_pos is a whole multiple of scale with snapped ≤ cam < snapped + scale on each axis |
| LevelFacts.NextSnapIsCoarserSnap | src/terrain.rs:269-270 | next_snap is the next level's snapped_pos |
| LevelFacts.TrimRotationFollowsSnaps | src/terrain.rs:283-284 | d = cam − next_snap lies in [0, 2·scale), and d < scale on an axis exactly when snapped_pos and next_snap agree there |
| LevelFacts.TrimAtCoarseGridPoint | src/terrain.rs:283-289 | a camera on the coarser grid gets r = 3, the 180-degree turn |
| LevelFacts.SeamAtCoarserHoleCorner | src/terrain.rs:272-278 | the seam's corner is the corner of tile (1, 1) of the next level, and its scale is the level's own |
| LevelFacts.SameCellAtEveryLevel | src/terrain.rs:219 | two coordinates in one finest cell share the cell of every level |
| LevelFacts.SameCellSameLevelPlan | src/terrain.rs:213-294 | two cameras in the same cell of a level get identical instances from that level |
| LevelFacts.SameCellSamePlan | src/terrain.rs:202-295 | the frame depends on the camera only through its 32-unit finest cell |
| PlanFacts.ColumnShape | src/terrain.rs:235-238 | column x holds exactly its unskipped rows, in ascending order |
| PlanFacts.ColumnLength | src/terrain.rs:236 | a column loses its two middle rows exactly on the middle columns of a coarse level |
| PlanFacts.GridMembers | src/terrain.rs:234-238 | the columns left of x hold exactly their unskipped tiles |
| PlanFacts.GridIncreasing | src/terrain.rs:234-235 | the columns left of x list their tiles in x-major, y-minor order |
| PlanFacts.GridLength | src/terrain.rs:234-238 | the grid grows by whole columns of 4, or of 2 in the middle columns above level 0 |
| PlanFacts.TileSlotsExact | src/terrain.rs:233-254 | a level places tile (x, y) iff not (level ≠ 0 ∧ x ∈ {1,2} ∧ y ∈ {1,2}), in x-major order, 16 at level 0 and 12 elsewhere |
| PlanFacts.LevelTilesFollowSlots | src/terrain.rs:240-252 | entry i of a level's tile list is the tile of its i-th slot |
| PlanFacts.FrameTiles | src/terrain.rs:213-254 | tile i of the frame is the tile of the i-th (level, x, y) slot |
| PlanFacts.FrameFillers | src/terrain.rs:256-264 | filler l of the frame belongs to level l, one per level |
| PlanFacts.FrameTrims | src/terrain.rs:266-294 | trim l belongs to level l, for every level but the coarsest |
| PlanFacts.FrameSeams | src/terrain.rs:266-281 | seam l belongs to level l, for every level but the coarsest |
| PlanFacts.FrameCross | src/terrain.rs:223-231 | only level 0 places the cross |
| PlanFacts.FrameSlotsPlaced | src/terrain.rs:213-254 | every frame slot names a placed tile of a level below n |
| PlanFacts.FrameSlotsIncreasing | src/terrain.rs:213-254 | tiles are pushed in strictly increasing (level, x, y) order |
| PlanFacts.FrameCounts | src/terrain.rs:213-294 | after n levels: 16 + 12·(n − 1) tiles, n fillers, min(n, N_LEVELS − 1) trims and seams, one cross |
| PlanFacts.FrameFitsBuffers | src/terrain.rs:9-13 | a full frame places 124 tiles, 10 fillers, 9 trims, 9 seams and 1 cross, each within its N_* capacity |
| PlanFacts.CrossMatchesFinestFiller | src/terrain.rs:224-262 | the cross's transform is the level-0 filler's: scale s, identity rotation, snapped_pos(0) |
| Coverage.ImageInImageBox | src/terrain.rs:245-251 | a placement with a positive scale maps a rectangle into the rectangle of its corners' images, boundary onto boundary |
| Coverage.ImageBoxOf | src/terrain.rs:15-20 | the image rectangle of a placement, rotation by rotation, for the four ROTATIONS |
| Coverage.TileVertexInBox | src/terrain.rs:401-406 | tile vertices fill [0, TILE_RES]², the first and last at its corners |
| Coverage.FillerVertexInArm | src/terrain.rs:439-469 | every arm's vertices lie in its one-cell-wide strip, first and last at opposite corners |
| Coverage.CrossVertexInBars | src/terrain.rs:573-591 | the cross's vertices lie in its two bars, and the bars' corners are vertices |
| Coverage.TrimVertexInBars | src/terrain.rs:506-528 | the trim's vertices lie in its two bars, and the bars' opposite corners are vertices |
| Coverage.StampBoxesFollowConstants | src/terrain.rs:334-352 | the stamp rectangles are the formulas in TILE_RES, PATCH_RES, CLIP_VERT_RES and the trim's half-offset, not free literals |
| Coverage.SeamVertexOnRing | src/terrain.rs:642-648 | the seam's vertices lie on the boundary of [0, CLIP_VERT_RES]², two of them at opposite corners |
| Coverage.FootprintExtent | src/terrain.rs:219-221 | a level's 4x4 grid spans [p − 128s, p + 129s] around the snapped camera p |
| Coverage.HoleExtent | src/terrain.rs:236-246 | the middle 2x2 spans [p − 64s, p + 65s] |
| Coverage.LevelExtents | src/terrain.rs:219-246 | both extents together |
| Coverage.TileImage | src/terrain.rs:245-251 | a placed tile covers the square of one tile size from its corner |
| Coverage.TilesAbut | src/terrain.rs:240-246 | adjacent tile columns and rows abut, except for the one-cell band [p, p + s] that the fill offset leaves |
| Coverage.ColumnSpan | src/terrain.rs:240-246 | every column lies in the footprint; columns 0 and 3 border the hole |
| Coverage.RowSpan | src/terrain.rs:240-246 | every row lies in the footprint; rows 0 and 3 border the hole |
| Coverage.TilePlacedOutsideHole | src/terrain.rs:233-254 | every placed tile lies in the footprint, and above level 0 none overlaps the hole |
| Coverage.TileVertexOutsideHole | src/terrain.rs:233-254 | every placed tile vertex lands in the footprint, and above level 0 not strictly inside the hole |
| Coverage.FillerArmsFillBand | src/terrain.rs:256-264 | the filler's four arms are exactly the one-cell-wide band through the snapped camera, from each edge of the hole to the same edge of the footprint |
| Coverage.BandSpansHole | src/terrain.rs:224-231 | placed like the filler, the cross's bars cover the band's stretch inside the hole |
| Coverage.FootprintInCoarserHole | src/terrain.rs:266-270 | a level's footprint lies inside the next level's hole, one cell short of it on one side per axis |
| Coverage.TrimFillsGap | src/terrain.rs:282-293 | turned by ROTATIONS[r], the trim's two bars are exactly the gap column across the coarser hole and the gap row along the footprint, or the gap row across the hole and the gap column along the footprint |
| Coverage.TrimBarsPlaced | src/terrain.rs:283-289 | TrimFillsGap in terms of s, p and q, case by case over the four rotations |
| Coverage.TrimBarsInGap | src/terrain.rs:282-293 | both placed trim bars lie in the coarser hole, clear of the level's footprint |
| Coverage.GapStripsPlaced | src/terrain.rs:282-293 | whichever side of the footprint the spare column and row fall on, each strip, spanning the hole or the footprint, lies in the coarser hole and clear of the footprint |
| Coverage.TrimVertexInGap | src/terrain.rs:282-293 | every placed trim vertex lands in the coarser hole and not strictly inside the footprint |
| Coverage.SeamOutlinesHole | src/terrain.rs:269-280 | the placed seam's square is exactly the coarser level's hole |
| Coverage.SeamVertexOnHoleBoundary | src/terrain.rs:269-280 | every placed seam vertex lies on the coarser hole's boundary |
| Mesh.CopyFromSlice | src/terrain.rs:419 | `copy_from_slice` writes src at [at, at + \|src\|) and leaves the rest of the array unchanged; the tile and filler use it (lines 419, 443, 489), and the model also uses it where trim, cross and seam assign the same consecutive slots one by one (lines 537-542, 549-554, 601-606, 617-622, 656-658) |
| ClipmapTerrain.FromMesh | crates/wre_terrain/src/lib.rs:21-29 | empty instances and copies of the whole fixed arrays, V_MAX positions and I_MAX indices, not only the live prefix |
| ClipmapTerrain.StampComponentsFit | crates/wre_terrain/src/lib.rs:56-60 | each of the five components holds V_MAX positions and I_MAX indices, and its live indices name live positions |
| ClipmapTerrain.Terrain.constructor | crates/wre_terrain/src/lib.rs:55-69 | each component is built from its stamp's generated mesh |
| ClipmapTerrain.Terrain.New | crates/wre_terrain/src/lib.rs:55-70 | always Ok, with the heightmap path, the five stamps' components and no instances |
| ClipmapTerrain.Terrain.Update | crates/wre_terrain/src/lib.rs:72-166 | the five instance lists end as FramePlan of the camera's ground position, whatever they held before; the positions, the indices and the heightmap are unchanged |
| Input.StartFrameConsistent | crates/wre_input/src/lib.rs:66-77 | after start_frame, previous equals pressed, pressed is unchanged, and both edge sets are empty |
| Input.PressedEditsConsistent | crates/wre_input/src/lib.rs:7-11 | any edit of the public `pressed_keys` / `pressed_mouse_buttons` sets between start_frame and end_frame keeps the edge invariant, which does not depend on the pressed set |
| Input.EndFrameConsistent | crates/wre_input/src/lib.rs:80-103 | end_frame keeps the edge invariant: nothing just pressed was held before, everything just released was |
| Input.ConsistentEdgesDisjoint | crates/wre_input/src/lib.rs:82-102 | under the invariant, nothing is both just pressed and just released |
| Input.EndFrameIdempotent | crates/wre_input/src/lib.rs:80-103 | ending a frame twice is ending it once |
| Input.FrameEdges | crates/wre_input/src/lib.rs:66-103 | over a frame, just pressed is exactly newly held and just released exactly no longer held; an unchanged held set gives no edges |
| Input.InsertMissing | crates/wre_input/src/lib.rs:82-86 | one `for` loop of end_frame inserts exactly the members of `from` missing from `absent` |
| Input.WreInput.constructor | crates/wre_input/src/lib.rs:25-27 | every set is empty and every mouse pair is (0, 0) |
| Input.WreInput.IsKeyPressed | crates/wre_input/src/lib.rs:29-31 | true iff the key is in pressed_keys |
| Input.WreInput.WasKeyJustPressed | crates/wre_input/src/lib.rs:33-35 | true iff the key is in just_pressed_keys |
| Input.WreInput.WasKeyJustReleased | crates/wre_input/src/lib.rs:37-39 | true iff the key is in just_released_keys |
| Input.WreInput.IsMouseButtonPressed | crates/wre_input/src/lib.rs:41-43 | true iff the button is in pressed_mouse_buttons |
| Input.WreInput.WasMouseButtonJustPressed | crates/wre_input/src/lib.rs:45-47 | true iff the button is in just_pressed_mouse_buttons |
| Input.WreInput.WasMouseButtonJustReleased | crates/wre_input/src/lib.rs:49-51 | true iff the button is in just_released_mouse_buttons |
| Input.WreInput.StartFrame | crates/wre_input/src/lib.rs:66-77 | previous := pressed for keys and buttons, the four edge sets cleared, deltas (0, 0), mouse position unchanged, invariant established |
| Input.WreInput.EndFrame | crates/wre_input/src/lib.rs:80-103 | adds pressed − previous to just pressed and previous − pressed to just released for both devices, changes no other field, keeps the invariant |

## Left out

- GPU and windowing: buffer creation, `queue.write_buffer`, render passes, bind groups,
  `TerrainSystem::new`, `render` and the vertex layout. These are calls into wgpu that the
  model cannot see.
- Draw instance count: the draw call passes each mesh's static `instance_count` (160 for
  tiles), not the 124 tile records an update writes (src/terrain.rs:61, 79-83). Drawing is not
  modelled. The model records the constant, and `PlanFacts.FrameFitsBuffers` proves 124 ≤ 160.
- Floating point: `f32`/`f64` rounding is not modelled, and coordinates are exact reals.
  - `LevelFacts.ShiftsFit` shows that the shifted integers convert to `f32` exactly.
  - Snapping of camera coordinates too large for `f32` to hold exactly is not captured.
- Transforms: `Mat4::from_scale_rotation_translation` and the quaternions of `ROTATIONS` become
  a (scale, quarter turn, translation) record on the ground plane.
  - The height scale of 1 and the z translation of 0 are dropped.
  - The quaternions are replaced by the rotations their comments name.
- Camera: the camera is reduced to its eye position; the update reads nothing else.
- Heightmap: the path is stored and never read. Loading it is file I/O.
- `Terrain::new` never returns `Err`. `TerrainError::TempError` is declared but never produced,
  and the model's `New` always returns `Ok`.
- `crates/wre_terrain/src/consts.rs` is not part of this model. `crates/wre_terrain/src/lib.rs`
  imports `Mesh2d`, the five meshes, `ROTATIONS`, `TILE_RES` and the other constants from it
  (lines 6-13), and reads a `positions` field of `Mesh2d` (line 25). The neighbouring
  `crates/wre-terrain/src/consts.rs` calls that array `vertices` and keeps `TILE_RES` private.
  The model assumes the crate's constants, rotation table and stamp meshes are those of
  `src/terrain.rs`, and it reads the mesh's vertex array as `positions`.
- Input keys and buttons: winit's `KeyCode` and `MouseButton` become a key code number and a
  button enumeration.
- Input iteration order: `HashSet` iteration order is not modelled. `end_frame`'s loops pick
  elements in any order, and the proved result does not depend on it.
- Input.WreInput.GetMousePosition: a plain field read, with no contract beyond its body. The
  same holds for `GetMouseDelta` and `GetMouseScrollDelta`.
- Mouse motion and scroll: the event handlers that update `pressed_*`, `mouse_position` and
  the deltas are not part of this repository's input crate. `PressedEditsConsistent` covers any
  edit of the public pressed sets.
- The cross's coverage is not stated at the literal level 0. It is stated for a general level
  by `Coverage.BandSpansHole`, and `PlanFacts.CrossMatchesFinestFiller` shows the cross is
  placed with the level-0 filler transform.
