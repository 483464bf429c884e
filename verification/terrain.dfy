/** The terrain object of the wre_terrain crate: one component per stamp, each holding the
    stamp's vertex and index arrays and the instances the last update placed, and the update
    that rebuilds those instance lists for a camera. */
module ClipmapTerrain {
  import opened Consts
  import opened Geometry
  import opened Mesh
  import opened Placement
  import TileStamp
  import FillerStamp
  import TrimStamp
  import CrossStamp
  import SeamStamp

  datatype Vec3 = Vec3(x: real, y: real, z: real) {
    /** The ground-plane part of a point. */
    function XY(): Vec2 { Vec2(x, y) }
  }

  /** The camera as the update reads it: its eye position. */
  datatype Camera = Camera(eye: Vec3)

  /** One stamp ready to draw: the instances placed this frame and the stamp's arrays. */
  datatype TerrainComponent = TerrainComponent(instances: seq<InstanceData>, positions: seq<Vec2>, indices: seq<u32>)

  /** `From<Mesh2d>`: no instances yet, and copies of the mesh's whole fixed-size arrays, not
      only their live prefixes. For a well-formed mesh that is V_MAX positions and I_MAX
      indices, of which the live ones name live positions. */
  function FromMesh(m: Mesh2d): (c: TerrainComponent)
    ensures c.instances == [] && c.positions == m.vertices && c.indices == m.indices
    ensures WellFormed(m) ==> |c.positions| == V_MAX && |c.indices| == I_MAX
    ensures WellFormed(m) ==> forall k :: 0 <= k < m.indexCount ==> c.indices[k] < m.vertexCount <= |c.positions|
  {
    TerrainComponent([], m.vertices, m.indices)
  }

  /** The components of the five stamps each hold V_MAX positions and I_MAX indices, and the
      live indices name live positions. */
  lemma StampComponentsFit(m: Mesh2d)
    requires m in {TileStamp.TileMesh(), FillerStamp.FillerMesh(), TrimStamp.TrimMesh(), CrossStamp.CrossMesh(), SeamStamp.SeamMesh()}
    ensures var c := FromMesh(m);
      && |c.positions| == V_MAX && |c.indices| == I_MAX
      && forall k :: 0 <= k < m.indexCount ==> c.indices[k] < m.vertexCount <= V_MAX
  {
    TileStamp.TileMeshWellFormed();
    FillerStamp.FillerMeshWellFormed();
    TrimStamp.TrimMeshWellFormed();
    CrossStamp.CrossMeshWellFormed();
    SeamStamp.SeamMeshWellFormed();
  }

  datatype TerrainError = TempError

  datatype Result<T> = Ok(value: T) | Err(error: TerrainError)

  class Terrain {
    /** The heightmap's path; kept, never read. */
    var heightmap: string
    var tile: TerrainComponent
    var cross: TerrainComponent
    var fill: TerrainComponent
    var trim: TerrainComponent
    var seam: TerrainComponent

    /** The five instance lists. */
    function Plan(): Instances
      reads this
    {
      Instances(tile.instances, fill.instances, trim.instances, cross.instances, seam.instances)
    }

    /** The five components' arrays. */
    function MeshData(): seq<(seq<Vec2>, seq<u32>)>
      reads this
    {
      [(tile.positions, tile.indices), (cross.positions, cross.indices), (fill.positions, fill.indices),
       (trim.positions, trim.indices), (seam.positions, seam.indices)]
    }

    /** Each component holds its stamp's generated mesh. */
    constructor (heightmap: string)
      ensures this.heightmap == heightmap
      ensures tile == FromMesh(TileStamp.TileMesh()) && cross == FromMesh(CrossStamp.CrossMesh())
      ensures fill == FromMesh(FillerStamp.FillerMesh()) && trim == FromMesh(TrimStamp.TrimMesh())
      ensures seam == FromMesh(SeamStamp.SeamMesh())
    {
      var tileMesh := TileStamp.GenerateTileMesh();
      var crossMesh := CrossStamp.GenerateCrossMesh();
      var fillMesh := FillerStamp.GenerateFillerMesh();
      var trimMesh := TrimStamp.GenerateTrimMesh();
      var seamMesh := SeamStamp.GenerateSeamMesh();
      this.heightmap := heightmap;
      tile := FromMesh(tileMesh);
      cross := FromMesh(crossMesh);
      fill := FromMesh(fillMesh);
      trim := FromMesh(trimMesh);
      seam := FromMesh(seamMesh);
    }

    /** `Terrain::new`: always succeeds, with no instances placed yet. */
    static method New(heightmap: string) returns (r: Result<Terrain>)
      ensures r.Ok? && fresh(r.value) && r.value.heightmap == heightmap
      ensures r.value.Plan() == NO_INSTANCES
      ensures r.value.tile == FromMesh(TileStamp.TileMesh()) && r.value.cross == FromMesh(CrossStamp.CrossMesh())
      ensures r.value.fill == FromMesh(FillerStamp.FillerMesh()) && r.value.trim == FromMesh(TrimStamp.TrimMesh())
      ensures r.value.seam == FromMesh(SeamStamp.SeamMesh())
    {
      var terrain := new Terrain(heightmap);
      r := Ok(terrain);
    }

    /** `update`: empty the five lists, then push every level's instances for the camera's
        ground position. The lists end as the frame plan of that position alone, whatever
        they held before; the arrays and the heightmap path are untouched. */
    method Update(camera: Camera)
      modifies this
      ensures Plan() == FramePlan(camera.eye.XY(), N_LEVELS)
      ensures MeshData() == old(MeshData()) && heightmap == old(heightmap)
    {
      tile := tile.(instances := []);
      fill := fill.(instances := []);
      trim := trim.(instances := []);
      cross := cross.(instances := []);
      seam := seam.(instances := []);

      var cam := camera.eye.XY();
      for level := 0 to N_LEVELS
        invariant Plan() == FramePlan(cam, level)
        invariant MeshData() == old(MeshData()) && heightmap == old(heightmap)
      {
        var next := PushLevel(cam, level, Plan());
        tile := tile.(instances := next.tile);
        fill := fill.(instances := next.fill);
        trim := trim.(instances := next.trim);
        cross := cross.(instances := next.cross);
        seam := seam.(instances := next.seam);
        FramePlanStep(cam, level);
      }
    }
  }
}
