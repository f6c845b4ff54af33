/** The demo scene: a dense 16 x 16 x 16 block of unit cubes, one per integer
    point, built slab by slab, row by row, cell by cell; and the geometry the
    renderer prepares for it at start-up. */
module Scene {
  import opened VertexData
  import opened Visibility
  import opened MeshBuilder

  /** Voxels along each axis. */
  const GridSize: nat := 16

  /** Distance between neighbouring cube centres. */
  const Gap: real := 1.0

  /** The cube at grid point (x, y, z): side 1, placed at (x, y, z) times the gap. */
  function CubeAt(x: nat, y: nat, z: nat): Mesh {
    CreateCube(Vec3(x as real * Gap, y as real * Gap, z as real * Gap), 1.0)
  }

  /** Row `y` of slab `x` of the `n`-cube whose entry at (x, y, z) is `make(x, y, z)`. */
  function RowOf(n: nat, make: (nat, nat, nat) -> Mesh, x: nat, y: nat): seq<Mesh> {
    seq(n, z requires 0 <= z => make(x, y, z))
  }

  function SlabOf(n: nat, make: (nat, nat, nat) -> Mesh, x: nat): seq<seq<Mesh>> {
    seq(n, y requires 0 <= y => RowOf(n, make, x, y))
  }

  /** The dense `n`-cube whose entry [x][y][z] is `make(x, y, z)`. */
  function GridOf(n: nat, make: (nat, nat, nat) -> Mesh): Grid {
    seq(n, x requires 0 <= x => SlabOf(n, make, x))
  }

  /** The scene grid: the dense 16-cube of cubes placed at their grid points. */
  function DenseGrid(n: nat): Grid {
    GridOf(n, CubeAt)
  }

  /** The triple loop that fills the grid: for each x a new slab, for each y a
      new row, for each z the entry for (x, y, z), each pushed onto the end of
      its container. The entry maker is a parameter so that the loop's proof
      does not depend on what a cube mesh holds. */
  method FillGrid(n: nat, make: (nat, nat, nat) -> Mesh) returns (meshes: Grid)
    ensures meshes == GridOf(n, make)
  {
    meshes := [];
    for x := 0 to n
      invariant meshes == GridOf(n, make)[..x]
    {
      ghost var slabs := meshes;
      meshes := meshes + [[]];
      for y := 0 to n
        invariant |slabs| == x
        invariant meshes == slabs + [SlabOf(n, make, x)[..y]]
      {
        ghost var rows := meshes[x];
        meshes := meshes[x := meshes[x] + [[]]];
        for z := 0 to n
          invariant |slabs| == x && |rows| == y
          invariant meshes == slabs + [rows + [RowOf(n, make, x, y)[..z]]]
        {
          ghost var cells := RowOf(n, make, x, y)[..z];
          assert meshes[x][y] == cells;
          meshes := meshes[x := meshes[x][y := meshes[x][y] + [make(x, y, z)]]];
          assert meshes[x] == rows + [cells + [make(x, y, z)]];
          assert RowOf(n, make, x, y)[..z + 1] == cells + [make(x, y, z)];
        }
        assert RowOf(n, make, x, y)[..n] == RowOf(n, make, x, y);
        assert SlabOf(n, make, x)[..y + 1] == SlabOf(n, make, x)[..y] + [RowOf(n, make, x, y)];
      }
      assert SlabOf(n, make, x)[..n] == SlabOf(n, make, x);
      assert GridOf(n, make)[..x + 1] == GridOf(n, make)[..x] + [SlabOf(n, make, x)];
    }
    assert GridOf(n, make)[..n] == GridOf(n, make);
  }

  /** Builds the scene grid: the loop above with 16 steps per axis and the cube
      at each grid point. */
  method BuildGrid() returns (meshes: Grid)
    ensures meshes == DenseGrid(GridSize)
  {
    meshes := FillGrid(GridSize, CubeAt);
  }

  /** Every grid the loop builds is a dense box holding `make(x, y, z)` at (x, y, z). */
  lemma GridOfShape(n: nat, make: (nat, nat, nat) -> Mesh)
    ensures IsBox(GridOf(n, make), n, n, n)
    ensures forall x: nat, y: nat, z: nat :: x < n && y < n && z < n ==>
              HasCube(GridOf(n, make), x, y, z) && GridOf(n, make)[x][y][z] == make(x, y, z)
  {
  }

  /** A dense `n`-cube exposes exactly its surface: 6 n^2 faces (none when empty). */
  lemma GridOfFaceCount(n: nat, make: (nat, nat, nat) -> Mesh)
    ensures FaceCount(GridOf(n, make)) == 6 * (n * n)
  {
    if n >= 1 {
      GridOfShape(n, make);
      BoxFaceCount(GridOf(n, make), n, n, n);
    }
  }

  /** The cube at grid point (x, y, z) is centred on that point and has side 1,
      so neighbouring cubes share their faces. */
  lemma CubeAtPlacement(x: nat, y: nat, z: nat)
    ensures IsCubeMesh(CubeAt(x, y, z), Vec3(x as real, y as real, z as real), 1.0 / 2.0)
  {
    var c := Vec3(x as real * Gap, y as real * Gap, z as real * Gap);
    assert Scale(c, 1.0) == Vec3(x as real, y as real, z as real);
  }

  /** The scene grid can be sliced face by face. */
  lemma DenseGridSliceable(n: nat)
    ensures Sliceable(DenseGrid(n))
  {
    GridOfShape(n, CubeAt);
    forall x: nat, y: nat, z: nat | HasCube(DenseGrid(n), x, y, z)
      ensures |DenseGrid(n)[x][y][z].vertices| >= CubeVertexCount
    {
      CubeAtPlacement(x, y, z);
    }
    FullMeshesSliceable(DenseGrid(n));
  }

  /** The geometry part of start-up for the demo scene: build the grid, then
      prepare its visible vertices, draw count and index data. The 16-cube
      exposes 1536 faces, hence 9216 vertices. */
  method LoadScene() returns (vertexData: seq<Vertex>, numVertices: nat, indexData: seq<nat>)
    ensures FaceCount(DenseGrid(GridSize)) == 1536
    ensures Sliceable(DenseGrid(GridSize)) && vertexData == VisibleVertices(DenseGrid(GridSize))
    ensures |vertexData| == 9216 && numVertices == 9216
    ensures |indexData| == 9216 && forall i :: 0 <= i < |indexData| ==> indexData[i] == i
  {
    var meshes := BuildGrid();
    DenseGridSliceable(GridSize);
    GridOfFaceCount(GridSize, CubeAt);
    vertexData, numVertices, indexData := UploadVertices(meshes);
  }
}
