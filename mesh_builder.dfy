/** Assembly of the static vertex stream: every exposed face of every voxel,
    walked x, then y, then z ascending, each face contributing the fixed
    six-vertex slice of its voxel's cube mesh; and the copy of that stream
    into the vertex data, draw count and index data handed to the GPU. */
module MeshBuilder {
  import opened VertexData
  import opened Visibility

  /** The half-open range of a cube mesh's vertices that holds the face seen
      from direction `d` (front +Z at 0, right +X at 6, back -Z at 12,
      left -X at 18, top +Y at 24, bottom -Y at 30). `None` selects nothing. */
  function FaceRange(d: Direction): (nat, nat) {
    match d
    case X => (6, 12)
    case Y => (24, 30)
    case Z => (0, 6)
    case NegX => (18, 24)
    case NegY => (30, 36)
    case NegZ => (12, 18)
    case None => (0, 0)
  }

  /** The vertices of `m` that the face in direction `d` occupies. */
  function FaceSlice(m: Mesh, d: Direction): seq<Vertex>
    requires FaceRange(d).1 <= |m.vertices|
  {
    m.vertices[FaceRange(d).0..FaceRange(d).1]
  }

  /** Every direction of `ds` selects a range that lies inside `m`. */
  predicate FitsMesh(m: Mesh, ds: seq<Direction>) {
    forall d :: d in ds ==> FaceRange(d).1 <= |m.vertices|
  }

  /** The face slices of `m` for the directions `ds`, one after the other. */
  function FacesVertices(m: Mesh, ds: seq<Direction>): seq<Vertex>
    requires FitsMesh(m, ds)
  {
    if ds == [] then []
    else FacesVertices(m, ds[..|ds| - 1]) + FaceSlice(m, ds[|ds| - 1])
  }

  /** Slicing the exposed faces of voxel (x, y, z) stays inside its mesh. */
  predicate VoxelFits(cubes: Grid, x: nat, y: nat, z: nat)
    requires HasCube(cubes, x, y, z)
  {
    FitsMesh(cubes[x][y][z], ExposedFaces(cubes, x, y, z))
  }

  /** What the mesh builder demands of its grid (otherwise a slice panics):
      every voxel's mesh is long enough for the slices of its exposed faces. */
  ghost predicate Sliceable(cubes: Grid) {
    forall x: nat, y: nat, z: nat :: HasCube(cubes, x, y, z) ==> VoxelFits(cubes, x, y, z)
  }

  /** The vertices one voxel contributes. */
  function VoxelVertices(cubes: Grid, x: nat, y: nat, z: nat): seq<Vertex>
    requires HasCube(cubes, x, y, z) && VoxelFits(cubes, x, y, z)
  {
    FacesVertices(cubes[x][y][z], ExposedFaces(cubes, x, y, z))
  }

  /** The vertices of the first `n` voxels of row `cubes[x][y]`. */
  function RowVertices(cubes: Grid, x: nat, y: nat, n: nat): seq<Vertex>
    requires Sliceable(cubes) && HasRow(cubes, x, y) && n <= |cubes[x][y]|
  {
    if n == 0 then [] else RowVertices(cubes, x, y, n - 1) + VoxelVertices(cubes, x, y, n - 1)
  }

  /** The vertices of the first `n` rows of slab `cubes[x]`. */
  function SlabVertices(cubes: Grid, x: nat, n: nat): seq<Vertex>
    requires Sliceable(cubes) && x < |cubes| && n <= |cubes[x]|
  {
    if n == 0 then []
    else SlabVertices(cubes, x, n - 1) + RowVertices(cubes, x, n - 1, |cubes[x][n - 1]|)
  }

  /** The vertices of the first `n` slabs of the grid. */
  function GridVertices(cubes: Grid, n: nat): seq<Vertex>
    requires Sliceable(cubes) && n <= |cubes|
  {
    if n == 0 then [] else GridVertices(cubes, n - 1) + SlabVertices(cubes, n - 1, |cubes[n - 1]|)
  }

  /** The whole visible vertex stream, x-major, then y, then z, then report order. */
  function VisibleVertices(cubes: Grid): seq<Vertex>
    requires Sliceable(cubes)
  {
    GridVertices(cubes, |cubes|)
  }

  lemma AppendAssociative(a: seq<Vertex>, b: seq<Vertex>, c: seq<Vertex>)
    ensures (a + b) + c == a + (b + c)
  {
  }

  /** Walks the grid x, then y, then z ascending and appends, for each exposed
      direction of each voxel in report order, the six vertices of that face. */
  method GetVisibleCubes(cubes: Grid) returns (visibleCubes: seq<Vertex>)
    requires Sliceable(cubes)
    ensures visibleCubes == VisibleVertices(cubes)
  {
    visibleCubes := [];
    for x := 0 to |cubes|
      invariant visibleCubes == GridVertices(cubes, x)
    {
      ghost var slabStart := visibleCubes;
      for y := 0 to |cubes[x]|
        invariant visibleCubes == slabStart + SlabVertices(cubes, x, y)
      {
        ghost var rowStart := visibleCubes;
        for z := 0 to |cubes[x][y]|
          invariant visibleCubes == rowStart + RowVertices(cubes, x, y, z)
        {
          ghost var voxelStart := visibleCubes;
          var directions := CheckVisibility(x, y, z, cubes);
          assert HasCube(cubes, x, y, z) && VoxelFits(cubes, x, y, z);
          var mesh := cubes[x][y][z];
          for i := 0 to |directions|
            invariant visibleCubes == voxelStart + FacesVertices(mesh, directions[..i])
          {
            assert directions[..i + 1][..i] == directions[..i];
            assert directions[i] in directions;
            ghost var faceStart := visibleCubes;
            match directions[i] {
              case X => visibleCubes := visibleCubes + mesh.vertices[6..12];
              case Y => visibleCubes := visibleCubes + mesh.vertices[24..30];
              case Z => visibleCubes := visibleCubes + mesh.vertices[0..6];
              case NegX => visibleCubes := visibleCubes + mesh.vertices[18..24];
              case NegY => visibleCubes := visibleCubes + mesh.vertices[30..36];
              case NegZ => visibleCubes := visibleCubes + mesh.vertices[12..18];
              case None =>
            }
            assert visibleCubes == faceStart + FaceSlice(mesh, directions[i]);
            AppendAssociative(voxelStart, FacesVertices(mesh, directions[..i]), FaceSlice(mesh, directions[i]));
          }
          assert directions[..|directions|] == directions;
          AppendAssociative(rowStart, RowVertices(cubes, x, y, z), VoxelVertices(cubes, x, y, z));
        }
        AppendAssociative(slabStart, SlabVertices(cubes, x, y), RowVertices(cubes, x, y, |cubes[x][y]|));
      }
    }
  }

  /** The cube face a direction selects, and the axis vector it points along. */
  function FaceOf(d: Direction): Face
    requires d != None
  {
    match d
    case X => Right
    case Y => Top
    case Z => Front
    case NegX => Left
    case NegY => Bottom
    case NegZ => Back
  }

  function Outward(d: Direction): Vec3 {
    match d
    case X => Vec3(1.0, 0.0, 0.0)
    case Y => Vec3(0.0, 1.0, 0.0)
    case Z => Vec3(0.0, 0.0, 1.0)
    case NegX => Vec3(-1.0, 0.0, 0.0)
    case NegY => Vec3(0.0, -1.0, 0.0)
    case NegZ => Vec3(0.0, 0.0, -1.0)
    case None => Vec3(0.0, 0.0, 0.0)
  }

  /** The vertices in a direction's range all belong to the face it selects,
      and that face's normal points along the direction. */
  lemma FaceRangeSelectsFace(d: Direction, j: nat)
    requires d != None && j < FaceVertexCount
    ensures FaceRange(d).1 == FaceRange(d).0 + FaceVertexCount <= CubeVertexCount
    ensures FaceAt(FaceRange(d).0 + j) == FaceOf(d)
    ensures FaceNormal(FaceOf(d)) == Outward(d)
  {
    var lo := FaceRange(d).0;
    assert (lo + j) / FaceVertexCount == lo / FaceVertexCount;
  }

  /** The hard-coded slice for each direction is the face of a cube mesh that
      looks that way: six vertices whose normals point along the direction and
      whose positions lie on that side of the cube. */
  lemma SliceFacesDirection(m: Mesh, c: Vec3, h: real, d: Direction)
    requires IsCubeMesh(m, c, h) && d != None
    ensures FaceRange(d).1 <= |m.vertices|
    ensures var s := FaceSlice(m, d);
            && |s| == FaceVertexCount
            && forall j :: 0 <= j < |s| ==>
                 && Xyz(s[j].normal) == Outward(d)
                 && OnFacePlane(FaceOf(d), Xyz(s[j].position), c, h)
  {
    FaceRangeSelectsFace(d, 0);
    var s := FaceSlice(m, d);
    forall j | 0 <= j < |s|
      ensures Xyz(s[j].normal) == Outward(d)
      ensures OnFacePlane(FaceOf(d), Xyz(s[j].position), c, h)
    {
      FaceRangeSelectsFace(d, j);
      var i := FaceRange(d).0 + j;
      assert s[j] == m.vertices[i];
      assert IsCubeVertex(m.vertices[i], i, c, h);
    }
  }

  /** A grid whose every voxel carries at least a full cube mesh is sliceable. */
  lemma FullMeshesSliceable(cubes: Grid)
    requires forall x: nat, y: nat, z: nat :: HasCube(cubes, x, y, z) ==>
               |cubes[x][y][z].vertices| >= CubeVertexCount
    ensures Sliceable(cubes)
  {
    forall x: nat, y: nat, z: nat | HasCube(cubes, x, y, z)
      ensures VoxelFits(cubes, x, y, z)
    {
      var m := cubes[x][y][z];
      forall d | d in ExposedFaces(cubes, x, y, z)
        ensures FaceRange(d).1 <= |m.vertices|
      {
        assert FaceRange(d).1 <= CubeVertexCount;
      }
    }
  }

  /** The number of exposed faces among the first `n` voxels of row `cubes[x][y]`. */
  function RowFaceCount(cubes: Grid, x: nat, y: nat, n: nat): nat
    requires HasRow(cubes, x, y) && n <= |cubes[x][y]|
  {
    if n == 0 then 0 else RowFaceCount(cubes, x, y, n - 1) + |ExposedFaces(cubes, x, y, n - 1)|
  }

  /** The number of exposed faces in the first `n` rows of slab `cubes[x]`. */
  function SlabFaceCount(cubes: Grid, x: nat, n: nat): nat
    requires x < |cubes| && n <= |cubes[x]|
  {
    if n == 0 then 0 else SlabFaceCount(cubes, x, n - 1) + RowFaceCount(cubes, x, n - 1, |cubes[x][n - 1]|)
  }

  /** The number of exposed faces in the first `n` slabs. */
  function GridFaceCount(cubes: Grid, n: nat): nat
    requires n <= |cubes|
  {
    if n == 0 then 0 else GridFaceCount(cubes, n - 1) + SlabFaceCount(cubes, n - 1, |cubes[n - 1]|)
  }

  /** The number of exposed faces of the whole grid. */
  function FaceCount(cubes: Grid): nat {
    GridFaceCount(cubes, |cubes|)
  }

  /** Each selected face contributes exactly six vertices. */
  lemma {:induction false} FacesVerticesLength(m: Mesh, ds: seq<Direction>)
    requires FitsMesh(m, ds) && None !in ds
    ensures |FacesVertices(m, ds)| == FaceVertexCount * |ds|
  {
    if ds != [] {
      assert ds[..|ds| - 1] + [ds[|ds| - 1]] == ds;
      FacesVerticesLength(m, ds[..|ds| - 1]);
    }
  }

  lemma VoxelVerticesLength(cubes: Grid, x: nat, y: nat, z: nat)
    requires HasCube(cubes, x, y, z) && VoxelFits(cubes, x, y, z)
    ensures |VoxelVertices(cubes, x, y, z)| == FaceVertexCount * |ExposedFaces(cubes, x, y, z)|
  {
    ExposedFacesSpec(cubes, x, y, z);
    FacesVerticesLength(cubes[x][y][z], ExposedFaces(cubes, x, y, z));
  }

  lemma {:induction false} RowVerticesLength(cubes: Grid, x: nat, y: nat, n: nat)
    requires Sliceable(cubes) && HasRow(cubes, x, y) && n <= |cubes[x][y]|
    ensures |RowVertices(cubes, x, y, n)| == FaceVertexCount * RowFaceCount(cubes, x, y, n)
  {
    if n > 0 {
      RowVerticesLength(cubes, x, y, n - 1);
      VoxelVerticesLength(cubes, x, y, n - 1);
    }
  }

  lemma {:induction false} SlabVerticesLength(cubes: Grid, x: nat, n: nat)
    requires Sliceable(cubes) && x < |cubes| && n <= |cubes[x]|
    ensures |SlabVertices(cubes, x, n)| == FaceVertexCount * SlabFaceCount(cubes, x, n)
  {
    if n > 0 {
      SlabVerticesLength(cubes, x, n - 1);
      RowVerticesLength(cubes, x, n - 1, |cubes[x][n - 1]|);
    }
  }

  lemma {:induction false} GridVerticesLength(cubes: Grid, n: nat)
    requires Sliceable(cubes) && n <= |cubes|
    ensures |GridVertices(cubes, n)| == FaceVertexCount * GridFaceCount(cubes, n)
  {
    if n > 0 {
      GridVerticesLength(cubes, n - 1);
      SlabVerticesLength(cubes, n - 1, |cubes[n - 1]|);
    }
  }

  /** The visible stream holds six vertices per exposed face, and nothing else. */
  lemma VisibleVerticesLength(cubes: Grid)
    requires Sliceable(cubes)
    ensures |VisibleVertices(cubes)| == FaceVertexCount * FaceCount(cubes)
    ensures VisibleVertices(cubes) == [] <==> FaceCount(cubes) == 0
  {
    GridVerticesLength(cubes, |cubes|);
  }

  /** Width of the draw count and of the index values (`u32`). */
  const U32Modulus: nat := 0x1_0000_0000

  /** Renderer start-up, geometry part: builds the visible stream, copies it
      vertex by vertex into the vertex data, and derives the draw count and the
      index list `0, 1, ..., count - 1`, the count being the stream length
      truncated to 32 bits. */
  method UploadVertices(shapeData: Grid) returns (vertexData: seq<Vertex>, numVertices: nat, indexData: seq<nat>)
    requires Sliceable(shapeData)
    ensures vertexData == VisibleVertices(shapeData)
    ensures |vertexData| == FaceVertexCount * FaceCount(shapeData)
    ensures numVertices == |vertexData| % U32Modulus
    ensures |indexData| == numVertices && forall i :: 0 <= i < |indexData| ==> indexData[i] == i
  {
    var visibleCubes := GetVisibleCubes(shapeData);
    vertexData := [];
    for x := 0 to |visibleCubes|
      invariant vertexData == visibleCubes[..x]
    {
      vertexData := vertexData + [visibleCubes[x]];
    }
    assert visibleCubes[..|visibleCubes|] == visibleCubes;
    VisibleVerticesLength(shapeData);
    numVertices := |visibleCubes| % U32Modulus;
    indexData := IndexRange(numVertices);
  }

  /** How many of the two ends of an axis of length `n` coordinate `t` sits on. */
  function Ends(t: nat, n: nat): nat {
    (if t == 0 then 1 else 0) + (if t + 1 == n then 1 else 0)
  }

  /** The sum of `Ends(t, n)` over the first `k` coordinates. */
  function EndsUpTo(n: nat, k: nat): nat {
    if k == 0 then 0 else EndsUpTo(n, k - 1) + Ends(k - 1, n)
  }

  lemma {:induction false} EndsUpToClosed(n: nat, k: nat)
    requires 1 <= n && k <= n
    ensures EndsUpTo(n, k) == (if k > 0 then 1 else 0) + (if k == n then 1 else 0)
  {
    if k > 0 {
      EndsUpToClosed(n, k - 1);
    }
  }

  /** In a dense box a voxel exposes one face per box end it sits on. */
  lemma BoxExposedCount(cubes: Grid, nx: nat, ny: nat, nz: nat, x: nat, y: nat, z: nat)
    requires IsBox(cubes, nx, ny, nz) && HasCube(cubes, x, y, z)
    ensures |ExposedFaces(cubes, x, y, z)| == Ends(x, nx) + Ends(y, ny) + Ends(z, nz)
  {
    ExposedFacesPushes(cubes, x, y, z);
    assert Reported(cubes, x, y, z, X) <==> x + 1 == nx by {
      if x + 1 < nx { assert HasCube(cubes, x + 1, y, z); }
    }
    assert Reported(cubes, x, y, z, Y) <==> y + 1 == ny by {
      if y + 1 < ny { assert HasCube(cubes, x, y + 1, z); }
    }
    assert Reported(cubes, x, y, z, NegX) <==> x == 0 by {
      if x > 0 { assert HasCube(cubes, x - 1, y, z); }
    }
    assert Reported(cubes, x, y, z, NegY) <==> y == 0 by {
      if y > 0 { assert HasCube(cubes, x, y - 1, z); }
    }
  }

  /** Adding one more term `c` to `k - 1` copies of it. */
  lemma MulStep(k: nat, c: nat)
    requires k >= 1
    ensures (k - 1) * c + c == k * c
  {
  }

  lemma DistributeLeft(a: nat, b: nat, c: nat)
    ensures a * (b + c) == a * b + a * c
  {
  }

  lemma MulAssociative(a: nat, b: nat, c: nat)
    ensures a * (b * c) == (a * b) * c
  {
  }

  lemma {:induction false} BoxRowFaceCount(cubes: Grid, nx: nat, ny: nat, nz: nat, x: nat, y: nat, k: nat)
    requires IsBox(cubes, nx, ny, nz) && x < nx && y < ny && k <= nz
    ensures RowFaceCount(cubes, x, y, k) == k * (Ends(x, nx) + Ends(y, ny)) + EndsUpTo(nz, k)
  {
    if k > 0 {
      BoxRowFaceCount(cubes, nx, ny, nz, x, y, k - 1);
      BoxExposedCount(cubes, nx, ny, nz, x, y, k - 1);
      MulStep(k, Ends(x, nx) + Ends(y, ny));
    }
  }

  lemma {:induction false} BoxSlabFaceCount(cubes: Grid, nx: nat, ny: nat, nz: nat, x: nat, k: nat)
    requires IsBox(cubes, nx, ny, nz) && 1 <= nz && x < nx && k <= ny
    ensures SlabFaceCount(cubes, x, k) == k * (nz * Ends(x, nx)) + nz * EndsUpTo(ny, k) + 2 * k
  {
    if k > 0 {
      BoxSlabFaceCount(cubes, nx, ny, nz, x, k - 1);
      BoxRowFaceCount(cubes, nx, ny, nz, x, k - 1, nz);
      EndsUpToClosed(nz, nz);
      var ex, ey := Ends(x, nx), Ends(k - 1, ny);
      DistributeLeft(nz, ex, ey);
      DistributeLeft(nz, EndsUpTo(ny, k - 1), ey);
      MulStep(k, nz * ex);
    }
  }

  lemma {:induction false} BoxGridFaceCount(cubes: Grid, nx: nat, ny: nat, nz: nat, k: nat)
    requires IsBox(cubes, nx, ny, nz) && 1 <= ny && 1 <= nz && k <= nx
    ensures GridFaceCount(cubes, k) == (ny * nz) * EndsUpTo(nx, k) + k * (2 * nz + 2 * ny)
  {
    if k > 0 {
      BoxGridFaceCount(cubes, nx, ny, nz, k - 1);
      BoxSlabFaceCount(cubes, nx, ny, nz, k - 1, ny);
      EndsUpToClosed(ny, ny);
      var ex := Ends(k - 1, nx);
      MulAssociative(ny, nz, ex);
      assert SlabFaceCount(cubes, k - 1, ny) == (ny * nz) * ex + (2 * nz + 2 * ny);
      DistributeLeft(ny * nz, EndsUpTo(nx, k - 1), ex);
      MulStep(k, 2 * nz + 2 * ny);
    }
  }

  /** A dense `nx` by `ny` by `nz` box exposes exactly its surface: two faces of
      `ny * nz` cells, two of `nx * nz` and two of `nx * ny`. */
  lemma BoxFaceCount(cubes: Grid, nx: nat, ny: nat, nz: nat)
    requires IsBox(cubes, nx, ny, nz) && 1 <= nx && 1 <= ny && 1 <= nz
    ensures FaceCount(cubes) == 2 * (ny * nz + nx * nz + nx * ny)
  {
    BoxGridFaceCount(cubes, nx, ny, nz, nx);
    EndsUpToClosed(nx, nx);
  }

  /** Two voxels side by side along x hide the faces they share: ten faces
      remain, the first voxel loses +X and the second loses -X. */
  lemma TwoVoxelsAlongX(a: Mesh, b: Mesh)
    ensures FaceCount([[[a]], [[b]]]) == 10
    ensures ExposedFaces([[[a]], [[b]]], 0, 0, 0) == [Y, Z, NegX, NegY, NegZ]
    ensures ExposedFaces([[[a]], [[b]]], 1, 0, 0) == [X, Y, Z, NegY, NegZ]
  {
    var cubes := [[[a]], [[b]]];
    assert IsBox(cubes, 2, 1, 1);
    BoxFaceCount(cubes, 2, 1, 1);
    ExposedFacesPushes(cubes, 0, 0, 0);
    ExposedFacesPushes(cubes, 1, 0, 0);
  }
}
