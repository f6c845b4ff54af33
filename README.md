# Voxel face culling and cube meshes

This project models the geometry core of a small voxel renderer. The renderer
draws a block of unit cubes, and only the cube faces that no neighbouring
voxel covers are sent to the GPU.

- `vertex_data.dfy` (module `VertexData`) covers the cube mesh. It models the
  constant per-vertex tables: colours, normals and texture coordinates. It
  models the generator of the 36 corner positions and `create_cube`, which
  scales the unit cube and zips it with the tables into a `Mesh`. Floats are
  modelled as `real`.
- `visibility.dfy` (module `Visibility`) covers the visibility check. For one
  grid coordinate it reports the exposed directions, in the fixed order X, Y,
  Z, NegX, NegY, NegZ. The method `CheckVisibility` mirrors the source's
  lookups and pushes. It is proved equal to the specification function
  `ExposedFaces`, and the lemmas about `ExposedFaces` state the rules.
- `mesh_builder.dfy` (module `MeshBuilder`) builds the visible vertex stream.
  `GetVisibleCubes` walks the grid x, then y, then z. For every reported
  direction it appends the fixed six-vertex slice of the voxel's mesh.
  `UploadVertices` models the geometry part of renderer start-up: the
  vertex-by-vertex copy of that stream, the 32-bit draw count, and the index
  list `0..count`. Further lemmas count faces and vertices and close the count
  for dense boxes.
- `scene.dfy` (module `Scene`) covers the demo scene. It models the triple
  loop that fills a 16 x 16 x 16 grid with unit cubes, and the totals for that
  scene: 1536 exposed faces and 9216 vertices.
- `wrappers.dfy` (module `Wrappers`) holds the bounds-checked lookup that
  returns `None` past the end of a vector.

The model follows the code where it departs from the neighbour rule, under
which a face is exposed exactly when no voxel lies one step beyond it (the
predicate `Visibility.Open`). The code departs from that rule in two ways:

- For +Z, -X, -Y and -Z, the check pushes nothing when the slab or row it looks
  into is missing.
- For a voxel inside the grid, this matters only for -X. On a ragged grid, slab
  x - 1 can have fewer rows than slab x.

`NegXMissedOnRaggedGrid` exhibits such a grid. `ReportedFacesAreOpen` proves
that the code is never wrong in the other direction: every reported face is
open. `InGridRules` proves that the other five directions agree with the
neighbour rule for every voxel in the grid. `BoxRules` proves that all six agree
on dense boxes, which includes the demo scene.

## Model

| member | source | states |
|---|---|---|
| VertexData.CubeColors | src/vertex_data.rs:184-230 | 36 colours; vertex i carries the colour of face i / 6 (front blue, right red, back yellow, left aqua, top green, bottom fuchsia) |
| VertexData.CubeNormals | src/vertex_data.rs:232-278 | 36 normals; vertex i carries the outward unit normal of face i / 6 |
| VertexData.CubeVertices | src/vertex_data.rs:280-327 | 36 positions; vertex i is a corner of the cube of side `side_length` around (cx, cy, cz), lying on the plane of face i / 6 |
| VertexData.CubeTextureCoordinates | src/vertex_data.rs:329-375 | 36 texture coordinates in [0, 1], the same six-entry pattern repeated for every face |
| VertexData.ScaledCubeVertices | src/vertex_data.rs:383-386 | the unit cube generated around `pos` and scaled component-wise by `size` is, entry by entry, the cube generated directly with side `size` around `pos * size` |
| VertexData.ZipVertices | src/vertex_data.rs:387-400 | zip stops at the shortest table; vertex i takes entry i of each table, with w = 1 on position, normal and colour |
| VertexData.CreateCube | src/vertex_data.rs:377-405 | the mesh is a cube mesh around `pos * size` with half side `size / 2`: 36 vertices, each with its face's normal and colour, a corner on its face plane, its texture coordinate, w = 1; indices 0..36 |
| VertexData.ScaledUnitCube | src/vertex_data.rs:383-386 | scaling a unit-cube corner by k gives the corner of the cube of side k around the scaled centre, on the same face plane |
| Visibility.ProbeAt | src/common.rs:151-160 | the nested lookup ends in exactly one of: missing slab, missing row, missing cell, or present, each characterised by the grid's lengths |
| Visibility.CheckVisibility | src/common.rs:149-225 | the returned directions are exactly `ExposedFaces`: the reported directions in the order X, Y, Z, NegX, NegY, NegZ |
| Visibility.ReportedAmongSpec | src/common.rs:149-225 | after the first k checks the result holds exactly the reported directions among the first k, in strictly increasing order, at most k of them |
| Visibility.ExposedFacesSpec | src/common.rs:149-225 | a direction is returned iff it is reported; no duplicates, fixed order, never `None`, at most six |
| Visibility.ExposedFacesPushes | src/common.rs:149-225 | the result is the concatenation of the six conditional pushes in source order |
| Visibility.PositiveXYRule | src/common.rs:151-171 | +X (+Y) is reported iff there is no entry at x + 1 (y + 1), whether the slab, the row or the cell is missing |
| Visibility.PositiveZRule | src/common.rs:172-181 | +Z is reported iff row [x][y] exists and has no index z + 1; a missing slab or row reports nothing |
| Visibility.ZeroCoordinateRule | src/common.rs:182-223 | a zero coordinate always reports that axis's negative direction |
| Visibility.NegativeRules | src/common.rs:182-223 | for a positive coordinate, the negative direction is reported iff the row looked into exists and lacks the cell; a missing slab or row reports nothing |
| Visibility.InGridRules | src/common.rs:149-225 | for a voxel in the grid, every direction except -X is reported iff no voxel lies one step beyond; -X is reported only if none does; -Z is never reported for z > 0 |
| Visibility.BoxRules | src/common.rs:149-225 | on a dense box, each of the six directions is reported iff no voxel lies one step beyond |
| Visibility.NegXMissedOnRaggedGrid | src/common.rs:182-195 | on the ragged grid [[[m]], [[m], [m]]], voxel (1, 1, 0) has no voxel at (0, 1, 0) and still does not report -X |
| Visibility.LoneVoxelExposesAll | src/common.rs:149-225 | a one-voxel grid reports all six directions, in order |
| Visibility.ReportedFacesAreOpen | src/common.rs:149-225 | on any grid, at any coordinate, every reported direction has no voxel one step beyond it |
| Visibility.EnclosedVoxelHidden | src/common.rs:149-225 | a voxel with all six neighbours present reports nothing |
| MeshBuilder.GetVisibleCubes | src/common.rs:227-262 | the result is the visible stream: for each voxel in x, y, z order and each reported direction in order, that direction's six-vertex slice of the voxel's mesh |
| MeshBuilder.FaceRangeSelectsFace | src/common.rs:233-256 | each direction's hard-coded range 6k..6k + 6 covers exactly the vertices of the cube face looking that way, whose normal points along the direction |
| MeshBuilder.SliceFacesDirection | src/common.rs:233-256 | on a cube mesh, the slice for a direction has six vertices, all with the direction's normal and all on that side of the cube |
| MeshBuilder.FullMeshesSliceable | src/common.rs:233-256 | if every voxel's mesh has at least 36 vertices, no slice goes out of range |
| MeshBuilder.FacesVerticesLength | src/common.rs:232-257 | each reported face contributes exactly six vertices |
| MeshBuilder.VoxelVerticesLength | src/common.rs:232-257 | a voxel contributes six vertices per exposed face |
| MeshBuilder.RowVerticesLength | src/common.rs:231-258 | a row prefix contributes six vertices per exposed face in it |
| MeshBuilder.SlabVerticesLength | src/common.rs:230-259 | a slab prefix contributes six vertices per exposed face in it |
| MeshBuilder.GridVerticesLength | src/common.rs:229-260 | a grid prefix contributes six vertices per exposed face in it |
| MeshBuilder.VisibleVerticesLength | src/common.rs:227-262 | the stream holds exactly six vertices per exposed face; it is empty iff no face is exposed |
| MeshBuilder.UploadVertices | src/common.rs:266-275 | the vertex data is the visible stream copied in order, six vertices per exposed face; the draw count is its length truncated to 32 bits; the indices are 0..count |
| MeshBuilder.BoxExposedCount | src/common.rs:149-225 | in a dense box, a voxel exposes one face for each box end it sits on |
| MeshBuilder.BoxRowFaceCount | src/common.rs:149-225 | the exposed faces of a row prefix of a dense box, in closed form |
| MeshBuilder.BoxSlabFaceCount | src/common.rs:149-225 | the exposed faces of a slab prefix of a dense box, in closed form |
| MeshBuilder.BoxGridFaceCount | src/common.rs:149-225 | the exposed faces of a grid prefix of a dense box, in closed form |
| MeshBuilder.BoxFaceCount | src/common.rs:149-225 | a dense nx by ny by nz box exposes exactly its surface: 2 (ny nz + nx nz + nx ny) faces |
| MeshBuilder.TwoVoxelsAlongX | src/common.rs:149-225 | two voxels side by side along x expose ten faces; the shared +X and -X faces are hidden |
| Scene.FillGrid | src/main.rs:87-102 | the triple push loop yields the dense n-cube whose entry [x][y][z] is the entry made for (x, y, z) |
| Scene.BuildGrid | src/main.rs:87-102 | the scene grid is the dense 16-cube of cubes placed at their grid points |
| Scene.GridOfShape | src/main.rs:87-102 | the built grid is a dense n by n by n box holding the entry for (x, y, z) at (x, y, z) |
| Scene.GridOfFaceCount | src/main.rs:87-102 | a dense n-cube exposes 6 n^2 faces |
| Scene.CubeAtPlacement | src/main.rs:96-99 | the cube at grid point (x, y, z) is centred on that point with side 1, so neighbours share faces |
| Scene.DenseGridSliceable | src/main.rs:87-102 | the scene grid never slices out of range |
| Scene.LoadScene | src/main.rs:87-117 | the scene exposes 1536 faces; the uploaded stream is its visible stream, of 9216 vertices, with draw count 9216 and indices 0..9216 |

## Left out

- Camera, projection, camera controller, uniforms, lighting (`light`), shaders, the window and event loop, `resize`, `input`, `update`, `render`, and all GPU buffer and pipeline plumbing, including `Vertex::desc`. These are I/O or foreign calls with no logic to verify. The model stops at the data handed to the buffers.
- `torus_data` and `cube_positions` in `src/vertex_data.rs`, because the scene does not use them.
- Single-precision rounding, because floats are modelled as exact reals. For the small integer coordinates the scene uses, the f32 results are exact anyway.
- Overflow of `x + 1`, `y + 1` and `z + 1` on `usize`, because coordinates are unbounded naturals in the model. The source cannot reach that overflow with in-memory grids.
- The debug print of the stream length in `State::new`, because it is output only.
- Scene.FillGrid takes the entry maker as a function value, because the loop's proof then does not depend on what a cube mesh holds. `BuildGrid` applies it with the source's cube constructor and gap.
- MeshBuilder.SliceFacesDirection is stated for any mesh satisfying `IsCubeMesh`, the property `CreateCube` ensures, and is not restated for `CreateCube` directly.
- MeshBuilder.GetVisibleCubes requires the slicing bounds `Sliceable`. Where a voxel's mesh is too short for a reported face, the source panics, and the model does not model the panic.
