/** The 36-vertex cube mesh that every voxel of the grid carries: the constant
    per-vertex tables (colours, normals, texture coordinates), the position
    generator, and `CreateCube`, which zips them into one `Mesh`.

    Floating-point values are modelled as `real`; single-precision rounding is
    not modelled. */
module VertexData {

  datatype Vec2 = Vec2(u: real, v: real)
  datatype Vec3 = Vec3(x: real, y: real, z: real)
  datatype Vec4 = Vec4(x: real, y: real, z: real, w: real)

  /** One vertex as uploaded to the GPU: homogeneous position, normal and colour,
      plus a texture coordinate. */
  datatype Vertex = Vertex(position: Vec4, normal: Vec4, color: Vec4, texCoords: Vec2)

  /** A mesh: a vertex list and an index list into it (32-bit indices). */
  datatype Mesh = Mesh(vertices: seq<Vertex>, indices: seq<nat>)

  /** The six faces of a cube, in the order in which a cube mesh stores them. */
  datatype Face = Front | Right | Back | Left | Top | Bottom

  /** Number of vertices per face: two triangles, no shared vertices. */
  const FaceVertexCount: nat := 6

  /** Number of vertices of a cube mesh: six faces of six vertices. */
  const CubeVertexCount: nat := 36

  /** The storage order of the faces in a cube mesh. */
  const FaceOrder: seq<Face> := [Front, Right, Back, Left, Top, Bottom]

  /** The face that vertex `i` of a cube mesh belongs to. */
  function FaceAt(i: nat): Face
    requires i < CubeVertexCount
  {
    FaceOrder[i / FaceVertexCount]
  }

  function Xyz(p: Vec4): Vec3 {
    Vec3(p.x, p.y, p.z)
  }

  function Scale(p: Vec3, k: real): Vec3 {
    Vec3(p.x * k, p.y * k, p.z * k)
  }

  /** The outward unit normal of each face (the reference the normal table must agree with). */
  function FaceNormal(f: Face): Vec3 {
    match f
    case Front => Vec3(0.0, 0.0, 1.0)
    case Right => Vec3(1.0, 0.0, 0.0)
    case Back => Vec3(0.0, 0.0, -1.0)
    case Left => Vec3(-1.0, 0.0, 0.0)
    case Top => Vec3(0.0, 1.0, 0.0)
    case Bottom => Vec3(0.0, -1.0, 0.0)
  }

  /** The colour painted on each face: blue, red, yellow, aqua, green, fuchsia. */
  function FaceColor(f: Face): Vec3 {
    match f
    case Front => Vec3(0.0, 0.0, 1.0)
    case Right => Vec3(1.0, 0.0, 0.0)
    case Back => Vec3(1.0, 1.0, 0.0)
    case Left => Vec3(0.0, 1.0, 1.0)
    case Top => Vec3(0.0, 1.0, 0.0)
    case Bottom => Vec3(1.0, 0.0, 1.0)
  }

  /** Point `p` lies on the plane of face `f` of the cube with centre `c` and half side `h`. */
  predicate OnFacePlane(f: Face, p: Vec3, c: Vec3, h: real) {
    match f
    case Front => p.z == c.z + h
    case Right => p.x == c.x + h
    case Back => p.z == c.z - h
    case Left => p.x == c.x - h
    case Top => p.y == c.y + h
    case Bottom => p.y == c.y - h
  }

  /** Point `p` is one of the eight corners of the cube with centre `c` and half side `h`. */
  predicate IsCorner(p: Vec3, c: Vec3, h: real) {
    && (p.x == c.x - h || p.x == c.x + h)
    && (p.y == c.y - h || p.y == c.y + h)
    && (p.z == c.z - h || p.z == c.z + h)
  }

  predicate IsUnit(r: real) {
    r == 0.0 || r == 1.0
  }

  /** The per-vertex colour table: one colour per face, repeated on its six vertices. */
  function CubeColors(): (r: seq<Vec3>)
    ensures |r| == CubeVertexCount
    ensures forall i :: 0 <= i < |r| ==> r[i] == FaceColor(FaceAt(i))
  {
    [
      // front - blue
      Vec3(0.0, 0.0, 1.0), Vec3(0.0, 0.0, 1.0), Vec3(0.0, 0.0, 1.0),
      Vec3(0.0, 0.0, 1.0), Vec3(0.0, 0.0, 1.0), Vec3(0.0, 0.0, 1.0),
      // right - red
      Vec3(1.0, 0.0, 0.0), Vec3(1.0, 0.0, 0.0), Vec3(1.0, 0.0, 0.0),
      Vec3(1.0, 0.0, 0.0), Vec3(1.0, 0.0, 0.0), Vec3(1.0, 0.0, 0.0),
      // back - yellow
      Vec3(1.0, 1.0, 0.0), Vec3(1.0, 1.0, 0.0), Vec3(1.0, 1.0, 0.0),
      Vec3(1.0, 1.0, 0.0), Vec3(1.0, 1.0, 0.0), Vec3(1.0, 1.0, 0.0),
      // left - aqua
      Vec3(0.0, 1.0, 1.0), Vec3(0.0, 1.0, 1.0), Vec3(0.0, 1.0, 1.0),
      Vec3(0.0, 1.0, 1.0), Vec3(0.0, 1.0, 1.0), Vec3(0.0, 1.0, 1.0),
      // top - green
      Vec3(0.0, 1.0, 0.0), Vec3(0.0, 1.0, 0.0), Vec3(0.0, 1.0, 0.0),
      Vec3(0.0, 1.0, 0.0), Vec3(0.0, 1.0, 0.0), Vec3(0.0, 1.0, 0.0),
      // bottom - fuchsia
      Vec3(1.0, 0.0, 1.0), Vec3(1.0, 0.0, 1.0), Vec3(1.0, 0.0, 1.0),
      Vec3(1.0, 0.0, 1.0), Vec3(1.0, 0.0, 1.0), Vec3(1.0, 0.0, 1.0)
    ]
  }

  /** The per-vertex normal table: each face's outward normal on its six vertices. */
  function CubeNormals(): (r: seq<Vec3>)
    ensures |r| == CubeVertexCount
    ensures forall i :: 0 <= i < |r| ==> r[i] == FaceNormal(FaceAt(i))
  {
    [
      // front
      Vec3(0.0, 0.0, 1.0), Vec3(0.0, 0.0, 1.0), Vec3(0.0, 0.0, 1.0),
      Vec3(0.0, 0.0, 1.0), Vec3(0.0, 0.0, 1.0), Vec3(0.0, 0.0, 1.0),
      // right
      Vec3(1.0, 0.0, 0.0), Vec3(1.0, 0.0, 0.0), Vec3(1.0, 0.0, 0.0),
      Vec3(1.0, 0.0, 0.0), Vec3(1.0, 0.0, 0.0), Vec3(1.0, 0.0, 0.0),
      // back
      Vec3(0.0, 0.0, -1.0), Vec3(0.0, 0.0, -1.0), Vec3(0.0, 0.0, -1.0),
      Vec3(0.0, 0.0, -1.0), Vec3(0.0, 0.0, -1.0), Vec3(0.0, 0.0, -1.0),
      // left
      Vec3(-1.0, 0.0, 0.0), Vec3(-1.0, 0.0, 0.0), Vec3(-1.0, 0.0, 0.0),
      Vec3(-1.0, 0.0, 0.0), Vec3(-1.0, 0.0, 0.0), Vec3(-1.0, 0.0, 0.0),
      // top
      Vec3(0.0, 1.0, 0.0), Vec3(0.0, 1.0, 0.0), Vec3(0.0, 1.0, 0.0),
      Vec3(0.0, 1.0, 0.0), Vec3(0.0, 1.0, 0.0), Vec3(0.0, 1.0, 0.0),
      // bottom
      Vec3(0.0, -1.0, 0.0), Vec3(0.0, -1.0, 0.0), Vec3(0.0, -1.0, 0.0),
      Vec3(0.0, -1.0, 0.0), Vec3(0.0, -1.0, 0.0), Vec3(0.0, -1.0, 0.0)
    ]
  }

  /** The 36 corner positions of the cube with centre (cx, cy, cz) and the given
      side length, face by face, two triangles per face. */
  function CubeVertices(cx: real, cy: real, cz: real, sideLength: real): (r: seq<Vec3>)
    ensures |r| == CubeVertexCount
    ensures forall i :: 0 <= i < |r| ==>
              OnFacePlane(FaceAt(i), r[i], Vec3(cx, cy, cz), sideLength / 2.0)
              && IsCorner(r[i], Vec3(cx, cy, cz), sideLength / 2.0)
  {
    var h := sideLength / 2.0;
    [
      // front
      Vec3(cx - h, cy - h, cz + h), Vec3(cx + h, cy - h, cz + h), Vec3(cx - h, cy + h, cz + h),
      Vec3(cx + h, cy + h, cz + h), Vec3(cx - h, cy + h, cz + h), Vec3(cx + h, cy - h, cz + h),
      // right
      Vec3(cx + h, cy - h, cz + h), Vec3(cx + h, cy - h, cz - h), Vec3(cx + h, cy + h, cz + h),
      Vec3(cx + h, cy + h, cz - h), Vec3(cx + h, cy + h, cz + h), Vec3(cx + h, cy - h, cz - h),
      // back
      Vec3(cx + h, cy - h, cz - h), Vec3(cx - h, cy - h, cz - h), Vec3(cx + h, cy + h, cz - h),
      Vec3(cx - h, cy + h, cz - h), Vec3(cx + h, cy + h, cz - h), Vec3(cx - h, cy - h, cz - h),
      // left
      Vec3(cx - h, cy - h, cz - h), Vec3(cx - h, cy - h, cz + h), Vec3(cx - h, cy + h, cz - h),
      Vec3(cx - h, cy + h, cz + h), Vec3(cx - h, cy + h, cz - h), Vec3(cx - h, cy - h, cz + h),
      // top
      Vec3(cx - h, cy + h, cz + h), Vec3(cx + h, cy + h, cz + h), Vec3(cx - h, cy + h, cz - h),
      Vec3(cx + h, cy + h, cz - h), Vec3(cx - h, cy + h, cz - h), Vec3(cx + h, cy + h, cz + h),
      // bottom
      Vec3(cx - h, cy - h, cz - h), Vec3(cx + h, cy - h, cz - h), Vec3(cx - h, cy - h, cz + h),
      Vec3(cx + h, cy - h, cz + h), Vec3(cx - h, cy - h, cz + h), Vec3(cx + h, cy - h, cz - h)
    ]
  }

  /** The texture coordinates: the same six-entry pattern on every face, with
      the v axis flipped (`1.0 - v`). */
  function CubeTextureCoordinates(): (r: seq<Vec2>)
    ensures |r| == CubeVertexCount
    ensures forall i :: FaceVertexCount <= i < |r| ==> r[i] == r[i - FaceVertexCount]
    ensures forall i :: 0 <= i < |r| ==> IsUnit(r[i].u) && IsUnit(r[i].v)
  {
    [
      // front
      Vec2(0.0, 1.0 - 0.0), Vec2(1.0, 1.0 - 0.0), Vec2(0.0, 1.0 - 1.0),
      Vec2(1.0, 1.0 - 1.0), Vec2(0.0, 1.0 - 1.0), Vec2(1.0, 1.0 - 0.0),
      // right
      Vec2(0.0, 1.0 - 0.0), Vec2(1.0, 1.0 - 0.0), Vec2(0.0, 1.0 - 1.0),
      Vec2(1.0, 1.0 - 1.0), Vec2(0.0, 1.0 - 1.0), Vec2(1.0, 1.0 - 0.0),
      // back
      Vec2(0.0, 1.0 - 0.0), Vec2(1.0, 1.0 - 0.0), Vec2(0.0, 1.0 - 1.0),
      Vec2(1.0, 1.0 - 1.0), Vec2(0.0, 1.0 - 1.0), Vec2(1.0, 1.0 - 0.0),
      // left
      Vec2(0.0, 1.0 - 0.0), Vec2(1.0, 1.0 - 0.0), Vec2(0.0, 1.0 - 1.0),
      Vec2(1.0, 1.0 - 1.0), Vec2(0.0, 1.0 - 1.0), Vec2(1.0, 1.0 - 0.0),
      // top
      Vec2(0.0, 1.0 - 0.0), Vec2(1.0, 1.0 - 0.0), Vec2(0.0, 1.0 - 1.0),
      Vec2(1.0, 1.0 - 1.0), Vec2(0.0, 1.0 - 1.0), Vec2(1.0, 1.0 - 0.0),
      // bottom
      Vec2(0.0, 1.0 - 0.0), Vec2(1.0, 1.0 - 0.0), Vec2(0.0, 1.0 - 1.0),
      Vec2(1.0, 1.0 - 1.0), Vec2(0.0, 1.0 - 1.0), Vec2(1.0, 1.0 - 0.0)
    ]
  }

  /** Pairs up two sequences position by position, stopping at the shorter one. */
  function Zip<A, B>(a: seq<A>, b: seq<B>): (r: seq<(A, B)>)
    ensures |r| == Min(|a|, |b|)
    ensures forall i :: 0 <= i < |r| ==> r[i] == (a[i], b[i])
  {
    if a == [] || b == [] then [] else [(a[0], b[0])] + Zip(a[1..], b[1..])
  }

  /** The index list `0, 1, ..., n - 1`. */
  function IndexRange(n: nat): (r: seq<nat>)
    ensures |r| == n
    ensures forall i :: 0 <= i < n ==> r[i] == i
  {
    if n == 0 then [] else IndexRange(n - 1) + [n - 1]
  }

  function ToVertex(position: Vec3, color: Vec3, normal: Vec3, texCoords: Vec2): Vertex {
    Vertex(Vec4(position.x, position.y, position.z, 1.0),
           Vec4(normal.x, normal.y, normal.z, 1.0),
           Vec4(color.x, color.y, color.z, 1.0),
           texCoords)
  }

  /** `v` is a correct vertex `i` of the cube mesh with centre `c` and half side `h`:
      homogeneous coordinates with w = 1, the normal and colour of its face, a
      position that is a cube corner on its face's plane, and texture
      coordinate `i` of the repeating per-face pattern. */
  predicate IsCubeVertex(v: Vertex, i: nat, c: Vec3, h: real)
    requires i < CubeVertexCount
  {
    && v.position.w == 1.0 && v.normal.w == 1.0 && v.color.w == 1.0
    && Xyz(v.normal) == FaceNormal(FaceAt(i))
    && Xyz(v.color) == FaceColor(FaceAt(i))
    && OnFacePlane(FaceAt(i), Xyz(v.position), c, h)
    && IsCorner(Xyz(v.position), c, h)
    && v.texCoords == CubeTextureCoordinates()[i]
  }

  /** `m` is a cube mesh with centre `c` and half side `h`: 36 vertices, each
      the correct vertex for its index. */
  predicate IsCubeMesh(m: Mesh, c: Vec3, h: real) {
    && |m.vertices| == CubeVertexCount
    && forall i :: 0 <= i < |m.vertices| ==> IsCubeVertex(m.vertices[i], i, c, h)
  }

  /** The cube mesh for one voxel: a unit cube around `pos`, with every position
      component then multiplied by `size` (so the centre is scaled as well),
      zipped with the colour, normal and texture tables; indices `0..36`. */
  function CreateCube(pos: Vec3, size: real): (m: Mesh)
    ensures IsCubeMesh(m, Scale(pos, size), size / 2.0)
    ensures m.indices == IndexRange(|m.vertices|)
  {
    var unit := CubeVertices(pos.x, pos.y, pos.z, 1.0);
    var position := ScalePositions(unit, size);
    var colors, normals, texCoords := CubeColors(), CubeNormals(), CubeTextureCoordinates();
    var vertices := ZipVertices(position, colors, normals, texCoords);
    assert forall i :: 0 <= i < |vertices| ==> IsCubeVertex(vertices[i], i, Scale(pos, size), size / 2.0)
    by {
      forall i | 0 <= i < |vertices|
        ensures IsCubeVertex(vertices[i], i, Scale(pos, size), size / 2.0)
      {
        assert vertices[i] == ToVertex(position[i], colors[i], normals[i], texCoords[i]);
        ScaledUnitCube(FaceAt(i), unit[i], pos, size);
      }
    }
    Mesh(vertices, IndexRange(|vertices|))
  }

  /** Multiplies every component of every position by `size`. */
  function ScalePositions(positions: seq<Vec3>, size: real): (r: seq<Vec3>)
    ensures |r| == |positions|
    ensures forall i :: 0 <= i < |r| ==> r[i] == Scale(positions[i], size)
  {
    seq(|positions|, i requires 0 <= i < |positions| => Scale(positions[i], size))
  }

  /** Zips positions with colours, normals and texture coordinates into vertices
      (stopping at the shortest table), extending each 3-vector with w = 1. */
  function ZipVertices(positions: seq<Vec3>, colors: seq<Vec3>, normals: seq<Vec3>, texCoords: seq<Vec2>)
    : (r: seq<Vertex>)
    ensures |r| == Min(|positions|, Min(|colors|, Min(|normals|, |texCoords|)))
    ensures forall i :: 0 <= i < |r| ==> r[i] == ToVertex(positions[i], colors[i], normals[i], texCoords[i])
  {
    var zipped := Zip(positions, Zip(colors, Zip(normals, texCoords)));
    seq(|zipped|, i requires 0 <= i < |zipped| =>
      ToVertex(zipped[i].0, zipped[i].1.0, zipped[i].1.1.0, zipped[i].1.1.1))
  }

  function Min(a: nat, b: nat): nat {
    if a <= b then a else b
  }

  /** Scaling every coordinate by `k` maps a face plane and a corner of the unit
      cube around `c` to the same face plane and corner of the cube of side `k`
      around `c * k`. */
  lemma ScaledUnitCube(f: Face, p: Vec3, c: Vec3, k: real)
    requires OnFacePlane(f, p, c, 1.0 / 2.0) && IsCorner(p, c, 1.0 / 2.0)
    ensures OnFacePlane(f, Scale(p, k), Scale(c, k), k / 2.0)
    ensures IsCorner(Scale(p, k), Scale(c, k), k / 2.0)
  {
    assert (c.x + 1.0 / 2.0) * k == c.x * k + k / 2.0 && (c.x - 1.0 / 2.0) * k == c.x * k - k / 2.0;
    assert (c.y + 1.0 / 2.0) * k == c.y * k + k / 2.0 && (c.y - 1.0 / 2.0) * k == c.y * k - k / 2.0;
    assert (c.z + 1.0 / 2.0) * k == c.z * k + k / 2.0 && (c.z - 1.0 / 2.0) * k == c.z * k - k / 2.0;
  }

  /** Scaling a unit-cube coordinate `a +- 1/2` by `k` gives `a * k +- k / 2`. */
  lemma ScaleHalf(a: real, k: real)
    ensures (a + 1.0 / 2.0) * k == a * k + k / 2.0
    ensures (a - 1.0 / 2.0) * k == a * k - k / 2.0
  {
  }

  /** The identity below, one face (six vertices) at a time. */
  lemma ScaledFrontFace(c: Vec3, k: real)
    ensures forall i :: 0 <= i < 6 ==>
      Scale(CubeVertices(c.x, c.y, c.z, 1.0)[i], k) == CubeVertices(c.x * k, c.y * k, c.z * k, k)[i]
  {
    ScaleHalf(c.x, k);
    ScaleHalf(c.y, k);
    ScaleHalf(c.z, k);
  }

  lemma ScaledRightFace(c: Vec3, k: real)
    ensures forall i :: 6 <= i < 12 ==>
      Scale(CubeVertices(c.x, c.y, c.z, 1.0)[i], k) == CubeVertices(c.x * k, c.y * k, c.z * k, k)[i]
  {
    ScaleHalf(c.x, k);
    ScaleHalf(c.y, k);
    ScaleHalf(c.z, k);
  }

  lemma ScaledBackFace(c: Vec3, k: real)
    ensures forall i :: 12 <= i < 18 ==>
      Scale(CubeVertices(c.x, c.y, c.z, 1.0)[i], k) == CubeVertices(c.x * k, c.y * k, c.z * k, k)[i]
  {
    ScaleHalf(c.x, k);
    ScaleHalf(c.y, k);
    ScaleHalf(c.z, k);
  }

  lemma ScaledLeftFace(c: Vec3, k: real)
    ensures forall i :: 18 <= i < 24 ==>
      Scale(CubeVertices(c.x, c.y, c.z, 1.0)[i], k) == CubeVertices(c.x * k, c.y * k, c.z * k, k)[i]
  {
    ScaleHalf(c.x, k);
    ScaleHalf(c.y, k);
    ScaleHalf(c.z, k);
  }

  lemma ScaledTopFace(c: Vec3, k: real)
    ensures forall i :: 24 <= i < 30 ==>
      Scale(CubeVertices(c.x, c.y, c.z, 1.0)[i], k) == CubeVertices(c.x * k, c.y * k, c.z * k, k)[i]
  {
    ScaleHalf(c.x, k);
    ScaleHalf(c.y, k);
    ScaleHalf(c.z, k);
  }

  lemma ScaledBottomFace(c: Vec3, k: real)
    ensures forall i :: 30 <= i < 36 ==>
      Scale(CubeVertices(c.x, c.y, c.z, 1.0)[i], k) == CubeVertices(c.x * k, c.y * k, c.z * k, k)[i]
  {
    ScaleHalf(c.x, k);
    ScaleHalf(c.y, k);
    ScaleHalf(c.z, k);
  }

  /** The positions `create_cube` computes, the unit cube around `c` with every
      component scaled by `k`, are exactly the positions generated directly for
      the cube of side `k` around `c * k`, entry by entry. */
  lemma ScaledCubeVertices(c: Vec3, k: real)
    ensures ScalePositions(CubeVertices(c.x, c.y, c.z, 1.0), k) == CubeVertices(c.x * k, c.y * k, c.z * k, k)
  {
    ScaledFrontFace(c, k);
    ScaledRightFace(c, k);
    ScaledBackFace(c, k);
    ScaledLeftFace(c, k);
    ScaledTopFace(c, k);
    ScaledBottomFace(c, k);
  }
}
