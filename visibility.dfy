/** Face culling for a voxel grid: which faces of a voxel are exposed
    (`CheckVisibility`), the flat vertex stream of all exposed faces
    (`GetVisibleCubes`), and the copy of that stream into the vertex and index
    data that is uploaded for drawing (`UploadVertices`).

    The grid is a three-level ragged container indexed `[x][y][z]`; a voxel
    exists at (x, y, z) exactly when every level holds an entry there. */
module Visibility {
  import opened VertexData
  import Wrappers

  /** A face direction as the visibility check reports it. `None` is declared
      but never reported. */
  datatype Direction = X | Y | Z | NegX | NegY | NegZ | None

  type Grid = seq<seq<seq<Mesh>>>

  /** The row `cubes[x][y]` exists. */
  predicate HasRow(cubes: Grid, x: nat, y: nat) {
    x < |cubes| && y < |cubes[x]|
  }

  /** The grid holds an entry at (x, y, z). */
  predicate HasCube(cubes: Grid, x: nat, y: nat, z: nat) {
    HasRow(cubes, x, y) && z < |cubes[x][y]|
  }

  /** The grid holds an entry at the integer point (x, y, z); a negative
      coordinate never holds one. */
  predicate Occupied(cubes: Grid, x: int, y: int, z: int) {
    0 <= x && 0 <= y && 0 <= z && HasCube(cubes, x, y, z)
  }

  /** The rule by which the visibility check reports each direction, as the
      check is written: the positive x and y directions count a missing slab,
      row or cell as "no neighbour"; the other four directions report nothing
      when the slab or row they look into is missing; a zero coordinate always
      reports its negative direction. */
  predicate Reported(cubes: Grid, x: nat, y: nat, z: nat, d: Direction) {
    match d
    case X => !HasCube(cubes, x + 1, y, z)
    case Y => !HasCube(cubes, x, y + 1, z)
    case Z => HasRow(cubes, x, y) && !HasCube(cubes, x, y, z + 1)
    case NegX => x == 0 || (HasRow(cubes, x - 1, y) && !HasCube(cubes, x - 1, y, z))
    case NegY => y == 0 || (HasRow(cubes, x, y - 1) && !HasCube(cubes, x, y - 1, z))
    case NegZ => z == 0 || (HasRow(cubes, x, y) && !HasCube(cubes, x, y, z - 1))
    case None => false
  }

  /** The position of a direction in the fixed report order X, Y, Z, NegX, NegY, NegZ. */
  function Rank(d: Direction): nat {
    match d
    case X => 0
    case Y => 1
    case Z => 2
    case NegX => 3
    case NegY => 4
    case NegZ => 5
    case None => 6
  }

  const ReportOrder: seq<Direction> := [X, Y, Z, NegX, NegY, NegZ]

  /** Strictly increasing in report order, hence free of repetitions. */
  predicate Increasing(ds: seq<Direction>) {
    forall i, j :: 0 <= i < j < |ds| ==> Rank(ds[i]) < Rank(ds[j])
  }

  lemma ReportOrderRanks()
    ensures forall i :: 0 <= i < |ReportOrder| ==> Rank(ReportOrder[i]) == i
  {
  }

  /** The one-element list `[d]` when `d` is reported, else the empty list. */
  function Pushed(cubes: Grid, x: nat, y: nat, z: nat, d: Direction): seq<Direction> {
    if Reported(cubes, x, y, z, d) then [d] else []
  }

  /** The reported directions among the first `k` of the report order, in that order. */
  function ReportedAmong(cubes: Grid, x: nat, y: nat, z: nat, k: nat): seq<Direction>
    requires k <= |ReportOrder|
  {
    if k == 0 then [] else ReportedAmong(cubes, x, y, z, k - 1) + Pushed(cubes, x, y, z, ReportOrder[k - 1])
  }

  /** Filtering a prefix of the report order keeps exactly the reported directions of
      that prefix, each once and in report order. */
  lemma {:induction false} ReportedAmongSpec(cubes: Grid, x: nat, y: nat, z: nat, k: nat)
    requires k <= |ReportOrder|
    ensures var r := ReportedAmong(cubes, x, y, z, k);
            && (forall d :: d in r <==> d in ReportOrder[..k] && Reported(cubes, x, y, z, d))
            && (forall i :: 0 <= i < |r| ==> Rank(r[i]) < k)
            && Increasing(r)
            && |r| <= k
  {
    if k > 0 {
      var rest, d := ReportedAmong(cubes, x, y, z, k - 1), ReportOrder[k - 1];
      ReportedAmongSpec(cubes, x, y, z, k - 1);
      ReportOrderRanks();
      assert Rank(d) == k - 1;
      assert ReportOrder[..k] == ReportOrder[..k - 1] + [d];
      assert ReportedAmong(cubes, x, y, z, k) == rest + Pushed(cubes, x, y, z, d);
    }
  }

  /** The exposed directions of voxel (x, y, z): the reported directions, in report order. */
  function ExposedFaces(cubes: Grid, x: nat, y: nat, z: nat): seq<Direction> {
    ReportedAmong(cubes, x, y, z, |ReportOrder|)
  }

  /** The exposed directions of a voxel are exactly the reported ones, each once,
      in the report order X, Y, Z, NegX, NegY, NegZ; `None` is never among them. */
  lemma ExposedFacesSpec(cubes: Grid, x: nat, y: nat, z: nat)
    ensures var r := ExposedFaces(cubes, x, y, z);
            && (forall d :: d in r <==> Reported(cubes, x, y, z, d))
            && Increasing(r)
            && None !in r
            && |r| <= 6
  {
    ReportedAmongSpec(cubes, x, y, z, |ReportOrder|);
    assert ReportOrder[..|ReportOrder|] == ReportOrder;
    assert forall d :: d in ReportOrder <==> d != None;
  }

  /** The exposed directions are one conditional push per direction, in report order. */
  lemma ExposedFacesPushes(cubes: Grid, x: nat, y: nat, z: nat)
    ensures ExposedFaces(cubes, x, y, z)
         == Pushed(cubes, x, y, z, X) + Pushed(cubes, x, y, z, Y) + Pushed(cubes, x, y, z, Z)
          + Pushed(cubes, x, y, z, NegX) + Pushed(cubes, x, y, z, NegY) + Pushed(cubes, x, y, z, NegZ)
  {
    assert ReportedAmong(cubes, x, y, z, 1) == Pushed(cubes, x, y, z, X);
    assert ReportedAmong(cubes, x, y, z, 2) == ReportedAmong(cubes, x, y, z, 1) + Pushed(cubes, x, y, z, Y);
    assert ReportedAmong(cubes, x, y, z, 3) == ReportedAmong(cubes, x, y, z, 2) + Pushed(cubes, x, y, z, Z);
    assert ReportedAmong(cubes, x, y, z, 4) == ReportedAmong(cubes, x, y, z, 3) + Pushed(cubes, x, y, z, NegX);
    assert ReportedAmong(cubes, x, y, z, 5) == ReportedAmong(cubes, x, y, z, 4) + Pushed(cubes, x, y, z, NegY);
    assert ReportedAmong(cubes, x, y, z, 6) == ReportedAmong(cubes, x, y, z, 5) + Pushed(cubes, x, y, z, NegZ);
  }

  /** How far the level-by-level lookup `cubes.get(x)`, then `.get(y)`, then
      `.get(z)` gets before it finds nothing. */
  datatype Probe = MissingSlab | MissingRow | MissingCell | Present

  /** The nested lookup of (x, y, z), one bounds-checked `Get` per level. */
  function ProbeAt(cubes: Grid, x: nat, y: nat, z: nat): (p: Probe)
    ensures p == MissingSlab <==> x >= |cubes|
    ensures p == MissingRow <==> x < |cubes| && y >= |cubes[x]|
    ensures p == MissingCell <==> HasRow(cubes, x, y) && !HasCube(cubes, x, y, z)
    ensures p == Present <==> HasCube(cubes, x, y, z)
  {
    match Wrappers.Get(cubes, x)
    case None => MissingSlab
    case Some(slab) =>
      match Wrappers.Get(slab, y)
      case None => MissingRow
      case Some(row) =>
        match Wrappers.Get(row, z)
        case None => MissingCell
        case Some(_) => Present
  }

  /** Which directions of voxel (x, y, z) have no neighbour, pushed in the order
      X, Y, Z, NegX, NegY, NegZ. The positive x and y probes push on any missing
      level; the other probes push only when the slab and row exist and the
      cell does not; a zero coordinate pushes its negative direction unprobed. */
  method CheckVisibility(x: nat, y: nat, z: nat, cubes: Grid) returns (directions: seq<Direction>)
    ensures directions == ExposedFaces(cubes, x, y, z)
  {
    directions := [];
    if ProbeAt(cubes, x + 1, y, z) != Present {
      directions := directions + [X];
    }
    assert directions == Pushed(cubes, x, y, z, X);
    ghost var afterX := directions;
    if ProbeAt(cubes, x, y + 1, z) != Present {
      directions := directions + [Y];
    }
    assert directions == afterX + Pushed(cubes, x, y, z, Y);
    ghost var afterY := directions;
    if ProbeAt(cubes, x, y, z + 1) == MissingCell {
      directions := directions + [Z];
    }
    assert directions == afterY + Pushed(cubes, x, y, z, Z);
    ghost var afterZ := directions;
    if x == 0 {
      directions := directions + [NegX];
    } else if ProbeAt(cubes, x - 1, y, z) == MissingCell {
      directions := directions + [NegX];
    }
    assert directions == afterZ + Pushed(cubes, x, y, z, NegX);
    ghost var afterNegX := directions;
    if y == 0 {
      directions := directions + [NegY];
    } else if ProbeAt(cubes, x, y - 1, z) == MissingCell {
      directions := directions + [NegY];
    }
    assert directions == afterNegX + Pushed(cubes, x, y, z, NegY);
    ghost var afterNegY := directions;
    if z == 0 {
      directions := directions + [NegZ];
    } else if ProbeAt(cubes, x, y, z - 1) == MissingCell {
      directions := directions + [NegZ];
    }
    assert directions == afterNegY + Pushed(cubes, x, y, z, NegZ);
    ExposedFacesPushes(cubes, x, y, z);
  }

  /** The integer point one step from (x, y, z) in direction `d`. */
  function Neighbour(x: nat, y: nat, z: nat, d: Direction): (int, int, int) {
    match d
    case X => (x + 1, y, z)
    case Y => (x, y + 1, z)
    case Z => (x, y, z + 1)
    case NegX => (x - 1, y, z)
    case NegY => (x, y - 1, z)
    case NegZ => (x, y, z - 1)
    case None => (x, y, z)
  }

  /** The neighbour rule: a face is exposed exactly when the grid holds no entry one
      step beyond it (a step below zero holds none). */
  predicate Open(cubes: Grid, x: nat, y: nat, z: nat, d: Direction) {
    var (nx, ny, nz) := Neighbour(x, y, z, d);
    !Occupied(cubes, nx, ny, nz)
  }

  /** A dense box: `nx` slabs of `ny` rows of `nz` voxels each. */
  ghost predicate IsBox(cubes: Grid, nx: nat, ny: nat, nz: nat) {
    && |cubes| == nx
    && (forall x :: 0 <= x < nx ==> |cubes[x]| == ny)
    && (forall x, y :: 0 <= x < nx && 0 <= y < ny ==> |cubes[x][y]| == nz)
  }

  /** +X and +Y are reported exactly when the next slab, or the next row, or the
      cell in it is missing. */
  lemma PositiveXYRule(cubes: Grid, x: nat, y: nat, z: nat)
    ensures X in ExposedFaces(cubes, x, y, z) <==> !HasCube(cubes, x + 1, y, z)
    ensures Y in ExposedFaces(cubes, x, y, z) <==> !HasCube(cubes, x, y + 1, z)
  {
    ExposedFacesSpec(cubes, x, y, z);
  }

  /** +Z is reported exactly when row `cubes[x][y]` exists and has no index
      z + 1; when the slab or the row is missing, nothing is reported. */
  lemma PositiveZRule(cubes: Grid, x: nat, y: nat, z: nat)
    ensures Z in ExposedFaces(cubes, x, y, z) <==> HasRow(cubes, x, y) && |cubes[x][y]| <= z + 1
  {
    ExposedFacesSpec(cubes, x, y, z);
  }

  /** A zero coordinate always reports that axis's negative direction. */
  lemma ZeroCoordinateRule(cubes: Grid, x: nat, y: nat, z: nat)
    ensures x == 0 ==> NegX in ExposedFaces(cubes, x, y, z)
    ensures y == 0 ==> NegY in ExposedFaces(cubes, x, y, z)
    ensures z == 0 ==> NegZ in ExposedFaces(cubes, x, y, z)
  {
    ExposedFacesSpec(cubes, x, y, z);
  }

  /** For a positive coordinate, a negative direction is reported exactly when
      the slab and row one step back exist and the cell in it does not. */
  lemma NegativeRules(cubes: Grid, x: nat, y: nat, z: nat)
    ensures x > 0 ==> (NegX in ExposedFaces(cubes, x, y, z) <==>
                         HasRow(cubes, x - 1, y) && |cubes[x - 1][y]| <= z)
    ensures y > 0 ==> (NegY in ExposedFaces(cubes, x, y, z) <==>
                         HasRow(cubes, x, y - 1) && |cubes[x][y - 1]| <= z)
    ensures z > 0 ==> (NegZ in ExposedFaces(cubes, x, y, z) <==>
                         HasRow(cubes, x, y) && |cubes[x][y]| <= z - 1)
  {
    ExposedFacesSpec(cubes, x, y, z);
  }

  /** For a voxel that is in the grid, every direction but -X follows the neighbour
      rule, even on a ragged grid; -X is reported only when it is open, but an
      open -X can go unreported. */
  lemma InGridRules(cubes: Grid, x: nat, y: nat, z: nat)
    requires HasCube(cubes, x, y, z)
    ensures forall d :: d != NegX && d != None ==>
              (d in ExposedFaces(cubes, x, y, z) <==> Open(cubes, x, y, z, d))
    ensures NegX in ExposedFaces(cubes, x, y, z) ==> Open(cubes, x, y, z, NegX)
    ensures z > 0 ==> NegZ !in ExposedFaces(cubes, x, y, z)
  {
    ExposedFacesSpec(cubes, x, y, z);
  }

  /** On a dense box every direction of every voxel follows the neighbour rule:
      a face is exposed exactly when no voxel lies beyond it. */
  lemma BoxRules(cubes: Grid, nx: nat, ny: nat, nz: nat, x: nat, y: nat, z: nat)
    requires IsBox(cubes, nx, ny, nz) && HasCube(cubes, x, y, z)
    ensures forall d :: d != None ==>
              (d in ExposedFaces(cubes, x, y, z) <==> Open(cubes, x, y, z, d))
  {
    ExposedFacesSpec(cubes, x, y, z);
    if x > 0 {
      assert HasCube(cubes, x - 1, y, z);
    }
  }

  /** On a ragged grid the -X face of an in-grid voxel can stay unreported with
      no voxel beyond it: slab 0 has one row, so voxel (1, 1, 0) looks up row 1
      of slab 0, finds none, and reports nothing. */
  lemma NegXMissedOnRaggedGrid(m: Mesh)
    ensures var cubes := [[[m]], [[m], [m]]];
            && HasCube(cubes, 1, 1, 0)
            && Open(cubes, 1, 1, 0, NegX)
            && NegX !in ExposedFaces(cubes, 1, 1, 0)
  {
    var cubes := [[[m]], [[m], [m]]];
    ExposedFacesSpec(cubes, 1, 1, 0);
  }

  /** A lone voxel exposes all six faces, in report order. */
  lemma LoneVoxelExposesAll(m: Mesh)
    ensures ExposedFaces([[[m]]], 0, 0, 0) == ReportOrder
  {
    ExposedFacesPushes([[[m]]], 0, 0, 0);
  }

  /** Soundness on any grid, for any coordinate: every reported direction is
      open, i.e. no voxel lies one step beyond it. */
  lemma ReportedFacesAreOpen(cubes: Grid, x: nat, y: nat, z: nat)
    ensures forall d :: d in ExposedFaces(cubes, x, y, z) ==> Open(cubes, x, y, z, d)
  {
    ExposedFacesSpec(cubes, x, y, z);
  }

  /** A voxel whose six neighbours are all present exposes no face. */
  lemma EnclosedVoxelHidden(cubes: Grid, x: nat, y: nat, z: nat)
    requires forall d :: d != None ==> !Open(cubes, x, y, z, d)
    ensures ExposedFaces(cubes, x, y, z) == []
  {
    ExposedFacesPushes(cubes, x, y, z);
    assert !Open(cubes, x, y, z, X) && !Open(cubes, x, y, z, Y) && !Open(cubes, x, y, z, Z);
    assert !Open(cubes, x, y, z, NegX) && !Open(cubes, x, y, z, NegY) && !Open(cubes, x, y, z, NegZ);
  }
}
