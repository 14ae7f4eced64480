/** The hard-coded unit cube `qube` (src/index.js:74-92): two triangles per
    face, faces listed as z = 0, x = 1, z = 1, x = 0, y = 1, y = 0. */
module Cube {
  import opened Geometry

  /** The cube mesh, triangle for triangle and corner for corner as the source lists it. */
  const Qube: Mesh := Mesh([
    Triangle(Origin, Vec3(0.0, 1.0, 0.0), Vec3(1.0, 1.0, 0.0)),
    Triangle(Origin, Vec3(1.0, 1.0, 0.0), Vec3(1.0, 0.0, 0.0)),

    Triangle(Vec3(1.0, 0.0, 0.0), Vec3(1.0, 1.0, 0.0), Vec3(1.0, 1.0, 1.0)),
    Triangle(Vec3(1.0, 0.0, 0.0), Vec3(1.0, 1.0, 1.0), Vec3(1.0, 0.0, 1.0)),

    Triangle(Vec3(1.0, 0.0, 1.0), Vec3(1.0, 1.0, 1.0), Vec3(0.0, 1.0, 1.0)),
    Triangle(Vec3(1.0, 0.0, 1.0), Vec3(0.0, 1.0, 1.0), Vec3(0.0, 0.0, 1.0)),

    Triangle(Vec3(0.0, 0.0, 1.0), Vec3(0.0, 1.0, 1.0), Vec3(0.0, 1.0, 0.0)),
    Triangle(Vec3(0.0, 0.0, 1.0), Vec3(0.0, 1.0, 0.0), Vec3(0.0, 0.0, 0.0)),

    Triangle(Vec3(0.0, 1.0, 0.0), Vec3(0.0, 1.0, 1.0), Vec3(1.0, 1.0, 1.0)),
    Triangle(Vec3(0.0, 1.0, 0.0), Vec3(1.0, 1.0, 1.0), Vec3(1.0, 1.0, 0.0)),

    Triangle(Vec3(1.0, 0.0, 1.0), Vec3(0.0, 0.0, 1.0), Vec3(0.0, 0.0, 0.0)),
    Triangle(Vec3(1.0, 0.0, 1.0), Vec3(0.0, 0.0, 0.0), Vec3(1.0, 0.0, 0.0))
  ])

  /** A coordinate of a unit-cube corner. */
  predicate IsBit(r: real) {
    r == 0.0 || r == 1.0
  }

  /** A corner of the unit cube: every coordinate is 0 or 1. */
  predicate IsCubeCorner(v: Vec3) {
    IsBit(v.x) && IsBit(v.y) && IsBit(v.z)
  }

  /** The eight corners of the unit cube. */
  const AllCorners: set<Vec3> :=
    set x: real, y: real, z: real | x in {0.0, 1.0} && y in {0.0, 1.0} && z in {0.0, 1.0} :: Vec3(x, y, z)

  /** Coordinate `axis` (0 = x, 1 = y, 2 = z) of a point. */
  function Coord(v: Vec3, axis: nat): real
    requires axis < 3
  {
    if axis == 0 then v.x else if axis == 1 then v.y else v.z
  }

  /** The plane of each face, as (axis, value), in the order the mesh lists the faces. */
  const FacePlanes: seq<(nat, real)> := [(2, 0.0), (0, 1.0), (2, 1.0), (0, 0.0), (1, 1.0), (1, 0.0)]

  /** All three corners of `t` lie in the plane `axis = value`. */
  predicate LiesOnPlane(t: Triangle, axis: nat, value: real)
    requires axis < 3
  {
    Coord(t.v0, axis) == value && Coord(t.v1, axis) == value && Coord(t.v2, axis) == value
  }

  /** The cube has 12 triangles and so 36 corner references, and every
      coordinate of every corner is 0 or 1. */
  lemma QubeShape()
    ensures |Qube.triangles| == 12
    ensures |MeshCorners(Qube.triangles)| == 36
    ensures forall i, k :: 0 <= i < 12 && 0 <= k < 3 ==> IsCubeCorner(Corners(Qube.triangles[i])[k])
  {
  }

  /** Each triangle has three distinct corners, every corner is one of the
      eight corners of the unit cube, and each of those eight is used. */
  lemma QubeCoversCube()
    ensures forall i :: 0 <= i < |Qube.triangles| ==>
              var t := Qube.triangles[i]; t.v0 != t.v1 && t.v1 != t.v2 && t.v2 != t.v0
    ensures forall i, k :: 0 <= i < |Qube.triangles| && 0 <= k < 3 ==> Corners(Qube.triangles[i])[k] in AllCorners
    ensures forall c :: c in AllCorners ==> exists i, k :: 0 <= i < |Qube.triangles| && 0 <= k < 3 && Corners(Qube.triangles[i])[k] == c
  {
    var ts := Qube.triangles;
    QubeShape();
    forall i, k | 0 <= i < |ts| && 0 <= k < 3
      ensures Corners(ts[i])[k] in AllCorners
    {
      var v := Corners(ts[i])[k];
      assert IsCubeCorner(v);
      assert v == Vec3(v.x, v.y, v.z);
    }
    forall c | c in AllCorners
      ensures exists i, k :: 0 <= i < |ts| && 0 <= k < 3 && Corners(ts[i])[k] == c
    {
      assert Corners(ts[0])[0] == Vec3(0.0, 0.0, 0.0);
      assert Corners(ts[0])[1] == Vec3(0.0, 1.0, 0.0);
      assert Corners(ts[0])[2] == Vec3(1.0, 1.0, 0.0);
      assert Corners(ts[1])[2] == Vec3(1.0, 0.0, 0.0);
      assert Corners(ts[2])[2] == Vec3(1.0, 1.0, 1.0);
      assert Corners(ts[3])[2] == Vec3(1.0, 0.0, 1.0);
      assert Corners(ts[4])[2] == Vec3(0.0, 1.0, 1.0);
      assert Corners(ts[5])[2] == Vec3(0.0, 0.0, 1.0);
    }
  }

  /** Triangles 2k and 2k + 1 both lie on face k of the cube, and the six
      faces are six different planes. */
  lemma QubeFacePairs()
    ensures |Qube.triangles| == 2 * |FacePlanes|
    ensures forall k :: 0 <= k < 6 ==>
              FacePlanes[k].0 < 3 &&
              LiesOnPlane(Qube.triangles[2 * k], FacePlanes[k].0, FacePlanes[k].1) &&
              LiesOnPlane(Qube.triangles[2 * k + 1], FacePlanes[k].0, FacePlanes[k].1)
    ensures forall j, k :: 0 <= j < k < 6 ==> FacePlanes[j] != FacePlanes[k]
  {
  }
}
