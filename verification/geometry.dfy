/** The value types of the renderer: points, triangles and meshes (src/index.js:3-39). */
module Geometry {

  /** A point or direction in 3D space; the source's `Vector`. */
  datatype Vec3 = Vec3(x: real, y: real, z: real)

  /** `new Vector()`: every constructor argument defaults to 0. */
  const Origin: Vec3 := Vec3(0.0, 0.0, 0.0)

  /** An ordered triple of corners; the source keeps them in `vectors[0..2]`. */
  datatype Triangle = Triangle(v0: Vec3, v1: Vec3, v2: Vec3)

  /** An ordered collection of triangles describing one object. */
  datatype Mesh = Mesh(triangles: seq<Triangle>)

  /** `Vector.prototype.toArray`. */
  function ToArray(v: Vec3): seq<real> {
    [v.x, v.y, v.z]
  }

  /** Element `i` of an array spread into the `Vector` constructor: a missing
      argument takes the default 0, and arguments past the third are ignored. */
  function ArgOrZero(a: seq<real>, i: nat): real {
    if i < |a| then a[i] else 0.0
  }

  /** `new Vector(...a)`. */
  function FromArray(a: seq<real>): Vec3 {
    Vec3(ArgOrZero(a, 0), ArgOrZero(a, 1), ArgOrZero(a, 2))
  }

  /** `Triangle.FromArrays(a, b, c)`. */
  function TriangleFromArrays(a: seq<real>, b: seq<real>, c: seq<real>): Triangle {
    Triangle(FromArray(a), FromArray(b), FromArray(c))
  }

  /** The `vectors` array of a triangle, in corner order. */
  function Corners(t: Triangle): seq<Vec3> {
    [t.v0, t.v1, t.v2]
  }

  /** Every corner of every triangle of a mesh, triangle by triangle. */
  function MeshCorners(ts: seq<Triangle>): (r: seq<Vec3>)
    ensures |r| == 3 * |ts|
    ensures forall i, k :: 0 <= i < |ts| && 0 <= k < 3 ==> r[3 * i + k] == Corners(ts[i])[k]
  {
    if |ts| == 0 then []
    else
      var rest := MeshCorners(ts[1..]);
      assert forall i, k :: 1 <= i < |ts| && 0 <= k < 3 ==> rest[3 * (i - 1) + k] == Corners(ts[i])[k];
      Corners(ts[0]) + rest
  }

  /** A vector converted to an array and back is the same vector. */
  lemma FromArrayToArray(v: Vec3)
    ensures FromArray(ToArray(v)) == v
  {
  }

  /** Rebuilding a triangle from its corners' arrays gives the same triangle,
      so the pipeline's array round trips between stages change nothing. */
  lemma TriangleFromArraysOfCorners(t: Triangle)
    ensures TriangleFromArrays(ToArray(t.v0), ToArray(t.v1), ToArray(t.v2)) == t
  {
    FromArrayToArray(t.v0);
    FromArrayToArray(t.v1);
    FromArrayToArray(t.v2);
  }

  /** A three-element array converted to a vector and back is the same array. */
  lemma ToArrayFromArray(a: seq<real>)
    requires |a| == 3
    ensures ToArray(FromArray(a)) == a
  {
  }

  /** Spreading a short array fills the missing coordinates with 0, and extra
      elements are dropped: only the first three elements matter. */
  lemma FromArrayPadsWithZero(a: seq<real>)
    ensures forall i :: |a| <= i < 3 ==> ToArray(FromArray(a))[i] == 0.0
    ensures forall i :: 0 <= i < 3 && i < |a| ==> ToArray(FromArray(a))[i] == a[i]
    ensures FromArray([]) == Origin
    ensures |a| >= 3 ==> FromArray(a) == FromArray(a[..3])
  {
  }
}
