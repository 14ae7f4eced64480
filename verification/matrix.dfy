/** 4x4 matrices in row-major form and the point-times-matrix transform with
    perspective divide (src/index.js:108-120). */
module Matrix {
  import opened Wrappers
  import opened Geometry

  /** Four rows of four entries, indexed `m[row][column]` as the source's nested arrays. */
  predicate IsSquare4(m: seq<seq<real>>) {
    |m| == 4 && forall i :: 0 <= i < 4 ==> |m[i]| == 4
  }

  type Mat4 = m: seq<seq<real>> | IsSquare4(m)
    witness [[0.0, 0.0, 0.0, 0.0], [0.0, 0.0, 0.0, 0.0], [0.0, 0.0, 0.0, 0.0], [0.0, 0.0, 0.0, 0.0]]

  /** The identity matrix. */
  const Identity: Mat4 :=
    [[1.0, 0.0, 0.0, 0.0], [0.0, 1.0, 0.0, 0.0], [0.0, 0.0, 1.0, 0.0], [0.0, 0.0, 0.0, 1.0]]

  /** The homogeneous lift (x, y, z, 1) of a point. */
  function Homogeneous(v: Vec3): seq<real> {
    [v.x, v.y, v.z, 1.0]
  }

  /** Reference definition of entry `j` of the row vector `p` times `m`:
      the sum over the rows `k < |p|` of `p[k] * m[k][j]`. */
  function RowTimes(p: seq<real>, m: Mat4, j: nat): real
    requires |p| <= 4 && j < 4
  {
    if |p| == 0 then 0.0
    else RowTimes(p[..|p| - 1], m, j) + p[|p| - 1] * m[|p| - 1][j]
  }

  /** Entry `j` of the homogeneous product, written out term by term as the
      source does for `w`, `tempX`, `tempY` and `tempZ`. */
  function Weighted(v: Vec3, m: Mat4, j: nat): real
    requires j < 4
  {
    v.x * m[0][j] + v.y * m[1][j] + v.z * m[2][j] + m[3][j]
  }

  /** The homogeneous `w` of a point under a matrix. */
  function W(v: Vec3, m: Mat4): real {
    Weighted(v, m, 3)
  }

  /** The source's single error: "w is 0". */
  datatype TransformError = WIsZero

  /** The source's written-out sums are the row-vector product (x, y, z, 1) * m. */
  lemma {:induction false} WeightedIsRowProduct(v: Vec3, m: Mat4, j: nat)
    requires j < 4
    ensures Weighted(v, m, j) == RowTimes(Homogeneous(v), m, j)
  {
    var p := Homogeneous(v);
    assert p[..0] == [];
    assert p[..1][..0] == p[..0];
    assert p[..2][..1] == p[..1];
    assert p[..3][..2] == p[..2];
    assert p[..4][..3] == p[..3];
    assert p[..4] == p;
    assert RowTimes(p[..1], m, j) == v.x * m[0][j];
    assert RowTimes(p[..2], m, j) == v.x * m[0][j] + v.y * m[1][j];
    assert RowTimes(p[..3], m, j) == v.x * m[0][j] + v.y * m[1][j] + v.z * m[2][j];
  }

  /** `multiply`: applies `m` to the point in homogeneous coordinates and
      divides by `w`. It fails exactly when `w` is 0; otherwise scaling the
      result back by `w` recovers the first three entries of (x, y, z, 1) * m. */
  function Multiply(v: Vec3, m: Mat4): (r: Result<Vec3, TransformError>)
    ensures r.Failure? <==> RowTimes(Homogeneous(v), m, 3) == 0.0
    ensures r.Success? ==>
              var w := RowTimes(Homogeneous(v), m, 3);
              && r.value.x * w == RowTimes(Homogeneous(v), m, 0)
              && r.value.y * w == RowTimes(Homogeneous(v), m, 1)
              && r.value.z * w == RowTimes(Homogeneous(v), m, 2)
  {
    WeightedIsRowProduct(v, m, 0);
    WeightedIsRowProduct(v, m, 1);
    WeightedIsRowProduct(v, m, 2);
    WeightedIsRowProduct(v, m, 3);
    var w := Weighted(v, m, 3);
    if w == 0.0 then Failure(WIsZero)
    else Success(Vec3(Weighted(v, m, 0) / w, Weighted(v, m, 1) / w, Weighted(v, m, 2) / w))
  }

  /** The last column is (0, 0, 0, 1): no projection term. */
  predicate HasUnitLastColumn(m: Mat4) {
    m[0][3] == 0.0 && m[1][3] == 0.0 && m[2][3] == 0.0 && m[3][3] == 1.0
  }

  /** The last column is (0, 0, 0, 0): every point is degenerate. */
  predicate HasZeroLastColumn(m: Mat4) {
    m[0][3] == 0.0 && m[1][3] == 0.0 && m[2][3] == 0.0 && m[3][3] == 0.0
  }

  /** With last column (0, 0, 0, 1) every point has w = 1, so `multiply`
      never fails and does no division: it returns the plain product. */
  lemma UnitLastColumnNeverFails(v: Vec3, m: Mat4)
    requires HasUnitLastColumn(m)
    ensures W(v, m) == 1.0
    ensures Multiply(v, m) == Success(Vec3(Weighted(v, m, 0), Weighted(v, m, 1), Weighted(v, m, 2)))
  {
  }

  /** With last column all zero, `multiply` fails on every point. */
  lemma ZeroLastColumnAlwaysFails(v: Vec3, m: Mat4)
    requires HasZeroLastColumn(m)
    ensures Multiply(v, m) == Failure(WIsZero)
  {
  }

  /** The identity matrix returns its input unchanged. */
  lemma IdentityIsNeutral(v: Vec3)
    ensures HasUnitLastColumn(Identity)
    ensures Multiply(v, Identity) == Success(v)
  {
    UnitLastColumnNeverFails(v, Identity);
  }
}
