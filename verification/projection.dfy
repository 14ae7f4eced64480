/** The perspective projection matrix built once per canvas size
    (`initProjectionMatrix`, src/index.js:94-106). The source derives
    `f = 1 / tan(fov / 2)` with `Math.tan`; here `f` is a parameter. */
module Projection {
  import opened Wrappers
  import opened Geometry
  import opened Matrix
  import opened RealArith

  /** The source can only build the matrix when its divisions are defined. */
  predicate WellFormedLens(height: real, near: real, far: real) {
    height != 0.0 && far != 0.0 && far != near
  }

  /** The depth translation term exactly as the source computes it on src/index.js:102:
      division binds tighter than subtraction, so this is (−far·near)/far − near. */
  function DepthTermAsWritten(near: real, far: real): real
    requires far != 0.0
  {
    (-far * near) / far - near
  }

  /** The textbook depth translation term (−far·near)/(far − near). */
  function DepthTermStandard(near: real, far: real): real
    requires far != near
  {
    (-far * near) / (far - near)
  }

  /** The depth scale far/(far − near) written at [2][2]. */
  function DepthScale(near: real, far: real): real
    requires far != near
  {
    far / (far - near)
  }

  /** A sparse projection matrix with the given depth translation term at [3][2]. */
  function LensMatrix(width: real, height: real, f: real, near: real, far: real, depthTerm: real): Mat4
    requires height != 0.0 && far != near
  {
    [[(width / height) * f, 0.0, 0.0, 0.0],
     [0.0, f, 0.0, 0.0],
     [0.0, 0.0, DepthScale(near, far), 1.0],
     [0.0, 0.0, depthTerm, 0.0]]
  }

  /** `initProjectionMatrix({width, height, fov, near, far})` as written. */
  function ProjectionMatrix(width: real, height: real, f: real, near: real, far: real): Mat4
    requires WellFormedLens(height, near, far)
  {
    LensMatrix(width, height, f, near, far, DepthTermAsWritten(near, far))
  }

  /** The same matrix with the textbook depth term. */
  function StandardProjectionMatrix(width: real, height: real, f: real, near: real, far: real): Mat4
    requires height != 0.0 && far != near
  {
    LensMatrix(width, height, f, near, far, DepthTermStandard(near, far))
  }

  /** The positions the builder writes; every other entry stays 0. */
  predicate IsWrittenSlot(i: int, j: int) {
    (i == 0 && j == 0) || (i == 1 && j == 1) || (i == 2 && j == 2) || (i == 3 && j == 2) || (i == 2 && j == 3)
  }

  /** The projection matrix has the entries the builder assigns and is 0
      everywhere else; the as-written depth term is −2·near. */
  lemma ProjectionShape(width: real, height: real, f: real, near: real, far: real)
    requires WellFormedLens(height, near, far)
    ensures var m := ProjectionMatrix(width, height, f, near, far);
            && m[0][0] == (width / height) * f
            && m[1][1] == f
            && m[2][2] == DepthScale(near, far)
            && m[3][2] == -2.0 * near
            && m[2][3] == 1.0
            && forall i, j :: 0 <= i < 4 && 0 <= j < 4 && !IsWrittenSlot(i, j) ==> m[i][j] == 0.0
  {
    var m := ProjectionMatrix(width, height, f, near, far);
    assert (-far * near) / far == -near;
    forall i, j | 0 <= i < 4 && 0 <= j < 4 && !IsWrittenSlot(i, j)
      ensures m[i][j] == 0.0
    {
    }
  }

  /** Under any lens matrix the homogeneous w of a point is its z, so
      projecting fails exactly at z = 0; otherwise the result times z is
      (aspect·f·x, f·y, z·depthScale + depthTerm): x and y are scaled by their
      lens factors and divided by the depth. */
  lemma LensDividesByDepth(v: Vec3, width: real, height: real, f: real, near: real, far: real, depthTerm: real)
    requires height != 0.0 && far != near
    ensures var m := LensMatrix(width, height, f, near, far, depthTerm);
            && W(v, m) == v.z
            && (Multiply(v, m).Failure? <==> v.z == 0.0)
            && (Multiply(v, m).Success? ==>
                  && Multiply(v, m).value.x * v.z == (width / height) * f * v.x
                  && Multiply(v, m).value.y * v.z == f * v.y
                  && Multiply(v, m).value.z * v.z == v.z * DepthScale(near, far) + depthTerm)
  {
    var m := LensMatrix(width, height, f, near, far, depthTerm);
    WeightedIsRowProduct(v, m, 0);
    WeightedIsRowProduct(v, m, 1);
    WeightedIsRowProduct(v, m, 2);
    WeightedIsRowProduct(v, m, 3);
    assert Weighted(v, m, 0) == (width / height) * f * v.x;
    assert Weighted(v, m, 1) == f * v.y;
    assert Weighted(v, m, 2) == v.z * DepthScale(near, far) + depthTerm;
    assert Weighted(v, m, 3) == v.z;
  }

  /** Projecting with the source's matrix fails exactly when z = 0. */
  lemma ProjectionFailsAtEyePlane(v: Vec3, width: real, height: real, f: real, near: real, far: real)
    requires WellFormedLens(height, near, far)
    ensures W(v, ProjectionMatrix(width, height, f, near, far)) == v.z
    ensures Multiply(v, ProjectionMatrix(width, height, f, near, far)).Failure? <==> v.z == 0.0
  {
    LensDividesByDepth(v, width, height, f, near, far, DepthTermAsWritten(near, far));
  }

  /** Line 102 evaluates to −2·near: (−far·near)/far is −near. */
  lemma AsWrittenDepthTerm(near: real, far: real)
    requires far != 0.0
    ensures DepthTermAsWritten(near, far) == -2.0 * near
  {
    assert -near * far == -far * near;
  }

  /** Arithmetic behind the textbook depth term: with q = far/(far − near),
      near·q + (−far·near)/(far − near) = 0 and far·q + (−far·near)/(far − near) = far. */
  lemma StandardDepthArithmetic(near: real, far: real)
    requires far != near
    ensures near * DepthScale(near, far) + DepthTermStandard(near, far) == 0.0
    ensures far * DepthScale(near, far) + DepthTermStandard(near, far) == far
  {
    var k := far - near;
    var q := DepthScale(near, far);
    var d := DepthTermStandard(near, far);
    assert q * k == far;
    assert d * k == -far * near;
    assert (near * q + d) * k == near * (q * k) + d * k;
    CancelFactor(near * q + d, 0.0, k);
    assert (far * q + d) * k == far * (q * k) + d * k;
    CancelFactor(far * q + d, far, k);
  }

  /** The textbook matrix sends the near plane to depth 0 and the far plane
      to depth 1. */
  lemma StandardDepthRange(x: real, y: real, width: real, height: real, f: real, near: real, far: real)
    requires height != 0.0 && far != near && near != 0.0 && far != 0.0
    ensures Multiply(Vec3(x, y, near), StandardProjectionMatrix(width, height, f, near, far)).Success?
    ensures Multiply(Vec3(x, y, near), StandardProjectionMatrix(width, height, f, near, far)).value.z == 0.0
    ensures Multiply(Vec3(x, y, far), StandardProjectionMatrix(width, height, f, near, far)).Success?
    ensures Multiply(Vec3(x, y, far), StandardProjectionMatrix(width, height, f, near, far)).value.z == 1.0
  {
    var d := DepthTermStandard(near, far);
    StandardDepthArithmetic(near, far);
    LensDividesByDepth(Vec3(x, y, near), width, height, f, near, far, d);
    var zn := Multiply(Vec3(x, y, near), StandardProjectionMatrix(width, height, f, near, far)).value.z;
    CancelFactor(zn, 0.0, near);
    LensDividesByDepth(Vec3(x, y, far), width, height, f, near, far, d);
    var zf := Multiply(Vec3(x, y, far), StandardProjectionMatrix(width, height, f, near, far)).value.z;
    CancelFactor(zf, 1.0, far);
  }

  /** far/(far − near) = 2 exactly when far = 2·near. */
  lemma DepthScaleIsTwo(near: real, far: real)
    requires far != near
    ensures DepthScale(near, far) == 2.0 <==> far == 2.0 * near
  {
    var k := far - near;
    var q := DepthScale(near, far);
    assert q * k == far;
    if q == 2.0 {
      assert far == 2.0 * k;
    }
    if far == 2.0 * near {
      CancelFactor(q, 2.0, k);
    }
  }

  /** Dividing out the near-plane depth: if z·near = near·q − 2·near then z = q − 2. */
  lemma NearPlaneCancel(z: real, q: real, d: real, near: real)
    requires near != 0.0 && z * near == near * q + d && d == -2.0 * near
    ensures z == q - 2.0
  {
    assert (q - 2.0) * near == near * q + d;
    CancelFactor(z, q - 2.0, near);
  }

  /** The source's matrix sends the near plane to depth far/(far − near) − 2,
      which is 0 only when far = 2·near. */
  lemma AsWrittenNearPlaneDepth(x: real, y: real, width: real, height: real, f: real, near: real, far: real)
    requires WellFormedLens(height, near, far) && near != 0.0
    ensures Multiply(Vec3(x, y, near), ProjectionMatrix(width, height, f, near, far)).Success?
    ensures Multiply(Vec3(x, y, near), ProjectionMatrix(width, height, f, near, far)).value.z == DepthScale(near, far) - 2.0
    ensures Multiply(Vec3(x, y, near), ProjectionMatrix(width, height, f, near, far)).value.z == 0.0 <==> far == 2.0 * near
  {
    var d := DepthTermAsWritten(near, far);
    AsWrittenDepthTerm(near, far);
    LensDividesByDepth(Vec3(x, y, near), width, height, f, near, far, d);
    var q := DepthScale(near, far);
    var z := Multiply(Vec3(x, y, near), ProjectionMatrix(width, height, f, near, far)).value.z;
    NearPlaneCancel(z, q, d, near);
    DepthScaleIsTwo(near, far);
  }

  /** With the renderer's lens (near 0.1, far 1000) a point on the near plane
      lands at depth −9998/9999 rather than 0. */
  lemma AsWrittenNearPlaneCounterexample(width: real, height: real, f: real)
    requires height != 0.0
    ensures Multiply(Vec3(0.0, 0.0, 0.1), ProjectionMatrix(width, height, f, 0.1, 1000.0)).Success?
    ensures Multiply(Vec3(0.0, 0.0, 0.1), ProjectionMatrix(width, height, f, 0.1, 1000.0)).value.z == -9998.0 / 9999.0
  {
    AsWrittenNearPlaneDepth(0.0, 0.0, width, height, f, 0.1, 1000.0);
    assert DepthScale(0.1, 1000.0) == 10000.0 / 9999.0;
  }

  /** The depth term never reaches the screen: both matrices fail on the same
      points and give the same x and y. */
  lemma DepthTermDoesNotMoveScreenPoint(v: Vec3, width: real, height: real, f: real, near: real, far: real)
    requires WellFormedLens(height, near, far)
    ensures var a := Multiply(v, ProjectionMatrix(width, height, f, near, far));
            var b := Multiply(v, StandardProjectionMatrix(width, height, f, near, far));
            && a.Failure? == b.Failure?
            && (a.Success? ==> a.value.x == b.value.x && a.value.y == b.value.y)
  {
    var a := Multiply(v, ProjectionMatrix(width, height, f, near, far));
    var b := Multiply(v, StandardProjectionMatrix(width, height, f, near, far));
    LensDividesByDepth(v, width, height, f, near, far, DepthTermAsWritten(near, far));
    LensDividesByDepth(v, width, height, f, near, far, DepthTermStandard(near, far));
    if a.Success? {
      CancelFactor(a.value.x, b.value.x, v.z);
      CancelFactor(a.value.y, b.value.y, v.z);
    }
  }
}
