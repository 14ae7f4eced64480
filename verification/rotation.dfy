/** The per-frame rotation matrices `matRotZ` and `matRotX` (src/index.js:146-160).
    The source fills them from `Math.cos`/`Math.sin` of θ (Z) and of θ/2 (X);
    here the cosine `c` and sine `s` are parameters. */
module Rotation {
  import opened Wrappers
  import opened Geometry
  import opened Matrix

  /** `c` and `s` are the cosine and sine of one angle. */
  predicate OnUnitCircle(c: real, s: real) {
    c * c + s * s == 1.0
  }

  /** `matRotZ`: rotation in the X/Y plane. */
  function RotZ(c: real, s: real): Mat4 {
    [[c, s, 0.0, 0.0], [-s, c, 0.0, 0.0], [0.0, 0.0, 1.0, 0.0], [0.0, 0.0, 0.0, 1.0]]
  }

  /** `matRotX`: rotation in the Y/Z plane. */
  function RotX(c: real, s: real): Mat4 {
    [[1.0, 0.0, 0.0, 0.0], [0.0, c, s, 0.0], [0.0, -s, c, 0.0], [0.0, 0.0, 0.0, 1.0]]
  }

  /** Where a rotation by (c, s) in the X/Y plane takes a point. */
  function ZRotated(v: Vec3, c: real, s: real): Vec3 {
    Vec3(v.x * c - v.y * s, v.x * s + v.y * c, v.z)
  }

  /** Where a rotation by (c, s) in the Y/Z plane takes a point. */
  function XRotated(v: Vec3, c: real, s: real): Vec3 {
    Vec3(v.x, v.y * c - v.z * s, v.y * s + v.z * c)
  }

  /** Applying `matRotZ` never fails and rotates the point in the X/Y plane. */
  lemma RotZApplies(v: Vec3, c: real, s: real)
    ensures HasUnitLastColumn(RotZ(c, s))
    ensures Multiply(v, RotZ(c, s)) == Success(ZRotated(v, c, s))
  {
    var m := RotZ(c, s);
    UnitLastColumnNeverFails(v, m);
    assert Weighted(v, m, 0) == v.x * c + v.y * -s + v.z * 0.0 + 0.0;
    assert Weighted(v, m, 1) == v.x * s + v.y * c + v.z * 0.0 + 0.0;
    assert Weighted(v, m, 2) == v.x * 0.0 + v.y * 0.0 + v.z * 1.0 + 0.0;
    assert Vec3(Weighted(v, m, 0), Weighted(v, m, 1), Weighted(v, m, 2)) == ZRotated(v, c, s);
  }

  /** Applying `matRotX` never fails and rotates the point in the Y/Z plane. */
  lemma RotXApplies(v: Vec3, c: real, s: real)
    ensures HasUnitLastColumn(RotX(c, s))
    ensures Multiply(v, RotX(c, s)) == Success(XRotated(v, c, s))
  {
    var m := RotX(c, s);
    UnitLastColumnNeverFails(v, m);
    assert Weighted(v, m, 0) == v.x * 1.0 + v.y * 0.0 + v.z * 0.0 + 0.0;
    assert Weighted(v, m, 1) == v.x * 0.0 + v.y * c + v.z * -s + 0.0;
    assert Weighted(v, m, 2) == v.x * 0.0 + v.y * s + v.z * c + 0.0;
    assert Vec3(Weighted(v, m, 0), Weighted(v, m, 1), Weighted(v, m, 2)) == XRotated(v, c, s);
  }

  /** (a·c − b·s)² + (a·s + b·c)² = (a² + b²)(c² + s²). */
  lemma PlaneRotationKeepsNorm(a: real, b: real, c: real, s: real)
    requires OnUnitCircle(c, s)
    ensures (a * c - b * s) * (a * c - b * s) + (a * s + b * c) * (a * s + b * c) == a * a + b * b
  {
    calc {
      (a * c - b * s) * (a * c - b * s) + (a * s + b * c) * (a * s + b * c);
      (a * a + b * b) * (c * c + s * s);
      a * a + b * b;
    }
  }

  /** Rotating (a, b) by (c, s) and then by (c, −s) gives back (a, b). */
  lemma PlaneRotationUndo(a: real, b: real, c: real, s: real)
    requires OnUnitCircle(c, s)
    ensures (a * c - b * s) * c - (a * s + b * c) * -s == a
    ensures (a * c - b * s) * -s + (a * s + b * c) * c == b
  {
    calc {
      (a * c - b * s) * c - (a * s + b * c) * -s;
      a * (c * c + s * s);
      a;
    }
    calc {
      (a * c - b * s) * -s + (a * s + b * c) * c;
      b * (c * c + s * s);
      b;
    }
  }

  /** `matRotZ` leaves z unchanged and, for a true rotation, keeps the
      distance x² + y² from the Z axis. */
  lemma RotZIsPlaneRotation(v: Vec3, c: real, s: real)
    requires OnUnitCircle(c, s)
    ensures Multiply(v, RotZ(c, s)).Success?
    ensures Multiply(v, RotZ(c, s)).value.z == v.z
    ensures var r := Multiply(v, RotZ(c, s)).value;
            r.x * r.x + r.y * r.y == v.x * v.x + v.y * v.y
  {
    RotZApplies(v, c, s);
    PlaneRotationKeepsNorm(v.x, v.y, c, s);
  }

  /** `matRotX` leaves x unchanged and, for a true rotation, keeps the
      distance y² + z² from the X axis. */
  lemma RotXIsPlaneRotation(v: Vec3, c: real, s: real)
    requires OnUnitCircle(c, s)
    ensures Multiply(v, RotX(c, s)).Success?
    ensures Multiply(v, RotX(c, s)).value.x == v.x
    ensures var r := Multiply(v, RotX(c, s)).value;
            r.y * r.y + r.z * r.z == v.y * v.y + v.z * v.z
  {
    RotXApplies(v, c, s);
    PlaneRotationKeepsNorm(v.y, v.z, c, s);
  }

  /** Angle 0 (cosine 1, sine 0) leaves every point where it is. */
  lemma RotationByZeroIsIdentity(v: Vec3)
    ensures Multiply(v, RotZ(1.0, 0.0)) == Success(v)
    ensures Multiply(v, RotX(1.0, 0.0)) == Success(v)
  {
    RotZApplies(v, 1.0, 0.0);
    RotXApplies(v, 1.0, 0.0);
  }

  /** For `matRotZ`, whose angle is the frame angle θ, rotating by θ and then
      by 2π − θ (same cosine, opposite sine) returns every point to where it
      started. */
  lemma RotZUndo(v: Vec3, c: real, s: real)
    requires OnUnitCircle(c, s)
    ensures Multiply(Multiply(v, RotZ(c, s)).value, RotZ(c, -s)) == Success(v)
  {
    RotZApplies(v, c, s);
    RotZApplies(ZRotated(v, c, s), c, -s);
    PlaneRotationUndo(v.x, v.y, c, s);
    var r := ZRotated(v, c, s);
    assert r.x * c - r.y * -s == v.x;
    assert r.x * -s + r.y * c == v.y;
    assert ZRotated(r, c, -s) == v;
    assert Multiply(v, RotZ(c, s)).value == r;
  }

  /** The same round trip for `matRotX` in its own angle φ = θ/2: rotating by
      φ and then by 2π − φ is the identity. In frame angles that second
      rotation is the frame at 4π − θ. */
  lemma RotXUndo(v: Vec3, c: real, s: real)
    requires OnUnitCircle(c, s)
    ensures Multiply(Multiply(v, RotX(c, s)).value, RotX(c, -s)) == Success(v)
  {
    RotXApplies(v, c, s);
    RotXApplies(XRotated(v, c, s), c, -s);
    PlaneRotationUndo(v.y, v.z, c, s);
    var r := XRotated(v, c, s);
    assert r.y * c - r.z * -s == v.y;
    assert r.y * -s + r.z * c == v.z;
    assert XRotated(r, c, -s) == v;
    assert Multiply(v, RotX(c, s)).value == r;
  }

  /** The frame at angle 2π − θ builds `matRotX` from π − θ/2, whose cosine
      and sine are (−c, s). Following the frame at θ with it turns every point
      half way round the X axis instead of returning it. */
  lemma RotXFrameHalfTurn(v: Vec3, c: real, s: real)
    requires OnUnitCircle(c, s)
    ensures Multiply(Multiply(v, RotX(c, s)).value, RotX(-c, s)) == Success(Vec3(v.x, -v.y, -v.z))
  {
    RotXApplies(v, c, s);
    var r := XRotated(v, c, s);
    RotXApplies(r, -c, s);
    assert r.y * -c - r.z * s == -v.y * (c * c + s * s);
    assert r.y * s + r.z * -c == -v.z * (c * c + s * s);
    assert XRotated(r, -c, s) == Vec3(v.x, -v.y, -v.z);
  }
}
