/** The render callback (src/index.js:145-212): every triangle of the mesh is
    rotated about Z, then about X, pushed 3 units away from the eye,
    projected, mapped to canvas pixels and drawn as an outline. */
module Pipeline {
  import opened Wrappers
  import opened Geometry
  import opened Matrix
  import opened Rotation
  import opened Projection
  import opened Viewport
  import opened Raster
  import opened Cube
  import opened RealArith

  /** How far the rotated mesh is pushed along z before projection. */
  const ViewDistance: real := 3.0

  /** The translation step: z grows by 3, x and y stay. */
  function Translate(v: Vec3): Vec3 {
    Vec3(v.x, v.y, v.z + ViewDistance)
  }

  /** What the callback works with in one frame: the two rotation matrices,
      the cached projection matrix and the screen size. */
  datatype FrameSetup = FrameSetup(rotZ: Mat4, rotX: Mat4, proj: Mat4, width: real, height: real)

  /** The setup of the source's frame at angle θ, given cz = cos θ, sz = sin θ,
      cx = cos θ/2 and sx = sin θ/2. */
  function RotatingSetup(cz: real, sz: real, cx: real, sx: real, proj: Mat4, width: real, height: real): FrameSetup {
    FrameSetup(RotZ(cz, sz), RotX(cx, sx), proj, width, height)
  }

  /** One vertex up to normalised device coordinates: rotate about Z, rotate
      about X, translate, project. The first `multiply` that meets w = 0
      aborts it. */
  function ProjectVertex(v: Vec3, rotZ: Mat4, rotX: Mat4, proj: Mat4): Result<Vec3, TransformError> {
    var a :- Multiply(v, rotZ);
    var b :- Multiply(a, rotX);
    Multiply(Translate(b), proj)
  }

  /** One vertex through the whole pipeline, ending in canvas pixels. */
  function TransformVertex(v: Vec3, s: FrameSetup): Result<Vec3, TransformError> {
    var p :- ProjectVertex(v, s.rotZ, s.rotX, s.proj);
    Success(ToScreen(p, s.width, s.height))
  }

  /** One triangle through the pipeline: it succeeds when all three corners do. */
  function TransformTriangle(t: Triangle, s: FrameSetup): Result<Triangle, TransformError> {
    var a :- TransformVertex(t.v0, s);
    var b :- TransformVertex(t.v1, s);
    var c :- TransformVertex(t.v2, s);
    Success(Triangle(a, b, c))
  }

  /** `segs` is what the first `k` triangles of `ts` draw: three segments
      each, in mesh order. */
  predicate DrewTriangles(segs: seq<Segment>, ts: seq<Triangle>, s: FrameSetup, k: nat)
    requires k <= |ts|
  {
    && |segs| == 3 * k
    && forall i :: 0 <= i < k ==>
         && TransformTriangle(ts[i], s).Success?
         && segs[3 * i..3 * i + 3] == DrawTriangle(TransformTriangle(ts[i], s).value)
  }

  /** Drawing one more triangle extends the record of what was drawn. */
  lemma DrewOneMore(segs: seq<Segment>, ts: seq<Triangle>, s: FrameSetup, k: nat)
    requires k < |ts| && DrewTriangles(segs, ts, s, k)
    requires TransformTriangle(ts[k], s).Success?
    ensures DrewTriangles(segs + DrawTriangle(TransformTriangle(ts[k], s).value), ts, s, k + 1)
  {
    var next := segs + DrawTriangle(TransformTriangle(ts[k], s).value);
    forall i | 0 <= i < k + 1
      ensures next[3 * i..3 * i + 3] == DrawTriangle(TransformTriangle(ts[i], s).value)
    {
      if i < k {
        assert next[3 * i..3 * i + 3] == segs[3 * i..3 * i + 3];
      } else {
        assert next[3 * i..3 * i + 3] == next[|segs|..];
      }
    }
  }

  /** One frame over a mesh. Triangles are drawn in mesh order; when a
      projection meets w = 0 the error escapes the callback, so the frame
      stops there and the triangles already drawn stay drawn. In the source
      the escaping error also skips `ctx.restore()` and the next
      `requestAnimationFrame` (src/index.js:70, 214), so no later frame runs. */
  method RenderFrame(mesh: Mesh, s: FrameSetup) returns (segs: seq<Segment>, failed: bool)
    ensures !failed ==> DrewTriangles(segs, mesh.triangles, s, |mesh.triangles|)
    ensures failed ==>
              exists k :: 0 <= k < |mesh.triangles| && DrewTriangles(segs, mesh.triangles, s, k)
                          && TransformTriangle(mesh.triangles[k], s).Failure?
    ensures failed <==> exists k :: 0 <= k < |mesh.triangles| && TransformTriangle(mesh.triangles[k], s).Failure?
  {
    var ts := mesh.triangles;
    segs := [];
    var i := 0;
    while i < |ts|
      invariant 0 <= i <= |ts|
      invariant DrewTriangles(segs, ts, s, i)
    {
      var r := TransformTriangle(ts[i], s);
      if r.Failure? {
        return segs, true;
      }
      DrewOneMore(segs, ts, s, i);
      segs := segs + DrawTriangle(r.value);
      i := i + 1;
    }
    return segs, false;
  }

  /** The translation adds exactly 3 to z and leaves x and y; projecting the
      translated point has w equal to the translated z, so it fails exactly
      when the rotated z is −3. */
  lemma TranslateThenProject(v: Vec3, width: real, height: real, f: real, near: real, far: real)
    requires WellFormedLens(height, near, far)
    ensures Translate(v).x == v.x && Translate(v).y == v.y && Translate(v).z == v.z + 3.0
    ensures W(Translate(v), ProjectionMatrix(width, height, f, near, far)) == v.z + 3.0
    ensures Multiply(Translate(v), ProjectionMatrix(width, height, f, near, far)).Failure? <==> v.z == -3.0
  {
    ProjectionFailsAtEyePlane(Translate(v), width, height, f, near, far);
  }

  /** A number whose square is at most something below 9 is above −3. */
  lemma AboveMinusThree(z: real, bound: real)
    requires z * z <= bound < 9.0
    ensures z > -3.0
  {
  }

  /** Under true rotations, the rotated vertex's z² is at most the vertex's
      squared distance from the origin. */
  lemma RotatedDepthBound(v: Vec3, cz: real, sz: real, cx: real, sx: real)
    requires OnUnitCircle(cz, sz) && OnUnitCircle(cx, sx)
    ensures var b := XRotated(ZRotated(v, cz, sz), cx, sx);
            b.z * b.z <= v.x * v.x + v.y * v.y + v.z * v.z
  {
    var a := ZRotated(v, cz, sz);
    var b := XRotated(a, cx, sx);
    PlaneRotationKeepsNorm(v.x, v.y, cz, sz);
    PlaneRotationKeepsNorm(a.y, a.z, cx, sx);
    assert a.x * a.x + a.y * a.y == v.x * v.x + v.y * v.y;
    assert b.y * b.y + b.z * b.z == a.y * a.y + a.z * a.z;
    assert a.z == v.z;
    assert a.x * a.x >= 0.0 && b.y * b.y >= 0.0;
  }

  /** Under the rotating setup, the two rotations never fail, so a vertex
      succeeds exactly when projecting its rotated, translated image does. */
  lemma RotatingVertex(v: Vec3, cz: real, sz: real, cx: real, sx: real, proj: Mat4, screenWidth: real, screenHeight: real)
    ensures var b := XRotated(ZRotated(v, cz, sz), cx, sx);
            TransformVertex(v, RotatingSetup(cz, sz, cx, sx, proj, screenWidth, screenHeight)).Success? <==>
            Multiply(Translate(b), proj).Success?
  {
    RotZApplies(v, cz, sz);
    RotXApplies(ZRotated(v, cz, sz), cx, sx);
  }

  /** With true rotations, any vertex closer than 3 to the origin goes through
      the whole pipeline without meeting w = 0: the rotations keep its
      distance, so its rotated z stays above −3. */
  lemma NearVertexSurvives(v: Vec3, cz: real, sz: real, cx: real, sx: real,
                           width: real, height: real, f: real, near: real, far: real,
                           screenWidth: real, screenHeight: real)
    requires OnUnitCircle(cz, sz) && OnUnitCircle(cx, sx)
    requires WellFormedLens(height, near, far)
    requires v.x * v.x + v.y * v.y + v.z * v.z < 9.0
    ensures TransformVertex(v, RotatingSetup(cz, sz, cx, sx, ProjectionMatrix(width, height, f, near, far), screenWidth, screenHeight)).Success?
  {
    var b := XRotated(ZRotated(v, cz, sz), cx, sx);
    RotatedDepthBound(v, cz, sz, cx, sx);
    AboveMinusThree(b.z, v.x * v.x + v.y * v.y + v.z * v.z);
    TranslateThenProject(b, width, height, f, near, far);
    RotatingVertex(v, cz, sz, cx, sx, ProjectionMatrix(width, height, f, near, far), screenWidth, screenHeight);
  }

  /** Every corner of the unit cube is closer than 3 to the origin. */
  lemma CubeCornerIsNear(v: Vec3)
    requires IsCubeCorner(v)
    ensures v.x * v.x + v.y * v.y + v.z * v.z < 9.0
  {
  }

  /** A triangle whose corners are all cube corners survives the pipeline. */
  lemma CubeTriangleSurvives(t: Triangle, cz: real, sz: real, cx: real, sx: real,
                             width: real, height: real, f: real, near: real, far: real,
                             screenWidth: real, screenHeight: real)
    requires OnUnitCircle(cz, sz) && OnUnitCircle(cx, sx)
    requires WellFormedLens(height, near, far)
    requires IsCubeCorner(t.v0) && IsCubeCorner(t.v1) && IsCubeCorner(t.v2)
    ensures TransformTriangle(t,
              RotatingSetup(cz, sz, cx, sx, ProjectionMatrix(width, height, f, near, far), screenWidth, screenHeight)).Success?
  {
    CubeCornerIsNear(t.v0);
    CubeCornerIsNear(t.v1);
    CubeCornerIsNear(t.v2);
    NearVertexSurvives(t.v0, cz, sz, cx, sx, width, height, f, near, far, screenWidth, screenHeight);
    NearVertexSurvives(t.v1, cz, sz, cx, sx, width, height, f, near, far, screenWidth, screenHeight);
    NearVertexSurvives(t.v2, cz, sz, cx, sx, width, height, f, near, far, screenWidth, screenHeight);
  }

  /** For every angle, every triangle of the cube survives the pipeline: the
      frame never meets w = 0. */
  lemma CubeNeverFails(cz: real, sz: real, cx: real, sx: real,
                       width: real, height: real, f: real, near: real, far: real,
                       screenWidth: real, screenHeight: real)
    requires OnUnitCircle(cz, sz) && OnUnitCircle(cx, sx)
    requires WellFormedLens(height, near, far)
    ensures forall i :: 0 <= i < |Qube.triangles| ==>
              TransformTriangle(Qube.triangles[i],
                RotatingSetup(cz, sz, cx, sx, ProjectionMatrix(width, height, f, near, far), screenWidth, screenHeight)).Success?
  {
    QubeShape();
    forall i | 0 <= i < |Qube.triangles|
      ensures TransformTriangle(Qube.triangles[i],
                RotatingSetup(cz, sz, cx, sx, ProjectionMatrix(width, height, f, near, far), screenWidth, screenHeight)).Success?
    {
      var t := Qube.triangles[i];
      assert IsCubeCorner(Corners(t)[0]) && IsCubeCorner(Corners(t)[1]) && IsCubeCorner(Corners(t)[2]);
      CubeTriangleSurvives(t, cz, sz, cx, sx, width, height, f, near, far, screenWidth, screenHeight);
    }
  }

  /** The render callback over `qube` at angle θ: it always draws all 12
      triangles, 36 segments in mesh order. */
  method RenderCube(cz: real, sz: real, cx: real, sx: real,
                    width: real, height: real, f: real, near: real, far: real,
                    screenWidth: real, screenHeight: real) returns (segs: seq<Segment>)
    requires OnUnitCircle(cz, sz) && OnUnitCircle(cx, sx)
    requires WellFormedLens(height, near, far)
    ensures |segs| == 36
    ensures DrewTriangles(segs, Qube.triangles,
              RotatingSetup(cz, sz, cx, sx, ProjectionMatrix(width, height, f, near, far), screenWidth, screenHeight), 12)
  {
    var s := RotatingSetup(cz, sz, cx, sx, ProjectionMatrix(width, height, f, near, far), screenWidth, screenHeight);
    CubeNeverFails(cz, sz, cx, sx, width, height, f, near, far, screenWidth, screenHeight);
    var failed;
    segs, failed := RenderFrame(Qube, s);
  }

  /** A vertex reaches the canvas exactly when it reaches device coordinates,
      and is then placed by the viewport map of the setup's screen size. */
  lemma ScreenStep(v: Vec3, s: FrameSetup)
    ensures var p := ProjectVertex(v, s.rotZ, s.rotX, s.proj);
            && (TransformVertex(v, s).Success? <==> p.Success?)
            && (p.Success? ==> TransformVertex(v, s).value == ToScreen(p.value, s.width, s.height))
  {
  }

  /** Changing only the screen size by a factor k scales every drawn x and y
      by k; which vertices fail, and their depth, do not change. */
  lemma ScreenSizeScalesOutput(v: Vec3, s: FrameSetup, k: real)
    ensures var scaled := s.(width := k * s.width, height := k * s.height);
            && (TransformVertex(v, scaled).Success? <==> TransformVertex(v, s).Success?)
            && (TransformVertex(v, s).Success? ==>
                  && TransformVertex(v, scaled).value.x == k * TransformVertex(v, s).value.x
                  && TransformVertex(v, scaled).value.y == k * TransformVertex(v, s).value.y
                  && TransformVertex(v, scaled).value.z == TransformVertex(v, s).value.z)
  {
    var scaled := s.(width := k * s.width, height := k * s.height);
    var p := ProjectVertex(v, s.rotZ, s.rotX, s.proj);
    ScreenStep(v, s);
    ScreenStep(v, scaled);
    if p.Success? {
      ToScreenScales(p.value, s.width, s.height, k);
    }
  }

  /** Replacing the source's projection matrix by the textbook one changes no
      vertex's fate and no drawn position. */
  lemma DepthTermDoesNotMoveVertex(v: Vec3, rotZ: Mat4, rotX: Mat4,
                                   width: real, height: real, f: real, near: real, far: real,
                                   screenWidth: real, screenHeight: real)
    requires WellFormedLens(height, near, far)
    ensures var a := TransformVertex(v, FrameSetup(rotZ, rotX, ProjectionMatrix(width, height, f, near, far), screenWidth, screenHeight));
            var b := TransformVertex(v, FrameSetup(rotZ, rotX, StandardProjectionMatrix(width, height, f, near, far), screenWidth, screenHeight));
            && (a.Success? <==> b.Success?)
            && (a.Success? ==> OnCanvas(a.value) == OnCanvas(b.value))
  {
    var r := Multiply(v, rotZ);
    if r.Success? {
      var q := Multiply(r.value, rotX);
      if q.Success? {
        DepthTermDoesNotMoveScreenPoint(Translate(q.value), width, height, f, near, far);
      }
    }
  }

  /** The precedence slip on src/index.js:102 never shows: with the textbook matrix a
      triangle fails or succeeds alike and draws the same three segments. */
  lemma DepthTermDoesNotChangeDrawing(t: Triangle, rotZ: Mat4, rotX: Mat4,
                                      width: real, height: real, f: real, near: real, far: real,
                                      screenWidth: real, screenHeight: real)
    requires WellFormedLens(height, near, far)
    ensures var a := TransformTriangle(t, FrameSetup(rotZ, rotX, ProjectionMatrix(width, height, f, near, far), screenWidth, screenHeight));
            var b := TransformTriangle(t, FrameSetup(rotZ, rotX, StandardProjectionMatrix(width, height, f, near, far), screenWidth, screenHeight));
            && (a.Success? <==> b.Success?)
            && (a.Success? ==> DrawTriangle(a.value) == DrawTriangle(b.value))
  {
    DepthTermDoesNotMoveVertex(t.v0, rotZ, rotX, width, height, f, near, far, screenWidth, screenHeight);
    DepthTermDoesNotMoveVertex(t.v1, rotZ, rotX, width, height, f, near, far, screenWidth, screenHeight);
    DepthTermDoesNotMoveVertex(t.v2, rotZ, rotX, width, height, f, near, far, screenWidth, screenHeight);
  }

  /** The renderer's lens on an 800 by 600 canvas with a 90 degree field of
      view (f = 1/tan 45° = 1), at angle 0. */
  const RestSetup: FrameSetup :=
    RotatingSetup(1.0, 0.0, 1.0, 0.0, ProjectionMatrix(800.0, 600.0, 1.0, 0.1, 1000.0), 800.0, 600.0)

  /** At angle 0 a vertex on the z = 0 face lands at the projection of
      (x, y, 3): its normalised coordinates times 3 are (4/3·x, y). */
  lemma AtRestVertex(v: Vec3, nx: real, ny: real)
    requires v.z == 0.0 && nx * 3.0 == (800.0 / 600.0) * v.x && ny * 3.0 == v.y
    ensures TransformVertex(v, RestSetup).Success?
    ensures TransformVertex(v, RestSetup).value.x == ToPixel(nx, 800.0)
    ensures TransformVertex(v, RestSetup).value.y == ToPixel(ny, 600.0)
  {
    RotationByZeroIsIdentity(v);
    var t := Translate(v);
    LensDividesByDepth(t, 800.0, 600.0, 1.0, 0.1, 1000.0, DepthTermAsWritten(0.1, 1000.0));
    var p := Multiply(t, ProjectionMatrix(800.0, 600.0, 1.0, 0.1, 1000.0)).value;
    CancelFactor(p.x, nx, 3.0);
    CancelFactor(p.y, ny, 3.0);
  }

  /** Regression fixture: at angle 0 the cube's first triangle, corners
      (0,0,0), (0,1,0), (1,1,0), is drawn on an 800 by 600 canvas as the
      outline (400,300) → (400,400) → (5200/9,400) → (400,300). */
  lemma FirstTriangleAtRest()
    ensures TransformTriangle(Qube.triangles[0], RestSetup).Success?
    ensures DrawTriangle(TransformTriangle(Qube.triangles[0], RestSetup).value) ==
            [Segment(Point2(400.0, 300.0), Point2(400.0, 400.0)),
             Segment(Point2(400.0, 400.0), Point2(5200.0 / 9.0, 400.0)),
             Segment(Point2(5200.0 / 9.0, 400.0), Point2(400.0, 300.0))]
  {
    var t := Qube.triangles[0];
    AtRestVertex(t.v0, 0.0, 0.0);
    AtRestVertex(t.v1, 0.0, 1.0 / 3.0);
    AtRestVertex(t.v2, 4.0 / 9.0, 1.0 / 3.0);
  }
}
