# Rotating wireframe cube: transform pipeline

A Dafny model of the software 3D pipeline in `src/index.js`. The program draws a
unit cube that tumbles on a 2D canvas. Each frame, every triangle of the
hard-coded cube mesh goes through these steps:

1. It is rotated about Z by θ (`matRotZ`).
2. It is rotated about X by θ/2 (`matRotX`).
3. It is pushed 3 units away from the eye.
4. It is projected with a sparse perspective matrix (`initProjectionMatrix`). The projection uses `multiply`, which works in homogeneous coordinates and divides by w.
5. It is mapped to canvas pixels with `(v + 1) · 0.5 · size`.
6. Its outline is drawn as three line segments (`drawTriangle`).

`multiply` throws when w is 0. That is the program's only error.

The model uses exact `real` arithmetic and immutable values:
`Vec3`, `Triangle`, `Mesh`, `Mat4` (a 4×4 `seq<seq<real>>` indexed `m[row][column]`
like the source's nested arrays), and `Result` for the w = 0 failure. `Math.tan`,
`Math.sin` and `Math.cos` are not computed. The projection takes `f = 1/tan(fov/2)`
as a parameter. Each rotation takes a cosine/sine pair `(c, s)`; the rotation
properties assume `c² + s² = 1`.

Modules, one file each: `RealArith` (cancellation facts), `Wrappers` (`Result`),
`Geometry` (points, triangles, meshes, array conversions), `Matrix` (`multiply`),
`Rotation`, `Projection`, `Viewport`, `Cube`, `Raster` (`drawTriangle` as a segment
list) and `Pipeline` (the render callback).

The main results:

- `multiply` fails exactly when w = 0. Otherwise the result, scaled back by w, is the row-vector product (x, y, z, 1)·M.
- The rotations never fail. Each one keeps its axis coordinate and the distance from that axis. Rotating by a matrix's own angle and then by 2π minus that angle gives back the starting point. That angle is θ for `matRotZ` and θ/2 for `matRotX`.
- Projection fails exactly when the translated z is 0. For **any** angle, no corner of the cube reaches that point, so a frame over the cube always draws all 36 segments (`Pipeline.CubeNeverFails`, `Pipeline.RenderCube`).
- src/index.js:102 is a precedence slip (see Findings). It changes only depth, which is never drawn: the frame is segment-for-segment the same with the textbook matrix (`Pipeline.DepthTermDoesNotChangeDrawing`).

Where the code departs from the textbook pipeline, the model follows the code:

- `P[3][2]` is `(-far*near)/far - near`, which is −2·near, and not the textbook `(-far·near)/(far − near)`.
- The aspect factor on `P[0][0]` is width/height, as the code writes it. On the 800 by 600 canvas it widens x by 4/3 relative to y, on top of the viewport's own 800 against 600 pixels: `Pipeline.FirstTriangleAtRest` shows the unit square on the face z = 0 drawn 1600/9 pixels wide and 100 pixels tall.

## Model

| member | source | states |
|---|---|---|
| Geometry.TriangleFromArraysOfCorners | src/index.js:30-32 | `Triangle.FromArrays` applied to the `toArray` of a triangle's three corners rebuilds that triangle, which is why the model can drop the array round trips between stages (src/index.js:163-185) |
| Geometry.FromArrayToArray | src/index.js:3-16 | converting a `Vector` to an array and spreading it back into the constructor gives the same vector |
| Geometry.ToArrayFromArray | src/index.js:30-32 | a three-element array spread into a `Vector` and read back with `toArray` is the same array |
| Geometry.FromArrayPadsWithZero | src/index.js:4-8 | spreading a short array fills the missing coordinates with the default 0, and only the first three elements matter |
| Geometry.MeshCorners | src/index.js:19-38 | a mesh's corner list has three corners per triangle, corner k of triangle i at position 3i + k |
| Matrix.WeightedIsRowProduct | src/index.js:109-117 | each written-out sum for `w`, `tempX`, `tempY` and `tempZ` is entry j of the row-vector product (x, y, z, 1)·M |
| Matrix.Multiply | src/index.js:108-120 | fails exactly when w = 0; otherwise the result times w is the first three entries of (x, y, z, 1)·M, which is the perspective divide |
| Matrix.UnitLastColumnNeverFails | src/index.js:109-119 | a matrix whose last column is (0, 0, 0, 1) gives w = 1, never fails, and returns the undivided product |
| Matrix.ZeroLastColumnAlwaysFails | src/index.js:109-113 | a matrix whose last column is all 0 makes `multiply` fail on every point |
| Matrix.IdentityIsNeutral | src/index.js:108-120 | the identity matrix has last column (0, 0, 0, 1), and `multiply` returns its input unchanged |
| Rotation.RotZApplies | src/index.js:146-152 | `matRotZ` has last column (0, 0, 0, 1), and applying it moves (x, y) to (x·c − y·s, x·s + y·c) and keeps z |
| Rotation.RotXApplies | src/index.js:154-160 | `matRotX` has last column (0, 0, 0, 1), and applying it moves (y, z) to (y·c − z·s, y·s + z·c) and keeps x |
| Rotation.RotZIsPlaneRotation | src/index.js:146-152 | when c² + s² = 1, `matRotZ` succeeds, leaves z unchanged and preserves x² + y² |
| Rotation.RotXIsPlaneRotation | src/index.js:154-160 | when c² + s² = 1, `matRotX` succeeds, leaves x unchanged and preserves y² + z² |
| Rotation.RotationByZeroIsIdentity | src/index.js:146-160 | at angle 0 (cos 1, sin 0) both rotation matrices leave every point where it is |
| Rotation.RotZUndo | src/index.js:146-152 | rotating about Z by the frame angle θ and then by 2π − θ returns every point to where it started |
| Rotation.RotXUndo | src/index.js:154-160 | with φ = θ/2, the angle `matRotX` is built from, rotating about X by φ and then by 2π − φ returns every point to where it started |
| Rotation.RotXFrameHalfTurn | src/index.js:154-160 | the frame at 2π − θ builds `matRotX` from π − θ/2, so following the frame at θ with it turns every point half way round the X axis, (x, y, z) to (x, −y, −z) |
| Projection.ProjectionShape | src/index.js:94-106 | the matrix has [0][0] = (width/height)·f, [1][1] = f, [2][2] = far/(far − near), [3][2] = −2·near, [2][3] = 1 and 0 in every other entry |
| Projection.AsWrittenDepthTerm | src/index.js:102 | the expression on src/index.js:102 evaluates to −2·near |
| Projection.LensDividesByDepth | src/index.js:94-120 | under the sparse lens matrix w is z, so projection fails exactly at z = 0; otherwise x and y come out as (width/height)·f·x/z and f·y/z |
| Projection.ProjectionFailsAtEyePlane | src/index.js:94-113 | with the source's matrix, w is the point's z and `multiply` fails exactly when z = 0 |
| Projection.AsWrittenNearPlaneDepth | src/index.js:99-119 | the as-written matrix sends the near plane to depth far/(far − near) − 2, which is 0 only when far = 2·near |
| Projection.AsWrittenNearPlaneCounterexample | src/index.js:94-106 | with the renderer's lens (near 0.1, far 1000, set on lines 59-61) a point on the near plane lands at depth −9998/9999 and not 0 |
| Projection.StandardDepthRange | src/index.js:101-102 | the textbook depth term sends the near plane to depth 0 and the far plane to depth 1 |
| Projection.DepthTermDoesNotMoveScreenPoint | src/index.js:99-119 | the as-written and the textbook matrices fail on the same points and give the same x and y |
| Viewport.ToPixelEndpoints | src/index.js:187-201 | −1 maps to pixel 0, 1 maps to the full size, and 0 maps to the centre |
| Viewport.ToPixelMonotone | src/index.js:187-201 | the pixel map is monotone for a non-negative size and strictly monotone for a positive one |
| Viewport.ToPixelInto | src/index.js:187-201 | normalised coordinates in [−1, 1] land in [0, size] |
| Viewport.ToPixelOnto | src/index.js:187-201 | every pixel in [0, size] is the image of a point in [−1, 1] |
| Viewport.FromPixelToPixel | src/index.js:187-201 | mapping to pixels and back gives the original normalised coordinate |
| Viewport.ToPixelScales | src/index.js:195-201 | scaling the screen size by k scales the pixel coordinate by k |
| Viewport.ToScreenScales | src/index.js:187-201 | scaling both screen dimensions by k scales the mapped x and y by k and keeps z |
| Cube.QubeShape | src/index.js:74-92 | the cube has 12 triangles and 36 corner references, and every coordinate is 0 or 1 |
| Cube.QubeCoversCube | src/index.js:74-92 | every triangle has three distinct corners, every corner is a corner of the unit cube, and all eight unit-cube corners are used |
| Cube.QubeFacePairs | src/index.js:74-92 | triangles 2k and 2k + 1 lie on the same face plane, and the six face planes are all different |
| Raster.DrawTriangle | src/index.js:129-133 | exactly three segments, segment i running from corner i to corner i + 1 (mod 3), in that order |
| Raster.DrawTriangleClosesOutline | src/index.js:122-133 | the segments form a closed outline, each ending where the next starts, and they start at exactly the three corners |
| Pipeline.RenderFrame | src/index.js:162-212 | triangles are drawn in mesh order, three segments each; if some triangle hits w = 0, the frame stops at the first such triangle with the earlier ones drawn; it fails exactly when some triangle fails |
| Pipeline.TranslateThenProject | src/index.js:175-185 | translation adds exactly 3 to z and keeps x and y; projection then has w equal to the translated z and fails exactly when the rotated z is −3 |
| Pipeline.RotatedDepthBound | src/index.js:146-173 | after both rotations, z² is at most the vertex's squared distance from the origin |
| Pipeline.RotatingVertex | src/index.js:162-185 | the rotation stages never fail, so a vertex succeeds exactly when projecting its rotated, translated image does |
| Pipeline.NearVertexSurvives | src/index.js:162-185 | with true rotations, any vertex closer than 3 to the origin goes through the whole pipeline without hitting w = 0 |
| Pipeline.CubeTriangleSurvives | src/index.js:162-201 | a triangle whose corners are unit-cube corners never fails, at any angle |
| Pipeline.CubeNeverFails | src/index.js:74-201 | at any angle, every triangle of the cube passes through the pipeline without hitting w = 0 |
| Pipeline.RenderCube | src/index.js:145-212 | a frame over the cube always draws all 12 triangles, 36 segments in mesh order |
| Pipeline.ScreenSizeScalesOutput | src/index.js:187-201 | changing only the screen size by k scales each drawn x and y by k, and changes neither which vertices fail nor their depth |
| Pipeline.DepthTermDoesNotMoveVertex | src/index.js:181-201 | with the textbook projection matrix, each vertex fails or succeeds as before and lands on the same canvas position |
| Pipeline.DepthTermDoesNotChangeDrawing | src/index.js:181-211 | with the textbook projection matrix, each triangle fails or succeeds as before and draws the same three segments |
| Pipeline.AtRestVertex | src/index.js:162-201 | at angle 0 on an 800×600 canvas with a 90° field of view, a vertex on the z = 0 face projects like (x, y, 3) |
| Pipeline.FirstTriangleAtRest | src/index.js:162-211 | regression fixture: at angle 0 on 800×600 with a 90° field of view, the first cube triangle is drawn as (400,300) → (400,400) → (5200/9,400) → (400,300) |

## Left out

- Canvas and DOM setup are browser I/O and are not modelled. This covers `getContext`, reading the size from `getComputedStyle`, and `devicePixelRatio` rescaling (src/index.js:42-54). The screen size is a parameter.
- `makeRenderer`'s `save`/`clearRect`/`restore` wrapper (src/index.js:66-71) and the `beginPath`/`moveTo`/`lineTo`/`stroke` calls (src/index.js:123-126) are calls into the canvas API. Only the list of segments that would be stroked is modelled.
- Scheduling is host plumbing and is left out: `setTimeout`, `requestAnimationFrame`, the `innerText` update and the unused `startTime` (src/index.js:64, 135-217). The step `theta += 0.02` is left out as well. A frame is modelled for a given angle.
- `Math.tan`, `Math.sin` and `Math.cos` are not computed; their values are parameters. Floating-point rounding is not modelled: the model uses exact reals.
- Non-finite results are not modelled. In JavaScript, a zero height, `far = 0` or `far = near` produces Infinity or NaN. The model requires these divisors to be non-zero (`WellFormedLens`).
- `Vector.From` and `Triangle.From` (src/index.js:10-12, 23-29) are not modelled. On immutable values a copy is the value itself, so the aliasing they guard against cannot arise.
- Evaluation order within a triangle is not modelled. The source applies `matRotZ` to all three corners, then `matRotX`, then the projection. The model runs each corner through all stages in turn. The only effect is one error kind and nothing is written in between, so a triangle fails or succeeds the same way in both orders.
- The default constructor arguments of `Triangle` and `Mesh` (src/index.js:20, 36) are not modelled: the renderer always passes explicit corners and triangles (src/index.js:74-92, 163-185).
- Pipeline.FrameSetup: the projection's width/height and the screen size are separate parameters, whereas the source passes the same `WIDTH`/`HEIGHT` to `initProjectionMatrix` (src/index.js:56-58) and to the render callback (src/index.js:69). This is a generalisation. `Pipeline.ScreenSizeScalesOutput` scales only the screen size and keeps the projection fixed; that matches scaling the canvas in the source, because a uniform factor k ≠ 0 leaves width/height unchanged.
- Pipeline.RenderFrame: a w = 0 error ends the frame in the model. In the source the throw also skips `ctx.restore()` (src/index.js:70) and the next `requestAnimationFrame` (src/index.js:214), so the animation stops for good. `Pipeline.CubeNeverFails` shows this cannot happen for the cube.
- Rotation.RotXUndo: the round trip is stated in the matrix's own angle θ/2. In frame angles, "θ then 2π − θ" returns every point only for `matRotZ`. For `matRotX` it gives a half turn (`Rotation.RotXFrameHalfTurn`), and the identity needs the frame at 4π − θ.
- Pipeline.RotatingSetup: does not tie the X rotation's pair to the half angle θ/2 of the Z rotation's pair. The properties hold for any two unit pairs, so this is a generalisation.

## Findings

| source | as written | input that shows it | evidently intended | confidence | as-written member | corrected member |
|---|---|---|---|---|---|---|
| src/index.js:102 | `(-far * near) / far - near`, which is −2·near | near 0.1, far 1000 (the renderer's lens): a point on the near plane projects to depth −9998/9999 instead of 0 | `(-far * near) / (far - near)`: near plane at depth 0, far plane at depth 1 | high that it differs from the textbook matrix; not executed; no visible effect, because depth is never drawn | Projection.AsWrittenNearPlaneCounterexample | Projection.StandardDepthRange |

The frame model keeps the as-written matrix, as the program builds it.
`Pipeline.DepthTermDoesNotChangeDrawing` proves that the textbook matrix draws exactly the same segments.
So every property proved about the drawn frame holds for the corrected definition too.
