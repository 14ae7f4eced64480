/** The map from normalised device coordinates to canvas pixels that the
    render callback applies after projection (src/index.js:187-201): add 1,
    then scale by half the screen size. */
module Viewport {
  import opened Geometry
  import opened RealArith

  /** One coordinate: `v += 1; v *= 0.5 * size`. */
  function ToPixel(ndc: real, size: real): real {
    (ndc + 1.0) * (0.5 * size)
  }

  /** The inverse map, from a pixel back to normalised device coordinates. */
  function FromPixel(p: real, size: real): real
    requires size != 0.0
  {
    2.0 * p / size - 1.0
  }

  /** Maps x by the screen width and y by the screen height; z is left as it is. */
  function ToScreen(v: Vec3, width: real, height: real): Vec3 {
    Vec3(ToPixel(v.x, width), ToPixel(v.y, height), v.z)
  }

  /** The edges −1 and 1 go to the canvas edges 0 and size, the centre to size/2. */
  lemma ToPixelEndpoints(size: real)
    ensures ToPixel(-1.0, size) == 0.0
    ensures ToPixel(0.0, size) * 2.0 == size
    ensures ToPixel(1.0, size) == size
  {
  }

  /** The map is monotone for a non-negative size, and strictly so for a positive one. */
  lemma ToPixelMonotone(a: real, b: real, size: real)
    requires 0.0 <= size && a <= b
    ensures ToPixel(a, size) <= ToPixel(b, size)
    ensures 0.0 < size && a < b ==> ToPixel(a, size) < ToPixel(b, size)
  {
    assert ToPixel(b, size) - ToPixel(a, size) == (b - a) * (0.5 * size);
    if 0.0 < size {
      ProductSign(b - a, 0.5 * size);
    }
  }

  /** [−1, 1] lands inside [0, size]. */
  lemma ToPixelInto(ndc: real, size: real)
    requires 0.0 <= size && -1.0 <= ndc <= 1.0
    ensures 0.0 <= ToPixel(ndc, size) <= size
  {
    ToPixelMonotone(-1.0, ndc, size);
    ToPixelMonotone(ndc, 1.0, size);
  }

  /** Going to pixels and back gives the original coordinate. */
  lemma FromPixelToPixel(ndc: real, size: real)
    requires size != 0.0
    ensures FromPixel(ToPixel(ndc, size), size) == ndc
  {
    var p := ToPixel(ndc, size);
    assert 2.0 * p == (ndc + 1.0) * size;
    QuotientByProduct(2.0 * p, size, ndc + 1.0);
  }

  /** Every pixel of [0, size] is hit, by the point FromPixel(p) of [−1, 1]. */
  lemma ToPixelOnto(p: real, size: real)
    requires 0.0 < size && 0.0 <= p <= size
    ensures -1.0 <= FromPixel(p, size) <= 1.0
    ensures ToPixel(FromPixel(p, size), size) == p
  {
    var t := 2.0 * p / size;
    assert t * size == 2.0 * p;
    BoundsByPositiveFactor(t, 0.0, 2.0, size);
    assert (t - 1.0 + 1.0) * (0.5 * size) == 0.5 * (t * size);
  }

  /** Scaling the screen size by k scales the pixel coordinate by k: the map
      is linear in the screen size. */
  lemma ToPixelScales(ndc: real, size: real, k: real)
    ensures ToPixel(ndc, k * size) == k * ToPixel(ndc, size)
  {
    assert (ndc + 1.0) * (0.5 * (k * size)) == k * ((ndc + 1.0) * (0.5 * size));
  }

  /** Scaling both screen dimensions by k scales the mapped x and y by k. */
  lemma ToScreenScales(v: Vec3, width: real, height: real, k: real)
    ensures ToScreen(v, k * width, k * height) ==
            Vec3(k * ToScreen(v, width, height).x, k * ToScreen(v, width, height).y, v.z)
  {
    ToPixelScales(v.x, width, k);
    ToPixelScales(v.y, height, k);
  }
}
