/**
 * The resize path of `render` in js/bg.js: the guard that decides whether the
 * drawing buffer must be resized, the buffer size it is given, and the values
 * uploaded to the shader only on that path.
 */
module Uniforms {
  import opened Wrappers

  /** A JavaScript number that is either finite or `Infinity` (from a division by zero). */
  datatype Num = Finite(value: real) | Infinity

  /**
   * What the resize path recomputes: the bounds of the projection matrix
   * (absent when the client height is 0 and the aspect is not a finite number)
   * and the three edge uniforms.
   */
  datatype ResizeUniforms = ResizeUniforms(bounds: Option<Box>, edgeScale: real, edgeWidth: Num, edgeCount: real)

  /** The orthographic bounds handed to `mat4.ortho`. */
  datatype Box = Box(left: real, right: real, bottom: real, top: real)

  function MinSide(width: nat, height: nat): (m: nat)
    ensures m <= width && m <= height && (m == width || m == height)
  {
    if width <= height then width else height
  }

  /** `Math.max(1.0, perfscale)`: never below 1, never below the scale, and one of the two. */
  function EdgeScale(perfscale: real): (s: real)
    ensures s >= 1.0 && s >= perfscale
    ensures s == 1.0 || s == perfscale
  {
    if 1.0 >= perfscale then 1.0 else perfscale
  }

  /** `100 / Math.min(width, height)`: Infinity on an empty side, otherwise 100 units across the shorter side. */
  function EdgeWidth(width: nat, height: nat): (w: Num)
    ensures w.Infinity? <==> MinSide(width, height) == 0
    ensures w.Finite? ==> w.value > 0.0 && w.value * MinSide(width, height) as real == 100.0
  {
    var m := MinSide(width, height);
    if m == 0 then Infinity else Finite(100.0 / m as real)
  }

  /** `Math.min(width, height) / 700`: the shorter side measured in 700-pixel units. */
  function EdgeCount(width: nat, height: nat): (c: real)
    ensures c >= 0.0 && c * 700.0 == MinSide(width, height) as real
  {
    MinSide(width, height) as real / 700.0
  }

  /** `canvas.clientWidth / canvas.clientHeight`, when it is a finite number. */
  function Aspect(width: nat, height: nat): (a: Option<real>)
    ensures a.None? <==> height == 0
    ensures a.Some? ==> a.value >= 0.0 && a.value * height as real == width as real
  {
    if height == 0 then None else Some(width as real / height as real)
  }

  /**
   * Everything the resize path recomputes for a client area of width x height:
   * bounds with the client's aspect ratio whenever the height is not 0, and the
   * edge uniforms, whose width and count multiply to 1/7 on a non-empty surface.
   */
  function ResizeValues(perfscale: real, width: nat, height: nat): (u: ResizeUniforms)
    ensures u.bounds.Some? <==> height > 0
    ensures u.bounds.Some? ==>
      (u.bounds.value.right - u.bounds.value.left) * height as real
        == (u.bounds.value.top - u.bounds.value.bottom) * width as real
    ensures u.edgeScale >= 1.0 && u.edgeScale >= perfscale
    ensures u.edgeWidth.Finite? <==> width > 0 && height > 0
    ensures u.edgeWidth.Finite? ==> u.edgeWidth.value * u.edgeCount == 1.0 / 7.0
  {
    var bounds := match Aspect(width, height)
      case None => None
      case Some(aspect) => Some(OrthoBounds(aspect));
    ResizeUniforms(bounds, EdgeScale(perfscale), EdgeWidth(width, height), EdgeCount(width, height))
  }

  /** Edge width times edge count is 1/7 at every non-empty size: the two scale inversely. */
  lemma EdgeProduct(width: nat, height: nat)
    requires width > 0 && height > 0
    ensures EdgeWidth(width, height).value * EdgeCount(width, height) == 1.0 / 7.0
  {
  }

  /** The pixel density of the drawing buffer: the host ratio divided by the quality scale. */
  function Density(pixelRatio: real, perfscale: real): (d: real)
    requires perfscale > 0.0
    ensures d * perfscale == pixelRatio
  {
    pixelRatio / perfscale
  }

  /** A larger quality scale gives a strictly lower density. */
  lemma DensityFalls(pixelRatio: real, s1: real, s2: real)
    requires pixelRatio > 0.0 && 0.0 < s1 < s2
    ensures Density(pixelRatio, s2) < Density(pixelRatio, s1)
  {
    var d1, d2 := Density(pixelRatio, s1), Density(pixelRatio, s2);
    assert d1 * s1 == d2 * s2;
    assert d2 > 0.0;
    if d1 <= d2 {
      assert d1 * s1 <= d2 * s1;
      assert d2 * s1 < d2 * s2;
    }
  }

  /** The resize guard: the drawing buffer differs from client size times density. */
  predicate NeedsResize(canvasWidth: real, canvasHeight: real, width: nat, height: nat, density: real): (r: bool)
    ensures density != 0.0 ==>
      (!r <==> canvasWidth / density == width as real && canvasHeight / density == height as real)
  {
    canvasWidth != width as real * density || canvasHeight != height as real * density
  }

  /** A change of the quality scale makes the next frame resize (on a surface with a non-zero side). */
  lemma ScaleChangeResizes(width: nat, height: nat, pixelRatio: real, s1: real, s2: real)
    requires (width > 0 || height > 0) && pixelRatio > 0.0 && s1 > 0.0 && s2 > 0.0 && s1 != s2
    ensures var d1 := Density(pixelRatio, s1);
      NeedsResize(width as real * d1, height as real * d1, width, height, Density(pixelRatio, s2))
  {
  }

  /**
   * The bounds given to `mat4.ortho` for `aspect = clientWidth / clientHeight`:
   * centred on the origin, with the aspect ratio of the client area, and a
   * longer side of exactly 1, so the pattern's scale does not depend on the
   * window's shape.
   */
  function OrthoBounds(aspect: real): (b: Box)
    requires aspect >= 0.0
    ensures b.left == -b.right && b.bottom == -b.top
    ensures b.right - b.left == aspect * (b.top - b.bottom)
    ensures b.right - b.left <= 1.0 && b.top - b.bottom <= 1.0
    ensures b.right - b.left == 1.0 || b.top - b.bottom == 1.0
  {
    if aspect < 1.0 then Box(-aspect * 0.5, aspect * 0.5, -0.5, 0.5)
    else Box(-0.5, 0.5, 1.0 / -aspect * 0.5, 1.0 / aspect * 0.5)
  }
}
