/**
 * The arithmetic of the zoom engine in chrome/mtzoom/content/frame-script.js:
 * the scale clamp, the re-anchoring of a translation about a screen point,
 * the translation clamp of setTranslationX/Y, the native scroll offset the
 * browser keeps, and the wheel-to-scale formula. Numbers are reals; the
 * source's `===` on numbers is exact equality here.
 */
module ZoomMath {

  const MinScale: real := 1.0
  const MaxScale: real := 10.0
  /** zoomSpeedMultiplier = 0.03 / 5 */
  const ZoomSpeedMultiplier: real := 0.03 / 5.0

  function Min(a: real, b: real): real { if a <= b then a else b }
  function Max(a: real, b: real): real { if a >= b then a else b }

  /** Math.min(Math.max(s, minScale), maxScale) */
  function ClampScale(s: real): (r: real)
    ensures MinScale <= r <= MaxScale
    ensures MinScale <= s <= MaxScale ==> r == s
    ensures s < MinScale ==> r == MinScale
    ensures s > MaxScale ==> r == MaxScale
  {
    Min(Max(s, MinScale), MaxScale)
  }

  /** The scale after multiplying by `scaleBy` and clamping, as applyScale computes it. */
  function ScaleAfter(before: real, scaleBy: real): real
  {
    ClampScale(before * scaleBy)
  }

  /**
   * The scale applyScale keeps: the product when it lies in [1, 10], else the
   * bound it passed; a factor of 1 changes nothing on a clamped scale.
   */
  lemma ScaleAfterCases(before: real, scaleBy: real)
    ensures var s := ScaleAfter(before, scaleBy);
            && MinScale <= s <= MaxScale
            && (MinScale <= before * scaleBy <= MaxScale ==> s == before * scaleBy)
            && (before * scaleBy < MinScale ==> s == MinScale)
            && (before * scaleBy > MaxScale ==> s == MaxScale)
            && (MinScale <= before <= MaxScale ==> ScaleAfter(before, 1.0) == before)
  {
  }

  /** Scaling a translation `t` by `k` about the screen point `z`. */
  function Anchor(t: real, z: real, k: real): (r: real)
    ensures k == 1.0 ==> r == t
    ensures k > 0.0 ==> (r < z <==> t < z) && (r > z <==> t > z)
  {
    var d := t - z;
    assert k > 0.0 && d < 0.0 ==> d * k < 0.0;
    assert k > 0.0 && d > 0.0 ==> d * k > 0.0;
    d * k + z
  }

  /** The anchor point does not move. */
  lemma AnchorFixesAnchorPoint(z: real, k: real)
    ensures Anchor(z, z, k) == z
  {
  }

  /** Scaling by k1 then by k2 about one point is scaling by k1 * k2. */
  lemma AnchorComposes(t: real, z: real, k1: real, k2: real)
    ensures Anchor(Anchor(t, z, k1), z, k2) == Anchor(t, z, k1 * k2)
  {
    calc {
      Anchor(Anchor(t, z, k1), z, k2);
      ((t - z) * k1 + z - z) * k2 + z;
      ((t - z) * k1) * k2 + z;
      { assert ((t - z) * k1) * k2 == (t - z) * (k1 * k2); }
      Anchor(t, z, k1 * k2);
    }
  }

  /** Scaling by k and then by 1/k about the same point restores the translation. */
  lemma AnchorInverse(t: real, z: real, k: real)
    requires k != 0.0
    ensures Anchor(Anchor(t, z, k), z, 1.0 / k) == t
  {
    AnchorComposes(t, z, k, 1.0 / k);
    assert k * (1.0 / k) == 1.0;
  }

  /** Scaling by each factor of `ks` in turn about the point `z`. */
  function AnchorAll(t: real, z: real, ks: seq<real>): real
    decreases |ks|
  {
    if ks == [] then t else AnchorAll(Anchor(t, z, ks[0]), z, ks[1..])
  }

  function Product(ks: seq<real>): real
    decreases |ks|
  {
    if ks == [] then 1.0 else ks[0] * Product(ks[1..])
  }

  /** Any run of re-anchorings about one point is a single re-anchoring by the product. */
  lemma {:induction false} AnchorAllIsProduct(t: real, z: real, ks: seq<real>)
    ensures AnchorAll(t, z, ks) == Anchor(t, z, Product(ks))
    decreases |ks|
  {
    if ks != [] {
      AnchorAllIsProduct(Anchor(t, z, ks[0]), z, ks[1..]);
      AnchorComposes(t, z, ks[0], Product(ks[1..]));
    }
  }

  /**
   * setTranslationX/Y: Math.min(v, 0) then Math.max(v, -(scrollWidth - clientWidth)).
   * The lower bound has no max(..., 0): with content smaller than the box
   * (extent < 0) the result is -extent, which is positive.
   */
  function ClampTranslation(v: real, extent: int): (r: real)
    ensures r >= -(extent as real)
    ensures extent >= 0 ==> -(extent as real) <= r <= 0.0
    ensures extent >= 0 && -(extent as real) <= v <= 0.0 ==> r == v
    ensures v > 0.0 && extent >= 0 ==> r == 0.0
    ensures v < -(extent as real) ==> r == -(extent as real)
    ensures extent < 0 ==> r == -(extent as real)
  {
    Max(Min(v, 0.0), -(extent as real))
  }

  /** Clamping a clamped translation again changes nothing. */
  lemma ClampTranslationIdempotent(v: real, extent: int)
    ensures ClampTranslation(ClampTranslation(v, extent), extent) == ClampTranslation(v, extent)
  {
  }

  /** overflowTranslationX/Y as setTranslationX/Y computes it from the stored value. */
  function OverflowOf(v: real, extent: int): real
  {
    if v < 0.0 then Max(-v - extent as real, 0.0) else 0.0
  }

  /** The overflow is how far -v reaches past the scroll range, and 0 for v >= 0. */
  lemma OverflowOfCases(v: real, extent: int)
    ensures OverflowOf(v, extent) >= 0.0
    ensures v >= 0.0 ==> OverflowOf(v, extent) == 0.0
    ensures v < 0.0 && -v > extent as real ==> OverflowOf(v, extent) == -v - extent as real
    ensures v < 0.0 && -v <= extent as real ==> OverflowOf(v, extent) == 0.0
  {
  }

  /** The overflow is computed after the clamp, so it is always 0. */
  lemma OverflowAfterClampIsZero(v: real, extent: int)
    ensures OverflowOf(ClampTranslation(v, extent), extent) == 0.0
  {
  }

  /** The value setTranslationX/Y assigns to scrollLeft/scrollTop: Math.max(-v, 0). */
  function RequestedOffset(v: real): (r: real)
    ensures r >= 0.0 && r >= -v
    ensures r == -v || r == 0.0
  {
    Max(-v, 0.0)
  }

  /**
   * What the browser keeps when a number is assigned to scrollLeft/scrollTop:
   * an integer, cut to whole pixels and held inside [0, max(extent, 0)].
   */
  function NativeOffset(v: real, extent: int): (r: int)
    ensures 0 <= r
    ensures extent >= 0 ==> r <= extent
    ensures extent <= 0 ==> r == 0
    ensures 0.0 <= v && v < (extent as real) + 1.0 ==> r == v.Floor
  {
    if v.Floor < 0 then 0
    else if v.Floor > extent then (if extent < 0 then 0 else extent)
    else v.Floor
  }

  /** The native offset setTranslationX/Y leaves behind for a stored translation `v`. */
  function WrittenOffset(v: real, extent: int): int
  {
    NativeOffset(RequestedOffset(v), extent)
  }

  /**
   * For any stored translation, the offset written is a whole pixel count
   * inside the scroll range, 0 for a translation of at least 0, and the
   * whole-pixel part of -v for one inside [-extent, 0].
   */
  lemma WrittenOffsetCases(v: real, extent: int)
    ensures 0 <= WrittenOffset(v, extent)
    ensures extent >= 0 ==> WrittenOffset(v, extent) <= extent
    ensures v >= 0.0 ==> WrittenOffset(v, extent) == 0
    ensures -(extent as real) <= v <= 0.0 ==> WrittenOffset(v, extent) == (-v).Floor
  {
  }

  /**
   * The native offset setTranslationX/Y leaves behind: the whole-pixel part of
   * -translation, within one pixel of it, and inside the scroll range.
   */
  lemma WrittenOffsetTracksTranslation(t: real, extent: int)
    requires extent >= 0
    ensures var v := ClampTranslation(t, extent);
            var o := WrittenOffset(v, extent);
            o == (-v).Floor && 0 <= o <= extent && -v - 1.0 < o as real <= -v
  {
  }

  /** With content no wider than the box the written offset is 0. */
  lemma WrittenOffsetWithoutExtent(t: real, extent: int)
    requires extent <= 0
    ensures WrittenOffset(ClampTranslation(t, extent), extent) == 0
  {
  }

  /** Writing back an offset the browser already holds (resetScale) keeps it. */
  lemma NativeOffsetOfHeldOffset(n: int, extent: int)
    requires 0 <= n <= extent
    ensures NativeOffset(n as real, extent) == n
  {
  }

  /**
   * The wheel handler's factor: newScale = pageScale + deltaY * pinchZoomSpeed * zoomSpeedMultiplier,
   * scaleBy = pageScale / newScale.
   */
  function WheelScaleBy(pageScale: real, deltaY: real, pinchZoomSpeed: real): (r: real)
    requires pageScale + deltaY * (pinchZoomSpeed * ZoomSpeedMultiplier) != 0.0
    ensures deltaY == 0.0 || pinchZoomSpeed == 0.0 ==> r == 1.0
    ensures r == 0.0 <==> pageScale == 0.0
  {
    var newScale := pageScale + deltaY * (pinchZoomSpeed * ZoomSpeedMultiplier);
    assert deltaY == 0.0 || pinchZoomSpeed == 0.0 ==> newScale == pageScale;
    assert (pageScale / newScale) * newScale == pageScale;
    assert newScale == pageScale ==> pageScale / newScale == 1.0;
    pageScale / newScale
  }

  /** The default speed 0.7 and a wheel delta of 100 at scale 1 give 1 / 1.42. */
  lemma WheelExample()
    ensures WheelScaleBy(1.0, 100.0, 0.7) == 1.0 / 1.42
  {
  }

  /**
   * With a positive speed, a positive deltaY (wheel down) zooms out and a
   * negative one zooms in, as long as the new scale stays positive.
   */
  lemma WheelDirection(pageScale: real, deltaY: real, pinchZoomSpeed: real)
    requires pageScale >= MinScale && pinchZoomSpeed > 0.0
    requires pageScale + deltaY * (pinchZoomSpeed * ZoomSpeedMultiplier) > 0.0
    ensures deltaY > 0.0 ==> 0.0 < WheelScaleBy(pageScale, deltaY, pinchZoomSpeed) < 1.0
    ensures deltaY < 0.0 ==> WheelScaleBy(pageScale, deltaY, pinchZoomSpeed) > 1.0
    ensures deltaY == 0.0 ==> WheelScaleBy(pageScale, deltaY, pinchZoomSpeed) == 1.0
  {
    var d := deltaY * (pinchZoomSpeed * ZoomSpeedMultiplier);
    var n := pageScale + d;
    assert deltaY > 0.0 ==> d > 0.0;
    assert deltaY < 0.0 ==> d < 0.0;
    assert WheelScaleBy(pageScale, deltaY, pinchZoomSpeed) == pageScale / n;
  }

  /**
   * A wheel-up hard enough to make the new scale negative gives a negative
   * factor, which the scale clamp turns into scale 1: the page zooms all the
   * way out.
   */
  lemma {:induction false} HardWheelUpZoomsOut(pageScale: real, deltaY: real, pinchZoomSpeed: real)
    requires pageScale >= MinScale
    requires pageScale + deltaY * (pinchZoomSpeed * ZoomSpeedMultiplier) < 0.0
    ensures WheelScaleBy(pageScale, deltaY, pinchZoomSpeed) < 0.0
    ensures ScaleAfter(pageScale, WheelScaleBy(pageScale, deltaY, pinchZoomSpeed)) == MinScale
  {
    var n := pageScale + deltaY * (pinchZoomSpeed * ZoomSpeedMultiplier);
    var k := WheelScaleBy(pageScale, deltaY, pinchZoomSpeed);
    assert k == pageScale / n;
    assert k < 0.0;
    assert pageScale * k < 0.0;
  }

  /** At scale 2 with the default speed, a wheel-up of 1000 asks for a negative factor and lands on scale 1. */
  lemma HardWheelUpExample()
    ensures WheelScaleBy(2.0, -1000.0, 0.7) < 0.0
    ensures ScaleAfter(2.0, WheelScaleBy(2.0, -1000.0, 0.7)) == MinScale
  {
    HardWheelUpZoomsOut(2.0, -1000.0, 0.7);
  }

  /**
   * The low-quality render writes perspective(1px) translateZ(z px) with
   * z = 1 - 1/scale; the magnification of that projection, p / (p - z), is the scale.
   */
  function PerspectiveDepth(s: real): real
    requires s > 0.0
  {
    1.0 - 1.0 / s
  }

  lemma PerspectiveMagnifiesByScale(s: real)
    requires s > 0.0
    ensures 1.0 - PerspectiveDepth(s) > 0.0
    ensures 1.0 / (1.0 - PerspectiveDepth(s)) == s
  {
  }

  /**
   * What applyScale does to one translation coordinate when the scale really
   * changes: re-anchor by the effective factor, then clamp.
   */
  function Retranslate(t: real, z: real, effective: real, extent: int): real
  {
    ClampTranslation(Anchor(t, z, effective), extent)
  }

  /**
   * A re-translated coordinate lies in the scroll range; it is the re-anchored
   * value whenever that already lies in the range.
   */
  lemma RetranslateCases(t: real, z: real, effective: real, extent: int)
    requires extent >= 0
    ensures -(extent as real) <= Retranslate(t, z, effective, extent) <= 0.0
    ensures -(extent as real) <= Anchor(t, z, effective) <= 0.0 ==> Retranslate(t, z, effective, extent) == Anchor(t, z, effective)
    ensures -(extent as real) <= t <= 0.0 ==> Retranslate(t, z, 1.0, extent) == t
  {
  }

  /** Scaling by k and back by 1/k, both inside [1, 10], returns to the scale; the effective factors are k and 1/k. */
  lemma ScaleRoundTrip(s: real, k: real)
    requires MinScale <= s <= MaxScale && k > 0.0
    requires MinScale <= s * k <= MaxScale
    ensures ScaleAfter(s, k) == s * k
    ensures ScaleAfter(s * k, 1.0 / k) == s
    ensures (s * k) / s == k && s / (s * k) == 1.0 / k
  {
    assert (s * k) * (1.0 / k) == s;
  }

  /**
   * applyScale by k and then by 1/k about one anchor restores the scale and
   * the translation whenever neither the scale clamp nor the translation clamp bites.
   */
  lemma ZoomRoundTrip(s: real, t: real, z: real, k: real, extent: int)
    requires MinScale <= s <= MaxScale && k > 0.0
    requires MinScale <= s * k <= MaxScale
    requires -(extent as real) <= t <= 0.0
    requires -(extent as real) <= Anchor(t, z, k) <= 0.0
    ensures ScaleAfter(ScaleAfter(s, k), 1.0 / k) == s
    ensures var s1 := ScaleAfter(s, k);
            var s2 := ScaleAfter(s1, 1.0 / k);
            Retranslate(Retranslate(t, z, s1 / s, extent), z, s2 / s1, extent) == t
  {
    ScaleRoundTrip(s, k);
    AnchorInverse(t, z, k);
  }
}
