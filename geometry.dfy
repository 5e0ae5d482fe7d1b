/**
 * Layout geometry shared by the three scenes: rectangles as the browser's
 * getBoundingClientRect reports them (y grows downwards), the clamp every
 * scene applies after a position update, and the two overlap tests.
 */
module Geometry {

  /** A layout rectangle in page pixels. */
  datatype Rect = Rect(left: real, top: real, right: real, bottom: real) {
    /** What the browser guarantees of a rendered box. */
    predicate WellFormed() { left <= right && top <= bottom }
    function Height(): real { bottom - top }
  }

  function Min(a: real, b: real): real { if a < b then a else b }
  function Max(a: real, b: real): real { if a > b then a else b }

  /**
   * `Math.max(lo, Math.min(x, hi))`. When the range is empty (lo > hi) the
   * outer max wins and the result is lo.
   */
  function Clamp(x: real, lo: real, hi: real): (r: real)
    ensures lo <= r
    ensures lo <= hi ==> r <= hi
    ensures lo <= x <= hi ==> r == x
    ensures x < lo ==> r == lo
    ensures lo <= hi < x ==> r == hi
    ensures hi < lo ==> r == lo
  {
    Max(lo, Min(x, hi))
  }

  /** The inward tolerance both car scenes give every house rectangle. */
  const Padding: real := 30.0

  /**
   * The car scenes' collision test: the rectangles overlap unless the car is
   * entirely left of, right of, above or below the zone shrunk by `padding`.
   */
  predicate PaddedOverlap(car: Rect, zone: Rect, padding: real)
    ensures PaddedOverlap(car, zone, padding) <==> ClosedOverlap(car, Shrink(zone, padding))
  {
    !(car.right < zone.left + padding ||
      car.left > zone.right - padding ||
      car.bottom < zone.top + padding ||
      car.top > zone.bottom - padding)
  }

  /** The padded collision test of one car against every zone, in page order. */
  function OverlapFlags(car: Rect, zoneRects: seq<Rect>): (r: seq<bool>)
    ensures |r| == |zoneRects|
    ensures forall k :: 0 <= k < |r| ==> r[k] == PaddedOverlap(car, zoneRects[k], Padding)
  {
    seq(|zoneRects|, k requires 0 <= k < |zoneRects| => PaddedOverlap(car, zoneRects[k], Padding))
  }

  /** The zone rectangle moved inwards by `padding` on every side. */
  function Shrink(zone: Rect, padding: real): (r: Rect)
    ensures r.right - r.left == zone.right - zone.left - 2.0 * padding
    ensures r.bottom - r.top == zone.bottom - zone.top - 2.0 * padding
  {
    Rect(zone.left + padding, zone.top + padding, zone.right - padding, zone.bottom - padding)
  }

  /** Closed-interval overlap on both axes (touching edges count). */
  predicate ClosedOverlap(a: Rect, b: Rect)
  {
    a.left <= b.right && b.left <= a.right && a.top <= b.bottom && b.top <= a.bottom
  }

  /** The overlap relation is symmetric, so the padded test is too once the margin is applied. */
  lemma ClosedOverlapSymmetric(a: Rect, b: Rect)
    ensures ClosedOverlap(a, b) <==> ClosedOverlap(b, a)
  {
  }

  /** The point (x, y) lies in the closed rectangle r. */
  predicate Contains(r: Rect, x: real, y: real)
  {
    r.left <= x <= r.right && r.top <= y <= r.bottom
  }

  /**
   * A car covering a single point that lies in the shrunk area of two zones
   * is reported as colliding with both.
   */
  lemma SharedRegionHitsBoth(car: Rect, z1: Rect, z2: Rect, x: real, y: real)
    requires Contains(car, x, y)
    requires Contains(Shrink(z1, Padding), x, y) && Contains(Shrink(z2, Padding), x, y)
    ensures PaddedOverlap(car, z1, Padding) && PaddedOverlap(car, z2, Padding)
  {
  }

  /**
   * The quiz's collision test: strict overlap on both axes (touching edges do
   * not count).
   */
  predicate StrictOverlap(a: Rect, b: Rect)
    ensures StrictOverlap(a, b) ==> ClosedOverlap(a, b) && ClosedOverlap(b, a)
    ensures a.right == b.left || a.bottom == b.top ==> !StrictOverlap(a, b)
  {
    a.right > b.left && a.left < b.right && a.bottom > b.top && a.top < b.bottom
  }

  lemma StrictOverlapSymmetric(a: Rect, b: Rect)
    ensures StrictOverlap(a, b) <==> StrictOverlap(b, a)
  {
  }
}
