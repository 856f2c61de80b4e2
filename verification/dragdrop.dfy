/** Hit-testing of a cursor position against an element's box (src/lib/utils/dragdrop.ts). */
module DragDrop {

  /** The four bounds of a `DOMRect` that the test reads. */
  datatype Rect = Rect(left: real, top: real, right: real, bottom: real)

  /** `isPointInRect`: the point lies within the closed box. */
  predicate IsPointInRect(x: real, y: real, rect: Rect) {
    x >= rect.left && x <= rect.right && y >= rect.top && y <= rect.bottom
  }

  /** The four corners of a well-formed box are inside it, and so is every point of its
      edges. */
  lemma EdgesInside(rect: Rect, x: real, y: real)
    requires rect.left <= rect.right && rect.top <= rect.bottom
    ensures IsPointInRect(rect.left, rect.top, rect) && IsPointInRect(rect.right, rect.bottom, rect)
    ensures IsPointInRect(rect.left, rect.bottom, rect) && IsPointInRect(rect.right, rect.top, rect)
    ensures rect.left <= x <= rect.right ==> IsPointInRect(x, rect.top, rect) && IsPointInRect(x, rect.bottom, rect)
    ensures rect.top <= y <= rect.bottom ==> IsPointInRect(rect.left, y, rect) && IsPointInRect(rect.right, y, rect)
  {
  }

  /** A box whose left bound lies right of its right bound, or whose top lies below its
      bottom, contains no point. */
  lemma InvertedRectEmpty(rect: Rect, x: real, y: real)
    requires rect.left > rect.right || rect.top > rect.bottom
    ensures !IsPointInRect(x, y, rect)
  {
  }

  /** Points inside a box are inside every box that encloses it. */
  lemma EnclosingRect(inner: Rect, outer: Rect, x: real, y: real)
    requires outer.left <= inner.left && inner.right <= outer.right
    requires outer.top <= inner.top && inner.bottom <= outer.bottom
    ensures IsPointInRect(x, y, inner) ==> IsPointInRect(x, y, outer)
  {
  }

  /** The box is convex: every point on the segment between two inside points is inside. */
  lemma {:induction false} SegmentInside(rect: Rect, x0: real, y0: real, x1: real, y1: real, t: real)
    requires IsPointInRect(x0, y0, rect) && IsPointInRect(x1, y1, rect)
    requires 0.0 <= t <= 1.0
    ensures IsPointInRect(x0 + t * (x1 - x0), y0 + t * (y1 - y0), rect)
  {
    Between(rect.left, rect.right, x0, x1, t);
    Between(rect.top, rect.bottom, y0, y1, t);
  }

  lemma Between(lo: real, hi: real, a: real, b: real, t: real)
    requires lo <= a <= hi && lo <= b <= hi && 0.0 <= t <= 1.0
    ensures lo <= a + t * (b - a) <= hi
  {
    var u := 1.0 - t;
    var m := a + t * (b - a);
    assert m - lo == u * (a - lo) + t * (b - lo);
    assert hi - m == u * (hi - a) + t * (hi - b);
    ProductNonNegative(u, a - lo);
    ProductNonNegative(t, b - lo);
    ProductNonNegative(u, hi - a);
    ProductNonNegative(t, hi - b);
  }

  lemma ProductNonNegative(x: real, y: real)
    requires x >= 0.0 && y >= 0.0
    ensures x * y >= 0.0
  {
  }
}
