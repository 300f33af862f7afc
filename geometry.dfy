/** Axis-aligned rectangles and the overlap test that every entity pair of the platformer uses. */
module Geometry {
  /** A rectangle by its top-left corner, width and height (screen y grows downwards). */
  datatype Rect = Rect(x: real, y: real, w: real, h: real)

  /**
   * The strict overlap test of `check_collision`: the rectangles share an
   * interior point, so touching edges do not count.
   */
  predicate Overlaps(a: Rect, b: Rect)
  {
    a.x < b.x + b.w && a.x + a.w > b.x && a.y < b.y + b.h && a.y + a.h > b.y
  }

  function Max(a: real, b: real): real { if a < b then b else a }
  function Min(a: real, b: real): real { if a < b then a else b }

  /** Overlap is symmetric, so `a.check_collision(b)` and `b.check_collision(a)` agree. */
  lemma OverlapsSymmetric(a: Rect, b: Rect)
    ensures Overlaps(a, b) <==> Overlaps(b, a)
  {
  }

  /**
   * For rectangles of positive size the strict test says exactly that the
   * intersection of the two x spans and of the two y spans has positive length.
   */
  lemma OverlapsIffIntersectionPositive(a: Rect, b: Rect)
    requires a.w > 0.0 && a.h > 0.0 && b.w > 0.0 && b.h > 0.0
    ensures Overlaps(a, b) <==>
      Max(a.x, b.x) < Min(a.x + a.w, b.x + b.w) && Max(a.y, b.y) < Min(a.y + a.h, b.y + b.h)
  {
  }

  /**
   * Length of the shared part of the integer spans [x, x+w) and [px, px+pw),
   * computed as the world generator does: zero unless the spans intersect.
   */
  function SpanOverlap(x: int, w: int, px: int, pw: int): (o: int)
    ensures w >= 0 && pw >= 0 ==> 0 <= o <= w && o <= pw
    ensures w > 0 && pw > 0 ==> (o > 0 <==> x < px + pw && x + w > px)
    ensures !(x < px + pw && x + w > px) ==> o == 0
  {
    if x < px + pw && x + w > px then
      var lo := if x < px then px else x;
      var hi := if x + w < px + pw then x + w else px + pw;
      hi - lo
    else 0
  }
}
