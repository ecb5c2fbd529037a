/** Axis-aligned rectangles and the strict overlap test that both games use:
    `aabbIntersect` in the drift demo and `aabbCollide` in the invaders game are
    the same four comparisons. */
module Geometry {

  /** A rectangle with its top-left corner at (x, y), width w and height h
      (screen space: y grows downwards). */
  datatype Rect = Rect(x: real, y: real, w: real, h: real)

  /** The strict overlap test: the two boxes share some interior area. */
  predicate Intersects(a: Rect, b: Rect)
  {
    a.x < b.x + b.w && a.x + a.w > b.x && a.y < b.y + b.h && a.y + a.h > b.y
  }

  /** The test does not depend on which box is named first. */
  lemma IntersectsSymmetric(a: Rect, b: Rect)
    ensures Intersects(a, b) <==> Intersects(b, a)
  {
  }

  /** Boxes that only touch along an edge do not intersect: here `b` starts
      exactly where `a` ends, horizontally or vertically. */
  lemma TouchingEdgesDoNotIntersect(a: Rect, b: Rect)
    requires b.x == a.x + a.w || b.y == a.y + a.h
    ensures !Intersects(a, b) && !Intersects(b, a)
  {
  }

  /** A well-formed box (positive width and height) overlaps itself, so the
      test is not vacuously false. */
  lemma WellFormedSelfIntersects(a: Rect)
    requires a.w > 0.0 && a.h > 0.0
    ensures Intersects(a, a)
  {
  }

  /** Translating both boxes by the same offset does not change the verdict. */
  lemma IntersectsTranslationInvariant(a: Rect, b: Rect, dx: real, dy: real)
    ensures Intersects(a, b) <==>
            Intersects(Rect(a.x + dx, a.y + dy, a.w, a.h), Rect(b.x + dx, b.y + dy, b.w, b.h))
  {
  }
}
