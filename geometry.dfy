/** Axis-aligned integer rectangles and the overlap test every collision uses. */
module Geometry {

  /** A rectangle with top-left corner (x, y), width w and height h. */
  datatype Rect = Rect(x: int, y: int, w: int, h: int) {
    function Right(): int { x + w }
    function Bottom(): int { y + h }
    /** The vertical centre, rounded down for odd heights. */
    function CenterY(): int { y + h / 2 }

    /** The pixel (px, py) lies in the rectangle (right and bottom edges excluded). */
    predicate Contains(px: int, py: int) {
      x <= px < x + w && y <= py < y + h
    }
  }

  /** Strict overlap of the two boxes: rectangles that only share an edge do not overlap. */
  predicate Overlaps(a: Rect, b: Rect) {
    a.x < b.x + b.w && b.x < a.x + a.w &&
    a.y < b.y + b.h && b.y < a.y + a.h
  }

  function Max(a: int, b: int): int { if a < b then b else a }

  lemma OverlapsSymmetric(a: Rect, b: Rect)
    ensures Overlaps(a, b) == Overlaps(b, a)
  {
  }

  /** For non-empty rectangles, overlapping means sharing at least one pixel. */
  lemma OverlapsIffSharedPixel(a: Rect, b: Rect)
    requires a.w > 0 && a.h > 0 && b.w > 0 && b.h > 0
    ensures Overlaps(a, b) <==> exists px, py :: a.Contains(px, py) && b.Contains(px, py)
  {
    if Overlaps(a, b) {
      var px, py := Max(a.x, b.x), Max(a.y, b.y);
      assert a.Contains(px, py) && b.Contains(px, py);
    }
  }
}
