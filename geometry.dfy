/**
 * Plain rectangles: the node's target area (a Rectangle) and the position part of
 * its current area (a CollisionBox). Coordinates are reals, not IEEE floats.
 */
module Geometry {
  datatype Rect = Rect(x: real, y: real, width: real, height: real)

  /** A point of the screen. */
  datatype Point = Point(x: real, y: real)

  const Origin := Point(0.0, 0.0)

  /** Point containment of a closed, axis-aligned rectangle. */
  predicate Contains(r: Rect, px: real, py: real)
  {
    r.x <= px <= r.x + r.width && r.y <= py <= r.y + r.height
  }

  /** The rectangle moved by the vector from the origin to p; its size is unchanged. */
  function Translate(r: Rect, p: Point): Rect
  {
    Rect(p.x + r.x, p.y + r.y, r.width, r.height)
  }

  /**
   * Composing with a position moves the set of contained points by that vector,
   * so a hit test in the parent's coordinates is a hit test of the relative box.
   */
  lemma TranslateContains(r: Rect, p: Point, px: real, py: real)
    ensures Contains(Translate(r, p), p.x + px, p.y + py) <==> Contains(r, px, py)
    ensures Translate(r, Origin) == r
  {
  }
}
