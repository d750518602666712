/** Plane geometry shared by the three widgets: points, axis-aligned
    rectangles given by their min and max corners, and the half-open
    hit test the mouse widget uses for clicks. Coordinates are `real`;
    the float rounding of the original is not modelled. */
module Geometry {

  datatype Vec2 = Vec2(x: real, y: real)

  /** An axis-aligned rectangle from `min` (top-left) to `max` (bottom-right). */
  datatype Rect = Rect(min: Vec2, max: Vec2)

  function Add(a: Vec2, b: Vec2): (r: Vec2)
    ensures r.x - a.x == b.x && r.y - a.y == b.y
  {
    Vec2(a.x + b.x, a.y + b.y)
  }

  /** The rectangle with top-left corner `pos` and extent `size`. */
  function RectAt(pos: Vec2, size: Vec2): (r: Rect)
    ensures r.min == pos
    ensures r.max.x - r.min.x == size.x && r.max.y - r.min.y == size.y
  {
    Rect(pos, Add(pos, size))
  }

  function Width(r: Rect): real { r.max.x - r.min.x }
  function Height(r: Rect): real { r.max.y - r.min.y }

  /** Half-open hit test: `min <= p < max` on both axes, as the
      canvas test and every button test of the mouse widget write it. */
  predicate InsideHalfOpen(p: Vec2, r: Rect)
  {
    r.min.x <= p.x < r.max.x && r.min.y <= p.y < r.max.y
  }

  /** `inner` lies within `outer` (closed containment). */
  predicate RectWithin(inner: Rect, outer: Rect)
  {
    outer.min.x <= inner.min.x && inner.max.x <= outer.max.x &&
    outer.min.y <= inner.min.y && inner.max.y <= outer.max.y
  }

  /** The interiors of the two rectangles do not meet. */
  predicate Disjoint(a: Rect, b: Rect)
  {
    a.max.x <= b.min.x || b.max.x <= a.min.x || a.max.y <= b.min.y || b.max.y <= a.min.y
  }

  /** A point that passes the half-open test of `inner` passes it for
      every rectangle that contains `inner`. */
  lemma InsideWithin(p: Vec2, inner: Rect, outer: Rect)
    requires InsideHalfOpen(p, inner) && RectWithin(inner, outer)
    ensures InsideHalfOpen(p, outer)
  {
  }

  /** Two rectangles with disjoint interiors never both claim a point
      under the half-open test: a click lands in at most one of them. */
  lemma DisjointHitsAtMostOne(p: Vec2, a: Rect, b: Rect)
    requires Disjoint(a, b)
    ensures !(InsideHalfOpen(p, a) && InsideHalfOpen(p, b))
  {
  }
}
