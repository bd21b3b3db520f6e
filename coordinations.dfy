/** The coordinate helpers of src/utils/Coordinations.js. A physics body is
    positioned by its centre and drawn from its top-left corner; the two
    conversions shift each axis by half the size. */
module Coordinations {
  import opened Vector

  /** `cornerToCenter(body, size)`: from a body's position to the drawing
      corner; converting that corner back gives the position again. */
  function CornerToCenter(position: Vec, size: Vec): (r: Vec)
    ensures CenterToCorner(r.x, r.y, size) == position
  {
    Vec(position.x - size.x / 2.0, position.y - size.y / 2.0)
  }

  /** `centerToCorner(x, y, size)`: from a drawing corner to a body
      position, which lies midway between that corner and the opposite
      one, and inside the box when the size is positive. */
  function CenterToCorner(x: real, y: real, size: Vec): (r: Vec)
    ensures r.x - x == (x + size.x) - r.x && r.y - y == (y + size.y) - r.y
    ensures 0.0 < size.x ==> x < r.x < x + size.x
    ensures 0.0 < size.y ==> y < r.y < y + size.y
  {
    Vec(x + size.x / 2.0, y + size.y / 2.0)
  }

  lemma CornerRoundTrip(x: real, y: real, size: Vec)
    ensures CornerToCenter(CenterToCorner(x, y, size), size) == Vec(x, y)
  {
  }

  lemma CenterRoundTrip(position: Vec, size: Vec)
    ensures var c := CornerToCenter(position, size); CenterToCorner(c.x, c.y, size) == position
  {
  }

  /** `distanceBetween(point1, point2)`. */
  function DistanceBetween(sqrt: real -> real, point1: Vec, point2: Vec): (d: real)
    requires IsSqrt(sqrt)
    ensures 0.0 <= d && d * d == SquaredDistance(point1.x, point1.y, point2.x, point2.y)
    ensures point1 == point2 ==> d == 0.0
  {
    var dx := point2.x - point1.x;
    var dy := point2.y - point1.y;
    sqrt(dx * dx + dy * dy)
  }

  lemma DistanceBetweenSymmetric(sqrt: real -> real, p: Vec, q: Vec)
    requires IsSqrt(sqrt)
    ensures DistanceBetween(sqrt, p, q) == DistanceBetween(sqrt, q, p)
  {
    assert (q.x - p.x) * (q.x - p.x) == (p.x - q.x) * (p.x - q.x);
    assert (q.y - p.y) * (q.y - p.y) == (p.y - q.y) * (p.y - q.y);
  }

  /** `directionTo(fromPoint, toPoint)`: the offset divided by the distance.
      The source divides by zero when the two points coincide, that is when
      the distance is zero. */
  function DirectionTo(sqrt: real -> real, fromPoint: Vec, toPoint: Vec): (r: Vec)
    requires IsSqrt(sqrt) && DistanceBetween(sqrt, fromPoint, toPoint) != 0.0
    ensures var d := DistanceBetween(sqrt, fromPoint, toPoint);
      r.x * d == toPoint.x - fromPoint.x && r.y * d == toPoint.y - fromPoint.y
  {
    var dx := toPoint.x - fromPoint.x;
    var dy := toPoint.y - fromPoint.y;
    var distance := DistanceBetween(sqrt, fromPoint, toPoint);
    Vec(dx / distance, dy / distance)
  }
}
