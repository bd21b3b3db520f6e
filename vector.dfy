/** Point records and the distance helpers of src/utils/Vector.js.
    `Math.sqrt` cannot be computed over Dafny's reals, so it is a parameter
    that the caller promises behaves as the square root does. */
module Vector {
  datatype Vec = Vec(x: real, y: real)

  /** `f` behaves as `Math.sqrt` on non-negative arguments: its result is
      non-negative, squares back to the argument, and the root of 0 is 0. */
  ghost predicate IsSqrt(f: real -> real)
  {
    && f(0.0) == 0.0
    && forall v :: 0.0 <= v ==> 0.0 <= f(v) && f(v) * f(v) == v
  }

  /** The square of the Euclidean distance between (x1, y1) and (x2, y2). */
  function SquaredDistance(x1: real, y1: real, x2: real, y2: real): real
  {
    (x2 - x1) * (x2 - x1) + (y2 - y1) * (y2 - y1)
  }

  /** Linear interpolation `(1 - amt) * start + amt * end`; the same helper is
      declared privately in src/Box.js. */
  function Lerp(start: real, end: real, amt: real): (r: real)
    ensures amt == 0.0 ==> r == start
    ensures amt == 1.0 ==> r == end
    ensures r - start == amt * (end - start)
  {
    (1.0 - amt) * start + amt * end
  }

  /** `calculateDistance(x1, y1, x2, y2)`: the Euclidean distance. */
  function CalculateDistance(sqrt: real -> real, x1: real, y1: real, x2: real, y2: real): (d: real)
    requires IsSqrt(sqrt)
    ensures 0.0 <= d && d * d == SquaredDistance(x1, y1, x2, y2)
    ensures x1 == x2 && y1 == y2 ==> d == 0.0
  {
    var xDistance := x2 - x1;
    var yDistance := y2 - y1;
    sqrt(xDistance * xDistance + yDistance * yDistance)
  }

  lemma DistanceSymmetric(sqrt: real -> real, x1: real, y1: real, x2: real, y2: real)
    requires IsSqrt(sqrt)
    ensures CalculateDistance(sqrt, x1, y1, x2, y2) == CalculateDistance(sqrt, x2, y2, x1, y1)
  {
    assert (x2 - x1) * (x2 - x1) == (x1 - x2) * (x1 - x2);
    assert (y2 - y1) * (y2 - y1) == (y1 - y2) * (y1 - y2);
  }

  /** `isNearby(entity, entity2, threshold = 100)` on the two positions. */
  function IsNearby(sqrt: real -> real, entity: Vec, entity2: Vec, threshold: real := 100.0): (near: bool)
    requires IsSqrt(sqrt)
    ensures near <==> CalculateDistance(sqrt, entity.x, entity.y, entity2.x, entity2.y) < threshold
    ensures entity == entity2 ==> (near <==> 0.0 < threshold)
  {
    CalculateDistance(sqrt, entity.x, entity.y, entity2.x, entity2.y) < threshold
  }

  lemma NearbySymmetric(sqrt: real -> real, e1: Vec, e2: Vec, threshold: real)
    requires IsSqrt(sqrt)
    ensures IsNearby(sqrt, e1, e2, threshold) == IsNearby(sqrt, e2, e1, threshold)
  {
    DistanceSymmetric(sqrt, e1.x, e1.y, e2.x, e2.y);
  }
}
