/** `MovablePlatform` of src/entities/MovablePlatform.js: a static platform
    body that travels from waypoint to waypoint, cycling through the list. */
module MovablePlatform {
  import opened Wrappers
  import opened Vector
  import opened Coordinations

  /** `Waypoint` of src/entities/Wapoint.js: a point and the speed at which
      the platform leaves it. */
  datatype Waypoint = Waypoint(x: real, y: real, speed: real)

  function Point(w: Waypoint): Vec
  {
    Vec(w.x, w.y)
  }

  /** The size every `Platform` body has. */
  const PlatformSize: Vec := Vec(100.0, 20.0)

  /** `(i + 1) % waypoints.length`. */
  function NextIndex(i: nat, count: nat): (next: nat)
    requires i < count
    ensures next < count
    ensures next == if i + 1 == count then 0 else i + 1
  {
    (i + 1) % count
  }

  /** The index after `k` arrivals. */
  function Advance(i: nat, count: nat, k: nat): (r: nat)
    requires i < count
    ensures r < count
    decreases k
  {
    if k == 0 then i else Advance(NextIndex(i, count), count, k - 1)
  }

  lemma {:induction false} AdvanceSplit(i: nat, count: nat, a: nat, b: nat)
    requires i < count
    ensures Advance(i, count, a + b) == Advance(Advance(i, count, a), count, b)
    decreases a
  {
    if a > 0 {
      AdvanceSplit(NextIndex(i, count), count, a - 1, b);
    }
  }

  /** Before the end of the list the index just counts up. */
  lemma {:induction false} AdvanceForward(i: nat, count: nat, k: nat)
    requires i + k < count
    ensures Advance(i, count, k) == i + k
    decreases k
  {
    if k > 0 {
      AdvanceForward(i + 1, count, k - 1);
    }
  }

  /** The platform takes the waypoints in turn: from any index, `count`
      arrivals bring it back to the same waypoint, having passed the last
      one and started again from the first. */
  lemma FullCycle(i: nat, count: nat)
    requires i < count
    ensures Advance(i, count, count - i) == 0
    ensures Advance(i, count, count) == i
  {
    AdvanceForward(i, count, count - i - 1);
    AdvanceSplit(i, count, count - i - 1, 1);
    AdvanceSplit(i, count, count - i, i);
    AdvanceForward(0, count, i);
  }

  /** Multiplication of a direction by a speed, component by component. */
  function Times(v: Vec, k: real): Vec
  {
    Vec(v.x * k, v.y * k)
  }

  /** What one `update()` did. */
  datatype Step = Translated(offset: Vec) | Arrived(index: nat)

  class MovablePlatform {
    const waypoints: seq<Waypoint>
    var currentWaypointIndex: nat
    /** `body.position`. */
    var position: Vec

    /** The index names a waypoint whenever there is one. */
    predicate OnRoute()
      reads this
    {
      |waypoints| > 0 ==> currentWaypointIndex < |waypoints|
    }

    /** `new MovablePlatform(x, y, waypoints)`: the platform body is placed
        as `Platform` places it, and the route starts at the first
        waypoint. */
    constructor (x: real, y: real, waypoints: seq<Waypoint>)
      ensures this.waypoints == waypoints && currentWaypointIndex == 0
      ensures position == CenterToCorner(x, y, PlatformSize)
      ensures OnRoute()
    {
      this.waypoints := waypoints;
      currentWaypointIndex := 0;
      position := CenterToCorner(x, y, PlatformSize);
    }

    /** `update()`: move toward the next waypoint by the current waypoint's
        speed, or, when that would reach it, switch to it. With no
        waypoints the source fails reading a property of `undefined`; when
        the platform already sits on the next waypoint and the speed is
        negative it translates by `NaN`; both are errors here. */
    method Update(sqrt: real -> real) returns (r: Result<Step, string>)
      requires IsSqrt(sqrt) && OnRoute()
      modifies this`currentWaypointIndex, this`position
      ensures OnRoute()
      ensures r.Err? <==> (|waypoints| == 0 ||
        var next := Point(waypoints[NextIndex(old(currentWaypointIndex), |waypoints|)]);
        DistanceBetween(sqrt, old(position), next) == 0.0 &&
        waypoints[old(currentWaypointIndex)].speed < 0.0)
      ensures r.Err? ==> position == old(position) && currentWaypointIndex == old(currentWaypointIndex)
      ensures r.Ok? ==>
        var i := old(currentWaypointIndex);
        var nextIndex := NextIndex(i, |waypoints|);
        var next := Point(waypoints[nextIndex]);
        var speed := waypoints[i].speed;
        var distance := DistanceBetween(sqrt, old(position), next);
        if distance > speed then
          && distance != 0.0
          && r.value == Translated(Times(DirectionTo(sqrt, old(position), next), speed))
          && position == Vec(old(position).x + r.value.offset.x, old(position).y + r.value.offset.y)
          && currentWaypointIndex == i
        else
          && r.value == Arrived(nextIndex)
          && position == old(position)
          && currentWaypointIndex == nextIndex
    {
      if |waypoints| == 0 {
        return Err("Cannot read properties of undefined");
      }
      var currentWaypoint := waypoints[currentWaypointIndex];
      var nextWaypointIndex := NextIndex(currentWaypointIndex, |waypoints|);
      var nextWaypoint := Point(waypoints[nextWaypointIndex]);
      var distanceToNextWaypoint := DistanceBetween(sqrt, position, nextWaypoint);
      if distanceToNextWaypoint > currentWaypoint.speed {
        if distanceToNextWaypoint == 0.0 {
          return Err("translation by NaN");
        }
        var direction := DirectionTo(sqrt, position, nextWaypoint);
        var offset := Times(direction, currentWaypoint.speed);
        position := Vec(position.x + offset.x, position.y + offset.y);
        r := Ok(Translated(offset));
      } else {
        currentWaypointIndex := nextWaypointIndex;
        r := Ok(Arrived(nextWaypointIndex));
      }
    }
  }
}
