/** The `Box` entity of src/Box.js: a physics body with a ground sensor,
    a force rule driven by three controls, and scale bookkeeping. The body
    itself belongs to the physics engine; the model keeps the position and
    velocity it reports and the state of the ground sensor. */
module Box {
  import opened Wrappers
  import opened Vector
  import opened Coordinations

  /** The controls `movement` reads. */
  datatype Controls = Controls(up: bool, left: bool, right: bool)

  const HorizontalForceMagnitude: real := 0.01
  const HorizontalForceMagnitudeInJump: real := 0.006
  const JumpForce: real := 0.08

  /** The force `movement` computes for the controls, in the air or on the
      ground. A horizontal push in the air has the in-air magnitude applied
      twice, once when chosen and once more by the in-air damping. */
  function Force(controls: Controls, inAir: bool): (f: Vec)
    ensures !controls.left && !controls.right ==> f.x == 0.0
    ensures controls.left ==> f.x < 0.0
    ensures !controls.left && controls.right ==> f.x > 0.0
    ensures (controls.left || controls.right) && !inAir ==>
      (f.x == HorizontalForceMagnitude || f.x == -HorizontalForceMagnitude)
    ensures (controls.left || controls.right) && inAir ==>
      (f.x == 0.000036 || f.x == -0.000036)
    ensures f.y == -JumpForce <==> controls.up && !inAir
    ensures f.y == 0.0 || f.y == -JumpForce
  {
    var magnitude :=
      if !(controls.left || controls.right) then 0.0
      else if inAir then HorizontalForceMagnitudeInJump * HorizontalForceMagnitudeInJump
      else HorizontalForceMagnitude;
    Vec(if controls.left then -magnitude else magnitude,
        if controls.up && !inAir then -JumpForce else 0.0)
  }

  /** The force is handed to the engine only when one component is nonzero. */
  function Applied(controls: Controls, inAir: bool): (applied: Option<Vec>)
    ensures applied.Some? <==> controls.left || controls.right || (controls.up && !inAir)
    ensures applied.Some? ==> applied.value == Force(controls, inAir)
  {
    var f := Force(controls, inAir);
    if f.x != 0.0 || f.y != 0.0 then Some(f) else None
  }

  /** Scale components after `k` calls of `resetScale`. */
  function Resets(s: real, k: nat): real
    decreases k
  {
    if k == 0 then s else Resets(Lerp(s, 1.0, 0.1), k - 1)
  }

  /** One `resetScale` moves a component a tenth of the way to 1. */
  lemma ResetStep(s: real)
    ensures Lerp(s, 1.0, 0.1) - 1.0 == 0.9 * (s - 1.0)
  {
  }

  /** Repeated resets stay between the start value and 1, from either
      side, and never overshoot 1; a scale of 1 stays 1. */
  lemma {:induction false} ResetsApproachOne(s: real, k: nat)
    ensures 1.0 <= s ==> 1.0 <= Resets(s, k) <= s
    ensures s <= 1.0 ==> s <= Resets(s, k) <= 1.0
    ensures s == 1.0 ==> Resets(s, k) == 1.0
    decreases k
  {
    if k > 0 {
      ResetStep(s);
      ResetsApproachOne(Lerp(s, 1.0, 0.1), k - 1);
    }
  }

  /** One more reset is one more step from where the last one left off. */
  lemma {:induction false} ResetsLast(s: real, k: nat)
    ensures Resets(s, k + 1) == Lerp(Resets(s, k), 1.0, 0.1)
    decreases k
  {
    if k > 0 {
      ResetsLast(Lerp(s, 1.0, 0.1), k - 1);
    }
  }

  /** Each further reset moves toward 1, never away from it, and shrinks
      the gap to 1 by a tenth. */
  lemma ResetsMonotone(s: real, k: nat)
    ensures 1.0 <= s ==> Resets(s, k + 1) <= Resets(s, k)
    ensures s <= 1.0 ==> Resets(s, k) <= Resets(s, k + 1)
    ensures Resets(s, k + 1) - 1.0 == 0.9 * (Resets(s, k) - 1.0)
  {
    ResetsLast(s, k);
    ResetStep(Resets(s, k));
    ResetsApproachOne(s, k);
  }

  class Box {
    /** `body.position` and `body.velocity`, as the engine reports them. */
    var position: Vec
    var velocity: Vec
    /** `groundSensor.isColliding`, set by the collision listeners. */
    var groundSensorColliding: bool
    const width: real
    const height: real
    var currentScale: Vec

    /** `new Box(x, y, width, height, options)`: the body is centred at
        `centerToCorner(x, y, size)`, the sensor starts clear and the scale
        at (1, 1). */
    constructor (x: real, y: real, width: real, height: real)
      ensures position == CenterToCorner(x, y, Vec(width, height))
      ensures CornerToCenter(position, Vec(width, height)) == Vec(x, y)
      ensures velocity == Vec(0.0, 0.0)
      ensures !groundSensorColliding
      ensures this.width == width && this.height == height
      ensures currentScale == Vec(1.0, 1.0)
    {
      position := CenterToCorner(x, y, Vec(width, height));
      velocity := Vec(0.0, 0.0);
      groundSensorColliding := false;
      this.width := width;
      this.height := height;
      currentScale := Vec(1.0, 1.0);
      CornerRoundTrip(x, y, Vec(width, height));
    }

    /** `isInAir()`: the ground sensor touches nothing. */
    predicate IsInAir()
      reads this
    {
      !groundSensorColliding
    }

    /** The box is in the air exactly when its sensor touches no ground,
        and then `up` gives no jump force; on the ground it does. */
    lemma InAirNoJump(controls: Controls)
      ensures IsInAir() <==> !groundSensorColliding
      ensures IsInAir() ==> Force(controls, IsInAir()).y == 0.0
      ensures !IsInAir() && controls.up ==> Force(controls, IsInAir()).y == -JumpForce
    {
    }

    /** `scale(sx, sy)`: the engine rescales the body by the ratio to the
        current scale and the box records the new scale. */
    method Scale(sx: real, sy: real)
      modifies this
      ensures currentScale == Vec(sx, sy)
      ensures position == old(position) && velocity == old(velocity)
      ensures groundSensorColliding == old(groundSensorColliding)
    {
      currentScale := Vec(sx, sy);
    }

    /** `resetScale()`. */
    method ResetScale()
      modifies this
      ensures currentScale.x - 1.0 == 0.9 * (old(currentScale.x) - 1.0)
      ensures currentScale.y - 1.0 == 0.9 * (old(currentScale.y) - 1.0)
      ensures currentScale == Vec(Resets(old(currentScale.x), 1), Resets(old(currentScale.y), 1))
      ensures position == old(position) && velocity == old(velocity)
      ensures groundSensorColliding == old(groundSensorColliding)
    {
      var targetScaleX := Lerp(currentScale.x, 1.0, 0.1);
      var targetScaleY := Lerp(currentScale.y, 1.0, 0.1);
      ResetStep(currentScale.x);
      ResetStep(currentScale.y);
      Scale(targetScaleX, targetScaleY);
    }

    /** `movement(p, controls)`: the force applied to the body this frame,
        if any. */
    method Movement(controls: Controls) returns (applied: Option<Vec>)
      ensures applied == Applied(controls, IsInAir())
    {
      var horizontalForce := 0.0;
      var verticalForce := 0.0;
      if controls.left || controls.right {
        horizontalForce := if IsInAir() then HorizontalForceMagnitudeInJump else HorizontalForceMagnitude;
        if controls.left {
          horizontalForce := horizontalForce * -1.0;
        }
      }
      if controls.up && !IsInAir() {
        verticalForce := -JumpForce;
      }
      if IsInAir() {
        horizontalForce := horizontalForce * HorizontalForceMagnitudeInJump;
      }
      if horizontalForce != 0.0 || verticalForce != 0.0 {
        applied := Some(Vec(horizontalForce, verticalForce));
      } else {
        applied := None;
      }
    }
  }
}
