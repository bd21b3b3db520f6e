/** `FitnessManager` of src/Ai/FitnessManager.js: a reward rule that keeps
    its own best distance and stagnation count. The distance to the goal is
    passed in; the source computes it from fields that do not exist on the
    body, which the model does not follow. */
module FitnessManager {
  import opened Extended
  import opened Progress

  /** `reward - punishment`: 2 for a strict improvement, -1 otherwise. The
      stagnation branch only touches the counter and never the result. */
  function RewardValue(t: Tracker, distance: real): (r: int)
    ensures r == 2 || r == -1
    ensures r == 2 <==> Improves(t, distance)
  {
    if Improves(t, distance) then 2 else -1
  }

  /** The rewards returned over a run of calls. */
  function Rewards(t: Tracker, ds: seq<real>): int
    decreases |ds|
  {
    if ds == [] then 0 else RewardValue(t, ds[0]) + Rewards(Observe(t, ds[0]), ds[1..])
  }

  /** Calls without progress each cost exactly 1, whether or not the
      counter wraps on the way. */
  lemma {:induction false} StalledRewards(t: Tracker, ds: seq<real>)
    requires NoneBelow(ds, t.bestDistance)
    ensures Rewards(t, ds) == -|ds|
    ensures Run(t, ds).0.bestDistance == t.bestDistance
    decreases |ds|
  {
    if ds != [] {
      assert !Improves(t, ds[0]);
      StalledRewards(Observe(t, ds[0]), ds[1..]);
    }
  }

  class FitnessManager {
    var bestDistance: Extended
    var timeSinceLastProgress: nat

    function Tracker(): Tracker
      reads this
    {
      Progress.Tracker(bestDistance, timeSinceLastProgress)
    }

    constructor ()
      ensures bestDistance == PosInfinity && timeSinceLastProgress == 0
      ensures Tracker() == Initial
    {
      bestDistance := PosInfinity;
      timeSinceLastProgress := 0;
    }

    /** `reward(agent, goal)` for the agent at `distance` from the goal. */
    method Reward(distance: real) returns (r: int)
      modifies this
      ensures r == RewardValue(old(Tracker()), distance)
      ensures Tracker() == Observe(old(Tracker()), distance)
      ensures timeSinceLastProgress <= TimeThreshold
      ensures AtMost(bestDistance, old(bestDistance))
    {
      var reward := 0;
      var punishment := 0;
      if Below(distance, bestDistance) {
        bestDistance := Finite(distance);
        timeSinceLastProgress := 0;
        reward := reward + 2;
      } else {
        timeSinceLastProgress := timeSinceLastProgress + 1;
        punishment := punishment + 1;
      }
      if timeSinceLastProgress > TimeThreshold {
        timeSinceLastProgress := 0;
      }
      r := reward - punishment;
    }
  }
}
