/** The progress/stagnation rule shared by `Agent.updateFitness`
    (src/Agent.js) and `FitnessManager.reward` (src/Ai/FitnessManager.js):
    both keep the best distance to the goal seen so far and a count of
    calls since it last improved, and both reset that count once it passes
    a threshold of ten. */
module Progress {
  import opened Extended

  /** Calls without progress tolerated before the penalty. */
  const TimeThreshold: nat := 10

  datatype Tracker = Tracker(bestDistance: Extended, timeSinceLastProgress: nat)

  /** Both classes start from `Infinity` and a zero count. */
  const Initial: Tracker := Tracker(PosInfinity, 0)

  /** `currentDistance < this.bestDistance`. */
  predicate Improves(t: Tracker, d: real)
  {
    Below(d, t.bestDistance)
  }

  /** The stagnation branch fires: not an improvement, and the incremented
      count passes the threshold. */
  predicate Penalized(t: Tracker, d: real)
  {
    !Improves(t, d) && t.timeSinceLastProgress + 1 > TimeThreshold
  }

  /** The tracker after one observation of distance `d`. */
  function Observe(t: Tracker, d: real): (r: Tracker)
    ensures r.timeSinceLastProgress <= TimeThreshold
    ensures AtMost(r.bestDistance, t.bestDistance)
    ensures Improves(t, d) ==> r == Tracker(Finite(d), 0)
    ensures !Improves(t, d) ==> r.bestDistance == t.bestDistance
    ensures !Improves(t, d) && !Penalized(t, d) ==>
      r.timeSinceLastProgress == t.timeSinceLastProgress + 1
    ensures Penalized(t, d) ==> r.timeSinceLastProgress == 0
  {
    if Improves(t, d) then Tracker(Finite(d), 0)
    else
      var count := t.timeSinceLastProgress + 1;
      if count > TimeThreshold then Tracker(t.bestDistance, 0)
      else Tracker(t.bestDistance, count)
  }

  /** The fitness change `updateFitness` makes: +0.2 on improvement,
      -0.4 on the stagnation penalty, nothing otherwise. */
  function Shaping(t: Tracker, d: real): (delta: real)
    ensures Improves(t, d) <==> delta == 0.2
    ensures Penalized(t, d) <==> delta == -0.4
    ensures !Improves(t, d) && !Penalized(t, d) <==> delta == 0.0
  {
    if Improves(t, d) then 0.2 else if Penalized(t, d) then -0.4 else 0.0
  }

  /** Observing distances in order: the final tracker and the total fitness
      change. */
  function Run(t: Tracker, ds: seq<real>): (Tracker, real)
    decreases |ds|
  {
    if ds == [] then (t, 0.0)
    else
      var rest := Run(Observe(t, ds[0]), ds[1..]);
      (rest.0, Shaping(t, ds[0]) + rest.1)
  }

  /** None of the distances beats `best`. */
  predicate NoneBelow(ds: seq<real>, best: Extended)
  {
    forall i :: 0 <= i < |ds| ==> !Below(ds[i], best)
  }

  lemma AtMostTransitive(a: Extended, b: Extended, c: Extended)
    requires AtMost(a, b) && AtMost(b, c)
    ensures AtMost(a, c)
  {
  }

  /** The best distance never increases across any run of calls. */
  lemma {:induction false} BestNeverIncreases(t: Tracker, ds: seq<real>)
    ensures AtMost(Run(t, ds).0.bestDistance, t.bestDistance)
    decreases |ds|
  {
    if ds != [] {
      var next := Observe(t, ds[0]);
      BestNeverIncreases(next, ds[1..]);
      AtMostTransitive(Run(next, ds[1..]).0.bestDistance, next.bestDistance, t.bestDistance);
    }
  }

  /** After any non-empty run the count lies in [0, 10]. */
  lemma {:induction false} CountBounded(t: Tracker, ds: seq<real>)
    requires ds != []
    ensures Run(t, ds).0.timeSinceLastProgress <= TimeThreshold
    decreases |ds|
  {
    if |ds| > 1 {
      CountBounded(Observe(t, ds[0]), ds[1..]);
    }
  }

  /** Calls without progress that stay within the threshold only count:
      the best distance and the fitness stay as they were. */
  lemma {:induction false} QuietRun(t: Tracker, ds: seq<real>)
    requires NoneBelow(ds, t.bestDistance)
    requires t.timeSinceLastProgress + |ds| <= TimeThreshold
    ensures Run(t, ds) == (Tracker(t.bestDistance, t.timeSinceLastProgress + |ds|), 0.0)
    decreases |ds|
  {
    if ds != [] {
      assert !Improves(t, ds[0]);
      QuietRun(Observe(t, ds[0]), ds[1..]);
    }
  }

  /** The call that takes the count past ten costs exactly 0.4 and resets
      the count: from a count of `c`, the `(11 - c)`-th call without progress
      is penalized. */
  lemma {:induction false} PenaltyRun(t: Tracker, ds: seq<real>)
    requires NoneBelow(ds, t.bestDistance)
    requires t.timeSinceLastProgress <= TimeThreshold
    requires t.timeSinceLastProgress + |ds| == TimeThreshold + 1
    ensures Run(t, ds) == (Tracker(t.bestDistance, 0), -0.4)
    decreases |ds|
  {
    assert !Improves(t, ds[0]);
    if |ds| > 1 {
      PenaltyRun(Observe(t, ds[0]), ds[1..]);
    }
  }

  /** In particular, right after a start or an improvement, eleven calls
      without progress are needed for the first penalty. */
  lemma EleventhCallPenalized(best: Extended, ds: seq<real>)
    requires NoneBelow(ds, best)
    requires |ds| == TimeThreshold + 1
    ensures Run(Tracker(best, 0), ds[..TimeThreshold]) == (Tracker(best, TimeThreshold), 0.0)
    ensures Run(Tracker(best, 0), ds) == (Tracker(best, 0), -0.4)
  {
    QuietRun(Tracker(best, 0), ds[..TimeThreshold]);
    PenaltyRun(Tracker(best, 0), ds);
  }

  /** Strictly decreasing distances below the best improve every time and
      earn 0.2 each. */
  predicate StrictlyDecreasingBelow(ds: seq<real>, best: Extended)
  {
    (|ds| > 0 ==> Below(ds[0], best)) &&
    forall i :: 0 < i < |ds| ==> ds[i] < ds[i - 1]
  }

  lemma {:induction false} SteadyProgress(t: Tracker, ds: seq<real>)
    requires StrictlyDecreasingBelow(ds, t.bestDistance)
    ensures Run(t, ds).1 == 0.2 * |ds| as real
    ensures ds != [] ==> Run(t, ds).0 == Tracker(Finite(ds[|ds| - 1]), 0)
    decreases |ds|
  {
    if ds != [] {
      var next := Observe(t, ds[0]);
      assert next == Tracker(Finite(ds[0]), 0);
      assert StrictlyDecreasingBelow(ds[1..], next.bestDistance) by {
        if |ds| > 1 {
          assert ds[1] < ds[0];
        }
        forall i | 0 < i < |ds[1..]|
          ensures ds[1..][i] < ds[1..][i - 1]
        {
          assert ds[i + 1] < ds[i];
        }
      }
      SteadyProgress(next, ds[1..]);
    }
  }
}
