/** `Agent` of src/Agent.js: a box in the world, steered by a neural
    network, with the fitness-shaping state the evolution loop ranks by. */
module Agent {
  import opened Wrappers
  import opened Extended
  import opened Vector
  import opened Randomness
  import opened Neural
  import opened Progress
  import opened Box
  import opened FitnessManager

  /** Outputs within this distance of zero press nothing. */
  const OutputThreshold: real := 0.02

  /** Number of inputs the network takes. */
  const InputCount: nat := 12

  /** Entry `k` of the network's output, or nothing when the output is too
      short; `undefined` compares false with every number. */
  function Output(outputs: seq<real>, k: nat): Option<real>
  {
    if k < |outputs| then Some(outputs[k]) else None
  }

  /** `interpretOutputs(outputs)`: the first output decides the jump, the
      sign of the second one the direction. */
  function InterpretOutputs(outputs: seq<real>): (a: Controls)
    ensures a.up <==> |outputs| > 0 && outputs[0] > OutputThreshold
    ensures a.left <==> |outputs| > 1 && outputs[1] < -OutputThreshold
    ensures a.right <==> |outputs| > 1 && outputs[1] > OutputThreshold
    ensures !(a.left && a.right)
  {
    var jump := Output(outputs, 0);
    var turn := Output(outputs, 1);
    Controls(
      jump.Some? && jump.value > OutputThreshold,
      turn.Some? && turn.value < -OutputThreshold,
      turn.Some? && turn.value > OutputThreshold)
  }

  /** What the `brain` argument of `new Agent(brain)` can be: absent (any
      falsy value), a `Network`, or some other truthy value. */
  datatype BrainArg = NoBrain | Network(genome: Genome) | NotANetwork

  class Agent {
    var brain: Genome
    const entity: Box
    var bestDistance: Extended
    var timeSinceLastProgress: nat
    var fitness: real
    var alive: bool
    const fitnessManager: FitnessManager

    /** The tracking state a new agent starts with. */
    predicate Fresh()
      reads this
    {
      && fitness == 10.0
      && bestDistance == PosInfinity
      && timeSinceLastProgress == 0
      && alive
    }

    /** The agent's progress state, as the shared progress rule sees it. */
    function Tracker(): Tracker
      reads this
    {
      Progress.Tracker(bestDistance, timeSinceLastProgress)
    }

    /** `new Agent(brain)` once the brain is settled: its box starts at
        corner (50, 300) with size 50 x 50, and the first activation on
        `initializeInputs()` takes twelve draws from `Math.random`. */
    constructor (brain: Genome, rng: Draws)
      modifies rng
      ensures this.brain == brain
      ensures Fresh()
      ensures fresh(entity) && fresh(fitnessManager)
      ensures entity.position == Vec(75.0, 325.0) && !entity.groundSensorColliding
      ensures fitnessManager.Tracker() == Initial
      ensures rng.used == old(rng.used) + InputCount
    {
      this.brain := brain;
      entity := new Box(50.0, 300.0, 50.0, 50.0);
      bestDistance := PosInfinity;
      timeSinceLastProgress := 0;
      fitness := 10.0;
      alive := true;
      fitnessManager := new FitnessManager();
      new;
      var inputs := InitializeInputs(rng);
    }

    /** `new Agent(brain)` with the check on its argument: a truthy value
        that is not a network is an error, a missing one is replaced by the
        network `createBrain` built, here `created`. */
    static method Create(arg: BrainArg, created: Genome, rng: Draws) returns (r: Result<Agent, string>)
      modifies rng
      ensures r.Err? <==> arg.NotANetwork?
      ensures r.Err? ==> rng.used == old(rng.used)
      ensures r.Ok? ==> fresh(r.value) && r.value.Fresh() && rng.used == old(rng.used) + InputCount
      ensures r.Ok? ==> r.value.brain == (if arg.Network? then arg.genome else created)
    {
      if arg.NotANetwork? {
        return Err("Provided brain is not an instance of Network.");
      }
      var brain := if arg.Network? then arg.genome else created;
      var agent := new Agent(brain, rng);
      r := Ok(agent);
    }

    /** `act(state)`: activate the network and read its outputs. */
    function Act(lib: Library, state: seq<real>): (a: Controls)
      reads this
      ensures !(a.left && a.right)
    {
      InterpretOutputs(lib.activate(brain, state))
    }

    /** `initializeInputs()`: twelve draws mapped from [0, 1) to [-1, 1). */
    static method InitializeInputs(rng: Draws) returns (inputs: seq<real>)
      modifies rng
      ensures |inputs| == InputCount
      ensures rng.used == old(rng.used) + InputCount
      ensures forall i :: 0 <= i < |inputs| ==>
        inputs[i] == rng.stream(old(rng.used) + i) * 2.0 - 1.0 && -1.0 <= inputs[i] < 1.0
    {
      inputs := [];
      for i := 0 to InputCount
        invariant |inputs| == i
        invariant rng.used == old(rng.used) + i
        invariant forall j :: 0 <= j < i ==>
          inputs[j] == rng.stream(old(rng.used) + j) * 2.0 - 1.0 && -1.0 <= inputs[j] < 1.0
      {
        var u := rng.Next();
        inputs := inputs + [u * 2.0 - 1.0];
      }
    }

    /** `updateFitness(currentDistance)`: +0.2 and a reset on a new best
        distance; otherwise one more call without progress, and past ten of
        those a penalty of 0.4 and a reset. */
    method UpdateFitness(currentDistance: real)
      modifies this
      ensures Tracker() == Observe(old(Tracker()), currentDistance)
      ensures fitness == old(fitness) + Shaping(old(Tracker()), currentDistance)
      ensures timeSinceLastProgress <= TimeThreshold
      ensures AtMost(bestDistance, old(bestDistance))
      ensures brain == old(brain) && alive == old(alive)
    {
      if Below(currentDistance, bestDistance) {
        bestDistance := Finite(currentDistance);
        timeSinceLastProgress := 0;
        fitness := fitness + 0.2;
      } else {
        timeSinceLastProgress := timeSinceLastProgress + 1;
      }
      if timeSinceLastProgress > TimeThreshold {
        fitness := fitness - 0.4;
        timeSinceLastProgress := 0;
      }
    }

    /** `clone()`: a new agent whose brain went through `toJSON` and
        `fromJSON`; when that round trip preserves behaviour, the clone acts
        as the original does. */
    method Clone(lib: Library, rng: Draws) returns (c: Agent)
      modifies rng
      ensures fresh(c) && c.Fresh() && rng.used == old(rng.used) + InputCount
      ensures c.brain == lib.fromJson(lib.toJson(brain))
      ensures JsonRoundTrip(lib) ==> forall state :: c.Act(lib, state) == Act(lib, state)
    {
      var brainJson := lib.toJson(brain);
      var clonedBrain := lib.fromJson(brainJson);
      c := new Agent(clonedBrain, rng);
    }

    /** `mutate()`: the network mutates in place; nothing else changes. */
    method Mutate(lib: Library)
      modifies this
      ensures brain == lib.mutate(old(brain))
      ensures fitness == old(fitness) && alive == old(alive) && Tracker() == old(Tracker())
    {
      brain := lib.mutate(brain);
    }

    /** `crossover(other)`: a new agent with the crossed-over network. */
    method Crossover(lib: Library, other: Agent, rng: Draws) returns (child: Agent)
      modifies rng
      ensures fresh(child) && child.Fresh() && rng.used == old(rng.used) + InputCount
      ensures child.brain == lib.crossOver(brain, other.brain)
    {
      child := new Agent(lib.crossOver(brain, other.brain), rng);
    }
  }
}
