/** `Environment` of src/Ai/Environment.js: the population of agents, the
    per-tick simulation step and the generational evolution step
    (filter the dead, record the best, rank-based selection with
    crossover, mutation). */
module Environment {
  import opened Wrappers
  import opened Extended
  import opened Vector
  import opened Randomness
  import opened SeedRandom
  import opened Neural
  import opened Progress
  import opened Box
  import opened Agent
  import opened Ranking

  /** Platforms closer than this to an agent are fed to its network. */
  const SensorRange: real := 200.0

  /** Chance that an agent's network mutates after reproduction. */
  const MutationRate: real := 0.2

  /** The platforms `detectObjects` keeps: those nearer than the sensor
      range, in their order. */
  function Nearby(sqrt: real -> real, position: Vec, platforms: seq<Vec>): (r: seq<Vec>)
    requires IsSqrt(sqrt)
    ensures |r| <= |platforms|
    ensures forall i :: 0 <= i < |r| ==> r[i] in platforms && IsNearby(sqrt, position, r[i], SensorRange)
    ensures forall i :: 0 <= i < |platforms| && IsNearby(sqrt, position, platforms[i], SensorRange) ==>
      platforms[i] in r
    decreases |platforms|
  {
    if platforms == [] then []
    else
      var last := platforms[|platforms| - 1];
      Nearby(sqrt, position, platforms[..|platforms| - 1])
        + (if IsNearby(sqrt, position, last, SensorRange) then [last] else [])
  }

  /** The filter splits over concatenation, so it keeps the platforms'
      order and multiplicity. */
  lemma {:induction false} NearbyConcat(sqrt: real -> real, position: Vec, a: seq<Vec>, b: seq<Vec>)
    requires IsSqrt(sqrt)
    ensures Nearby(sqrt, position, a + b) == Nearby(sqrt, position, a) + Nearby(sqrt, position, b)
    decreases |b|
  {
    if b == [] {
      assert a + b == a;
    } else {
      assert (a + b)[..|a + b| - 1] == a + b[..|b| - 1];
      NearbyConcat(sqrt, position, a, b[..|b| - 1]);
    }
  }

  /** Platforms that are all within range are kept whole. */
  lemma {:induction false} NearbyAllNear(sqrt: real -> real, position: Vec, platforms: seq<Vec>)
    requires IsSqrt(sqrt)
    requires forall i :: 0 <= i < |platforms| ==> IsNearby(sqrt, position, platforms[i], SensorRange)
    ensures Nearby(sqrt, position, platforms) == platforms
    decreases |platforms|
  {
    if platforms != [] {
      NearbyAllNear(sqrt, position, platforms[..|platforms| - 1]);
    }
  }

  /** The object `getStateForAgent` returns. */
  datatype AgentState = AgentState(
    positionX: real, positionY: real,
    velocityX: real, velocityY: real,
    distance: real, isInAir: real,
    object1X: real, object1Y: real,
    object2X: real, object2Y: real,
    object3X: real, object3Y: real)

  /** `Object.values(state)`, in the order the keys were written. */
  function Values(s: AgentState): (v: seq<real>)
    ensures |v| == InputCount
  {
    [s.positionX, s.positionY, s.velocityX, s.velocityY, s.distance, s.isInAir,
     s.object1X, s.object1Y, s.object2X, s.object2Y, s.object3X, s.object3Y]
  }

  /** Obstacle slot `k` (0, 1 or 2) of a state. */
  function Slot(s: AgentState, k: nat): Vec
    requires k < 3
  {
    if k == 0 then Vec(s.object1X, s.object1Y)
    else if k == 1 then Vec(s.object2X, s.object2Y)
    else Vec(s.object3X, s.object3Y)
  }

  /** Slot `k` of the nearby list, or the origin when there is none. */
  function SlotOf(nearby: seq<Vec>, k: nat): Vec
  {
    if k < |nearby| then nearby[k] else Vec(0.0, 0.0)
  }

  /** `getStateForAgent` on the values it reads from the agent's body. */
  function StateFor(sqrt: real -> real, position: Vec, velocity: Vec, inAir: bool, goal: Vec, nearby: seq<Vec>): (s: AgentState)
    requires IsSqrt(sqrt)
    ensures Vec(s.positionX, s.positionY) == position && Vec(s.velocityX, s.velocityY) == velocity
    ensures 0.0 <= s.distance && s.distance == CalculateDistance(sqrt, position.x, position.y, goal.x, goal.y)
    ensures s.isInAir == 1.0 <==> inAir
    ensures s.isInAir == 0.0 <==> !inAir
    ensures forall k :: 0 <= k < 3 ==> Slot(s, k) == SlotOf(nearby, k)
    ensures forall k :: |nearby| <= k < 3 ==> Slot(s, k) == Vec(0.0, 0.0)
  {
    var distance := CalculateDistance(sqrt, goal.x, goal.y, position.x, position.y);
    DistanceSymmetric(sqrt, goal.x, goal.y, position.x, position.y);
    AgentState(
      position.x, position.y, velocity.x, velocity.y, distance,
      if inAir then 1.0 else 0.0,
      SlotOf(nearby, 0).x, SlotOf(nearby, 0).y,
      SlotOf(nearby, 1).x, SlotOf(nearby, 1).y,
      SlotOf(nearby, 2).x, SlotOf(nearby, 2).y)
  }

  /** The distance one agent's fitness is updated with. */
  function GoalDistance(sqrt: real -> real, a: Agent, goal: Vec): real
    requires IsSqrt(sqrt)
    reads a.entity
  {
    StateFor(sqrt, a.entity.position, a.entity.velocity, a.entity.IsInAir(), goal, []).distance
  }

  /** `getStateForAgent(agent, goal, nearbyObjects)`. */
  function GetStateForAgent(sqrt: real -> real, a: Agent, goal: Vec, nearby: seq<Vec>): (s: AgentState)
    requires IsSqrt(sqrt)
    reads a, a.entity
    ensures s.distance == GoalDistance(sqrt, a, goal)
  {
    StateFor(sqrt, a.entity.position, a.entity.velocity, a.entity.IsInAir(), goal, nearby)
  }

  /** The controls an alive agent chooses this tick, and the force its box
      then receives. */
  function Decision(sqrt: real -> real, lib: Library, a: Agent, goal: Vec, platforms: seq<Vec>): (f: Option<Vec>)
    requires IsSqrt(sqrt)
    reads a, a.entity
  {
    var nearby := Nearby(sqrt, a.entity.position, platforms);
    var controls := a.Act(lib, Values(GetStateForAgent(sqrt, a, goal, nearby)));
    Applied(controls, a.entity.IsInAir())
  }

  /** The agents of `s` with `alive` set, in their order. */
  function AliveOnly(s: seq<Agent>): (r: seq<Agent>)
    reads s
    ensures |r| <= |s|
    ensures forall i :: 0 <= i < |r| ==> r[i] in s && r[i].alive
    ensures forall i :: 0 <= i < |s| && s[i].alive ==> s[i] in r
    decreases |s|
  {
    if s == [] then []
    else AliveOnly(s[..|s| - 1]) + (if s[|s| - 1].alive then [s[|s| - 1]] else [])
  }

  /** Filtering distributes over concatenation, so it keeps the relative
      order of the survivors. */
  lemma {:induction false} AliveOnlyConcat(a: seq<Agent>, b: seq<Agent>)
    ensures AliveOnly(a + b) == AliveOnly(a) + AliveOnly(b)
    decreases |b|
  {
    if b == [] {
      assert a + b == a;
    } else {
      assert (a + b)[..|a + b| - 1] == a + b[..|b| - 1];
      AliveOnlyConcat(a, b[..|b| - 1]);
    }
  }

  /** A list where every agent is alive is kept whole. */
  lemma {:induction false} AliveOnlyAllAlive(s: seq<Agent>)
    requires forall i :: 0 <= i < |s| ==> s[i].alive
    ensures AliveOnly(s) == s
    decreases |s|
  {
    if s != [] {
      AliveOnlyAllAlive(s[..|s| - 1]);
      assert s[..|s| - 1] + [s[|s| - 1]] == s;
    }
  }

  /** Filtering twice is filtering once. */
  lemma AliveOnlyIdempotent(s: seq<Agent>)
    ensures AliveOnly(AliveOnly(s)) == AliveOnly(s)
  {
    AliveOnlyAllAlive(AliveOnly(s));
  }

  predicate Distinct(s: seq<Agent>)
  {
    forall i, j :: 0 <= i < j < |s| ==> s[i] != s[j]
  }

  /** Appending an agent not yet present keeps the agents distinct. */
  lemma DistinctAppend(s: seq<Agent>, a: Agent)
    requires Distinct(s) && a !in s
    ensures Distinct(s + [a])
  {
  }

  lemma {:induction false} AliveOnlyDistinct(s: seq<Agent>)
    requires Distinct(s)
    ensures Distinct(AliveOnly(s))
    decreases |s|
  {
    if s != [] {
      var init := s[..|s| - 1];
      AliveOnlyDistinct(init);
      var last := s[|s| - 1];
      assert last !in init;
    }
  }

  /** The fitness of each agent, in order. */
  function Fitnesses(s: seq<Agent>): (f: seq<real>)
    reads s
    ensures |f| == |s| && forall i :: 0 <= i < |s| ==> f[i] == s[i].fitness
    decreases |s|
  {
    if s == [] then [] else Fitnesses(s[..|s| - 1]) + [s[|s| - 1].fitness]
  }

  /** Agents `s` paired with the keys `fits`, position by position. */
  function Zip(fits: seq<real>, s: seq<Agent>): (r: seq<Keyed<Agent>>)
    requires |fits| == |s|
    ensures |r| == |s|
  {
    if s == [] then [] else [(fits[0], s[0])] + Zip(fits[1..], s[1..])
  }

  lemma {:induction false} ZipAt(fits: seq<real>, s: seq<Agent>, i: nat)
    requires |fits| == |s| && i < |s|
    ensures Zip(fits, s)[i] == (fits[i], s[i])
    decreases |s|
  {
    if i > 0 {
      ZipAt(fits[1..], s[1..], i - 1);
    }
  }

  /** Agents paired with their fitness, for sorting. */
  function ByFitness(s: seq<Agent>): (r: seq<Keyed<Agent>>)
    reads s
    ensures |r| == |s|
  {
    Zip(Fitnesses(s), s)
  }

  lemma ByFitnessAt(s: seq<Agent>, i: nat)
    requires i < |s|
    ensures ByFitness(s)[i] == (s[i].fitness, s[i])
  {
    ZipAt(Fitnesses(s), s, i);
  }

  /** The agents `s`, whose fitnesses are `fits`, stably sorted by them. */
  function SortedBy(fits: seq<real>, s: seq<Agent>, descending: bool): (r: seq<Agent>)
    requires |fits| == |s|
  {
    Items(Sort(Zip(fits, s), descending))
  }

  /** The agents `s` carry the fitnesses `fits`. */
  predicate HasFitnesses(s: seq<Agent>, fits: seq<real>)
    reads s
  {
    |fits| == |s| && forall i :: 0 <= i < |s| ==> s[i].fitness == fits[i]
  }

  lemma FitnessesExact(s: seq<Agent>, fits: seq<real>)
    requires HasFitnesses(s, fits)
    ensures Fitnesses(s) == fits
  {
  }

  /** `agents.sort((a, b) => a.fitness - b.fitness)`, or with `b - a` when
      `descending`: a stable sort by fitness. */
  function SortByFitness(s: seq<Agent>, descending: bool): (r: seq<Agent>)
    reads s
    ensures |r| == |s|
  {
    SortedBy(Fitnesses(s), s, descending)
  }

  /** The sort permutes the agents. */
  lemma SortByFitnessPermutes(s: seq<Agent>, descending: bool)
    ensures multiset(SortByFitness(s, descending)) == multiset(s)
  {
    ItemsSort(ByFitness(s), descending);
    forall k | 0 <= k < |s|
      ensures Items(ByFitness(s))[k] == s[k]
    {
      ItemsAt(ByFitness(s), k);
      ByFitnessAt(s, k);
    }
    assert Items(ByFitness(s)) == s;
  }

  /** The sort orders the agents by fitness. */
  lemma SortByFitnessOrders(s: seq<Agent>, descending: bool, i: nat, j: nat)
    requires i < j < |s|
    ensures var r := SortByFitness(s, descending);
      if descending then r[i].fitness >= r[j].fitness else r[i].fitness <= r[j].fitness
  {
    var keyed := Sort(ByFitness(s), descending);
    SortSorted(ByFitness(s), descending);
    SortPermutes(ByFitness(s), descending);
    assert !Before(keyed[j], keyed[i], descending);
    KeyIsFitness(s, keyed, i);
    KeyIsFitness(s, keyed, j);
    ItemsAt(keyed, i);
    ItemsAt(keyed, j);
  }

  /** After sorting, each key is still its agent's fitness. */
  lemma KeyIsFitness(s: seq<Agent>, keyed: seq<Keyed<Agent>>, i: nat)
    requires multiset(keyed) == multiset(ByFitness(s)) && i < |keyed|
    ensures keyed[i].0 == keyed[i].1.fitness
  {
    assert keyed[i] in multiset(ByFitness(s));
    var k :| 0 <= k < |ByFitness(s)| && ByFitness(s)[k] == keyed[i];
    ByFitnessAt(s, k);
  }

  /** `selectParent` on agents `s` with the draw `u`: sort a copy by
      ascending fitness, so that rank `k + 1` belongs to index `k`, scale
      the draw to the sum of ranks, and take the first index whose running
      sum of ranks exceeds it. */
  function ParentPick(s: seq<Agent>, u: real): (p: Option<Agent>)
    requires 0.0 <= u < 1.0
    reads s
    ensures |s| == 0 ==> p.None?
    ensures |s| > 0 ==> p.Some? && p.value in s
  {
    var n := |s|;
    var threshold := Stretch(u, Triangle(n) as real);
    if n > 0 then
      TriangleMonotone(1, n);
      RankIndexInRange(n, threshold);
      SortByFitnessPermutes(s, false);
      var k := RankIndex(n, threshold).value;
      assert SortByFitness(s, false)[k] in multiset(s);
      PickAt(SortByFitness(s, false), u)
    else
      PickAt(SortByFitness(s, false), u)
  }

  /** `ParentPick` on agents already in ascending order of fitness. */
  function PickAt(ascending: seq<Agent>, u: real): (p: Option<Agent>)
    requires 0.0 <= u < 1.0
    ensures p.Some? ==> p.value in ascending
  {
    var n := |ascending|;
    var k := RankIndex(n, Stretch(u, Triangle(n) as real));
    if k.Some? && k.value < n then Some(ascending[k.value]) else None
  }

  /** A distinct list stays distinct under any reordering. */
  lemma DistinctPermutation(s: seq<Agent>, t: seq<Agent>)
    requires Distinct(s) && multiset(t) == multiset(s)
    ensures Distinct(t)
  {
    forall i, j | 0 <= i < j < |t|
      ensures t[i] != t[j]
    {
      if t[i] == t[j] {
        RepeatCounted(t, i, j);
        DistinctCounted(s, t[i]);
      }
    }
  }

  /** In a distinct list each agent occurs at most once. */
  lemma {:induction false} DistinctCounted(s: seq<Agent>, a: Agent)
    requires Distinct(s)
    ensures multiset(s)[a] <= 1
    decreases |s|
  {
    if s != [] {
      var init, last := s[..|s| - 1], s[|s| - 1];
      assert s == init + [last];
      assert last !in init;
      DistinctCounted(init, a);
    }
  }

  /** An agent at two positions occurs at least twice. */
  lemma RepeatCounted(t: seq<Agent>, i: nat, j: nat)
    requires i < j < |t| && t[i] == t[j]
    ensures multiset(t)[t[i]] >= 2
  {
    assert t == t[..j] + [t[j]] + t[j + 1..];
    assert t[i] in t[..j];
  }

  /** The rank `selectParent` hands out is the one whose share of the sum
      of ranks holds the scaled draw; better agents own larger shares. With
      no agent listed twice, an agent is picked only from its own share. */
  lemma ParentPickShare(s: seq<Agent>, u: real, k: nat)
    requires 0.0 <= u < 1.0 && k < |s|
    ensures var threshold := Stretch(u, Triangle(|s|) as real);
      Triangle(k) as real <= threshold < Triangle(k + 1) as real ==>
        ParentPick(s, u) == Some(SortByFitness(s, false)[k])
    ensures var threshold := Stretch(u, Triangle(|s|) as real);
      Distinct(s) && ParentPick(s, u) == Some(SortByFitness(s, false)[k]) ==>
        Triangle(k) as real <= threshold < Triangle(k + 1) as real
  {
    var n := |s|;
    var threshold := Stretch(u, Triangle(n) as real);
    TriangleMonotone(1, n);
    RankIndexSpec(n, threshold, k);
    RankIndexInRange(n, threshold);
    var sorted := SortByFitness(s, false);
    var j := RankIndex(n, threshold).value;
    if Distinct(s) && sorted[j] == sorted[k] {
      SortByFitnessPermutes(s, false);
      DistinctPermutation(s, sorted);
      assert j == k;
    }
  }

  function Max0(n: int): nat
  {
    if n > 0 then n else 0
  }

  /** `bestFitness` as `evaluateFitness` records it for agents `s`. */
  function BestOf(s: seq<Agent>): (best: Agent)
    requires |s| > 0
    reads s
    ensures best in s
    ensures forall j :: 0 <= j < |s| ==> s[j].fitness <= best.fitness
  {
    var f := Fitnesses(s);
    s[FirstMaxIndex(f)]
  }

  /** The scan in `evaluateFitness`: keep the first agent seen, replace
      it only by a strictly fitter one. */
  method FirstBest(s: seq<Agent>) returns (best: Agent)
    requires |s| > 0
    ensures best == BestOf(s)
  {
    best := s[0];
    ghost var k := 0;
    for i := 0 to |s|
      invariant 0 <= k < |s| && best == s[k]
      invariant forall j :: 0 <= j < i ==> s[j].fitness <= best.fitness
      invariant forall j :: 0 <= j < k ==> s[j].fitness < best.fitness
    {
      if s[i].fitness > best.fitness {
        best := s[i];
        k := i;
      }
    }
    FirstMaxUnique(Fitnesses(s), k);
  }

  /** Draws taken per child in `selectAndReproduce`: one per parent
      pick, and the twelve of the child's first activation. */
  const ChildDraws: nat := 2 + InputCount

  /** The two parents `selectAndReproduce` picks from `ranked` with the
      draws at positions `at` and `at + 1` of `stream`, when there is an
      agent to pick. */
  function Parents(ranked: seq<Agent>, stream: UnitStream, at: nat): Option<(Agent, Agent)>
    reads ranked
  {
    PickPair(SortByFitness(ranked, false), stream, at)
  }

  /** `Parents` on agents already in ascending order of fitness. */
  function PickPair(ascending: seq<Agent>, stream: UnitStream, at: nat): (r: Option<(Agent, Agent)>)
    ensures r.Some? ==> r.value.0 in ascending && r.value.1 in ascending
  {
    var p1 := PickAt(ascending, stream(at));
    var p2 := PickAt(ascending, stream(at + 1));
    if p1.Some? && p2.Some? then Some((p1.value, p2.value)) else None
  }

  /** Both picks succeed exactly when there is someone to pick, and then
      both parents are members of the population. */
  lemma ParentsMembers(ranked: seq<Agent>, stream: UnitStream, at: nat)
    ensures Parents(ranked, stream, at).Some? <==> |ranked| > 0
    ensures Parents(ranked, stream, at).Some? ==>
      Parents(ranked, stream, at).value.0 in ranked && Parents(ranked, stream, at).value.1 in ranked
  {
    var first, second := ParentPick(ranked, stream(at)), ParentPick(ranked, stream(at + 1));
  }

  /** `child` carries the crossover of the two parents of `p`. */
  predicate Offspring(lib: Library, child: Agent, p: Option<(Agent, Agent)>)
    reads child, if p.Some? then {p.value.0, p.value.1} else {}
  {
    p.Some? && child.brain == lib.crossOver(p.value.0.brain, p.value.1.brain)
  }

  class Environment {
    var populationSize: int
    var agents: seq<Agent>
    var generation: nat
    var bestFitness: Extended
    var bestAgent: Agent?
    /** The network library the agents' brains belong to. */
    const lib: Library

    /** No agent appears twice in the population. */
    predicate Valid()
      reads this
    {
      Distinct(agents)
    }

    /** `new Environment(render, infoPanel)`. */
    constructor (lib: Library)
      ensures populationSize == 0 && agents == [] && generation == 0
      ensures bestFitness == NegInfinity && bestAgent == null
      ensures this.lib == lib
      ensures Valid()
    {
      populationSize := 0;
      agents := [];
      generation := 0;
      bestFitness := NegInfinity;
      bestAgent := null;
      this.lib := lib;
    }

    /** `generateAgents(n)`: `n` new agents after the present ones; the
        `i`-th gets the network `networks(i)` that `createBrain` built. */
    method GenerateAgents(n: int, networks: nat -> Genome, rng: Draws)
      requires Valid()
      modifies this`agents, this`populationSize, rng
      ensures Valid()
      ensures rng.used == old(rng.used) + InputCount * Max0(n)
      ensures populationSize == n
      ensures |agents| == |old(agents)| + Max0(n)
      ensures agents[..|old(agents)|] == old(agents)
      ensures forall i :: |old(agents)| <= i < |agents| ==>
        fresh(agents[i]) && agents[i].Fresh() && agents[i].brain == networks(i - |old(agents)|)
    {
      populationSize := n;
      var i := 0;
      while i < populationSize
        invariant 0 <= i <= Max0(n)
        invariant populationSize == n
        invariant |agents| == |old(agents)| + i
        invariant agents[..|old(agents)|] == old(agents)
        invariant forall j :: |old(agents)| <= j < |agents| ==>
          fresh(agents[j]) && agents[j].Fresh() && agents[j].brain == networks(j - |old(agents)|)
        invariant Distinct(agents)
        invariant rng.used == old(rng.used) + InputCount * i
      {
        var agent := new Agent(networks(i), rng);
        agents := agents + [agent];
        i := i + 1;
      }
    }

    /** `detectObjects(agent, platforms)`. */
    method DetectObjects(sqrt: real -> real, agent: Agent, platforms: seq<Vec>) returns (nearbyObjects: seq<Vec>)
      requires IsSqrt(sqrt)
      ensures nearbyObjects == Nearby(sqrt, agent.entity.position, platforms)
    {
      nearbyObjects := [];
      for i := 0 to |platforms|
        invariant nearbyObjects == Nearby(sqrt, agent.entity.position, platforms[..i])
      {
        assert platforms[..i + 1][..i] == platforms[..i];
        if IsNearby(sqrt, agent.entity.position, platforms[i], SensorRange) {
          nearbyObjects := nearbyObjects + [platforms[i]];
        }
      }
      assert platforms[..|platforms|] == platforms;
    }

    /** What one pass of `simulate` does to agent `a`, which received
        `force`: an alive agent takes its step, a dead one is left as it
        was; neither changes its network or its `alive` flag. */
    twostate predicate Stepped(sqrt: real -> real, goal: Vec, platforms: seq<Vec>, a: Agent, new force: Option<Vec>)
      requires IsSqrt(sqrt)
      reads a
    {
      && a.brain == old(a.brain) && a.alive == old(a.alive)
      && if old(a.alive) then
           && force == old(Decision(sqrt, lib, a, goal, platforms))
           && a.Tracker() == Observe(old(a.Tracker()), old(GoalDistance(sqrt, a, goal)))
           && a.fitness == old(a.fitness) + Shaping(old(a.Tracker()), old(GoalDistance(sqrt, a, goal)))
         else
           && force == None
           && a.fitness == old(a.fitness) && a.Tracker() == old(a.Tracker())
    }

    /** The body of the loop in `simulate` for one agent: a dead agent is
        skipped; an alive one senses, reads its state, acts, updates its
        fitness and moves. The force is what `movement` applies to the box. */
    method StepAgent(sqrt: real -> real, agent: Agent, goal: Vec, platforms: seq<Vec>) returns (applied: Option<Vec>)
      requires IsSqrt(sqrt)
      modifies agent
      ensures Stepped(sqrt, goal, platforms, agent, applied)
    {
      if !agent.alive {
        return None;
      }
      var nearbyObjects := DetectObjects(sqrt, agent, platforms);
      var stateForAgent := GetStateForAgent(sqrt, agent, goal, nearbyObjects);
      var actions := agent.Act(lib, Values(stateForAgent));
      agent.UpdateFitness(stateForAgent.distance);
      applied := agent.entity.Movement(actions);
    }

    /** `simulate(p, goal, platforms)`: every alive agent takes one step;
        dead agents are skipped and receive no force. */
    method Simulate(sqrt: real -> real, goal: Vec, platforms: seq<Vec>) returns (forces: seq<Option<Vec>>)
      requires IsSqrt(sqrt) && Valid()
      modifies agents
      ensures |forces| == |agents|
      ensures forall j :: 0 <= j < |agents| ==> Stepped(sqrt, goal, platforms, agents[j], forces[j])
    {
      forces := [];
      for i := 0 to |agents|
        invariant |forces| == i
        invariant forall j :: i <= j < |agents| ==> unchanged(agents[j])
        invariant forall j :: 0 <= j < i ==> Stepped(sqrt, goal, platforms, agents[j], forces[j])
      {
        label before:
        var applied := StepAgent(sqrt, agents[i], goal, platforms);
        assert forall j :: 0 <= j < |agents| && j != i ==> unchanged@before(agents[j]);
        forces := forces + [applied];
      }
    }

    /** `cleanDeadAgents()`. */
    method CleanDeadAgents()
      requires Valid()
      modifies this`agents
      ensures agents == AliveOnly(old(agents))
      ensures Valid()
    {
      AliveOnlyDistinct(agents);
      agents := AliveOnly(agents);
    }
  
    /** `evaluateFitness()`: the first agent of greatest fitness becomes
        the best, its fitness is recorded and a clone of it kept. On an
        empty list the source fails reading `fitness` of `undefined`. */
    method EvaluateFitness(rng: Draws) returns (r: Result<(), string>)
      modifies this`bestFitness, this`bestAgent, rng
      ensures r.Err? <==> |agents| == 0
      ensures r.Err? ==> bestFitness == old(bestFitness) && bestAgent == old(bestAgent) && rng.used == old(rng.used)
      ensures r.Ok? ==> rng.used == old(rng.used) + InputCount
      ensures r.Ok? ==> bestFitness == Finite(old(BestOf(agents).fitness))
      ensures r.Ok? ==> forall j :: 0 <= j < |agents| ==> AtMost(Finite(old(agents[j].fitness)), bestFitness)
      ensures r.Ok? ==> bestAgent != null && fresh(bestAgent) && bestAgent.Fresh()
      ensures r.Ok? ==> bestAgent.brain == lib.fromJson(lib.toJson(old(BestOf(agents).brain)))
    {
      if |agents| == 0 {
        return Err("Cannot read properties of undefined (reading 'fitness')");
      }
      var best := FirstBest(agents);
      var clone := best.Clone(lib, rng);
      bestFitness := Finite(best.fitness);
      bestAgent := clone;
      r := Ok(());
    }

    /** `selectParent()`: one draw, and the agent `ParentPick` names. The
        population itself is not reordered: the source sorts a copy. */
    method SelectParent(rng: Draws) returns (parent: Option<Agent>)
      modifies rng
      ensures rng.used == old(rng.used) + 1
      ensures parent == old(ParentPick(agents, rng.stream(rng.used)))
    {
      var sortedAgents := SortByFitness(agents, false);
      var n := |sortedAgents|;
      var sumOfRanks := (n * (n + 1)) / 2;
      TriangleFormula(n);
      var u := rng.Next();
      var threshold := Stretch(u, sumOfRanks as real);
      var runningSum := 0;
      for i := 0 to n
        invariant runningSum == Triangle(i)
        invariant RankFrom(n, threshold, i) == RankIndex(n, threshold)
      {
        runningSum := runningSum + i + 1;
        assert runningSum == RunningSum(i);
        if runningSum as real > threshold {
          assert RankIndex(n, threshold) == Some(i);
          return Some(sortedAgents[i]);
        }
      }
      assert RankIndex(n, threshold) == None;
      return None;
    }

    /** One pass of the loop in `selectAndReproduce`: two parent picks
        and their crossover, or nothing when there is no agent to pick.
        The agents carry the fitnesses `fits`, and `ascending` is their
        order by them. */
    method Breed(ghost fits: seq<real>, ghost ascending: seq<Agent>, rng: Draws) returns (child: Option<Agent>)
      requires HasFitnesses(agents, fits) && ascending == SortedBy(fits, agents, false)
      modifies rng
      ensures child.None? <==> |agents| == 0
      ensures child.None? ==> rng.used == old(rng.used) + 2
      ensures child.Some? ==> fresh(child.value) && child.value.Fresh() && rng.used == old(rng.used) + ChildDraws
      ensures child.Some? ==> Offspring(lib, child.value, PickPair(ascending, rng.stream, old(rng.used)))
    {
      FitnessesExact(agents, fits);
      assert ascending == SortByFitness(agents, false);
      var parent1 := SelectParent(rng);
      var parent2 := SelectParent(rng);
      if parent1.None? || parent2.None? {
        return None;
      }
      assert PickPair(ascending, rng.stream, rng.used - 2) == Some((parent1.value, parent2.value));
      var c := parent1.value.Crossover(lib, parent2.value, rng);
      return Some(c);
    }

    /** The `while` loop of `selectAndReproduce`: `populationSize`
        children of parents picked from the present agents, given in
        ascending order of fitness as `ascending`. */
    method BreedAll(ghost ascending: seq<Agent>, rng: Draws) returns (r: Result<seq<Agent>, string>)
      requires ascending == SortByFitness(agents, false)
      modifies rng
      ensures r.Err? <==> |agents| == 0 && populationSize > 0
      ensures r.Err? ==> rng.used == old(rng.used) + 2
      ensures r.Ok? ==> |r.value| == Max0(populationSize) && Distinct(r.value)
      ensures r.Ok? ==> rng.used == old(rng.used) + ChildDraws * |r.value|
      ensures r.Ok? ==> forall k :: 0 <= k < |r.value| ==> fresh(r.value[k]) && r.value[k].Fresh()
      ensures r.Ok? ==> forall k :: 0 <= k < |r.value| ==>
        Offspring(lib, r.value[k], PickPair(ascending, rng.stream, old(rng.used) + ChildDraws * k))
    {
      ghost var fits := Fitnesses(agents);
      assert ascending == SortedBy(fits, agents, false);
      ghost var base := rng.used;
      var newAgents: seq<Agent> := [];
      while |newAgents| < populationSize
        invariant |newAgents| <= Max0(populationSize)
        invariant rng.used == base + ChildDraws * |newAgents|
        invariant forall k :: 0 <= k < |newAgents| ==> fresh(newAgents[k]) && newAgents[k].Fresh()
        invariant Distinct(newAgents)
        invariant HasFitnesses(agents, fits)
        invariant |newAgents| > 0 ==> |agents| > 0
        invariant forall k :: 0 <= k < |newAgents| ==>
          Offspring(lib, newAgents[k], PickPair(ascending, rng.stream, base + ChildDraws * k))
        decreases populationSize - |newAgents|
      {
        var child := Breed(fits, ascending, rng);
        if child.None? {
          return Err("Cannot read properties of undefined (reading 'crossover')");
        }
        DistinctAppend(newAgents, child.value);
        newAgents := newAgents + [child.value];
      }
      return Ok(newAgents);
    }

    /** `selectAndReproduce()`: sort the population by descending fitness
        in place, then breed `populationSize` children, each from two
        parents `selectParent` picks, and make them the population. With
        no agents to pick from, the first `crossover` call fails on
        `undefined`. */
    method SelectAndReproduce(rng: Draws) returns (r: Result<(), string>)
      modifies this`agents, rng
      ensures r.Err? <==> |old(agents)| == 0 && populationSize > 0
      ensures r.Err? ==> agents == [] && rng.used == old(rng.used) + 2
      ensures r.Ok? ==> |agents| == Max0(populationSize) && Valid()
      ensures r.Ok? ==> rng.used == old(rng.used) + ChildDraws * |agents|
      ensures r.Ok? ==> forall k :: 0 <= k < |agents| ==> fresh(agents[k]) && agents[k].Fresh()
      ensures r.Ok? ==> forall k :: 0 <= k < |agents| ==>
        Offspring(lib, agents[k], old(Parents(SortByFitness(agents, true), rng.stream, rng.used + ChildDraws * k)))
    {
      agents := SortByFitness(agents, true);
      ghost var ascending := SortByFitness(agents, false);
      assert ascending == old(SortByFitness(SortByFitness(agents, true), false));
      var children := BreedAll(ascending, rng);
      if children.Err? {
        return Err(children.error);
      }
      forall at: nat
        ensures old(Parents(SortByFitness(agents, true), rng.stream, at)) == PickPair(ascending, rng.stream, at)
      {
      }
      agents := children.value;
      r := Ok(());
    }

    /** What `mutateAgents` does to agent `a` given its draw `u`: with
        chance `MutationRate` its network mutates; its fitness, life and
        progress are untouched. */
    twostate predicate MutatedBy(a: Agent, u: real)
      reads a
    {
      && a.brain == (if u < MutationRate then lib.mutate(old(a.brain)) else old(a.brain))
      && a.fitness == old(a.fitness) && a.alive == old(a.alive) && a.Tracker() == old(a.Tracker())
    }

    /** `mutateAgents()`: one draw per agent, in order; an agent whose
        draw is below `MutationRate` mutates. */
    method MutateAgents(rng: Draws)
      requires Valid()
      modifies agents, rng
      ensures rng.used == old(rng.used) + |agents|
      ensures forall j :: 0 <= j < |agents| ==> MutatedBy(agents[j], rng.stream(old(rng.used) + j))
    {
      ghost var base := rng.used;
      for i := 0 to |agents|
        invariant rng.used == base + i
        invariant forall j :: i <= j < |agents| ==> unchanged(agents[j])
        invariant forall j :: 0 <= j < i ==> MutatedBy(agents[j], rng.stream(base + j))
      {
        var u := rng.Next();
        if u < MutationRate {
          agents[i].Mutate(lib);
        }
      }
    }

    /** `evolve()`: nothing at all on an empty population; otherwise one
        generation step. */
    method Evolve(rng: Draws) returns (r: Result<(), string>)
      requires Valid()
      modifies this`agents, this`generation, this`bestFitness, this`bestAgent, agents, rng
      ensures Valid() && populationSize == old(populationSize)
      ensures old(|agents|) == 0 ==>
        && r.Ok? && agents == old(agents) && generation == old(generation) && rng.used == old(rng.used)
        && bestFitness == old(bestFitness) && bestAgent == old(bestAgent)
      ensures r.Err? <==> old(|agents|) > 0 && old(|AliveOnly(agents)|) == 0
      ensures r.Err? ==> agents == [] && generation == old(generation) && rng.used == old(rng.used)
      ensures r.Err? ==> bestFitness == old(bestFitness) && bestAgent == old(bestAgent)
      ensures r.Ok? && old(|agents|) > 0 ==>
        && generation == old(generation) + 1
        && |agents| == Max0(populationSize)
        && rng.used == old(rng.used) + InputCount + ChildDraws * |agents| + |agents|
        && bestFitness == Finite(old(BestOf(AliveOnly(agents)).fitness))
    {
      if |agents| == 0 {
        return Ok(());
      }
      r := NextGeneration(rng);
    }

    /** The body of `evolve()` past its guard: drop the dead, record the
        best, breed a new population of `populationSize`, mutate it and
        count the generation. With no agent left alive the source fails in
        `evaluateFitness`, after the dead are gone. */
    method NextGeneration(rng: Draws) returns (r: Result<(), string>)
      requires Valid()
      modifies this`agents, this`generation, this`bestFitness, this`bestAgent, agents, rng
      ensures Valid() && populationSize == old(populationSize)
      ensures r.Err? <==> old(|AliveOnly(agents)|) == 0
      ensures r.Err? ==> agents == [] && generation == old(generation) && rng.used == old(rng.used)
      ensures r.Err? ==> bestFitness == old(bestFitness) && bestAgent == old(bestAgent)
      ensures r.Ok? ==>
        && generation == old(generation) + 1
        && |agents| == Max0(populationSize)
        && rng.used == old(rng.used) + InputCount + ChildDraws * |agents| + |agents|
        && bestFitness == Finite(old(BestOf(AliveOnly(agents)).fitness))
    {
      r := CleanAndEvaluate(rng);
      if r.Ok? {
        Reproduce(rng);
      }
    }

    /** The first steps of `evolve()`: drop the dead, then record the best
        of the survivors. */
    method CleanAndEvaluate(rng: Draws) returns (r: Result<(), string>)
      requires Valid()
      modifies this`agents, this`bestFitness, this`bestAgent, rng
      ensures Valid() && (r.Err? ==> agents == []) && (r.Ok? ==> |agents| > 0)
      ensures forall i :: 0 <= i < |agents| ==> agents[i] in old(agents)
      ensures agents == old(AliveOnly(agents))
      ensures r.Err? <==> old(|AliveOnly(agents)|) == 0
      ensures r.Err? ==> rng.used == old(rng.used) && bestFitness == old(bestFitness) && bestAgent == old(bestAgent)
      ensures r.Ok? ==> rng.used == old(rng.used) + InputCount
      ensures r.Ok? ==> bestFitness == Finite(old(BestOf(AliveOnly(agents)).fitness))
    {
      CleanDeadAgents();
      assert agents == AliveOnly(old(agents));
      r := EvaluateFitness(rng);
    }

    /** The last steps of `evolve()` on a population with agents: breed,
        mutate and count the generation. */
    method Reproduce(rng: Draws)
      requires Valid() && |agents| > 0
      modifies this`agents, this`generation, agents, rng
      ensures Valid()
      ensures generation == old(generation) + 1
      ensures |agents| == Max0(populationSize)
      ensures rng.used == old(rng.used) + ChildDraws * |agents| + |agents|
    {
      var reproduced := SelectAndReproduce(rng);
      assert reproduced.Ok?;
      MutateAgents(rng);
      generation := generation + 1;
    }
  }
}
