# game-bunny-ai in Dafny

This project models the neuroevolution core of game-bunny-ai, a browser game.
In the game, a population of box-shaped agents learns to reach a goal.

Each agent has these parts:
- a box that the physics engine moves;
- a neural network that turns twelve sensor values into three controls (jump, left and right);
- a fitness score, shaped by a progress and stagnation rule.

The `Environment` runs the population:
- every tick, `simulate` lets each live agent sense, act and update its fitness;
- every generation, `evolve` drops the dead, records the best agent, breeds a new population, mutates it and counts the generation;
- breeding uses rank-based selection (sort by fitness, then a draw weighted by rank) and crossover.

The model also covers a few self-contained pieces around the core:
- the object registry `Manager`, with its dead-object sweep and collision pair keys;
- the force rule and scale bookkeeping of `Box`;
- the distance and coordinate helpers;
- the waypoint cycle of `MovablePlatform`;
- the second reward rule `FitnessManager`;
- the range mappings of `SeededRandom`;
- the frame counter `FpsMeter`.

How the model stands in for what it cannot run:
- **Numbers** are Dafny `real`s.
- **`Math.random()` and the `seedrandom` generator** become a `Randomness.Draws` object. It holds an infinite stream of reals in [0, 1) and a cursor. Contracts count the draws the repository's own code takes (the inputs of `initializeInputs`, the parent picks, the mutation draws) and say where each one goes. The network library's own randomness is not modelled.
- **The neural-network library** (neataptic) becomes a `Neural.Library` value of function parameters: `activate`, `mutate`, `crossOver`, `toJson` and `fromJson`.
- **`Math.sqrt`** is a parameter `sqrt`, which callers promise behaves as a square root (`Vector.IsSqrt`).
- **The physics engine's body** is reduced to the position, velocity and ground-sensor state that the code reads.
- **`Date.now()`** is passed to `FpsMeter` as a parameter.
- **`createBrain`** is passed in as a network, or as a function from agent number to network. Each call of it builds a fresh random network.

Modules follow the source files:
- `Vector`, `Coordinations`, `SeedRandom`, `Box`, `MovablePlatform`, `FpsMeter`, `Manager`, `FitnessManager`, `Agent` and `Environment` each model one file;
- `Progress` is the stagnation rule shared by `Agent.updateFitness` and `FitnessManager.reward`;
- `Ranking` holds the pure sort, fold and rank arithmetic used by `Environment`;
- `Extended`, `Wrappers`, `Randomness` and `Neural` are support modules.

The in-place operations are classes whose methods update their fields. Each state-changing method is proved against a specification function, and the properties the code promises are lemmas about those functions:
- `Environment`, `Agent`, `Manager`, `Box`, `MovablePlatform`, `FitnessManager`, `FpsMeter` and `SeededRandom` are classes;
- examples of specification functions are `AliveOnly`, `SortByFitness`, `ParentPick`, `Observe`, `Tick` and `Without`.

## Model

| member | source | states |
|---|---|---|
| Vector.Lerp | src/utils/Vector.js:8-10 | `lerp(a, b, 0) = a`, `lerp(a, b, 1) = b`, and the result moves `amt` of the way from start to end |
| Vector.CalculateDistance | src/utils/Vector.js:12-16 | the distance is non-negative, squares to the squared Euclidean distance, and is 0 for identical points |
| Vector.DistanceSymmetric | src/utils/Vector.js:12-16 | swapping the two points gives the same distance |
| Vector.IsNearby | src/utils/Vector.js:26-34 | true exactly when the distance is strictly below the threshold (default 100); an entity is near itself exactly when the threshold is positive |
| Vector.NearbySymmetric | src/utils/Vector.js:26-34 | `isNearby(e1, e2, t) == isNearby(e2, e1, t)` |
| Coordinations.CornerToCenter | src/utils/Coordinations.js:7-12 | converting the drawing corner back with `centerToCorner` gives the body position again |
| Coordinations.CenterToCorner | src/utils/Coordinations.js:20-25 | the body position lies midway between the drawing corner and the opposite corner, and strictly inside the box on each axis whose size is positive |
| Coordinations.CornerRoundTrip | src/utils/Coordinations.js:7-25 | `cornerToCenter(centerToCorner(x, y, size), size)` is `(x, y)` |
| Coordinations.CenterRoundTrip | src/utils/Coordinations.js:7-25 | the conversion the other way round also returns the start point |
| Coordinations.DistanceBetween | src/utils/Coordinations.js:30-34 | the distance is non-negative, squares to the squared distance, and is 0 for equal points |
| Coordinations.DistanceBetweenSymmetric | src/utils/Coordinations.js:30-34 | the distance is symmetric |
| Coordinations.DirectionTo | src/utils/Coordinations.js:39-47 | for points at nonzero distance, the direction times the distance is the offset `(dx, dy)` |
| SeedRandom.Stretch | src/utils/SeedRandom.js:16 | a draw in [0, 1) scaled by a positive width lies in [0, width) |
| SeedRandom.IntInRange | src/utils/SeedRandom.js:15-17 | for `min <= max`, the result lies in [min, max] |
| SeedRandom.IntInRangeSingleton | src/utils/SeedRandom.js:15-17 | `randomInt(m, m) == m` |
| SeedRandom.FloatInRange | src/utils/SeedRandom.js:20-22 | for `min < max`, the result lies in [min, max) |
| SeedRandom.SeededRandom.constructor | src/utils/SeedRandom.js:4-6 | a new generator over the given stream, with no draw taken yet |
| SeedRandom.SeededRandom.Random | src/utils/SeedRandom.js:9-11 | returns the next draw of the stream, in [0, 1), and consumes exactly one draw |
| SeedRandom.SeededRandom.RandomInt | src/utils/SeedRandom.js:15-17 | consumes exactly one draw, maps it to [min, max], and is the range mapping of that draw |
| SeedRandom.SeededRandom.RandomFloat | src/utils/SeedRandom.js:20-22 | consumes exactly one draw, maps it to [min, max), and is the range mapping of that draw |
| Randomness.Draws.constructor | src/utils/SeedRandom.js:4-6 | a draw source starts at the head of its stream |
| Randomness.Draws.Next | src/utils/SeedRandom.js:9-11 | a draw is the stream's value at the cursor, lies in [0, 1), and advances the cursor by one |
| Box.Force | src/Box.js:98-120 | with no side control there is no horizontal force; `left` gives a negative one and wins over `right`; on the ground the size is 0.01; in the air it is 0.006 · 0.006; the vertical force is -0.08 exactly when `up` is pressed on the ground, and 0 otherwise |
| Box.Applied | src/Box.js:122-125 | a force is applied exactly when a side control is pressed or a jump is possible, and it is `Force` |
| Box.ResetStep | src/Box.js:44-48 | one reset moves a scale component a tenth of the way to 1: `new - 1 == 0.9 · (old - 1)` |
| Box.ResetsApproachOne | src/Box.js:44-48 | after any number of resets a scale component stays between its start value and 1, from either side, and a scale of 1 stays 1 |
| Box.ResetsLast | src/Box.js:44-48 | `k + 1` resets are `k` resets followed by one more step toward 1 |
| Box.ResetsMonotone | src/Box.js:44-48 | each further reset moves the component toward 1, never away, and shrinks its gap to 1 to nine tenths |
| Box.Box.constructor | src/Box.js:11-34 | the body sits at `centerToCorner(x, y, size)`, whose drawing corner is `(x, y)`; the sensor starts clear and the scale at (1, 1) |
| Box.Box.Scale | src/Box.js:37-41 | `currentScale` becomes exactly `(sx, sy)`; position, velocity and sensor are unchanged |
| Box.Box.ResetScale | src/Box.js:44-48 | each component becomes one reset step of its old value, 10% of the way to 1 |
| Box.Box.InAirNoJump | src/Box.js:58-60 | `isInAir()` holds exactly when the ground sensor touches nothing; then `up` gives no jump force, while on the ground it gives the jump force |
| Box.Box.Movement | src/Box.js:98-126 | the force built from the successive assignments is `Applied(controls, isInAir())` |
| MovablePlatform.NextIndex | src/entities/MovablePlatform.js:22 | `(i + 1) % len` is in range and wraps from the last index to 0 |
| MovablePlatform.Advance | src/entities/MovablePlatform.js:22-35 | the index after any number of arrivals stays in range |
| MovablePlatform.AdvanceSplit | src/entities/MovablePlatform.js:22-35 | `a + b` arrivals are `a` arrivals followed by `b` arrivals |
| MovablePlatform.AdvanceForward | src/entities/MovablePlatform.js:22-35 | before the end of the list, the index counts up by one per arrival |
| MovablePlatform.FullCycle | src/entities/MovablePlatform.js:22-35 | from index `i`, `len - i` arrivals reach waypoint 0, and `len` arrivals return to `i` |
| MovablePlatform.MovablePlatform.constructor | src/entities/MovablePlatform.js:14-18 | the route starts at waypoint 0, the waypoint list is the given one, and the body is placed as a platform |
| MovablePlatform.MovablePlatform.Update | src/entities/MovablePlatform.js:20-35 | the index stays in range. If the next waypoint is farther than the current speed, the body moves by speed times the unit direction and the index is kept. Otherwise the index becomes `(i + 1) % len` and the body stays put. An empty list, or a translation by `NaN`, is an error that changes nothing |
| FpsMeter.Tick | src/engine/FpsMeter.js:19-32 | each update counts one frame. A second after the window opened, `fps` becomes the incremented count, the count resets and a new window opens. Before that, `fps` and the window start are kept |
| FpsMeter.CountWithinWindow | src/engine/FpsMeter.js:19-32 | updates inside an open window count frames one by one and change neither `fps` nor the window start |
| FpsMeter.WindowReport | src/engine/FpsMeter.js:19-32 | from a zero count, `k` updates inside the window and one after it report `k + 1` frames per second |
| FpsMeter.TicksAppend | src/engine/FpsMeter.js:19-32 | a run of updates followed by one more is that run, then one `Tick` |
| FpsMeter.FpsMeter.constructor | src/engine/FpsMeter.js:8-14 | a new meter has no frames, `fps = 0`, and start, current and previous times all equal to now |
| FpsMeter.FpsMeter.Update | src/engine/FpsMeter.js:19-32 | the new counters are `Tick` of the old ones at the given time |
| FpsMeter.FpsMeter.GetFps | src/engine/FpsMeter.js:37-39 | returns the stored `fps` and changes nothing |
| Progress.Observe | src/Agent.js:64-84 | after any call the count is in [0, 10] and the best distance has not grown. An improvement stores the distance and resets the count. Otherwise the best is kept and the count goes up by one, or resets to 0 once it passes 10 |
| Progress.Shaping | src/Agent.js:67-81 | the fitness change is +0.2 exactly on improvement, -0.4 exactly on the stagnation penalty, and 0 otherwise |
| Progress.BestNeverIncreases | src/Agent.js:67-69 | across any run of calls, the best distance never increases |
| Progress.CountBounded | src/Agent.js:71-81 | after any non-empty run of calls, the stagnation count is in [0, 10] |
| Progress.QuietRun | src/Agent.js:71-74 | calls without progress that stay within the threshold only count up; best and fitness are unchanged |
| Progress.PenaltyRun | src/Agent.js:76-81 | the call that takes the count past 10 costs exactly 0.4 and resets the count |
| Progress.EleventhCallPenalized | src/Agent.js:71-81 | right after a start or an improvement, ten calls without progress cost nothing and the eleventh costs exactly 0.4 |
| Progress.SteadyProgress | src/Agent.js:67-70 | strictly decreasing distances below the best each earn 0.2, and the last one becomes the best |
| FitnessManager.RewardValue | src/Ai/FitnessManager.js:17-38 | the reward is 2 on a strict improvement and -1 otherwise, never any other value |
| FitnessManager.StalledRewards | src/Ai/FitnessManager.js:26-38 | calls without progress each cost exactly 1, even when the stagnation branch fires, and leave the best distance unchanged |
| FitnessManager.FitnessManager.constructor | src/Ai/FitnessManager.js:4-7 | a new manager starts with best distance `Infinity` and a zero count |
| FitnessManager.FitnessManager.Reward | src/Ai/FitnessManager.js:17-39 | returns `RewardValue` of the old state; the new state is `Observe` of the old one, so the count stays in [0, 10] and the best distance never grows |
| Agent.InterpretOutputs | src/Agent.js:107-116 | `up` iff out[0] > 0.02, `left` iff out[1] < -0.02, `right` iff out[1] > 0.02; a missing output presses nothing; `left` and `right` are never both set |
| Agent.Agent.constructor | src/Agent.js:20-32 | a new agent has the given brain, fitness 10, best distance `Infinity`, a zero count and is alive; its box is centred at (75, 325); its first activation on `initializeInputs()` takes twelve draws |
| Agent.Agent.Create | src/Agent.js:11-32 | a truthy brain that is not a network is an error that draws nothing; otherwise the agent is fresh and its brain is the argument or the created network |
| Agent.Agent.Act | src/Agent.js:47-52 | the controls decoded from the network's output never press left and right together |
| Agent.Agent.InitializeInputs | src/Agent.js:54-61 | exactly twelve values, each `2u - 1` for the next draw `u`, so each lies in [-1, 1) |
| Agent.Agent.UpdateFitness | src/Agent.js:64-84 | the new progress state is `Observe` of the old one, the fitness changes by `Shaping`, the count stays in [0, 10], the best distance never grows, and brain and life are untouched |
| Agent.Agent.Clone | src/Agent.js:87-96 | the clone is fresh (fitness 10, `Infinity`, 0, alive) and its brain is `fromJSON(toJSON(brain))`; when that round trip preserves behaviour, the clone acts as the original does |
| Agent.Agent.Mutate | src/Agent.js:99-101 | the brain becomes its mutation; fitness, life and progress are unchanged |
| Agent.Agent.Crossover | src/Agent.js:103-105 | the child is fresh and its brain is `crossOver(this.brain, other.brain)` |
| Manager.GameObject.constructor | src/Manager.js:47-58 | an object records its `alive` property and whether it has an `update` method |
| Manager.Targets | src/Manager.js:34-40 | the set of objects an argument names: exactly the object, or exactly the array's elements |
| Manager.Without | src/Manager.js:34-40 | the filter keeps exactly the entries not removed, each one from the list |
| Manager.WithoutConcat | src/Manager.js:34-40 | the filter distributes over concatenation, so it keeps the order of the remaining entries |
| Manager.WithoutAbsent | src/Manager.js:34-40 | removing objects that are not there leaves the list unchanged |
| Manager.WithoutTwice | src/Manager.js:34-52 | two removals in a row are one removal of both sets |
| Manager.RegisterUnregisterRoundTrip | src/Manager.js:24-40 | unregistering an object right after registering it restores the list, when it was not there before |
| Manager.DeadAmong | src/Manager.js:49 | exactly the objects whose `alive` is the boolean `false` |
| Manager.Updated | src/Manager.js:54-56 | exactly the objects that have an `update` method and are not dead, each one from the snapshot |
| Manager.UpdatedConcat | src/Manager.js:54-56 | the update list of `a + b` is that of `a` followed by that of `b`, so the snapshot's order and repeats are kept |
| Manager.UpdatedAllLive | src/Manager.js:54-56 | when every object is live and has `update`, every one is updated, in snapshot order |
| Manager.PairKey | src/Manager.js:133-136 | the key is the two decimal ids joined by `_`, the one that comes first in the default string order of `sort` first, and the first id first when they tie |
| Manager.DecimalString | src/Manager.js:134 | a non-empty string of decimal digits, a single digit exactly for numbers below ten |
| Manager.DecimalStringInjective | src/Manager.js:134 | different ids are written as different strings |
| Manager.SeparatorMismatch | src/Manager.js:135 | two keys whose `_` sits at different places differ |
| Manager.SplitAtSeparator | src/Manager.js:135 | a key splits at its `_` into exactly the two id strings it joins |
| Manager.PairKeyUnique | src/Manager.js:133-136 | two pairs of ids have the same key exactly when they hold the same two ids, so the key is the unique identifier the documentation promises |
| Manager.LexLessAsymmetric | src/Manager.js:134 | the default string order of `sort` never puts each of two strings before the other |
| Manager.LexLessTotal | src/Manager.js:134 | of two different strings, one comes first in the default order |
| Manager.PairKeySymmetric | src/Manager.js:133-136 | `getPairKey(a, b) == getPairKey(b, a)` |
| Manager.Manager.constructor | src/Manager.js:11-18 | no objects and no callbacks |
| Manager.Manager.Register | src/Manager.js:24-32 | the named objects (`Named`: one object itself, an array its elements in order) are appended at the end |
| Manager.Manager.Unregister | src/Manager.js:34-40 | every entry identical to the object, or contained in the array, is dropped; the others stay in order |
| Manager.Manager.SweepStep | src/Manager.js:48-57 | one more object of the walk: a dead one is removed, a live one with `update` is updated, any other is skipped |
| Manager.Manager.SweepBounds | src/Manager.js:47-58 | nothing has been swept at the start; after the whole walk only live objects remain, each from the old list |
| Manager.Manager.Update | src/Manager.js:47-58 | walking the objects registered at the start, every dead object is removed and the others keep their order; `update` is called exactly on the objects that have it and are not dead, in order; no dead object remains |
| Manager.Manager.OnCollision | src/Manager.js:76-78 | the callback replaces any earlier one under the same key; other keys are untouched |
| Manager.Manager.OnPartlyCollision | src/Manager.js:89-91 | the callback pair replaces any earlier pair for the same object; other objects are untouched |
| Ranking.Insert | src/Ai/Environment.js:135 | inserting grows the list by one |
| Ranking.InsertPermutes | src/Ai/Environment.js:135 | inserting adds exactly the new element |
| Ranking.InsertSorted | src/Ai/Environment.js:135 | inserting into a sorted list keeps it sorted |
| Ranking.Sort | src/Ai/Environment.js:135 | the sort keeps the length |
| Ranking.SortPermutes | src/Ai/Environment.js:135 | the sort is a permutation |
| Ranking.SortSorted | src/Ai/Environment.js:135 | the result is ordered by key, ascending or descending |
| Ranking.ItemsSort | src/Ai/Environment.js:135 | sorting by key permutes the elements themselves |
| Ranking.FirstMaxIndex | src/Ai/Environment.js:87 | the `reduce` with a strict `>` lands on a maximum, and on the first one, since earlier entries are strictly smaller |
| Ranking.FirstMaxUnique | src/Ai/Environment.js:87 | the first-maximum properties determine that index |
| Ranking.TriangleFormula | src/Ai/Environment.js:136 | `(n * (n + 1)) / 2` is the sum of the ranks 1 to n |
| Ranking.TriangleMonotone | src/Ai/Environment.js:136 | the sum of ranks grows with the number of agents |
| Ranking.RankFromSpec | src/Ai/Environment.js:140-145 | the loop returns the first index whose running sum exceeds the threshold, and runs past the end only when no running sum does |
| Ranking.RankIndexSpec | src/Ai/Environment.js:133-146 | rank index `k` is picked exactly when the threshold lies in `[T(k), T(k+1))`, `k`'s share of the sum of ranks |
| Ranking.RankIndexInRange | src/Ai/Environment.js:136-145 | a threshold in [0, sum of ranks) always picks an index below the population size: the loop never falls through |
| Environment.Nearby | src/Ai/Environment.js:148-156 | exactly the platforms at distance strictly below 200, each one from the input |
| Environment.NearbyConcat | src/Ai/Environment.js:148-156 | the filter of `a + b` is that of `a` followed by that of `b`, so the platforms keep their order and repeats |
| Environment.NearbyAllNear | src/Ai/Environment.js:148-156 | platforms that are all within range are kept whole, in order |
| Environment.Values | src/Ai/Environment.js:185-198 | `Object.values` of the state has twelve entries, the network's inputs |
| Environment.StateFor | src/Ai/Environment.js:177-199 | position, velocity and distance to the goal are copied; `isInAir` is 1 or 0 by the sensor; obstacle slots hold the first three nearby platforms, and 0 beyond the number detected |
| Environment.GetStateForAgent | src/Ai/Environment.js:177-199 | its `distance` is the agent's distance to the goal |
| Environment.AliveOnly | src/Ai/Environment.js:201-203 | keeps exactly the agents with `alive` set, each from the list |
| Environment.AliveOnlyConcat | src/Ai/Environment.js:201-203 | the filter distributes over concatenation, so survivors keep their relative order |
| Environment.AliveOnlyAllAlive | src/Ai/Environment.js:201-203 | a list of live agents is kept whole |
| Environment.AliveOnlyIdempotent | src/Ai/Environment.js:201-203 | filtering twice is filtering once |
| Environment.AliveOnlyDistinct | src/Ai/Environment.js:201-203 | filtering keeps the agents distinct |
| Environment.Fitnesses | src/Ai/Environment.js:135 | the fitness of each agent, in order |
| Environment.SortByFitness | src/Ai/Environment.js:135 | the sort by fitness keeps the number of agents |
| Environment.SortByFitnessPermutes | src/Ai/Environment.js:135 | the sort by fitness permutes the agents |
| Environment.SortByFitnessOrders | src/Ai/Environment.js:96 | the result is ordered by descending (`b - a`) or ascending (`a - b`) fitness |
| Environment.PickAt | src/Ai/Environment.js:136-145 | a pick from the ascending list is a member of it |
| Environment.ParentPick | src/Ai/Environment.js:133-146 | the per-draw rule of `selectParent`: with no agents nothing is returned; otherwise a draw in [0, 1) always returns a member of the population |
| Environment.DistinctPermutation | src/Ai/Environment.js:134 | the sorted copy of a population with no agent listed twice lists no agent twice either |
| Environment.DistinctCounted | src/Ai/Environment.js:134 | in such a population each agent occurs at most once |
| Environment.RepeatCounted | src/Ai/Environment.js:134 | an agent at two positions of a list occurs at least twice |
| Environment.ParentPickShare | src/Ai/Environment.js:133-146 | the agent of ascending rank `k + 1` is returned when the scaled draw lies in its share; with no agent listed twice, only then. So fitter agents own larger shares |
| Environment.BestOf | src/Ai/Environment.js:87-89 | the best agent is a member of the population, and no agent is fitter |
| Environment.FirstBest | src/Ai/Environment.js:87 | the scan that keeps the first agent and replaces it only by a strictly fitter one ends at `BestOf` |
| Environment.PickPair | src/Ai/Environment.js:105-106 | both parents of a successful pair come from the ranked list |
| Environment.ParentsMembers | src/Ai/Environment.js:103-109 | both picks succeed exactly when the population is non-empty, and both parents are then members of it |
| Environment.Environment.constructor | src/Ai/Environment.js:19-36 | population size 0, no agents, generation 0, best fitness `-Infinity`, no best agent |
| Environment.Environment.GenerateAgents | src/Ai/Environment.js:38-43 | `populationSize` becomes `n`; exactly `max(n, 0)` fresh agents are appended after the existing ones, which are kept; each new agent has its created network; twelve draws per agent |
| Environment.Environment.DetectObjects | src/Ai/Environment.js:148-156 | the loop collects exactly `Nearby`: the platforms nearer than 200, in input order (`NearbyConcat`) |
| Environment.Environment.StepAgent | src/Ai/Environment.js:47-55 | a dead agent is skipped and untouched. An alive agent gets the force its network decided and its progress state is `Observe`d at its goal distance. Its fitness changes by `Shaping`. Its brain and life are kept |
| Environment.Environment.Simulate | src/Ai/Environment.js:45-57 | one force slot per agent; every agent, alive or dead, is `Stepped`: exactly one step for an alive agent, nothing at all for a dead one |
| Environment.Environment.CleanDeadAgents | src/Ai/Environment.js:201-203 | the population becomes `AliveOnly` of the old one |
| Environment.Environment.EvaluateFitness | src/Ai/Environment.js:86-91 | an empty population is an error that changes nothing. Otherwise `bestFitness` becomes the first maximum fitness and bounds every agent's, replacing the previous value even when that was higher. `bestAgent` is a fresh clone of the best agent, whose brain went through `toJSON`/`fromJSON` |
| Environment.Environment.SelectParent | src/Ai/Environment.js:133-146 | takes exactly one draw and returns `ParentPick` of the population for it, without reordering the population |
| Environment.Environment.Breed | src/Ai/Environment.js:104-111 | with no agents it returns nothing after two draws. Otherwise the child is fresh and is the crossover of the pair `PickPair` picks with the next two draws; fourteen draws in all |
| Environment.Environment.BreedAll | src/Ai/Environment.js:100-112 | with no agents and a positive population size this is an error. Otherwise there are exactly `max(populationSize, 0)` distinct fresh children, and child `k` is the crossover of the pair picked with draws `14k` and `14k + 1` |
| Environment.Environment.SelectAndReproduce | src/Ai/Environment.js:94-115 | the error case above leaves no agents. Otherwise the population is replaced by `max(populationSize, 0)` distinct fresh agents, and each is the crossover of two parents `selectParent` picked from the old population sorted by descending fitness |
| Environment.Environment.MutateAgents | src/Ai/Environment.js:118-125 | one draw per agent, in order; an agent mutates exactly when its draw is below 0.2; the list itself, and each agent's fitness, life and progress, are unchanged |
| Environment.Environment.Evolve | src/Ai/Environment.js:72-83 | `populationSize` is never changed. An empty population changes nothing. If no agent is alive, the step is an error that leaves no agents, keeps the best agent and its fitness, and does not count the generation. Otherwise the generation goes up by exactly 1, the population has `max(populationSize, 0)` agents, the best fitness is the survivors' first maximum, and the draws are 12 for the clone plus 15 per new agent |
| Environment.Environment.NextGeneration | src/Ai/Environment.js:77-81 | the four generation steps in order, with the outcome `Evolve` states for a non-empty population, `populationSize` kept |
| Environment.Environment.CleanAndEvaluate | src/Ai/Environment.js:77-78 | the population becomes exactly `AliveOnly` of the old one, the alive agents in order; it records the survivors' first maximum; with no survivor it is an error that keeps the best agent, its fitness and the draws |
| Environment.Environment.Reproduce | src/Ai/Environment.js:79-81 | on a population with agents: exactly `max(populationSize, 0)` distinct agents, fifteen draws per new agent, and the generation goes up by 1 |

## Left out

- neataptic: the network's internals (`Perceptron`, `activate`, `mutate(FFW)`, `crossOver`, `toJSON`/`fromJSON`) are a foreign library. They are the function parameters of `Neural.Library`. Their own use of `Math.random` is part of those functions.
- Math.random inside the network library: network creation, `crossOver` and `mutate(FFW)` draw from the same `Math.random` as the repository's code, and that randomness is not modelled. `crossOver` and `mutate` are fixed functions of their arguments, so the model does not capture that two crossovers of the same parents, or two mutations of equal networks, give different networks. Counts such as "twelve draws per agent", "draws 14k and 14k + 1" or "15 per new agent" are positions among the draws the repository's own code takes, not positions in the single `Math.random` sequence.
- Manager.Manager.Update: the objects' own `update(renderer)` calls are not made. They are represented by the returned list, and they are assumed not to register or unregister objects and not to change any `alive` flag. `Box.update` and `MovablePlatform.update` in this repository do none of these.
- Manager.Manager.Register: registering the registry's own array, `register(this.objects)`, never ends in the source, because the loop pushes onto the array it walks. `Register(Many(objects))` appends a copy of the list instead.
- createBrain: it builds a new random network on every call. The model is handed the networks it built, as `Agent.Agent.Create`'s `created` and `Environment.Environment.GenerateAgents`'s `networks`.
- The `seedrandom` seed: how a seed picks its stream is library behaviour. `SeedRandom.SeededRandom` takes the stream itself.
- `Math.sqrt` is a parameter with the square-root property. IEEE rounding, `NaN` and `Infinity` arithmetic are not modelled; numbers are exact reals.
- The physics engine: bodies, `Body.create`, `Body.applyForce`, `Body.translate` and `Body.scale`, and the collision listeners. `Movement` returns the force instead of applying it. `Scale` records the scale without rescaling a body.
- The compound body of `Box`: the body's position is taken as the centre of its main rectangle, ignoring the ground-sensor part.
- `Box.resetAngle` and `Box.update`: floating-point angle arithmetic with `Math.PI`, and keyboard input.
- `Manager.handleCollisionsStart`/`handleCollisionsEnd` and `Manager.draw`: event dispatch from the physics engine, and rendering. The engine subscription in the constructor is left out too.
- Every `draw` method, `Environment.draw`, the `Sensor` and the info-panel registrations in the `Environment` constructor: rendering and UI.
- `console.log` in `Agent.act`: output only. The constructor's `act(initializeInputs())` call is modelled by its twelve draws; its result only reaches the console.
- FitnessManager.FitnessManager.Reward: the distance is a parameter. The source computes it from `agent.entity.body.x` and `goal.x`, which do not exist and give `NaN`. Its `this.fitness -= 0.4` subtracts from an undefined field, giving `NaN` without affecting the result; that is not modelled.
- Coordinations.DirectionTo: requires a nonzero distance. The source divides by zero there and returns `NaN` components.
- Environment.SortByFitness: it is modelled as a stable insertion sort, as the JavaScript sort is stable. No contract states stability.
- Environment.Environment.Evolve: its contract states the count, the best fitness and the draws. The per-child crossover and the per-agent mutation relations are carried by `SelectAndReproduce` and `MutateAgents`, and are not restated for the whole step.
- Game.js glue: the tick cadence of `simulate` and `evolve`, and body removal and re-addition around `evolve`.
- The `round` helper for panel display: its file (`src/utils/Numeric`) is not part of this model.
