# Neuroevolution core of flappy-bird-neuroevolution, in Dafny

This project models the two coupled components behind the game's learning
birds.

The first is the feed-forward **neural network**:
- layers of neurons, built from a shape `[input, [hidden...], output]`;
- one weight per node of the previous layer;
- a `{nodes, weights}` record that lists the layer sizes and every weight
  layer by layer, node by node;
- `persist`, which rebuilds the layers from such a record;
- `compute`, a forward pass;
- a `Layer` that is its own iterator over its neurons.

The second is the **genetic algorithm**:
- `evolve` makes a first generation of random networks and then, call after
  call, the next generation;
- `next` ranks the last generation by fitness, keeps the elites, adds new
  networks and breeds pairs `(i, ceiling)` in triangular order until the
  population count is reached;
- `breed` performs uniform crossover and bounded mutation on a weight
  record, then persists it into a child, `numberOfOffspring` times.

Three builds of the algorithm are modelled as written.
- **genetic-algorithm.ts** ranks best first, keeps at most three
  generations, and crosses and mutates parent one's own record.
- **dist/genetic-algorithm.js**, its compiled form, does the same on a deep
  copy of that record. Module `Generation` selects between the two with
  `BreedMode` (`InPlace` or `DeepCopy`).
- **dist/dist.js** is an older class-based build, modelled in
  `LegacyNetwork` and `LegacyGeneration`.

Modules:
- `Random`: every `Math.random()` result is draw `random(k)` of a stream
  `random: nat -> real`. Each operation takes the position of its first
  draw and returns the position after its last one.
- `Topology`: layer sizes, weight counts, and the flatten/unflatten layout
  of the record.
- `Network`: dist/neural-network.js. `NeuralNetwork`, `Layer`, `Neuron` and
  the record `DataRecord` are classes whose methods update their fields.
  `compute` is specified by the pure `LayerValues`.
- `Ranking`: the stable sort behind `rank`, for both comparators.
- `Schedule`: `Math.round(0.2 * N)` as `(2N + 5) / 10`, and the breeding
  order of pairs.
- `Breeding`: `crossover` and `mutate`, as pure specifications and as
  in-place methods on the record.
- `Generation`: `breed`.
- `Evolution`: `next`.
- `Algorithm`: `evolve` and the stored generations.
- `LegacyNetwork` and `LegacyGeneration`: dist/dist.js lines 1-239.

The activation (a sigmoid) is a parameter `activate: real -> real`. Weights
are `real`. Fitness is a field the caller sets.

## Model

| member | source | states |
|---|---|---|
| Random.RandomClamped | dist/neural-network.js:113 | a fresh weight `r * 2 - 1` of a draw r in [0, 1) lies in [-1, 1), and r is recovered from it |
| Random.DrawsInRange | dist/neural-network.js:105-111 | every weight drawn by a new neuron lies in [-1, 1) |
| Random.DrawsSplit | dist/neural-network.js:108-110 | drawing a weights and then b more is the same as drawing a + b weights |
| Topology.FlattenLength | dist/neural-network.js:24-36 | the flat weight list of a network has Σ size(l)·size(l−1) entries |
| Topology.UnflattenConforms | dist/neural-network.js:38-52 | cutting a flat list by the layer sizes gives one row per node, each as long as the layer before |
| Topology.FlattenUnflatten | dist/neural-network.js:38-52 | flattening the layers cut from a flat list gives back its first WeightCount entries |
| Topology.UnflattenFlatten | dist/neural-network.js:24-52 | cutting the flat list of conforming layers gives back those layers (the record round trip) |
| Topology.FlattenInjective | dist/neural-network.js:24-36 | two networks of one shape with the same flat list hold the same weights |
| Topology.UnflattenPrefix | dist/neural-network.js:42-47 | entries of the record past the weight count do not affect the rebuilt layers |
| Topology.WeightCountSplit | dist/neural-network.js:9-20 | the weight count of a shape is that of its first layers plus that of the rest |
| Topology.ShapeWeightCount | dist/neural-network.js:5-20 | the weight count of `[input, hidden, output]` counts the hidden and output layers fed from the input |
| Network.Neuron.constructor | dist/neural-network.js:105-111 | a new neuron holds `weightCount` weights, the successive draws `r * 2 - 1` |
| Network.Neuron.Load | dist/neural-network.js:45-47 | persist's inner loop: the neuron's weights become the next entries of the flat list, and the index advances by one per weight |
| Network.Neuron.Activate | dist/neural-network.js:118-121 | the neuron's value becomes the activation of the sum, and it is returned |
| Network.DrawnRowsConcat | dist/neural-network.js:85-91 | the rows a new layer's neurons draw, read in order, are one run of draws |
| Network.Layer.constructor | dist/neural-network.js:85-91 | `nodeCount` new neurons, iterator at its start, neuron k drawing its `inputCount` weights after those of the neurons before it |
| Network.Layer.AppendWeights | dist/neural-network.js:31-33 | one pass over a layer appends every neuron's weights in node order and leaves the iterator at its start |
| Network.Layer.Load | dist/neural-network.js:44-48 | one pass of persist over a layer gives neuron k the k-th run of `fan` entries from `index` on |
| Network.Layer.Next | dist/neural-network.js:94-100 | the iterator step returns the node at `pointer` and advances it, or reports done and resets `pointer` to 0 |
| Network.Layer.Iterate | dist/neural-network.js:94-102 | a full pass yields the nodes in index order and resets `pointer` to 0, so the next pass yields the same nodes |
| Network.Layer.Values | dist/neural-network.js:75-79 | a pass over the output layer lists every node's value in order |
| Network.LoadNodes | dist/neural-network.js:44-48 | node k of a layer takes the `fan` entries of the flat list from `index + k * fan` on |
| Network.LayerValues | dist/neural-network.js:61-73 | the values a forward pass gives each layer: one per node, and in (0, 1) past the input layer when the activation is |
| Network.AllLayerValuesChain | dist/neural-network.js:62-73 | each layer's values are the activations of the weighted sums of the previous layer's values |
| Network.ConformsFan | dist/neural-network.js:9-20 | in a well-formed network every node holds as many weights as the previous layer has nodes |
| Network.NeuralNetwork.constructor | dist/neural-network.js:5-21 | layer sizes `[input, hidden..., output]`; the weights, read layer by layer and node by node, are the successive draws; the cached record is empty |
| Network.NeuralNetwork.Data | dist/neural-network.js:24-36 | `data` returns the cached record when it holds weights; otherwise it returns a new record of the layer sizes and flat weights, which becomes the cache |
| Network.ViewCounts | dist/neural-network.js:24-36 | the weights `data` reports number exactly the weight count of the sizes it reports |
| Network.NeuralNetwork.Persist | dist/neural-network.js:38-52 | the layers are rebuilt with the record's sizes and its leading weights, the cache and the fitness are untouched, and the draws of the new neurons are used up |
| Network.NeuralNetwork.Compute | dist/neural-network.js:54-81 | the inputs become the first input values, every layer holds the `LayerValues` of those inputs, the output layer's values are returned, and layer sizes and weights do not change |
| Network.Snapshot | dist/neural-network.js:28-35 | the new record lists the layer sizes and the flat weights, and every iterator ends at its start |
| Network.BuildLayers | dist/neural-network.js:9-20 | the constructor's layers conform to the shape and hold the successive draws |
| Network.InputLayer | dist/neural-network.js:11 | the input layer's neurons hold no weights |
| Network.GrowLayers | dist/neural-network.js:14-20 | adding a layer of `size` nodes after those built keeps the layers conforming and their weights the successive draws |
| Network.AddLayer | dist/neural-network.js:16 | a pushed layer holds freshly drawn rows and leaves the earlier layers as they were |
| Network.GrowStep | dist/neural-network.js:14-20 | appending a drawn layer extends the flat weights by exactly its draws |
| Network.LoadLayers | dist/neural-network.js:39-51 | persist's layers are the record's weights cut by its sizes |
| Network.LoadLayer | dist/neural-network.js:43-50 | one more persisted layer extends the flat weights by the next entries of the record |
| Network.LoadedLayer | dist/neural-network.js:43-48 | a persisted layer's neuron k holds the k-th run of entries after `start` |
| Network.LoadStep | dist/neural-network.js:42-51 | rows read from the record after the layers so far extend their flat list to the next prefix |
| Network.Forward | dist/neural-network.js:54-81 | compute's three phases give the input values, every layer's `LayerValues`, and the output values |
| Network.FeedInputs | dist/neural-network.js:56-60 | input node i takes `inputs[i]`; the other input nodes and all later layers keep their values |
| Network.WeightedSum | dist/neural-network.js:66-69 | the sum over k of the previous layer's value k times the node's weight k |
| Network.ActivateLayer | dist/neural-network.js:64-71 | every node of the layer is activated from the previous layer's values; no other layer changes |
| Network.Propagate | dist/neural-network.js:62-73 | after the layer loop every layer holds its forward-pass values |
| Network.Run | dist/neural-network.js:61-80 | the layer loop and the output loop return the output layer's forward-pass values |
| Ranking.Compare | dist/genetic-algorithm.js:79-87 | the comparator returns -1, 0 or 1, and 0 exactly for equal scores |
| Ranking.Pick | dist/genetic-algorithm.js:88 | mapping the sorted entries back picks the population member at each sorted index |
| Ranking.OrderPermutes | dist/genetic-algorithm.js:76-88 | the sorted indices list every index of the population exactly once |
| Ranking.OrderSorted | dist/genetic-algorithm.js:79-87 | the sorted indices are in comparator order, with ties in their original order |
| Ranking.ChainSorted | dist/genetic-algorithm.js:79-87 | a sorted chain has non-positive comparator results and keeps equal scores in index order |
| Ranking.PickOrder | dist/genetic-algorithm.js:75-88 | the ranked population has the same members, as often, as the population |
| Ranking.RankIsStableSort | genetic-algorithm.ts:64-76 | `rank` returns a permutation of the population sorted by the comparator on fitness, with equal fitness in original order |
| Schedule.FifthIsRounded | genetic-algorithm.ts:41 | `(2N + 5) / 10` is the integer nearest to 0.2·N, which `Math.round` returns |
| Schedule.FifthsBelow | genetic-algorithm.ts:40-48 | with N ≥ 1 the elites and the new networks together number fewer than N |
| Schedule.PairsInRange | genetic-algorithm.ts:51-52 | every pair visited is `(i, c)` with i < c < N |
| Schedule.PairAt | genetic-algorithm.ts:51-53 | the t-th pair visited has i < ceiling < N |
| Schedule.Row | genetic-algorithm.ts:52 | the inner loop for one ceiling visits `(0, c) ... (c - 1, c)` |
| Schedule.RowInPairs | genetic-algorithm.ts:51-58 | the pairs of ceiling c come, in order of i, right after the pairs of smaller ceilings |
| Schedule.PairsIndex | genetic-algorithm.ts:51-58 | there are N(N−1)/2 pairs, and pair `(i, c)` is visited at position c(c−1)/2 + i |
| Schedule.PairsPrefix | genetic-algorithm.ts:51-58 | the pairs for a smaller count are the first pairs for a larger one |
| Schedule.PairsOrdered | genetic-algorithm.ts:51-58 | pairs are visited by increasing ceiling and, within a ceiling, by increasing i |
| Schedule.GenerationSize | genetic-algorithm.ts:40-58 | with N ≥ 3, elites, new networks and pairs always fill the generation; with N = 1 or 2 they do not |
| Breeding.Crossed | dist/genetic-algorithm.js:92-100 | every child weight is parent one's or parent two's at the same index; indices past parent two's list keep parent one's |
| Breeding.CrossedChoice | dist/genetic-algorithm.js:94-98 | index i takes parent two's weight exactly when its draw is at most 0.5 |
| Breeding.CrossedSelf | genetic-algorithm.ts:81-88 | crossing a record with itself leaves it unchanged |
| Breeding.Shift | dist/genetic-algorithm.js:104 | a mutation shift `r * 0.5 * 2 - 0.5` of a draw in [0, 1) lies in [-0.5, 0.5) |
| Breeding.Mutated | dist/genetic-algorithm.js:101-107 | mutation keeps the weight count and takes one or two draws per weight |
| Breeding.MutatedAt | dist/genetic-algorithm.js:102-106 | weight i is shifted by the draw after its own when its draw is at most 0.1, and is otherwise unchanged |
| Breeding.MutationBounded | genetic-algorithm.ts:90-96 | mutation keeps the weight count, moves each weight by less than 0.5, and changes it only when its draw is at most 0.1 |
| Breeding.Crossover | genetic-algorithm.ts:81-88 | crossover in place: the child record becomes the crossover of the two records, with one draw per index of parent two |
| Breeding.MutateStep | dist/genetic-algorithm.js:102-106 | one pass of the mutation loop extends the mutated prefix by one weight |
| Breeding.Mutate | genetic-algorithm.ts:90-96 | mutation in place: the record's weights become their mutation, and the draws it uses are accounted for |
| Generation.DefaultSizes | dist/genetic-algorithm.js:113 | `new NeuralNetwork()` has the shape [2, [2], 1], with six weights |
| Generation.Offspring | dist/genetic-algorithm.js:111-112 | crossover then mutation keeps parent one's weight count |
| Generation.OffspringNearParents | dist/genetic-algorithm.js:92-107 | every child weight lies within the mutation range of one parent's weight at the same index |
| Generation.Records | genetic-algorithm.ts:100-105 | the parents' records after some passes of `breed`'s loop: in the TypeScript parent one's record is the last child's, while a deep copy leaves every record as it was |
| Generation.RecordsPrefix | genetic-algorithm.ts:100-105 | the records after t passes depend on the first t children only |
| Generation.LineageStep | genetic-algorithm.ts:100-105 | a child crossed and mutated from the parents' records of its time extends the pair's lineage by one |
| Generation.RecordLengths | genetic-algorithm.ts:81-96 | breeding never changes how many weights a record holds |
| Generation.CopiedLineage | dist/genetic-algorithm.js:109-116 | with deep copies, every child is the mutated crossover of the parents' records as they were before `breed` |
| Generation.Litter | dist/genetic-algorithm.js:108-116 | one `breed` call with n offspring breeds the same two parents n times |
| Generation.OwnRecord | dist/genetic-algorithm.js:110 | parent one's record: the cache itself in the TypeScript, a fresh deep copy in the JavaScript; what parent one reports is unchanged |
| Generation.TheirRecord | dist/genetic-algorithm.js:111 | reading parent two's record changes neither what the parents report nor parent one's record |
| Generation.Spawn | dist/genetic-algorithm.js:113-114 | the child is a new network persisted from the record, with its sizes and leading weights, after drawing six default weights |
| Generation.Recombine | dist/genetic-algorithm.js:111-112 | crossover then mutation turn the record into the offspring weights |
| Generation.Beget | dist/genetic-algorithm.js:111-115 | the child reports parent one's sizes and the offspring weights; only in the TypeScript does parent one report them too |
| Generation.Conceive | dist/genetic-algorithm.js:110-115 | breed after parent one's record is made: the child is as `Beget` states and parent two is unchanged |
| Generation.BreedOnce | dist/genetic-algorithm.js:110-115 | one pass of `breed`'s loop: a new network of parent one's sizes holding the mutated crossover of the parents' records; parent one holds it too in the TypeScript; the deep copy leaves both parents unchanged |
| Generation.BreedInto | dist/genetic-algorithm.js:110-115 | one pass inside a population tracked by `reports`: every network stays well-formed and keeps its layer sizes, only parent one (TypeScript only) stops reporting the weights `reports` records, and the child shares state with no network and reports `Offspring` of the parents' recorded weights |
| Generation.ReportStep | dist/genetic-algorithm.js:109-116 | one more pass: the child joins with the new weights, parent one's record becomes the child's in the TypeScript, and no other report changes |
| Generation.LitterFits | genetic-algorithm.ts:100-102 | while `breed` runs, parent two's record stays no longer than parent one's |
| Generation.LitterStep | dist/genetic-algorithm.js:109-116 | one more pass from the parents' current records extends both the lineage and the reports |
| Generation.BreedNext | dist/genetic-algorithm.js:110-115 | one pass among tracked networks: the child reports the offspring of the parents' current records, parent one too in the TypeScript, and every other network reports as before |
| Generation.Breed | dist/genetic-algorithm.js:91-118 | `numberOfOffspring` new networks; child k holds the k-th offspring of the pair's lineage and draws right after child k−1; in the TypeScript each child is bred from the one before, in the JavaScript all from the same record; no network but parent one changes |
| Generation.SingleLitter | dist/genetic-algorithm.js:91 | with the default of one offspring, the child is the mutated crossover of the parents' records, and parent one holds it afterwards only in the TypeScript |
| Evolution.BredChild | dist/genetic-algorithm.js:59-62 | the child of the next pair, reporting the offspring of its parents, extends the record of which pair bred which child and of where each child's draws start and end |
| Evolution.HeldStep | genetic-algorithm.ts:53 | after pair `(i, c)` breeds in the TypeScript, ranked network i holds the new child's weights and every other one what it held before |
| Evolution.Parents | dist/genetic-algorithm.js:59 | when pair `(i, c)` breeds, parent one holds what earlier breedings left it and parent two its starting record, both of the shape's weight count |
| Evolution.RowHolding | genetic-algorithm.ts:52-55 | breeding one pair moves every ranked network one step along what it holds, and no other network changes |
| Evolution.RowProgress | dist/genetic-algorithm.js:59-62 | the new child joins the children so far, none repeated and none ranked, in pair order, its draws starting where the previous child's ended |
| Evolution.HeldParent | genetic-algorithm.ts:53 | the child of `(i, c)` is the offspring of parent one's current weights and parent two's starting record, and in the TypeScript parent one then holds the child's weights; its draws end after the crossover and mutation draws, the six of `new NeuralNetwork()` and those of `persist` |
| Evolution.BreedStep | dist/genetic-algorithm.js:59-62 | one inner-loop pass adds one new network, the child of the pair, and changes no other report but parent one's in the TypeScript; the returned position is where the child's crossover, mutation, `new NeuralNetwork()` and `persist` draws end |
| Evolution.BreedPair | dist/genetic-algorithm.js:59-62 | the pass for pair `(i, c)`: the child is bred from what the ranked parents hold, drawing from where the children before it stopped to the returned position, and afterwards every ranked network holds what the schedule says |
| Evolution.BreedRow | dist/genetic-algorithm.js:58-66 | the inner loop for one ceiling breeds `(i, ceiling)` for i in order and stops once the generation is full; each child draws right after the one before, and the returned position is where the last one's draws end |
| Evolution.NextRow | dist/genetic-algorithm.js:57-58 | once row c is bred, the ranked networks hold what row c + 1 starts from |
| Evolution.BreedAll | dist/genetic-algorithm.js:57-70 | the double loop adds one child per pair in triangular order, min(pairs, N − have) children in all, each the offspring of what its parents held then, the first drawing from the given position and each later one where the one before stopped |
| Evolution.KeepElites | dist/genetic-algorithm.js:45-49 | the first `round(0.2·N)` ranked networks, in rank order, as the same objects |
| Evolution.AddNewcomers | dist/genetic-algorithm.js:51-55 | up to `round(0.2·N)` new default networks, pushed only while the generation is short, each drawing six weights |
| Evolution.Fitnesses | dist/genetic-algorithm.js:76-78 | the scores `rank` sorts by are the networks' fitness, in order |
| Evolution.KeptElites | dist/genetic-algorithm.js:45-49 | the elites stay at the front of the generation whatever follows them, holding what breeding left them |
| Evolution.DrewNewcomers | dist/genetic-algorithm.js:51-55 | the new networks follow the elites, the k-th holding the k-th six draws |
| Evolution.PlacedKids | dist/genetic-algorithm.js:57-70 | child t follows the elites and new networks at position 2·round(0.2·N) + t and is the child of pair t, drawing where child t − 1 stopped |
| Evolution.DrawChain | genetic-algorithm.ts:51-58 | stretches of draws that each start where the one before ended, and are each at least a given length, come in order and end by the final position |
| Evolution.ChildDraws | genetic-algorithm.ts:46-58 | in the generation `next` assembles, the children draw after the new networks' six draws each, in breeding order, from disjoint stretches each holding at least the six default draws and the `persist` draws, all before the returned position |
| Evolution.Assembling | dist/genetic-algorithm.js:41-72 | elites, then new networks, then children make up the generation `next` returns, with the children's draws chained after the new networks' |
| Evolution.AssembledShapes | dist/genetic-algorithm.js:41-72 | every member of the new generation has the old generation's shape or the default one |
| Evolution.JoinedDistinct | dist/genetic-algorithm.js:43-70 | elites from a ranking without repeats, then new networks, then new children hold no network twice |
| Evolution.Assemble | dist/genetic-algorithm.js:43-71 | `next` after ranking: elites, new networks and children, cut off at N, without repeats when the ranking has none; the new networks draw first, six weights each, then the children in breeding order, and the returned position is where the last draw ends |
| Evolution.Next | dist/genetic-algorithm.js:41-72 | `next` ranks the last generation best first and assembles the new one from it, with every draw's position stated as `Assemble` states it |
| Algorithm.FirstGeneration | dist/genetic-algorithm.js:20-24 | `popCount` new networks of the shape, each drawing its weights after the previous one's |
| Algorithm.GeneticAlgorithm.constructor | dist/genetic-algorithm.js:11-12 | no generation is stored before the first `evolve` |
| Algorithm.GeneticAlgorithm.Begin | dist/genetic-algorithm.js:19-27 | the first `evolve` stores its `popCount` new networks as the only generation |
| Algorithm.GeneticAlgorithm.Store | dist/genetic-algorithm.js:30-33 | the oldest generation is dropped when three are stored, then the new one is appended |
| Algorithm.GeneticAlgorithm.Advance | dist/genetic-algorithm.js:28-35 | a later `evolve` stores `next()`'s generation as `Evolution.Next` describes it, children's weights and draw positions included, keeping at most three and no network twice; it returns where `next()`'s draws end |
| Algorithm.GeneticAlgorithm.Evolve | genetic-algorithm.ts:14-31 | `evolve`: the first call's new generation, or the next generation with history capped at three; either way it returns where the call's draws end |
| LegacyNetwork.At | dist/dist.js:39 | reading `_weights[index]` gives a number inside the list and `undefined` past its end |
| LegacyNetwork.AddProduct | dist/dist.js:62 | `sum += value * weight` is a number only when all three operands are |
| LegacyNetwork.SumIsNumber | dist/dist.js:60-63 | a neuron's sum is a number exactly when its value and all its weights are (or it has no weights) |
| LegacyNetwork.Neuron.constructor | dist/dist.js:99-105 | a new neuron's value is undefined, and its weights are `weightCount` successive draws `r * 2 - 1` |
| LegacyNetwork.Neuron.Activate | dist/dist.js:107-110 | the value becomes the activation of a numeric sum, and is not a number otherwise |
| LegacyNetwork.Neuron.Sum | dist/dist.js:60-63 | the loop sums `value * weight` over the neuron's own weights |
| LegacyNetwork.Neuron.Load | dist/dist.js:38-41 | persist's inner loop writes `_weights[index]` into each weight, index advancing once per weight |
| LegacyNetwork.Layer.constructor | dist/dist.js:80-87 | `nodeCount` new neurons, `id` set to the index, iterator at 0 |
| LegacyNetwork.Layer.Next | dist/dist.js:89-94 | the iterator returns the node at `pointer` and advances it, or reports done without resetting `pointer` |
| LegacyNetwork.Layer.Pass | dist/dist.js:89-96 | a pass yields the nodes from `pointer` on and leaves the layer drained, so every later pass yields nothing |
| LegacyNetwork.Layer.Values | dist/dist.js:72-74 | the output loop reads the values of the nodes a pass still yields, none once drained |
| LegacyNetwork.NeuralNetwork.constructor | dist/dist.js:4-19 | layer sizes `[input, hidden..., output]`, weights the successive draws, iterators at 0, `_weights` empty |
| LegacyNetwork.NeuralNetwork.Weights | dist/dist.js:21-31 | the getter always returns the empty `_weights` and drains every layer |
| LegacyNetwork.NeuralNetwork.Persist | dist/dist.js:33-44 | every neuron a pass still yields has its weights overwritten by `undefined`; on a drained network no weight changes |
| LegacyNetwork.NeuralNetwork.Compute | dist/dist.js:46-76 | the input nodes a pass yields take the first input; every later layer is drained; the outputs are empty |
| LegacyNetwork.BuildLayers | dist/dist.js:7-18 | the constructor's layers conform to the shape and hold the successive draws |
| LegacyNetwork.InputLayer | dist/dist.js:9 | the input layer's neurons hold no weights |
| LegacyNetwork.AddLayer | dist/dist.js:12-18 | a pushed layer gets the next id and freshly drawn rows |
| LegacyNetwork.DrainAll | dist/dist.js:25-29 | the getter's double loop changes nothing but leaves every layer drained |
| LegacyNetwork.PersistLayer | dist/dist.js:37-41 | one layer's pass writes `undefined` into the weights of the neurons it yields |
| LegacyNetwork.PersistAll | dist/dist.js:35-43 | persist's double loop, layer by layer, from an empty `_weights` |
| LegacyNetwork.FeedInputs | dist/dist.js:48-53 | the first input reaches the input nodes the pass yields; later inputs find the layer drained |
| LegacyNetwork.ActivateLayer | dist/dist.js:57-66 | the layer loop drains the layer and touches no neuron of another layer |
| LegacyNetwork.Run | dist/dist.js:46-75 | the layer loop leaves input values as fed, drains every later layer, and returns no outputs |
| LegacyGeneration.Fitnesses | dist/dist.js:155-157 | the scores `rank` sorts by are the networks' fitness, in order |
| LegacyGeneration.RankAscending | dist/dist.js:154-168 | `rank` returns a stable permutation sorted by ascending fitness |
| LegacyGeneration.Pushes | dist/dist.js:200-232 | `next` pushes `round(0.2·N)` elites, then one network per pair |
| LegacyGeneration.PushAt | dist/dist.js:201-226 | push m is stored network m while electing elites, and afterwards parent one of pair m − round(0.2·N) |
| LegacyGeneration.PicksFromPopulation | dist/dist.js:197-233 | the new generation holds N networks once N ≥ 3: the first stored ones unranked, then parent one of each pair; all taken from the first N − 1 of the old one |
| LegacyGeneration.PickAt | dist/dist.js:201-226 | each network `next` keeps is an elite or a parent one, among the first N − 1 stored |
| LegacyGeneration.Descends | dist/dist.js:197-233 | no network enters a new generation that was not in the old one |
| LegacyGeneration.PushOfRow | dist/dist.js:218-222 | the push for pair `(i, ceiling)` is network i, appended after the pushes before it |
| LegacyGeneration.Crossover | dist/dist.js:171-179 | the child is parent one itself; parent two's iterators are used up |
| LegacyGeneration.Mutate | dist/dist.js:180-186 | no weight changes; the chromosome's iterators are used up |
| LegacyGeneration.Breed | dist/dist.js:170-195 | `numberOfOffspring` references to parent one, none of whose weights change |
| LegacyGeneration.Generation.Fresh | dist/dist.js:147-150 | `popCount` new networks of the shape, in order, each drawing after the previous one |
| LegacyGeneration.Generation.Ranked | dist/dist.js:143-145 | a generation made from a new population stores it ranked |
| LegacyGeneration.Generation.Next | dist/dist.js:197-234 | `next` returns a new generation of the picked networks, ranked, and no weight of the old population changes |
| LegacyGeneration.KeepElites | dist/dist.js:200-214 | the first `round(0.2·N)` stored networks; the randomness loop pushes nothing |
| LegacyGeneration.BreedAll | dist/dist.js:215-232 | the double loop pushes parent one of each pair in order until N networks are pushed |
| LegacyGeneration.BreedRow | dist/dist.js:218-226 | the inner loop for one ceiling pushes network i for each i in order and stops at N |
| LegacyGeneration.GeneticAlgorithm.constructor | dist/dist.js:124-125 | no generation is stored before the first `evolve` |
| LegacyGeneration.GeneticAlgorithm.Begin | dist/dist.js:128-132 | the first `evolve` stores a new generation of `popCount` networks |
| LegacyGeneration.GeneticAlgorithm.Advance | dist/dist.js:133-138 | a later `evolve` appends the last generation's `next()`, all of whose networks came from it, and every neuron of the last generation keeps its weights |
| LegacyGeneration.GeneticAlgorithm.Evolve | dist/dist.js:126-139 | `evolve` keeps every generation it makes: first a new one, then the next of the last, whose networks keep every weight they held |

## Left out

- The game: drawing, the game loop, images, the birds and pipes, and how fitness and inputs are obtained (flappy-bird.ts and the rest of dist/dist.js). Fitness is a field the caller sets.
- neural-network.ts is not part of this model. Its working parts are copied in dist/dist.js.
- The sigmoid: `activate` is a parameter. No numeric claim is made beyond "values in (0, 1) when `activate` returns such values".
- `Math.random`: a stream of reals, assumed in [0, 1) where a bound is stated. Nothing is claimed about its distribution.
- IEEE floating point: weights, sums and shifts are exact reals. `Math.round(0.2 * N)` is exact because 0.2·N is never a half.
- `JSON.parse(JSON.stringify(...))` is modelled as a fresh record holding a copy of the sizes and weights.
- genetic-algorithm.ts:101 reads `parentOne.weights`, a field the network of dist/neural-network.js does not have. The model reads parent one's `{nodes, weights}` record there, so the TypeScript crosses and mutates that record in place.
- JavaScript coercions: `for..in` string keys, and the nested hidden-size array that dist/dist.js:12-15 passes to `new Array` and `<`. Shapes are lists of naturals.
- Neuron values before the first `compute` are left unconstrained in `Network`, where the value is a `real`. `LegacyNetwork` models `undefined` explicitly. There, `NaN` from arithmetic on `undefined` is folded into the same non-number value.
- Network.NeuralNetwork.Compute: requires no more inputs than input nodes. With more, the source writes through an undefined node and throws; that error path is not modelled.
- Generation.Breed: requires parent two's record to be no longer than parent one's. The source would grow the child's list; that case is not modelled.
- Evolution.Next: in the TypeScript mode requires the last generation to hold no network twice. The model follows each ranked network's weights by rank, and a network ranked twice would be changed under two ranks at once. Generations made by `evolve` never hold repeats.
- Network.NeuralNetwork.Persist: requires a record with at least as many weights as its sizes call for. With fewer, dist/neural-network.js:46 writes `undefined` into the remaining weights; that case is not modelled.
- Ranking.RankIsStableSort: states a stable sort. `Array.prototype.sort` is stable only since ECMAScript 2019; an older engine may order networks of equal fitness differently.
- Evolution.Next: requires every network of the last generation to report one shape, and later `Algorithm.GeneticAlgorithm.Evolve` calls require that shape to be the default `[2, [2], 1]`. Generations that mix shapes are not modelled.
- Algorithm.GeneticAlgorithm.Evolve: later calls require `popCount` to be at most the last generation's size. The source also accepts a larger count as long as every index `next` reads stays below that size: the elites `population[i]` for i < round(0.2·popCount), and `population[ceiling]` for the ceilings that breeding actually reaches (dist/genetic-algorithm.js:45-70). From a generation of 50, for instance, a count of 60 reads no index past 11 and fills 60 networks. Only a count whose reads pass the end reaches an `undefined` network and throws. The model does not cover the larger counts; the game only calls `evolve()` with the default 50 (flappy-bird.ts:24, dist/dist.js:260). The same holds for LegacyGeneration.GeneticAlgorithm.Evolve (dist/dist.js:201-232).
- LegacyNetwork.NeuralNetwork.Compute: does not state which values the hidden and output neurons end up with. With at least one input, the input pass drains the input layer and no neuron is activated. With no input, on an input layer not yet passed over (a fresh network's, say), the first neuron of layer 1 is activated with the sum 0 once per input neuron. The outputs are empty either way.
- LegacyNetwork.NeuralNetwork.Persist: an undefined entry of `_weights` past the end of the list is written as `undefined`; JavaScript array holes are not distinguished from it.
- The loop bodies of the legacy `crossover`, `mutate` and randomness step, and its `randomClamped` (dist/dist.js:173-176, 181-184, 209-212, 236), are not modelled. They run once per index of an always-empty `Weights`, so they never run. `Random.RandomClamped` models the same expression.
- The legacy `Population` getter (dist/dist.js:152) only returns the field that `Generation.population` models.
- Fitness values are plain reals. `undefined` or NaN fitness, which the comparator would treat as equal to everything, is not modelled.

## Findings

| source | as written | input that shows it | evidently intended | confidence | as-written member | corrected member |
|---|---|---|---|---|---|---|
| dist/dist.js:21-31 | the `Weights` getter calls `concat` but drops its result | any new network: `Weights` returns the empty list | the getter returns every neuron's weights, flat, as the later build's `data` getter does | high, not executed | LegacyNetwork.NeuralNetwork.Weights | Network.NeuralNetwork.Data |
| dist/dist.js:89-94 | the iterator never resets `pointer` once it reports done | any layer passed over twice: the second pass yields no node | a pass leaves `pointer` at 0 so the next pass yields every node again, as in the later build | high, not executed | LegacyNetwork.Layer.Pass | Network.Layer.Iterate |
| dist/dist.js:46-76 | compute re-reads drained layers and sums each previous neuron over its own weights | a network of shape [2, [2], 1] with inputs [0.5, 0.5]: the outputs are the empty list | one output per output node, each the activation of the weighted sum of the previous layer's values | high, not executed | LegacyNetwork.NeuralNetwork.Compute | Network.NeuralNetwork.Compute |
| dist/dist.js:153-168 | the comparator returns 1 when `a.score > b.score`, so `rank` sorts by ascending fitness, against its "descending" comment | fitness [1.0, 3.0, 2.0]: the ranked order is fitness 1.0, 2.0, 3.0, so a ranked generation's first networks, which `next` keeps as elites, are the least fit | best first, as in the later build's comparator | medium, not executed | LegacyGeneration.RankAscending | Ranking.RankIsStableSort |
