/**
 * The `GeneticAlgorithm` namespace of dist/dist.js, an older build of the
 * genetic algorithm over the networks of `LegacyNetwork`.
 *
 * Its `rank` sorts by ascending fitness, and `next` drops the result of
 * the `rank` call it makes. Crossover, mutation and the randomness step
 * loop over the indices of `Weights`, which is always empty, so they never
 * draw or change a weight; `breed` hands back parent one itself. A new
 * generation therefore holds only networks of the old one, in ascending
 * order of fitness, and every `evolve` call keeps the generation it makes.
 */
module LegacyGeneration {
  import opened Random
  import opened Topology
  import opened Schedule
  import opened Ranking
  import opened LegacyNetwork

  /** The fitness of every network of `population`, in order. */
  function Fitnesses(population: seq<NeuralNetwork>): (scores: seq<real>)
    reads population
    ensures |scores| == |population| && forall k :: 0 <= k < |population| ==> scores[k] == population[k].fitness
  {
    seq(|population|, k reads population requires 0 <= k < |population| => population[k].fitness)
  }

  /** `rank(population)`: the population sorted by the comparator that returns 1 when `a.score > b.score`. */
  function RankOf(population: seq<NeuralNetwork>): (ranked: seq<NeuralNetwork>)
    reads population
    ensures |ranked| == |population|
  {
    Rank(population, Fitnesses(population), Ascending)
  }

  /**
   * `rank` returns a permutation of the population in ascending order of
   * fitness, and networks of equal fitness keep their order: the least
   * fit network comes first, despite the comment that calls the order
   * descending.
   */
  lemma RankAscending(population: seq<NeuralNetwork>)
    ensures multiset(RankOf(population)) == multiset(population)
    ensures var order := Order(Fitnesses(population), Ascending, |population|);
      && multiset(order) == multiset(Range(|population|))
      && (forall k :: 0 <= k < |population| ==> RankOf(population)[k] == population[order[k]])
      && (forall i, j :: 0 <= i < j < |population| ==>
            && population[order[i]].fitness <= population[order[j]].fitness
            && (population[order[i]].fitness == population[order[j]].fitness ==> order[i] < order[j]))
  {
    var scores := Fitnesses(population);
    RankIsStableSort(population, scores, Ascending);
    var order := Order(scores, Ascending, |population|);
    forall i, j | 0 <= i < j < |population|
      ensures population[order[i]].fitness <= population[order[j]].fitness
    {
      assert Compare(Ascending, scores[order[i]], scores[order[j]]) <= 0;
    }
  }

  /** Parent one of each pair: network `pair.0` of the population. */
  function ParentsOne<T>(population: seq<T>, pairs: seq<(nat, nat)>): (parents: seq<T>)
    requires forall t :: 0 <= t < |pairs| ==> pairs[t].0 < |population|
    ensures |parents| == |pairs| && forall t :: 0 <= t < |pairs| ==> parents[t] == population[pairs[t].0]
  {
    seq(|pairs|, t requires 0 <= t < |pairs| => population[pairs[t].0])
  }

  /**
   * What `next` pushes when every child is parent one itself: the first
   * `Fifth(count)` networks as stored, then parent one of each pair of the
   * breeding order.
   */
  function Pushes<T>(population: seq<T>, count: nat): (pushes: seq<T>)
    requires count <= |population|
    ensures |pushes| == Fifth(count) + |Pairs(count)|
  {
    if count == 0 then []
    else
      FifthsBelow(count);
      PairsInRange(count);
      population[..Fifth(count)] + ParentsOne(population, Pairs(count))
  }

  /** Push `m` is network `m` while electing elites, then parent one of pair `m - Fifth(count)`. */
  lemma PushAt<T>(population: seq<T>, count: nat, m: nat)
    requires count <= |population| && m < Fifth(count) + |Pairs(count)|
    ensures m < Fifth(count) ==> Pushes(population, count)[m] == population[m]
    ensures m >= Fifth(count) ==> Pushes(population, count)[m] == population[PairAt(count, m - Fifth(count)).0]
  {
    GenerationSize(count);
    assert count > 0;
    FifthsBelow(count);
    PairsInRange(count);
    var elites, parents := population[..Fifth(count)], ParentsOne(population, Pairs(count));
    assert Pushes(population, count) == elites + parents;
  }

  /** The networks `next` puts in the new generation, in the order it pushes them: `Pushes`, up to `count`. */
  function Picks<T>(population: seq<T>, count: nat): (picks: seq<T>)
    requires count <= |population|
  {
    var pushes := Pushes(population, count);
    if |pushes| <= count then pushes else pushes[..count]
  }

  /**
   * The new generation of `count` networks: a full one once `count >= 3`;
   * its first `Fifth(count)` networks are the first ones stored, in that
   * order, unranked; every later one is parent one `i` of a pair
   * `(i, ceiling)`; and each of them is one of the first `count - 1`
   * networks of the population, so no new network enters.
   */
  lemma PicksFromPopulation<T>(population: seq<T>, count: nat)
    requires count <= |population|
    ensures var picks := Picks(population, count);
      && |picks| == (if Fifth(count) + |Pairs(count)| < count then Fifth(count) + |Pairs(count)| else count)
      && (count >= 3 ==> |picks| == count)
      && (forall k :: 0 <= k < |picks| && k < Fifth(count) ==> picks[k] == population[k])
      && (forall t :: 0 <= t < |picks| - Fifth(count) ==>
            t < |Pairs(count)| && picks[Fifth(count) + t] == population[PairAt(count, t).0])
      && (forall k :: 0 <= k < |picks| ==> picks[k] in population[..count - 1])
  {
    var picks := Picks(population, count);
    GenerationSize(count);
    forall k | 0 <= k < |picks|
      ensures k < Fifth(count) ==> picks[k] == population[k]
      ensures k >= Fifth(count) ==> k - Fifth(count) < |Pairs(count)| && picks[k] == population[PairAt(count, k - Fifth(count)).0]
      ensures picks[k] in population[..count - 1]
    {
      PickAt(population, count, k);
    }
  }

  /** Pick `k` is a push, hence an elite or a parent one, and lies among the first `count - 1` networks. */
  lemma PickAt<T>(population: seq<T>, count: nat, k: nat)
    requires count <= |population| && k < |Picks(population, count)|
    ensures k < Fifth(count) ==> Picks(population, count)[k] == population[k]
    ensures k >= Fifth(count) ==>
      k - Fifth(count) < |Pairs(count)| && Picks(population, count)[k] == population[PairAt(count, k - Fifth(count)).0]
    ensures Picks(population, count)[k] in population[..count - 1]
  {
    var pick := Picks(population, count)[k];
    assert pick == Pushes(population, count)[k];
    PushAt(population, count, k);
    GenerationSize(count);
    FifthsBelow(count);
    if k < Fifth(count) {
      assert population[..count - 1][k] == pick;
    } else {
      var pair := PairAt(count, k - Fifth(count));
      assert population[..count - 1][pair.0] == pick;
    }
  }

  /** Every network of the ranked next generation comes from the first `count - 1` of `population`. */
  lemma Descends(population: seq<NeuralNetwork>, count: nat)
    requires count <= |population|
    ensures forall net :: net in RankOf(Picks(population, count)) ==> net in population[..count - 1]
  {
    var picks := Picks(population, count);
    PicksFromPopulation(population, count);
    RankAscending(picks);
    forall net | net in RankOf(picks)
      ensures net in population[..count - 1]
    {
      assert net in multiset(RankOf(picks));
      assert net in multiset(picks);
    }
  }

  /** Ranking depends on nothing but the networks' fitness. */
  twostate lemma RankKept(population: seq<NeuralNetwork>)
    requires unchanged(population)
    ensures RankOf(population) == old(RankOf(population))
  {
  }

  /**
   * `crossover(parentOne, parentTwo)`: the child is parent one itself. The
   * loop runs once per index of `parentTwo.Weights`, which is empty, so
   * it never draws and never copies a weight; reading `Weights` uses up
   * parent two's iterators.
   */
  method Crossover(parentOne: NeuralNetwork, parentTwo: NeuralNetwork) returns (child: NeuralNetwork)
    requires parentTwo.Valid()
    modifies parentTwo.LayerSet`pointer
    ensures child == parentOne
    ensures forall l :: 0 <= l < |parentTwo.layers| ==> Drained(parentTwo.layers[l])
  {
    child := parentOne;
    var keys := parentTwo.Weights();
    assert keys == [];
  }

  /**
   * `mutate(chromosome)`: the loop runs once per index of
   * `chromosome.Weights`, which is empty, so nothing is drawn or changed;
   * reading `Weights` uses up the chromosome's iterators.
   */
  method Mutate(chromosome: NeuralNetwork)
    requires chromosome.Valid()
    modifies chromosome.LayerSet`pointer
    ensures forall l :: 0 <= l < |chromosome.layers| ==> Drained(chromosome.layers[l])
  {
    var keys := chromosome.Weights();
    assert keys == [];
  }

  /**
   * `breed(parentOne, parentTwo, numberOfOffspring)`: every offspring is
   * parent one itself. Its `persist` comes after `mutate` has used up its
   * iterators, so it writes nothing: no weight of parent one changes.
   */
  method Breed(parentOne: NeuralNetwork, parentTwo: NeuralNetwork, numberOfOffspring: nat)
      returns (offspring: seq<NeuralNetwork>)
    requires parentOne.Valid() && parentTwo.Valid()
    modifies parentOne.LayerSet`pointer, parentTwo.LayerSet`pointer, parentOne.NeuronSet`weights
    ensures |offspring| == numberOfOffspring
    ensures forall k :: 0 <= k < numberOfOffspring ==> offspring[k] == parentOne
    ensures forall n :: n in parentOne.NeuronSet ==> n.weights == old(n.weights)
  {
    offspring := [];
    for i := 0 to numberOfOffspring
      invariant |offspring| == i && forall k :: 0 <= k < i ==> offspring[k] == parentOne
      invariant forall n :: n in parentOne.NeuronSet ==> n.weights == old(n.weights)
    {
      var child := Crossover(parentOne, parentTwo);
      Mutate(child);
      child.Persist();
      offspring := offspring + [child];
    }
  }

  /** Every network of `population` is valid. */
  ghost predicate AllValid(population: seq<NeuralNetwork>)
    reads set net | net in population
    reads (set net, l | net in population && l in net.LayerSet :: l)`nodes
    reads (set net, l | net in population && l in net.LayerSet :: l)`id
    reads (set net, n | net in population && n in net.NeuronSet :: n)`slot
  {
    forall net :: net in population ==> net.Valid()
  }

  /** No neuron of a network of `population` holds other weights than it held at `old`. */
  twostate predicate WeightsKept(population: seq<NeuralNetwork>)
    reads set net | net in population
    reads (set net, n | net in population && n in net.NeuronSet :: n)`weights
  {
    forall net :: net in population ==>
      net.NeuronSet == old(net.NeuronSet) && forall n :: n in net.NeuronSet ==> n.weights == old(n.weights)
  }

  class Generation {
    /** `_population`. */
    var population: seq<NeuralNetwork>

    /**
     * `new Generation(networkShape, popCount)`: `popCount` new networks of
     * the shape `input, hidden, output`, each drawing its weights after
     * the ones before it, kept in the order they were made.
     */
    constructor Fresh(input: nat, hidden: seq<nat>, output: nat, popCount: nat, random: Stream, pos: nat)
      ensures |population| == popCount
      ensures forall k :: 0 <= k < popCount ==>
                var size := WeightCount(ShapeSizes(input, hidden, output));
                && fresh(population[k]) && fresh(population[k].LayerSet) && fresh(population[k].NeuronSet)
                && Built(population[k], input, hidden, output, random, pos + k * size)
    {
      var size := WeightCount(ShapeSizes(input, hidden, output));
      var made: seq<NeuralNetwork> := [];
      for i := 0 to popCount
        invariant |made| == i
        invariant forall k :: 0 <= k < i ==>
                    && fresh(made[k]) && fresh(made[k].LayerSet) && fresh(made[k].NeuronSet)
                    && Built(made[k], input, hidden, output, random, pos + k * size)
      {
        var net := new NeuralNetwork(input, hidden, output, random, pos + i * size);
        made := made + [net];
      }
      population := made;
    }

    /** `new Generation(undefined, undefined, newPopulation)`: the new population, ranked. */
    constructor Ranked(newPopulation: seq<NeuralNetwork>)
      ensures population == RankOf(newPopulation)
    {
      population := RankOf(newPopulation);
    }

    /**
     * `next()` with `count` as the population count: the networks `Picks`
     * chooses, ranked into a new generation. The `rank` call at its start
     * has its result dropped, so the elites are the first networks as
     * stored. Reading `Weights` uses up iterators, but no weight changes.
     */
    method Next(count: nat) returns (generation: Generation)
      requires count <= |population| && AllValid(population)
      modifies set net, l | net in population && l in net.LayerSet :: l`pointer
      modifies set net, n | net in population && n in net.NeuronSet :: n`weights
      ensures fresh(generation)
      ensures generation.population == RankOf(Picks(population, count))
      ensures WeightsKept(population)
    {
      var discarded := RankOf(population);
      var nextGen := KeepElites(population, count);
      nextGen := BreedAll(population, count, nextGen);
      generation := new Generation.Ranked(nextGen);
    }
  }

  /**
   * The elite loop and the randomness loop of `next`: the first
   * `Fifth(count)` networks, as stored; the randomness loop runs once per
   * index of `population[0].Weights`, which is empty, so it pushes
   * nothing and draws nothing.
   */
  method KeepElites(population: seq<NeuralNetwork>, count: nat) returns (nextGen: seq<NeuralNetwork>)
    requires count <= |population| && AllValid(population)
    modifies set net, l | net in population && l in net.LayerSet :: l`pointer
    ensures nextGen == population[..Fifth(count)]
  {
    if count > 0 {
      FifthsBelow(count);
    }
    nextGen := [];
    for i := 0 to Fifth(count)
      invariant nextGen == population[..i]
    {
      if |nextGen| < count {
        nextGen := nextGen + [population[i]];
      }
    }
    for i := 0 to Fifth(count)
      invariant nextGen == population[..Fifth(count)]
      invariant AllValid(population)
    {
      var firstNetwork := population[0];
      var keys := firstNetwork.Weights();
      assert keys == [];
    }
  }

  /**
   * The breeding loop of `next`: for ceiling = 1, 2, ... and i below it,
   * the offspring of `breed(population[i], population[ceiling])`, that
   * is `population[i]` itself, until `count` networks are pushed.
   */
  method BreedAll(population: seq<NeuralNetwork>, count: nat, elites: seq<NeuralNetwork>)
      returns (nextGen: seq<NeuralNetwork>)
    requires count <= |population| && AllValid(population)
    requires elites == population[..Fifth(count)]
    modifies set net, l | net in population && l in net.LayerSet :: l`pointer
    modifies set net, n | net in population && n in net.NeuronSet :: n`weights
    ensures nextGen == Picks(population, count)
    ensures WeightsKept(population)
  {
    ghost var pushes := Pushes(population, count);
    if count > 0 {
      FifthsBelow(count);
    }
    nextGen := elites;
    var ceiling := 1;
    while ceiling < count
      invariant 1 <= ceiling && (ceiling <= count || count <= 1)
      invariant |nextGen| == Fifth(count) + |Pairs(ceiling)| && (|nextGen| < count || count == 0)
      invariant |nextGen| <= |pushes| && nextGen == pushes[..|nextGen|]
      invariant AllValid(population) && WeightsKept(population)
    {
      nextGen := BreedRow(population, count, ceiling, nextGen);
      if |nextGen| >= count {
        break;
      }
      ceiling := ceiling + 1;
    }
  }

  /**
   * One ceiling of the breeding loop of `next`: pushes `population[i]`
   * for i = 0 .. ceiling - 1, stopping once `count` networks are pushed.
   */
  method BreedRow(population: seq<NeuralNetwork>, count: nat, ceiling: nat, nextGen0: seq<NeuralNetwork>)
      returns (nextGen: seq<NeuralNetwork>)
    requires 1 <= ceiling < count <= |population| && AllValid(population)
    requires |nextGen0| == Fifth(count) + |Pairs(ceiling)| < count
    requires nextGen0 == Pushes(population, count)[..|nextGen0|]
    modifies set net, l | net in population && l in net.LayerSet :: l`pointer
    modifies set net, n | net in population && n in net.NeuronSet :: n`weights
    ensures |nextGen| <= count && |nextGen| <= |Pushes(population, count)|
    ensures nextGen == Pushes(population, count)[..|nextGen|]
    ensures |nextGen| < count ==> |nextGen| == Fifth(count) + |Pairs(ceiling + 1)|
    ensures AllValid(population) && WeightsKept(population)
  {
    ghost var pushes := Pushes(population, count);
    RowLength(ceiling, count);
    nextGen := nextGen0;
    var i := 0;
    while i < ceiling
      invariant i <= ceiling && |nextGen| == |nextGen0| + i < count
      invariant nextGen == pushes[..|nextGen|]
      invariant AllValid(population) && WeightsKept(population)
    {
      PushOfRow(population, count, ceiling, i);
      var children := Breed(population[i], population[ceiling], 1);
      assert children == [population[i]];
      // `for (const child of children) nextGen.push(child)`
      nextGen := nextGen + children;
      if |nextGen| >= count {
        break;
      }
      i := i + 1;
    }
  }

  /** Row `ceiling` of the pairs adds `ceiling` pushes, all inside the pushes for `count`. */
  lemma RowLength(ceiling: nat, count: nat)
    requires 1 <= ceiling < count
    ensures |Pairs(ceiling + 1)| == |Pairs(ceiling)| + ceiling <= |Pairs(count)|
  {
    PairsPrefix(ceiling + 1, count);
    assert Pairs(ceiling + 1) == Pairs(ceiling) + Row(ceiling);
  }

  /** Pair `(i, ceiling)` comes `i` places after the pairs of the smaller ceilings. */
  lemma RowPair(ceiling: nat, count: nat, i: nat)
    requires ceiling < count && i < ceiling
    ensures |Pairs(ceiling)| + i < |Pairs(count)| && PairAt(count, |Pairs(ceiling)| + i) == (i, ceiling)
  {
    RowInPairs(ceiling, count);
  }

  /** The push for pair (i, ceiling) is `population[i]`, appended right after the pushes before it. */
  lemma PushOfRow<T>(population: seq<T>, count: nat, ceiling: nat, i: nat)
    requires 1 <= ceiling < count <= |population| && i < ceiling
    ensures Fifth(count) + |Pairs(ceiling)| + i < |Pushes(population, count)|
    ensures var pushes, m := Pushes(population, count), Fifth(count) + |Pairs(ceiling)| + i;
      pushes[..m] + [population[i]] == pushes[..m + 1]
  {
    var pushes, m := Pushes(population, count), Fifth(count) + |Pairs(ceiling)| + i;
    RowPair(ceiling, count, i);
    PushAt(population, count, m);
    Appended(pushes, m, population[i]);
  }

  /** Appending element `m` to the first `m` elements gives the first `m + 1`. */
  lemma Appended<T>(s: seq<T>, m: nat, x: T)
    requires m < |s| && s[m] == x
    ensures s[..m] + [x] == s[..m + 1]
  {
    assert s[..m + 1] == s[..m] + [s[m]];
  }

  /**
   * The module state of the genetic algorithm: every generation made so
   * far, the oldest first, and the population count of the latest
   * `evolve` call.
   */
  class GeneticAlgorithm {
    var generations: seq<Generation>
    var populationCount: nat

    /** The population of the last generation, or none. */
    ghost function LastPopulation(): seq<NeuralNetwork>
      reads this`generations, (set g | g in generations)`population
    {
      if generations == [] then [] else generations[|generations| - 1].population
    }

    /** Every network of the last generation is valid. */
    ghost predicate Valid()
      reads this`generations, (set g | g in generations)`population, (set net | net in LastPopulation())
      reads (set net, l | net in LastPopulation() && l in net.LayerSet :: l)`nodes
      reads (set net, l | net in LastPopulation() && l in net.LayerSet :: l)`id
      reads (set net, n | net in LastPopulation() && n in net.NeuronSet :: n)`slot
    {
      AllValid(LastPopulation())
    }

    /** Before the first `evolve`: no generation yet. */
    constructor ()
      ensures Valid() && generations == []
    {
      generations := [];
      populationCount := 0;
    }

    /**
     * `evolve(networkShape, popCount)`: the first call makes a generation
     * of `popCount` new networks, drawing from `pos` on; every later call
     * makes the next generation from the last one, ignoring the shape and
     * drawing nothing. Every generation made is kept.
     */
    method Evolve(input: nat, hidden: seq<nat>, output: nat, popCount: nat, random: Stream, pos: nat)
        returns (generation: Generation, next: nat)
      requires Valid() && (generations != [] ==> popCount <= |LastPopulation()|)
      modifies this
      modifies set net, l | net in LastPopulation() && l in net.LayerSet :: l`pointer
      modifies set net, n | net in LastPopulation() && n in net.NeuronSet :: n`weights
      ensures Valid() && populationCount == popCount && fresh(generation)
      ensures generations == old(generations) + [generation]
      ensures old(generations) == [] ==>
        var size := WeightCount(ShapeSizes(input, hidden, output));
        && |generation.population| == popCount && next == pos + popCount * size
        && forall k :: 0 <= k < popCount ==>
             fresh(generation.population[k]) && Built(generation.population[k], input, hidden, output, random, pos + k * size)
      ensures old(generations) != [] ==>
        && generation.population == RankOf(Picks(old(LastPopulation()), popCount))
        && WeightsKept(old(LastPopulation()))
        && next == pos
    {
      if generations == [] {
        generation, next := Begin(input, hidden, output, popCount, random, pos);
      } else {
        generation := Advance(popCount);
        next := pos;
      }
      populationCount := popCount;
    }

    /** The first `evolve`: a new generation of `popCount` networks, the only one kept. */
    method Begin(input: nat, hidden: seq<nat>, output: nat, popCount: nat, random: Stream, pos: nat)
        returns (generation: Generation, next: nat)
      requires generations == []
      modifies this`generations
      ensures Valid() && fresh(generation) && generations == [generation]
      ensures var size := WeightCount(ShapeSizes(input, hidden, output));
        && |generation.population| == popCount && next == pos + popCount * size
        && forall k :: 0 <= k < popCount ==>
             fresh(generation.population[k]) && Built(generation.population[k], input, hidden, output, random, pos + k * size)
    {
      generation := new Generation.Fresh(input, hidden, output, popCount, random, pos);
      next := pos + popCount * WeightCount(ShapeSizes(input, hidden, output));
      generations := generations + [generation];
    }

    /**
     * A later `evolve`: the next generation of the last one, appended.
     * Its networks all come from the last generation, so they stay valid.
     */
    method Advance(count: nat) returns (generation: Generation)
      requires generations != [] && Valid() && count <= |LastPopulation()|
      modifies this`generations
      modifies set net, l | net in LastPopulation() && l in net.LayerSet :: l`pointer
      modifies set net, n | net in LastPopulation() && n in net.NeuronSet :: n`weights
      ensures Valid() && fresh(generation) && generations == old(generations) + [generation]
      ensures generation.population == RankOf(Picks(old(LastPopulation()), count))
      ensures WeightsKept(old(LastPopulation()))
    {
      var last := generations[|generations| - 1].population;
      generation := generations[|generations| - 1].Next(count);
      assert AllValid(last);
      Descends(last, count);
      assert AllValid(generation.population);
      assert generation.population == RankOf(Picks(last, count));
      label Bred:
      generations := generations + [generation];
      RankKept@Bred(Picks(last, count));
      assert LastPopulation() == generation.population;
    }
  }
}
