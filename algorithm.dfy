/**
 * `evolve`, the entry point of the genetic algorithm (genetic-algorithm.ts,
 * dist/genetic-algorithm.js): the first call builds a generation of fresh
 * networks; every later call builds the next generation from the last one
 * stored, keeping at most three generations.
 */
module Algorithm {
  import opened Random
  import opened Topology
  import opened Network
  import opened Schedule
  import opened Ranking
  import opened Generation
  import opened Evolution

  /**
   * The loop of the first `evolve` call: `popCount` networks of the shape
   * `input, hidden, output`, each drawing its weights after the ones
   * before it. `reports` records what each of them reports.
   */
  method FirstGeneration(input: nat, hidden: seq<nat>, output: nat, popCount: nat, random: Stream, pos: nat)
    returns (firstGen: seq<NeuralNetwork>, next: nat, ghost reports: map<NeuralNetwork, Report>)
    ensures |firstGen| == popCount
    ensures next == pos + popCount * WeightCount(ShapeSizes(input, hidden, output))
    ensures forall k :: 0 <= k < popCount ==>
      var size := WeightCount(ShapeSizes(input, hidden, output));
      && fresh(firstGen[k]) && firstGen[k] in reports
      && reports[firstGen[k]] == Report(ShapeSizes(input, hidden, output), Draws(random, pos + k * size, size))
    ensures forall net {:trigger Sound(net)} :: net in reports ==> Sound(net)
    ensures forall net {:trigger net.ViewNodes()} :: net in reports ==> net.ViewNodes() == reports[net].nodes
    ensures forall net {:trigger net.ViewWeights()} :: net in reports ==> net.ViewWeights() == reports[net].weights
    ensures Distinct(firstGen)
  {
    ghost var sizes := ShapeSizes(input, hidden, output);
    ghost var size := WeightCount(sizes);
    firstGen, next, reports := [], pos, map[];
    for i := 0 to popCount
      invariant |firstGen| == i && next == pos + i * size
      invariant forall k :: 0 <= k < i ==>
        && fresh(firstGen[k]) && firstGen[k] in reports
        && reports[firstGen[k]] == Report(sizes, Draws(random, pos + k * size, size))
      invariant forall net {:trigger Sound(net)} :: net in reports ==> Sound(net)
      invariant forall net {:trigger net.ViewNodes()} :: net in reports ==> net.ViewNodes() == reports[net].nodes
      invariant forall net {:trigger net.ViewWeights()} :: net in reports ==> net.ViewWeights() == reports[net].weights
      invariant Distinct(firstGen)
    {
      var nn := new NeuralNetwork(input, hidden, output, random, next);
      DistinctAppend(firstGen, nn);
      reports := reports[nn := Report(nn.ViewNodes(), nn.ViewWeights())];
      firstGen, next := firstGen + [nn], next + WeightCount(ShapeSizes(input, hidden, output));
    }
  }

  /** Every network of `gen` is sound and reports the layer sizes `shape`. */
  ghost predicate SoundGeneration(gen: seq<NeuralNetwork>, shape: seq<nat>)
    reads (set net | net in gen), (set net | net in gen :: net.cache)
    reads (set net, l | net in gen && l in net.LayerSet :: l), (set net, n | net in gen && n in net.NeuronSet :: n)
  {
    forall net :: net in gen ==> Sound(net) && net.ViewNodes() == shape
  }

  /**
   * The module state of the genetic algorithm: the stored generations, the
   * oldest first, and the population count of the latest `evolve` call.
   */
  class GeneticAlgorithm {
    var generations: seq<seq<NeuralNetwork>>
    var populationCount: nat
    /** The layer sizes every network of the last generation reports. */
    ghost var Shape: seq<nat>

    /** The last generation stored, or none. */
    ghost function Last(): seq<NeuralNetwork>
      reads this
    {
      if generations == [] then [] else generations[|generations| - 1]
    }

    /**
     * At most three generations are stored, and every network of the last
     * one is sound and reports the layer sizes `Shape`; none of them is in
     * the last one twice.
     */
    ghost predicate Valid()
      reads this, (set net | net in Last()), (set net | net in Last() :: net.cache)
      reads (set net, l | net in Last() && l in net.LayerSet :: l), (set net, n | net in Last() && n in net.NeuronSet :: n)
    {
      |generations| <= 3 && SoundGeneration(Last(), Shape) && Distinct(Last())
    }

    /** Before the first `evolve`: no generation yet. */
    constructor ()
      ensures Valid() && generations == []
    {
      generations := [];
      populationCount := 0;
      Shape := [];
    }

    /** The first `evolve` call: `popCount` new networks of the given shape, stored as the only generation. */
    method Begin(input: nat, hidden: seq<nat>, output: nat, popCount: nat, random: Stream, pos: nat)
      returns (generation: seq<NeuralNetwork>, next: nat, ghost reports: map<NeuralNetwork, Report>)
      requires generations == []
      modifies this
      ensures Valid() && populationCount == popCount && Last() == generation
      ensures generations == [generation] && Shape == ShapeSizes(input, hidden, output)
      ensures |generation| == popCount && next == pos + popCount * WeightCount(Shape)
      ensures forall k :: 0 <= k < popCount ==>
        && fresh(generation[k]) && generation[k] in reports
        && reports[generation[k]] == Report(Shape, Draws(random, pos + k * WeightCount(Shape), WeightCount(Shape)))
      ensures forall net {:trigger net.ViewWeights()} :: net in reports ==> net.ViewWeights() == reports[net].weights
    {
      generation, next, reports := FirstGeneration(input, hidden, output, popCount, random, pos);
      generations := generations + [generation];
      Shape := ShapeSizes(input, hidden, output);
      populationCount := popCount;
      forall net | net in generation
        ensures Sound(net) && net.ViewNodes() == Shape
      {
        var k :| 0 <= k < |generation| && generation[k] == net;
      }
      assert SoundGeneration(generation, Shape);
    }

    /**
     * The end of a later `evolve` call: drops the oldest generation when
     * three are stored, then stores `generation`.
     */
    method Store(generation: seq<NeuralNetwork>, popCount: nat)
      requires |generations| <= 3 && SoundGeneration(generation, Shape) && Distinct(generation)
      modifies this
      ensures Valid() && populationCount == popCount && Last() == generation && Shape == old(Shape)
      ensures generations == (if old(|generations|) >= 3 then old(generations[1..]) else old(generations)) + [generation]
    {
      if |generations| >= 3 {
        generations := generations[1..];
      }
      generations := generations + [generation];
      populationCount := popCount;
    }

    /**
     * A later `evolve` call: `next()` of the last generation with `popCount`
     * as the population count; the oldest generation is dropped when three
     * are stored, and the new one is stored.
     */
    method Advance(popCount: nat, mode: BreedMode, random: Stream, pos: nat)
      returns (generation: seq<NeuralNetwork>, next: nat,
               ghost reports: map<NeuralNetwork, Report>, ghost recs: seq<seq<real>>, ghost starts: seq<nat>,
               ghost made: seq<seq<real>>, ghost stop: nat, ghost row: nat)
      requires Valid() && generations != [] && popCount <= |Last()| && Shape == DefaultSizes()
      modifies this, (set net | net in Last())`cache, (set net | net in Last() :: net.cache)`weights
      modifies (set net, l | net in Last() && l in net.LayerSet :: l)`pointer
      ensures Valid() && populationCount == popCount && Last() == generation
      ensures generations == (if old(|generations|) >= 3 then old(generations[1..]) else old(generations)) + [generation]
      ensures Shape == DefaultSizes() && |recs| == old(|Last()|)
      ensures forall k :: 0 <= k < |recs| ==> recs[k] == old(Rank(Last(), Fitnesses(Last()), Descending)[k].ViewWeights())
      ensures Assembled(generation, old(Rank(Last(), Fitnesses(Last()), Descending)), popCount, starts, made, stop, row,
                        reports, Shape, mode, recs, random, pos, next)
      ensures forall net {:trigger net.ViewWeights()} :: net in reports ==> net.ViewWeights() == reports[net].weights
    {
      var last := generations[|generations| - 1];
      ghost var ranked := Rank(last, Fitnesses(last), Descending);
      generation, next, reports, recs, starts, made, stop, row := Next(last, popCount, mode, random, pos, Shape);
      AssembledShapes(generation, ranked, popCount, starts, made, stop, row, reports, Shape, mode, recs, random, pos, next);
      forall net | net in generation
        ensures Sound(net) && net.ViewNodes() == Shape
      {
        var k :| 0 <= k < |generation| && generation[k] == net;
      }
      assert SoundGeneration(generation, Shape);
      Store(generation, popCount);
      assert last == old(Last());
    }

    /**
     * `evolve(networkShape, popCount)`: `Begin` on the first call and
     * `Advance` on every later one, which ignores the shape. `mode` says
     * whether breeding changes parent one's record (the TypeScript) or a
     * copy of it (the compiled JavaScript). The ghost results say what the
     * returned networks report.
     */
    method Evolve(input: nat, hidden: seq<nat>, output: nat, popCount: nat, mode: BreedMode, random: Stream, pos: nat)
      returns (generation: seq<NeuralNetwork>, next: nat,
               ghost reports: map<NeuralNetwork, Report>, ghost recs: seq<seq<real>>, ghost starts: seq<nat>,
               ghost made: seq<seq<real>>, ghost stop: nat, ghost row: nat)
      requires Valid()
      requires generations != [] ==> popCount <= |Last()| && Shape == DefaultSizes()
      modifies this, (set net | net in Last())`cache, (set net | net in Last() :: net.cache)`weights
      modifies (set net, l | net in Last() && l in net.LayerSet :: l)`pointer
      ensures Valid() && populationCount == popCount && Last() == generation
      ensures old(generations) == [] ==>
        && generations == [generation] && Shape == ShapeSizes(input, hidden, output)
        && |generation| == popCount && next == pos + popCount * WeightCount(Shape)
        && forall k :: 0 <= k < popCount ==>
             && fresh(generation[k]) && generation[k] in reports
             && reports[generation[k]] == Report(Shape, Draws(random, pos + k * WeightCount(Shape), WeightCount(Shape)))
      ensures old(generations) != [] ==>
        && generations == (if old(|generations|) >= 3 then old(generations[1..]) else old(generations)) + [generation]
        && Shape == DefaultSizes()
        && |recs| == old(|Last()|)
        && (forall k :: 0 <= k < |recs| ==> recs[k] == old(Rank(Last(), Fitnesses(Last()), Descending)[k].ViewWeights()))
        && Assembled(generation, old(Rank(Last(), Fitnesses(Last()), Descending)), popCount, starts, made, stop, row,
                     reports, Shape, mode, recs, random, pos, next)
      ensures forall net {:trigger net.ViewWeights()} :: net in reports ==> net.ViewWeights() == reports[net].weights
    {
      if generations == [] {
        generation, next, reports := Begin(input, hidden, output, popCount, random, pos);
        recs, starts, made, stop, row := [], [], [], 0, 1;
      } else {
        generation, next, reports, recs, starts, made, stop, row := Advance(popCount, mode, random, pos);
      }
    }
  }
}
