/**
 * `breed`, `next` and `evolve` of the genetic algorithm, as written in
 * genetic-algorithm.ts and compiled in dist/genetic-algorithm.js. The two
 * differ in one place, which `BreedMode` selects: the TypeScript crosses
 * and mutates parent one's own `{nodes, weights}` record, the compiled
 * JavaScript a deep copy of it.
 */
module Generation {
  import opened Random
  import opened Topology
  import opened Network
  import opened Ranking
  import opened Breeding
  import opened Schedule

  datatype BreedMode = InPlace | DeepCopy

  /** The layer sizes of `new NeuralNetwork()`, whose default shape is `[2, [2], 1]`. */
  function DefaultSizes(): (sizes: seq<nat>)
    ensures sizes == [2, 2, 1] && WeightCount(sizes) == 6
  {
    ShapeSizes(2, [2], 1)
  }

  /** The child's weights after crossing `theirs` into `mine` and mutating, drawing from `pos`. */
  function Offspring(mine: seq<real>, theirs: seq<real>, random: Stream, pos: nat): (m: Mutation)
    requires |theirs| <= |mine|
    ensures |m.weights| == |mine|
  {
    Mutated(Crossed(mine, theirs, random, pos), random, pos + |theirs|)
  }

  /**
   * Every weight of a child lies within the mutation range of the weight
   * one of its parents holds at the same index, and equals that weight
   * unless it mutated.
   */
  lemma OffspringNearParents(mine: seq<real>, theirs: seq<real>, random: Stream, pos: nat)
    requires UnitStream(random) && |theirs| <= |mine|
    ensures var child := Offspring(mine, theirs, random, pos).weights;
      forall i :: 0 <= i < |mine| ==>
        (-MutationRange <= child[i] - mine[i] < MutationRange) ||
        (i < |theirs| && -MutationRange <= child[i] - theirs[i] < MutationRange)
  {
    var crossed := Crossed(mine, theirs, random, pos);
    MutationBounded(crossed, random, pos + |theirs|);
  }

  /** Both networks of every pair have a record. */
  ghost predicate Paired(recs: map<NeuralNetwork, seq<real>>, pairs: seq<(NeuralNetwork, NeuralNetwork)>) {
    forall u :: 0 <= u < |pairs| ==> pairs[u].0 in recs && pairs[u].1 in recs
  }

  /**
   * The records, starting from `recs`, once the first `t` pairs of
   * `pairs` have bred, breeding `u` making the child record
   * `made[u].weights`. In the TypeScript the record crossed and mutated is
   * parent one's own, so it becomes the child's; a deep copy leaves every
   * record as it was.
   */
  ghost function Records(recs: map<NeuralNetwork, seq<real>>, pairs: seq<(NeuralNetwork, NeuralNetwork)>, made: seq<Mutation>,
                         mode: BreedMode, t: nat): (rs: map<NeuralNetwork, seq<real>>)
    requires Paired(recs, pairs) && t <= |pairs| && t <= |made|
    ensures rs.Keys == recs.Keys
    ensures mode == DeepCopy ==> rs == recs
    decreases t
  {
    if t == 0 || mode == DeepCopy then recs
    else Records(recs, pairs, made, mode, t - 1)[pairs[t - 1].0 := made[t - 1].weights]
  }

  /** The records after `t` breedings depend on the first `t` children only. */
  lemma {:induction false} RecordsPrefix(recs: map<NeuralNetwork, seq<real>>, pairs: seq<(NeuralNetwork, NeuralNetwork)>,
                                         made: seq<Mutation>, made': seq<Mutation>, mode: BreedMode, t: nat)
    requires Paired(recs, pairs) && t <= |pairs| && t <= |made| && t <= |made'| && made[..t] == made'[..t]
    ensures Records(recs, pairs, made, mode, t) == Records(recs, pairs, made', mode, t)
  {
    if t > 0 {
      assert made[..t - 1] == made[..t][..t - 1] && made'[..t - 1] == made'[..t][..t - 1];
      assert made[t - 1] == made[..t][t - 1] && made'[t - 1] == made'[..t][t - 1];
      RecordsPrefix(recs, pairs, made, made', mode, t - 1);
    }
  }

  /**
   * `made[u]` is pair `pairs[u]` crossed and mutated from the records they
   * hold after the breedings before it, drawing from `starts[u]` on.
   */
  ghost predicate Begot(recs: map<NeuralNetwork, seq<real>>, pairs: seq<(NeuralNetwork, NeuralNetwork)>, made: seq<Mutation>,
                        starts: seq<nat>, mode: BreedMode, random: Stream, u: nat)
    requires Paired(recs, pairs) && u < |made| <= |pairs| && u < |starts|
  {
    var rs := Records(recs, pairs, made, mode, u);
    |rs[pairs[u].1]| <= |rs[pairs[u].0]| && made[u] == Offspring(rs[pairs[u].0], rs[pairs[u].1], random, starts[u])
  }

  /** Every child of `made` was begot from the records of its time. */
  ghost predicate Lineage(recs: map<NeuralNetwork, seq<real>>, pairs: seq<(NeuralNetwork, NeuralNetwork)>, made: seq<Mutation>,
                          starts: seq<nat>, mode: BreedMode, random: Stream)
  {
    Paired(recs, pairs) && |made| == |starts| <= |pairs| &&
    forall u :: 0 <= u < |made| ==> Begot(recs, pairs, made, starts, mode, random, u)
  }

  /** One more child, of the next pair and from their current records, extends a lineage. */
  lemma LineageStep(recs: map<NeuralNetwork, seq<real>>, pairs: seq<(NeuralNetwork, NeuralNetwork)>, made: seq<Mutation>,
                    starts: seq<nat>, mode: BreedMode, random: Stream, m: Mutation, start: nat)
    requires Lineage(recs, pairs, made, starts, mode, random) && |made| < |pairs|
    requires var rs := Records(recs, pairs, made, mode, |made|);
      |rs[pairs[|made|].1]| <= |rs[pairs[|made|].0]| && m == Offspring(rs[pairs[|made|].0], rs[pairs[|made|].1], random, start)
    ensures Lineage(recs, pairs, made + [m], starts + [start], mode, random)
  {
    var made', starts' := made + [m], starts + [start];
    forall u | 0 <= u < |made'|
      ensures Begot(recs, pairs, made', starts', mode, random, u)
    {
      assert made'[..u] == made[..u];
      RecordsPrefix(recs, pairs, made, made', mode, u);
      if u < |made| {
        assert Begot(recs, pairs, made, starts, mode, random, u);
        assert made'[u] == made[u] && starts'[u] == starts[u];
      }
    }
  }

  /** Breeding never changes the length of a record: every child record is as long as parent one's. */
  lemma {:induction false} RecordLengths(recs: map<NeuralNetwork, seq<real>>, pairs: seq<(NeuralNetwork, NeuralNetwork)>,
                                         made: seq<Mutation>, starts: seq<nat>, mode: BreedMode, random: Stream, t: nat)
    requires Lineage(recs, pairs, made, starts, mode, random) && t <= |made|
    ensures forall net :: net in recs ==> |Records(recs, pairs, made, mode, t)[net]| == |recs[net]|
  {
    if t > 0 && mode == InPlace {
      RecordLengths(recs, pairs, made, starts, mode, random, t - 1);
      var rs, parent := Records(recs, pairs, made, mode, t - 1), pairs[t - 1].0;
      assert |made[t - 1].weights| == |rs[parent]| by {
        assert Begot(recs, pairs, made, starts, mode, random, t - 1);
      }
      assert Records(recs, pairs, made, mode, t) == rs[parent := made[t - 1].weights];
      forall net | net in recs
        ensures |Records(recs, pairs, made, mode, t)[net]| == |recs[net]|
      {
        if net != parent {
          assert Records(recs, pairs, made, mode, t)[net] == rs[net];
        }
      }
    }
  }

  /** Bred from copies, every child is the crossover of its parents' records as they were at first. */
  lemma CopiedLineage(recs: map<NeuralNetwork, seq<real>>, pairs: seq<(NeuralNetwork, NeuralNetwork)>, made: seq<Mutation>,
                      starts: seq<nat>, random: Stream)
    requires Lineage(recs, pairs, made, starts, DeepCopy, random)
    ensures forall u :: 0 <= u < |made| ==>
      |recs[pairs[u].1]| <= |recs[pairs[u].0]| && made[u] == Offspring(recs[pairs[u].0], recs[pairs[u].1], random, starts[u])
  {
    forall u | 0 <= u < |made|
      ensures |recs[pairs[u].1]| <= |recs[pairs[u].0]| && made[u] == Offspring(recs[pairs[u].0], recs[pairs[u].1], random, starts[u])
    {
      assert Begot(recs, pairs, made, starts, DeepCopy, random, u);
      assert Records(recs, pairs, made, DeepCopy, u) == recs;
    }
  }

  /** The pairs of one `breed` call with `n` offspring: the same two parents each time. */
  function Litter(parentOne: NeuralNetwork, parentTwo: NeuralNetwork, n: nat): (pairs: seq<(NeuralNetwork, NeuralNetwork)>)
    ensures |pairs| == n && forall u :: 0 <= u < n ==> pairs[u] == (parentOne, parentTwo)
  {
    if n == 0 then [] else Litter(parentOne, parentTwo, n - 1) + [(parentOne, parentTwo)]
  }

  /**
   * A well-formed network that owns its cached record and its layers, and
   * whose cached record, if any, fits its layer sizes. Two distinct sound
   * networks therefore share neither.
   */
  ghost predicate Sound(net: NeuralNetwork)
    reads net, net.cache, net.LayerSet`nodes, net.LayerSet`pointer, net.LayerSet`owner
    reads net.NeuronSet`weights, net.NeuronSet`slot
  {
    net.Valid() && net.Fits() && net.Owns()
  }

  /** A network none of whose state changed stays sound and reports the same. */
  twostate lemma StaysSound(net: NeuralNetwork)
    requires old(Sound(net))
    requires unchanged(net)
    requires unchanged(net.cache)
    requires unchanged(net.LayerSet`nodes, net.LayerSet`pointer, net.LayerSet`owner)
    requires unchanged(net.NeuronSet`weights, net.NeuronSet`slot)
    ensures Sound(net) && net.ViewNodes() == old(net.ViewNodes()) && net.ViewWeights() == old(net.ViewWeights())
  {
  }

  /**
   * A well-formed network whose layers have sizes `sizes` and hold
   * `weights`, and whose `data` reports exactly that.
   */
  ghost predicate Newborn(child: NeuralNetwork, sizes: seq<nat>, weights: seq<real>)
    reads child, child.cache, child.LayerSet`nodes, child.LayerSet`pointer, child.LayerSet`owner
    reads child.NeuronSet`weights, child.NeuronSet`slot
  {
    Sound(child) &&
    child.Sizes == child.ViewNodes() == sizes && child.ViewWeights() == Flatten(child.Weights) == weights
  }

  /**
   * `parentOne.data`, deep-copied in the compiled JavaScript. Reading `data`
   * fills the cache but changes neither what it reports nor the layers.
   */
  method OwnRecord(parentOne: NeuralNetwork, mode: BreedMode) returns (mine: DataRecord)
    requires Sound(parentOne)
    modifies parentOne`cache, parentOne.LayerSet`pointer
    ensures Sound(parentOne) && (parentOne.cache == old(parentOne.cache) || fresh(parentOne.cache))
    ensures parentOne.ViewNodes() == old(parentOne.ViewNodes()) && parentOne.ViewWeights() == old(parentOne.ViewWeights())
    ensures mine.nodes == old(parentOne.ViewNodes()) && mine.weights == old(parentOne.ViewWeights())
    ensures mode == InPlace ==> mine == parentOne.cache
    ensures mode == DeepCopy ==> fresh(mine) && mine != parentOne.cache
  {
    mine := parentOne.Data();
    if mode == DeepCopy {
      mine := new DataRecord(mine.nodes, mine.weights);
    }
  }

  /**
   * `parentTwo.data`, read after parent one's record `mine` was made:
   * parent one and its record are left as they were.
   */
  method TheirRecord(parentOne: NeuralNetwork, parentTwo: NeuralNetwork, mode: BreedMode, mine: DataRecord)
    returns (theirs: DataRecord)
    requires Sound(parentOne) && Sound(parentTwo)
    requires mode == InPlace ==> mine == parentOne.cache
    requires mode == DeepCopy ==> mine != parentOne.cache && mine != parentTwo.cache
    modifies parentTwo`cache, parentTwo.LayerSet`pointer
    ensures Sound(parentOne) && Sound(parentTwo)
    ensures parentTwo.cache == old(parentTwo.cache) || fresh(parentTwo.cache)
    ensures parentOne.ViewNodes() == old(parentOne.ViewNodes()) && parentOne.ViewWeights() == old(parentOne.ViewWeights())
    ensures parentTwo.ViewNodes() == old(parentTwo.ViewNodes()) && parentTwo.ViewWeights() == old(parentTwo.ViewWeights())
    ensures theirs.weights == old(parentTwo.ViewWeights())
    ensures mode == InPlace && |mine.weights| > 0 ==> mine == parentOne.cache
    ensures mode == DeepCopy ==> mine != parentOne.cache
    ensures mode == DeepCopy || parentOne != parentTwo ==> mine != parentTwo.cache
  {
    theirs := parentTwo.Data();
  }

  /**
   * A new network persisted from `record`: `new NeuralNetwork()` draws the
   * six weights of the default shape, then `persist` rebuilds its layers
   * to the record's sizes and weights.
   */
  method Spawn(record: DataRecord, random: Stream, pos: nat) returns (child: NeuralNetwork, next: nat)
    requires WeightCount(record.nodes) <= |record.weights|
    ensures fresh(child) && fresh(child.cache) && fresh(child.LayerSet) && fresh(child.NeuronSet)
    ensures Sound(child)
    ensures child.Sizes == record.nodes && child.ViewNodes() == record.nodes
    ensures child.ViewWeights() == Flatten(child.Weights) == record.weights[..WeightCount(record.nodes)]
    ensures next == pos + WeightCount(DefaultSizes()) + WeightCount(record.nodes)
  {
    child := new NeuralNetwork(2, [2], 1, random, pos);
    next := child.Persist(record, random, pos + WeightCount(DefaultSizes()));
  }

  /**
   * `crossover(mine, theirs)` followed by `mutate(mine)`: the record `mine`
   * becomes the child's record.
   */
  method Recombine(mine: DataRecord, theirs: DataRecord, random: Stream, pos: nat) returns (next: nat)
    requires |theirs.weights| <= |mine.weights|
    modifies mine`weights
    ensures var m := Offspring(old(mine.weights), old(theirs.weights), random, pos);
      mine.weights == m.weights && next == m.next
  {
    next := Crossover(mine, theirs, random, pos);
    next := Mutate(mine, random, next);
  }

  /**
   * The second half of `breed`: `crossover` and `mutate` on the record made
   * for parent one, then a new network persisted from it. Parent one's
   * record is the child record in the TypeScript and a private copy in the
   * compiled JavaScript; both parents stay valid and keep their layer sizes.
   */
  method Beget(parentOne: NeuralNetwork, parentTwo: NeuralNetwork, mode: BreedMode,
               mine: DataRecord, theirs: DataRecord, random: Stream, pos: nat)
    returns (child: NeuralNetwork, next: nat)
    requires Sound(parentOne) && Sound(parentTwo)
    requires |theirs.weights| <= |mine.weights|
    requires mode == InPlace && |mine.weights| > 0 ==> mine == parentOne.cache
    requires mode == DeepCopy ==> mine != parentOne.cache
    requires mode == DeepCopy || parentOne != parentTwo ==> mine != parentTwo.cache
    requires mine.nodes == parentOne.ViewNodes() && mine.weights == parentOne.ViewWeights()
    modifies mine`weights
    ensures var m := Offspring(old(mine.weights), old(theirs.weights), random, pos);
      && fresh(child) && fresh(child.cache) && fresh(child.LayerSet) && fresh(child.NeuronSet)
      && Newborn(child, mine.nodes, m.weights)
      && next == m.next + WeightCount(DefaultSizes()) + WeightCount(child.Sizes)
      && (mode == InPlace ==> parentOne.ViewWeights() == m.weights)
    ensures Sound(parentOne) && Sound(parentTwo)
    ensures parentOne.ViewNodes() == old(parentOne.ViewNodes()) && parentTwo.ViewNodes() == old(parentTwo.ViewNodes())
    ensures mode == DeepCopy ==> parentOne.ViewWeights() == old(parentOne.ViewWeights())
    ensures parentOne != parentTwo ==> parentTwo.ViewWeights() == old(parentTwo.ViewWeights())
  {
    ViewCounts(parentOne);
    var p := Recombine(mine, theirs, random, pos);
    ViewCounts(parentOne);
    child, next := Spawn(mine, random, p);
  }

  /**
   * `breed` once parent one's record `mine` is made: parent two's record is
   * read, then `Beget` makes the child from the two.
   */
  method Conceive(parentOne: NeuralNetwork, parentTwo: NeuralNetwork, mode: BreedMode, mine: DataRecord,
                  random: Stream, pos: nat)
    returns (child: NeuralNetwork, next: nat)
    requires Sound(parentOne) && Sound(parentTwo)
    requires mode == InPlace ==> mine == parentOne.cache
    requires mode == DeepCopy ==> mine != parentOne.cache && mine != parentTwo.cache
    requires mine.nodes == parentOne.ViewNodes() && mine.weights == parentOne.ViewWeights()
    requires |parentTwo.ViewWeights()| <= |mine.weights|
    modifies parentTwo`cache, parentTwo.LayerSet`pointer, mine`weights
    ensures Sound(parentOne) && Sound(parentTwo)
    ensures parentTwo.cache == old(parentTwo.cache) || fresh(parentTwo.cache)
    ensures parentOne.ViewNodes() == old(parentOne.ViewNodes()) && parentTwo.ViewNodes() == old(parentTwo.ViewNodes())
    ensures var m := Offspring(old(mine.weights), old(parentTwo.ViewWeights()), random, pos);
      && fresh(child) && fresh(child.cache) && fresh(child.LayerSet) && fresh(child.NeuronSet)
      && Newborn(child, mine.nodes, m.weights)
      && next == m.next + WeightCount(DefaultSizes()) + WeightCount(child.Sizes)
      && (mode == InPlace ==> parentOne.ViewWeights() == m.weights)
    ensures mode == DeepCopy ==> parentOne.ViewWeights() == old(parentOne.ViewWeights())
    ensures parentOne != parentTwo ==> parentTwo.ViewWeights() == old(parentTwo.ViewWeights())
  {
    var theirs := TheirRecord(parentOne, parentTwo, mode, mine);
    child, next := Beget(parentOne, parentTwo, mode, mine, theirs, random, pos);
  }

  /**
   * One pass of the loop of `breed(parentOne, parentTwo)`: the child record
   * is crossed with parent two's record and mutated, and a new network is
   * persisted from it. The child has parent one's layer sizes. Parent one's
   * record is that child record in the TypeScript; in the compiled
   * JavaScript neither parent's record changes.
   */
  method BreedOnce(parentOne: NeuralNetwork, parentTwo: NeuralNetwork, mode: BreedMode, random: Stream, pos: nat)
    returns (child: NeuralNetwork, next: nat)
    requires Sound(parentOne) && Sound(parentTwo)
    requires |parentTwo.ViewWeights()| <= |parentOne.ViewWeights()|
    modifies parentOne`cache, parentOne.LayerSet`pointer, parentOne.cache`weights
    modifies parentTwo`cache, parentTwo.LayerSet`pointer
    ensures Sound(parentOne) && Sound(parentTwo)
    ensures parentOne.cache == old(parentOne.cache) || fresh(parentOne.cache)
    ensures parentTwo.cache == old(parentTwo.cache) || fresh(parentTwo.cache)
    ensures parentOne.ViewNodes() == old(parentOne.ViewNodes()) && parentTwo.ViewNodes() == old(parentTwo.ViewNodes())
    ensures var m := Offspring(old(parentOne.ViewWeights()), old(parentTwo.ViewWeights()), random, pos);
      && fresh(child) && fresh(child.cache) && fresh(child.LayerSet) && fresh(child.NeuronSet)
      && Newborn(child, old(parentOne.ViewNodes()), m.weights)
      && next == m.next + WeightCount(DefaultSizes()) + WeightCount(child.Sizes)
      && (mode == InPlace ==> parentOne.ViewWeights() == m.weights)
    ensures mode == DeepCopy ==> parentOne.ViewWeights() == old(parentOne.ViewWeights())
    ensures parentOne != parentTwo ==> parentTwo.ViewWeights() == old(parentTwo.ViewWeights())
  {
    var mine := OwnRecord(parentOne, mode);
    child, next := Conceive(parentOne, parentTwo, mode, mine, random, pos);
  }

  /** `net` shares neither its cached record nor a layer with either parent. */
  ghost predicate Apart(net: NeuralNetwork, parentOne: NeuralNetwork, parentTwo: NeuralNetwork)
    reads net, parentOne, parentTwo
  {
    net.cache != parentOne.cache && net.cache != parentTwo.cache &&
    forall l :: l in net.LayerSet ==> l !in parentOne.LayerSet && l !in parentTwo.LayerSet
  }

  /**
   * `breed(pop[i], pop[j])` inside a population whose networks `reports`
   * tracks: the child joins it without sharing state with anyone, every
   * network keeps its layer sizes, and only parent one's reported weights
   * can change (in the TypeScript).
   */
  method BreedInto(ghost reports: map<NeuralNetwork, Report>, parentOne: NeuralNetwork, parentTwo: NeuralNetwork,
                   mode: BreedMode, random: Stream, pos: nat)
    returns (child: NeuralNetwork, next: nat)
    requires Tracked(reports) && parentOne in reports && parentTwo in reports
    requires |reports[parentTwo].weights| <= |reports[parentOne].weights|
    modifies parentOne`cache, parentOne.LayerSet`pointer, parentOne.cache`weights
    modifies parentTwo`cache, parentTwo.LayerSet`pointer
    ensures forall net {:trigger Sound(net)} :: net in reports ==> Sound(net)
    ensures forall net {:trigger net.cache} :: net in reports ==> net.cache == old(net.cache) || fresh(net.cache)
    ensures forall net {:trigger net.ViewNodes()} :: net in reports ==> net.ViewNodes() == reports[net].nodes
    ensures forall net {:trigger net.ViewWeights()} :: net in reports && (net != parentOne || mode == DeepCopy) ==>
      net.ViewWeights() == reports[net].weights
    ensures var m := Offspring(reports[parentOne].weights, reports[parentTwo].weights, random, pos);
      && fresh(child) && fresh(child.cache) && fresh(child.LayerSet) && fresh(child.NeuronSet)
      && Newborn(child, reports[parentOne].nodes, m.weights)
      && next == m.next + WeightCount(DefaultSizes()) + WeightCount(child.Sizes)
      && (mode == InPlace ==> parentOne.ViewWeights() == m.weights)
  {
    forall net | net in reports && net != parentOne && net != parentTwo
      ensures Apart(net, parentOne, parentTwo)
    {
      assert Sound(net) && Sound(parentOne) && Sound(parentTwo);
    }
    child, next := BreedOnce(parentOne, parentTwo, mode, random, pos);
    forall net | net in reports && net != parentOne && net != parentTwo
      ensures Sound(net) && net.cache == old(net.cache)
      ensures net.ViewNodes() == reports[net].nodes && net.ViewWeights() == reports[net].weights
    {
      assert old(Apart(net, parentOne, parentTwo));
      StaysSound(net);
    }
  }

  /** What a network's `data` reports: its layer sizes and its flat weights. */
  datatype Report = Report(nodes: seq<nat>, weights: seq<real>)

  /**
   * The reports of `breed(parentOne, parentTwo, n)` after `|offspring|`
   * passes of its loop, starting from the parents' records `recs`: child
   * `k` reports `made[k]` with parent one's layer sizes `nodes` and drew
   * from `starts[k]` on, each right after the one before it; the parents
   * hold their `Records` after that many breedings; `next` is where the
   * draws of the next pass start.
   */
  ghost predicate Reported(offspring: seq<NeuralNetwork>, made: seq<Mutation>, starts: seq<nat>, next: nat,
                           reports: map<NeuralNetwork, Report>, parentOne: NeuralNetwork, parentTwo: NeuralNetwork,
                           nodes: seq<nat>, recs: map<NeuralNetwork, seq<real>>, n: nat, mode: BreedMode, pos: nat)
  {
    && |offspring| == |made| == |starts| <= n && parentOne in recs && parentTwo in recs
    && var rs := Records(recs, Litter(parentOne, parentTwo, n), made, mode, |made|);
    && parentOne in reports && parentTwo in reports
    && reports[parentOne] == Report(nodes, rs[parentOne]) && reports[parentTwo].weights == rs[parentTwo]
    && (forall k :: 0 <= k < |offspring| ==>
          && offspring[k] in reports && offspring[k] != parentOne && offspring[k] != parentTwo
          && reports[offspring[k]] == Report(nodes, made[k].weights)
          && starts[k] == if k == 0 then pos else made[k - 1].next + WeightCount(DefaultSizes()) + WeightCount(nodes))
    && next == (if made == [] then pos else made[|made| - 1].next + WeightCount(DefaultSizes()) + WeightCount(nodes))
    && (starts != [] ==> starts[0] == pos)
  }

  /**
   * The state of `breed(parentOne, parentTwo, n)` after `|offspring|`
   * passes of its loop: the children made so far are the pair's
   * `Lineage`, and the networks report them.
   */
  ghost predicate Littered(offspring: seq<NeuralNetwork>, made: seq<Mutation>, starts: seq<nat>, next: nat,
                           reports: map<NeuralNetwork, Report>, parentOne: NeuralNetwork, parentTwo: NeuralNetwork,
                           nodes: seq<nat>, recs: map<NeuralNetwork, seq<real>>, n: nat, mode: BreedMode, random: Stream, pos: nat)
  {
    Lineage(recs, Litter(parentOne, parentTwo, n), made, starts, mode, random) &&
    Reported(offspring, made, starts, next, reports, parentOne, parentTwo, nodes, recs, n, mode, pos)
  }

  /**
   * One more pass of `breed`'s loop, making child record `m`: the child
   * joins, parent one's record becomes the child's in the TypeScript, and
   * no other report changes.
   */
  lemma ReportStep(offspring: seq<NeuralNetwork>, made: seq<Mutation>, starts: seq<nat>, next: nat,
                   reports: map<NeuralNetwork, Report>, reports': map<NeuralNetwork, Report>, child: NeuralNetwork,
                   m: Mutation, after: nat, parentOne: NeuralNetwork, parentTwo: NeuralNetwork, nodes: seq<nat>,
                   recs: map<NeuralNetwork, seq<real>>, n: nat, mode: BreedMode, pos: nat)
    requires Reported(offspring, made, starts, next, reports, parentOne, parentTwo, nodes, recs, n, mode, pos)
    requires |offspring| < n && child !in reports
    requires after == m.next + WeightCount(DefaultSizes()) + WeightCount(nodes)
    requires reports' == (if mode == InPlace then reports[parentOne := Report(nodes, m.weights)] else reports)
                           [child := Report(nodes, m.weights)]
    ensures Reported(offspring + [child], made + [m], starts + [next], after, reports', parentOne, parentTwo, nodes, recs,
                     n, mode, pos)
  {
    var pairs, i := Litter(parentOne, parentTwo, n), |made|;
    var made', starts', offspring' := made + [m], starts + [next], offspring + [child];
    assert pairs[i] == (parentOne, parentTwo);
    RecordsPrefix(recs, pairs, made, made', mode, i);
    forall k | 0 <= k < |offspring'|
      ensures offspring'[k] in reports' && offspring'[k] != parentOne && offspring'[k] != parentTwo
      ensures reports'[offspring'[k]] == Report(nodes, made'[k].weights)
      ensures starts'[k] == if k == 0 then pos else made'[k - 1].next + WeightCount(DefaultSizes()) + WeightCount(nodes)
    {
      if k < i {
        assert offspring'[k] == offspring[k] && starts'[k] == starts[k] && made'[k] == made[k];
        assert offspring[k] != child;
      } else {
        assert offspring'[k] == child && starts'[k] == next && made'[k] == m;
      }
      if 0 < k {
        assert made'[k - 1] == made[k - 1];
      }
    }
  }

  /** While `breed` runs, parent two's record stays no longer than parent one's. */
  lemma LitterFits(offspring: seq<NeuralNetwork>, made: seq<Mutation>, starts: seq<nat>, next: nat,
                   reports: map<NeuralNetwork, Report>, parentOne: NeuralNetwork, parentTwo: NeuralNetwork,
                   nodes: seq<nat>, recs: map<NeuralNetwork, seq<real>>, n: nat, mode: BreedMode, random: Stream, pos: nat)
    requires Littered(offspring, made, starts, next, reports, parentOne, parentTwo, nodes, recs, n, mode, random, pos)
    requires |recs[parentTwo]| <= |recs[parentOne]|
    ensures |reports[parentTwo].weights| <= |reports[parentOne].weights|
  {
    RecordLengths(recs, Litter(parentOne, parentTwo, n), made, starts, mode, random, |made|);
  }

  /**
   * One more pass of `breed`'s loop: the child of the parents' current
   * records extends the lineage and joins the reports.
   */
  lemma LitterStep(offspring: seq<NeuralNetwork>, made: seq<Mutation>, starts: seq<nat>, next: nat,
                   reports: map<NeuralNetwork, Report>, reports': map<NeuralNetwork, Report>, child: NeuralNetwork,
                   m: Mutation, after: nat, parentOne: NeuralNetwork, parentTwo: NeuralNetwork, nodes: seq<nat>,
                   recs: map<NeuralNetwork, seq<real>>, n: nat, mode: BreedMode, random: Stream, pos: nat)
    requires Littered(offspring, made, starts, next, reports, parentOne, parentTwo, nodes, recs, n, mode, random, pos)
    requires |offspring| < n && child !in reports
    requires |reports[parentTwo].weights| <= |reports[parentOne].weights|
    requires m == Offspring(reports[parentOne].weights, reports[parentTwo].weights, random, next)
    requires after == m.next + WeightCount(DefaultSizes()) + WeightCount(nodes)
    requires reports' == (if mode == InPlace then reports[parentOne := Report(nodes, m.weights)] else reports)
                           [child := Report(nodes, m.weights)]
    ensures Littered(offspring + [child], made + [m], starts + [next], after, reports', parentOne, parentTwo, nodes, recs,
                     n, mode, random, pos)
  {
    var pairs := Litter(parentOne, parentTwo, n);
    assert pairs[|made|] == (parentOne, parentTwo);
    LineageStep(recs, pairs, made, starts, mode, random, m, next);
    ReportStep(offspring, made, starts, next, reports, reports', child, m, after, parentOne, parentTwo, nodes, recs, n, mode, pos);
  }

  /** Every network of `reports` is sound and reports what the map says. */
  ghost predicate Tracked(reports: map<NeuralNetwork, Report>)
    reads (set net | net in reports), (set net | net in reports :: net.cache)
    reads (set net, l | net in reports && l in net.LayerSet :: l), (set net, n | net in reports && n in net.NeuronSet :: n)
  {
    && (forall net {:trigger Sound(net)} :: net in reports ==> Sound(net))
    && (forall net {:trigger net.ViewNodes()} :: net in reports ==> net.ViewNodes() == reports[net].nodes)
    && (forall net {:trigger net.ViewWeights()} :: net in reports ==> net.ViewWeights() == reports[net].weights)
  }

  /**
   * One pass of `breed`'s loop among the tracked networks `reports`: the
   * child of the parents' current records reports the mutated crossover,
   * parent one's record becomes that too in the TypeScript, and no other
   * network changes what it reports.
   */
  method BreedNext(ghost reports: map<NeuralNetwork, Report>, parentOne: NeuralNetwork, parentTwo: NeuralNetwork,
                   mode: BreedMode, random: Stream, pos: nat)
    returns (child: NeuralNetwork, next: nat, ghost m: Mutation, ghost reports': map<NeuralNetwork, Report>)
    requires Tracked(reports) && parentOne in reports && parentTwo in reports
    requires |reports[parentTwo].weights| <= |reports[parentOne].weights|
    modifies parentOne`cache, parentOne.LayerSet`pointer, parentOne.cache`weights
    modifies parentTwo`cache, parentTwo.LayerSet`pointer
    ensures m == Offspring(reports[parentOne].weights, reports[parentTwo].weights, random, pos)
    ensures next == m.next + WeightCount(DefaultSizes()) + WeightCount(reports[parentOne].nodes)
    ensures fresh(child) && child !in reports
    ensures reports' == (if mode == InPlace then reports[parentOne := Report(reports[parentOne].nodes, m.weights)] else reports)
                          [child := Report(reports[parentOne].nodes, m.weights)]
    ensures Tracked(reports') && reports.Keys <= reports'.Keys
    ensures forall net :: net in reports && net != parentOne ==> reports'[net] == reports[net]
    ensures forall net {:trigger net.cache} :: net in reports ==> net.cache == old(net.cache) || fresh(net.cache)
  {
    m := Offspring(reports[parentOne].weights, reports[parentTwo].weights, random, pos);
    ghost var nodes := reports[parentOne].nodes;
    child, next := BreedInto(reports, parentOne, parentTwo, mode, random, pos);
    reports' := (if mode == InPlace then reports[parentOne := Report(nodes, m.weights)] else reports)[child := Report(nodes, m.weights)];
    TrackedBirth(reports, parentOne, child, nodes, m.weights, mode);
  }

  /**
   * A herd that reports what `reports` says of each of its networks, except
   * that parent one may report the newborn's weights, keeps reporting what
   * the record says once the newborn, which reports its own layer sizes
   * and weights, joins it.
   */
  lemma TrackedBirth(reports: map<NeuralNetwork, Report>, parentOne: NeuralNetwork, child: NeuralNetwork,
                     nodes: seq<nat>, weights: seq<real>, mode: BreedMode)
    requires parentOne in reports && reports[parentOne].nodes == nodes
    requires Sound(child) && child.ViewNodes() == nodes && child.ViewWeights() == weights
    requires forall net {:trigger Sound(net)} :: net in reports ==> Sound(net)
    requires forall net {:trigger net.ViewNodes()} :: net in reports ==> net.ViewNodes() == reports[net].nodes
    requires forall net {:trigger net.ViewWeights()} :: net in reports && (net != parentOne || mode == DeepCopy) ==>
      net.ViewWeights() == reports[net].weights
    requires mode == InPlace ==> parentOne.ViewWeights() == weights
    ensures Tracked((if mode == InPlace then reports[parentOne := Report(nodes, weights)] else reports)
                      [child := Report(nodes, weights)])
  {
  }

  /**
   * `breed(parentOne, parentTwo, numberOfOffspring)` among tracked
   * networks: each pass of its loop reads parent one's record afresh,
   * crosses and mutates it, and persists a new network from it. Child `k`
   * reports `made[k]`, the `k`-th of the pair's `Lineage`, and draws from
   * `starts[k]` on, right after the draws of the child before it. In the
   * TypeScript each pass changes parent one's own record, so the children
   * compound; in the compiled JavaScript every pass starts from a copy of
   * the same record. No other network changes what it reports.
   */
  method Breed(ghost herd: map<NeuralNetwork, Report>, parentOne: NeuralNetwork, parentTwo: NeuralNetwork,
               numberOfOffspring: nat, mode: BreedMode, random: Stream, pos: nat)
    returns (offspring: seq<NeuralNetwork>, next: nat,
             ghost made: seq<Mutation>, ghost starts: seq<nat>, ghost reports: map<NeuralNetwork, Report>)
    requires Tracked(herd) && parentOne in herd && parentTwo in herd
    requires |herd[parentTwo].weights| <= |herd[parentOne].weights|
    modifies parentOne`cache, parentOne.LayerSet`pointer, parentOne.cache`weights
    modifies parentTwo`cache, parentTwo.LayerSet`pointer
    ensures Littered(offspring, made, starts, next, reports, parentOne, parentTwo, herd[parentOne].nodes,
                     map[parentTwo := herd[parentTwo].weights][parentOne := herd[parentOne].weights],
                     numberOfOffspring, mode, random, pos)
    ensures |offspring| == numberOfOffspring && forall k :: 0 <= k < numberOfOffspring ==> fresh(offspring[k])
    ensures Tracked(reports) && herd.Keys <= reports.Keys
    ensures forall net :: net in herd && net != parentOne ==> reports[net] == herd[net]
    ensures forall net {:trigger net.cache} :: net in herd ==> net.cache == old(net.cache) || fresh(net.cache)
  {
    ghost var recs := map[parentTwo := herd[parentTwo].weights][parentOne := herd[parentOne].weights];
    ghost var nodes := herd[parentOne].nodes;
    offspring, next, made, starts, reports := [], pos, [], [], herd;
    for i := 0 to numberOfOffspring
      invariant |offspring| == i && herd.Keys <= reports.Keys
      invariant Littered(offspring, made, starts, next, reports, parentOne, parentTwo, nodes, recs, numberOfOffspring, mode, random, pos)
      invariant forall k :: 0 <= k < i ==> fresh(offspring[k])
      invariant forall net :: net in herd && net != parentOne ==> reports[net] == herd[net]
      invariant Tracked(reports)
      invariant forall net {:trigger net.cache} :: net in herd ==> net.cache == old(net.cache) || fresh(net.cache)
    {
      LitterFits(offspring, made, starts, next, reports, parentOne, parentTwo, nodes, recs, numberOfOffspring, mode, random, pos);
      var child, after, m, reports' := BreedNext(reports, parentOne, parentTwo, mode, random, next);
      LitterStep(offspring, made, starts, next, reports, reports', child, m, after, parentOne, parentTwo, nodes, recs,
                 numberOfOffspring, mode, random, pos);
      forall k | 0 <= k <= i
        ensures fresh((offspring + [child])[k])
      {
        if k < i {
          assert (offspring + [child])[k] == offspring[k];
        }
      }
      offspring, made, starts, next, reports := offspring + [child], made + [m], starts + [next], after, reports';
    }
  }

  /**
   * `breed(parentOne, parentTwo)` with its default of one offspring: the
   * child reports the mutated crossover of the parents' records, and in
   * the TypeScript parent one's record becomes the child's.
   */
  lemma SingleLitter(offspring: seq<NeuralNetwork>, made: seq<Mutation>, starts: seq<nat>, next: nat,
                     reports: map<NeuralNetwork, Report>, parentOne: NeuralNetwork, parentTwo: NeuralNetwork,
                     nodes: seq<nat>, mine: seq<real>, theirs: seq<real>, mode: BreedMode, random: Stream, pos: nat)
    requires Littered(offspring, made, starts, next, reports, parentOne, parentTwo, nodes,
                      map[parentTwo := theirs][parentOne := mine], 1, mode, random, pos)
    requires |offspring| == 1 && (parentOne == parentTwo ==> theirs == mine)
    ensures |theirs| <= |mine| && made[0] == Offspring(mine, theirs, random, pos)
    ensures next == made[0].next + WeightCount(DefaultSizes()) + WeightCount(nodes)
    ensures offspring[0] in reports && reports[offspring[0]] == Report(nodes, made[0].weights)
    ensures offspring[0] != parentOne && offspring[0] != parentTwo
    ensures reports[parentOne] == Report(nodes, if mode == InPlace then made[0].weights else mine)
  {
    var recs, pairs := map[parentTwo := theirs][parentOne := mine], Litter(parentOne, parentTwo, 1);
    assert Records(recs, pairs, made, mode, 0) == recs && pairs[0] == (parentOne, parentTwo);
    assert recs[parentOne] == mine && recs[parentTwo] == theirs;
    assert Begot(recs, pairs, made, starts, mode, random, 0);
  }
}
