/**
 * `next` and `evolve` of the genetic algorithm (genetic-algorithm.ts and
 * dist/genetic-algorithm.js): a generation of `populationCount` networks
 * is built from the ranked last generation by keeping its elites, adding
 * fresh default networks and breeding pairs of ranked networks in a fixed
 * order until it is full.
 */
module Evolution {
  import opened Random
  import opened Topology
  import opened Network
  import opened Ranking
  import opened Breeding
  import opened Schedule
  import opened Generation

  /** No network appears twice in `s`. */
  ghost predicate Distinct(s: seq<NeuralNetwork>) {
    forall i, j :: 0 <= i < j < |s| ==> s[i] != s[j]
  }

  /** A network that `s` does not hold yet, appended, keeps `s` free of repeats. */
  lemma DistinctAppend(s: seq<NeuralNetwork>, net: NeuralNetwork)
    requires Distinct(s) && net !in s
    ensures Distinct(s + [net])
  {
    forall i, j | 0 <= i < j < |s| + 1
      ensures (s + [net])[i] != (s + [net])[j]
    {
      assert (s + [net])[i] == s[i];
      if j < |s| {
        assert (s + [net])[j] == s[j];
      }
    }
  }

  /**
   * What the ranked network `j` holds while row `c` of the schedule, the
   * pairs `(0, c), (1, c), ...`, is bred and its first `i` pairs are done,
   * `made` being the weights of every child so far. In the compiled
   * JavaScript it is always its starting record `recs[j]`. In the
   * TypeScript it is the weights of its child of this row, `(j, c)`, once
   * that is bred, else those of its child of the row before, `(j, c - 1)`,
   * if it had one, else `recs[j]`: each child that a network breeds as
   * parent one replaces that network's weights.
   */
  ghost function Held(recs: seq<seq<real>>, made: seq<seq<real>>, mode: BreedMode, j: nat, i: nat, c: nat): seq<real>
    requires j < |recs| && i <= |made| && c <= |made| + 1
  {
    if mode == DeepCopy then recs[j]
    else if j < i then made[|made| - i + j]
    else if j + 1 < c then made[|made| - i - (c - 1) + j]
    else recs[j]
  }

  /**
   * `weights` are those of child `t`, of the ranked pair `(a, b)`, bred with
   * draws from `start` on, `made` being the weights of every child: the
   * mutated crossover of what parent one held then and parent two's
   * starting record `recs[b]`, which nothing changes before row `b` is
   * done. Parent one held its starting record `recs[a]`, except in the
   * TypeScript for `b > a + 1`, where it held the weights of its child
   * `(a, b - 1)`, bred `b - 1` children before this one. The child's draws
   * (crossover, mutation, the six weights of `new NeuralNetwork()`, then
   * one per weight of the layer sizes `shape` in `persist`) end at `end`.
   */
  ghost predicate ChildOf(weights: seq<real>, t: nat, a: nat, b: nat, mode: BreedMode, recs: seq<seq<real>>,
                          made: seq<seq<real>>, random: Stream, start: nat, end: nat, shape: seq<nat>)
  {
    a < b < |recs| && b - 1 <= t < |made| &&
    var first := if mode == InPlace && a + 1 < b then made[t - (b - 1)] else recs[a];
    |recs[b]| <= |first| &&
    var m := Offspring(first, recs[b], random, start);
    weights == m.weights && end == m.next + WeightCount(DefaultSizes()) + WeightCount(shape)
  }

  /** Where the draws after child `t` start: those of child `t + 1`, or `next` after the last child. */
  function Following(starts: seq<nat>, next: nat, t: nat): nat {
    if t + 1 < |starts| then starts[t + 1] else next
  }

  /** `later` records every network `earlier` does, and the same of each. */
  ghost predicate Extends(later: map<NeuralNetwork, Report>, earlier: map<NeuralNetwork, Report>) {
    forall net :: net in earlier ==> net in later && later[net] == earlier[net]
  }

  /** `later` records every network `earlier` does, and the same of each except perhaps the `ranked` ones. */
  ghost predicate Preserves(later: map<NeuralNetwork, Report>, earlier: map<NeuralNetwork, Report>, ranked: seq<NeuralNetwork>) {
    forall net :: net in earlier ==> net in later && (net !in ranked ==> later[net] == earlier[net])
  }

  /**
   * `kids[t]` is, as `reports` records it, the child of the ranked pair
   * `pairs[t]`, with the layer sizes `shape` and the weights `made[t]`,
   * bred with draws from `starts[t]` on. The first child draws from `pos`
   * on, each later one right after the one before it, and the draws after
   * the last child start at `next` (which is `pos` if there is none).
   */
  ghost predicate Bred(kids: seq<NeuralNetwork>, starts: seq<nat>, made: seq<seq<real>>, pairs: seq<(nat, nat)>,
                       reports: map<NeuralNetwork, Report>, shape: seq<nat>, mode: BreedMode,
                       recs: seq<seq<real>>, random: Stream, pos: nat, next: nat)
  {
    && |kids| == |starts| == |made| <= |pairs|
    && (if starts == [] then next == pos else starts[0] == pos)
    && (forall t :: 0 <= t < |kids| ==> kids[t] in reports && reports[kids[t]] == Report(shape, made[t]))
    && forall t {:trigger pairs[t]} :: 0 <= t < |kids| ==>
      ChildOf(made[t], t, pairs[t].0, pairs[t].1, mode, recs, made, random, starts[t], Following(starts, next, t), shape)
  }

  /**
   * The child of the next pair, `(i, ceiling)`, reporting the weights `w`
   * and drawing from `start`, where the draws after the children so far
   * start, to `end`, keeps the record of who was bred from what, as long
   * as no earlier child is recorded differently.
   */
  lemma {:induction false} BredChild(kids: seq<NeuralNetwork>, starts: seq<nat>, made: seq<seq<real>>, pairs: seq<(nat, nat)>,
                  reports: map<NeuralNetwork, Report>, reports': map<NeuralNetwork, Report>,
                  kid: NeuralNetwork, w: seq<real>, pos: nat, start: nat, end: nat,
                  i: nat, ceiling: nat, shape: seq<nat>, mode: BreedMode, recs: seq<seq<real>>, random: Stream)
    requires Bred(kids, starts, made, pairs, reports, shape, mode, recs, random, pos, start)
    requires forall t :: 0 <= t < |kids| ==> kids[t] != kid && kids[t] in reports' && reports'[kids[t]] == reports[kids[t]]
    requires |kids| < |pairs| && pairs[|kids|] == (i, ceiling) && kid in reports' && reports'[kid] == Report(shape, w)
    requires ChildOf(w, |kids|, i, ceiling, mode, recs, made + [w], random, start, end, shape)
    ensures Bred(kids + [kid], starts + [start], made + [w], pairs, reports', shape, mode, recs, random, pos, end)
  {
    var kids', starts', made' := kids + [kid], starts + [start], made + [w];
    forall t | 0 <= t < |kids'|
      ensures kids'[t] in reports' && reports'[kids'[t]] == Report(shape, made'[t])
      ensures ChildOf(made'[t], t, pairs[t].0, pairs[t].1, mode, recs, made', random, starts'[t], Following(starts', end, t), shape)
    {
      if t < |kids| {
        assert kids'[t] == kids[t] && starts'[t] == starts[t] && made'[t] == made[t];
        assert Following(starts', end, t) == Following(starts, start, t);
        assert ChildOf(made[t], t, pairs[t].0, pairs[t].1, mode, recs, made, random, starts[t], Following(starts, start, t), shape);
        var b := pairs[t].1;
        if mode == InPlace && pairs[t].0 + 1 < b {
          assert made'[t - (b - 1)] == made[t - (b - 1)];
        }
      }
    }
    assert starts'[0] == if starts == [] then start else starts[0];
  }

  /**
   * After breeding pair `(i, c)` the ranked network `j` holds what `Held`
   * says one pair further on: parent one `i` the new child's weights `w`
   * in the TypeScript, every other one what it held before.
   */
  lemma HeldStep(recs: seq<seq<real>>, made: seq<seq<real>>, mode: BreedMode, j: nat, i: nat, c: nat, w: seq<real>)
    requires j < |recs| && i < c <= |made| + 1
    ensures Held(recs, made + [w], mode, j, i + 1, c) ==
      if mode == InPlace && j == i then w else Held(recs, made, mode, j, i, c)
  {
    var made' := made + [w];
    if mode == InPlace && j != i {
      if j < i {
        assert made'[|made'| - (i + 1) + j] == made[|made| - i + j];
      } else if j + 1 < c {
        assert made'[|made'| - (i + 1) - (c - 1) + j] == made[|made| - i - (c - 1) + j];
      }
    }
  }

  /**
   * Every ranked network is recorded in `reports` with the layer sizes
   * `shape` and the weights `Held` says it holds once `i` pairs of row `c`
   * are bred, `made` being the weights of every child so far.
   */
  ghost predicate Holding(ranked: seq<NeuralNetwork>, reports: map<NeuralNetwork, Report>, shape: seq<nat>,
                          mode: BreedMode, recs: seq<seq<real>>, made: seq<seq<real>>, i: nat, c: nat)
  {
    && |ranked| == |recs| && i <= |made| && c <= |made| + 1
    && (forall k :: 0 <= k < |ranked| ==> ranked[k] in reports)
    && forall k {:trigger Held(recs, made, mode, k, i, c)} :: 0 <= k < |ranked| ==>
      reports[ranked[k]] == Report(shape, Held(recs, made, mode, k, i, c))
  }

  /**
   * The children `kids` so far are recorded as bred from the `pairs` in
   * order, drawing one after the other from `pos` on up to `next`, none of
   * them twice, none of them ranked, each with as many weights as the
   * layer sizes `shape` call for.
   */
  ghost predicate Progress(kids: seq<NeuralNetwork>, starts: seq<nat>, made: seq<seq<real>>, ranked: seq<NeuralNetwork>,
                           pairs: seq<(nat, nat)>, reports: map<NeuralNetwork, Report>, shape: seq<nat>,
                           mode: BreedMode, recs: seq<seq<real>>, random: Stream, pos: nat, next: nat)
  {
    Bred(kids, starts, made, pairs, reports, shape, mode, recs, random, pos, next) && Distinct(kids) &&
    forall t :: 0 <= t < |kids| ==> kids[t] !in ranked && |made[t]| == WeightCount(shape)
  }

  /**
   * While pair `(i, c)` is next, parent one is recorded with what `Held`
   * says it holds and parent two with its starting record, both with as
   * many weights as `shape` calls for.
   */
  lemma Parents(ranked: seq<NeuralNetwork>, reports: map<NeuralNetwork, Report>, shape: seq<nat>, mode: BreedMode,
                recs: seq<seq<real>>, made: seq<seq<real>>, i: nat, c: nat)
    requires i < c < |ranked| && Holding(ranked, reports, shape, mode, recs, made, i, c)
    requires forall k :: 0 <= k < |recs| ==> |recs[k]| == WeightCount(shape)
    requires forall t :: 0 <= t < |made| ==> |made[t]| == WeightCount(shape)
    ensures reports[ranked[i]] == Report(shape, Held(recs, made, mode, i, i, c))
    ensures reports[ranked[c]] == Report(shape, recs[c])
    ensures |Held(recs, made, mode, i, i, c)| == |recs[c]| == WeightCount(shape)
  {
    assert Held(recs, made, mode, c, i, c) == recs[c];
  }

  /**
   * Breeding pair `(i, c)` moves the records from `before` to `after`: the
   * newborn `child`, unknown before, is recorded with the weights `w` and,
   * in the TypeScript, parent one with the same. The ranked networks then
   * hold what `Held` says one pair further on, and nothing else recorded
   * before changes.
   */
  lemma RowHolding(ranked: seq<NeuralNetwork>, i: nat, c: nat, made: seq<seq<real>>,
                   before: map<NeuralNetwork, Report>, after: map<NeuralNetwork, Report>,
                   child: NeuralNetwork, w: seq<real>, shape: seq<nat>, mode: BreedMode, recs: seq<seq<real>>)
    requires i < c < |ranked| && (mode == InPlace ==> Distinct(ranked))
    requires Holding(ranked, before, shape, mode, recs, made, i, c) && child !in before
    requires w == Held(recs, made + [w], mode, i, i + 1, c) || mode == DeepCopy
    requires after == before[child := Report(shape, w)][ranked[i] := if mode == InPlace then Report(shape, w) else before[ranked[i]]]
    ensures Holding(ranked, after, shape, mode, recs, made + [w], i + 1, c)
    ensures Preserves(after, before, ranked)
  {
    forall k | 0 <= k < |ranked|
      ensures ranked[k] in after && after[ranked[k]] == Report(shape, Held(recs, made + [w], mode, k, i + 1, c))
    {
      HeldStep(recs, made, mode, k, i, c, w);
      assert ranked[k] in before;
      if mode == InPlace && k != i {
        assert ranked[k] != ranked[i];
      }
    }
  }

  /**
   * The child of the next pair `(i, c)`, unknown to `before`, reporting in
   * `after` the weights `w` and drawing from `at` to `end` as `ChildOf`
   * describes, extends the children so far as `Progress` describes them.
   */
  lemma {:induction false} RowProgress(ranked: seq<NeuralNetwork>, pairs: seq<(nat, nat)>, base: nat, i: nat, c: nat,
                                       kids: seq<NeuralNetwork>, starts: seq<nat>, made: seq<seq<real>>,
                                       before: map<NeuralNetwork, Report>, after: map<NeuralNetwork, Report>,
                                       child: NeuralNetwork, pos: nat, at: nat, end: nat, w: seq<real>,
                                       shape: seq<nat>, mode: BreedMode, recs: seq<seq<real>>, random: Stream)
    requires i < c && |kids| == base + i && base + c <= |pairs| && forall j :: 0 <= j < c ==> pairs[base + j] == (j, c)
    requires Progress(kids, starts, made, ranked, pairs, before, shape, mode, recs, random, pos, at)
    requires child !in before && (forall k :: 0 <= k < |ranked| ==> ranked[k] in before)
    requires forall net :: net in before && net !in ranked ==> net in after && after[net] == before[net]
    requires child in after && after[child] == Report(shape, w) && |w| == WeightCount(shape)
    requires ChildOf(w, |kids|, i, c, mode, recs, made + [w], random, at, end, shape)
    ensures Progress(kids + [child], starts + [at], made + [w], ranked, pairs, after, shape, mode, recs, random, pos, end)
  {
    assert pairs[base + i] == (i, c);
    forall t | 0 <= t < |kids|
      ensures kids[t] != child && kids[t] in after && after[kids[t]] == before[kids[t]]
    {
      assert kids[t] in before && kids[t] !in ranked;
    }
    BredChild(kids, starts, made, pairs, before, after, child, w, pos, at, end, i, c, shape, mode, recs, random);
    DistinctAppend(kids, child);
    var kids', made' := kids + [child], made + [w];
    forall t | 0 <= t < |kids'|
      ensures kids'[t] !in ranked && |made'[t]| == WeightCount(shape)
    {
      if t < |kids| {
        assert kids'[t] == kids[t] && made'[t] == made[t];
      }
    }
  }

  /**
   * The child of pair `(i, c)` is bred from what parent one holds then, as
   * `Held` says, and parent two's starting record, as `ChildOf` requires.
   */
  lemma HeldParent(recs: seq<seq<real>>, made: seq<seq<real>>, mode: BreedMode, i: nat, c: nat,
                   w: seq<real>, random: Stream, at: nat, end: nat, shape: seq<nat>)
    requires i < c < |recs| && c <= |made| + 1
    requires |recs[c]| <= |Held(recs, made, mode, i, i, c)|
    requires var m := Offspring(Held(recs, made, mode, i, i, c), recs[c], random, at);
      w == m.weights && end == m.next + WeightCount(DefaultSizes()) + WeightCount(shape)
    ensures ChildOf(w, |made|, i, c, mode, recs, made + [w], random, at, end, shape)
    ensures mode == InPlace ==> w == Held(recs, made + [w], mode, i, i + 1, c)
  {
    if mode == InPlace && i + 1 < c {
      assert (made + [w])[|made| - (c - 1)] == made[|made| - i - (c - 1) + i];
    }
  }

  /**
   * One pass of the inner loop of `next`: `parentOne` and `parentTwo`, two
   * of the ranked networks, breed and the child joins the herd, the
   * networks that `reports` records. The child reports the mutated
   * crossover of the parents' records; in the TypeScript parent one
   * reports the same weights afterwards; no other entry changes. The
   * draws of crossover, mutation, `new NeuralNetwork()` and `persist`
   * follow each other from `pos` on, and `next` is where they end.
   */
  method BreedStep(parentOne: NeuralNetwork, parentTwo: NeuralNetwork, mode: BreedMode,
                   random: Stream, pos: nat, ghost reports: map<NeuralNetwork, Report>)
    returns (child: NeuralNetwork, next: nat, ghost reports': map<NeuralNetwork, Report>)
    requires parentOne in reports && parentTwo in reports
    requires forall net {:trigger Sound(net)} :: net in reports ==> Sound(net)
    requires forall net {:trigger net.ViewNodes()} :: net in reports ==> net.ViewNodes() == reports[net].nodes
    requires forall net {:trigger net.ViewWeights()} :: net in reports ==> net.ViewWeights() == reports[net].weights
    requires |reports[parentTwo].weights| <= |reports[parentOne].weights|
    modifies parentOne`cache, parentOne.LayerSet`pointer, parentOne.cache`weights
    modifies parentTwo`cache, parentTwo.LayerSet`pointer
    ensures fresh(child) && child !in reports
    ensures var m := Offspring(reports[parentOne].weights, reports[parentTwo].weights, random, pos);
      var born := Report(reports[parentOne].nodes, m.weights);
      && reports' == reports[child := born][parentOne := if mode == InPlace then born else reports[parentOne]]
      && next == m.next + WeightCount(DefaultSizes()) + WeightCount(reports[parentOne].nodes)
    ensures forall net {:trigger Sound(net)} :: net in reports' ==> Sound(net)
    ensures forall net {:trigger net.ViewNodes()} :: net in reports' ==> net.ViewNodes() == reports'[net].nodes
    ensures forall net {:trigger net.ViewWeights()} :: net in reports' ==> net.ViewWeights() == reports'[net].weights
    ensures forall net {:trigger net.cache} :: net in reports ==> net.cache == old(net.cache) || fresh(net.cache)
  {
    ghost var m;
    ghost var tracked;
    child, next, m, tracked := BreedNext(reports, parentOne, parentTwo, mode, random, pos);
    ghost var born := Report(reports[parentOne].nodes, m.weights);
    reports' := reports[child := born][parentOne := if mode == InPlace then born else reports[parentOne]];
    assert reports' == tracked;
  }

  /**
   * `BreedStep` for the pair `(i, c)` of row `c`, which starts at number
   * `base` in the schedule `Pairs(count)`: the child is bred from what
   * parent one holds, as `Held` says, and parent two's starting record;
   * afterwards every ranked network holds what `Held` says one pair
   * further on and the children so far, with the new one appended, are as
   * `Progress` describes them. The child draws from `pos`, where the
   * draws after the children so far start, to `next`.
   */
  method BreedPair(ranked: seq<NeuralNetwork>, ghost pairs: seq<(nat, nat)>, base: nat, i: nat, c: nat,
                   ghost kids: seq<NeuralNetwork>, ghost starts: seq<nat>, ghost made: seq<seq<real>>, ghost origin: nat,
                   mode: BreedMode, random: Stream, pos: nat, ghost reports: map<NeuralNetwork, Report>,
                   ghost shape: seq<nat>, ghost recs: seq<seq<real>>)
    returns (child: NeuralNetwork, next: nat, ghost reports': map<NeuralNetwork, Report>, ghost w: seq<real>)
    requires i < c < |ranked| && (mode == InPlace ==> Distinct(ranked))
    requires forall k :: 0 <= k < |recs| ==> |recs[k]| == WeightCount(shape)
    requires |kids| == base + i && base + c <= |pairs| && forall j :: 0 <= j < c ==> pairs[base + j] == (j, c)
    requires Holding(ranked, reports, shape, mode, recs, made, i, c)
    requires Progress(kids, starts, made, ranked, pairs, reports, shape, mode, recs, random, origin, pos)
    requires forall net {:trigger Sound(net)} :: net in reports ==> Sound(net)
    requires forall net {:trigger net.ViewNodes()} :: net in reports ==> net.ViewNodes() == reports[net].nodes
    requires forall net {:trigger net.ViewWeights()} :: net in reports ==> net.ViewWeights() == reports[net].weights
    modifies {ranked[i], ranked[c]}`cache, {ranked[i].cache}`weights
    modifies ranked[i].LayerSet`pointer, ranked[c].LayerSet`pointer
    ensures fresh(child)
    ensures var m := Offspring(Held(recs, made, mode, i, i, c), recs[c], random, pos);
      w == m.weights && next == m.next + WeightCount(DefaultSizes()) + WeightCount(shape)
    ensures Holding(ranked, reports', shape, mode, recs, made + [w], i + 1, c)
    ensures Progress(kids + [child], starts + [pos], made + [w], ranked, pairs, reports', shape, mode, recs, random, origin, next)
    ensures Preserves(reports', reports, ranked)
    ensures forall net {:trigger Sound(net)} :: net in reports' ==> Sound(net)
    ensures forall net {:trigger net.ViewNodes()} :: net in reports' ==> net.ViewNodes() == reports'[net].nodes
    ensures forall net {:trigger net.ViewWeights()} :: net in reports' ==> net.ViewWeights() == reports'[net].weights
    ensures forall net {:trigger net.cache} :: net in reports ==> net.cache == old(net.cache) || fresh(net.cache)
  {
    Parents(ranked, reports, shape, mode, recs, made, i, c);
    w := Offspring(Held(recs, made, mode, i, i, c), recs[c], random, pos).weights;
    child, next, reports' := BreedStep(ranked[i], ranked[c], mode, random, pos, reports);
    HeldParent(recs, made, mode, i, c, w, random, pos, next, shape);
    RowHolding(ranked, i, c, made, reports, reports', child, w, shape, mode, recs);
    RowProgress(ranked, pairs, base, i, c, kids, starts, made, reports, reports', child, origin, pos, next, w, shape, mode, recs, random);
  }

  /**
   * The inner loop of `next` for one `ceiling`: `ranked[i]` breeds with
   * `ranked[ceiling]` for i = 0, 1, ..., each child joining the generation
   * of `have` networks, until the row is done or the generation holds
   * `count` networks (the loop's `break` once the generation is full is its
   * second condition here); `stop` is the number of pairs bred. `reports`
   * records what every network of the herd reports, the ranked ones what
   * `Held` says; `kids` are the children so far, in order, and `made`
   * their weights; the children draw one after the other from `origin`
   * on, the new ones from `pos` on, and `next` is where their draws end.
   */
  method BreedRow(ranked: seq<NeuralNetwork>, ghost pairs: seq<(nat, nat)>, count: nat, ceiling: nat, have: nat,
                  kids0: seq<NeuralNetwork>, ghost starts0: seq<nat>, ghost made0: seq<seq<real>>, ghost origin: nat,
                  mode: BreedMode, random: Stream, pos: nat, ghost reports: map<NeuralNetwork, Report>,
                  ghost shape: seq<nat>, ghost recs: seq<seq<real>>)
    returns (kids: seq<NeuralNetwork>, next: nat, ghost reports': map<NeuralNetwork, Report>,
             ghost starts: seq<nat>, ghost made: seq<seq<real>>, ghost stop: nat)
    requires ceiling < count <= |ranked| && have + |kids0| < count
    requires |kids0| + ceiling <= |pairs| && forall i :: 0 <= i < ceiling ==> pairs[|kids0| + i] == (i, ceiling)
    requires mode == InPlace ==> Distinct(ranked)
    requires forall k :: 0 <= k < |recs| ==> |recs[k]| == WeightCount(shape)
    requires Holding(ranked, reports, shape, mode, recs, made0, 0, ceiling)
    requires Progress(kids0, starts0, made0, ranked, pairs, reports, shape, mode, recs, random, origin, pos)
    requires forall net {:trigger Sound(net)} :: net in reports ==> Sound(net)
    requires forall net {:trigger net.ViewNodes()} :: net in reports ==> net.ViewNodes() == reports[net].nodes
    requires forall net {:trigger net.ViewWeights()} :: net in reports ==> net.ViewWeights() == reports[net].weights
    modifies ranked`cache, (set k | 0 <= k < |ranked| :: ranked[k].cache)`weights
    modifies (set k, l | 0 <= k < |ranked| && l in ranked[k].LayerSet :: l)`pointer
    ensures |kids| == if have + |kids0| + ceiling < count then |kids0| + ceiling else count - have
    ensures stop <= ceiling && |kids| == |kids0| + stop && |made| == |made0| + stop
    ensures Preserves(reports', reports, ranked)
    ensures Holding(ranked, reports', shape, mode, recs, made, stop, ceiling)
    ensures Progress(kids, starts, made, ranked, pairs, reports', shape, mode, recs, random, origin, next)
    ensures forall net {:trigger Sound(net)} :: net in reports' ==> Sound(net)
    ensures forall net {:trigger net.ViewNodes()} :: net in reports' ==> net.ViewNodes() == reports'[net].nodes
    ensures forall net {:trigger net.ViewWeights()} :: net in reports' ==> net.ViewWeights() == reports'[net].weights
    ensures forall k :: 0 <= k < |ranked| ==> ranked[k].cache == old(ranked[k].cache) || fresh(ranked[k].cache)
    ensures forall k :: 0 <= k < |kids| ==> (k < |kids0| && kids[k] == kids0[k]) || (|kids0| <= k && fresh(kids[k]))
  {
    kids, next, reports', starts, made := kids0, pos, reports, starts0, made0;
    var i := 0;
    while i < ceiling && have + |kids| < count
      invariant i <= ceiling && have + |kids| <= count && |kids| == |kids0| + i && |made| == |made0| + i
      invariant Preserves(reports', reports, ranked)
      invariant Holding(ranked, reports', shape, mode, recs, made, i, ceiling)
      invariant Progress(kids, starts, made, ranked, pairs, reports', shape, mode, recs, random, origin, next)
      invariant forall net {:trigger Sound(net)} :: net in reports' ==> Sound(net)
      invariant forall net {:trigger net.ViewNodes()} :: net in reports' ==> net.ViewNodes() == reports'[net].nodes
      invariant forall net {:trigger net.ViewWeights()} :: net in reports' ==> net.ViewWeights() == reports'[net].weights
      invariant forall k :: 0 <= k < |ranked| ==> ranked[k].cache == old(ranked[k].cache) || fresh(ranked[k].cache)
      invariant forall k :: 0 <= k < |kids| ==> (k < |kids0| && kids[k] == kids0[k]) || (|kids0| <= k && fresh(kids[k]))
    {
      ghost var at := next;
      ghost var w;
      var child;
      child, next, reports', w := BreedPair(ranked, pairs, |kids0|, i, ceiling, kids, starts, made, origin, mode, random, next,
                                            reports', shape, recs);
      kids, starts, made := kids + [child], starts + [at], made + [w];
      i := i + 1;
    }
    stop := i;
  }

  /** Once row `c` is done, the ranked networks hold what they hold before row `c + 1` starts. */
  lemma NextRow(ranked: seq<NeuralNetwork>, reports: map<NeuralNetwork, Report>, shape: seq<nat>, mode: BreedMode,
                recs: seq<seq<real>>, made: seq<seq<real>>, c: nat)
    requires Holding(ranked, reports, shape, mode, recs, made, c, c)
    ensures Holding(ranked, reports, shape, mode, recs, made, 0, c + 1)
  {
    forall k | 0 <= k < |ranked|
      ensures reports[ranked[k]] == Report(shape, Held(recs, made, mode, k, 0, c + 1))
    {
      assert Held(recs, made, mode, k, c, c) == Held(recs, made, mode, k, 0, c + 1);
    }
  }

  /**
   * The double loop of `next`: for `ceiling = 1, 2, ...` and `i < ceiling`,
   * breeds `ranked[i]` with `ranked[ceiling]` while the generation, which
   * holds `have` networks before the children, is short of `count`. It
   * stops once the first `stop` pairs of row `row` are bred; every ranked
   * network then reports what `Held` says of that point. The children draw
   * one after the other from `pos` on, and `next` is where their draws end.
   */
  method BreedAll(ranked: seq<NeuralNetwork>, count: nat, have: nat, mode: BreedMode,
                  random: Stream, pos: nat, ghost reports: map<NeuralNetwork, Report>,
                  ghost shape: seq<nat>, ghost recs: seq<seq<real>>)
    returns (kids: seq<NeuralNetwork>, next: nat, ghost reports': map<NeuralNetwork, Report>,
             ghost starts: seq<nat>, ghost made: seq<seq<real>>, ghost stop: nat, ghost row: nat)
    requires count <= |ranked| == |recs| && have <= count
    requires mode == InPlace ==> Distinct(ranked)
    requires forall k :: 0 <= k < |ranked| ==>
      ranked[k] in reports && reports[ranked[k]] == Report(shape, recs[k]) && |recs[k]| == WeightCount(shape)
    requires forall net {:trigger Sound(net)} :: net in reports ==> Sound(net)
    requires forall net {:trigger net.ViewNodes()} :: net in reports ==> net.ViewNodes() == reports[net].nodes
    requires forall net {:trigger net.ViewWeights()} :: net in reports ==> net.ViewWeights() == reports[net].weights
    modifies ranked`cache, (set k | 0 <= k < |ranked| :: ranked[k].cache)`weights
    modifies (set k, l | 0 <= k < |ranked| && l in ranked[k].LayerSet :: l)`pointer
    ensures |kids| == if have + |Pairs(count)| < count then |Pairs(count)| else count - have
    ensures stop < row <= |made| + 1 && |made| == |Pairs(row)| + stop
    ensures Preserves(reports', reports, ranked)
    ensures Holding(ranked, reports', shape, mode, recs, made, stop, row)
    ensures forall net {:trigger Sound(net)} :: net in reports' ==> Sound(net)
    ensures forall net {:trigger net.ViewNodes()} :: net in reports' ==> net.ViewNodes() == reports'[net].nodes
    ensures forall net {:trigger net.ViewWeights()} :: net in reports' ==> net.ViewWeights() == reports'[net].weights
    ensures forall k :: 0 <= k < |kids| ==> fresh(kids[k])
    ensures Progress(kids, starts, made, ranked, Pairs(count), reports', shape, mode, recs, random, pos, next)
  {
    kids, next, reports', starts, made := [], pos, reports, [], [];
    stop, row := 0, 1;
    var ceiling := 1;
    while ceiling < count && have + |kids| < count
      invariant 1 <= ceiling && (count >= 1 ==> ceiling <= count) && |Pairs(ceiling)| <= |Pairs(count)|
      invariant |kids| == if have + |Pairs(ceiling)| < count then |Pairs(ceiling)| else count - have
      invariant stop < row <= |made| + 1 && |made| == |Pairs(row)| + stop && |made| == |kids|
      invariant have + |kids| < count ==> stop == 0 && row == ceiling
      invariant Preserves(reports', reports, ranked)
      invariant Holding(ranked, reports', shape, mode, recs, made, stop, row)
      invariant forall net {:trigger Sound(net)} :: net in reports' ==> Sound(net)
      invariant forall net {:trigger net.ViewNodes()} :: net in reports' ==> net.ViewNodes() == reports'[net].nodes
      invariant forall net {:trigger net.ViewWeights()} :: net in reports' ==> net.ViewWeights() == reports'[net].weights
      invariant forall k :: 0 <= k < |ranked| ==> ranked[k].cache == old(ranked[k].cache) || fresh(ranked[k].cache)
      invariant forall k :: 0 <= k < |kids| ==> fresh(kids[k])
      invariant Progress(kids, starts, made, ranked, Pairs(count), reports', shape, mode, recs, random, pos, next)
    {
      RowInPairs(ceiling, count);
      PairsPrefix(ceiling + 1, count);
      assert |Pairs(ceiling + 1)| == |Pairs(ceiling)| + ceiling;
      ghost var done;
      kids, next, reports', starts, made, done := BreedRow(ranked, Pairs(count), count, ceiling, have, kids, starts, made, pos,
                                                           mode, random, next, reports', shape, recs);
      if done == ceiling {
        NextRow(ranked, reports', shape, mode, recs, made, ceiling);
        stop, row := 0, ceiling + 1;
      } else {
        stop, row := done, ceiling;
      }
      ceiling := ceiling + 1;
    }
  }

  /**
   * The first loop of `next`: the `Math.round(0.2 * count)` best-ranked
   * networks, pushed while the generation has room, which it always has.
   */
  method KeepElites(ranked: seq<NeuralNetwork>, count: nat) returns (nextGen: seq<NeuralNetwork>)
    requires Fifth(count) <= |ranked|
    ensures nextGen == ranked[..Fifth(count)] && |nextGen| <= count
  {
    if count >= 1 {
      FifthsBelow(count);
    }
    nextGen := [];
    for i := 0 to Fifth(count)
      invariant nextGen == ranked[..i]
    {
      if |nextGen| < count {
        nextGen := nextGen + [ranked[i]];
      }
    }
  }

  /**
   * The second loop of `next`: `Math.round(0.2 * count)` times, while the
   * generation has room, a new network of the default shape `[2, [2], 1]`,
   * each drawing its six weights after the ones before it.
   */
  method AddNewcomers(nextGen: seq<NeuralNetwork>, count: nat, random: Stream, pos: nat,
                      ghost reports: map<NeuralNetwork, Report>)
    returns (grown: seq<NeuralNetwork>, next: nat, ghost reports': map<NeuralNetwork, Report>)
    requires |nextGen| <= count
    requires forall net {:trigger Sound(net)} :: net in reports ==> Sound(net)
    requires forall net {:trigger net.ViewNodes()} :: net in reports ==> net.ViewNodes() == reports[net].nodes
    requires forall net {:trigger net.ViewWeights()} :: net in reports ==> net.ViewWeights() == reports[net].weights
    ensures |grown| == if |nextGen| + Fifth(count) < count then |nextGen| + Fifth(count) else count
    ensures grown[..|nextGen|] == nextGen && next == pos + 6 * (|grown| - |nextGen|)
    ensures Extends(reports', reports) && Distinct(grown[|nextGen|..])
    ensures forall net {:trigger Sound(net)} :: net in reports' ==> Sound(net)
    ensures forall net {:trigger net.ViewNodes()} :: net in reports' ==> net.ViewNodes() == reports'[net].nodes
    ensures forall net {:trigger net.ViewWeights()} :: net in reports' ==> net.ViewWeights() == reports'[net].weights
    ensures forall k :: |nextGen| <= k < |grown| ==>
      fresh(grown[k]) && grown[k] !in reports && grown[k] in reports' &&
      reports'[grown[k]] == Report(DefaultSizes(), Draws(random, pos + 6 * (k - |nextGen|), 6))
  {
    grown, next, reports' := nextGen, pos, reports;
    for i := 0 to Fifth(count)
      invariant |grown| == if |nextGen| + i < count then |nextGen| + i else count
      invariant grown[..|nextGen|] == nextGen && next == pos + 6 * (|grown| - |nextGen|)
      invariant Extends(reports', reports) && Distinct(grown[|nextGen|..])
      invariant forall net {:trigger Sound(net)} :: net in reports' ==> Sound(net)
      invariant forall net {:trigger net.ViewNodes()} :: net in reports' ==> net.ViewNodes() == reports'[net].nodes
      invariant forall net {:trigger net.ViewWeights()} :: net in reports' ==> net.ViewWeights() == reports'[net].weights
      invariant forall k :: |nextGen| <= k < |grown| ==>
        fresh(grown[k]) && grown[k] !in reports && grown[k] in reports' &&
        reports'[grown[k]] == Report(DefaultSizes(), Draws(random, pos + 6 * (k - |nextGen|), 6))
    {
      if |grown| < count {
        var newcomer := new NeuralNetwork(2, [2], 1, random, next);
        ghost var report := Report(newcomer.ViewNodes(), newcomer.ViewWeights());
        assert report == Report(DefaultSizes(), Draws(random, next, 6));
        reports' := reports'[newcomer := report];
        DistinctAppend(grown[|nextGen|..], newcomer);
        assert (grown + [newcomer])[|nextGen|..] == grown[|nextGen|..] + [newcomer];
        grown, next := grown + [newcomer], next + 6;
      }
    }
  }

  /** The scores `rank` sorts by: each network's fitness. */
  function Fitnesses(population: seq<NeuralNetwork>): (scores: seq<real>)
    reads population
    ensures |scores| == |population| && forall k :: 0 <= k < |population| ==> scores[k] == population[k].fitness
  {
    seq(|population|, k reads population requires 0 <= k < |population| => population[k].fitness)
  }

  /**
   * The first `Fifth(count)` members of `nextGen` are the best ranked
   * networks, each reporting what `Held` says it holds once breeding has
   * stopped after the first `stop` pairs of row `row`: its starting record
   * in the compiled JavaScript, the weights of the last child it bred as
   * parent one, if any, in the TypeScript.
   */
  ghost predicate ElitesKept(nextGen: seq<NeuralNetwork>, ranked: seq<NeuralNetwork>, count: nat,
                             reports: map<NeuralNetwork, Report>, shape: seq<nat>, mode: BreedMode,
                             recs: seq<seq<real>>, made: seq<seq<real>>, stop: nat, row: nat)
  {
    stop <= |made| && row <= |made| + 1 &&
    forall k :: 0 <= k < |nextGen| && k < Fifth(count) ==>
      k < |ranked| && k < |recs| && nextGen[k] == ranked[k] && nextGen[k] in reports &&
      reports[nextGen[k]] == Report(shape, Held(recs, made, mode, k, stop, row))
  }

  /** The next `Fifth(count)` members are default networks with six draws each, from `pos` on. */
  ghost predicate NewcomersDrawn(nextGen: seq<NeuralNetwork>, count: nat, reports: map<NeuralNetwork, Report>,
                                 random: Stream, pos: nat)
  {
    forall k :: Fifth(count) <= k < |nextGen| && k < 2 * Fifth(count) ==>
      nextGen[k] in reports && reports[nextGen[k]] == Report(DefaultSizes(), Draws(random, pos + 6 * (k - Fifth(count)), 6))
  }

  /**
   * Member `2 * Fifth(count) + t` is the child of the pair numbered `t` in
   * `Pairs(count)`, reporting the weights `made[t]`, bred with draws from
   * `starts[t]` on. The first child draws from `pos` on, each later one
   * right after the one before it, and the draws after the last child
   * start at `next` (which is `pos` if there is none).
   */
  ghost predicate KidsBred(nextGen: seq<NeuralNetwork>, count: nat, starts: seq<nat>, made: seq<seq<real>>,
                           reports: map<NeuralNetwork, Report>, shape: seq<nat>, mode: BreedMode,
                           recs: seq<seq<real>>, random: Stream, pos: nat, next: nat)
  {
    |starts| == |made| && (if starts == [] then next == pos else starts[0] == pos) &&
    forall t {:trigger PairAt(count, t)} :: 0 <= t < |starts| ==>
      && 2 * Fifth(count) + t < |nextGen| && t < |Pairs(count)|
      && var kid, pair := nextGen[2 * Fifth(count) + t], PairAt(count, t);
      && kid in reports && reports[kid] == Report(shape, made[t])
      && ChildOf(made[t], t, pair.0, pair.1, mode, recs, made, random, starts[t], Following(starts, next, t), shape)
  }

  /**
   * What `next()` puts in the new generation `nextGen`, given the ranked
   * last generation and `recs`, their weights in rank order: the elites,
   * then the newcomers, then the children, all cut off at `count`
   * networks. Breeding stopped after the first `stop` pairs of row `row`,
   * with the children's weights `made`; `reports` records what each member
   * reports. The newcomers draw from `pos` on, the children right after
   * them, and `next` is where the draws of `next()` end.
   */
  ghost predicate Assembled(nextGen: seq<NeuralNetwork>, ranked: seq<NeuralNetwork>, count: nat, starts: seq<nat>,
                            made: seq<seq<real>>, stop: nat, row: nat,
                            reports: map<NeuralNetwork, Report>, shape: seq<nat>, mode: BreedMode,
                            recs: seq<seq<real>>, random: Stream, pos: nat, next: nat)
  {
    && |ranked| == |recs|
    && |nextGen| == (if 2 * Fifth(count) + |Pairs(count)| < count then 2 * Fifth(count) + |Pairs(count)| else count)
    && |starts| == |nextGen| - 2 * Fifth(count)
    && stop < row && |made| == |Pairs(row)| + stop
    && (forall k :: 0 <= k < |nextGen| ==> nextGen[k] in reports)
    && ElitesKept(nextGen, ranked, count, reports, shape, mode, recs, made, stop, row)
    && NewcomersDrawn(nextGen, count, reports, random, pos)
    && KidsBred(nextGen, count, starts, made, reports, shape, mode, recs, random, pos + 6 * Fifth(count), next)
  }

  /** Elites taken from the front of the ranking stay at the front whatever follows them. */
  lemma KeptElites(ranked: seq<NeuralNetwork>, count: nat, elites: seq<NeuralNetwork>, grown: seq<NeuralNetwork>,
                   kids: seq<NeuralNetwork>, reports': map<NeuralNetwork, Report>, shape: seq<nat>, mode: BreedMode,
                   recs: seq<seq<real>>, made: seq<seq<real>>, stop: nat, row: nat)
    requires |ranked| == |recs| && Fifth(count) <= |ranked| && stop <= |made| && row <= |made| + 1
    requires forall k :: 0 <= k < |ranked| ==>
      ranked[k] in reports' && reports'[ranked[k]] == Report(shape, Held(recs, made, mode, k, stop, row))
    requires elites == ranked[..Fifth(count)] && |elites| <= |grown| && grown[..|elites|] == elites
    ensures ElitesKept(grown + kids, ranked, count, reports', shape, mode, recs, made, stop, row)
  {
    forall k | 0 <= k < |grown + kids| && k < Fifth(count)
      ensures (grown + kids)[k] == ranked[k]
    {
      assert (grown + kids)[k] == grown[k] == elites[k];
    }
  }

  /** Newcomers appended after the elites stay where they are whatever follows them. */
  lemma DrewNewcomers(ranked: seq<NeuralNetwork>, elites: seq<NeuralNetwork>, grown: seq<NeuralNetwork>,
                      kids: seq<NeuralNetwork>, count: nat,
                      reports1: map<NeuralNetwork, Report>, reports': map<NeuralNetwork, Report>,
                      random: Stream, pos: nat)
    requires |elites| == Fifth(count) <= |grown| && (|grown| < 2 * Fifth(count) ==> kids == [])
    requires forall k :: |elites| <= k < |grown| ==>
      grown[k] in reports1 && grown[k] !in ranked &&
      reports1[grown[k]] == Report(DefaultSizes(), Draws(random, pos + 6 * (k - |elites|), 6))
    requires Preserves(reports', reports1, ranked)
    ensures NewcomersDrawn(grown + kids, count, reports', random, pos)
  {
    forall k | Fifth(count) <= k < |grown + kids| && k < 2 * Fifth(count)
      ensures (grown + kids)[k] == grown[k]
    {
    }
  }

  /** Children bred after the elites and newcomers are recorded at the positions that follow them. */
  lemma PlacedKids(grown: seq<NeuralNetwork>, kids: seq<NeuralNetwork>, starts: seq<nat>, made: seq<seq<real>>,
                   count: nat, reports: map<NeuralNetwork, Report>, shape: seq<nat>, mode: BreedMode,
                   recs: seq<seq<real>>, random: Stream, pos: nat, next: nat)
    requires kids != [] ==> |grown| == 2 * Fifth(count)
    requires Bred(kids, starts, made, Pairs(count), reports, shape, mode, recs, random, pos, next)
    ensures KidsBred(grown + kids, count, starts, made, reports, shape, mode, recs, random, pos, next)
  {
    forall t | 0 <= t < |starts|
      ensures 2 * Fifth(count) + t < |grown + kids| && t < |Pairs(count)|
      ensures (grown + kids)[2 * Fifth(count) + t] == kids[t]
      ensures ChildOf(made[t], t, PairAt(count, t).0, PairAt(count, t).1, mode, recs, made, random, starts[t],
                      Following(starts, next, t), shape)
    {
      assert |grown| == 2 * Fifth(count) && (grown + kids)[|grown| + t] == kids[t];
      var pair, end := PairAt(count, t), Following(starts, next, t);
      assert ChildOf(made[t], t, pair.0, pair.1, mode, recs, made, random, starts[t], end, shape);
    }
  }

  /** Three runs without repeats, none holding a member of an earlier one, make one run without repeats. */
  lemma DistinctJoin(elites: seq<NeuralNetwork>, newcomers: seq<NeuralNetwork>, kids: seq<NeuralNetwork>)
    requires Distinct(elites) && Distinct(newcomers) && Distinct(kids)
    requires forall k :: 0 <= k < |newcomers| ==> newcomers[k] !in elites
    requires forall t :: 0 <= t < |kids| ==> kids[t] !in elites && kids[t] !in newcomers
    ensures Distinct(elites + newcomers + kids)
  {
    var all := elites + newcomers + kids;
    forall i, j | 0 <= i < j < |all|
      ensures all[i] != all[j]
    {
      var e, n := |elites|, |elites| + |newcomers|;
      if j < e {
        assert all[i] == elites[i] && all[j] == elites[j];
      } else if j < n {
        assert all[j] == newcomers[j - e];
        if i < e {
          assert all[i] == elites[i];
        } else {
          assert all[i] == newcomers[i - e];
        }
      } else {
        assert all[j] == kids[j - n];
        if i < e {
          assert all[i] == elites[i];
        } else if i < n {
          assert all[i] == newcomers[i - e];
        } else {
          assert all[i] == kids[i - n];
        }
      }
    }
  }

  /**
   * The elites, the newcomers after them and the children after those
   * make up the generation `Assembled` describes.
   */
  lemma Assembling(ranked: seq<NeuralNetwork>, count: nat, elites: seq<NeuralNetwork>, grown: seq<NeuralNetwork>,
                   kids: seq<NeuralNetwork>, starts: seq<nat>, made: seq<seq<real>>, stop: nat, row: nat,
                   reports: map<NeuralNetwork, Report>, reports1: map<NeuralNetwork, Report>,
                   reports': map<NeuralNetwork, Report>,
                   shape: seq<nat>, mode: BreedMode, recs: seq<seq<real>>, random: Stream, pos: nat, next: nat)
    requires count <= |ranked| == |recs|
    requires forall k :: 0 <= k < |ranked| ==> ranked[k] in reports
    requires elites == ranked[..Fifth(count)]
    requires |grown| == if |elites| + Fifth(count) < count then |elites| + Fifth(count) else count
    requires grown[..|elites|] == elites && Extends(reports1, reports)
    requires forall k :: |elites| <= k < |grown| ==>
      grown[k] !in reports && grown[k] in reports1 &&
      reports1[grown[k]] == Report(DefaultSizes(), Draws(random, pos + 6 * (k - |elites|), 6))
    requires |kids| == if |grown| + |Pairs(count)| < count then |Pairs(count)| else count - |grown|
    requires stop < row <= |made| + 1 && |made| == |Pairs(row)| + stop
    requires Preserves(reports', reports1, ranked)
    requires Holding(ranked, reports', shape, mode, recs, made, stop, row)
    requires Progress(kids, starts, made, ranked, Pairs(count), reports', shape, mode, recs, random,
                      pos + 6 * Fifth(count), next)
    ensures Assembled(grown + kids, ranked, count, starts, made, stop, row, reports', shape, mode, recs, random, pos, next)
  {
    if count >= 1 {
      FifthsBelow(count);
    }
    forall k | |elites| <= k < |grown|
      ensures grown[k] !in ranked
    {
    }
    forall k | 0 <= k < |grown|
      ensures grown[k] in reports'
    {
      if k < |elites| {
        assert grown[k] == elites[k] == ranked[k];
      }
    }
    forall k | 0 <= k < |grown + kids|
      ensures (grown + kids)[k] in reports'
    {
      if k >= |grown| {
        assert (grown + kids)[k] == kids[k - |grown|];
      }
    }
    KeptElites(ranked, count, elites, grown, kids, reports', shape, mode, recs, made, stop, row);
    DrewNewcomers(ranked, elites, grown, kids, count, reports1, reports', random, pos);
    PlacedKids(grown, kids, starts, made, count, reports', shape, mode, recs, random, pos + 6 * Fifth(count), next);
  }

  /**
   * Draws that start at `from` and run in stretches, stretch `t` starting at
   * `starts[t]`, ending where the next one starts (the last one at `next`)
   * and at least `gap` long, follow each other in order, all of them after
   * `from` and before `next`.
   */
  lemma {:induction false} DrawChain(starts: seq<nat>, next: nat, from: nat, gap: nat)
    requires if starts == [] then next == from else starts[0] == from
    requires forall t :: 0 <= t < |starts| ==> starts[t] + gap <= Following(starts, next, t)
    ensures from <= next
    ensures forall t :: 0 <= t < |starts| ==> from <= starts[t] && starts[t] + gap <= next
    ensures forall t, u :: 0 <= t < u < |starts| ==> starts[t] + gap <= starts[u]
  {
    if starts != [] {
      var n := |starts| - 1;
      var prefix, last := starts[..n], starts[n];
      forall t | 0 <= t < |prefix|
        ensures prefix[t] + gap <= Following(prefix, last, t)
      {
        assert prefix[t] == starts[t] && Following(prefix, last, t) == Following(starts, next, t);
      }
      assert Following(starts, next, n) == next;
      DrawChain(prefix, last, from, gap);
      forall t, u | 0 <= t < u < |starts|
        ensures starts[t] + gap <= starts[u]
      {
        if u < n {
          assert prefix[t] == starts[t] && prefix[u] == starts[u];
        } else {
          assert prefix[t] == starts[t] || t == n;
        }
      }
    }
  }

  /**
   * The children of `next()` draw after the newcomers, in the order they
   * are bred, each from a stretch of its own that holds at least the six
   * draws of `new NeuralNetwork()` and the one per weight of the layer
   * sizes `shape` of `persist`. The draws of `next()` end at `next`, after
   * all of them.
   */
  lemma ChildDraws(nextGen: seq<NeuralNetwork>, ranked: seq<NeuralNetwork>, count: nat, starts: seq<nat>,
                   made: seq<seq<real>>, stop: nat, row: nat,
                   reports: map<NeuralNetwork, Report>, shape: seq<nat>, mode: BreedMode,
                   recs: seq<seq<real>>, random: Stream, pos: nat, next: nat)
    requires Assembled(nextGen, ranked, count, starts, made, stop, row, reports, shape, mode, recs, random, pos, next)
    ensures pos + 6 * Fifth(count) <= next
    ensures forall t :: 0 <= t < |starts| ==>
      pos + 6 * Fifth(count) <= starts[t] && starts[t] + 6 + WeightCount(shape) <= next
    ensures forall t, u :: 0 <= t < u < |starts| ==> starts[t] + 6 + WeightCount(shape) <= starts[u]
  {
    var from, gap := pos + 6 * Fifth(count), 6 + WeightCount(shape);
    assert KidsBred(nextGen, count, starts, made, reports, shape, mode, recs, random, from, next);
    forall t | 0 <= t < |starts|
      ensures starts[t] + gap <= Following(starts, next, t)
    {
      var pair := PairAt(count, t);
      assert ChildOf(made[t], t, pair.0, pair.1, mode, recs, made, random, starts[t], Following(starts, next, t), shape);
    }
    DrawChain(starts, next, from, gap);
  }

  /** In a generation `Assembled` from networks of one shape, every member has that shape or the default one. */
  lemma AssembledShapes(nextGen: seq<NeuralNetwork>, ranked: seq<NeuralNetwork>, count: nat, starts: seq<nat>,
                        made: seq<seq<real>>, stop: nat, row: nat,
                        reports: map<NeuralNetwork, Report>, shape: seq<nat>, mode: BreedMode,
                        recs: seq<seq<real>>, random: Stream, pos: nat, next: nat)
    requires Assembled(nextGen, ranked, count, starts, made, stop, row, reports, shape, mode, recs, random, pos, next)
    ensures forall k :: 0 <= k < |nextGen| ==>
      nextGen[k] in reports && (reports[nextGen[k]].nodes == shape || reports[nextGen[k]].nodes == DefaultSizes())
  {
    var f := Fifth(count);
    assert ElitesKept(nextGen, ranked, count, reports, shape, mode, recs, made, stop, row);
    assert NewcomersDrawn(nextGen, count, reports, random, pos);
    assert KidsBred(nextGen, count, starts, made, reports, shape, mode, recs, random, pos + 6 * Fifth(count), next);
    forall k | 0 <= k < |nextGen|
      ensures reports[nextGen[k]].nodes == shape || reports[nextGen[k]].nodes == DefaultSizes()
    {
      if k < f {
        assert nextGen[k] == ranked[k];
        assert k < |ranked| && reports[nextGen[k]] == Report(shape, Held(recs, made, mode, k, stop, row));
      } else if k < 2 * f {
        assert reports[nextGen[k]] == Report(DefaultSizes(), Draws(random, pos + 6 * (k - f), 6));
      } else {
        var t := k - 2 * f;
        assert 0 <= t < |starts| && nextGen[2 * f + t] == nextGen[k];
        assert t < |Pairs(count)| && PairAt(count, t) == Pairs(count)[t];
        assert reports[nextGen[2 * f + t]] == Report(shape, made[t]);
      }
    }
  }

  /**
   * Elites taken from a ranking without repeats, newcomers new to the
   * herd and children new to it after them make a generation without
   * repeats.
   */
  lemma JoinedDistinct(ranked: seq<NeuralNetwork>, elites: seq<NeuralNetwork>, grown: seq<NeuralNetwork>,
                       kids: seq<NeuralNetwork>, reports: map<NeuralNetwork, Report>, reports1: map<NeuralNetwork, Report>)
    requires Distinct(ranked) && |elites| <= |ranked| && elites == ranked[..|elites|]
    requires |elites| <= |grown| && grown[..|elites|] == elites && Distinct(grown[|elites|..])
    requires forall k :: 0 <= k < |ranked| ==> ranked[k] in reports
    requires Extends(reports1, reports)
    requires forall k :: |elites| <= k < |grown| ==> grown[k] !in reports && grown[k] in reports1
    requires Distinct(kids) && forall t :: 0 <= t < |kids| ==> kids[t] !in reports1
    ensures Distinct(grown + kids)
  {
    var newcomers := grown[|elites|..];
    assert grown == elites + newcomers;
    assert Distinct(elites) by {
      forall i, j | 0 <= i < j < |elites|
        ensures elites[i] != elites[j]
      {
        assert elites[i] == ranked[i] && elites[j] == ranked[j];
      }
    }
    forall k | 0 <= k < |newcomers|
      ensures newcomers[k] !in elites
    {
      assert newcomers[k] == grown[|elites| + k] && newcomers[k] !in reports;
    }
    forall t | 0 <= t < |kids|
      ensures kids[t] !in elites && kids[t] !in newcomers
    {
    }
    DistinctJoin(elites, newcomers, kids);
  }

  /**
   * `next()` once the last generation is ranked: the elites, then new
   * default networks, then the children, as `Assembled` describes, until
   * the generation holds `count` networks. `reports` records what the
   * ranked networks report beforehand and `recs` their weights in rank
   * order; `reports'` records what each network reports afterwards. In
   * the TypeScript breeding changes parent one in place, which the model
   * follows rank by rank, so there no network may be ranked twice.
   */
  method Assemble(ranked: seq<NeuralNetwork>, count: nat, mode: BreedMode, random: Stream, pos: nat,
                  ghost reports: map<NeuralNetwork, Report>, ghost shape: seq<nat>, ghost recs: seq<seq<real>>)
    returns (nextGen: seq<NeuralNetwork>, next: nat, ghost reports': map<NeuralNetwork, Report>, ghost starts: seq<nat>,
             ghost made: seq<seq<real>>, ghost stop: nat, ghost row: nat)
    requires count <= |ranked| == |recs|
    requires mode == InPlace ==> Distinct(ranked)
    requires forall k :: 0 <= k < |ranked| ==>
      ranked[k] in reports && reports[ranked[k]] == Report(shape, recs[k]) && |recs[k]| == WeightCount(shape)
    requires forall net {:trigger Sound(net)} :: net in reports ==> Sound(net)
    requires forall net {:trigger net.ViewNodes()} :: net in reports ==> net.ViewNodes() == reports[net].nodes
    requires forall net {:trigger net.ViewWeights()} :: net in reports ==> net.ViewWeights() == reports[net].weights
    modifies ranked`cache, (set k | 0 <= k < |ranked| :: ranked[k].cache)`weights
    modifies (set k, l | 0 <= k < |ranked| && l in ranked[k].LayerSet :: l)`pointer
    ensures Assembled(nextGen, ranked, count, starts, made, stop, row, reports', shape, mode, recs, random, pos, next)
    ensures forall k :: Fifth(count) <= k < |nextGen| ==> fresh(nextGen[k])
    ensures Distinct(ranked) ==> Distinct(nextGen)
    ensures forall net {:trigger Sound(net)} :: net in reports' ==> Sound(net)
    ensures forall net {:trigger net.ViewNodes()} :: net in reports' ==> net.ViewNodes() == reports'[net].nodes
    ensures forall net {:trigger net.ViewWeights()} :: net in reports' ==> net.ViewWeights() == reports'[net].weights
  {
    if count >= 1 {
      FifthsBelow(count);
    }
    var elites := KeepElites(ranked, count);
    var grown;
    ghost var reports1;
    grown, next, reports1 := AddNewcomers(elites, count, random, pos, reports);
    var kids;
    kids, next, reports', starts, made, stop, row := BreedAll(ranked, count, |grown|, mode, random, next, reports1, shape, recs);
    nextGen := grown + kids;
    Assembling(ranked, count, elites, grown, kids, starts, made, stop, row, reports, reports1, reports',
               shape, mode, recs, random, pos, next);
    assert |elites| == Fifth(count);
    forall k | |elites| <= k < |nextGen|
      ensures fresh(nextGen[k])
    {
      if k < |grown| {
        assert nextGen[k] == grown[k];
      } else {
        assert nextGen[k] == kids[k - |grown|];
      }
    }
    if Distinct(ranked) {
      forall t | 0 <= t < |kids|
        ensures kids[t] !in reports1
      {
      }
      JoinedDistinct(ranked, elites, grown, kids, reports, reports1);
    }
  }

  /** A sequence holds no network twice exactly when its multiset counts each at most once. */
  lemma {:induction false} DistinctCounts(s: seq<NeuralNetwork>)
    ensures Distinct(s) <==> forall net :: multiset(s)[net] <= 1
  {
    if s != [] {
      var p, x := s[..|s| - 1], s[|s| - 1];
      assert s == p + [x];
      DistinctCounts(p);
      if Distinct(s) {
        assert Distinct(p) by {
          forall i, j | 0 <= i < j < |p|
            ensures p[i] != p[j]
          {
            assert p[i] == s[i] && p[j] == s[j];
          }
        }
        assert x !in p by {
          forall i | 0 <= i < |p|
            ensures p[i] != x
          {
            assert p[i] == s[i];
          }
        }
      } else {
        var i, j :| 0 <= i < j < |s| && s[i] == s[j];
        if j < |p| {
          assert p[i] == s[i] && p[j] == s[j];
          assert !Distinct(p);
          var net :| multiset(p)[net] > 1;
          assert multiset(s)[net] > 1;
        } else {
          assert p[i] == x;
          assert multiset(s)[x] > 1;
        }
      }
    }
  }

  /**
   * `next()`: the last generation `last` is ranked by fitness, best first,
   * and the next generation of `count` networks is assembled from it.
   * `mode` says whether breeding changes parent one's record (the
   * TypeScript), which needs `last` to hold no network twice, or a copy of
   * it (the compiled JavaScript). `recs` lists the ranked networks' weights
   * as they were, `reports'` what every member of the new generation
   * reports afterwards, child `t` draws from `starts[t]` on and has the
   * weights `made[t]`, and breeding stops after the first `stop` pairs of
   * row `row`. The draws of `next()` run from `pos`, newcomers first, to
   * `next`. A last generation without repeats gives a next one without
   * repeats.
   */
  method Next(last: seq<NeuralNetwork>, count: nat, mode: BreedMode, random: Stream, pos: nat, ghost shape: seq<nat>)
    returns (nextGen: seq<NeuralNetwork>, next: nat,
             ghost reports': map<NeuralNetwork, Report>, ghost recs: seq<seq<real>>, ghost starts: seq<nat>,
             ghost made: seq<seq<real>>, ghost stop: nat, ghost row: nat)
    requires count <= |last|
    requires mode == InPlace ==> Distinct(last)
    requires forall net :: net in last ==> Sound(net) && net.ViewNodes() == shape
    modifies (set net | net in last)`cache, (set net | net in last :: net.cache)`weights
    modifies (set net, l | net in last && l in net.LayerSet :: l)`pointer
    ensures |recs| == |last|
    ensures forall k :: 0 <= k < |last| ==> recs[k] == old(Rank(last, Fitnesses(last), Descending)[k].ViewWeights())
    ensures Assembled(nextGen, old(Rank(last, Fitnesses(last), Descending)), count, starts, made, stop, row, reports',
                      shape, mode, recs, random, pos, next)
    ensures forall k :: Fifth(count) <= k < |nextGen| ==> fresh(nextGen[k])
    ensures Distinct(last) ==> Distinct(nextGen)
    ensures forall net {:trigger Sound(net)} :: net in reports' ==> Sound(net)
    ensures forall net {:trigger net.ViewNodes()} :: net in reports' ==> net.ViewNodes() == reports'[net].nodes
    ensures forall net {:trigger net.ViewWeights()} :: net in reports' ==> net.ViewWeights() == reports'[net].weights
  {
    var scores := Fitnesses(last);
    var ranked := Rank(last, scores, Descending);
    ghost var order := Order(scores, Descending, |last|);
    assert forall k :: 0 <= k < |ranked| ==> ranked[k] == last[order[k]] && ranked[k] in last;
    RankIsStableSort(last, scores, Descending);
    DistinctCounts(last);
    DistinctCounts(ranked);
    ghost var reports := map net | net in last :: Report(net.ViewNodes(), net.ViewWeights());
    recs := seq(|ranked|, k requires 0 <= k < |ranked| => reports[ranked[k]].weights);
    forall net | net in last
      ensures |net.ViewWeights()| == WeightCount(shape)
    {
      ViewCounts(net);
    }
    nextGen, next, reports', starts, made, stop, row := Assemble(ranked, count, mode, random, pos, reports, shape, recs);
  }
}
