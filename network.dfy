/**
 * The feed-forward network of dist/neural-network.js: a NeuralNetwork owns
 * its Layers, a Layer owns its Neurons and iterates over them with a
 * `pointer`, a Neuron holds a value and one weight per node of the layer
 * before it. The network caches its `{nodes, weights}` record.
 */
module Network {
  import opened Random
  import opened Topology

  /** The `{nodes, weights}` record: layer sizes and the flat weight list. */
  class DataRecord {
    var nodes: seq<nat>
    var weights: seq<real>
    /** The network whose cache this record is, if any; ghost bookkeeping. */
    ghost var owner: NeuralNetwork?

    constructor (nodes: seq<nat>, weights: seq<real>)
      ensures this.nodes == nodes && this.weights == weights
    {
      this.nodes := nodes;
      this.weights := weights;
    }
  }

  class Neuron {
    /** The last activation; undefined (unconstrained here) until `compute` sets it. */
    var value: real
    var weights: seq<real>
    /** The (layer, node) position the neuron was made for; ghost bookkeeping. */
    ghost var slot: (nat, nat)

    /** Draws `weightCount` weights `r * 2 - 1` in order, starting at draw `pos`. */
    constructor (weightCount: nat, random: Stream, pos: nat, ghost slot: (nat, nat))
      ensures weights == Draws(random, pos, weightCount) && this.slot == slot
    {
      var drawn: seq<real> := [];
      for i := 0 to weightCount
        invariant drawn == Draws(random, pos, i)
      {
        drawn := drawn + [RandomClamped(random(pos + i))];
      }
      weights := drawn;
      this.slot := slot;
    }

    /**
     * The inner loop of `persist`: each weight in turn becomes the next
     * entry of `flat`, starting at `index`; returns the index after them.
     */
    method Load(flat: seq<real>, index: nat) returns (next: nat)
      requires index + |weights| <= |flat|
      modifies this`weights
      ensures next == index + |old(weights)| && weights == flat[index..next]
    {
      next := index;
      for k := 0 to |weights|
        invariant next == index + k && |weights| == |old(weights)|
        invariant weights[..k] == flat[index..next]
      {
        weights := weights[k := flat[next]];
        next := next + 1;
      }
    }

    /** Stores and returns the activation of `sum`; the sigmoid is the parameter `activate`. */
    method Activate(sum: real, activate: real -> real) returns (v: real)
      modifies this`value
      ensures value == activate(sum) && v == value
    {
      value := activate(sum);
      v := value;
    }
  }

  /** The rows of weights a layer of `count` fresh neurons draws from position `pos`. */
  function DrawnRows(random: Stream, pos: nat, count: nat, fan: nat): (rows: seq<seq<real>>)
  {
    seq(count, k requires 0 <= k < count => Draws(random, pos + k * fan, fan))
  }

  /** A freshly drawn layer reads, row after row, as one run of draws. */
  lemma {:induction false} DrawnRowsConcat(random: Stream, pos: nat, count: nat, fan: nat)
    ensures Concat(DrawnRows(random, pos, count, fan)) == Draws(random, pos, count * fan)
    decreases count
  {
    var rows := DrawnRows(random, pos, count, fan);
    if count > 0 {
      var rest := DrawnRows(random, pos + fan, count - 1, fan);
      assert rows[1..] == rest by {
        forall k | 0 <= k < count - 1
          ensures rows[1..][k] == rest[k]
        {
          MulSucc(k + 1, fan);
        }
      }
      DrawnRowsConcat(random, pos + fan, count - 1, fan);
      DrawsSplit(random, pos, fan, (count - 1) * fan);
      MulSucc(count, fan);
    }
  }

  class Layer {
    /** The iterator's position. */
    var pointer: nat
    var nodes: seq<Neuron>
    /** The network the layer belongs to; ghost bookkeeping. */
    ghost var owner: NeuralNetwork?

    /** `nodeCount` fresh neurons, each drawing `inputCount` weights in turn. */
    constructor (nodeCount: nat, inputCount: nat, random: Stream, pos: nat, ghost index: nat)
      ensures pointer == 0 && |nodes| == nodeCount
      ensures forall k :: 0 <= k < nodeCount ==> fresh(nodes[k]) && nodes[k].slot == (index, k)
      ensures forall k :: 0 <= k < nodeCount ==>
                nodes[k].weights == DrawnRows(random, pos, nodeCount, inputCount)[k]
    {
      var built: seq<Neuron> := [];
      for i := 0 to nodeCount
        invariant |built| == i
        invariant forall k :: 0 <= k < i ==> fresh(built[k]) && built[k].slot == (index, k)
        invariant forall k :: 0 <= k < i ==>
                    built[k].weights == DrawnRows(random, pos, nodeCount, inputCount)[k]
      {
        var node := new Neuron(inputCount, random, pos + i * inputCount, (index, i));
        built := built + [node];
      }
      pointer := 0;
      nodes := built;
    }

    /**
     * `acc` followed by the weights of every node a pass yields, in order;
     * `rows` are those weights.
     */
    method AppendWeights(acc: seq<real>, ghost rows: seq<seq<real>>) returns (acc': seq<real>)
      requires pointer == 0 && |nodes| == |rows|
      requires forall k :: 0 <= k < |rows| ==> nodes[k].weights == rows[k]
      modifies this`pointer
      ensures pointer == 0 && acc' == acc + Concat(rows)
    {
      var yielded := Iterate();
      acc' := acc;
      for k := 0 to |yielded|
        invariant pointer == 0 && acc' == acc + Concat(rows[..k])
      {
        ConcatAppend(rows[..k], rows[k]);
        assert rows[..k + 1] == rows[..k] + [rows[k]];
        acc' := acc' + yielded[k].weights;
      }
      assert rows[..|yielded|] == rows;
    }

    /**
     * The `for (const node of layer)` pass of `persist`: every node's `fan`
     * weights in turn become the next entries of `flat`, starting at
     * `index`; `rows` are the weights the nodes end up with.
     */
    method Load(flat: seq<real>, index: nat, ghost fan: nat) returns (next: nat, ghost rows: seq<seq<real>>)
      requires pointer == 0
      requires forall k :: 0 <= k < |nodes| ==> |nodes[k].weights| == fan && nodes[k].slot.1 == k
      requires index + |nodes| * fan <= |flat|
      modifies this`pointer, (set k | 0 <= k < |nodes| :: nodes[k])`weights
      ensures pointer == 0 && next == index + |nodes| * fan
      ensures |rows| == |nodes| && Concat(rows) == flat[index..next]
      ensures forall k :: 0 <= k < |nodes| ==> nodes[k].weights == rows[k] && |rows[k]| == fan
    {
      var yielded := Iterate();
      next, rows := LoadNodes(yielded, flat, index, fan);
    }

    /** One step of the iterator protocol: the next node, or done (and back to the start). */
    method Next() returns (done: bool, value: Neuron?)
      modifies this`pointer
      ensures old(pointer) < |nodes| ==>
                !done && value == nodes[old(pointer)] && pointer == old(pointer) + 1
      ensures old(pointer) >= |nodes| ==> done && value == null && pointer == 0
    {
      if pointer < |nodes| {
        value := nodes[pointer];
        pointer := pointer + 1;
        done := false;
      } else {
        pointer := 0;
        done, value := true, null;
      }
    }

    /**
     * A `for (const node of layer)` pass: the nodes it yields, in order.
     * A pass started at 0 yields every node once and leaves the pointer at
     * 0, so the next pass yields the same nodes again.
     */
    method Iterate() returns (yielded: seq<Neuron>)
      modifies this`pointer
      ensures yielded == if old(pointer) <= |nodes| then nodes[old(pointer)..] else []
      ensures pointer == 0
    {
      ghost var start := pointer;
      yielded := [];
      var done, node := Next();
      while !done
        invariant done ==> pointer == 0 && yielded == if start <= |nodes| then nodes[start..] else []
        invariant !done ==> start < pointer <= |nodes| && node == nodes[pointer - 1]
                            && yielded == nodes[start..pointer - 1]
        decreases if done then 0 else |nodes| - pointer + 1
      {
        yielded := yielded + [node];
        done, node := Next();
      }
    }

    /** The values of the nodes a pass yields, in order. */
    method Values() returns (values: seq<real>)
      requires pointer == 0
      modifies this`pointer
      ensures pointer == 0 && |values| == |nodes|
      ensures forall k :: 0 <= k < |nodes| ==> values[k] == nodes[k].value
    {
      var yielded := Iterate();
      values := [];
      for j := 0 to |yielded|
        invariant |values| == j && forall k :: 0 <= k < j ==> values[k] == yielded[k].value
      {
        values := values + [yielded[j].value];
      }
    }
  }

  /**
   * The loop of `Layer.Load`: node `k` of `nodes` takes the `fan` entries
   * of `flat` from `index + k * fan` on.
   */
  method LoadNodes(nodes: seq<Neuron>, flat: seq<real>, index: nat, ghost fan: nat)
      returns (next: nat, ghost rows: seq<seq<real>>)
    requires forall k :: 0 <= k < |nodes| ==> |nodes[k].weights| == fan && nodes[k].slot.1 == k
    requires index + |nodes| * fan <= |flat|
    modifies (set k | 0 <= k < |nodes| :: nodes[k])`weights
    ensures next == index + |nodes| * fan
    ensures |rows| == |nodes| && Concat(rows) == flat[index..next]
    ensures forall k :: 0 <= k < |nodes| ==> nodes[k].weights == rows[k] && |rows[k]| == fan
  {
    next, rows := index, [];
    for j := 0 to |nodes|
      invariant |rows| == j && index <= next <= |flat|
      invariant Concat(rows) == flat[index..next]
      invariant forall k :: 0 <= k < |nodes| ==>
                  nodes[k].weights == if k < j then rows[k] else old(nodes[k].weights)
      invariant forall k :: 0 <= k < j ==> |rows[k]| == fan
    {
      ghost var before := next;
      assert next + fan <= |flat| by {
        ConcatLength(rows, fan);
        MulMono(j + 1, |nodes|, fan);
        MulSucc(j + 1, fan);
      }
      var node := nodes[j];
      assert forall k :: 0 <= k < |nodes| && k != j ==> nodes[k] != node;
      next := node.Load(flat, next);
      ConcatAppend(rows, nodes[j].weights);
      assert flat[index..next] == flat[index..before] + flat[before..next];
      rows := rows + [nodes[j].weights];
    }
    ConcatLength(rows, fan);
  }

  /** The neurons of a layer, as a set. */
  ghost function NodeSet(layer: Layer): set<Neuron>
    reads layer
  {
    set k | 0 <= k < |layer.nodes| :: layer.nodes[k]
  }

  /**
   * `layers` hold exactly the nested weights `w`: layer `l` has one neuron per
   * row of `w[l]`, whose weights are that row and whose slot is `(l, k)`, so
   * no neuron appears twice; the layers lie in `ls` and their neurons in
   * `ns`. Iterator positions and neuron values do not matter.
   */
  ghost predicate Realizes(layers: seq<Layer>, w: seq<seq<seq<real>>>, ls: set<Layer>, ns: set<Neuron>)
    reads ls`nodes, ns`weights, ns`slot
  {
    |layers| == |w| &&
    forall l :: 0 <= l < |layers| ==>
      layers[l] in ls && |layers[l].nodes| == |w[l]| &&
      forall k :: 0 <= k < |w[l]| ==>
        layers[l].nodes[k] in ns && layers[l].nodes[k].slot == (l, k) &&
        layers[l].nodes[k].weights == w[l][k]
  }

  lemma RealizesAppend(layers: seq<Layer>, w: seq<seq<seq<real>>>, ls: set<Layer>, ns: set<Neuron>,
                       layer: Layer, rows: seq<seq<real>>)
    requires Realizes(layers, w, ls, ns)
    requires layer !in ls && NodeSet(layer) !! ns && |layer.nodes| == |rows|
    requires forall k :: 0 <= k < |rows| ==>
               layer.nodes[k].slot == (|layers|, k) && layer.nodes[k].weights == rows[k]
    ensures Realizes(layers + [layer], w + [rows], ls + {layer}, ns + NodeSet(layer))
  {
    var layers', w', ls', ns' := layers + [layer], w + [rows], ls + {layer}, ns + NodeSet(layer);
    forall l | 0 <= l < |layers'|
      ensures layers'[l] in ls' && |layers'[l].nodes| == |w'[l]|
      ensures forall k :: 0 <= k < |w'[l]| ==>
                layers'[l].nodes[k] in ns' && layers'[l].nodes[k].slot == (l, k) &&
                layers'[l].nodes[k].weights == w'[l][k]
    {
      if l == |layers| {
        forall k | 0 <= k < |w'[l]|
          ensures layers'[l].nodes[k] in ns'
        {
          assert layer.nodes[k] in NodeSet(layer);
        }
      }
    }
  }

  /** Every layer's iterator is at its start. */
  ghost predicate AtRest(layers: seq<Layer>)
    reads layers`pointer
  {
    forall l :: 0 <= l < |layers| ==> layers[l].pointer == 0
  }

  /** The values of `nodes`, in order. */
  ghost function ValuesOf(nodes: seq<Neuron>, ns: set<Neuron>): (values: seq<real>)
    requires forall k :: 0 <= k < |nodes| ==> nodes[k] in ns
    reads ns`value
    ensures |values| == |nodes| && forall k :: 0 <= k < |nodes| ==> values[k] == nodes[k].value
    decreases |nodes|
  {
    if |nodes| == 0 then [] else ValuesOf(nodes[..|nodes| - 1], ns) + [nodes[|nodes| - 1].value]
  }

  /** A sequence holding the values of `nodes`, in order, is their `ValuesOf`. */
  lemma ValuesOfIs(values: seq<real>, nodes: seq<Neuron>, ns: set<Neuron>)
    requires |values| == |nodes|
    requires forall k :: 0 <= k < |nodes| ==> nodes[k] in ns && values[k] == nodes[k].value
    ensures values == ValuesOf(nodes, ns)
  {
  }

  /** The sum over k of x[k] * w[k], accumulated from the first index up. */
  function Dot(x: seq<real>, w: seq<real>): real
    requires |x| <= |w|
  {
    if |x| == 0 then 0.0 else Dot(x[..|x| - 1], w) + x[|x| - 1] * w[|x| - 1]
  }

  /** The element before position `i`. */
  function Previous<T>(s: seq<T>, i: nat): T
    requires 0 < i <= |s|
  {
    s[i - 1]
  }

  /** One value per row: the activation of the row's weighted sum of `previous`. */
  function Activations(previous: seq<real>, rows: seq<seq<real>>, activate: real -> real): (values: seq<real>)
    requires forall k :: 0 <= k < |rows| ==> |previous| <= |rows[k]|
  {
    seq(|rows|, k requires 0 <= k < |rows| => activate(Dot(previous, rows[k])))
  }

  /**
   * The node values of layer `l` after a forward pass on `inputs`: the
   * inputs themselves for the input layer, and for every later node the
   * activation of the weighted sum of the previous layer's values.
   */
  function LayerValues(w: seq<seq<seq<real>>>, inputs: seq<real>, activate: real -> real, l: nat): (values: seq<real>)
    requires l < |w|
    requires forall m, k {:trigger w[m][k]} :: 0 < m < |w| && 0 <= k < |w[m]| ==> |Previous(w, m)| <= |w[m][k]|
    requires |w[0]| == |inputs|
    ensures |values| == |w[l]|
    ensures l > 0 && (forall x :: 0.0 < activate(x) < 1.0) ==>
              forall k :: 0 <= k < |values| ==> 0.0 < values[k] < 1.0
    decreases l
  {
    if l == 0 then inputs
    else
      Activations(LayerValues(w, inputs, activate, l - 1), w[l], activate)
  }

  /** `LayerValues` for every layer, in order. */
  ghost function AllLayerValues(w: seq<seq<seq<real>>>, inputs: seq<real>, activate: real -> real): (vs: seq<seq<real>>)
    requires forall m, k {:trigger w[m][k]} :: 0 < m < |w| && 0 <= k < |w[m]| ==> |Previous(w, m)| <= |w[m][k]|
    requires |w| > 0 && |w[0]| == |inputs|
    ensures |vs| == |w| && vs[0] == inputs
    ensures forall l :: 0 <= l < |w| ==> vs[l] == LayerValues(w, inputs, activate, l) && |vs[l]| == |w[l]|
  {
    seq(|w|, l requires 0 <= l < |w| => LayerValues(w, inputs, activate, l))
  }

  /** Each layer's values are the activations of the layer before's. */
  lemma AllLayerValuesChain(w: seq<seq<seq<real>>>, inputs: seq<real>, activate: real -> real)
    requires forall m, k {:trigger w[m][k]} :: 0 < m < |w| && 0 <= k < |w[m]| ==> |Previous(w, m)| <= |w[m][k]|
    requires |w| > 0 && |w[0]| == |inputs|
    ensures var vs := AllLayerValues(w, inputs, activate);
      forall l :: 0 < l < |w| ==> vs[l] == Activations(Previous(vs, l), w[l], activate)
  {
  }

  /** In a network of conforming shape every weight row is as long as the layer before. */
  lemma ConformsFan(w: seq<seq<seq<real>>>, sizes: seq<nat>)
    requires Conforms(w, sizes)
    ensures forall m, k {:trigger w[m][k]} :: 0 < m < |w| && 0 <= k < |w[m]| ==> |Previous(w, m)| == |w[m][k]|
  {
  }

  class NeuralNetwork {
    var layers: seq<Layer>
    /** The cached `{nodes, weights}` record (`_data`). */
    var cache: DataRecord
    /** Assigned by the caller between generations; read by `rank`. */
    var fitness: real

    ghost var Sizes: seq<nat>
    ghost var Weights: seq<seq<seq<real>>>
    /** The layers. */
    ghost var LayerSet: set<Layer>
    /** The neurons of the layers. */
    ghost var NeuronSet: set<Neuron>

    ghost predicate Valid()
      reads this, LayerSet`nodes, LayerSet`pointer, NeuronSet`weights, NeuronSet`slot
    {
      Conforms(Weights, Sizes) && Realizes(layers, Weights, LayerSet, NeuronSet) && AtRest(layers)
    }

    /** The cached record and the layers belong to this network and to no other. */
    ghost predicate Owns()
      reads this, cache`owner, LayerSet`owner
    {
      cache.owner == this && forall l :: l in LayerSet ==> l.owner == this
    }

    /**
     * The cached record, when it holds weights, holds as many as its layer
     * sizes call for. Callers that write into the record `data` hands out
     * are the ones who keep this.
     */
    ghost predicate Fits()
      reads this, cache
    {
      |cache.weights| == 0 || |cache.weights| == WeightCount(cache.nodes)
    }

    /** The layer sizes `data` reports. */
    ghost function ViewNodes(): seq<nat>
      reads this, cache
    {
      if |cache.weights| > 0 then cache.nodes else Sizes
    }

    /** The flat weight list `data` reports. */
    ghost function ViewWeights(): seq<real>
      reads this, cache
    {
      if |cache.weights| > 0 then cache.weights else Flatten(Weights)
    }

    /**
     * Builds the input layer, one layer per hidden size and the output
     * layer; each non-input neuron draws one weight per node of the layer
     * before it, so the weights, read layer by layer and node by node, are
     * the successive draws from `pos` on.
     */
    constructor (input: nat, hidden: seq<nat>, output: nat, random: Stream, pos: nat)
      ensures Valid() && Fits() && Owns() && fresh(cache) && fresh(LayerSet) && fresh(NeuronSet)
      ensures Sizes == ShapeSizes(input, hidden, output)
      ensures Flatten(Weights) == Draws(random, pos, WeightCount(Sizes))
      ensures cache.nodes == [] && cache.weights == []
    {
      var built, w, ls, ns := BuildLayers(input, hidden, output, random, pos);
      layers := built;
      cache := new DataRecord([], []);
      fitness := 0.0;
      Sizes, Weights, LayerSet, NeuronSet := ShapeSizes(input, hidden, output), w, ls, ns;
      new;
      cache.owner := this;
      Adopt(ls, this);
    }

    /**
     * The `data` getter: the cached record when it holds weights; otherwise
     * a fresh record built by `Snapshot`, which becomes the cache.
     */
    method Data() returns (d: DataRecord)
      requires Valid()
      modifies this`cache, LayerSet`pointer
      ensures Valid() && (old(Fits()) ==> Fits()) && (old(Owns()) ==> Owns())
      ensures old(|cache.weights|) > 0 ==> d == cache == old(cache)
      ensures old(|cache.weights|) == 0 ==> fresh(d) && cache == d
      ensures d.nodes == old(ViewNodes()) && d.weights == old(ViewWeights())
      ensures ViewNodes() == old(ViewNodes()) && ViewWeights() == old(ViewWeights())
    {
      if |cache.weights| > 0 {
        return cache;
      }
      d := Snapshot(layers, Weights, Sizes, LayerSet, NeuronSet);
      FlattenLength(Weights, Sizes, 0);
      cache := d;
      d.owner := this;
    }

    /**
     * `persist`: replaces the layers with fresh ones of the sizes in
     * `d.nodes`, whose weights, layer by layer and node by node, are the
     * leading entries of `d.weights`. Building each layer still draws its
     * weights first, so the draws from `pos` to `next` are used up. The
     * cached record and the fitness are left as they were.
     */
    method Persist(d: DataRecord, random: Stream, pos: nat) returns (next: nat)
      requires Valid() && WeightCount(d.nodes) <= |d.weights|
      modifies this
      ensures Valid() && fresh(LayerSet) && fresh(NeuronSet) && cache == old(cache) && fitness == old(fitness)
      ensures old(Owns()) ==> Owns()
      ensures Sizes == d.nodes && Weights == Unflatten(d.nodes, d.weights)
      ensures Flatten(Weights) == d.weights[..WeightCount(d.nodes)]
      ensures next == pos + WeightCount(d.nodes)
    {
      var built, w, ls, ns, index := LoadLayers(d.nodes, d.weights, random, pos);
      next := pos + index;
      layers, Sizes, Weights, LayerSet, NeuronSet := built, d.nodes, w, ls, ns;
      Adopt(ls, this);
    }

    /**
     * `compute`: the inputs become the values of the first input nodes
     * (the remaining input nodes keep theirs), every later layer's nodes
     * are activated in turn from the values of the layer before, and the
     * output layer's values are returned.
     */
    method Compute(inputs: seq<real>, activate: real -> real) returns (outputs: seq<real>)
      requires Valid() && |layers| > 0 && |inputs| <= Sizes[0]
      modifies LayerSet`pointer, NeuronSet`value
      ensures Valid()
      ensures forall k :: 0 <= k < Sizes[0] ==>
                layers[0].nodes[k].value == if k < |inputs| then inputs[k] else old(layers[0].nodes[k].value)
      ensures var input := ValuesOf(layers[0].nodes, NeuronSet);
        && (forall l :: 0 <= l < |layers| ==>
              ValuesOf(layers[l].nodes, NeuronSet) == LayerValues(Weights, input, activate, l))
        && outputs == LayerValues(Weights, input, activate, |layers| - 1)
    {
      outputs := Forward(layers, Weights, Sizes, LayerSet, NeuronSet, inputs, activate);
    }
  }

  /** Hands the layers `ls` to `net`. */
  ghost method Adopt(ls: set<Layer>, net: NeuralNetwork)
    modifies ls`owner
    ensures forall l :: l in ls ==> l.owner == net
  {
    forall l | l in ls {
      l.owner := net;
    }
  }

  /** The record `data` reports always holds the weight count of its layer sizes. */
  lemma ViewCounts(net: NeuralNetwork)
    requires net.Valid() && net.Fits()
    ensures |net.ViewWeights()| == WeightCount(net.ViewNodes())
  {
    FlattenLength(net.Weights, net.Sizes, 0);
  }

  /**
   * A fresh record with each layer's node count and every neuron's
   * weights, in layer and node order, read with each layer's iterator.
   */
  method Snapshot(layers: seq<Layer>, ghost w: seq<seq<seq<real>>>, ghost sizes: seq<nat>,
                  ghost ls: set<Layer>, ghost ns: set<Neuron>) returns (d: DataRecord)
    requires Realizes(layers, w, ls, ns) && AtRest(layers) && Conforms(w, sizes)
    modifies ls`pointer
    ensures fresh(d) && d.nodes == sizes && d.weights == Flatten(w) && AtRest(layers)
  {
    d := new DataRecord([], []);
    for l := 0 to |layers|
      invariant d.nodes == sizes[..l] && d.weights == Flatten(w[..l])
      invariant AtRest(layers)
    {
      ghost var rows := w[l];
      assert layers[l] in ls && |layers[l].nodes| == |rows| == sizes[l];
      d.nodes := d.nodes + [|layers[l].nodes|];
      d.weights := layers[l].AppendWeights(d.weights, rows);
      FlattenAppend(w[..l], rows);
      assert w[..l + 1] == w[..l] + [rows];
      assert sizes[..l + 1] == sizes[..l] + [sizes[l]];
    }
    assert w[..|layers|] == w && sizes[..|layers|] == sizes;
  }

  /**
   * Appends a freshly drawn layer of `size` nodes, each with `fan` weights
   * drawn from `p` on.
   */
  method AddLayer(built: seq<Layer>, ghost w: seq<seq<seq<real>>>, ghost ls: set<Layer>, ghost ns: set<Neuron>,
                  size: nat, fan: nat, random: Stream, p: nat)
      returns (built': seq<Layer>, ghost w': seq<seq<seq<real>>>, ghost ls': set<Layer>, ghost ns': set<Neuron>)
    requires Realizes(built, w, ls, ns) && AtRest(built)
    ensures |built'| == |built| + 1 && built'[..|built|] == built && w' == w + [DrawnRows(random, p, size, fan)]
    ensures Realizes(built', w', ls', ns') && AtRest(built')
    ensures ls <= ls' && ns <= ns' && fresh(ls' - ls) && fresh(ns' - ns)
  {
    var layer := new Layer(size, fan, random, p, |built|);
    var rows := DrawnRows(random, p, size, fan);
    RealizesAppend(built, w, ls, ns, layer, rows);
    built', w', ls', ns' := built + [layer], w + [rows], ls + {layer}, ns + NodeSet(layer);
  }

  /**
   * Appends a layer of `size` nodes after the layers of sizes `sizes`,
   * drawing its weights from where the earlier layers stopped.
   */
  method GrowLayers(built: seq<Layer>, ghost w: seq<seq<seq<real>>>, ghost ls: set<Layer>, ghost ns: set<Neuron>,
                    sizes: seq<nat>, size: nat, random: Stream, pos: nat, p: nat)
      returns (built': seq<Layer>, ghost w': seq<seq<seq<real>>>, ghost ls': set<Layer>, ghost ns': set<Neuron>, p': nat)
    requires |sizes| > 0 && ConformsFrom(w, sizes, 0) && Realizes(built, w, ls, ns) && AtRest(built)
    requires p == pos + WeightCount(sizes)
    requires Flatten(w) == Draws(random, pos, WeightCount(sizes))
    ensures Realizes(built', w', ls', ns') && AtRest(built')
    ensures ls <= ls' && ns <= ns' && fresh(ls' - ls) && fresh(ns' - ns)
    ensures |built'| == |built| + 1 && |w'| == |w| + 1
    ensures ConformsFrom(w', sizes + [size], 0)
    ensures p' == pos + WeightCount(sizes + [size])
    ensures Flatten(w') == Draws(random, pos, WeightCount(sizes + [size]))
  {
    GrowStep(w, sizes, size, random, pos);
    built', w', ls', ns' := AddLayer(built, w, ls, ns, size, sizes[|sizes| - 1], random, p);
    p' := p + size * sizes[|sizes| - 1];
  }

  /** The input layer of a new network: `size` nodes without weights. */
  method InputLayer(size: nat, random: Stream, pos: nat)
      returns (built: seq<Layer>, ghost w: seq<seq<seq<real>>>, ghost ls: set<Layer>, ghost ns: set<Neuron>)
    ensures fresh(ls) && fresh(ns) && Realizes(built, w, ls, ns) && AtRest(built) && |built| == |w| == 1
    ensures ConformsFrom(w, [size], 0) && WeightCount([size]) == 0 && Flatten(w) == []
  {
    built, w, ls, ns := AddLayer([], [], {}, {}, size, 0, random, pos);
    assert Flatten(w) == [] by {
      DrawnRowsConcat(random, pos, size, 0);
      assert Flatten(w) == Concat(w[0]) + Flatten(w[1..]);
    }
    assert WeightCount([size]) == 0 by {
      assert [size][1..] == [];
      assert WeightCountFrom([size], 0) == size * 0 + WeightCountFrom([], size);
    }
  }

  /** The layers of a new network, with the weights they hold. */
  method BuildLayers(input: nat, hidden: seq<nat>, output: nat, random: Stream, pos: nat)
      returns (built: seq<Layer>, ghost w: seq<seq<seq<real>>>, ghost ls: set<Layer>, ghost ns: set<Neuron>)
    ensures fresh(ls) && fresh(ns) && Realizes(built, w, ls, ns) && AtRest(built)
    ensures Conforms(w, ShapeSizes(input, hidden, output))
    ensures Flatten(w) == Draws(random, pos, WeightCount(ShapeSizes(input, hidden, output)))
  {
    var sizes := ShapeSizes(input, hidden, output);
    built, w, ls, ns := InputLayer(input, random, pos);
    var p := pos;
    assert sizes[..1] == [input];
    // The hidden layers, then the output layer.
    for i := 1 to |sizes|
      invariant |built| == i && |w| == i
      invariant ConformsFrom(w, sizes[..i], 0)
      invariant Realizes(built, w, ls, ns) && AtRest(built) && fresh(ls) && fresh(ns)
      invariant p == pos + WeightCount(sizes[..i])
      invariant Flatten(w) == Draws(random, pos, WeightCount(sizes[..i]))
    {
      assert sizes[..i + 1] == sizes[..i] + [sizes[i]];
      built, w, ls, ns, p := GrowLayers(built, w, ls, ns, sizes[..i], sizes[i], random, pos, p);
    }
    assert sizes[..|sizes|] == sizes;
  }

  /**
   * One step of `persist`: appends a fresh layer of `size` nodes after the
   * layers of sizes `sizes` and loads its weights from `flat`, from where
   * the earlier layers stopped. The new layer first draws its weights from
   * position `p` on.
   */
  method LoadLayer(built: seq<Layer>, ghost w: seq<seq<seq<real>>>, ghost ls: set<Layer>, ghost ns: set<Neuron>,
                   sizes: seq<nat>, size: nat, flat: seq<real>, random: Stream, p: nat)
      returns (built': seq<Layer>, ghost w': seq<seq<seq<real>>>, ghost ls': set<Layer>, ghost ns': set<Neuron>, index: nat)
    requires ConformsFrom(w, sizes, 0) && Realizes(built, w, ls, ns) && AtRest(built)
    requires WeightCount(sizes) <= WeightCount(sizes + [size]) <= |flat|
    requires Flatten(w) == flat[..WeightCount(sizes)]
    ensures Realizes(built', w', ls', ns') && AtRest(built')
    ensures ls <= ls' && ns <= ns' && fresh(ls' - ls) && fresh(ns' - ns)
    ensures |built'| == |built| + 1 && |w'| == |w| + 1
    ensures ConformsFrom(w', sizes + [size], 0)
    ensures index == WeightCount(sizes + [size]) && Flatten(w') == flat[..index]
  {
    var nodesInPreviousLayer := if sizes == [] then 0 else sizes[|sizes| - 1];
    WeightCountAppend(sizes, 0, size);
    var layer;
    ghost var rows;
    layer, index, rows := LoadedLayer(size, nodesInPreviousLayer, flat, WeightCount(sizes), random, p, |built|);
    LoadStep(w, sizes, rows, flat);
    RealizesAppend(built, w, ls, ns, layer, rows);
    built', w', ls', ns' := built + [layer], w + [rows], ls + {layer}, ns + NodeSet(layer);
  }

  /**
   * A fresh layer `l` of `size` nodes, each first drawing `fan` weights
   * from position `p` on and then loading `fan` entries of `flat` from
   * `start` on.
   */
  method LoadedLayer(size: nat, fan: nat, flat: seq<real>, start: nat, random: Stream, p: nat, ghost l: nat)
      returns (layer: Layer, next: nat, ghost rows: seq<seq<real>>)
    requires start + size * fan <= |flat|
    ensures fresh(layer) && layer.pointer == 0 && |layer.nodes| == size == |rows|
    ensures forall k :: 0 <= k < size ==> fresh(layer.nodes[k]) && layer.nodes[k].slot == (l, k)
    ensures next == start + size * fan && Concat(rows) == flat[start..next]
    ensures forall k :: 0 <= k < size ==> layer.nodes[k].weights == rows[k] && |rows[k]| == fan
  {
    layer := new Layer(size, fan, random, p, l);
    next, rows := layer.Load(flat, start, fan);
  }

  /** The layers `persist` builds, with the weights they hold. */
  method LoadLayers(sizes: seq<nat>, flat: seq<real>, random: Stream, pos: nat)
      returns (built: seq<Layer>, ghost w: seq<seq<seq<real>>>, ghost ls: set<Layer>, ghost ns: set<Neuron>, index: nat)
    requires WeightCount(sizes) <= |flat|
    ensures fresh(ls) && fresh(ns) && Realizes(built, w, ls, ns) && AtRest(built)
    ensures Conforms(w, sizes) && index == WeightCount(sizes) && Flatten(w) == flat[..index]
    ensures w == Unflatten(sizes, flat)
  {
    index := 0;
    built, w, ls, ns := [], [], {}, {};
    for i := 0 to |sizes|
      invariant ConformsFrom(w, sizes[..i], 0) && Realizes(built, w, ls, ns) && AtRest(built)
      invariant fresh(ls) && fresh(ns)
      invariant index == WeightCount(sizes[..i]) <= |flat| && Flatten(w) == flat[..index]
    {
      assert sizes[..i + 1] == sizes[..i] + [sizes[i]];
      WeightCountSplit(sizes, 0, i + 1);
      WeightCountAppend(sizes[..i], 0, sizes[i]);
      built, w, ls, ns, index := LoadLayer(built, w, ls, ns, sizes[..i], sizes[i], flat, random, pos + index);
    }
    assert sizes[..|sizes|] == sizes;
    UnflattenFlatten(w, sizes, 0);
    UnflattenPrefix(sizes, 0, Flatten(w), flat);
  }

  /**
   * The body of `compute` on the layers `layers`, which hold the weights
   * `w`: feeds the inputs, propagates them layer by layer and collects the
   * output layer's values.
   */
  method Forward(layers: seq<Layer>, ghost w: seq<seq<seq<real>>>, ghost sizes: seq<nat>,
                 ghost ls: set<Layer>, ghost ns: set<Neuron>, inputs: seq<real>, activate: real -> real)
      returns (outputs: seq<real>)
    requires Realizes(layers, w, ls, ns) && AtRest(layers) && Conforms(w, sizes)
    requires |layers| > 0 && |inputs| <= |w[0]|
    modifies ls`pointer, ns`value
    ensures AtRest(layers)
    ensures forall k :: 0 <= k < |w[0]| ==>
              layers[0].nodes[k].value == if k < |inputs| then inputs[k] else old(layers[0].nodes[k].value)
    ensures var input := ValuesOf(layers[0].nodes, ns);
      && (forall l :: 0 <= l < |layers| ==> ValuesOf(layers[l].nodes, ns) == LayerValues(w, input, activate, l))
      && outputs == LayerValues(w, input, activate, |layers| - 1)
  {
    FeedInputs(layers[0], inputs, ns);
    ghost var input := ValuesOf(layers[0].nodes, ns);
    ConformsFan(w, sizes);
    ghost var vs := AllLayerValues(w, input, activate);
    AllLayerValuesChain(w, input, activate);
    outputs := Run(layers, w, sizes, ls, ns, activate, vs);
  }

  /**
   * `compute` after its input phase: with the input layer holding `vs[0]`
   * and each `vs[l]` the activations of `vs[l - 1]`, every layer `l` ends up
   * holding `vs[l]` and the outputs are the last layer's values.
   */
  method Run(layers: seq<Layer>, ghost w: seq<seq<seq<real>>>, ghost sizes: seq<nat>,
             ghost ls: set<Layer>, ghost ns: set<Neuron>, activate: real -> real, ghost vs: seq<seq<real>>)
      returns (outputs: seq<real>)
    requires Realizes(layers, w, ls, ns) && AtRest(layers) && Conforms(w, sizes) && |layers| > 0
    requires |vs| == |w| && forall l :: 0 <= l < |w| ==> |vs[l]| == |w[l]|
    requires forall k :: 0 <= k < |w[0]| ==> layers[0].nodes[k].value == vs[0][k]
    requires forall l :: 0 < l < |w| ==> vs[l] == Activations(Previous(vs, l), w[l], activate)
    modifies ls`pointer, ns`value
    ensures AtRest(layers)
    ensures forall l :: 0 <= l < |layers| ==> ValuesOf(layers[l].nodes, ns) == vs[l]
    ensures outputs == vs[|layers| - 1]
  {
    Propagate(layers, w, sizes, ls, ns, activate, vs);
    HoldsValues(layers, w, ls, ns, vs);
    outputs := layers[|layers| - 1].Values();
    ValuesOfIs(outputs, layers[|layers| - 1].nodes, ns);
  }

  /**
   * The input phase of `compute`: input node `i` takes `inputs[i]`; the
   * other input nodes and every other neuron keep their values.
   */
  method FeedInputs(layer: Layer, inputs: seq<real>, ghost ns: set<Neuron>)
    requires |inputs| <= |layer.nodes|
    requires forall k :: 0 <= k < |layer.nodes| ==> layer.nodes[k] in ns && layer.nodes[k].slot == (0, k)
    modifies ns`value
    ensures forall k :: 0 <= k < |layer.nodes| ==>
              layer.nodes[k].value == if k < |inputs| then inputs[k] else old(layer.nodes[k].value)
    ensures forall n :: n in ns && n.slot.0 != 0 ==> n.value == old(n.value)
  {
    for i := 0 to |inputs|
      invariant forall k :: 0 <= k < |layer.nodes| ==>
                  layer.nodes[k].value == if k < i then inputs[k] else old(layer.nodes[k].value)
      invariant forall n :: n in ns && n.slot.0 != 0 ==> n.value == old(n.value)
    {
      layer.nodes[i].value := inputs[i];
    }
  }

  /** The inner loop of `compute`: the weighted sum of the previous layer's values. */
  method WeightedSum(previous: Layer, node: Neuron, ghost input: seq<real>) returns (sum: real)
    requires |previous.nodes| == |input| <= |node.weights|
    requires forall k :: 0 <= k < |input| ==> previous.nodes[k].value == input[k]
    ensures sum == Dot(input, node.weights)
  {
    sum := 0.0;
    for k := 0 to |previous.nodes|
      invariant sum == Dot(input[..k], node.weights)
    {
      assert input[..k + 1][..k] == input[..k];
      sum := sum + previous.nodes[k].value * node.weights[k];
    }
    assert input[..|input|] == input;
  }

  /**
   * Activates every node of layer `l` in turn, each from the weighted sum
   * of the values `input` of the layer before; no neuron outside layer `l`
   * changes its value.
   */
  method ActivateLayer(previous: Layer, layer: Layer, activate: real -> real, ghost l: nat,
                       ghost ns: set<Neuron>, ghost rows: seq<seq<real>>, ghost input: seq<real>)
    requires layer.pointer == 0 && l > 0 && |previous.nodes| == |input|
    requires forall k :: 0 <= k < |input| ==>
               previous.nodes[k] in ns && previous.nodes[k].slot.0 == l - 1 && previous.nodes[k].value == input[k]
    requires |layer.nodes| == |rows|
    requires forall k :: 0 <= k < |rows| ==>
               layer.nodes[k] in ns && layer.nodes[k].slot == (l, k) &&
               layer.nodes[k].weights == rows[k] && |input| <= |rows[k]|
    modifies layer`pointer, ns`value
    ensures layer.pointer == 0
    ensures forall k :: 0 <= k < |rows| ==> layer.nodes[k].value == Activations(input, rows, activate)[k]
    ensures forall n :: n in ns && n.slot.0 != l ==> n.value == old(n.value)
  {
    var yielded := layer.Iterate();
    for j := 0 to |yielded|
      invariant layer.pointer == 0
      invariant forall k :: 0 <= k < j ==> layer.nodes[k].value == Activations(input, rows, activate)[k]
      invariant forall n :: n in ns && n.slot.0 != l ==> n.value == old(n.value)
    {
      var sum := WeightedSum(previous, yielded[j], input);
      var _ := yielded[j].Activate(sum, activate);
    }
  }

  /**
   * The layer loop of `compute`: with the input layer holding `vs[0]`,
   * every later layer is activated in order, from the values of the layer
   * before, so layer `l` ends up holding `vs[l]`.
   */
  method Propagate(layers: seq<Layer>, ghost w: seq<seq<seq<real>>>, ghost sizes: seq<nat>,
                   ghost ls: set<Layer>, ghost ns: set<Neuron>, activate: real -> real, ghost vs: seq<seq<real>>)
    requires Realizes(layers, w, ls, ns) && AtRest(layers) && Conforms(w, sizes) && |layers| > 0
    requires |vs| == |w| && forall l :: 0 <= l < |w| ==> |vs[l]| == |w[l]|
    requires forall k :: 0 <= k < |w[0]| ==> layers[0].nodes[k].value == vs[0][k]
    requires forall l :: 0 < l < |w| ==> vs[l] == Activations(Previous(vs, l), w[l], activate)
    modifies ls`pointer, ns`value
    ensures AtRest(layers)
    ensures forall l, k :: 0 <= l < |layers| && 0 <= k < |w[l]| ==> layers[l].nodes[k].value == vs[l][k]
  {
    for i := 1 to |layers|
      invariant Realizes(layers, w, ls, ns) && AtRest(layers)
      invariant forall l, k :: 0 <= l < i && 0 <= k < |w[l]| ==> layers[l].nodes[k].value == vs[l][k]
    {
      ActivateLayer(layers[i - 1], layers[i], activate, i, ns, w[i], vs[i - 1]);
    }
  }

  /** Node by node, `Propagate`'s result reads as each layer's `ValuesOf`. */
  lemma HoldsValues(layers: seq<Layer>, w: seq<seq<seq<real>>>, ls: set<Layer>, ns: set<Neuron>,
                    vs: seq<seq<real>>)
    requires Realizes(layers, w, ls, ns) && |layers| == |vs| == |w|
    requires forall l :: 0 <= l < |w| ==> |vs[l]| == |w[l]|
    requires forall l, k :: 0 <= l < |layers| && 0 <= k < |w[l]| ==> layers[l].nodes[k].value == vs[l][k]
    ensures forall l :: 0 <= l < |layers| ==> ValuesOf(layers[l].nodes, ns) == vs[l]
  {
    forall l | 0 <= l < |layers|
      ensures ValuesOf(layers[l].nodes, ns) == vs[l]
    {
    }
  }

  /**
   * Adding a layer whose rows read, one after the other, as the next run of
   * `flat` to a network whose weights are a prefix of `flat` keeps them a
   * prefix of `flat`.
   */
  lemma LoadStep(w: seq<seq<seq<real>>>, sizes: seq<nat>, rows: seq<seq<real>>, flat: seq<real>)
    requires ConformsFrom(w, sizes, 0) && WeightCount(sizes) <= |flat|
    requires Flatten(w) == flat[..WeightCount(sizes)]
    requires var fan := if sizes == [] then 0 else sizes[|sizes| - 1];
      && (forall k :: 0 <= k < |rows| ==> |rows[k]| == fan)
      && WeightCount(sizes) + |rows| * fan <= |flat|
      && Concat(rows) == flat[WeightCount(sizes)..WeightCount(sizes) + |rows| * fan]
    ensures ConformsFrom(w + [rows], sizes + [|rows|], 0)
    ensures WeightCount(sizes + [|rows|]) <= |flat| && Flatten(w + [rows]) == flat[..WeightCount(sizes + [|rows|])]
  {
    FlattenAppend(w, rows);
    WeightCountAppend(sizes, 0, |rows|);
    ConformsAppend(w, sizes, rows, |rows|);
  }

  /**
   * Adding a freshly drawn layer of `size` nodes to a network whose weights
   * are the draws from `pos` on keeps them the draws from `pos` on.
   */
  lemma GrowStep(w: seq<seq<seq<real>>>, sizes: seq<nat>, size: nat, random: Stream, pos: nat)
    requires |sizes| > 0 && ConformsFrom(w, sizes, 0)
    requires Flatten(w) == Draws(random, pos, WeightCount(sizes))
    ensures var rows := DrawnRows(random, pos + WeightCount(sizes), size, sizes[|sizes| - 1]);
      && ConformsFrom(w + [rows], sizes + [size], 0)
      && WeightCount(sizes + [size]) == WeightCount(sizes) + size * sizes[|sizes| - 1]
      && Flatten(w + [rows]) == Draws(random, pos, WeightCount(sizes + [size]))
  {
    var fan := sizes[|sizes| - 1];
    var rows := DrawnRows(random, pos + WeightCount(sizes), size, fan);
    FlattenAppend(w, rows);
    DrawnRowsConcat(random, pos + WeightCount(sizes), size, fan);
    DrawsSplit(random, pos, WeightCount(sizes), size * fan);
    WeightCountAppend(sizes, 0, size);
    ConformsAppend(w, sizes, rows, size);
  }

  lemma ConformsAppend(w: seq<seq<seq<real>>>, sizes: seq<nat>, rows: seq<seq<real>>, size: nat)
    requires ConformsFrom(w, sizes, 0) && |rows| == size
    requires forall k :: 0 <= k < size ==> |rows[k]| == (if sizes == [] then 0 else sizes[|sizes| - 1])
    ensures ConformsFrom(w + [rows], sizes + [size], 0)
  {
  }
}
