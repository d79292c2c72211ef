/**
 * The `Network` namespace of dist/dist.js, an older build of the network.
 * A NeuralNetwork owns its Layers and a flat `_weights` list, a Layer owns
 * its Neurons and iterates over them with a `pointer`, a Neuron holds a
 * value and one weight per node of the layer before it.
 *
 * Unlike the later build, a Layer's iterator never goes back to the start,
 * so every pass over a layer after the first yields nothing, and the
 * `Weights` getter throws away the lists it concatenates, so `_weights`
 * stays empty for good.
 */
module LegacyNetwork {
  import opened Random
  import opened Topology
  import Network

  /** A JavaScript number as the legacy network holds it: a real, or `undefined` (or a NaN computed from one). */
  datatype Value = Number(x: real) | Undefined

  /** The reals `ws` as JavaScript numbers. */
  function Numbers(ws: seq<real>): (vs: seq<Value>)
    ensures |vs| == |ws| && forall i :: 0 <= i < |ws| ==> vs[i] == Number(ws[i])
  {
    seq(|ws|, i requires 0 <= i < |ws| => Number(ws[i]))
  }

  /** `list[index]`: the entry, or `undefined` past the end. */
  function At(list: seq<real>, index: nat): (v: Value)
    ensures v == Undefined <==> index >= |list|
    ensures index < |list| ==> v == Number(list[index])
  {
    if index < |list| then Number(list[index]) else Undefined
  }

  /** `count` undefined entries. */
  function Blank(count: nat): (vs: seq<Value>)
    ensures |vs| == count && forall i :: 0 <= i < count ==> vs[i] == Undefined
  {
    seq(count, i => Undefined)
  }

  /** `sum += a * b` on JavaScript numbers: NaN as soon as one operand is not a number. */
  function AddProduct(sum: Value, a: Value, b: Value): (r: Value)
    ensures r.Number? <==> sum.Number? && a.Number? && b.Number?
  {
    if sum.Number? && a.Number? && b.Number? then Number(sum.x + a.x * b.x) else Undefined
  }

  /** The weighted sum `compute` forms from one neuron: 0, plus `value * weight` for each weight in turn. */
  function WeightedSum(value: Value, weights: seq<Value>): Value
    decreases |weights|
  {
    if |weights| == 0 then Number(0.0)
    else AddProduct(WeightedSum(value, weights[..|weights| - 1]), value, weights[|weights| - 1])
  }

  /** The sum is a number exactly when the value and every weight are numbers. */
  lemma {:induction false} SumIsNumber(value: Value, weights: seq<Value>)
    ensures WeightedSum(value, weights).Number? <==>
              (|weights| == 0 || value.Number?) && forall i :: 0 <= i < |weights| ==> weights[i].Number?
    decreases |weights|
  {
    if |weights| > 0 {
      var init := weights[..|weights| - 1];
      SumIsNumber(value, init);
      assert forall i :: 0 <= i < |init| ==> init[i] == weights[i];
    }
  }

  class Neuron {
    /** The last activation; `undefined` until something assigns it. */
    var value: Value
    var weights: seq<Value>
    /** The (layer, node) position the neuron was made for; ghost bookkeeping. */
    ghost var slot: (nat, nat)

    /** Starts undefined and draws `weightCount` weights `r * 2 - 1` in order, from draw `pos` on. */
    constructor (weightCount: nat, random: Stream, pos: nat, ghost slot: (nat, nat))
      ensures value == Undefined && this.slot == slot
      ensures weights == Numbers(Draws(random, pos, weightCount))
    {
      var drawn: seq<Value> := [];
      for i := 0 to weightCount
        invariant drawn == Numbers(Draws(random, pos, i))
      {
        drawn := drawn + [Number(RandomClamped(random(pos + i)))];
      }
      value := Undefined;
      weights := drawn;
      this.slot := slot;
    }

    /** `activate(sum)`: the activation of `sum` becomes the value; NaN stays NaN. */
    method Activate(sum: Value, activate: real -> real)
      modifies this`value
      ensures value == if sum.Number? then Number(activate(sum.x)) else Undefined
    {
      if sum.Number? {
        value := Number(activate(sum.x));
      } else {
        value := Undefined;
      }
    }

    /** The innermost loop of `compute`: this neuron's value times each of its weights, summed in order. */
    method Sum() returns (sum: Value)
      ensures sum == WeightedSum(value, weights)
    {
      sum := Number(0.0);
      for i := 0 to |weights|
        invariant sum == WeightedSum(value, weights[..i])
      {
        assert weights[..i + 1][..i] == weights[..i];
        sum := AddProduct(sum, value, weights[i]);
      }
      assert weights[..|weights|] == weights;
    }

    /**
     * The innermost loop of `persist`: weight `w` becomes `flat[index + w]`,
     * `undefined` past the end of `flat`; returns the index after them.
     */
    method Load(flat: seq<real>, index: nat) returns (next: nat)
      modifies this`weights
      ensures next == index + |old(weights)| && |weights| == |old(weights)|
      ensures forall w :: 0 <= w < |weights| ==> weights[w] == At(flat, index + w)
    {
      next := index;
      for w := 0 to |weights|
        invariant next == index + w && |weights| == |old(weights)|
        invariant forall v :: 0 <= v < w ==> weights[v] == At(flat, index + v)
      {
        weights := weights[w := At(flat, next)];
        next := next + 1;
      }
    }
  }

  class Layer {
    /** The iterator's position; it only moves forward. */
    var pointer: nat
    var id: nat
    var nodes: seq<Neuron>

    /** `nodeCount` fresh neurons, each drawing `inputCount` weights in turn from draw `pos` on. */
    constructor (nodeCount: nat, inputCount: nat, index: nat, random: Stream, pos: nat)
      ensures pointer == 0 && id == index && |nodes| == nodeCount
      ensures forall k :: 0 <= k < nodeCount ==>
                && fresh(nodes[k]) && nodes[k].slot == (index, k) && nodes[k].value == Undefined
                && nodes[k].weights == Numbers(Network.DrawnRows(random, pos, nodeCount, inputCount)[k])
    {
      var built: seq<Neuron> := [];
      for i := 0 to nodeCount
        invariant |built| == i
        invariant forall k :: 0 <= k < i ==>
                    && fresh(built[k]) && built[k].slot == (index, k) && built[k].value == Undefined
                    && built[k].weights == Numbers(Network.DrawnRows(random, pos, nodeCount, inputCount)[k])
      {
        var node := new Neuron(inputCount, random, pos + i * inputCount, (index, i));
        built := built + [node];
      }
      pointer := 0;
      id := index;
      nodes := built;
    }

    /** `next()`: the node at the pointer, which moves on by one, or done. The pointer is never reset. */
    method Next() returns (done: bool, value: Neuron?)
      modifies this`pointer
      ensures old(pointer) < |nodes| ==>
                !done && value == nodes[old(pointer)] && pointer == old(pointer) + 1
      ensures old(pointer) >= |nodes| ==> done && value == null && pointer == old(pointer)
    {
      if pointer < |nodes| {
        value := nodes[pointer];
        pointer := pointer + 1;
        done := false;
      } else {
        done, value := true, null;
      }
    }

    /**
     * A `for (const node of layer)` pass: the nodes from the pointer on,
     * in order. It leaves the pointer at the end, so every later pass
     * yields nothing. The loops over a layer never move that layer's
     * pointer in their bodies, so collecting the pass first is the same
     * as interleaving it with them.
     */
    method Pass() returns (yielded: seq<Neuron>)
      modifies this`pointer
      ensures old(pointer) < |nodes| ==> yielded == nodes[old(pointer)..] && pointer == |nodes|
      ensures old(pointer) >= |nodes| ==> yielded == [] && pointer == old(pointer)
    {
      ghost var start := pointer;
      yielded := [];
      var done, node := Next();
      while !done
        invariant done ==> yielded == (if start < |nodes| then nodes[start..] else [])
        invariant done ==> pointer == (if start < |nodes| then |nodes| else start)
        invariant !done ==> start < pointer <= |nodes| && node == nodes[pointer - 1]
                            && yielded == nodes[start..pointer - 1]
        decreases if done then 0 else |nodes| - pointer + 1
      {
        yielded := yielded + [node];
        done, node := Next();
      }
    }

    /** The output loop of `compute`: the values of the nodes a pass yields, in order. */
    method Values() returns (values: seq<Value>)
      modifies this`pointer
      ensures pointer >= old(pointer)
      ensures old(pointer) >= |nodes| ==> values == []
      ensures old(pointer) < |nodes| ==>
                |values| == |nodes| - old(pointer) &&
                forall k :: 0 <= k < |values| ==> values[k] == nodes[old(pointer) + k].value
    {
      var yielded := Pass();
      values := [];
      for j := 0 to |yielded|
        invariant |values| == j && forall k :: 0 <= k < j ==> values[k] == yielded[k].value
      {
        values := values + [yielded[j].value];
      }
    }
  }

  /** Every node of the layer has been yielded: a pass over it yields nothing. */
  ghost predicate Drained(layer: Layer)
    reads layer
  {
    layer.pointer >= |layer.nodes|
  }

  /**
   * Layer `l` of `layers` has id `l` and lies in `ls`; its node `k` lies
   * in `ns` and was made for slot `(l, k)`. So no layer and no neuron
   * appears twice.
   */
  ghost predicate Placed(layers: seq<Layer>, ls: set<Layer>, ns: set<Neuron>)
    reads ls`nodes, ls`id, ns`slot
  {
    forall l :: 0 <= l < |layers| ==>
      && layers[l] in ls && layers[l].id == l
      && forall k :: 0 <= k < |layers[l].nodes| ==> layers[l].nodes[k] in ns && layers[l].nodes[k].slot == (l, k)
  }

  /**
   * The freshly built `layers` hold the nested weights `w`: layer `l` has
   * one neuron per row of `w[l]`, with that row as its weights and an
   * undefined value, and every iterator is at its start.
   */
  ghost predicate Holds(layers: seq<Layer>, w: seq<seq<seq<real>>>, ls: set<Layer>, ns: set<Neuron>)
    reads ls`nodes, ls`id, ls`pointer, ns`slot, ns`value, ns`weights
  {
    && |layers| == |w| && Placed(layers, ls, ns)
    && forall l :: 0 <= l < |layers| ==>
         && layers[l].pointer == 0 && |layers[l].nodes| == |w[l]|
         && forall k :: 0 <= k < |w[l]| ==>
              layers[l].nodes[k].value == Undefined && layers[l].nodes[k].weights == Numbers(w[l][k])
  }

  class NeuralNetwork {
    var layers: seq<Layer>
    /** `_weights`. */
    var weights: seq<real>
    /** Assigned by the game between generations; read by `rank`. */
    var fitness: real

    /** The layers. */
    ghost var LayerSet: set<Layer>
    /** The neurons of the layers. */
    ghost var NeuronSet: set<Neuron>

    /**
     * At least the input and the output layer, each layer and neuron in
     * its own place, and `_weights` empty: it starts empty and nothing
     * stores into it.
     */
    ghost predicate Valid()
      reads this, LayerSet`nodes, LayerSet`id, NeuronSet`slot
    {
      |layers| >= 2 && weights == [] && Placed(layers, LayerSet, NeuronSet)
    }

    /**
     * Builds the input layer, one layer per hidden size and the output
     * layer; each neuron of a later layer draws one weight per node of the
     * layer before it, so the weights, read layer by layer and node by
     * node, are the successive draws from `pos` on.
     */
    constructor (input: nat, hidden: seq<nat>, output: nat, random: Stream, pos: nat)
      ensures fresh(LayerSet) && fresh(NeuronSet) && Built(this, input, hidden, output, random, pos)
    {
      var built, w, ls, ns := BuildLayers(input, hidden, output, random, pos);
      layers, weights, fitness := built, [], 0.0;
      LayerSet, NeuronSet := ls, ns;
      UnflattenFlatten(w, ShapeSizes(input, hidden, output), 0);
    }

    /**
     * The `Weights` getter. `_weights` is empty, so it makes a pass over
     * every layer, concatenating each neuron's weights onto `_weights` and
     * throwing the result away, and then returns `_weights`: still empty,
     * with every layer's iterator used up.
     */
    method Weights() returns (ws: seq<real>)
      requires Valid()
      modifies LayerSet`pointer
      ensures ws == weights == []
      ensures forall l :: 0 <= l < |layers| ==> Drained(layers[l])
    {
      // `_weights` starts empty and nothing ever adds to it.
      assert weights == [];
      DrainAll(layers, weights, LayerSet, NeuronSet);
      ws := weights;
    }

    /**
     * `persist`: a pass over every layer in which each yielded neuron's
     * weights, in order, take the next entries of `_weights`, that is
     * `undefined`, since `_weights` is empty. Neurons an earlier pass
     * already yielded keep their weights; on a network whose iterators
     * are used up nothing changes.
     */
    method Persist()
      requires Valid()
      modifies LayerSet`pointer, NeuronSet`weights
      ensures forall l :: 0 <= l < |layers| ==> Drained(layers[l])
      ensures (forall l :: 0 <= l < |layers| ==> old(Drained(layers[l]))) ==>
                forall n :: n in NeuronSet ==> n.weights == old(n.weights)
      ensures forall l, k {:trigger layers[l].nodes[k]} :: 0 <= l < |layers| && 0 <= k < |layers[l].nodes| ==>
                layers[l].nodes[k].weights ==
                  if k < old(layers[l].pointer) then old(layers[l].nodes[k].weights)
                  else Blank(|old(layers[l].nodes[k].weights)|)
    {
      PersistAll(layers, weights, LayerSet, NeuronSet);
    }

    /**
     * `compute(inputs)`. The first input becomes the value of every input
     * node the input layer's iterator still yields; the loop over the
     * later layers uses up each of their iterators, so the final pass over
     * the output layer yields nothing and the outputs are empty.
     */
    method Compute(inputs: seq<real>, activate: real -> real) returns (outputs: seq<Value>)
      requires Valid()
      modifies LayerSet`pointer, NeuronSet`value
      ensures outputs == []
      ensures forall l :: 1 <= l < |layers| ==> Drained(layers[l])
      ensures forall k :: 0 <= k < |layers[0].nodes| ==>
                layers[0].nodes[k].value ==
                  if old(layers[0].pointer) <= k && |inputs| > 0 then Number(inputs[0])
                  else old(layers[0].nodes[k].value)
    {
      outputs := Run(layers, inputs, activate, LayerSet, NeuronSet);
    }
  }

  /**
   * `net` is as its constructor leaves it for the shape `input, hidden,
   * output` and the draws from `pos` on: one layer per size, every
   * iterator at its start, every value undefined, and the weights, layer
   * by layer and node by node, the successive draws.
   */
  ghost predicate Built(net: NeuralNetwork, input: nat, hidden: seq<nat>, output: nat, random: Stream, pos: nat)
    reads net, net.LayerSet`nodes, net.LayerSet`id, net.LayerSet`pointer
    reads net.NeuronSet`slot, net.NeuronSet`value, net.NeuronSet`weights
  {
    && net.Valid()
    && var sizes := ShapeSizes(input, hidden, output);
       && |net.layers| == |sizes|
       && var w := Unflatten(sizes, Draws(random, pos, WeightCount(sizes)));
          && Conforms(w, sizes)
          && forall l :: 0 <= l < |net.layers| ==>
               && net.layers[l].pointer == 0 && |net.layers[l].nodes| == sizes[l]
               && forall k :: 0 <= k < sizes[l] ==>
                    net.layers[l].nodes[k].value == Undefined && net.layers[l].nodes[k].weights == Numbers(w[l][k])
  }

  /** The layers of a new network, with the weights they hold. */
  method BuildLayers(input: nat, hidden: seq<nat>, output: nat, random: Stream, pos: nat)
      returns (built: seq<Layer>, ghost w: seq<seq<seq<real>>>, ghost ls: set<Layer>, ghost ns: set<Neuron>)
    ensures fresh(ls) && fresh(ns) && Holds(built, w, ls, ns)
    ensures Conforms(w, ShapeSizes(input, hidden, output))
    ensures Flatten(w) == Draws(random, pos, WeightCount(ShapeSizes(input, hidden, output)))
  {
    var sizes := ShapeSizes(input, hidden, output);
    built, w, ls, ns := InputLayer(input, random, pos);
    var nodesInPreviousLayer, index, p := input, 0, pos;
    assert sizes[..1] == [input];
    // The hidden layers, then the output layer.
    for i := 1 to |sizes|
      invariant |built| == i && |w| == i && index == i - 1 && nodesInPreviousLayer == sizes[i - 1]
      invariant ConformsFrom(w, sizes[..i], 0)
      invariant Holds(built, w, ls, ns) && fresh(ls) && fresh(ns)
      invariant p == pos + WeightCount(sizes[..i])
      invariant Flatten(w) == Draws(random, pos, WeightCount(sizes[..i]))
    {
      assert sizes[..i + 1] == sizes[..i] + [sizes[i]];
      index := index + 1;
      built, w, ls, ns, p := AddLayer(built, w, ls, ns, sizes[..i], sizes[i], nodesInPreviousLayer, index, random, pos, p);
      nodesInPreviousLayer := sizes[i];
    }
    assert sizes[..|sizes|] == sizes;
  }

  /** The input layer of a new network: `size` nodes without weights. */
  method InputLayer(size: nat, random: Stream, pos: nat)
      returns (built: seq<Layer>, ghost w: seq<seq<seq<real>>>, ghost ls: set<Layer>, ghost ns: set<Neuron>)
    ensures fresh(ls) && fresh(ns) && Holds(built, w, ls, ns) && |built| == |w| == 1
    ensures ConformsFrom(w, [size], 0) && WeightCount([size]) == 0 && Flatten(w) == []
  {
    var layer := new Layer(size, 0, 0, random, pos);
    built, w := [layer], [Network.DrawnRows(random, pos, size, 0)];
    ls, ns := {layer}, set k | 0 <= k < |layer.nodes| :: layer.nodes[k];
    assert Flatten(w) == [] by {
      Network.DrawnRowsConcat(random, pos, size, 0);
      assert Flatten(w) == Concat(w[0]) + Flatten(w[1..]);
    }
    assert WeightCount([size]) == 0 by {
      assert [size][1..] == [];
      assert WeightCountFrom([size], 0) == size * 0 + WeightCountFrom([], size);
    }
  }

  /**
   * Appends layer `index` of `size` nodes after the layers of sizes
   * `sizes`, drawing its weights from where the earlier layers stopped.
   */
  method AddLayer(built: seq<Layer>, ghost w: seq<seq<seq<real>>>, ghost ls: set<Layer>, ghost ns: set<Neuron>,
                  sizes: seq<nat>, size: nat, fan: nat, index: nat, random: Stream, pos: nat, p: nat)
      returns (built': seq<Layer>, ghost w': seq<seq<seq<real>>>, ghost ls': set<Layer>, ghost ns': set<Neuron>, p': nat)
    requires |sizes| > 0 && fan == sizes[|sizes| - 1]
    requires index == |built| && ConformsFrom(w, sizes, 0) && Holds(built, w, ls, ns)
    requires p == pos + WeightCount(sizes)
    requires Flatten(w) == Draws(random, pos, WeightCount(sizes))
    ensures Holds(built', w', ls', ns')
    ensures ls <= ls' && ns <= ns' && fresh(ls' - ls) && fresh(ns' - ns)
    ensures |built'| == |built| + 1 && |w'| == |w| + 1
    ensures ConformsFrom(w', sizes + [size], 0)
    ensures p' == pos + WeightCount(sizes + [size])
    ensures Flatten(w') == Draws(random, pos, WeightCount(sizes + [size]))
  {
    Network.GrowStep(w, sizes, size, random, pos);
    var layer := new Layer(size, fan, index, random, p);
    var rows := Network.DrawnRows(random, p, size, fan);
    p' := p + size * fan;
    built', w' := built + [layer], w + [rows];
    ls', ns' := ls + {layer}, ns + set k | 0 <= k < |layer.nodes| :: layer.nodes[k];
    forall l | 0 <= l < |built'|
      ensures built'[l] in ls' && built'[l].id == l && built'[l].pointer == 0 && |built'[l].nodes| == |w'[l]|
      ensures forall k :: 0 <= k < |w'[l]| ==>
                && built'[l].nodes[k] in ns' && built'[l].nodes[k].slot == (l, k)
                && built'[l].nodes[k].value == Undefined && built'[l].nodes[k].weights == Numbers(w'[l][k])
    {
      if l == |built| {
        forall k | 0 <= k < |w'[l]|
          ensures built'[l].nodes[k] in ns'
        {
          assert layer.nodes[k] in set j | 0 <= j < |layer.nodes| :: layer.nodes[j];
        }
      }
    }
  }

  /** The layer loop of the `Weights` getter: a pass over every layer; the concatenations are dropped. */
  method DrainAll(layers: seq<Layer>, weights: seq<real>, ghost ls: set<Layer>, ghost ns: set<Neuron>)
    requires Placed(layers, ls, ns)
    modifies ls`pointer
    ensures forall l :: 0 <= l < |layers| ==> Drained(layers[l])
  {
    for i := 0 to |layers|
      invariant forall l :: 0 <= l < i ==> Drained(layers[l])
    {
      var yielded := layers[i].Pass();
      for j := 0 to |yielded| {
        var joined := Numbers(weights) + yielded[j].weights;
      }
    }
  }

  /**
   * A pass of `persist` over layer `l`: each yielded neuron's weights are
   * loaded from `flat`, from `index` on, past its end, so they all become
   * `undefined`. No other neuron changes.
   */
  method PersistLayer(layer: Layer, flat: seq<real>, index: nat, ghost l: nat, ghost ns: set<Neuron>)
      returns (next: nat)
    requires |flat| <= index
    requires forall k :: 0 <= k < |layer.nodes| ==> layer.nodes[k] in ns && layer.nodes[k].slot == (l, k)
    modifies layer`pointer, ns`weights
    ensures Drained(layer) && layer.pointer >= old(layer.pointer) && |flat| <= next
    ensures forall k :: 0 <= k < |layer.nodes| ==>
              layer.nodes[k].weights ==
                if k < old(layer.pointer) then old(layer.nodes[k].weights) else Blank(|old(layer.nodes[k].weights)|)
    ensures forall n :: n in ns && (n.slot.0 != l || old(Drained(layer))) ==> n.weights == old(n.weights)
  {
    ghost var start := layer.pointer;
    ghost var drained := Drained(layer);
    var yielded := layer.Pass();
    next := index;
    for j := 0 to |yielded|
      invariant Drained(layer) && layer.pointer >= start && |flat| <= next
      invariant forall k :: 0 <= k < |layer.nodes| ==>
                  layer.nodes[k].weights ==
                    if start <= k < start + j then Blank(|old(layer.nodes[k].weights)|)
                    else old(layer.nodes[k].weights)
      invariant forall n :: n in ns && (n.slot.0 != l || drained) ==> n.weights == old(n.weights)
    {
      var node := yielded[j];
      assert node == layer.nodes[start + j];
      next := node.Load(flat, next);
      assert node.weights == Blank(|old(node.weights)|);
    }
  }

  /** The layer loop of `persist`. */
  method PersistAll(layers: seq<Layer>, flat: seq<real>, ghost ls: set<Layer>, ghost ns: set<Neuron>)
    requires Placed(layers, ls, ns) && flat == []
    modifies ls`pointer, ns`weights
    ensures forall l :: 0 <= l < |layers| ==> Drained(layers[l])
    ensures forall l, k {:trigger layers[l].nodes[k]} :: 0 <= l < |layers| && 0 <= k < |layers[l].nodes| ==>
              layers[l].nodes[k].weights ==
                if k < old(layers[l].pointer) then old(layers[l].nodes[k].weights)
                else Blank(|old(layers[l].nodes[k].weights)|)
    ensures (forall l :: 0 <= l < |layers| ==> old(Drained(layers[l]))) ==>
              forall n :: n in ns ==> n.weights == old(n.weights)
  {
    ghost var drained := forall l :: 0 <= l < |layers| ==> Drained(layers[l]);
    var index := 0;
    for i := 0 to |layers|
      invariant drained ==> forall n :: n in ns ==> n.weights == old(n.weights)
      invariant forall l :: 0 <= l < i ==> Drained(layers[l])
      invariant forall l :: i <= l < |layers| ==> layers[l].pointer == old(layers[l].pointer)
      invariant forall l, k {:trigger layers[l].nodes[k]} :: 0 <= l < |layers| && 0 <= k < |layers[l].nodes| ==>
                  layers[l].nodes[k].weights ==
                    if l < i && old(layers[l].pointer) <= k then Blank(|old(layers[l].nodes[k].weights)|)
                    else old(layers[l].nodes[k].weights)
    {
      index := PersistLayer(layers[i], flat, index, i, ns);
    }
  }

  /**
   * The input loop of `compute`: for every input in turn, a pass over the
   * input layer gives each yielded node that input. Only the first pass
   * yields anything, so those nodes all get the first input.
   */
  method FeedInputs(layer: Layer, inputs: seq<real>, ghost ns: set<Neuron>)
    requires forall k :: 0 <= k < |layer.nodes| ==> layer.nodes[k] in ns && layer.nodes[k].slot == (0, k)
    modifies layer`pointer, ns`value
    ensures layer.pointer >= old(layer.pointer)
    ensures forall k :: 0 <= k < |layer.nodes| ==>
              layer.nodes[k].value ==
                if old(layer.pointer) <= k && |inputs| > 0 then Number(inputs[0]) else old(layer.nodes[k].value)
    ensures forall n :: n in ns && n.slot.0 != 0 ==> n.value == old(n.value)
  {
    ghost var start := layer.pointer;
    for i := 0 to |inputs|
      invariant layer.pointer >= start && (i == 0 ==> layer.pointer == start) && (i > 0 ==> Drained(layer))
      invariant forall k :: 0 <= k < |layer.nodes| ==>
                  layer.nodes[k].value ==
                    if start <= k && i > 0 then Number(inputs[0]) else old(layer.nodes[k].value)
      invariant forall n :: n in ns && n.slot.0 != 0 ==> n.value == old(n.value)
    {
      var yielded := layer.Pass();
      for j := 0 to |yielded|
        invariant Drained(layer) && layer.pointer >= start
        invariant forall k :: 0 <= k < |layer.nodes| ==>
                    layer.nodes[k].value ==
                      if start <= k && (i > 0 || k < start + j) then Number(inputs[0]) else old(layer.nodes[k].value)
        invariant forall n :: n in ns && n.slot.0 != 0 ==> n.value == old(n.value)
      {
        assert i == 0 && yielded[j] == layer.nodes[start + j];
        yielded[j].value := Number(inputs[i]);
      }
    }
  }

  /**
   * One step of the layer loop of `compute`: for every node a pass over
   * `layer` yields, a pass over `previous` and, for each node it yields,
   * the activation of that node's weighted sum. Uses up `layer`'s
   * iterator; only neurons of layer `l` change their value.
   */
  method ActivateLayer(previous: Layer, layer: Layer, activate: real -> real, ghost l: nat, ghost ns: set<Neuron>)
    requires previous != layer
    requires forall k :: 0 <= k < |layer.nodes| ==> layer.nodes[k] in ns && layer.nodes[k].slot == (l, k)
    modifies previous`pointer, layer`pointer, ns`value
    ensures Drained(layer) && previous.pointer >= old(previous.pointer)
    ensures forall n :: n in ns && n.slot.0 != l ==> n.value == old(n.value)
  {
    var yielded := layer.Pass();
    for j := 0 to |yielded|
      invariant Drained(layer) && previous.pointer >= old(previous.pointer)
      invariant forall n :: n in ns && n.slot.0 != l ==> n.value == old(n.value)
    {
      var neuron := yielded[j];
      assert neuron in ns && neuron.slot.0 == l;
      var inputs := previous.Pass();
      for m := 0 to |inputs|
        invariant Drained(layer) && previous.pointer >= old(previous.pointer)
        invariant forall n :: n in ns && n.slot.0 != l ==> n.value == old(n.value)
      {
        var sum := inputs[m].Sum();
        neuron.Activate(sum, activate);
      }
    }
  }

  /** The body of `compute`: the input loop, the layer loop, then a pass over the output layer. */
  method Run(layers: seq<Layer>, inputs: seq<real>, activate: real -> real, ghost ls: set<Layer>, ghost ns: set<Neuron>)
      returns (outputs: seq<Value>)
    requires |layers| >= 2 && Placed(layers, ls, ns)
    modifies ls`pointer, ns`value
    ensures outputs == []
    ensures forall l :: 1 <= l < |layers| ==> Drained(layers[l])
    ensures forall k :: 0 <= k < |layers[0].nodes| ==>
              layers[0].nodes[k].value ==
                if old(layers[0].pointer) <= k && |inputs| > 0 then Number(inputs[0]) else old(layers[0].nodes[k].value)
  {
    FeedInputs(layers[0], inputs, ns);
    label Fed:
    for i := 1 to |layers|
      invariant forall l :: 1 <= l < i ==> Drained(layers[l])
      invariant forall n :: n in ns && n.slot.0 == 0 ==> n.value == old@Fed(n.value)
    {
      ActivateLayer(layers[i - 1], layers[i], activate, i, ns);
    }
    outputs := layers[|layers| - 1].Values();
  }
}
