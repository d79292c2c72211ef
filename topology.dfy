/**
 * Layer sizes and the flat weight list of a layered network.
 *
 * A network of layer sizes `sizes` holds, for every layer `l` and every
 * node `k` of that layer, one weight per node of layer `l - 1` (none for the
 * input layer). Its nested weights `w` are indexed `w[l][k][j]`; the flat
 * list lists them layer by layer, node by node, weight by weight.
 */
module Topology {

  /** The layer sizes of the shape `[input, hidden, output]`. */
  function ShapeSizes(input: nat, hidden: seq<nat>, output: nat): (sizes: seq<nat>)
    ensures |sizes| == |hidden| + 2
    ensures sizes[0] == input && sizes[|sizes| - 1] == output
    ensures forall h :: 0 <= h < |hidden| ==> sizes[h + 1] == hidden[h]
  {
    [input] + hidden + [output]
  }

  /** Incoming weights of one node of layer `l`, when the layer before the first has `prev` nodes. */
  function Fan(sizes: seq<nat>, prev: nat, l: nat): nat
    requires l < |sizes|
  {
    if l == 0 then prev else sizes[l - 1]
  }

  /** Number of weights of the layers `sizes`, the first of which is fed by `prev` nodes. */
  function WeightCountFrom(sizes: seq<nat>, prev: nat): nat
  {
    if sizes == [] then 0 else sizes[0] * prev + WeightCountFrom(sizes[1..], sizes[0])
  }

  /** Number of weights of a whole network: the sum over l > 0 of sizes[l] * sizes[l - 1]. */
  function WeightCount(sizes: seq<nat>): nat
  {
    WeightCountFrom(sizes, 0)
  }

  /** The nested weights `w` fit the layer sizes. */
  ghost predicate ConformsFrom(w: seq<seq<seq<real>>>, sizes: seq<nat>, prev: nat)
  {
    |w| == |sizes| &&
    forall l :: 0 <= l < |w| ==>
      |w[l]| == sizes[l] &&
      forall k :: 0 <= k < |w[l]| ==> |w[l][k]| == Fan(sizes, prev, l)
  }

  ghost predicate Conforms(w: seq<seq<seq<real>>>, sizes: seq<nat>)
  {
    ConformsFrom(w, sizes, 0)
  }

  function Concat<T>(rows: seq<seq<T>>): seq<T>
  {
    if rows == [] then [] else rows[0] + Concat(rows[1..])
  }

  /** The flat weight list: layer by layer, node by node, weight by weight. */
  function Flatten(w: seq<seq<seq<real>>>): seq<real>
  {
    if w == [] then [] else Concat(w[0]) + Flatten(w[1..])
  }

  /** The first `count` rows of `width` entries each of `flat`. */
  function Chunks(flat: seq<real>, count: nat, width: nat): (rows: seq<seq<real>>)
    requires count * width <= |flat|
    ensures |rows| == count
    ensures forall k :: 0 <= k < count ==> |rows[k]| == width
  {
    if count == 0 then []
    else
      MulSucc(count, width);
      [flat[..width]] + Chunks(flat[width..], count - 1, width)
  }

  /** Rebuilds nested weights from a flat list: the inverse of Flatten. */
  function UnflattenFrom(sizes: seq<nat>, prev: nat, flat: seq<real>): seq<seq<seq<real>>>
    requires WeightCountFrom(sizes, prev) <= |flat|
  {
    if sizes == [] then []
    else [Chunks(flat, sizes[0], prev)] + UnflattenFrom(sizes[1..], sizes[0], flat[sizes[0] * prev..])
  }

  function Unflatten(sizes: seq<nat>, flat: seq<real>): seq<seq<seq<real>>>
    requires WeightCount(sizes) <= |flat|
  {
    UnflattenFrom(sizes, 0, flat)
  }

  // ---------------------------------------------------------------------
  // Lengths

  lemma MulSucc(count: nat, width: nat)
    requires count > 0
    ensures count * width == width + (count - 1) * width
  {
  }

  lemma MulMono(a: nat, b: nat, c: nat)
    requires a <= b
    ensures a * c <= b * c
  {
  }

  lemma {:induction false} ConcatLength(rows: seq<seq<real>>, width: nat)
    requires forall k :: 0 <= k < |rows| ==> |rows[k]| == width
    ensures |Concat(rows)| == |rows| * width
  {
    if rows != [] {
      ConcatLength(rows[1..], width);
      MulSucc(|rows|, width);
    }
  }

  lemma ConformsTail(w: seq<seq<seq<real>>>, sizes: seq<nat>, prev: nat)
    requires ConformsFrom(w, sizes, prev) && w != []
    ensures ConformsFrom(w[1..], sizes[1..], sizes[0])
  {
    forall l | 0 <= l < |w[1..]|
      ensures |w[1..][l]| == sizes[1..][l]
      ensures forall k :: 0 <= k < |w[1..][l]| ==> |w[1..][l][k]| == Fan(sizes[1..], sizes[0], l)
    {
      assert w[1..][l] == w[l + 1];
    }
  }

  /** The flat list of a conforming network holds exactly WeightCount weights. */
  lemma {:induction false} FlattenLength(w: seq<seq<seq<real>>>, sizes: seq<nat>, prev: nat)
    requires ConformsFrom(w, sizes, prev)
    ensures |Flatten(w)| == WeightCountFrom(sizes, prev)
  {
    if w != [] {
      ConcatLength(w[0], prev);
      ConformsTail(w, sizes, prev);
      FlattenLength(w[1..], sizes[1..], sizes[0]);
    }
  }

  // ---------------------------------------------------------------------
  // Round trips between the nested and the flat form

  lemma {:induction false} ConcatChunks(flat: seq<real>, count: nat, width: nat)
    requires count * width <= |flat|
    ensures Concat(Chunks(flat, count, width)) == flat[..count * width]
  {
    if count > 0 {
      MulSucc(count, width);
      ConcatChunks(flat[width..], count - 1, width);
    }
  }

  lemma {:induction false} ChunksConcat(rows: seq<seq<real>>, width: nat, flat: seq<real>)
    requires forall k :: 0 <= k < |rows| ==> |rows[k]| == width
    requires |rows| * width <= |flat| && Concat(rows) <= flat
    ensures Chunks(flat, |rows|, width) == rows
  {
    ConcatLength(rows, width);
    if rows != [] {
      MulSucc(|rows|, width);
      ConcatLength(rows[1..], width);
      assert flat[..width] == rows[0];
      ChunksConcat(rows[1..], width, flat[width..]);
    }
  }

  lemma {:induction false} UnflattenConforms(sizes: seq<nat>, prev: nat, flat: seq<real>)
    requires WeightCountFrom(sizes, prev) <= |flat|
    ensures ConformsFrom(UnflattenFrom(sizes, prev, flat), sizes, prev)
  {
    if sizes != [] {
      UnflattenConforms(sizes[1..], sizes[0], flat[sizes[0] * prev..]);
      var w := UnflattenFrom(sizes, prev, flat);
      forall l | 0 <= l < |w|
        ensures |w[l]| == sizes[l]
        ensures forall k :: 0 <= k < |w[l]| ==> |w[l][k]| == Fan(sizes, prev, l)
      {
        if l > 0 {
          assert w[l] == UnflattenFrom(sizes[1..], sizes[0], flat[sizes[0] * prev..])[l - 1];
        }
      }
    }
  }

  /** Flattening the rebuilt weights gives back the weights that were read. */
  lemma {:induction false} FlattenUnflatten(sizes: seq<nat>, prev: nat, flat: seq<real>)
    requires WeightCountFrom(sizes, prev) <= |flat|
    ensures Flatten(UnflattenFrom(sizes, prev, flat)) == flat[..WeightCountFrom(sizes, prev)]
  {
    if sizes != [] {
      var head, tail := sizes[0] * prev, WeightCountFrom(sizes[1..], sizes[0]);
      assert WeightCountFrom(sizes, prev) == head + tail;
      ConcatChunks(flat, sizes[0], prev);
      FlattenUnflatten(sizes[1..], sizes[0], flat[head..]);
      assert flat[..head + tail] == flat[..head] + flat[head..][..tail];
    }
  }

  /** Rebuilding from the flat list of a conforming network gives back the network. */
  lemma {:induction false} UnflattenFlatten(w: seq<seq<seq<real>>>, sizes: seq<nat>, prev: nat)
    requires ConformsFrom(w, sizes, prev)
    ensures |Flatten(w)| == WeightCountFrom(sizes, prev) && UnflattenFrom(sizes, prev, Flatten(w)) == w
  {
    FlattenLength(w, sizes, prev);
    if w != [] {
      ConformsTail(w, sizes, prev);
      ConcatLength(w[0], prev);
      ChunksConcat(w[0], prev, Flatten(w));
      assert Flatten(w)[sizes[0] * prev..] == Flatten(w[1..]);
      UnflattenFlatten(w[1..], sizes[1..], sizes[0]);
    }
  }

  /** Two conforming networks with the same flat list are the same network. */
  lemma FlattenInjective(a: seq<seq<seq<real>>>, b: seq<seq<seq<real>>>, sizes: seq<nat>)
    requires Conforms(a, sizes) && Conforms(b, sizes) && Flatten(a) == Flatten(b)
    ensures a == b
  {
    UnflattenFlatten(a, sizes, 0);
    UnflattenFlatten(b, sizes, 0);
  }

  /** The rebuilt weights depend only on the first WeightCount entries of the list. */
  lemma {:induction false} UnflattenPrefix(sizes: seq<nat>, prev: nat, flat: seq<real>, more: seq<real>)
    requires WeightCountFrom(sizes, prev) <= |flat|
    requires flat[..WeightCountFrom(sizes, prev)] <= more
    ensures UnflattenFrom(sizes, prev, more) == UnflattenFrom(sizes, prev, flat)
  {
    if sizes != [] {
      var head := sizes[0] * prev;
      assert flat[..head] == more[..head];
      ChunksPrefix(flat, more, sizes[0], prev);
      assert flat[head..][..WeightCountFrom(sizes[1..], sizes[0])]
          == flat[..WeightCountFrom(sizes, prev)][head..];
      UnflattenPrefix(sizes[1..], sizes[0], flat[head..], more[head..]);
    }
  }

  lemma {:induction false} ChunksPrefix(flat: seq<real>, more: seq<real>, count: nat, width: nat)
    requires count * width <= |flat| && count * width <= |more|
    requires flat[..count * width] == more[..count * width]
    ensures Chunks(flat, count, width) == Chunks(more, count, width)
  {
    if count > 0 {
      var n, rest := count * width, (count - 1) * width;
      MulSucc(count, width);
      assert flat[..width] == flat[..n][..width];
      assert more[..width] == more[..n][..width];
      assert flat[width..][..rest] == flat[..n][width..];
      assert more[width..][..rest] == more[..n][width..];
      ChunksPrefix(flat[width..], more[width..], count - 1, width);
    }
  }

  // ---------------------------------------------------------------------
  // Growing a network one layer or one node at a time

  lemma {:induction false} ConcatAppend(rows: seq<seq<real>>, row: seq<real>)
    ensures Concat(rows + [row]) == Concat(rows) + row
  {
    if rows == [] {
      assert [row][1..] == [];
    } else {
      assert (rows + [row])[1..] == rows[1..] + [row];
      ConcatAppend(rows[1..], row);
    }
  }

  lemma {:induction false} FlattenAppend(w: seq<seq<seq<real>>>, layer: seq<seq<real>>)
    ensures Flatten(w + [layer]) == Flatten(w) + Concat(layer)
  {
    if w == [] {
      assert [layer][1..] == [];
    } else {
      assert (w + [layer])[1..] == w[1..] + [layer];
      FlattenAppend(w[1..], layer);
    }
  }

  lemma {:induction false} WeightCountAppend(sizes: seq<nat>, prev: nat, size: nat)
    ensures WeightCountFrom(sizes + [size], prev)
         == WeightCountFrom(sizes, prev) + size * (if sizes == [] then prev else sizes[|sizes| - 1])
         >= WeightCountFrom(sizes, prev)
  {
    if sizes != [] {
      assert (sizes + [size])[1..] == sizes[1..] + [size];
      WeightCountAppend(sizes[1..], sizes[0], size);
    }
  }

  /** The weights of a network split into those of its first `i` layers and the rest. */
  lemma {:induction false} WeightCountSplit(sizes: seq<nat>, prev: nat, i: nat)
    requires i <= |sizes|
    ensures WeightCountFrom(sizes, prev)
         == WeightCountFrom(sizes[..i], prev) + WeightCountFrom(sizes[i..], if i == 0 then prev else sizes[i - 1])
  {
    if i == 0 {
      assert sizes[..0] == [] && sizes[0..] == sizes;
    } else {
      assert sizes[..i][0] == sizes[0] && sizes[..i][1..] == sizes[1..][..i - 1];
      assert sizes[1..][i - 1..] == sizes[i..];
      WeightCountSplit(sizes[1..], sizes[0], i - 1);
    }
  }

  /** The weight count of the shape `[input, hidden, output]`. */
  lemma ShapeWeightCount(input: nat, hidden: seq<nat>, output: nat)
    ensures WeightCount(ShapeSizes(input, hidden, output))
         == WeightCountFrom(hidden + [output], input)
  {
    assert ShapeSizes(input, hidden, output)[1..] == hidden + [output];
  }
}
