/**
 * `crossover` and `mutate` of the genetic algorithm (genetic-algorithm.ts,
 * dist/genetic-algorithm.js): both walk the indices of a weight list and
 * overwrite entries of the child's `{nodes, weights}` record in place, one
 * Math.random() draw per index, plus a second draw for every weight that
 * mutates.
 */
module Breeding {
  import opened Random
  import opened Network

  /** A weight is taken from the second parent when its draw is at most this. */
  const CrossoverRange: real := 0.5
  /** A weight mutates when its draw is at most this. */
  const MutationRate: real := 0.1
  /** A mutation adds an amount drawn from [-MutationRange, MutationRange). */
  const MutationRange: real := 0.5

  /**
   * Uniform crossover of `theirs` into `mine`: index `i` below `|theirs|`
   * consults draw `pos + i`; the other indices are not visited.
   */
  function Crossed(mine: seq<real>, theirs: seq<real>, random: Stream, pos: nat): (child: seq<real>)
    requires |theirs| <= |mine|
    ensures |child| == |mine|
    ensures forall i :: 0 <= i < |mine| ==> child[i] == mine[i] || (i < |theirs| && child[i] == theirs[i])
    ensures forall i :: |theirs| <= i < |mine| ==> child[i] == mine[i]
    decreases |theirs|
  {
    if theirs == [] then mine
    else
      var rest := Crossed(mine[1..], theirs[1..], random, pos + 1);
      var child := [if random(pos) <= CrossoverRange then theirs[0] else mine[0]] + rest;
      assert forall i :: 1 <= i < |mine| ==> child[i] == rest[i - 1] && mine[i] == mine[1..][i - 1];
      assert forall i :: 1 <= i < |theirs| ==> theirs[i] == theirs[1..][i - 1];
      child
  }

  /**
   * Crossover decides index by index: the child holds the second parent's
   * weight where the draw is at most the crossover range and its own
   * weight where the draw is above it.
   */
  lemma {:induction false} CrossedChoice(mine: seq<real>, theirs: seq<real>, random: Stream, pos: nat, i: nat)
    requires |theirs| <= |mine| && i < |theirs|
    ensures random(pos + i) <= CrossoverRange ==> Crossed(mine, theirs, random, pos)[i] == theirs[i]
    ensures random(pos + i) > CrossoverRange ==> Crossed(mine, theirs, random, pos)[i] == mine[i]
    decreases i
  {
    if i > 0 {
      CrossedChoice(mine[1..], theirs[1..], random, pos + 1, i - 1);
    }
  }

  /** Crossing a list with itself leaves it as it is. */
  lemma CrossedSelf(mine: seq<real>, random: Stream, pos: nat)
    ensures Crossed(mine, mine, random, pos) == mine
  {
  }

  /** The record after `mutate`, and the position of the next unused draw. */
  datatype Mutation = Mutation(weights: seq<real>, next: nat)

  /** The amount a mutating weight changes by, from its second draw `r`. */
  function Shift(r: real): (delta: real)
    ensures 0.0 <= r < 1.0 ==> -MutationRange <= delta < MutationRange
    ensures delta == r - 0.5
  {
    r * MutationRange * 2.0 - MutationRange
  }

  /**
   * `mutate` on the list `ws`, drawing from `pos`: each weight in turn
   * draws; when that draw is at most the mutation rate, a second draw
   * gives the shift added to it.
   */
  function Mutated(ws: seq<real>, random: Stream, pos: nat): (m: Mutation)
    ensures |m.weights| == |ws|
    ensures pos + |ws| <= m.next <= pos + 2 * |ws|
  {
    if ws == [] then Mutation([], pos)
    else
      var before := Mutated(ws[..|ws| - 1], random, pos);
      var p := before.next;
      var w := ws[|ws| - 1];
      if random(p) <= MutationRate then Mutation(before.weights + [w + Shift(random(p + 1))], p + 2)
      else Mutation(before.weights + [w], p + 1)
  }

  /** The position of the draw that decides whether weight `i` mutates. */
  function DrawFor(ws: seq<real>, random: Stream, pos: nat, i: nat): nat
    requires i <= |ws|
  {
    Mutated(ws[..i], random, pos).next
  }

  /**
   * Weight `i` after `mutate` depends only on the weights before it (through
   * the position of its draw): it is shifted by the draw after its own when
   * that draw is at most the mutation rate, and unchanged otherwise.
   */
  lemma {:induction false} MutatedAt(ws: seq<real>, random: Stream, pos: nat, i: nat)
    requires i < |ws|
    ensures var p := DrawFor(ws, random, pos, i);
      Mutated(ws, random, pos).weights[i] ==
        if random(p) <= MutationRate then ws[i] + Shift(random(p + 1)) else ws[i]
  {
    var last := |ws| - 1;
    var init := ws[..last];
    if i < last {
      MutatedAt(init, random, pos, i);
      assert init[..i] == ws[..i];
    } else {
      assert init == ws[..i];
    }
  }

  /**
   * `mutate` keeps the weight count, changes a weight only when its draw is
   * at most the mutation rate, and then by an amount in [-0.5, 0.5).
   */
  lemma MutationBounded(ws: seq<real>, random: Stream, pos: nat)
    requires UnitStream(random)
    ensures var m := Mutated(ws, random, pos);
      && |m.weights| == |ws|
      && (forall i :: 0 <= i < |ws| ==> -MutationRange <= m.weights[i] - ws[i] < MutationRange)
      && (forall i :: 0 <= i < |ws| && m.weights[i] != ws[i] ==>
            random(DrawFor(ws, random, pos, i)) <= MutationRate)
  {
    var m := Mutated(ws, random, pos);
    forall i | 0 <= i < |ws|
      ensures -MutationRange <= m.weights[i] - ws[i] < MutationRange
      ensures m.weights[i] != ws[i] ==> random(DrawFor(ws, random, pos, i)) <= MutationRate
    {
      MutatedAt(ws, random, pos, i);
      var p := DrawFor(ws, random, pos, i);
      assert 0.0 <= random(p + 1) < 1.0;
    }
  }

  /**
   * `crossover(child, parentTwo)`: walks the indices of the second parent's
   * weights and, where the draw is at most the crossover range, copies its
   * weight into the child's record. The child may be the second parent's
   * own record, in which case nothing changes.
   */
  method Crossover(child: DataRecord, parentTwo: DataRecord, random: Stream, pos: nat) returns (next: nat)
    requires |parentTwo.weights| <= |child.weights|
    modifies child`weights
    ensures child.weights == Crossed(old(child.weights), old(parentTwo.weights), random, pos)
    ensures next == pos + old(|parentTwo.weights|)
  {
    ghost var mine, theirs := child.weights, parentTwo.weights;
    ghost var target := Crossed(mine, theirs, random, pos);
    var n := |parentTwo.weights|;
    var i := 0;
    while i < n
      invariant i <= n == |theirs| <= |mine| == |child.weights|
      invariant forall k :: 0 <= k < i ==> child.weights[k] == target[k]
      invariant forall k :: i <= k < |mine| ==> child.weights[k] == mine[k]
      invariant parentTwo != child ==> parentTwo.weights == theirs
      invariant parentTwo == child ==> mine == theirs
    {
      CrossedChoice(mine, theirs, random, pos, i);
      if random(pos + i) <= CrossoverRange {
        child.weights := child.weights[i := parentTwo.weights[i]];
      }
      i := i + 1;
    }
    assert child.weights == target;
    next := pos + n;
  }

  /**
   * One step of `mutate`: with the weights before `i` already mutated and
   * the rest as they were, deciding weight `i` gives the state after `i + 1`
   * weights.
   */
  lemma MutateStep(ws: seq<real>, random: Stream, pos: nat, i: nat, current: seq<real>)
    requires i < |ws| && current == Mutated(ws[..i], random, pos).weights + ws[i..]
    ensures var p := Mutated(ws[..i], random, pos).next;
      var after := Mutated(ws[..i + 1], random, pos);
      if random(p) <= MutationRate then
        current[i := current[i] + Shift(random(p + 1))] == after.weights + ws[i + 1..] && after.next == p + 2
      else
        current == after.weights + ws[i + 1..] && after.next == p + 1
  {
    var before := Mutated(ws[..i], random, pos);
    assert ws[..i + 1][..i] == ws[..i];
    assert ws[i..] == [ws[i]] + ws[i + 1..];
    assert current[i] == ws[i];
    var p := before.next;
    if random(p) <= MutationRate {
      assert current[i := ws[i] + Shift(random(p + 1))] == (before.weights + [ws[i] + Shift(random(p + 1))]) + ws[i + 1..];
    } else {
      assert current == (before.weights + [ws[i]]) + ws[i + 1..];
    }
  }

  /**
   * `mutate(data)`: walks the indices of the record's weights and shifts
   * each weight whose draw is at most the mutation rate.
   */
  method Mutate(data: DataRecord, random: Stream, pos: nat) returns (next: nat)
    modifies data`weights
    ensures data.weights == Mutated(old(data.weights), random, pos).weights
    ensures next == Mutated(old(data.weights), random, pos).next
  {
    ghost var ws := data.weights;
    next := pos;
    var i := 0;
    while i < |data.weights|
      invariant i <= |data.weights| == |ws|
      invariant data.weights == Mutated(ws[..i], random, pos).weights + ws[i..]
      invariant next == Mutated(ws[..i], random, pos).next
    {
      MutateStep(ws, random, pos, i, data.weights);
      if random(next) <= MutationRate {
        data.weights := data.weights[i := data.weights[i] + Shift(random(next + 1))];
        next := next + 2;
      } else {
        next := next + 1;
      }
      i := i + 1;
    }
    assert ws[..i] == ws;
  }
}
