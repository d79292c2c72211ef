/**
 * The Math.random() calls of the networks and of the genetic algorithm,
 * made explicit. Draw number `k` of a run is `random(k)`; every operation
 * that draws takes the position of its first draw and, where the number of
 * draws depends on the data, returns the position after its last one.
 */
module Random {

  /** The successive results of Math.random(), as an infinite sequence. */
  type Stream = nat -> real

  /** Math.random() returns values in [0, 1). */
  ghost predicate UnitStream(random: Stream) {
    forall k: nat :: 0.0 <= random(k) < 1.0
  }

  /** `Math.random() * 2 - 1`: a fresh weight. */
  function RandomClamped(r: real): (w: real)
    ensures 0.0 <= r < 1.0 ==> -1.0 <= w < 1.0
    ensures r == (w + 1.0) / 2.0
  {
    r * 2.0 - 1.0
  }

  /** The `count` weights drawn one after the other from position `pos`. */
  function Draws(random: Stream, pos: nat, count: nat): (w: seq<real>)
  {
    seq(count, i requires 0 <= i < count => RandomClamped(random(pos + i)))
  }

  /** Every freshly drawn weight lies in [-1, 1). */
  lemma DrawsInRange(random: Stream, pos: nat, count: nat)
    requires UnitStream(random)
    ensures |Draws(random, pos, count)| == count
    ensures forall i :: 0 <= i < count ==> -1.0 <= Draws(random, pos, count)[i] < 1.0
  {
    forall i | 0 <= i < count
      ensures -1.0 <= Draws(random, pos, count)[i] < 1.0
    {
      assert 0.0 <= random(pos + i) < 1.0;
      assert Draws(random, pos, count)[i] == RandomClamped(random(pos + i));
    }
  }

  /** Drawing `a` weights and then `b` more is drawing `a + b` weights. */
  lemma DrawsSplit(random: Stream, pos: nat, a: nat, b: nat)
    ensures Draws(random, pos, a) + Draws(random, pos + a, b) == Draws(random, pos, a + b)
  {
    var whole := Draws(random, pos, a + b);
    var joined := Draws(random, pos, a) + Draws(random, pos + a, b);
    assert |joined| == |whole|;
    forall i | 0 <= i < a + b
      ensures joined[i] == whole[i]
    {
      if i >= a {
        assert joined[i] == Draws(random, pos + a, b)[i - a];
      }
    }
  }
}
