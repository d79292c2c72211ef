/**
 * The counts and the pairing order `next` uses to fill a generation of
 * `N` networks: `Math.round(0.2 * N)` elites, as many fresh networks, and
 * then one child per pair `(i, ceiling)`, ceiling = 1, 2, ... and
 * i = 0 .. ceiling - 1, until the generation is full.
 */
module Schedule {

  /**
   * `Math.round(0.2 * n)`, the elite count and the fresh-network count
   * (elitismRate and randomnessRate are both 0.2). `0.2 * n` is never
   * exactly halfway between two integers, so no tie rule comes in.
   */
  function Fifth(n: nat): nat {
    (2 * n + 5) / 10
  }

  /** `Fifth(n)` is the integer nearest to `0.2 * n`, which is what Math.round returns. */
  lemma FifthIsRounded(n: nat)
    ensures (Fifth(n) as real) - 0.5 <= 0.2 * (n as real) < (Fifth(n) as real) + 0.5
  {
    var r := Fifth(n);
    assert 10 * r <= 2 * n + 5 < 10 * r + 10;
    assert (10 * r) as real <= (2 * n + 5) as real < (10 * r + 10) as real;
  }

  /** Elites and fresh networks together leave room for at least one child once `n >= 1`. */
  lemma FifthsBelow(n: nat)
    requires n >= 1
    ensures 2 * Fifth(n) < n
  {
  }

  /** The pairs `(i, c)` visited for `c = 1 .. ceiling - 1`, in order. */
  function Pairs(ceiling: nat): seq<(nat, nat)> {
    if ceiling <= 1 then [] else Pairs(ceiling - 1) + Row(ceiling - 1)
  }

  /** Every pair listed is `(i, c)` with `i < c < ceiling`. */
  lemma {:induction false} PairsInRange(ceiling: nat)
    ensures forall t :: 0 <= t < |Pairs(ceiling)| ==> Pairs(ceiling)[t].0 < Pairs(ceiling)[t].1 < ceiling
  {
    if ceiling > 1 {
      PairsInRange(ceiling - 1);
      var before := Pairs(ceiling - 1);
      forall t | 0 <= t < |Pairs(ceiling)|
        ensures Pairs(ceiling)[t].0 < Pairs(ceiling)[t].1 < ceiling
      {
        if t >= |before| {
          assert Pairs(ceiling)[t] == Row(ceiling - 1)[t - |before|];
        } else {
          assert Pairs(ceiling)[t] == before[t];
        }
      }
    }
  }

  /** Pair `t` of the pairs below `n`. */
  function PairAt(n: nat, t: nat): (pair: (nat, nat))
    requires t < |Pairs(n)|
    ensures pair == Pairs(n)[t] && pair.0 < pair.1 < n
  {
    PairsInRange(n);
    Pairs(n)[t]
  }

  /** The row of ceiling `c` follows, within `Pairs(n)`, the pairs of the smaller ceilings. */
  lemma RowInPairs(c: nat, n: nat)
    requires c < n
    ensures |Pairs(c)| + c <= |Pairs(n)|
    ensures forall i :: 0 <= i < c ==> Pairs(n)[|Pairs(c)| + i] == (i, c)
  {
    PairsPrefix(c + 1, n);
    if c >= 1 {
      assert Pairs(c + 1) == Pairs(c) + Row(c);
      forall i | 0 <= i < c
        ensures Pairs(n)[|Pairs(c)| + i] == (i, c)
      {
        assert Pairs(n)[|Pairs(c)| + i] == Pairs(c + 1)[|Pairs(c)| + i];
      }
    }
  }

  /** The pairs with second entry `c`: `(0, c), ..., (c - 1, c)`. */
  function Row(c: nat): (row: seq<(nat, nat)>)
    ensures |row| == c && forall i :: 0 <= i < c ==> row[i] == (i, c)
  {
    seq(c, i requires 0 <= i < c => (i, c))
  }

  /** Where pair `(i, c)` sits: after all the pairs of smaller ceilings. */
  function Slot(i: nat, c: nat): nat {
    c * (c - 1) / 2 + i
  }

  lemma SlotStep(c: nat)
    ensures Slot(0, c + 1) == Slot(0, c) + c
  {
    if c > 0 {
      assert (c + 1) * c == c * (c - 1) + 2 * c;
    }
  }

  /**
   * There are `n * (n - 1) / 2` pairs below `n`, every pair `i < c < n`
   * sits at `Slot(i, c)`, and nothing else is listed.
   */
  lemma {:induction false} PairsIndex(n: nat)
    ensures |Pairs(n)| == Slot(0, n)
    ensures forall i, c :: 0 <= i < c < n ==> Slot(i, c) < |Pairs(n)| && Pairs(n)[Slot(i, c)] == (i, c)
  {
    if n > 1 {
      PairsIndex(n - 1);
      SlotStep(n - 1);
      var ps := Pairs(n);
      assert ps == Pairs(n - 1) + Row(n - 1);
      forall i, c | 0 <= i < c < n
        ensures Slot(i, c) < |ps| && ps[Slot(i, c)] == (i, c)
      {
        if c == n - 1 {
          assert ps[Slot(0, n - 1) + i] == Row(n - 1)[i];
        } else {
          SlotMono(c, n - 1);
        }
      }
    }
  }

  /** The pairs below `c` are the first pairs below any larger `n`. */
  lemma {:induction false} PairsPrefix(c: nat, n: nat)
    requires c <= n
    ensures |Pairs(c)| <= |Pairs(n)| && Pairs(n)[..|Pairs(c)|] == Pairs(c)
    decreases n - c
  {
    if c < n {
      PairsPrefix(c, n - 1);
      if n > 1 {
        assert Pairs(n) == Pairs(n - 1) + Row(n - 1);
        assert Pairs(n)[..|Pairs(n - 1)|] == Pairs(n - 1);
      }
    }
  }

  lemma {:induction false} SlotMono(c: nat, d: nat)
    requires c < d
    ensures Slot(0, c) + c <= Slot(0, d)
    decreases d - c
  {
    SlotStep(c);
    if c + 1 < d {
      SlotMono(c + 1, d);
      SlotStep(c + 1);
    }
  }

  /**
   * The pairs are visited in increasing order of ceiling and, for one
   * ceiling, of `i`: pair `t` comes before pair `u` exactly when it is
   * lexicographically smaller on `(ceiling, i)`.
   */
  lemma {:induction false} PairsOrdered(n: nat)
    ensures forall t, u :: 0 <= t < u < |Pairs(n)| ==>
              Pairs(n)[t].1 < Pairs(n)[u].1 || (Pairs(n)[t].1 == Pairs(n)[u].1 && Pairs(n)[t].0 < Pairs(n)[u].0)
  {
    if n > 1 {
      PairsOrdered(n - 1);
      PairsInRange(n - 1);
      var ps := Pairs(n);
      var before := Pairs(n - 1);
      assert ps == before + Row(n - 1);
      forall t, u | 0 <= t < u < |ps|
        ensures ps[t].1 < ps[u].1 || (ps[t].1 == ps[u].1 && ps[t].0 < ps[u].0)
      {
        if u >= |before| {
          assert ps[u] == Row(n - 1)[u - |before|];
          if t >= |before| {
            assert ps[t] == Row(n - 1)[t - |before|];
          } else {
            assert ps[t] == before[t];
          }
        } else {
          assert ps[t] == before[t] && ps[u] == before[u];
        }
      }
    }
  }

  /**
   * The length of the generation `next` builds for a population count of
   * `n`: the elites, the fresh networks, one child per pair, stopped at `n`.
   * With `n >= 3` there are always enough pairs to fill it; with `n` of 1
   * or 2 the generation comes out smaller than `n`.
   */
  lemma GenerationSize(n: nat)
    ensures n >= 3 ==> 2 * Fifth(n) + |Pairs(n)| >= n
    ensures n == 1 ==> 2 * Fifth(n) + |Pairs(n)| == 0
    ensures n == 2 ==> 2 * Fifth(n) + |Pairs(n)| == 1
  {
    PairsIndex(n);
    if n >= 3 {
      assert Slot(0, n) == n * (n - 1) / 2;
      assert n * (n - 1) >= 2 * n;
    }
  }
}
