/**
 * `rank` of the genetic algorithm: the population is mapped to
 * `{index, score}` entries, the entries are sorted with a three-way
 * comparator on the scores, and the sorted entries are mapped back to the
 * population. JavaScript's `Array.prototype.sort` is stable, so the result
 * is the one ordering that is sorted by the comparator and keeps entries
 * the comparator calls equal in their original order.
 */
module Ranking {
  /**
   * The two comparators in the repository: `Descending` returns -1 when
   * `a.score > b.score` (genetic-algorithm.ts, dist/genetic-algorithm.js),
   * `Ascending` returns 1 in that case (dist/dist.js).
   */
  datatype Direction = Descending | Ascending

  /** The comparator passed to `sort`. */
  function Compare(dir: Direction, a: real, b: real): (c: int)
    ensures c == -1 || c == 0 || c == 1
    ensures c == 0 <==> a == b
  {
    match dir
    case Descending => if a > b then -1 else if a < b then 1 else 0
    case Ascending => if a > b then 1 else if a < b then -1 else 0
  }

  /**
   * Entry `i` goes before entry `j` in a stable sort: the comparator puts
   * it first, or calls the two equal and `i` came first.
   */
  predicate Ahead(scores: seq<real>, dir: Direction, i: nat, j: nat)
    requires i < |scores| && j < |scores|
  {
    var c := Compare(dir, scores[i], scores[j]);
    c < 0 || (c == 0 && i < j)
  }

  lemma AheadTransitive(scores: seq<real>, dir: Direction, i: nat, j: nat, k: nat)
    requires i < |scores| && j < |scores| && k < |scores|
    requires Ahead(scores, dir, i, j) && Ahead(scores, dir, j, k)
    ensures Ahead(scores, dir, i, k)
  {
  }

  /** Each index sits ahead of every later one: sorted, and ties in their original order. */
  ghost predicate Chain(scores: seq<real>, dir: Direction, s: seq<nat>)
  {
    (forall k :: 0 <= k < |s| ==> s[k] < |scores|) &&
    forall i, j :: 0 <= i < j < |s| ==> Ahead(scores, dir, s[i], s[j])
  }

  /** The indices `0, 1, ..., n - 1`. */
  function Range(n: nat): (r: seq<nat>)
    ensures |r| == n && forall k :: 0 <= k < n ==> r[k] == k
  {
    if n == 0 then [] else Range(n - 1) + [n - 1]
  }

  lemma {:induction false} RangeAbove(n: nat)
    ensures forall x :: x >= n ==> multiset(Range(n))[x] == 0
  {
    if n > 0 {
      RangeAbove(n - 1);
    }
  }

  /** Places index `x` in front of the first index it is ahead of. */
  function Insert(scores: seq<real>, dir: Direction, x: nat, s: seq<nat>): (r: seq<nat>)
    requires x < |scores| && forall k :: 0 <= k < |s| ==> s[k] < |scores|
    ensures |r| == |s| + 1 && forall k :: 0 <= k < |r| ==> r[k] < |scores|
  {
    if s == [] then [x]
    else if Ahead(scores, dir, x, s[0]) then [x] + s
    else [s[0]] + Insert(scores, dir, x, s[1..])
  }

  /** The sorted order of the first `n` entries: each index inserted in turn. */
  function Order(scores: seq<real>, dir: Direction, n: nat): (order: seq<nat>)
    requires n <= |scores|
    ensures |order| == n && forall k :: 0 <= k < n ==> order[k] < |scores|
  {
    if n == 0 then [] else Insert(scores, dir, n - 1, Order(scores, dir, n - 1))
  }

  /** The population in ranked order. */
  function Rank<T>(population: seq<T>, scores: seq<real>, dir: Direction): (ranked: seq<T>)
    requires |scores| == |population|
    ensures |ranked| == |population|
  {
    Pick(population, Order(scores, dir, |population|))
  }

  /** The elements of `population` at the indices `order`, in that order. */
  function Pick<T>(population: seq<T>, order: seq<nat>): (picked: seq<T>)
    requires forall k :: 0 <= k < |order| ==> order[k] < |population|
    ensures |picked| == |order| && forall k :: 0 <= k < |order| ==> picked[k] == population[order[k]]
  {
    seq(|order|, k requires 0 <= k < |order| => population[order[k]])
  }

  lemma {:induction false} InsertElements(scores: seq<real>, dir: Direction, x: nat, s: seq<nat>)
    requires x < |scores| && forall k :: 0 <= k < |s| ==> s[k] < |scores|
    ensures multiset(Insert(scores, dir, x, s)) == multiset(s) + multiset{x}
  {
    if s != [] && !Ahead(scores, dir, x, s[0]) {
      InsertElements(scores, dir, x, s[1..]);
      assert s == [s[0]] + s[1..];
    }
  }

  /** Inserting an index ahead of no earlier one keeps a chain a chain. */
  lemma {:induction false} InsertChain(scores: seq<real>, dir: Direction, x: nat, s: seq<nat>)
    requires x < |scores| && Chain(scores, dir, s) && x !in s
    ensures Chain(scores, dir, Insert(scores, dir, x, s))
  {
    var r := Insert(scores, dir, x, s);
    if s == [] {
    } else if Ahead(scores, dir, x, s[0]) {
      forall i, j | 0 <= i < j < |r|
        ensures Ahead(scores, dir, r[i], r[j])
      {
        if i == 0 && j > 1 {
          AheadTransitive(scores, dir, x, s[0], s[j - 1]);
        }
      }
    } else {
      assert x != s[0];
      assert Ahead(scores, dir, s[0], x);
      var tail := Insert(scores, dir, x, s[1..]);
      assert s[1..] == s[1..] && x !in s[1..];
      InsertChain(scores, dir, x, s[1..]);
      InsertElements(scores, dir, x, s[1..]);
      forall j | 0 <= j < |tail|
        ensures Ahead(scores, dir, s[0], tail[j])
      {
        assert tail[j] in multiset(tail);
        assert tail[j] in multiset(s[1..]) + multiset{x};
        if tail[j] != x {
          assert tail[j] in s[1..];
          var m :| 0 <= m < |s[1..]| && s[1..][m] == tail[j];
          assert s[m + 1] == tail[j];
        }
      }
      assert r == [s[0]] + tail;
    }
  }

  /** `Order` lists every index below `n` exactly once. */
  lemma {:induction false} OrderPermutes(scores: seq<real>, dir: Direction, n: nat)
    requires n <= |scores|
    ensures multiset(Order(scores, dir, n)) == multiset(Range(n))
  {
    if n > 0 {
      var last: nat := n - 1;
      var prev := Order(scores, dir, last);
      OrderPermutes(scores, dir, last);
      InsertElements(scores, dir, last, prev);
      calc {
        multiset(Order(scores, dir, n));
        multiset(Insert(scores, dir, last, prev));
        multiset(prev) + multiset{last};
        multiset(Range(last)) + multiset{last};
        multiset(Range(last) + [last]);
        { assert Range(n) == Range(last) + [last]; }
        multiset(Range(n));
      }
    }
  }

  /**
   * `Order` is sorted by the comparator and stable: an earlier index is
   * never put behind a later one the comparator calls equal.
   */
  lemma {:induction false} OrderSorted(scores: seq<real>, dir: Direction, n: nat)
    requires n <= |scores|
    ensures Chain(scores, dir, Order(scores, dir, n))
  {
    if n > 0 {
      var prev := Order(scores, dir, n - 1);
      OrderSorted(scores, dir, n - 1);
      OrderPermutes(scores, dir, n - 1);
      RangeAbove(n - 1);
      var elements: multiset<nat> := multiset(prev);
      assert elements[n - 1] == 0;
      InsertChain(scores, dir, n - 1, prev);
    }
  }

  /** A chain is sorted by the comparator, and equal scores keep their index order. */
  lemma ChainSorted(scores: seq<real>, dir: Direction, s: seq<nat>)
    requires Chain(scores, dir, s)
    ensures forall i, j :: 0 <= i < j < |s| ==>
              Compare(dir, scores[s[i]], scores[s[j]]) <= 0 &&
              (scores[s[i]] == scores[s[j]] ==> s[i] < s[j])
  {
    forall i, j | 0 <= i < j < |s|
      ensures Compare(dir, scores[s[i]], scores[s[j]]) <= 0
      ensures scores[s[i]] == scores[s[j]] ==> s[i] < s[j]
    {
      assert Ahead(scores, dir, s[i], s[j]);
    }
  }

  /** `Pick` after an insertion: the inserted element joins the others. */
  lemma {:induction false} PickInsert<T>(population: seq<T>, scores: seq<real>, dir: Direction, x: nat, s: seq<nat>)
    requires |scores| == |population| && x < |scores| && forall k :: 0 <= k < |s| ==> s[k] < |scores|
    ensures multiset(Pick(population, Insert(scores, dir, x, s))) == multiset(Pick(population, s)) + multiset{population[x]}
  {
    if s == [] {
    } else if Ahead(scores, dir, x, s[0]) {
      assert Pick(population, [x] + s) == [population[x]] + Pick(population, s);
    } else {
      PickInsert(population, scores, dir, x, s[1..]);
      assert Pick(population, [s[0]] + Insert(scores, dir, x, s[1..]))
          == [population[s[0]]] + Pick(population, Insert(scores, dir, x, s[1..]));
      assert Pick(population, s) == [population[s[0]]] + Pick(population, s[1..]);
    }
  }

  lemma {:induction false} PickOrder<T>(population: seq<T>, scores: seq<real>, dir: Direction, n: nat)
    requires |scores| == |population| && n <= |population|
    ensures multiset(Pick(population, Order(scores, dir, n))) == multiset(population[..n])
  {
    if n > 0 {
      assert population[..n] == population[..n - 1] + [population[n - 1]];
      var prev := Order(scores, dir, n - 1);
      PickOrder(population, scores, dir, n - 1);
      PickInsert(population, scores, dir, n - 1, prev);
    }
  }

  /**
   * `rank` returns a rearrangement of the population (every member as
   * often as before), ordered by the comparator on the members' scores,
   * with members of equal score in their original relative order.
   */
  lemma RankIsStableSort<T>(population: seq<T>, scores: seq<real>, dir: Direction)
    requires |scores| == |population|
    ensures multiset(Rank(population, scores, dir)) == multiset(population)
    ensures var order := Order(scores, dir, |population|);
      && multiset(order) == multiset(Range(|population|))
      && (forall k :: 0 <= k < |population| ==> Rank(population, scores, dir)[k] == population[order[k]])
      && (forall i, j :: 0 <= i < j < |population| ==>
            Compare(dir, scores[order[i]], scores[order[j]]) <= 0 &&
            (scores[order[i]] == scores[order[j]] ==> order[i] < order[j]))
  {
    PickOrder(population, scores, dir, |population|);
    assert population[..|population|] == population;
    OrderPermutes(scores, dir, |population|);
    OrderSorted(scores, dir, |population|);
    ChainSorted(scores, dir, Order(scores, dir, |population|));
  }
}
