/** Sequence helpers for `Array.prototype.indexOf` and `Array.from(new Set(xs))`. */
module Seqs {

  /** `xs.indexOf(x)`: the first position holding `x`, or -1. */
  function IndexOf<T(==)>(xs: seq<T>, x: T): (i: int)
    ensures -1 <= i < |xs|
    ensures i >= 0 ==> xs[i] == x && forall j :: 0 <= j < i ==> xs[j] != x
    ensures i == -1 <==> x !in xs
  {
    if |xs| == 0 then -1
    else if xs[0] == x then 0
    else
      var k := IndexOf(xs[1..], x);
      if k < 0 then -1 else k + 1
  }

  /** The first occurrence of a value that occurs in a prefix lies in that prefix. */
  lemma IndexOfPrefix<T>(xs: seq<T>, k: nat, x: T)
    requires k <= |xs| && x in xs[..k]
    ensures IndexOf(xs, x) == IndexOf(xs[..k], x)
  {
    var i := IndexOf(xs[..k], x);
    assert xs[i] == x;
    assert x in xs;
    var r := IndexOf(xs, x);
    assert r <= i;
    assert xs[..k][r] == xs[r];
  }

  predicate NoDuplicates<T(==)>(xs: seq<T>) {
    forall i, j :: 0 <= i < j < |xs| ==> xs[i] != xs[j]
  }

  /** What `Array.from(new Set(xs))` promises: each value once, in first-appearance order. */
  predicate DistinctOf<T(==)>(xs: seq<T>, r: seq<T>) {
    && NoDuplicates(r)
    && (forall i :: 0 <= i < |r| ==> r[i] in xs)
    && (forall i :: 0 <= i < |xs| ==> xs[i] in r)
    && (forall i, j :: 0 <= i < j < |r| ==> IndexOf(xs, r[i]) < IndexOf(xs, r[j]))
  }

  /**
   * `Array.from(new Set(xs))`: each value of `xs` once, in the order in which it
   * first appears (a Set iterates in insertion order).
   */
  function Distinct<T(==)>(xs: seq<T>): (r: seq<T>)
    ensures NoDuplicates(r)
    ensures forall i :: 0 <= i < |r| ==> r[i] in xs
    ensures forall i :: 0 <= i < |xs| ==> xs[i] in r
    ensures forall i, j :: 0 <= i < j < |r| ==> IndexOf(xs, r[i]) < IndexOf(xs, r[j])
  {
    if xs == [] then []
    else
      var n := |xs| - 1;
      var init := Distinct(xs[..n]);
      DistinctStep(xs, init);
      if xs[n] in init then init else init + [xs[n]]
  }

  /** Adding one more value to the input keeps the first-appearance list, or appends the newcomer. */
  lemma DistinctStep<T>(xs: seq<T>, init: seq<T>)
    requires |xs| > 0 && DistinctOf(xs[..|xs| - 1], init)
    ensures DistinctOf(xs, if xs[|xs| - 1] in init then init else init + [xs[|xs| - 1]])
  {
    PrefixPositions(xs, init);
    PrefixCovered(xs, init);
    if xs[|xs| - 1] in init {
      assert forall i :: 0 <= i < |xs| ==> xs[i] in init;
    } else {
      GrowCovers(xs, init);
      GrowOrdered(xs, init);
    }
  }

  /** The values already listed keep their first positions, all before the last one. */
  lemma PrefixPositions<T>(xs: seq<T>, init: seq<T>)
    requires |xs| > 0 && DistinctOf(xs[..|xs| - 1], init)
    ensures forall i :: 0 <= i < |init| ==> init[i] in xs && IndexOf(xs, init[i]) < |xs| - 1
    ensures forall i, j :: 0 <= i < j < |init| ==> IndexOf(xs, init[i]) < IndexOf(xs, init[j])
  {
    var n := |xs| - 1;
    forall i | 0 <= i < |init| ensures init[i] in xs && IndexOf(xs, init[i]) == IndexOf(xs[..n], init[i]) {
      assert init[i] in xs[..n];
      IndexOfPrefix(xs, n, init[i]);
    }
  }

  /** Every value before the last one is already listed. */
  lemma PrefixCovered<T>(xs: seq<T>, init: seq<T>)
    requires |xs| > 0 && DistinctOf(xs[..|xs| - 1], init)
    ensures forall i :: 0 <= i < |xs| - 1 ==> xs[i] in init
  {
    var prefix := xs[..|xs| - 1];
    forall i | 0 <= i < |xs| - 1 ensures xs[i] in init {
      assert prefix[i] == xs[i];
    }
  }

  lemma GrowCovers<T>(xs: seq<T>, init: seq<T>)
    requires |xs| > 0 && forall i :: 0 <= i < |xs| - 1 ==> xs[i] in init
    requires forall i :: 0 <= i < |init| ==> init[i] in xs
    ensures var r := init + [xs[|xs| - 1]];
      && (forall i :: 0 <= i < |xs| ==> xs[i] in r)
      && (forall i :: 0 <= i < |r| ==> r[i] in xs)
  {
    var n := |xs| - 1;
    var r := init + [xs[n]];
    forall i | 0 <= i < |xs| ensures xs[i] in r {
      if i < n {
        assert xs[i] in init;
      } else {
        assert r[|init|] == xs[i];
      }
    }
    forall i | 0 <= i < |r| ensures r[i] in xs {
      if i < |init| { assert r[i] == init[i]; }
    }
  }

  lemma GrowOrdered<T>(xs: seq<T>, init: seq<T>)
    requires |xs| > 0 && xs[|xs| - 1] !in init && forall i :: 0 <= i < |xs| - 1 ==> xs[i] in init
    requires forall i, j :: 0 <= i < j < |init| ==> IndexOf(xs, init[i]) < IndexOf(xs, init[j])
    requires forall i :: 0 <= i < |init| ==> IndexOf(xs, init[i]) < |xs| - 1
    ensures var r := init + [xs[|xs| - 1]];
      && NoDuplicates(r)
      && (forall i, j :: 0 <= i < j < |r| ==> IndexOf(xs, r[i]) < IndexOf(xs, r[j]))
  {
    var n := |xs| - 1;
    var r := init + [xs[n]];
    assert IndexOf(xs, xs[n]) == n;
    forall i, j | 0 <= i < j < |r| ensures IndexOf(xs, r[i]) < IndexOf(xs, r[j]) && r[i] != r[j] {
      assert r[i] == init[i];
      if j < |init| {
        assert r[j] == init[j];
      }
    }
  }
}
