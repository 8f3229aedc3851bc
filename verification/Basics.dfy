/** Shared vocabulary: optional values, results, and sums over tables. */
module Basics {

  datatype Option<+T> = None | Some(value: T)

  datatype Result<+T, +E> = Ok(value: T) | Err(error: E)

  function Max(x: real, y: real): real { if x >= y then x else y }

  function Min(x: real, y: real): real { if x <= y then x else y }

  ghost predicate Distinct<K(!new)>(ks: seq<K>) {
    forall i, j :: 0 <= i < j < |ks| ==> ks[i] != ks[j]
  }

  /** A weight summed over a table, in insertion order. */
  function Sum<T>(xs: seq<T>, w: T -> real): real {
    if xs == [] then 0.0 else Sum(xs[..|xs| - 1], w) + w(xs[|xs| - 1])
  }

  lemma {:induction false} SumAppend<T>(xs: seq<T>, x: T, w: T -> real)
    ensures Sum(xs + [x], w) == Sum(xs, w) + w(x)
  {
    assert (xs + [x])[..|xs|] == xs;
  }

  lemma {:induction false} SumOfOne<T>(x: T, w: T -> real)
    ensures Sum([x], w) == w(x)
  {
    SumAppend([], x, w);
    assert [] + [x] == [x];
  }

  lemma {:induction false} SumOfTwo<T>(x: T, y: T, w: T -> real)
    ensures Sum([x, y], w) == w(x) + w(y)
  {
    SumOfOne(x, w);
    SumAppend([x], y, w);
    assert [x] + [y] == [x, y];
  }

  /** Updating one row changes the sum by that row's change. */
  lemma {:induction false} SumUpdate<T>(xs: seq<T>, i: nat, x: T, w: T -> real)
    requires i < |xs|
    ensures Sum(xs[i := x], w) == Sum(xs, w) - w(xs[i]) + w(x)
  {
    var n := |xs| - 1;
    if i == n {
      assert xs[i := x][..n] == xs[..n];
    } else {
      assert xs[i := x][..n] == xs[..n][i := x];
      SumUpdate(xs[..n], i, x, w);
    }
  }

  /** Two tables of equal length, the first never heavier row by row. */
  lemma {:induction false} SumPointwiseLe<T>(xs: seq<T>, ys: seq<T>, u: T -> real, w: T -> real)
    requires |xs| == |ys|
    requires forall i :: 0 <= i < |xs| ==> u(xs[i]) <= w(ys[i])
    ensures Sum(xs, u) <= Sum(ys, w)
  {
    if xs != [] {
      SumPointwiseLe(xs[..|xs| - 1], ys[..|ys| - 1], u, w);
    }
  }

  lemma {:induction false} SumSplit<T>(xs: seq<T>, u: T -> real, v: T -> real, w: T -> real)
    requires forall i :: 0 <= i < |xs| ==> w(xs[i]) == u(xs[i]) + v(xs[i])
    ensures Sum(xs, w) == Sum(xs, u) + Sum(xs, v)
  {
    if xs != [] {
      SumSplit(xs[..|xs| - 1], u, v, w);
    }
  }

  lemma {:induction false} SumZero<T>(xs: seq<T>, w: T -> real)
    requires forall i :: 0 <= i < |xs| ==> w(xs[i]) == 0.0
    ensures Sum(xs, w) == 0.0
  {
    if xs != [] {
      SumZero(xs[..|xs| - 1], w);
    }
  }

  lemma {:induction false} SumEqual<T>(xs: seq<T>, u: T -> real, w: T -> real)
    requires forall i :: 0 <= i < |xs| ==> u(xs[i]) == w(xs[i])
    ensures Sum(xs, u) == Sum(xs, w)
  {
    if xs != [] {
      SumEqual(xs[..|xs| - 1], u, w);
    }
  }

  /** With no negative weight, a sum is at least any one of its terms. */
  lemma {:induction false} SumAtLeast<T>(xs: seq<T>, i: nat, w: T -> real)
    requires i < |xs|
    requires forall j :: 0 <= j < |xs| ==> w(xs[j]) >= 0.0
    ensures Sum(xs, w) >= w(xs[i])
  {
    var n := |xs| - 1;
    if i < n {
      SumAtLeast(xs[..n], i, w);
    } else {
      SumNonnegative(xs[..n], w);
    }
  }

  lemma {:induction false} SumNonnegative<T>(xs: seq<T>, w: T -> real)
    requires forall j :: 0 <= j < |xs| ==> w(xs[j]) >= 0.0
    ensures Sum(xs, w) >= 0.0
  {
    if xs != [] {
      SumNonnegative(xs[..|xs| - 1], w);
    }
  }

  /** The distinct keys of a table, in order of first appearance (GROUP BY). */
  function Keys<T, K(==, !new)>(xs: seq<T>, key: T -> K): (ks: seq<K>)
    ensures forall i :: 0 <= i < |xs| ==> key(xs[i]) in ks
    ensures Distinct(ks)
  {
    if xs == [] then [] else
      var rest := Keys(xs[..|xs| - 1], key);
      var k := key(xs[|xs| - 1]);
      if k in rest then rest else rest + [k]
  }

  /** The rows of one group, weighed; all other rows weigh nothing. */
  function InGroup<T, K(==)>(key: T -> K, k: K, w: T -> real): T -> real {
    (x: T) => if key(x) == k then w(x) else 0.0
  }

  function GroupTotal<T, K(==)>(xs: seq<T>, key: T -> K, w: T -> real): K -> real {
    (k: K) => Sum(xs, InGroup(key, k, w))
  }

  function Single<K(==)>(k0: K, c: real): K -> real {
    (k: K) => if k == k0 then c else 0.0
  }

  lemma {:induction false} SumSingle<K(!new)>(ks: seq<K>, k0: K, c: real)
    requires Distinct(ks)
    ensures Sum(ks, Single(k0, c)) == if k0 in ks then c else 0.0
  {
    if ks != [] {
      var n := |ks| - 1;
      SumSingle(ks[..n], k0, c);
      assert ks == ks[..n] + [ks[n]];
    }
  }

  /** GROUP BY loses nothing: over any distinct keys that cover the table, the
      groups' totals add up to the table's total. */
  lemma {:induction false} GroupsPartition<T, K(!new)>(xs: seq<T>, key: T -> K, w: T -> real, ks: seq<K>)
    requires Distinct(ks)
    requires forall i :: 0 <= i < |xs| ==> key(xs[i]) in ks
    ensures Sum(ks, GroupTotal(xs, key, w)) == Sum(xs, w)
  {
    if xs == [] {
      SumZero(ks, GroupTotal(xs, key, w));
    } else {
      var n := |xs| - 1;
      var last := xs[n];
      GroupsPartition(xs[..n], key, w, ks);
      SumSingle(ks, key(last), w(last));
      SumSplit(ks, GroupTotal(xs[..n], key, w), Single(key(last), w(last)), GroupTotal(xs, key, w));
    }
  }
}
