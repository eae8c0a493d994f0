/** The sort the services apply to small lists, by insertion; equal keys keep their order. */
module Sorting {

  predicate SortedBy<T>(xs: seq<T>, key: T -> int) {
    forall a, b :: 0 <= a < b < |xs| ==> key(xs[a]) <= key(xs[b])
  }

  /** Where each element of the result comes from; every position is used once. */
  predicate Rearranges<T(==)>(xs: seq<T>, r: seq<T>, from: seq<nat>) {
    && |r| == |xs| == |from|
    && (forall k :: 0 <= k < |from| ==> from[k] < |xs| && r[k] == xs[from[k]])
    && (forall a, b :: 0 <= a < b < |from| ==> from[a] != from[b])
  }

  /** Elements of equal keys stay in the order they had. */
  predicate Stable<T>(r: seq<T>, from: seq<nat>, key: T -> int) {
    |r| == |from| && forall a, b :: 0 <= a < b < |r| && key(r[a]) == key(r[b]) ==> from[a] < from[b]
  }

  lemma {:induction false} InsertedAt<T>(r: seq<T>, k: nat, x: T, q: seq<T>)
    requires k <= |r| && q == r[..k] + [x] + r[k..]
    ensures |q| == |r| + 1 && q[k] == x
    ensures forall a :: 0 <= a < k ==> q[a] == r[a]
    ensures forall a :: k < a < |q| ==> q[a] == r[a - 1]
    ensures multiset(q) == multiset(r) + multiset{x}
  {
    assert r == r[..k] + r[k..];
  }

  lemma {:induction false} InsertedSorted<T>(r: seq<T>, k: nat, x: T, q: seq<T>, key: T -> int)
    requires k <= |r| && q == r[..k] + [x] + r[k..] && SortedBy(r, key)
    requires k > 0 ==> key(r[k - 1]) <= key(x)
    requires k < |r| ==> key(x) <= key(r[k])
    ensures SortedBy(q, key)
  {
    InsertedAt(r, k, x, q);
    forall a, b | 0 <= a < b < |q| ensures key(q[a]) <= key(q[b]) {
      if a == k { assert q[b] == r[b - 1]; }
    }
  }

  lemma {:induction false} InsertedRearranges<T>(xs: seq<T>, n: nat, r: seq<T>, from: seq<nat>, k: nat, q: seq<T>, to: seq<nat>)
    requires n < |xs| && Rearranges(xs[..n], r, from) && k <= |r|
    requires q == r[..k] + [xs[n]] + r[k..] && to == from[..k] + [n] + from[k..]
    ensures Rearranges(xs[..n + 1], q, to)
  {
    InsertedAt(r, k, xs[n], q);
    InsertedAt(from, k, n, to);
    forall a | 0 <= a < |to| ensures to[a] < n + 1 && q[a] == xs[..n + 1][to[a]] {
      if a < k { assert q[a] == xs[..n][from[a]]; } else if a > k { assert q[a] == xs[..n][from[a - 1]]; }
    }
    forall a, b | 0 <= a < b < |to| ensures to[a] != to[b] {
      if b > k { assert to[b] == from[b - 1]; }
    }
  }

  lemma {:induction false} InsertedStable<T>(n: nat, r: seq<T>, from: seq<nat>, k: nat, x: T, q: seq<T>, to: seq<nat>, key: T -> int)
    requires k <= |r| == |from| && q == r[..k] + [x] + r[k..] && to == from[..k] + [n] + from[k..]
    requires SortedBy(r, key) && Stable(r, from, key) && (forall a :: 0 <= a < |from| ==> from[a] < n)
    requires k < |r| ==> key(x) < key(r[k])
    ensures Stable(q, to, key)
  {
    InsertedAt(r, k, x, q);
    InsertedAt(from, k, n, to);
    assert forall j :: k <= j < |r| ==> key(r[k]) <= key(r[j]);
    forall a, b | 0 <= a < b < |q| && key(q[a]) == key(q[b]) ensures to[a] < to[b] {
      if b < k { assert key(r[a]) == key(r[b]); }
    }
  }

  /** `r` holds the first n elements in order. */
  predicate SortedPart<T(==)>(xs: seq<T>, n: nat, r: seq<T>, from: seq<nat>, key: T -> int) {
    n <= |xs| && SortedBy(r, key) && Rearranges(xs[..n], r, from) && Stable(r, from, key) && multiset(r) == multiset(xs[..n])
  }

  method InsertNext<T(==)>(xs: seq<T>, n: nat, r: seq<T>, ghost from: seq<nat>, key: T -> int)
    returns (q: seq<T>, ghost to: seq<nat>)
    requires n < |xs| && SortedPart(xs, n, r, from, key)
    ensures SortedPart(xs, n + 1, q, to, key)
  {
    var k := |r|;
    while k > 0 && key(r[k - 1]) > key(xs[n])
      invariant 0 <= k <= |r|
      invariant k < |r| ==> key(xs[n]) < key(r[k])
    {
      k := k - 1;
    }
    q, to := r[..k] + [xs[n]] + r[k..], from[..k] + [n] + from[k..];
    InsertedAt(r, k, xs[n], q);
    InsertedSorted(r, k, xs[n], q, key);
    InsertedRearranges(xs, n, r, from, k, q, to);
    InsertedStable(n, r, from, k, xs[n], q, to, key);
    assert xs[..n + 1] == xs[..n] + [xs[n]];
  }

  method SortBy<T(==)>(xs: seq<T>, key: T -> int) returns (r: seq<T>, ghost from: seq<nat>)
    ensures SortedBy(r, key) && Rearranges(xs, r, from) && Stable(r, from, key) && multiset(r) == multiset(xs)
  {
    r, from := [], [];
    for n := 0 to |xs|
      invariant SortedPart(xs, n, r, from, key)
    {
      r, from := InsertNext(xs, n, r, from, key);
    }
    assert xs[..|xs|] == xs;
  }
}
