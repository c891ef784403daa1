/** Sorting as the checker uses it: a permutation in order, with nothing said about ties. */
module Sorting {

  /** leq holds of any two elements one way or the other, and is transitive. */
  ghost predicate TotalPreorder<T(!new)>(leq: (T, T) -> bool) {
    && (forall a, b :: leq(a, b) || leq(b, a))
    && (forall a, b, c :: leq(a, b) && leq(b, c) ==> leq(a, c))
  }

  ghost predicate InOrder<T>(leq: (T, T) -> bool, xs: seq<T>) {
    forall i, j :: 0 <= i < j < |xs| ==> leq(xs[i], xs[j])
  }

  /** ys is xs rearranged into an order leq allows. */
  ghost predicate Sorted<T>(leq: (T, T) -> bool, xs: seq<T>, ys: seq<T>) {
    multiset(ys) == multiset(xs) && InOrder(leq, ys)
  }

  method SortBy<T(!new)>(leq: (T, T) -> bool, xs: seq<T>) returns (ys: seq<T>)
    requires TotalPreorder(leq)
    ensures Sorted(leq, xs, ys)
  {
    ys := [];
    for i := 0 to |xs|
      invariant Sorted(leq, xs[..i], ys)
    {
      assert xs[..i + 1] == xs[..i] + [xs[i]];
      ys := Insert(leq, ys, xs[i]);
    }
    assert xs[..|xs|] == xs;
  }

  method Insert<T(!new)>(leq: (T, T) -> bool, xs: seq<T>, x: T) returns (ys: seq<T>)
    requires TotalPreorder(leq) && InOrder(leq, xs)
    ensures Sorted(leq, xs + [x], ys)
  {
    hide TotalPreorder, InOrder;
    var k := |xs|;
    while k > 0 && !leq(xs[k - 1], x)
      invariant 0 <= k <= |xs|
      invariant forall i :: k <= i < |xs| ==> leq(x, xs[i])
    {
      Either(leq, xs[k - 1], x);
      k := k - 1;
    }
    ys := xs[..k] + [x] + xs[k..];
    assert xs == xs[..k] + xs[k..];
    forall i | 0 <= i < k ensures leq(xs[i], x) {
      if i < k - 1 { OrderedPair(leq, xs, i, k - 1); Through(leq, xs[i], xs[k - 1], x); }
    }
    Inserted(leq, xs, k, x);
  }

  lemma Inserted<T(!new)>(leq: (T, T) -> bool, xs: seq<T>, k: nat, x: T)
    requires InOrder(leq, xs) && k <= |xs|
    requires forall i :: 0 <= i < k ==> leq(xs[i], x)
    requires forall i :: k <= i < |xs| ==> leq(x, xs[i])
    ensures InOrder(leq, xs[..k] + [x] + xs[k..])
  {
    var ys := xs[..k] + [x] + xs[k..];
    forall i, j | 0 <= i < j < |ys| ensures leq(ys[i], ys[j]) {
      if i < k && j < k {
        assert leq(xs[i], xs[j]);
      } else if i < k && j > k {
        assert leq(xs[i], xs[j - 1]);
      } else if i > k {
        assert leq(xs[i - 1], xs[j - 1]);
      }
    }
  }

  lemma OrderedPair<T>(leq: (T, T) -> bool, xs: seq<T>, i: nat, j: nat)
    requires InOrder(leq, xs) && i < j < |xs|
    ensures leq(xs[i], xs[j])
  {}

  lemma Either<T(!new)>(leq: (T, T) -> bool, a: T, b: T)
    requires TotalPreorder(leq)
    ensures leq(a, b) || leq(b, a)
  {}

  lemma Through<T(!new)>(leq: (T, T) -> bool, a: T, b: T, c: T)
    requires TotalPreorder(leq) && leq(a, b) && leq(b, c)
    ensures leq(a, c)
  {}

  /** Rearranging keeps elements apart. */
  lemma DistinctKept<T>(xs: seq<T>, ys: seq<T>)
    requires forall i, j :: 0 <= i < j < |xs| ==> xs[i] != xs[j]
    requires multiset(ys) == multiset(xs)
    ensures |ys| == |xs|
    ensures forall i, j :: 0 <= i < j < |ys| ==> ys[i] != ys[j]
  {
    assert |multiset(ys)| == |multiset(xs)|;
    forall i, j | 0 <= i < j < |ys| ensures ys[i] != ys[j] {
      if ys[i] == ys[j] {
        CountTwo(ys, i, j);
        CountOnce(xs, ys[i]);
        assert false;
      }
    }
  }

  lemma {:induction false} CountOnce<T>(xs: seq<T>, x: T)
    requires forall i, j :: 0 <= i < j < |xs| ==> xs[i] != xs[j]
    ensures multiset(xs)[x] <= 1
  {
    if xs != [] {
      var n := |xs| - 1;
      assert xs == xs[..n] + [xs[n]];
      CountOnce(xs[..n], x);
      if x == xs[n] { assert x !in xs[..n]; }
    }
  }

  lemma CountTwo<T>(xs: seq<T>, i: nat, j: nat)
    requires i < j < |xs| && xs[i] == xs[j]
    ensures multiset(xs)[xs[i]] >= 2
  {
    assert xs == xs[..j] + xs[j..];
    assert xs[i] in xs[..j] by { assert xs[..j][i] == xs[i]; }
    assert xs[j..][0] == xs[j];
    assert xs[j] in xs[j..];
  }
}
