/** Sums of a function over a sequence: the ledger in which every shared counter of the
    system is balanced against the threads that contribute to it. */
module Sums {

  function SumOf<T>(s: seq<T>, f: T -> int): int {
    if s == [] then 0 else SumOf(s[..|s| - 1], f) + f(s[|s| - 1])
  }

  lemma {:induction false} SumAppend<T(!new)>(s: seq<T>, x: T)
    ensures forall f: T -> int :: SumOf(s + [x], f) == SumOf(s, f) + f(x)
  {
  }

  /** One thread moves from one state to another: every sum over the threads moves by the
      difference of that thread's contribution. */
  lemma {:induction false} SumUpdate<T(!new)>(s: seq<T>, i: nat, x: T)
    requires i < |s|
    ensures forall f: T -> int :: SumOf(s[i := x], f) == SumOf(s, f) - f(s[i]) + f(x)
  {
    var n := |s| - 1;
    if i == n {
      assert s[i := x][..n] == s[..n];
    } else {
      SumUpdate(s[..n], i, x);
      assert s[i := x][..n] == s[..n][i := x];
    }
  }

  lemma SumOfOne<T>(x: T, f: T -> int)
    ensures SumOf([x], f) == f(x)
  {
  }

  lemma SumOfThree<T>(x: T, y: T, z: T, f: T -> int)
    ensures SumOf([x, y, z], f) == f(x) + f(y) + f(z)
  {
    SumOfOne(x, f);
    assert [x, y, z][..2] == [x, y] && [x, y][..1] == [x];
  }

  lemma {:induction false} SumConcat<T>(s: seq<T>, t: seq<T>, f: T -> int)
    ensures SumOf(s + t, f) == SumOf(s, f) + SumOf(t, f)
  {
    if t == [] {
      assert s + t == s;
    } else {
      SumConcat(s, t[..|t| - 1], f);
      assert (s + t)[..|s + t| - 1] == s + t[..|t| - 1];
    }
  }

  /** A pointwise inequality between two sequences of the same length, scaled by a constant,
      survives summation. */
  lemma {:induction false} SumScaledBound<T, U>(s: seq<T>, f: T -> int, k: int, t: seq<U>, g: U -> int)
    requires |s| == |t|
    requires forall i | 0 <= i < |s| :: k * f(s[i]) <= g(t[i])
    ensures k * SumOf(s, f) <= SumOf(t, g)
  {
    if s != [] {
      var n := |s| - 1;
      SumScaledBound(s[..n], f, k, t[..n], g);
      assert k * (SumOf(s[..n], f) + f(s[n])) == k * SumOf(s[..n], f) + k * f(s[n]);
    }
  }

  lemma SumBound<T>(s: seq<T>, f: T -> int, g: T -> int)
    requires forall i | 0 <= i < |s| :: f(s[i]) <= g(s[i])
    ensures SumOf(s, f) <= SumOf(s, g)
  {
  }

  lemma SumEqual<T, U>(s: seq<T>, f: T -> int, t: seq<U>, g: U -> int)
    requires |s| == |t|
    requires forall i | 0 <= i < |s| :: f(s[i]) == g(t[i])
    ensures SumOf(s, f) == SumOf(t, g)
  {
  }

  lemma {:induction false} SumScaledEqual<T, U>(s: seq<T>, f: T -> int, k: int, t: seq<U>, g: U -> int)
    requires |s| == |t|
    requires forall i | 0 <= i < |s| :: k * f(s[i]) == g(t[i])
    ensures k * SumOf(s, f) == SumOf(t, g)
  {
    if s != [] {
      var n := |s| - 1;
      SumScaledEqual(s[..n], f, k, t[..n], g);
      assert k * (SumOf(s[..n], f) + f(s[n])) == k * SumOf(s[..n], f) + k * f(s[n]);
    }
  }

  lemma {:induction false} SumNonNegative<T>(s: seq<T>, f: T -> int)
    requires forall i | 0 <= i < |s| :: f(s[i]) >= 0
    ensures SumOf(s, f) >= 0
  {
    if s != [] { SumNonNegative(s[..|s| - 1], f); }
  }

  /** A sum of non-negative terms dominates each term. */
  lemma {:induction false} SumAtLeast<T>(s: seq<T>, f: T -> int, i: nat)
    requires i < |s|
    requires forall j | 0 <= j < |s| :: f(s[j]) >= 0
    ensures f(s[i]) <= SumOf(s, f)
  {
    var n := |s| - 1;
    if i == n { SumNonNegative(s[..n], f); } else { SumAtLeast(s[..n], f, i); }
  }

  lemma {:induction false} SumZero<T>(s: seq<T>, f: T -> int)
    requires forall i | 0 <= i < |s| :: f(s[i]) == 0
    ensures SumOf(s, f) == 0
  {
    if s != [] { SumZero(s[..|s| - 1], f); }
  }

  /** The order of the summands does not matter. */
  lemma {:induction false} SumPermutation<T>(s: seq<T>, t: seq<T>, f: T -> int)
    requires multiset(s) == multiset(t)
    ensures SumOf(s, f) == SumOf(t, f)
  {
    if s == [] {
      assert |multiset(t)| == 0;
      assert t == [];
    } else {
      var n := |s| - 1;
      var x := s[n];
      assert s == s[..n] + [x];
      assert x in multiset(t);
      var j :| 0 <= j < |t| && t[j] == x;
      var rest := t[..j] + t[j + 1..];
      assert t == t[..j] + [x] + t[j + 1..];
      assert multiset(t) == multiset(t[..j] + t[j + 1..]) + multiset{x};
      assert multiset(s) == multiset(s[..n]) + multiset{x};
      assert multiset(rest) == multiset(t) - multiset{x} == multiset(s[..n]);
      SumPermutation(s[..n], rest, f);
      SumConcat(t[..j], t[j + 1..], f);
      SumConcat(t[..j] + [x], t[j + 1..], f);
      assert (t[..j] + [x])[..j] == t[..j];
    }
  }
}
