/** Weighted sums over sequences: every count and every potential in this project is one of these. */
module Sums {

  function Sum<T>(s: seq<T>, w: T -> nat): nat {
    if s == [] then 0 else Sum(s[..|s| - 1], w) + w(s[|s| - 1])
  }

  lemma SumAppend<T>(s: seq<T>, x: T, w: T -> nat)
    ensures Sum(s + [x], w) == Sum(s, w) + w(x)
  {
    assert (s + [x])[..|s|] == s;
  }

  lemma {:induction false} SumUpdate<T>(s: seq<T>, i: nat, x: T, w: T -> nat)
    requires i < |s|
    ensures Sum(s[i := x], w) + w(s[i]) == Sum(s, w) + w(x)
  {
    var n := |s| - 1;
    if i == n {
      assert s[i := x][..n] == s[..n];
    } else {
      assert s[i := x][..n] == s[..n][i := x];
      SumUpdate(s[..n], i, x, w);
    }
  }

  lemma {:induction false} SumAtLeast<T>(s: seq<T>, i: nat, w: T -> nat)
    requires i < |s|
    ensures w(s[i]) <= Sum(s, w)
  {
    if i < |s| - 1 {
      SumAtLeast(s[..|s| - 1], i, w);
    }
  }

  lemma {:induction false} TwoTerms<T>(s: seq<T>, i: nat, j: nat, w: T -> nat)
    requires i < j < |s|
    ensures w(s[i]) + w(s[j]) <= Sum(s, w)
  {
    if j < |s| - 1 {
      TwoTerms(s[..|s| - 1], i, j, w);
    } else {
      SumAtLeast(s[..j], i, w);
    }
  }

  /** A positive sum has a positive term. */
  lemma {:induction false} SumWitness<T>(s: seq<T>, w: T -> nat) returns (i: nat)
    requires Sum(s, w) > 0
    ensures i < |s| && w(s[i]) > 0
  {
    var n := |s| - 1;
    if w(s[n]) > 0 {
      i := n;
    } else {
      i := SumWitness(s[..n], w);
    }
  }

  lemma {:induction false} SumMonotone<T>(s: seq<T>, v: T -> nat, w: T -> nat)
    requires forall i :: 0 <= i < |s| ==> v(s[i]) <= w(s[i])
    ensures Sum(s, v) <= Sum(s, w)
  {
    if s != [] {
      SumMonotone(s[..|s| - 1], v, w);
    }
  }

  lemma {:induction false} SumOfThree<T>(s: seq<T>, w: T -> nat, a: T -> nat, b: T -> nat, c: T -> nat)
    requires forall i :: 0 <= i < |s| ==> w(s[i]) == a(s[i]) + b(s[i]) + c(s[i])
    ensures Sum(s, w) == Sum(s, a) + Sum(s, b) + Sum(s, c)
  {
    if s != [] {
      SumOfThree(s[..|s| - 1], w, a, b, c);
    }
  }

  lemma SumOfTwo<T>(s: seq<T>, w: T -> nat, a: T -> nat, b: T -> nat)
    requires forall i :: 0 <= i < |s| ==> w(s[i]) == a(s[i]) + b(s[i])
    ensures Sum(s, w) == Sum(s, a) + Sum(s, b)
  {
    SumOfThree(s, w, a, b, _ => 0);
    SumZero(s, _ => 0);
  }

  lemma {:induction false} SumConcat<T>(s: seq<T>, t: seq<T>, w: T -> nat)
    ensures Sum(s + t, w) == Sum(s, w) + Sum(t, w)
  {
    if t == [] {
      assert s + t == s;
    } else {
      SumConcat(s, t[..|t| - 1], w);
      assert (s + t)[..|s + t| - 1] == s + t[..|t| - 1];
    }
  }

  lemma {:induction false} SumBounds<T>(s: seq<T>, w: T -> nat, lo: nat, hi: nat)
    requires forall i :: 0 <= i < |s| ==> lo <= w(s[i]) <= hi
    ensures |s| * lo <= Sum(s, w) <= |s| * hi
  {
    if s != [] {
      SumBounds(s[..|s| - 1], w, lo, hi);
      assert |s| * lo == (|s| - 1) * lo + lo && |s| * hi == (|s| - 1) * hi + hi;
    }
  }

  lemma {:induction false} SumZero<T>(s: seq<T>, w: T -> nat)
    requires forall i :: 0 <= i < |s| ==> w(s[i]) == 0
    ensures Sum(s, w) == 0
  {
    if s != [] {
      SumZero(s[..|s| - 1], w);
    }
  }

  lemma {:induction false} SumMapped<A, B>(s: seq<A>, t: seq<B>, w: A -> nat, v: B -> nat, k: nat)
    requires |s| == |t| && forall i :: 0 <= i < |s| ==> w(s[i]) == k * v(t[i])
    ensures Sum(s, w) == k * Sum(t, v)
  {
    if s != [] {
      var n := |s| - 1;
      SumMapped(s[..n], t[..n], w, v, k);
      assert k * (Sum(t[..n], v) + v(t[n])) == k * Sum(t[..n], v) + k * v(t[n]);
    }
  }

  predicate Distinct<T(==)>(s: seq<T>) {
    forall i, j :: 0 <= i < j < |s| ==> s[i] != s[j]
  }

  lemma {:induction false} DistinctSize<T>(s: seq<T>)
    requires Distinct(s)
    ensures |set x | x in s| == |s|
  {
    if s != [] {
      var n := |s| - 1;
      DistinctSize(s[..n]);
      assert (set x | x in s) == (set x | x in s[..n]) + {s[n]};
      assert s[n] !in s[..n];
    }
  }

  function Max(a: int, b: int): int { if a < b then b else a }

  lemma MulMonotoneLeft(j: nat, k: nat, a: nat)
    requires j <= k
    ensures j * a <= k * a
  {
  }
}
