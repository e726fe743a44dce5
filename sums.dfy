/** Sums over sequences, accumulated left to right as a `forEach` or `reduce` does. */
module Sums {

  /** The sequence without its element at index `k` (an `Array.filter` on the index). */
  function RemoveAt<T>(s: seq<T>, k: nat): (r: seq<T>)
    requires k < |s|
    ensures |r| == |s| - 1
    ensures forall i :: 0 <= i < k ==> r[i] == s[i]
    ensures forall i :: k <= i < |r| ==> r[i] == s[i + 1]
    ensures multiset(r) + multiset{s[k]} == multiset(s)
  {
    assert s == s[..k] + [s[k]] + s[k + 1..];
    s[..k] + s[k + 1..]
  }

  /** Removing an element before an appended one commutes with the append. */
  lemma RemoveAtSnoc<T>(s: seq<T>, x: T, k: int)
    ensures 0 <= k < |s| ==> RemoveAt(s + [x], k) == RemoveAt(s, k) + [x]
  {
    if 0 <= k < |s| {
      assert (s + [x])[k + 1..] == s[k + 1..] + [x];
    }
  }

  /** The sum of `f` over `s`, adding the elements in list order. */
  function SumReal<T>(s: seq<T>, f: T -> real): real
  {
    if |s| == 0 then 0.0 else SumReal(s[..|s| - 1], f) + f(s[|s| - 1])
  }

  lemma {:induction false} SumRealAppend<T>(s: seq<T>, t: seq<T>, f: T -> real)
    ensures SumReal(s + t, f) == SumReal(s, f) + SumReal(t, f)
  {
    if |t| == 0 {
      assert s + t == s;
    } else {
      assert (s + t)[..|s + t| - 1] == s + t[..|t| - 1];
      SumRealAppend(s, t[..|t| - 1], f);
    }
  }

  /** Taking one element out lowers the sum by exactly that element's share. */
  lemma {:induction false} SumRealRemoveAt<T>(s: seq<T>, k: nat, f: T -> real)
    requires k < |s|
    ensures SumReal(s, f) == SumReal(RemoveAt(s, k), f) + f(s[k])
  {
    var init, r := s[..|s| - 1], RemoveAt(s, k);
    if k == |s| - 1 {
      assert r == init;
    } else {
      SumRealRemoveAt(init, k, f);
      assert r[..|r| - 1] == RemoveAt(init, k);
    }
  }

  /** The last element of `s` sits somewhere in a permutation `t` of `s`; the rest of `s` is a
      permutation of `t` without it. */
  lemma PermutationOfInit<T>(s: seq<T>, t: seq<T>) returns (k: nat)
    requires |s| > 0 && multiset(s) == multiset(t)
    ensures k < |t| && t[k] == s[|s| - 1]
    ensures multiset(s[..|s| - 1]) == multiset(RemoveAt(t, k))
  {
    var x := s[|s| - 1];
    assert x in multiset(t);
    k :| 0 <= k < |t| && t[k] == x;
    assert s == s[..|s| - 1] + [x];
    var rest, others := multiset(s[..|s| - 1]), multiset(RemoveAt(t, k));
    assert rest + multiset{x} == others + multiset{x};
    assert forall y :: rest[y] == (rest + multiset{x})[y] - multiset{x}[y];
  }

  /** A sum does not depend on the order of the elements. */
  lemma {:induction false} SumRealPermutation<T>(s: seq<T>, t: seq<T>, f: T -> real)
    requires multiset(s) == multiset(t)
    ensures SumReal(s, f) == SumReal(t, f)
  {
    if |s| == 0 {
      assert |t| == |multiset(t)| == 0;
    } else {
      var k := PermutationOfInit(s, t);
      SumRealPermutation(s[..|s| - 1], RemoveAt(t, k), f);
      SumRealRemoveAt(t, k, f);
    }
  }

  /** A sum of non-negative terms is non-negative. */
  lemma {:induction false} SumRealNonNegative<T>(s: seq<T>, f: T -> real)
    requires forall x :: x in s ==> f(x) >= 0.0
    ensures SumReal(s, f) >= 0.0
  {
    if |s| > 0 {
      assert forall x :: x in s[..|s| - 1] ==> x in s;
      SumRealNonNegative(s[..|s| - 1], f);
    }
  }

  /** Scaling every term by c scales the sum by c. */
  lemma {:induction false} SumRealScale<T>(s: seq<T>, f: T -> real, g: T -> real, c: real)
    requires forall x :: x in s ==> g(x) == f(x) * c
    ensures SumReal(s, g) == SumReal(s, f) * c
  {
    if |s| > 0 {
      var init, last := s[..|s| - 1], s[|s| - 1];
      assert forall x :: x in init ==> x in s;
      SumRealScale(init, f, g, c);
      assert SumReal(s, g) == SumReal(init, f) * c + f(last) * c;
    }
  }

  /** The same, for a sum of `f` known to be `total`. */
  lemma SumRealScaleTo<T>(s: seq<T>, f: T -> real, g: T -> real, c: real, total: real)
    requires forall x :: x in s ==> g(x) == f(x) * c
    requires SumReal(s, f) == total
    ensures SumReal(s, g) == total * c
  {
    SumRealScale(s, f, g, c);
  }
}
