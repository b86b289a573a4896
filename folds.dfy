/**
 * Left folds that model `reduce((acc, x) => acc + f(x), 0)` over a JavaScript
 * array, and the algebra the ledger and the cart rely on: sums split over
 * concatenation, do not depend on the order of the elements, and change by
 * exactly the difference when one element is replaced.
 */
module Folds {

  /** `s.reduce((acc, x) => acc + f(x), 0)`: the accumulator walks from the left. */
  function SumBy<T>(s: seq<T>, f: T -> int): int
    decreases |s|
  {
    if |s| == 0 then 0 else SumBy(s[..|s| - 1], f) + f(s[|s| - 1])
  }

  function Id(x: int): int { x }

  /** `xs.reduce((acc, x) => acc + x, 0)` over numbers. */
  function Sum(xs: seq<int>): int
  {
    SumBy(xs, Id)
  }

  lemma {:induction false} SumByAppend<T>(a: seq<T>, b: seq<T>, f: T -> int)
    ensures SumBy(a + b, f) == SumBy(a, f) + SumBy(b, f)
    decreases |b|
  {
    if |b| == 0 {
      assert a + b == a;
    } else {
      var b' := b[..|b| - 1];
      assert (a + b)[..|a + b| - 1] == a + b';
      assert (a + b)[|a + b| - 1] == b[|b| - 1];
      SumByAppend(a, b', f);
    }
  }

  lemma {:induction false} SumBySingleton<T>(x: T, f: T -> int)
    ensures SumBy([x], f) == f(x)
  {
    assert [x][..0] == [];
  }

  /** Replacing the element at `i` changes the sum by exactly the difference. */
  lemma SumByUpdate<T>(s: seq<T>, i: nat, x: T, f: T -> int)
    requires i < |s|
    ensures SumBy(s[i := x], f) == SumBy(s, f) - f(s[i]) + f(x)
  {
    assert s == s[..i] + [s[i]] + s[i + 1..];
    assert s[i := x] == s[..i] + [x] + s[i + 1..];
    SumByAppend(s[..i] + [s[i]], s[i + 1..], f);
    SumByAppend(s[..i], [s[i]], f);
    SumByAppend(s[..i] + [x], s[i + 1..], f);
    SumByAppend(s[..i], [x], f);
    SumBySingleton(s[i], f);
    SumBySingleton(x, f);
  }

  /** The sum depends only on the multiset of elements, never on their order. */
  lemma {:induction false} SumByPermutation<T>(a: seq<T>, b: seq<T>, f: T -> int)
    requires multiset(a) == multiset(b)
    ensures SumBy(a, f) == SumBy(b, f)
    decreases |a|
  {
    if |a| == 0 {
      assert |b| == |multiset(b)| == 0;
    } else {
      var x := a[|a| - 1];
      var a' := a[..|a| - 1];
      assert a == a' + [x];
      assert x in multiset(b);
      var i :| 0 <= i < |b| && b[i] == x;
      var b' := b[..i] + b[i + 1..];
      assert b == b[..i] + [x] + b[i + 1..];
      calc {
        multiset(a') + multiset{x};
        multiset(a);
        multiset(b);
        multiset(b[..i] + [x] + b[i + 1..]);
        multiset(b[..i]) + multiset{x} + multiset(b[i + 1..]);
        multiset(b') + multiset{x};
      }
      assert multiset(a') == multiset(a') + multiset{x} - multiset{x};
      assert multiset(b') == multiset(b') + multiset{x} - multiset{x};
      SumByPermutation(a', b', f);
      SumByAppend(b[..i] + [x], b[i + 1..], f);
      SumByAppend(b[..i], [x], f);
      SumByAppend(b[..i], b[i + 1..], f);
      SumBySingleton(x, f);
    }
  }

  /** Two sequences whose elements agree pointwise under `f` and `g` have the same sums. */
  lemma {:induction false} SumByPointwise<T, U>(a: seq<T>, f: T -> int, b: seq<U>, g: U -> int)
    requires |a| == |b|
    requires forall i :: 0 <= i < |a| ==> f(a[i]) == g(b[i])
    ensures SumBy(a, f) == SumBy(b, g)
    decreases |a|
  {
    if |a| > 0 {
      SumByPointwise(a[..|a| - 1], f, b[..|b| - 1], g);
    }
  }

  /** `s.map(f).reduce((acc, x) => acc + x, 0)` is the fold of `f` itself. */
  lemma SumOfMapped<T>(s: seq<T>, xs: seq<int>, f: T -> int)
    requires |xs| == |s|
    requires forall i :: 0 <= i < |s| ==> xs[i] == f(s[i])
    ensures Sum(xs) == SumBy(s, f)
  {
    SumByPointwise(xs, Id, s, f);
  }
}
