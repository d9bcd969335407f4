/** Left-to-right accumulations over sequences, as the source's counting loops compute them. */
module Folds {

  /** The sum of `f` over `xs`, accumulated from the front. */
  function SumBy<T>(xs: seq<T>, f: T -> int): int
  {
    if xs == [] then 0 else SumBy(xs[..|xs| - 1], f) + f(xs[|xs| - 1])
  }

  /** The concatenation of `f` over `xs`, front to back. */
  function ConcatBy<T, U>(xs: seq<T>, f: T -> seq<U>): seq<U>
  {
    if xs == [] then [] else ConcatBy(xs[..|xs| - 1], f) + f(xs[|xs| - 1])
  }

  lemma {:induction false} SumByAppend<T>(a: seq<T>, b: seq<T>, f: T -> int)
    ensures SumBy(a + b, f) == SumBy(a, f) + SumBy(b, f)
    decreases |b|
  {
    if b == [] {
      assert a + b == a;
    } else {
      var n := |b| - 1;
      assert (a + b)[..|a + b| - 1] == a + b[..n];
      SumByAppend(a, b[..n], f);
    }
  }

  lemma {:induction false} ConcatByAppend<T, U>(a: seq<T>, b: seq<T>, f: T -> seq<U>)
    ensures ConcatBy(a + b, f) == ConcatBy(a, f) + ConcatBy(b, f)
    decreases |b|
  {
    if b == [] {
      assert a + b == a;
    } else {
      var n := |b| - 1;
      assert (a + b)[..|a + b| - 1] == a + b[..n];
      ConcatByAppend(a, b[..n], f);
    }
  }

  /** Splits `ys` around an occurrence of its element `x`. */
  lemma SplitAround<T>(ys: seq<T>, x: T) returns (k: nat)
    requires x in ys
    ensures k < |ys| && ys[k] == x
    ensures ys == ys[..k] + [x] + ys[k + 1..]
  {
    k :| k < |ys| && ys[k] == x;
    assert ys == ys[..k] + [x] + ys[k + 1..];
  }

  /** A sum does not depend on the order of the elements. */
  lemma {:induction false} SumByPermutation<T>(xs: seq<T>, ys: seq<T>, f: T -> int)
    requires multiset(xs) == multiset(ys)
    ensures SumBy(xs, f) == SumBy(ys, f)
    decreases |xs|
  {
    if xs == [] {
      assert |ys| == |multiset(ys)| == 0;
    } else {
      var n := |xs| - 1;
      var x := xs[n];
      assert xs == xs[..n] + [x];
      assert x in multiset(ys);
      var k := SplitAround(ys, x);
      var rest := ys[..k] + ys[k + 1..];
      assert multiset(ys) == multiset(rest) + multiset{x} by {
        assert ys == ys[..k] + [x] + ys[k + 1..];
      }
      assert multiset(xs) == multiset(xs[..n]) + multiset{x};
      assert multiset(xs[..n]) == multiset(xs) - multiset{x};
      assert multiset(rest) == multiset(ys) - multiset{x};
      SumByPermutation(xs[..n], rest, f);
      SumByAppend(ys[..k] + [x], ys[k + 1..], f);
      SumByAppend(ys[..k], [x], f);
      SumByAppend(ys[..k], ys[k + 1..], f);
      assert SumBy([x], f) == f(x) by {
        assert [x][..0] == [];
      }
    }
  }

  /** A concatenation holds the same elements whatever the order of its parts. */
  lemma {:induction false} ConcatByPermutation<T, U>(xs: seq<T>, ys: seq<T>, f: T -> seq<U>)
    requires multiset(xs) == multiset(ys)
    ensures multiset(ConcatBy(xs, f)) == multiset(ConcatBy(ys, f))
    decreases |xs|
  {
    if xs == [] {
      assert |ys| == |multiset(ys)| == 0;
    } else {
      var n := |xs| - 1;
      var x := xs[n];
      assert xs == xs[..n] + [x];
      assert x in multiset(ys);
      var k := SplitAround(ys, x);
      var rest := ys[..k] + ys[k + 1..];
      assert multiset(ys) == multiset(rest) + multiset{x} by {
        assert ys == ys[..k] + [x] + ys[k + 1..];
      }
      assert multiset(xs) == multiset(xs[..n]) + multiset{x};
      assert multiset(xs[..n]) == multiset(xs) - multiset{x};
      assert multiset(rest) == multiset(ys) - multiset{x};
      ConcatByPermutation(xs[..n], rest, f);
      ConcatByAppend(ys[..k] + [x], ys[k + 1..], f);
      ConcatByAppend(ys[..k], [x], f);
      ConcatByAppend(ys[..k], ys[k + 1..], f);
      assert ConcatBy([x], f) == f(x) by {
        assert [x][..0] == [];
      }
    }
  }
}
