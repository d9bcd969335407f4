/**
 * Score lists: the total of a list of contributions is the sum of the scores
 * times the product of the multipliers.
 */
module ScoreLists {
  import opened Contributions

  function Sum(xs: seq<Contribution>): int
  {
    if xs == [] then 0 else Sum(xs[..|xs| - 1]) + xs[|xs| - 1].score
  }

  function Product(xs: seq<Contribution>): int
  {
    if xs == [] then 1 else Product(xs[..|xs| - 1]) * xs[|xs| - 1].multiplier
  }

  /** The value `getTotal` computes. */
  function Total(xs: seq<Contribution>): int
  {
    Sum(xs) * Product(xs)
  }

  predicate AllValid(xs: seq<Contribution>)
  {
    forall i | 0 <= i < |xs| :: Valid(xs[i])
  }

  /** The empty list totals 0. */
  lemma EmptyTotal()
    ensures Total([]) == 0
  {
  }

  lemma {:induction false} SumAppend(a: seq<Contribution>, b: seq<Contribution>)
    ensures Sum(a + b) == Sum(a) + Sum(b)
  {
    if b != [] {
      var b' := b[..|b| - 1];
      assert (a + b)[..|a + b| - 1] == a + b';
      SumAppend(a, b');
    } else {
      assert a + b == a;
    }
  }

  lemma {:induction false} ProductAppend(a: seq<Contribution>, b: seq<Contribution>)
    ensures Product(a + b) == Product(a) * Product(b)
  {
    if b != [] {
      var b' := b[..|b| - 1];
      assert (a + b)[..|a + b| - 1] == a + b';
      ProductAppend(a, b');
      assert Product(a + b) == Product(a) * Product(b') * b[|b| - 1].multiplier;
    } else {
      assert a + b == a;
    }
  }

  /**
   * The total of a concatenation: the scores of both parts are added and then
   * scaled by the multipliers of both parts.
   */
  lemma TotalAppend(a: seq<Contribution>, b: seq<Contribution>)
    ensures Total(a + b) == (Sum(a) + Sum(b)) * (Product(a) * Product(b))
  {
    SumAppend(a, b);
    ProductAppend(a, b);
  }

  /** With valid contributions the score sum is non-negative and the product at least one. */
  lemma {:induction false} SumProductBounds(xs: seq<Contribution>)
    requires AllValid(xs)
    ensures Sum(xs) >= 0 && Product(xs) >= 1
  {
    if xs != [] {
      SumProductBounds(xs[..|xs| - 1]);
      var p := Product(xs[..|xs| - 1]);
      var m := xs[|xs| - 1].multiplier;
      assert p * m >= p * 1;
    }
  }

  /** A list of valid contributions never totals below zero. */
  lemma TotalNonNegative(xs: seq<Contribution>)
    requires AllValid(xs)
    ensures Total(xs) >= 0
  {
    SumProductBounds(xs);
  }

  lemma SumLast(l: seq<Contribution>, x: Contribution)
    ensures Sum(l + [x]) == Sum(l) + x.score
    ensures Product(l + [x]) == Product(l) * x.multiplier
  {
    assert (l + [x])[..|l|] == l;
  }

  /** Removing one element from a list, by position: its score leaves the sum. */
  lemma SumSplitAt(b: seq<Contribution>, j: nat)
    requires j < |b|
    ensures Sum(b) == Sum(b[..j] + b[j + 1..]) + b[j].score
  {
    SplitAt(b, j);
    SumWithout(b[..j], b[j], b[j + 1..]);
  }

  lemma SumWithout(l: seq<Contribution>, x: Contribution, r: seq<Contribution>)
    ensures Sum((l + [x]) + r) == Sum(l + r) + x.score
  {
    SumAppend(l + [x], r);
    SumLast(l, x);
    SumAppend(l, r);
  }

  /** Removing one element from a list, by position: its multiplier leaves the product. */
  lemma ProductSplitAt(b: seq<Contribution>, j: nat)
    requires j < |b|
    ensures Product(b) == Product(b[..j] + b[j + 1..]) * b[j].multiplier
  {
    SplitAt(b, j);
    ProductWithout(b[..j], b[j], b[j + 1..]);
  }

  lemma SplitAt(b: seq<Contribution>, j: nat)
    requires j < |b|
    ensures b == (b[..j] + [b[j]]) + b[j + 1..]
  {
  }

  lemma ProductWithout(l: seq<Contribution>, x: Contribution, r: seq<Contribution>)
    ensures Product((l + [x]) + r) == Product(l + r) * x.multiplier
  {
    ProductAppend(l + [x], r);
    SumLast(l, x);
    ProductAppend(l, r);
    MulRotateEq(Product((l + [x]) + r), Product(l + [x]), Product(l + r), Product(l), x.multiplier, Product(r));
  }

  lemma MulRotateEq(p: int, q: int, s: int, a: int, b: int, c: int)
    requires p == q * c && q == a * b && s == a * c
    ensures p == s * b
  {
    MulRotate(a, b, c);
  }

  lemma MulRotate(a: int, b: int, c: int)
    ensures (a * b) * c == (a * c) * b
  {
  }

  /** The total does not depend on the order of the list. */
  lemma {:induction false} TotalPermutation(a: seq<Contribution>, b: seq<Contribution>)
    requires multiset(a) == multiset(b)
    ensures Sum(a) == Sum(b) && Product(a) == Product(b) && Total(a) == Total(b)
  {
    if a == [] {
      assert |b| == |multiset(b)| == 0;
    } else {
      var j := MatchLast(a, b);
      TotalPermutation(a[..|a| - 1], b[..j] + b[j + 1..]);
      SumSplitAt(b, j);
      ProductSplitAt(b, j);
    }
  }

  /** Where the last element of a list sits in a permutation of it, and what is left on both sides. */
  lemma MatchLast(a: seq<Contribution>, b: seq<Contribution>) returns (j: nat)
    requires multiset(a) == multiset(b) && a != []
    ensures j < |b| && b[j] == a[|a| - 1]
    ensures multiset(a[..|a| - 1]) == multiset(b[..j] + b[j + 1..])
  {
    var x := a[|a| - 1];
    assert a == a[..|a| - 1] + [x];
    assert x in multiset(b);
    j :| 0 <= j < |b| && b[j] == x;
    assert b == b[..j] + [x] + b[j + 1..];
    assert multiset(b[..j] + b[j + 1..]) == multiset(b) - multiset{x};
    assert multiset(a[..|a| - 1]) == multiset(a) - multiset{x};
  }

  /**
   * A valid contribution leaves every total unchanged exactly when it has no
   * score: without a score it changes nothing, and with one it changes the
   * total of a list holding a single point.
   */
  lemma HasScoreMeansEffect(c: Contribution)
    requires Valid(c)
    ensures !HasScore(c) ==> forall xs :: Total(xs + [c]) == Total(xs)
    ensures HasScore(c) ==> Total([Contribution(c.element, 1, 1)] + [c]) != Total([Contribution(c.element, 1, 1)])
  {
    if HasScore(c) {
      ScoreChangesSinglePoint(c);
    } else {
      forall xs
        ensures Total(xs + [c]) == Total(xs)
      {
        NoScoreNoChange(xs, c);
      }
    }
  }

  lemma NoScoreNoChange(xs: seq<Contribution>, c: Contribution)
    requires c.score == 0 && c.multiplier == 1
    ensures Total(xs + [c]) == Total(xs)
  {
    SumLast(xs, c);
  }

  lemma ScoreChangesSinglePoint(c: Contribution)
    requires Valid(c) && HasScore(c)
    ensures Total([Contribution(c.element, 1, 1)] + [c]) != Total([Contribution(c.element, 1, 1)])
  {
    var one := [Contribution(c.element, 1, 1)];
    SumLast([], one[0]);
    assert [] + [one[0]] == one;
    SumLast(one, c);
    SinglePointGrows(c.score, c.multiplier);
  }

  lemma SinglePointGrows(s: int, m: int)
    requires s >= 0 && m >= 1 && (s != 0 || m != 1)
    ensures (1 + s) * m != 1
  {
    if s == 0 {
      assert (1 + s) * m == m;
    } else {
      assert (1 + s) * m >= 1 + s;
    }
  }

  /** `getTotal`: one pass adding scores and multiplying multipliers. */
  method ComputeTotal(xs: seq<Contribution>) returns (total: int)
    ensures total == Total(xs)
  {
    var score := 0;
    var multiplier := 1;
    for i := 0 to |xs|
      invariant score == Sum(xs[..i])
      invariant multiplier == Product(xs[..i])
    {
      assert xs[..i + 1][..i] == xs[..i];
      score := score + xs[i].score;
      multiplier := multiplier * xs[i].multiplier;
    }
    assert xs[..|xs|] == xs;
    total := score * multiplier;
  }

  /** How a change to a list ends: done, refused, or stopped by the iterator seeing its own list grow. */
  datatype Outcome = Done | Unsupported | ConcurrentModification

  /**
   * An append-only list of contributions. The shared empty constant refuses
   * every change, and so does `add`.
   */
  class ScoreList {
    var items: seq<Contribution>
    /** Whether this object is the shared `EMPTY` constant. */
    const isEmptyConstant: bool

    constructor ()
      ensures items == [] && !isEmptyConstant
    {
      items := [];
      isEmptyConstant := false;
    }

    /** The `EMPTY` constant. */
    constructor Empty()
      ensures items == [] && isEmptyConstant
    {
      items := [];
      isEmptyConstant := true;
    }

    /** `getTotal`. */
    method GetTotal() returns (total: int)
      ensures total == Total(items)
    {
      total := ComputeTotal(items);
    }

    /** `add` is disabled: it always throws and changes nothing. */
    method Add(c: Contribution) returns (r: Outcome)
      ensures r == Unsupported
    {
      r := Unsupported;
    }

    /** `append(contribution)`: adds exactly `c` at the end, unless this is `EMPTY`. */
    method Append(c: Contribution) returns (r: Outcome)
      modifies this
      ensures isEmptyConstant ==> r == Unsupported && items == old(items)
      ensures !isEmptyConstant ==> r == Done && items == old(items) + [c]
    {
      if isEmptyConstant {
        return Unsupported;
      }
      items := items + [c];
      r := Done;
    }

    /**
     * `append(list)`: adds every element of `other` in order, unless this is
     * `EMPTY`; another list is left unchanged. A non-empty list appended to
     * itself gains its first element, and then the iteration fails because
     * the list it walks has grown.
     */
    method AppendList(other: ScoreList) returns (r: Outcome)
      modifies this
      ensures isEmptyConstant ==> r == Unsupported && items == old(items)
      ensures !isEmptyConstant && (other != this || old(items) == []) ==>
        r == Done && items == old(items) + old(other.items)
      ensures !isEmptyConstant && other == this && old(items) != [] ==>
        r == ConcurrentModification && items == old(items) + [old(items)[0]]
      ensures other != this ==> other.items == old(other.items)
    {
      if isEmptyConstant {
        return Unsupported;
      }
      if other == this && items != [] {
        items := items + [items[0]];
        return ConcurrentModification;
      }
      var source := other.items;
      for i := 0 to |source|
        invariant items == old(items) + source[..i]
      {
        assert source[..i + 1] == source[..i] + [source[i]];
        items := items + [source[i]];
      }
      assert source[..|source|] == source;
      r := Done;
    }
  }
}
