/**
 * The display order of groups in a hand: pairs after everything else, then by
 * tile type DRAGON < WIND < SUIT, then by dragon, wind or suit, and within a
 * suit pungs and kongs before chows, then by number.
 */
module GroupOrder {
  import opened Winds
  import opened Tiles
  import opened Groups

  /** `compareSets`: the comparison of two groups' first tiles and types. */
  function CompareSets(a: Group, b: Group): int
    requires Valid(a) && Valid(b)
  {
    var ta := FirstTile(a);
    var tb := FirstTile(b);
    var c := TypeOrdinal(TypeOf(ta)) - TypeOrdinal(TypeOf(tb));
    if c != 0 then c
    else
      match ta
      case DragonTile(d) => DragonOrdinal(d) - DragonOrdinal(tb.dragon)
      case WindTile(w) => Winds.Ordinal(w) - Winds.Ordinal(tb.wind)
      case SuitTile(s, n) =>
        var cs := SuitOrdinal(s) - SuitOrdinal(tb.suit);
        if cs != 0 then cs
        else if a.kind == CHOW && b.kind != CHOW then 1
        else if b.kind == CHOW && a.kind != CHOW then -1
        else NumberOrdinal(n) - NumberOrdinal(tb.number)
  }

  /** `compare`: pairs sort after every other group; otherwise `compareSets`. */
  function Compare(a: Group, b: Group): int
    requires Valid(a) && Valid(b)
  {
    if a.kind == PAIR && b.kind == PAIR then CompareSets(a, b)
    else if a.kind == PAIR then 1
    else if b.kind == PAIR then -1
    else CompareSets(a, b)
  }

  /**
   * A reference key for the same order: the comparison keys packed into one
   * integer, most significant first (pair?, tile type, dragon/wind/suit,
   * chow?, number).
   */
  function Rank(g: Group): int
  {
    if |g.tiles| == 0 then 0 else Key(g.kind, g.tiles[0])
  }

  /** The packed key of a group of type `kind` whose first tile is `t`. */
  function Key(kind: GroupType, t: Tile): int
  {
    (if kind == PAIR then 10000 else 0)
    + 1000 * TypeOrdinal(TypeOf(t))
    + match t
      case DragonTile(d) => 100 * DragonOrdinal(d)
      case WindTile(w) => 100 * Winds.Ordinal(w)
      case SuitTile(s, n) => 100 * SuitOrdinal(s) + (if kind == CHOW then 10 else 0) + NumberOrdinal(n)
  }

  /** The comparator's sign is the sign of the difference of the reference keys. */
  lemma CompareAgreesWithRank(a: Group, b: Group)
    requires Valid(a) && Valid(b)
    ensures Compare(a, b) < 0 <==> Rank(a) < Rank(b)
    ensures Compare(a, b) == 0 <==> Rank(a) == Rank(b)
  {
  }

  /** `compare` is antisymmetric: swapping the arguments negates the result. */
  lemma CompareAntisymmetric(a: Group, b: Group)
    requires Valid(a) && Valid(b)
    ensures Compare(a, b) == -Compare(b, a)
  {
  }

  /** `compare` is transitive, so it is a valid comparator for sorting. */
  lemma CompareTransitive(a: Group, b: Group, c: Group)
    requires Valid(a) && Valid(b) && Valid(c)
    requires Compare(a, b) <= 0 && Compare(b, c) <= 0
    ensures Compare(a, c) <= 0
  {
    CompareAgreesWithRank(a, b);
    CompareAgreesWithRank(b, c);
    CompareAgreesWithRank(a, c);
  }

  /** Every pung, kong or chow orders before every pair. */
  lemma PairsLast(a: Group, p: Group)
    requires Valid(a) && Valid(p) && a.kind != PAIR && p.kind == PAIR
    ensures Compare(a, p) < 0 && Compare(p, a) > 0
  {
  }

  /** Groups with different tile types order by tile type: DRAGON < WIND < SUIT. */
  lemma TileTypeOrder(a: Group, b: Group)
    requires Valid(a) && Valid(b) && (a.kind == PAIR <==> b.kind == PAIR)
    requires TileTypeOf(a) != TileTypeOf(b)
    ensures Compare(a, b) < 0 <==> TypeOrdinal(TileTypeOf(a)) < TypeOrdinal(TileTypeOf(b))
  {
  }

  /** Honour groups of one type order by dragon or wind ordinal. */
  lemma HonourOrder(a: Group, b: Group)
    requires Valid(a) && Valid(b) && (a.kind == PAIR <==> b.kind == PAIR)
    ensures FirstTile(a).DragonTile? && FirstTile(b).DragonTile? ==>
      Compare(a, b) == DragonOrdinal(FirstTile(a).dragon) - DragonOrdinal(FirstTile(b).dragon)
    ensures FirstTile(a).WindTile? && FirstTile(b).WindTile? ==>
      Compare(a, b) == Winds.Ordinal(FirstTile(a).wind) - Winds.Ordinal(FirstTile(b).wind)
  {
  }

  /**
   * Suited groups order by suit CIRCLES < CHARACTERS < BAMBOO; within a suit a
   * pung or kong comes before a chow, and otherwise the lower number first.
   */
  lemma SuitOrder(a: Group, b: Group)
    requires Valid(a) && Valid(b) && (a.kind == PAIR <==> b.kind == PAIR)
    requires FirstTile(a).SuitTile? && FirstTile(b).SuitTile?
    ensures FirstTile(a).suit != FirstTile(b).suit ==>
      (Compare(a, b) < 0 <==> SuitOrdinal(FirstTile(a).suit) < SuitOrdinal(FirstTile(b).suit))
    ensures FirstTile(a).suit == FirstTile(b).suit && a.kind != CHOW && b.kind == CHOW ==> Compare(a, b) < 0
    ensures FirstTile(a).suit == FirstTile(b).suit && (a.kind == CHOW <==> b.kind == CHOW) ==>
      Compare(a, b) == NumberOrdinal(FirstTile(a).number) - NumberOrdinal(FirstTile(b).number)
  {
  }

  /** A pung and a kong of the same tile compare equal. */
  lemma PungKongTie(t: Tile, v: Visibility, w: Visibility)
    ensures Compare(NewGroup(PUNG, t, v), NewGroup(KONG, t, w)) == 0
  {
  }

  /** Non-decreasing by a key. */
  ghost predicate Sorted<T>(xs: seq<T>, key: T -> int)
  {
    forall i, j | 0 <= i < j < |xs| :: key(xs[i]) <= key(xs[j])
  }

  /** How many leading elements have a key no larger than `k`. */
  function InsertPosition<T>(xs: seq<T>, k: int, key: T -> int): (p: nat)
    ensures p <= |xs|
    ensures forall i | 0 <= i < p :: key(xs[i]) <= k
    ensures p < |xs| ==> key(xs[p]) > k
  {
    if xs == [] || key(xs[0]) > k then 0 else 1 + InsertPosition(xs[1..], k, key)
  }

  /**
   * Appending one element to a sorted list and sorting it with a stable sort:
   * the new element goes after every element that does not order after it.
   */
  function Insert<T>(xs: seq<T>, x: T, key: T -> int): seq<T>
  {
    var p := InsertPosition(xs, key(x), key);
    xs[..p] + [x] + xs[p..]
  }

  /** The element at each position after inserting: the old ones before and after the new one. */
  lemma InsertAt<T>(xs: seq<T>, x: T, key: T -> int, k: nat)
    requires k <= |xs|
    ensures |Insert(xs, x, key)| == |xs| + 1
    ensures var p := InsertPosition(xs, key(x), key);
      Insert(xs, x, key)[k] == if k < p then xs[k] else if k == p then x else xs[k - 1]
  {
  }

  /** Inserting keeps a sorted list sorted. */
  lemma InsertKeepsSorted<T>(xs: seq<T>, x: T, key: T -> int)
    requires Sorted(xs, key)
    ensures Sorted(Insert(xs, x, key), key)
  {
    var r := Insert(xs, x, key);
    forall i, j | 0 <= i < j < |r|
      ensures key(r[i]) <= key(r[j])
    {
      InsertAt(xs, x, key, i);
      InsertAt(xs, x, key, j);
    }
  }

  /** Inserting adds exactly the one element. */
  lemma InsertAddsOne<T>(xs: seq<T>, x: T, key: T -> int)
    ensures multiset(Insert(xs, x, key)) == multiset(xs) + multiset{x}
  {
    var p := InsertPosition(xs, key(x), key);
    calc {
      multiset(Insert(xs, x, key));
      multiset(xs[..p]) + multiset{x} + multiset(xs[p..]);
      { assert xs == xs[..p] + xs[p..]; }
      multiset(xs) + multiset{x};
    }
  }

  /** Inserting keeps a sorted list sorted and adds exactly the one element. */
  lemma InsertSorted<T>(xs: seq<T>, x: T, key: T -> int)
    requires Sorted(xs, key)
    ensures Sorted(Insert(xs, x, key), key)
    ensures multiset(Insert(xs, x, key)) == multiset(xs) + multiset{x}
  {
    InsertKeepsSorted(xs, x, key);
    InsertAddsOne(xs, x, key);
  }

  /**
   * The stable-sort property: every element before the new one does not
   * order after it, every element after it orders strictly after it, and
   * the old elements keep their relative order.
   */
  lemma InsertStable<T>(xs: seq<T>, x: T, key: T -> int)
    ensures exists p | 0 <= p <= |xs| ::
      Insert(xs, x, key) == xs[..p] + [x] + xs[p..]
      && (forall i | 0 <= i < p :: key(xs[i]) <= key(x))
      && (Sorted(xs, key) ==> forall i | p <= i < |xs| :: key(xs[i]) > key(x))
  {
    var p := InsertPosition(xs, key(x), key);
    assert Insert(xs, x, key) == xs[..p] + [x] + xs[p..];
  }

  /** The type, anchor and visibility of the seventeen groups of the hand-ordering test, in the order it expects. */
  function ExampleSpecs(): (specs: seq<(GroupType, Tile, Visibility)>)
    ensures |specs| == 17 && forall i | 0 <= i < 17 :: specs[i].0 == CHOW ==> specs[i].1.SuitTile?
  {
    [ (PUNG, DragonTile(RED), EXPOSED), (KONG, DragonTile(WHITE), EXPOSED),
      (KONG, DragonTile(GREEN), EXPOSED), (KONG, WindTile(EAST), EXPOSED),
      (PUNG, WindTile(SOUTH), EXPOSED), (KONG, WindTile(WEST), EXPOSED),
      (CHOW, SuitTile(CIRCLES, SIX), CONCEALED), (PUNG, SuitTile(CHARACTERS, FIVE), CONCEALED),
      (PUNG, SuitTile(CHARACTERS, EIGHT), EXPOSED), (CHOW, SuitTile(CHARACTERS, TWO), CONCEALED),
      (KONG, SuitTile(BAMBOO, SEVEN), CONCEALED), (PAIR, DragonTile(WHITE), EXPOSED),
      (PAIR, WindTile(EAST), EXPOSED), (PAIR, WindTile(NORTH), EXPOSED),
      (PAIR, SuitTile(CIRCLES, ONE), EXPOSED), (PAIR, SuitTile(CHARACTERS, FOUR), EXPOSED),
      (PAIR, SuitTile(BAMBOO, SEVEN), EXPOSED) ]
  }

  /** The groups built from `ExampleSpecs`. */
  function DisplayOrderExample(): (gs: seq<Group>)
    ensures |gs| == 17 && forall i | 0 <= i < |gs| :: Valid(gs[i])
  {
    var specs := ExampleSpecs();
    seq(17, i requires 0 <= i < 17 => NewGroup(specs[i].0, specs[i].1, specs[i].2))
  }

  /** The rank of a constructed group is the key of its type and anchor (a chow's normalised anchor). */
  lemma RankOfNew(kind: GroupType, t: Tile, v: Visibility)
    requires kind == CHOW ==> t.SuitTile?
    ensures Rank(NewGroup(kind, t, v)) == Key(kind, if kind == CHOW then ChowAnchor(t) else t)
  {
  }

  function ExampleRanks(): seq<int>
  {
    [0, 100, 200, 1000, 1100, 1200, 2015, 2104, 2107, 2111, 2206, 10100, 11000, 11300, 12000, 12103, 12206]
  }

  lemma ExampleRanksMatch()
    ensures forall k | 0 <= k < 17 :: Rank(DisplayOrderExample()[k]) == ExampleRanks()[k]
  {
    forall k | 0 <= k < 17 ensures Rank(DisplayOrderExample()[k]) == ExampleRanks()[k] {
      ExampleRankAt(k);
    }
  }

  /** The rank of one group of the example is the key of its type and (normalised) anchor. */
  lemma ExampleRankAt(k: nat)
    requires k < 17
    ensures Rank(DisplayOrderExample()[k]) == ExampleRanks()[k]
  {
    var spec := ExampleSpecs()[k];
    assert DisplayOrderExample()[k] == NewGroup(spec.0, spec.1, spec.2);
    RankOfNew(spec.0, spec.1, spec.2);
    if k < 6 {
      ExampleKeysDragonsWinds(k);
    } else if k < 11 {
      ExampleKeysSuits(k);
    } else {
      ExampleKeysPairs(k);
    }
  }

  lemma ExampleKeysDragonsWinds(k: nat)
    requires k < 6
    ensures var spec := ExampleSpecs()[k]; Key(spec.0, spec.1) == ExampleRanks()[k]
  {
  }

  lemma ExampleKeysSuits(k: nat)
    requires 6 <= k < 11
    ensures var spec := ExampleSpecs()[k];
      Key(spec.0, if spec.0 == CHOW then ChowAnchor(spec.1) else spec.1) == ExampleRanks()[k]
  {
  }

  lemma ExampleKeysPairs(k: nat)
    requires 11 <= k < 17
    ensures var spec := ExampleSpecs()[k]; Key(spec.0, spec.1) == ExampleRanks()[k]
  {
  }

  /** The test's list is in strictly ascending comparator order. */
  lemma DisplayOrderExampleSorted()
    ensures var gs := DisplayOrderExample();
      forall i, j | 0 <= i < j < |gs| :: Compare(gs[i], gs[j]) < 0
  {
    var gs := DisplayOrderExample();
    var ranks := ExampleRanks();
    ExampleRanksMatch();
    forall i, j | 0 <= i < j < |gs|
      ensures Compare(gs[i], gs[j]) < 0
    {
      AscendingPairs(ranks, i, j);
      CompareAgreesWithRank(gs[i], gs[j]);
    }
  }

  lemma {:induction false} AscendingPairs(ranks: seq<int>, i: nat, j: nat)
    requires forall k | 0 <= k < |ranks| - 1 :: ranks[k] < ranks[k + 1]
    requires i < j < |ranks|
    ensures ranks[i] < ranks[j]
  {
    if j > i + 1 {
      AscendingPairs(ranks, i, j - 1);
    }
  }
}
