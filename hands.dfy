/**
 * A scored hand: a list of scored groups, kept in display order when sorting
 * is on, together with the set of completion qualifiers that apply to it.
 * After every change the hand re-evaluates whether it is a mahjong hand, its
 * whole-hand bonuses, whether the concealment of its pair is still needed,
 * and its unlimited and limited totals. The evaluation is the function
 * `Evaluate`; the class keeps a cache of it that every mutator refreshes.
 */
module Hands {
  import opened Tiles
  import opened Groups
  import opened ScoreElements
  import opened Contributions
  import opened ScoreLists
  import opened Schemes
  import opened ScoredGroups
  import opened Folds
  import GroupOrder

  /** The ways a hand can be completed, each with the whole-hand element it adds. */
  datatype HandCompletedBy =
    | MAHJONG_LOOSE_TILE | MAHJONG_WALL_TILE | MAHJONG_LAST_WALL_TILE | MAHJONG_LAST_DISCARD
    | MAHJONG_ROBBING_KONG | MAHJONG_ONLY_POSSIBLE_TILE | MAHJONG_ORIGINAL_CALL
    | MAHJONG_PAIR_CONCEALED | NON_MAHJONG_ORIGINAL_CALL

  /** All qualifiers, in declaration order. */
  const QUALIFIERS: seq<HandCompletedBy> := [
    MAHJONG_LOOSE_TILE, MAHJONG_WALL_TILE, MAHJONG_LAST_WALL_TILE, MAHJONG_LAST_DISCARD,
    MAHJONG_ROBBING_KONG, MAHJONG_ONLY_POSSIBLE_TILE, MAHJONG_ORIGINAL_CALL,
    MAHJONG_PAIR_CONCEALED, NON_MAHJONG_ORIGINAL_CALL]

  /** Only the original call of a non-mahjong hand applies to a hand that is not mahjong. */
  predicate ForMahjong(q: HandCompletedBy)
  {
    q != NON_MAHJONG_ORIGINAL_CALL
  }

  function QualifierElement(q: HandCompletedBy): ScoreElement
  {
    match q
    case MAHJONG_LOOSE_TILE => MahjongByLooseTileHandScore
    case MAHJONG_WALL_TILE => MahjongByWallTileHandScore
    case MAHJONG_LAST_WALL_TILE => MahjongByLastWallTileHandScore
    case MAHJONG_LAST_DISCARD => MahjongByLastDiscardHandScore
    case MAHJONG_ROBBING_KONG => MahjongByRobbingKongHandScore
    case MAHJONG_ONLY_POSSIBLE_TILE => MahjongByOnlyPossibleTileHandScore
    case MAHJONG_ORIGINAL_CALL => MahjongByOriginalCallHandScore
    case MAHJONG_PAIR_CONCEALED => AllConcealedHandScore
    case NON_MAHJONG_ORIGINAL_CALL => OriginalCallHandScore
  }

  /**
   * Every qualifier's element is a whole-hand element with an entry in a
   * scheme, and apart from the concealed pair (which shares the
   * all-concealed element) the qualifiers have distinct elements that none
   * of the computed bonuses use.
   */
  lemma QualifierElements(q: HandCompletedBy, r: HandCompletedBy)
    ensures q in QUALIFIERS
    ensures !IsMultiplier(QualifierElement(q)) && KindOf(QualifierElement(q)).None?
    ensures QualifierElement(q) == QualifierElement(r) ==> q == r
    ensures q != MAHJONG_PAIR_CONCEALED ==>
      QualifierElement(q) !in {MahjongHandScore, AllMajorHandScore, NoChowsHandScore, SingleSuitHandScore, AllConcealedHandScore}
  {
    QualifierWholeHand(q);
    if QualifierElement(q) == QualifierElement(r) {
      QualifierInjective(q, r);
    }
  }

  lemma QualifierWholeHand(q: HandCompletedBy)
    ensures q in QUALIFIERS
    ensures !IsMultiplier(QualifierElement(q)) && KindOf(QualifierElement(q)).None?
    ensures q != MAHJONG_PAIR_CONCEALED ==>
      QualifierElement(q) !in {MahjongHandScore, AllMajorHandScore, NoChowsHandScore, SingleSuitHandScore, AllConcealedHandScore}
  {
    QualifierNoKind(q);
    QualifierNotMultiplier(q);
    if q != MAHJONG_PAIR_CONCEALED {
      QualifierNotGroupBonus(q);
    }
  }

  lemma QualifierNoKind(q: HandCompletedBy)
    ensures KindOf(QualifierElement(q)).None?
  {
    match q
    case MAHJONG_LOOSE_TILE =>
    case MAHJONG_WALL_TILE =>
    case MAHJONG_LAST_WALL_TILE =>
    case MAHJONG_LAST_DISCARD =>
    case MAHJONG_ROBBING_KONG =>
    case MAHJONG_ONLY_POSSIBLE_TILE =>
    case MAHJONG_ORIGINAL_CALL =>
    case MAHJONG_PAIR_CONCEALED =>
    case NON_MAHJONG_ORIGINAL_CALL =>
  }

  lemma QualifierNotMultiplier(q: HandCompletedBy)
    ensures !IsMultiplier(QualifierElement(q))
  {
    match q
    case MAHJONG_LOOSE_TILE =>
    case MAHJONG_WALL_TILE =>
    case MAHJONG_LAST_WALL_TILE =>
    case MAHJONG_LAST_DISCARD =>
    case MAHJONG_ROBBING_KONG =>
    case MAHJONG_ONLY_POSSIBLE_TILE =>
    case MAHJONG_ORIGINAL_CALL =>
    case MAHJONG_PAIR_CONCEALED =>
    case NON_MAHJONG_ORIGINAL_CALL =>
  }

  lemma QualifierNotGroupBonus(q: HandCompletedBy)
    requires q != MAHJONG_PAIR_CONCEALED
    ensures QualifierElement(q) !in {MahjongHandScore, AllMajorHandScore, NoChowsHandScore, SingleSuitHandScore, AllConcealedHandScore}
  {
    match q
    case MAHJONG_LOOSE_TILE =>
    case MAHJONG_WALL_TILE =>
    case MAHJONG_LAST_WALL_TILE =>
    case MAHJONG_LAST_DISCARD =>
    case MAHJONG_ROBBING_KONG =>
    case MAHJONG_ONLY_POSSIBLE_TILE =>
    case MAHJONG_ORIGINAL_CALL =>
    case MAHJONG_PAIR_CONCEALED =>
    case NON_MAHJONG_ORIGINAL_CALL =>
  }

  lemma QualifierInjective(q: HandCompletedBy, r: HandCompletedBy)
    requires QualifierElement(q) == QualifierElement(r)
    ensures q == r
  {
    match r
    case MAHJONG_LOOSE_TILE =>
    case MAHJONG_WALL_TILE =>
    case MAHJONG_LAST_WALL_TILE =>
    case MAHJONG_LAST_DISCARD =>
    case MAHJONG_ROBBING_KONG =>
    case MAHJONG_ONLY_POSSIBLE_TILE =>
    case MAHJONG_ORIGINAL_CALL =>
    case MAHJONG_PAIR_CONCEALED =>
    case NON_MAHJONG_ORIGINAL_CALL =>
  }

  // ----- What the evaluation reads off the groups -----

  function HandWeight(g: ScoredGroup): int
  {
    HandSize(g.group.kind)
  }

  function PairWeight(g: ScoredGroup): int
  {
    if g.group.kind == PAIR then 1 else 0
  }

  function ScoreOf(g: ScoredGroup): seq<Contribution>
  {
    g.score
  }

  /** The number of tiles the groups count for, a kong counting three. */
  function Weight(gs: seq<ScoredGroup>): int
  {
    SumBy(gs, HandWeight)
  }

  function PairCount(gs: seq<ScoredGroup>): int
  {
    SumBy(gs, PairWeight)
  }

  /** The groups' score lists, one after another. */
  function GroupScores(gs: seq<ScoredGroup>): seq<Contribution>
  {
    ConcatBy(gs, ScoreOf)
  }

  predicate GroupsValid(gs: seq<ScoredGroup>)
  {
    forall g | g in gs :: Groups.Valid(g.group)
  }

  predicate NoChow(gs: seq<ScoredGroup>)
  {
    forall g | g in gs :: g.group.kind != CHOW
  }

  /** No chow, and every first tile a terminal or an honour. */
  predicate AllMajor(gs: seq<ScoredGroup>)
    requires GroupsValid(gs)
  {
    forall g | g in gs :: g.group.kind != CHOW && IsMajor(FirstTile(g.group))
  }

  /** The suits of the suited first tiles. */
  function Suits(gs: seq<ScoredGroup>): set<Suit>
    requires GroupsValid(gs)
  {
    set g | g in gs && FirstTile(g.group).SuitTile? :: FirstTile(g.group).suit
  }

  predicate AllConcealed(gs: seq<ScoredGroup>)
  {
    forall g | g in gs :: IsConcealed(g.group)
  }

  predicate AllNonPairsConcealed(gs: seq<ScoredGroup>)
  {
    forall g | g in gs :: g.group.kind != PAIR ==> IsConcealed(g.group)
  }

  /** A mahjong hand counts exactly the scheme's hand size and has exactly one pair; an oversize hand is just not mahjong. */
  predicate IsMahjongHand(s: Scheme, gs: seq<ScoredGroup>)
  {
    Weight(gs) == s.mahjongHandSize && PairCount(gs) == 1
  }

  /** The elements of the qualifiers among `qs` that are in `cb` and are for (or not for) mahjong. */
  function QualifierBonuses(qs: seq<HandCompletedBy>, cb: set<HandCompletedBy>, forMahjong: bool): seq<ScoreElement>
  {
    ConcatBy(qs, q => if q in cb && ForMahjong(q) == forMahjong then [QualifierElement(q)] else [])
  }

  function AppendIf(es: seq<ScoreElement>, c: bool, e: ScoreElement): seq<ScoreElement>
  {
    if c then es + [e] else es
  }

  /** The bonuses a mahjong hand earns from its groups, in the order they are appended. */
  function GroupBonuses(gs: seq<ScoredGroup>): seq<ScoreElement>
    requires GroupsValid(gs)
  {
    var withMajor := AppendIf([MahjongHandScore], AllMajor(gs), AllMajorHandScore);
    var withNoChows := AppendIf(withMajor, NoChow(gs), NoChowsHandScore);
    var withSuit := AppendIf(withNoChows, |Suits(gs)| == 1, SingleSuitHandScore);
    AppendIf(withSuit, AllConcealed(gs), AllConcealedHandScore)
  }

  /**
   * The whole-hand elements, in the order they are appended: the group
   * bonuses and the mahjong qualifiers for a mahjong hand, otherwise the
   * qualifiers that are not for mahjong. Qualifiers are taken in declaration
   * order (the source walks a hash set; see `EvaluateQualifierOrderFree`).
   */
  function BonusElements(s: Scheme, gs: seq<ScoredGroup>, cb: set<HandCompletedBy>): seq<ScoreElement>
    requires GroupsValid(gs)
  {
    if IsMahjongHand(s, gs) then GroupBonuses(gs) + QualifierBonuses(QUALIFIERS, cb, true)
    else QualifierBonuses(QUALIFIERS, cb, false)
  }

  /** The scheme's list for an element; a missing entry contributes nothing. */
  function ListFor(s: Scheme, e: ScoreElement): seq<Contribution>
  {
    if e in s.contributions then s.contributions[e] else []
  }

  function ScoresFor(s: Scheme, es: seq<ScoreElement>): seq<Contribution>
  {
    ConcatBy(es, e => ListFor(s, e))
  }

  function Min(a: int, b: int): int
  {
    if a <= b then a else b
  }

  /** The values `updateScore` caches. */
  datatype Evaluation = Evaluation(
    isMahjong: bool,
    requirePairConcealedInfo: bool,
    wholeHandScores: seq<Contribution>,
    groupScores: seq<Contribution>,
    totalUnlimited: int,
    totalLimited: int)

  /** The cache of a hand that has never been scored. */
  function Unscored(): Evaluation
  {
    Evaluation(false, false, [], [], 0, 0)
  }

  function Evaluate(s: Scheme, gs: seq<ScoredGroup>, cb: set<HandCompletedBy>): Evaluation
    requires GroupsValid(gs)
  {
    var mahjong := IsMahjongHand(s, gs);
    var whole := ScoresFor(s, BonusElements(s, gs, cb));
    var groupScores := GroupScores(gs);
    var unlimited := Total(groupScores + whole);
    Evaluation(mahjong, mahjong && AllNonPairsConcealed(gs), whole, groupScores, unlimited, Min(unlimited, s.limitScore))
  }

  /** The room left in a hand: one tile less while it has more than one pair, and never negative. */
  function Capacity(s: Scheme, gs: seq<ScoredGroup>): int
  {
    if PairCount(gs) > 1 then Max0(s.mahjongHandSize - 1 - Weight(gs))
    else Max0(s.mahjongHandSize - Weight(gs))
  }

  function Max0(x: int): int
  {
    if x >= 0 then x else 0
  }

  /** The position of the first pair, or the length when there is none. */
  function FirstPair(gs: seq<ScoredGroup>): (p: nat)
    ensures p <= |gs|
    ensures forall i | 0 <= i < p :: gs[i].group.kind != PAIR
    ensures p < |gs| ==> gs[p].group.kind == PAIR
  {
    if gs == [] then 0
    else if gs[0].group.kind == PAIR then 0
    else 1 + FirstPair(gs[1..])
  }

  /** The position of the first occurrence of `x` (the same object), or -1. */
  function IndexOf(gs: seq<ScoredGroup>, x: ScoredGroup): (r: int)
    ensures -1 <= r < |gs|
    ensures r == -1 <==> x !in gs
    ensures r >= 0 ==> gs[r] == x && x !in gs[..r]
  {
    if gs == [] then -1
    else if gs[0] == x then 0
    else
      var r := IndexOf(gs[1..], x);
      assert gs[1..][..if r < 0 then 0 else r] == gs[1..1 + (if r < 0 then 0 else r)];
      if r < 0 then -1 else r + 1
  }

  /** The list with the first occurrence of `x` taken out, if there is one. */
  function RemoveFirst(gs: seq<ScoredGroup>, x: ScoredGroup): (r: seq<ScoredGroup>)
    ensures x !in gs ==> r == gs
    ensures x in gs ==> multiset(r) == multiset(gs) - multiset{x} && |r| == |gs| - 1
  {
    var i := IndexOf(gs, x);
    if i < 0 then gs
    else
      assert gs == gs[..i] + [x] + gs[i + 1..];
      gs[..i] + gs[i + 1..]
  }

  /** The display order of scored groups: the order of their groups. */
  function DisplayKey(g: ScoredGroup): int
  {
    GroupOrder.Rank(g.group)
  }

  // ----- Properties of the evaluation -----

  lemma ScoresForAppend(s: Scheme, a: seq<ScoreElement>, b: seq<ScoreElement>)
    ensures ScoresFor(s, a + b) == ScoresFor(s, a) + ScoresFor(s, b)
  {
    ConcatByAppend(a, b, e => ListFor(s, e));
  }

  lemma AllValidAppend(a: seq<Contribution>, b: seq<Contribution>)
    requires AllValid(a) && AllValid(b)
    ensures AllValid(a + b)
  {
    forall i | 0 <= i < |a + b|
      ensures Contributions.Valid((a + b)[i])
    {
      if i >= |a| {
        assert (a + b)[i] == b[i - |a|];
      }
    }
  }

  lemma {:induction false} ScoresForValid(s: Scheme, es: seq<ScoreElement>)
    requires WellFormed(s)
    ensures AllValid(ScoresFor(s, es))
  {
    if es != [] {
      ScoresForValid(s, es[..|es| - 1]);
      AllValidAppend(ScoresFor(s, es[..|es| - 1]), ListFor(s, es[|es| - 1]));
    }
  }

  lemma {:induction false} GroupScoresValid(gs: seq<ScoredGroup>)
    requires forall g | g in gs :: g.Valid()
    ensures AllValid(GroupScores(gs))
  {
    if gs != [] {
      var n := |gs| - 1;
      assert forall g | g in gs[..n] :: g in gs;
      GroupScoresValid(gs[..n]);
      assert gs[n] in gs;
      AllValidAppend(GroupScores(gs[..n]), ScoreOf(gs[n]));
    }
  }

  /**
   * The unlimited total, the total of the group scores followed by the
   * whole-hand scores, is never negative, and the limited total is the
   * unlimited one clamped to the limit.
   */
  lemma EvaluateTotals(s: Scheme, gs: seq<ScoredGroup>, cb: set<HandCompletedBy>)
    requires WellFormed(s) && forall g | g in gs :: g.Valid()
    ensures GroupsValid(gs)
    ensures Evaluate(s, gs, cb).totalUnlimited >= 0
    ensures var e := Evaluate(s, gs, cb); e.totalUnlimited == Total(e.groupScores + e.wholeHandScores)
    ensures var e := Evaluate(s, gs, cb);
      && e.totalLimited <= s.limitScore && e.totalLimited <= e.totalUnlimited
      && (e.totalLimited == e.totalUnlimited || e.totalLimited == s.limitScore)
  {
    var a := GroupScores(gs);
    var b := ScoresFor(s, BonusElements(s, gs, cb));
    GroupScoresValid(gs);
    ScoresForValid(s, BonusElements(s, gs, cb));
    var e := Evaluate(s, gs, cb);
    assert e.groupScores == a && e.wholeHandScores == b && e.totalUnlimited == Total(a + b);
    assert e.totalLimited == Min(Total(a + b), s.limitScore);
    AllValidAppend(a, b);
    TotalNonNegative(a + b);
  }

  lemma {:induction false} QualifierBonusesMembers(qs: seq<HandCompletedBy>, cb: set<HandCompletedBy>, forMahjong: bool, e: ScoreElement)
    ensures e in QualifierBonuses(qs, cb, forMahjong) <==>
      exists q | q in qs :: q in cb && ForMahjong(q) == forMahjong && QualifierElement(q) == e
  {
    if qs != [] {
      var n := |qs| - 1;
      var q := qs[n];
      var rest := QualifierBonuses(qs[..n], cb, forMahjong);
      var last: seq<ScoreElement> := if q in cb && ForMahjong(q) == forMahjong then [QualifierElement(q)] else [];
      assert QualifierBonuses(qs, cb, forMahjong) == rest + last;
      QualifierBonusesMembers(qs[..n], cb, forMahjong, e);
      assert e in rest + last <==> e in rest || e in last;
      InLast(qs);
    }
  }

  /** The elements of a non-empty list: those before its last, and its last. */
  lemma InLast<T>(xs: seq<T>)
    requires xs != []
    ensures forall r :: r in xs <==> r in xs[..|xs| - 1] || r == xs[|xs| - 1]
  {
    assert xs == xs[..|xs| - 1] + [xs[|xs| - 1]];
  }

  /**
   * Which bonuses a hand gets: a mahjong hand gets the mahjong score, the
   * all-major bonus iff it has no chow and only major first tiles, the
   * no-chows bonus iff it has no chow, the single-suit bonus iff its suited
   * first tiles are of exactly one suit, and the all-concealed bonus iff every
   * group is concealed; each qualifier in the set adds its element iff it is
   * for mahjong exactly when the hand is mahjong. A hand that is not mahjong
   * gets none of the group bonuses.
   */
  lemma BonusesIff(s: Scheme, gs: seq<ScoredGroup>, cb: set<HandCompletedBy>)
    requires GroupsValid(gs) && MAHJONG_PAIR_CONCEALED !in cb
    ensures var b := BonusElements(s, gs, cb); var m := IsMahjongHand(s, gs);
      && (MahjongHandScore in b <==> m)
      && (AllMajorHandScore in b <==> m && AllMajor(gs))
      && (NoChowsHandScore in b <==> m && NoChow(gs))
      && (SingleSuitHandScore in b <==> m && |Suits(gs)| == 1)
      && (AllConcealedHandScore in b <==> m && AllConcealed(gs))
      && (forall q | q != MAHJONG_PAIR_CONCEALED :: QualifierElement(q) in b <==> q in cb && ForMahjong(q) == m)
  {
    var m := IsMahjongHand(s, gs);
    NoGroupBonusFromQualifiers(cb, m);
    forall q | q != MAHJONG_PAIR_CONCEALED
      ensures QualifierElement(q) in QualifierBonuses(QUALIFIERS, cb, m) <==> q in cb && ForMahjong(q) == m
      ensures QualifierElement(q) !in GroupBonuses(gs)
    {
      QualifierBonusIff(cb, m, q);
      QualifierElements(q, q);
    }
  }

  /** No qualifier in the set contributes one of the group bonuses. */
  lemma NoGroupBonusFromQualifiers(cb: set<HandCompletedBy>, m: bool)
    requires MAHJONG_PAIR_CONCEALED !in cb
    ensures forall e | e in {MahjongHandScore, AllMajorHandScore, NoChowsHandScore, SingleSuitHandScore, AllConcealedHandScore}
      :: e !in QualifierBonuses(QUALIFIERS, cb, m)
  {
    forall e | e in {MahjongHandScore, AllMajorHandScore, NoChowsHandScore, SingleSuitHandScore, AllConcealedHandScore}
      ensures e !in QualifierBonuses(QUALIFIERS, cb, m)
    {
      QualifierBonusesMembers(QUALIFIERS, cb, m, e);
      forall q | q in QUALIFIERS && q in cb
        ensures QualifierElement(q) != e
      {
        QualifierElements(q, q);
      }
    }
  }

  /** A qualifier's element is among the qualifier bonuses exactly when it is in the set and its mahjong flag matches. */
  lemma QualifierBonusIff(cb: set<HandCompletedBy>, m: bool, q: HandCompletedBy)
    ensures QualifierElement(q) in QualifierBonuses(QUALIFIERS, cb, m) <==> q in cb && ForMahjong(q) == m
  {
    QualifierBonusesMembers(QUALIFIERS, cb, m, QualifierElement(q));
    QualifierElements(q, q);
    forall r | QualifierElement(r) == QualifierElement(q)
      ensures r == q
    {
      QualifierElements(r, q);
    }
  }

  /**
   * The evaluation does not depend on the order of the groups, so sorting a
   * hand for display never changes its score: the same multiset of groups
   * gives the same mahjong flag, pair-concealment request, whole-hand scores
   * and totals, and group scores that are a permutation of each other.
   */
  lemma EvaluateOrderFree(s: Scheme, gs1: seq<ScoredGroup>, gs2: seq<ScoredGroup>, cb: set<HandCompletedBy>)
    requires GroupsValid(gs1) && multiset(gs1) == multiset(gs2)
    ensures GroupsValid(gs2)
    ensures var e1 := Evaluate(s, gs1, cb); var e2 := Evaluate(s, gs2, cb);
      && e1.isMahjong == e2.isMahjong
      && e1.requirePairConcealedInfo == e2.requirePairConcealedInfo
      && e1.wholeHandScores == e2.wholeHandScores
      && multiset(e1.groupScores) == multiset(e2.groupScores)
      && e1.totalUnlimited == e2.totalUnlimited
      && e1.totalLimited == e2.totalLimited
  {
    SameMembers(gs1, gs2);
    SumByPermutation(gs1, gs2, HandWeight);
    SumByPermutation(gs1, gs2, PairWeight);
    ConcatByPermutation(gs1, gs2, ScoreOf);
    GroupBonusesSameMembers(gs1, gs2);
    assert BonusElements(s, gs1, cb) == BonusElements(s, gs2, cb);
    var w := ScoresFor(s, BonusElements(s, gs1, cb));
    SameParts(GroupScores(gs1), GroupScores(gs2), w);
    TotalPermutation(GroupScores(gs1) + w, GroupScores(gs2) + w);
  }

  /** Lists with the same multiset of groups hold the same groups. */
  lemma SameMembers(gs1: seq<ScoredGroup>, gs2: seq<ScoredGroup>)
    requires GroupsValid(gs1) && multiset(gs1) == multiset(gs2)
    ensures GroupsValid(gs2)
    ensures forall g :: g in gs1 <==> g in gs2
  {
    forall g
      ensures g in gs1 <==> g in gs2
    {
      assert g in gs1 <==> g in multiset(gs1);
      assert g in gs2 <==> g in multiset(gs2);
    }
  }

  /** What the group bonuses read off the groups depends only on which groups there are. */
  lemma GroupBonusesSameMembers(gs1: seq<ScoredGroup>, gs2: seq<ScoredGroup>)
    requires GroupsValid(gs1) && GroupsValid(gs2) && forall g :: g in gs1 <==> g in gs2
    ensures GroupBonuses(gs1) == GroupBonuses(gs2)
    ensures AllNonPairsConcealed(gs1) == AllNonPairsConcealed(gs2)
  {
    assert AllMajor(gs1) == AllMajor(gs2);
    assert NoChow(gs1) == NoChow(gs2);
    assert Suits(gs1) == Suits(gs2);
    assert AllConcealed(gs1) == AllConcealed(gs2);
  }

  /** Putting the same lists around two permutations of each other gives permutations of each other. */
  lemma SameParts<T>(a1: seq<T>, a2: seq<T>, p: seq<T>)
    requires multiset(a1) == multiset(a2)
    ensures multiset(p + a1) == multiset(p + a2) && multiset(a1 + p) == multiset(a2 + p)
  {
  }

  /**
   * Any order of the qualifiers gives the same total: the source walks its
   * qualifier set in hash order, the model in declaration order.
   */
  lemma EvaluateQualifierOrderFree(s: Scheme, gs: seq<ScoredGroup>, cb: set<HandCompletedBy>, qs: seq<HandCompletedBy>)
    requires GroupsValid(gs) && multiset(qs) == multiset(QUALIFIERS)
    ensures var m := IsMahjongHand(s, gs);
      var prefix := if m then GroupBonuses(gs) else [];
      Total(GroupScores(gs) + ScoresFor(s, prefix + QualifierBonuses(qs, cb, m))) == Evaluate(s, gs, cb).totalUnlimited
  {
    var m := IsMahjongHand(s, gs);
    var prefix := if m then GroupBonuses(gs) else [];
    QualifierBonusesPermutation(qs, cb, m);
    EvaluatedTotal(s, gs, cb);
    TotalBonusesPermuted(s, GroupScores(gs), prefix, QualifierBonuses(qs, cb, m), QualifierBonuses(QUALIFIERS, cb, m));
  }

  /** Whole-hand elements in another order give the same total. */
  lemma TotalBonusesPermuted(s: Scheme, a: seq<Contribution>, prefix: seq<ScoreElement>, mine: seq<ScoreElement>, theirs: seq<ScoreElement>)
    requires multiset(mine) == multiset(theirs)
    ensures Total(a + ScoresFor(s, prefix + mine)) == Total(a + ScoresFor(s, prefix + theirs))
  {
    SameParts(mine, theirs, prefix);
    ConcatByPermutation(prefix + mine, prefix + theirs, e => ListFor(s, e));
    SameParts(ScoresFor(s, prefix + mine), ScoresFor(s, prefix + theirs), a);
    TotalPermutation(a + ScoresFor(s, prefix + mine), a + ScoresFor(s, prefix + theirs));
  }

  /** The unlimited total of an evaluation, with the bonuses split into those from the groups and those from the qualifiers. */
  lemma EvaluatedTotal(s: Scheme, gs: seq<ScoredGroup>, cb: set<HandCompletedBy>)
    requires GroupsValid(gs)
    ensures var m := IsMahjongHand(s, gs);
      var prefix := if m then GroupBonuses(gs) else [];
      Evaluate(s, gs, cb).totalUnlimited == Total(GroupScores(gs) + ScoresFor(s, prefix + QualifierBonuses(QUALIFIERS, cb, m)))
  {
    var m := IsMahjongHand(s, gs);
    if !m {
      assert [] + QualifierBonuses(QUALIFIERS, cb, m) == QualifierBonuses(QUALIFIERS, cb, m);
    }
  }

  lemma QualifierBonusesPermutation(qs: seq<HandCompletedBy>, cb: set<HandCompletedBy>, m: bool)
    requires multiset(qs) == multiset(QUALIFIERS)
    ensures multiset(QualifierBonuses(qs, cb, m)) == multiset(QualifierBonuses(QUALIFIERS, cb, m))
  {
    ConcatByPermutation(qs, QUALIFIERS, q => if q in cb && ForMahjong(q) == m then [QualifierElement(q)] else []);
  }

  lemma {:induction false} PairCountBounds(gs: seq<ScoredGroup>, i: int, j: int)
    requires 0 <= i < |gs| && 0 <= j < |gs|
    ensures PairCount(gs) >= 0
    ensures gs[i].group.kind == PAIR ==> PairCount(gs) >= 1
    ensures i != j && gs[i].group.kind == PAIR && gs[j].group.kind == PAIR ==> PairCount(gs) >= 2
  {
    var n := |gs| - 1;
    assert PairCount(gs) == PairCount(gs[..n]) + PairWeight(gs[n]);
    if i < n && j < n {
      PairCountBounds(gs[..n], i, j);
    } else if i < n {
      PairCountBounds(gs[..n], i, i);
    } else if j < n {
      PairCountBounds(gs[..n], j, j);
    } else if n > 0 {
      PairCountBounds(gs[..n], 0, 0);
    } else {
      assert gs[..n] == [];
    }
  }

  lemma {:induction false} NoPairCount(gs: seq<ScoredGroup>)
    requires forall i | 0 <= i < |gs| :: gs[i].group.kind != PAIR
    ensures PairCount(gs) == 0
  {
    if gs != [] {
      NoPairCount(gs[..|gs| - 1]);
    }
  }

  /**
   * When a hand asks for the concealment of its pair, the pair alone decides
   * the all-concealed bonus: the hand has a pair, and every group is concealed
   * exactly when its first pair is.
   */
  lemma PairDecidesAllConcealed(s: Scheme, gs: seq<ScoredGroup>, cb: set<HandCompletedBy>)
    requires GroupsValid(gs) && Evaluate(s, gs, cb).requirePairConcealedInfo
    ensures FirstPair(gs) < |gs|
    ensures AllConcealed(gs) <==> IsConcealed(gs[FirstPair(gs)].group)
  {
    var p := FirstPair(gs);
    if p == |gs| {
      NoPairCount(gs);
      assert false;
    }
    forall k | 0 <= k < |gs| && k != p
      ensures gs[k].group.kind != PAIR
    {
      if |gs| == 1 {
        assert false;
      }
      PairCountBounds(gs, p, k);
    }
    if IsConcealed(gs[p].group) {
      forall g | g in gs
        ensures IsConcealed(g.group)
      {
        var k :| 0 <= k < |gs| && gs[k] == g;
      }
    }
  }

  /** A hand that has never been scored shows what scoring the empty hand gives, as long as the limit is not negative. */
  lemma UnscoredIsEmptyHand(s: Scheme)
    requires s.limitScore >= 0
    ensures Evaluate(s, [], {}) == Unscored()
  {
    var qb := QualifierBonuses(QUALIFIERS, {}, false);
    if qb != [] {
      QualifierBonusesMembers(QUALIFIERS, {}, false, qb[0]);
      assert false;
    }
  }

  /** A mahjong hand has no room left, and a hand with room left has not reached the hand size. */
  lemma CapacityOfMahjong(s: Scheme, gs: seq<ScoredGroup>)
    ensures IsMahjongHand(s, gs) ==> Capacity(s, gs) == 0
    ensures Capacity(s, gs) > 0 ==> Weight(gs) < s.mahjongHandSize
    ensures Capacity(s, gs) >= 0
  {
  }

  // ----- Helpers for the mutators -----

  lemma ScoresForSnoc(s: Scheme, es: seq<ScoreElement>, e: ScoreElement)
    ensures ScoresFor(s, es + [e]) == ScoresFor(s, es) + ListFor(s, e)
  {
    assert (es + [e])[..|es|] == es;
  }

  lemma ScoresForAppendIf(s: Scheme, es: seq<ScoreElement>, c: bool, e: ScoreElement)
    ensures ScoresFor(s, AppendIf(es, c, e)) == ScoresFor(s, es) + (if c then ListFor(s, e) else [])
  {
    if c {
      ScoresForSnoc(s, es, e);
    } else {
      assert ScoresFor(s, es) + [] == ScoresFor(s, es);
    }
  }

  /** One more qualifier considered: its element's list is appended when it is in the set and of the right kind. */
  lemma QualifierScoresStep(s: Scheme, es: seq<ScoreElement>, cb: set<HandCompletedBy>, m: bool, k: nat)
    requires k < |QUALIFIERS|
    ensures var q := QUALIFIERS[k];
      ScoresFor(s, es + QualifierBonuses(QUALIFIERS[..k + 1], cb, m))
      == ScoresFor(s, es + QualifierBonuses(QUALIFIERS[..k], cb, m))
         + (if q in cb && ForMahjong(q) == m then ListFor(s, QualifierElement(q)) else [])
  {
    var q := QUALIFIERS[k];
    var c := q in cb && ForMahjong(q) == m;
    var before := QualifierBonuses(QUALIFIERS[..k], cb, m);
    assert QUALIFIERS[..k + 1][..k] == QUALIFIERS[..k];
    assert QualifierBonuses(QUALIFIERS[..k + 1], cb, m) == before + (if c then [QualifierElement(q)] else []);
    assert es + (before + (if c then [QualifierElement(q)] else [])) == AppendIf(es + before, c, QualifierElement(q));
    ScoresForAppendIf(s, es + before, c, QualifierElement(q));
  }

  lemma SuitsSnoc(gs: seq<ScoredGroup>, g: ScoredGroup)
    requires GroupsValid(gs + [g])
    ensures GroupsValid(gs)
    ensures Suits(gs + [g]) == Suits(gs) + (if FirstTile(g.group).SuitTile? then {FirstTile(g.group).suit} else {})
  {
    assert forall h | h in gs :: h in gs + [g];
  }

  /** Taking one element out of a sorted list leaves it sorted. */
  lemma RemoveKeepsSorted<T>(xs: seq<T>, i: int, key: T -> int)
    requires GroupOrder.Sorted(xs, key) && 0 <= i < |xs|
    ensures GroupOrder.Sorted(xs[..i] + xs[i + 1..], key)
  {
    var r := xs[..i] + xs[i + 1..];
    forall a, b | 0 <= a < b < |r|
      ensures key(r[a]) <= key(r[b])
    {
      var a' := if a < i then a else a + 1;
      var b' := if b < i then b else b + 1;
      assert r[a] == xs[a'] && r[b] == xs[b'];
    }
  }

  /** Adding a valid group to valid groups: one more in the multiset, all valid, display order kept. */
  lemma AddedGroups(gs: seq<ScoredGroup>, g: ScoredGroup, sort: bool)
    requires g.Valid() && (forall h | h in gs :: h.Valid()) && (sort ==> GroupOrder.Sorted(gs, DisplayKey))
    ensures var added := if sort then GroupOrder.Insert(gs, g, DisplayKey) else gs + [g];
      && multiset(added) == multiset(gs) + multiset{g}
      && (forall h | h in added :: h.Valid())
      && (sort ==> GroupOrder.Sorted(added, DisplayKey))
  {
    var added := if sort then GroupOrder.Insert(gs, g, DisplayKey) else gs + [g];
    if sort {
      GroupOrder.InsertSorted(gs, g, DisplayKey);
    }
    assert forall h | h in added :: h in multiset(added);
  }

  /** Taking one group out of valid groups: the rest stay valid and in display order. */
  lemma RemovedGroups(gs: seq<ScoredGroup>, i: int, sort: bool)
    requires 0 <= i < |gs| && (forall h | h in gs :: h.Valid()) && (sort ==> GroupOrder.Sorted(gs, DisplayKey))
    ensures forall h | h in gs[..i] + gs[i + 1..] :: h.Valid()
    ensures sort ==> GroupOrder.Sorted(gs[..i] + gs[i + 1..], DisplayKey)
  {
    if sort {
      RemoveKeepsSorted(gs, i, DisplayKey);
    }
    assert forall h | h in gs[..i] + gs[i + 1..] :: h in gs;
  }

  /** Taking out the first occurrence of a group: the rest stay valid and in display order. */
  lemma RemoveFirstGroups(gs: seq<ScoredGroup>, x: ScoredGroup, sort: bool)
    requires (forall h | h in gs :: h.Valid()) && (sort ==> GroupOrder.Sorted(gs, DisplayKey))
    ensures forall h | h in RemoveFirst(gs, x) :: h.Valid()
    ensures sort ==> GroupOrder.Sorted(RemoveFirst(gs, x), DisplayKey)
  {
    var i := IndexOf(gs, x);
    RemoveFirstAt(gs, x, i);
    if i >= 0 {
      RemovedGroups(gs, i, sort);
    }
  }

  lemma RemoveFirstAt(gs: seq<ScoredGroup>, x: ScoredGroup, i: int)
    requires i == IndexOf(gs, x)
    ensures i < 0 ==> RemoveFirst(gs, x) == gs
    ensures i >= 0 ==> RemoveFirst(gs, x) == gs[..i] + gs[i + 1..]
  {
  }

  /** Replacing one element by one with the same key leaves a sorted list sorted. */
  lemma ReplaceKeepsSorted<T>(xs: seq<T>, i: int, y: T, key: T -> int)
    requires GroupOrder.Sorted(xs, key) && 0 <= i < |xs| && key(y) == key(xs[i])
    ensures GroupOrder.Sorted(xs[i := y], key)
  {
  }

  /**
   * A scored hand. `groups` is kept in display order when `sort` is set;
   * `latest` is the group added last (it may have been taken out since);
   * the remaining fields cache the evaluation of the hand.
   */
  class ScoredHand {
    const scheme: Scheme
    const sort: bool
    var groups: seq<ScoredGroup>
    var completedBy: set<HandCompletedBy>
    var latest: ScoredGroup?
    var isMahjong: bool
    var requirePairConcealedInfo: bool
    var wholeHandScores: seq<Contribution>
    var groupScores: seq<Contribution>
    var totalUnlimited: int
    var totalLimited: int

    function Cache(): Evaluation
      reads this
    {
      Evaluation(isMahjong, requirePairConcealedInfo, wholeHandScores, groupScores, totalUnlimited, totalLimited)
    }

    /**
     * What every operation keeps: a loaded scheme, well-built scored groups,
     * in display order when sorting is on, and no concealed-pair qualifier in
     * the set (that one is recorded on the pair itself).
     */
    ghost predicate Consistent()
      reads this
    {
      && WellFormed(scheme)
      && (forall g | g in groups :: g.Valid())
      && MAHJONG_PAIR_CONCEALED !in completedBy
      && (sort ==> GroupOrder.Sorted(groups, DisplayKey))
    }

    /** Consistent, with a cache that is up to date. */
    ghost predicate Valid()
      reads this
    {
      Consistent() && GroupsValid(groups) && Cache() == Evaluate(scheme, groups, completedBy)
    }

    /** An empty hand with an empty qualifier set and nothing scored yet. */
    constructor (s: Scheme, sort: bool)
      requires WellFormed(s)
      ensures Consistent()
      ensures scheme == s && this.sort == sort
      ensures groups == [] && completedBy == {} && latest == null
      ensures Cache() == Unscored()
    {
      scheme := s;
      this.sort := sort;
      groups := [];
      completedBy := {};
      latest := null;
      isMahjong := false;
      requirePairConcealedInfo := false;
      wholeHandScores := [];
      groupScores := [];
      totalUnlimited := 0;
      totalLimited := 0;
    }

    /** Appends the scores of the qualifiers in the set that are for (or not for) mahjong. */
    method AppendQualifierScores(scores: seq<Contribution>, ghost es: seq<ScoreElement>, forMahjong: bool)
      returns (r: seq<Contribution>)
      requires WellFormed(scheme) && scores == ScoresFor(scheme, es)
      ensures r == ScoresFor(scheme, es + QualifierBonuses(QUALIFIERS, completedBy, forMahjong))
    {
      r := scores;
      assert QUALIFIERS[..0] == [] && es + [] == es;
      for k := 0 to |QUALIFIERS|
        invariant r == ScoresFor(scheme, es + QualifierBonuses(QUALIFIERS[..k], completedBy, forMahjong))
      {
        var q := QUALIFIERS[k];
        QualifierScoresStep(scheme, es, completedBy, forMahjong, k);
        if q in completedBy && ForMahjong(q) == forMahjong {
          r := r + ListFor(scheme, QualifierElement(q));
        }
      }
      assert QUALIFIERS[..|QUALIFIERS|] == QUALIFIERS;
    }

    /** The first pass of `updateScore`: the group scores, the hand weight and the number of pairs. */
    method ScanGroups() returns (scores: seq<Contribution>, weight: int, pairs: int)
      ensures scores == GroupScores(groups) && weight == Weight(groups) && pairs == PairCount(groups)
    {
      scores, weight, pairs := [], 0, 0;
      for i := 0 to |groups|
        invariant scores == GroupScores(groups[..i])
        invariant weight == Weight(groups[..i])
        invariant pairs == PairCount(groups[..i])
      {
        var g := groups[i];
        assert groups[..i + 1][..i] == groups[..i];
        scores := scores + g.score;
        weight := weight + HandSize(g.group.kind);
        if g.group.kind == PAIR {
          pairs := pairs + 1;
        }
      }
      assert groups[..|groups|] == groups;
    }

    /** The second pass of `updateScore`, made for a mahjong hand: what its bonuses depend on. */
    method ScanMahjongGroups() returns (allMajor: bool, noChow: bool, suits: set<Suit>, allGroupsConcealed: bool, allNonPairsConcealed: bool)
      requires GroupsValid(groups)
      ensures allMajor == AllMajor(groups) && noChow == NoChow(groups) && suits == Suits(groups)
      ensures allGroupsConcealed == AllConcealed(groups) && allNonPairsConcealed == AllNonPairsConcealed(groups)
    {
      allMajor, noChow, suits, allGroupsConcealed, allNonPairsConcealed := true, true, {}, true, true;
      for i := 0 to |groups|
        invariant GroupsValid(groups[..i])
        invariant allMajor == AllMajor(groups[..i])
        invariant noChow == NoChow(groups[..i])
        invariant suits == Suits(groups[..i])
        invariant allGroupsConcealed == AllConcealed(groups[..i])
        invariant allNonPairsConcealed == AllNonPairsConcealed(groups[..i])
      {
        var g := groups[i];
        assert groups[..i + 1] == groups[..i] + [g];
        assert g in groups;
        SuitsSnoc(groups[..i], g);
        var firstTile := g.group.tiles[0];
        if g.group.kind == CHOW {
          noChow := false;
          allMajor := false;
        }
        if !IsMajor(firstTile) {
          allMajor := false;
        }
        if firstTile.SuitTile? {
          suits := suits + {firstTile.suit};
        }
        if !IsConcealed(g.group) {
          allGroupsConcealed := false;
          if g.group.kind != PAIR {
            allNonPairsConcealed := false;
          }
        }
      }
      assert groups[..|groups|] == groups;
    }

    /** The group bonuses of a mahjong hand, appended in order, and whether the pair's concealment is needed. */
    method MahjongBonusScores() returns (whole: seq<Contribution>, requirePair: bool)
      requires WellFormed(scheme) && GroupsValid(groups)
      ensures whole == ScoresFor(scheme, GroupBonuses(groups))
      ensures requirePair == AllNonPairsConcealed(groups)
    {
      var allMajor, noChow, suits, allGroupsConcealed, allNonPairsConcealed := ScanMahjongGroups();
      whole := ListFor(scheme, MahjongHandScore);
      ghost var bonuses := [MahjongHandScore];
      ScoresForSnoc(scheme, [], MahjongHandScore);
      assert [] + [MahjongHandScore] == bonuses;
      assert whole == ScoresFor(scheme, bonuses);
      ScoresForAppendIf(scheme, bonuses, allMajor, AllMajorHandScore);
      whole := whole + (if allMajor then ListFor(scheme, AllMajorHandScore) else []);
      bonuses := AppendIf(bonuses, allMajor, AllMajorHandScore);
      assert whole == ScoresFor(scheme, bonuses);
      ScoresForAppendIf(scheme, bonuses, noChow, NoChowsHandScore);
      whole := whole + (if noChow then ListFor(scheme, NoChowsHandScore) else []);
      bonuses := AppendIf(bonuses, noChow, NoChowsHandScore);
      assert whole == ScoresFor(scheme, bonuses);
      ScoresForAppendIf(scheme, bonuses, |suits| == 1, SingleSuitHandScore);
      whole := whole + (if |suits| == 1 then ListFor(scheme, SingleSuitHandScore) else []);
      bonuses := AppendIf(bonuses, |suits| == 1, SingleSuitHandScore);
      assert whole == ScoresFor(scheme, bonuses);
      ScoresForAppendIf(scheme, bonuses, allGroupsConcealed, AllConcealedHandScore);
      whole := whole + (if allGroupsConcealed then ListFor(scheme, AllConcealedHandScore) else []);
      bonuses := AppendIf(bonuses, allGroupsConcealed, AllConcealedHandScore);
      assert whole == ScoresFor(scheme, bonuses);
      requirePair := false;
      if allNonPairsConcealed {
        requirePair := true;
      }
      assert bonuses == GroupBonuses(groups);
    }

    /** The computation of `updateScore`, before it is stored in the cache. */
    method ComputeEvaluation() returns (e: Evaluation)
      requires WellFormed(scheme) && GroupsValid(groups)
      ensures e == Evaluate(scheme, groups, completedBy)
    {
      var newGroupScores, effectiveHandTiles, pairCount := ScanGroups();
      var mahjong := effectiveHandTiles == scheme.mahjongHandSize && pairCount == 1;
      var requirePair := false;
      var whole: seq<Contribution>;
      if mahjong {
        whole, requirePair := MahjongBonusScores();
        whole := AppendQualifierScores(whole, GroupBonuses(groups), true);
      } else {
        whole := AppendQualifierScores([], [], false);
        assert [] + QualifierBonuses(QUALIFIERS, completedBy, false) == QualifierBonuses(QUALIFIERS, completedBy, false);
      }
      var unlimited := ComputeTotal(newGroupScores + whole);
      e := Evaluation(mahjong, requirePair, whole, newGroupScores, unlimited, Min(unlimited, scheme.limitScore));
    }

    /**
     * Recomputes the cache from the groups and the qualifier set: the
     * mahjong flag, the whole-hand and group scores, the pair-concealment
     * request and both totals.
     */
    method UpdateScore()
      requires Consistent()
      modifies this
      ensures Valid()
      ensures groups == old(groups) && completedBy == old(completedBy) && latest == old(latest)
    {
      assert GroupsValid(groups);
      var e := ComputeEvaluation();
      StoreCache(e);
    }

    /** Overwrites the cached scores with an evaluation. */
    method StoreCache(e: Evaluation)
      modifies this`isMahjong, this`requirePairConcealedInfo, this`totalUnlimited, this`totalLimited
      modifies this`wholeHandScores, this`groupScores
      ensures Cache() == e
    {
      isMahjong, requirePairConcealedInfo := e.isMahjong, e.requirePairConcealedInfo;
      totalUnlimited, totalLimited := e.totalUnlimited, e.totalLimited;
      wholeHandScores, groupScores := e.wholeHandScores, e.groupScores;
    }

    /**
     * Adds a group: at its place in display order when sorting is on (after
     * the groups that order no later than it, as a stable sort of the list
     * with the group appended puts it), otherwise at the end; records it as
     * the latest addition and rescores.
     */
    method Add(g: ScoredGroup)
      requires Consistent() && g.Valid()
      modifies this
      ensures Valid()
      ensures groups == (if sort then GroupOrder.Insert(old(groups), g, DisplayKey) else old(groups) + [g])
      ensures multiset(groups) == multiset(old(groups)) + multiset{g}
      ensures latest == g && completedBy == old(completedBy)
    {
      var added := if sort then GroupOrder.Insert(groups, g, DisplayKey) else groups + [g];
      AddedGroups(groups, g, sort);
      PlaceGroups(added, g);
      UpdateScore();
    }

    /** Stores a new group list and latest addition, leaving the rest of the hand alone. */
    method PlaceGroups(gs: seq<ScoredGroup>, g: ScoredGroup?)
      modifies this`groups, this`latest
      ensures groups == gs && latest == g
    {
      groups, latest := gs, g;
    }

    /** Takes out the group at `position`, forgets it as the latest addition if it was, and rescores. */
    method Remove(position: int) returns (removed: ScoredGroup)
      requires Consistent() && 0 <= position < |groups|
      modifies this
      ensures Valid()
      ensures removed == old(groups)[position]
      ensures groups == old(groups)[..position] + old(groups)[position + 1..]
      ensures latest == (if removed == old(latest) then null else old(latest))
      ensures completedBy == old(completedBy)
    {
      removed := groups[position];
      RemovedGroups(groups, position, sort);
      PlaceGroups(groups[..position] + groups[position + 1..], if removed == latest then null else latest);
      UpdateScore();
    }

    /**
     * Takes out the first occurrence of the latest addition, without
     * rescoring, and adds `g` in its stead.
     */
    method ReplaceLatestAddition(g: ScoredGroup)
      requires Consistent() && g.Valid()
      modifies this
      ensures Valid()
      ensures var kept := if old(latest) == null then old(groups) else RemoveFirst(old(groups), old(latest));
        groups == (if sort then GroupOrder.Insert(kept, g, DisplayKey) else kept + [g])
      ensures latest == g && completedBy == old(completedBy)
    {
      var kept := groups;
      if latest != null {
        RemoveFirstGroups(groups, latest, sort);
        kept := RemoveFirst(groups, latest);
      }
      PlaceGroups(kept, latest);
      Add(g);
    }

    /**
     * Records how the hand was completed. The concealed-pair qualifier is
     * recorded on the first pair instead: the pair is replaced in place by
     * its toggled copy when its concealment differs from `value`, and only
     * then does the call report that tiles changed. Any other qualifier is
     * added to or taken from the set. The hand is rescored either way.
     */
    method SetMahjongCompletedBy(q: HandCompletedBy, value: bool) returns (tilesChanged: bool)
      requires Consistent()
      modifies this
      ensures Valid() && latest == old(latest)
      ensures q != MAHJONG_PAIR_CONCEALED ==>
        && !tilesChanged && groups == old(groups)
        && completedBy == (if value then old(completedBy) + {q} else old(completedBy) - {q})
      ensures q == MAHJONG_PAIR_CONCEALED ==> completedBy == old(completedBy)
      ensures q == MAHJONG_PAIR_CONCEALED ==> var p := FirstPair(old(groups));
        && (tilesChanged <==> p < |old(groups)| && IsConcealed(old(groups)[p].group) != value)
        && (!tilesChanged ==> groups == old(groups))
        && (tilesChanged ==>
             && |groups| == |old(groups)|
             && groups == old(groups)[p := groups[p]] && fresh(groups[p])
             && groups[p].group == Groups.ToggleVisibility(old(groups)[p].group)
             && groups[p].scheme == old(groups)[p].scheme
             && groups[p].ownWind == old(groups)[p].ownWind
             && groups[p].prevailingWind == old(groups)[p].prevailingWind)
        && FirstPair(groups) == p
        && (p < |groups| ==> IsConcealed(groups[p].group) == value)
    {
      tilesChanged := false;
      if q == MAHJONG_PAIR_CONCEALED {
        var pairIndex := FindFirstPair();
        if pairIndex < |groups| && IsConcealed(groups[pairIndex].group) != value {
          TogglePair(pairIndex);
          tilesChanged := true;
        }
      } else if value {
        completedBy := completedBy + {q};
      } else {
        completedBy := completedBy - {q};
      }
      UpdateScore();
    }

    /** The loop of `setMahjongCompletedBy` that looks for the first pair. */
    method FindFirstPair() returns (pairIndex: nat)
      ensures pairIndex == FirstPair(groups)
    {
      pairIndex := 0;
      while pairIndex < |groups| && groups[pairIndex].group.kind != PAIR
        invariant 0 <= pairIndex <= |groups|
        invariant forall i | 0 <= i < pairIndex :: groups[i].group.kind != PAIR
      {
        pairIndex := pairIndex + 1;
      }
    }

    /** Replaces the first pair by its copy with the other visibility. */
    method TogglePair(p: nat)
      requires Consistent() && p == FirstPair(groups) && p < |groups|
      modifies this`groups
      ensures Consistent()
      ensures |groups| == |old(groups)| && groups == old(groups)[p := groups[p]] && fresh(groups[p])
      ensures groups[p].group == Groups.ToggleVisibility(old(groups)[p].group)
      ensures groups[p].scheme == old(groups)[p].scheme
      ensures groups[p].ownWind == old(groups)[p].ownWind
      ensures groups[p].prevailingWind == old(groups)[p].prevailingWind
      ensures FirstPair(groups) == p
    {
      var toggled := groups[p].ToggleVisibility();
      if sort {
        ReplaceKeepsSorted(groups, p, toggled, DisplayKey);
      }
      ghost var before := groups;
      groups := groups[p := toggled];
      assert forall h | h in groups :: h in before || h == toggled;
      assert forall i | 0 <= i < |groups| :: groups[i].group.kind == before[i].group.kind;
    }

    /** The concealment of the first pair; false when there is no pair. */
    method IsPairConcealed() returns (r: bool)
      ensures r == (FirstPair(groups) < |groups| && IsConcealed(groups[FirstPair(groups)].group))
      ensures Valid() && requirePairConcealedInfo ==> (r <==> AllConcealed(groups))
    {
      r := false;
      var i := 0;
      while i < |groups|
        invariant 0 <= i <= |groups|
        invariant forall j | 0 <= j < i :: groups[j].group.kind != PAIR
      {
        if groups[i].group.kind == PAIR {
          r := IsConcealed(groups[i].group);
          break;
        }
        i := i + 1;
      }
      assert i == FirstPair(groups);
      if Valid() && requirePairConcealedInfo {
        PairDecidesAllConcealed(scheme, groups, completedBy);
      }
    }

    /** How many more tiles the hand can take (not counting a kong's extra tile). */
    method GetAvailableTileCapacity() returns (r: int)
      ensures r == Capacity(scheme, groups)
      ensures r >= 0 && (IsMahjongHand(scheme, groups) ==> r == 0)
    {
      var tileCount := 0;
      var pairCount := 0;
      for i := 0 to |groups|
        invariant tileCount == Weight(groups[..i])
        invariant pairCount == PairCount(groups[..i])
      {
        assert groups[..i + 1][..i] == groups[..i];
        var kind := groups[i].group.kind;
        tileCount := tileCount + HandSize(kind);
        if kind == PAIR {
          pairCount := pairCount + 1;
        }
      }
      assert groups[..|groups|] == groups;
      if pairCount > 1 {
        r := Max0(scheme.mahjongHandSize - 1 - tileCount);
      } else {
        r := Max0(scheme.mahjongHandSize - tileCount);
      }
      CapacityOfMahjong(scheme, groups);
    }

    /** Where the latest addition now is, or -1 when there is none or it has been taken out. */
    method GetLatestAdditionPosition() returns (r: int)
      ensures r == (if latest == null then -1 else IndexOf(groups, latest))
      ensures r >= 0 ==> groups[r] == latest
      ensures r == -1 <==> latest == null || latest !in groups
    {
      if latest == null {
        return -1;
      }
      r := IndexOf(groups, latest);
    }
  }
}
