/**
 * A scoring scheme: a table from score element to the list of contributions
 * that element adds, plus the hand size that makes mahjong, the limit on a
 * hand's score and every player's initial score. The table is built from a
 * list of decoded contributions (the later of two with one element wins);
 * wind pung and kong elements get the own-wind and prevailing-wind
 * multipliers appended, and the four multipliers get no entry of their own.
 */
module Schemes {
  import opened Wrappers
  import opened ScoreElements
  import opened Contributions
  import opened ScoreLists

  const DEFAULT_MAHJONG_HAND_SIZE: int := 14
  const DEFAULT_LIMIT_SCORE: int := 1000
  const DEFAULT_INITIAL_SCORE: int := 2000

  datatype Scheme = Scheme(
    contributions: map<ScoreElement, seq<Contribution>>,
    mahjongHandSize: int,
    limitScore: int,
    initialScore: int)

  /** A scheme before anything is loaded: an empty table and the default constants. */
  function NewScheme(): (s: Scheme)
    ensures s.contributions == map[]
    ensures s.mahjongHandSize == 14 && s.limitScore == 1000 && s.initialScore == 2000
  {
    Scheme(map[], DEFAULT_MAHJONG_HAND_SIZE, DEFAULT_LIMIT_SCORE, DEFAULT_INITIAL_SCORE)
  }

  /** What every loaded scheme satisfies: an entry for every non-multiplier element, all of them valid. */
  ghost predicate WellFormed(s: Scheme)
  {
    (forall e :: e in s.contributions <==> !IsMultiplier(e))
    && (forall e | e in s.contributions :: AllValid(s.contributions[e]))
  }

  /** `getScoreContribution`: the element's list, or null when it has no entry. */
  function GetScoreContribution(s: Scheme, e: ScoreElement): Option<seq<Contribution>>
  {
    if e in s.contributions then Some(s.contributions[e]) else None
  }

  /** Some contribution of the list has a score. */
  predicate AnyHasScore(xs: seq<Contribution>)
  {
    exists i | 0 <= i < |xs| :: HasScore(xs[i])
  }

  /** `hasScore(element)`; the source dereferences a missing entry. */
  predicate SchemeHasScore(s: Scheme, e: ScoreElement)
    requires e in s.contributions
  {
    AnyHasScore(s.contributions[e])
  }

  /**
   * A list without any scoring contribution leaves every total as it was, so
   * an element for which `hasScore` is false never changes a hand's score.
   */
  lemma {:induction false} NoScoreNoEffect(xs: seq<Contribution>, ys: seq<Contribution>)
    requires AllValid(ys) && !AnyHasScore(ys)
    ensures Total(xs + ys) == Total(xs)
  {
    if ys != [] {
      var ys' := ys[..|ys| - 1];
      var y := ys[|ys| - 1];
      assert !HasScore(y);
      assert !AnyHasScore(ys') by {
        forall i | 0 <= i < |ys'| ensures !HasScore(ys'[i]) {
          assert ys'[i] == ys[i];
        }
      }
      NoScoreNoEffect(xs, ys');
      assert xs + ys == (xs + ys') + [y];
      SumLast(xs + ys', y);
    } else {
      assert xs + ys == xs;
    }
  }

  /** The contributions of a list by element: a later one replaces an earlier one. */
  function Collect(cs: seq<Contribution>): map<ScoreElement, Contribution>
  {
    if cs == [] then map[] else Collect(cs[..|cs| - 1])[cs[|cs| - 1].element := cs[|cs| - 1]]
  }

  /** An element is collected exactly when some contribution has it, and the last such one wins. */
  lemma {:induction false} CollectLaterWins(cs: seq<Contribution>, e: ScoreElement)
    ensures e in Collect(cs) <==> exists i | 0 <= i < |cs| :: cs[i].element == e
    ensures e in Collect(cs) ==> exists i | 0 <= i < |cs| ::
      Collect(cs)[e] == cs[i] && cs[i].element == e
      && forall j | i < j < |cs| :: cs[j].element != e
  {
    if cs != [] {
      var n := |cs| - 1;
      var cs' := cs[..n];
      CollectLaterWins(cs', e);
      if cs[n].element != e {
        if e in Collect(cs) {
          var i :| 0 <= i < |cs'| && Collect(cs')[e] == cs'[i] && cs'[i].element == e
            && forall j | i < j < |cs'| :: cs'[j].element != e;
          assert cs[i] == cs'[i];
          assert forall j | i < j < |cs| :: cs[j].element != e by {
            forall j | i < j < |cs| ensures cs[j].element != e {
              if j < n { assert cs[j] == cs'[j]; }
            }
          }
        }
        if exists i | 0 <= i < |cs| :: cs[i].element == e {
          var i :| 0 <= i < |cs| && cs[i].element == e;
          assert cs'[i] == cs[i];
        }
      }
    }
  }

  /** All contributions in the collected map are ones of the list. */
  lemma {:induction false} CollectValid(cs: seq<Contribution>)
    requires AllValid(cs)
    ensures forall e | e in Collect(cs) :: Valid(Collect(cs)[e]) && Collect(cs)[e].element == e
  {
    if cs != [] {
      CollectValid(cs[..|cs| - 1]);
    }
  }

  /** The own-wind multiplier of the element's group type. */
  function OwnMultiplierFor(e: ScoreElement): ScoreElement
  {
    if KindOf(e) == Some(Groups.KONG) then KongOwnWindMultiplier else PungOwnWindMultiplier
  }

  /** The prevailing-wind multiplier of the element's group type. */
  function PrevailingMultiplierFor(e: ScoreElement): ScoreElement
  {
    if KindOf(e) == Some(Groups.KONG) then KongPrevailingWindMultiplier else PungPrevailingWindMultiplier
  }

  /** The multiplier elements appended after a wind pung or kong element. */
  function AppendedMultipliers(e: ScoreElement): seq<ScoreElement>
  {
    if KindOf(e) == Some(Groups.PAIR) then []
    else
      match RoleOf(e)
      case PrevailingOwnRole => [OwnMultiplierFor(e), PrevailingMultiplierFor(e)]
      case OwnRole => [OwnMultiplierFor(e)]
      case PrevailingRole => [PrevailingMultiplierFor(e)]
      case NoRole => []
  }

  /** Every element of the table's construction is present in the collected map. */
  ghost predicate Complete(m: map<ScoreElement, Contribution>)
  {
    forall e :: e in m
  }

  /** The list for one element: its own contribution, then any appended multipliers. */
  function Entry(m: map<ScoreElement, Contribution>, e: ScoreElement): seq<Contribution>
    requires Complete(m)
  {
    var extra := AppendedMultipliers(e);
    [m[e]] + seq(|extra|, i requires 0 <= i < |extra| => m[extra[i]])
  }

  /** The table built by the sequence of `addScoreContribution` and `append` calls. */
  function Table(m: map<ScoreElement, Contribution>): map<ScoreElement, seq<Contribution>>
    requires Complete(m)
  {
    map e: ScoreElement | !IsMultiplier(e) :: Entry(m, e)
  }

  /**
   * The shape of the table: an entry for every element except the four
   * multipliers; each entry starts with the element's own contribution; a
   * prevailing-own wind pung or kong is followed by the own-wind and
   * prevailing-wind multipliers, an own-wind one by the own-wind multiplier,
   * a prevailing-wind one by the prevailing-wind multiplier, and every other
   * element stands alone.
   */
  lemma TableShape(m: map<ScoreElement, Contribution>, e: ScoreElement)
    requires Complete(m)
    ensures e in Table(m) <==> !IsMultiplier(e)
    ensures IsMultiplier(e) ==> GetScoreContribution(Scheme(Table(m), 0, 0, 0), e).None?
    ensures !IsMultiplier(e) && (KindOf(e) == Some(Groups.PUNG) || KindOf(e) == Some(Groups.KONG)) ==>
      Table(m)[e] ==
        match RoleOf(e)
        case PrevailingOwnRole => [m[e], m[OwnMultiplierFor(e)], m[PrevailingMultiplierFor(e)]]
        case OwnRole => [m[e], m[OwnMultiplierFor(e)]]
        case PrevailingRole => [m[e], m[PrevailingMultiplierFor(e)]]
        case NoRole => [m[e]]
    ensures !IsMultiplier(e) && (KindOf(e).None? || KindOf(e) == Some(Groups.PAIR) || KindOf(e) == Some(Groups.CHOW)) ==>
      Table(m)[e] == [m[e]]
  {
    TableKeys(m, e);
    if !IsMultiplier(e) {
      TableEntry(m, e);
    }
  }

  lemma TableKeys(m: map<ScoreElement, Contribution>, e: ScoreElement)
    requires Complete(m)
    ensures e in Table(m) <==> !IsMultiplier(e)
    ensures IsMultiplier(e) ==> GetScoreContribution(Scheme(Table(m), 0, 0, 0), e).None?
  {
  }

  lemma TableEntry(m: map<ScoreElement, Contribution>, e: ScoreElement)
    requires Complete(m) && !IsMultiplier(e)
    ensures e in Table(m)
    ensures KindOf(e) == Some(Groups.PUNG) || KindOf(e) == Some(Groups.KONG) ==>
      Table(m)[e] ==
        match RoleOf(e)
        case PrevailingOwnRole => [m[e], m[OwnMultiplierFor(e)], m[PrevailingMultiplierFor(e)]]
        case OwnRole => [m[e], m[OwnMultiplierFor(e)]]
        case PrevailingRole => [m[e], m[PrevailingMultiplierFor(e)]]
        case NoRole => [m[e]]
    ensures KindOf(e).None? || KindOf(e) == Some(Groups.PAIR) || KindOf(e) == Some(Groups.CHOW) ==>
      Table(m)[e] == [m[e]]
  {
    var extra := AppendedMultipliers(e);
    assert Table(m)[e] == Entry(m, e);
    if KindOf(e).None? || KindOf(e) == Some(Groups.CHOW) {
      assert RoleOf(e) == NoRole;
    }
  }

  /** The stored form of a scheme: its three constants and its list of contributions. */
  datatype SchemeRecord = SchemeRecord(
    mahjongHandSize: int,
    limitScore: int,
    initialScore: int,
    contributions: seq<ContributionRecord>)

  /** Decoding every stored contribution in order; the first refused one is the error. */
  function DecodeAll(rs: seq<ContributionRecord>): (res: Result<seq<Contribution>, SchemeError>)
    ensures res.Success? ==> |res.value| == |rs| && AllValid(res.value)
    ensures res.Success? ==> forall i | 0 <= i < |rs| :: Decode(rs[i]) == Success(res.value[i])
  {
    if rs == [] then Success([])
    else
      match DecodeAll(rs[..|rs| - 1])
      case Failure(e) => Failure(e)
      case Success(cs) =>
        match Decode(rs[|rs| - 1])
        case Failure(e) => Failure(e)
        case Success(c) => Success(cs + [c])
  }

  /**
   * The loop that decodes the stored contributions into a map from element
   * to contribution, stopping at the first one the constructor refuses.
   */
  method CollectContributions(rs: seq<ContributionRecord>) returns (res: Result<map<ScoreElement, Contribution>, SchemeError>)
    ensures DecodeAll(rs).Failure? ==> res == Failure(DecodeAll(rs).error)
    ensures DecodeAll(rs).Success? ==> res == Success(Collect(DecodeAll(rs).value))
  {
    var m: map<ScoreElement, Contribution> := map[];
    ghost var cs: seq<Contribution> := [];
    for i := 0 to |rs|
      invariant DecodeAll(rs[..i]) == Success(cs)
      invariant m == Collect(cs)
    {
      assert rs[..i + 1][..i] == rs[..i];
      match Decode(rs[i]) {
        case Failure(e) =>
          DecodeAllFailsOnPrefix(rs, i + 1);
          return Failure(e);
        case Success(c) =>
          assert (cs + [c])[..|cs|] == cs;
          m := m[c.element := c];
          cs := cs + [c];
      }
    }
    assert rs[..|rs|] == rs;
    res := Success(m);
  }

  /** Once a prefix fails to decode, so does every longer prefix, with the same error. */
  lemma {:induction false} DecodeAllFailsOnPrefix(rs: seq<ContributionRecord>, k: nat)
    requires k <= |rs| && DecodeAll(rs[..k]).Failure?
    ensures DecodeAll(rs) == DecodeAll(rs[..k])
    decreases |rs| - k
  {
    if k < |rs| {
      assert rs[..k + 1][..k] == rs[..k];
      DecodeAllFailsOnPrefix(rs, k + 1);
    } else {
      assert rs[..k] == rs;
    }
  }

  /**
   * `fromJson`: decode the contributions, then build the table from the last
   * contribution of each element. A load that does not name every element is
   * refused.
   */
  function FromRecord(r: SchemeRecord): (res: Result<Scheme, SchemeError>)
    ensures DecodeAll(r.contributions).Failure? ==> res == Failure(DecodeAll(r.contributions).error)
    ensures res.Success? <==>
      DecodeAll(r.contributions).Success? && Complete(Collect(DecodeAll(r.contributions).value))
    ensures res.Failure? && DecodeAll(r.contributions).Success? ==> res.error == MissingContribution
    ensures res.Success? ==> WellFormed(res.value)
    ensures res.Success? ==> res.value.contributions == Table(Collect(DecodeAll(r.contributions).value))
    ensures res.Success? ==> res.value.mahjongHandSize == r.mahjongHandSize
    ensures res.Success? ==> res.value.limitScore == r.limitScore && res.value.initialScore == r.initialScore
  {
    match DecodeAll(r.contributions)
    case Failure(e) => Failure(e)
    case Success(cs) =>
      var m := Collect(cs);
      if forall e :: e in m then
        CollectValid(cs);
        assert forall e | !IsMultiplier(e) :: AllValid(Table(m)[e]) by {
          forall e | !IsMultiplier(e) ensures AllValid(Table(m)[e]) {
            assert Table(m)[e] == Entry(m, e);
          }
        }
        Success(Scheme(Table(m), r.mahjongHandSize, r.limitScore, r.initialScore))
      else Failure(MissingContribution)
  }
}
