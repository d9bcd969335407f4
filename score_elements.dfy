/**
 * The score elements of a scoring scheme, and a description of each group
 * element read off its name: which group type, tile type, concealment,
 * terminal/honour class and wind role it is for.
 */
module ScoreElements {
  import opened Wrappers
  import opened Tiles
  import opened Groups

  /** Every scoring rule of a scheme, in declaration order. */
  datatype ScoreElement =
    // Group scores
    | PairSuitScore | PairWindScore | PairOwnWindScore | PairPrevailingWindScore | PairDragonScore
    | ChowSuitScore
    | PungExposedMinorSuitScore | PungExposedMajorSuitScore | PungConcealedMinorSuitScore | PungConcealedMajorSuitScore
    | PungExposedPrevailingOwnWindScore | PungExposedOwnWindScore | PungExposedPrevailingWindScore | PungExposedWindScore
    | PungConcealedPrevailingOwnWindScore | PungConcealedOwnWindScore | PungConcealedPrevailingWindScore | PungConcealedWindScore
    | PungOwnWindMultiplier | PungPrevailingWindMultiplier
    | PungExposedDragonScore | PungConcealedDragonScore
    | KongExposedMinorSuitScore | KongExposedMajorSuitScore | KongConcealedMinorSuitScore | KongConcealedMajorSuitScore
    | KongExposedPrevailingOwnWindScore | KongExposedOwnWindScore | KongExposedPrevailingWindScore | KongExposedWindScore
    | KongConcealedPrevailingOwnWindScore | KongConcealedOwnWindScore | KongConcealedPrevailingWindScore | KongConcealedWindScore
    | KongOwnWindMultiplier | KongPrevailingWindMultiplier
    | KongExposedDragonScore | KongConcealedDragonScore
    // Whole hand scores
    | OriginalCallHandScore
    | MahjongHandScore | MahjongByNoScoreHandScore | NoChowsHandScore | SingleSuitHandScore | AllMajorHandScore
    | AllConcealedHandScore | MahjongByLooseTileHandScore | MahjongByOnlyPossibleTileHandScore
    | MahjongByWallTileHandScore | MahjongByLastWallTileHandScore | MahjongByLastDiscardHandScore
    | MahjongByRobbingKongHandScore | MahjongByOriginalCallHandScore

  /** The four multipliers that are appended to wind pung and kong elements. */
  predicate IsMultiplier(e: ScoreElement)
  {
    e == PungOwnWindMultiplier || e == PungPrevailingWindMultiplier
    || e == KongOwnWindMultiplier || e == KongPrevailingWindMultiplier
  }

  /** Which group type a group element scores; whole-hand elements and multipliers score none. */
  function KindOf(e: ScoreElement): Option<GroupType>
  {
    match e
    case PairSuitScore | PairWindScore | PairOwnWindScore | PairPrevailingWindScore | PairDragonScore => Some(PAIR)
    case ChowSuitScore => Some(CHOW)
    case PungExposedMinorSuitScore | PungExposedMajorSuitScore | PungConcealedMinorSuitScore | PungConcealedMajorSuitScore
      | PungExposedPrevailingOwnWindScore | PungExposedOwnWindScore | PungExposedPrevailingWindScore | PungExposedWindScore
      | PungConcealedPrevailingOwnWindScore | PungConcealedOwnWindScore | PungConcealedPrevailingWindScore | PungConcealedWindScore
      | PungExposedDragonScore | PungConcealedDragonScore => Some(PUNG)
    case KongExposedMinorSuitScore | KongExposedMajorSuitScore | KongConcealedMinorSuitScore | KongConcealedMajorSuitScore
      | KongExposedPrevailingOwnWindScore | KongExposedOwnWindScore | KongExposedPrevailingWindScore | KongExposedWindScore
      | KongConcealedPrevailingOwnWindScore | KongConcealedOwnWindScore | KongConcealedPrevailingWindScore | KongConcealedWindScore
      | KongExposedDragonScore | KongConcealedDragonScore => Some(KONG)
    case _ => None
  }

  /** Which tile type a group element scores. */
  function TileTypeFor(e: ScoreElement): Option<TileType>
  {
    match e
    case PairSuitScore | ChowSuitScore
      | PungExposedMinorSuitScore | PungExposedMajorSuitScore | PungConcealedMinorSuitScore | PungConcealedMajorSuitScore
      | KongExposedMinorSuitScore | KongExposedMajorSuitScore | KongConcealedMinorSuitScore | KongConcealedMajorSuitScore => Some(SUIT)
    case PairWindScore | PairOwnWindScore | PairPrevailingWindScore
      | PungExposedPrevailingOwnWindScore | PungExposedOwnWindScore | PungExposedPrevailingWindScore | PungExposedWindScore
      | PungConcealedPrevailingOwnWindScore | PungConcealedOwnWindScore | PungConcealedPrevailingWindScore | PungConcealedWindScore
      | KongExposedPrevailingOwnWindScore | KongExposedOwnWindScore | KongExposedPrevailingWindScore | KongExposedWindScore
      | KongConcealedPrevailingOwnWindScore | KongConcealedOwnWindScore | KongConcealedPrevailingWindScore | KongConcealedWindScore => Some(WIND)
    case PairDragonScore | PungExposedDragonScore | PungConcealedDragonScore
      | KongExposedDragonScore | KongConcealedDragonScore => Some(DRAGON)
    case _ => None
  }

  /** Elements whose name says "Concealed". */
  predicate IsConcealedElement(e: ScoreElement)
  {
    match e
    case PungConcealedMinorSuitScore | PungConcealedMajorSuitScore
      | PungConcealedPrevailingOwnWindScore | PungConcealedOwnWindScore | PungConcealedPrevailingWindScore | PungConcealedWindScore
      | PungConcealedDragonScore
      | KongConcealedMinorSuitScore | KongConcealedMajorSuitScore
      | KongConcealedPrevailingOwnWindScore | KongConcealedOwnWindScore | KongConcealedPrevailingWindScore | KongConcealedWindScore
      | KongConcealedDragonScore => true
    case _ => false
  }

  /** Elements whose name says "MajorSuit". */
  predicate IsMajorSuitElement(e: ScoreElement)
  {
    e == PungExposedMajorSuitScore || e == PungConcealedMajorSuitScore
    || e == KongExposedMajorSuitScore || e == KongConcealedMajorSuitScore
  }

  /** Whether a wind element is for the holder's own wind, the prevailing wind, both, or neither. */
  datatype WindRole = NoRole | OwnRole | PrevailingRole | PrevailingOwnRole

  function RoleOf(e: ScoreElement): WindRole
  {
    match e
    case PairOwnWindScore | PungExposedOwnWindScore | PungConcealedOwnWindScore
      | KongExposedOwnWindScore | KongConcealedOwnWindScore => OwnRole
    case PairPrevailingWindScore | PungExposedPrevailingWindScore | PungConcealedPrevailingWindScore
      | KongExposedPrevailingWindScore | KongConcealedPrevailingWindScore => PrevailingRole
    case PungExposedPrevailingOwnWindScore | PungConcealedPrevailingOwnWindScore
      | KongExposedPrevailingOwnWindScore | KongConcealedPrevailingOwnWindScore => PrevailingOwnRole
    case _ => NoRole
  }

  /**
   * The description of a group element: type, tile type, concealment, major
   * class and wind role. Two different group elements never share one.
   */
  lemma DescriptionDeterminesElement(e1: ScoreElement, e2: ScoreElement)
    requires KindOf(e1).Some? && KindOf(e1) == KindOf(e2) && TileTypeFor(e1) == TileTypeFor(e2)
    requires IsConcealedElement(e1) == IsConcealedElement(e2) && IsMajorSuitElement(e1) == IsMajorSuitElement(e2)
    requires RoleOf(e1) == RoleOf(e2)
    ensures e1 == e2
  {
    DescriptionRoundTrip(e1);
    DescriptionRoundTrip(e2);
  }

  /**
   * The group element with a given description, read back from the parts of
   * its name; for a description no element has, some element of that group
   * type.
   */
  function ElementWith(k: GroupType, t: TileType, concealed: bool, major: bool, role: WindRole): ScoreElement
  {
    match k
    case PAIR =>
      (match t
       case SUIT => PairSuitScore
       case DRAGON => PairDragonScore
       case WIND =>
         if role == OwnRole then PairOwnWindScore
         else if role == PrevailingRole then PairPrevailingWindScore
         else PairWindScore)
    case CHOW => ChowSuitScore
    case PUNG =>
      (match t
       case SUIT =>
         if major then (if concealed then PungConcealedMajorSuitScore else PungExposedMajorSuitScore)
         else (if concealed then PungConcealedMinorSuitScore else PungExposedMinorSuitScore)
       case DRAGON => if concealed then PungConcealedDragonScore else PungExposedDragonScore
       case WIND =>
         match role
         case PrevailingOwnRole => if concealed then PungConcealedPrevailingOwnWindScore else PungExposedPrevailingOwnWindScore
         case OwnRole => if concealed then PungConcealedOwnWindScore else PungExposedOwnWindScore
         case PrevailingRole => if concealed then PungConcealedPrevailingWindScore else PungExposedPrevailingWindScore
         case NoRole => if concealed then PungConcealedWindScore else PungExposedWindScore)
    case KONG =>
      (match t
       case SUIT =>
         if major then (if concealed then KongConcealedMajorSuitScore else KongExposedMajorSuitScore)
         else (if concealed then KongConcealedMinorSuitScore else KongExposedMinorSuitScore)
       case DRAGON => if concealed then KongConcealedDragonScore else KongExposedDragonScore
       case WIND =>
         match role
         case PrevailingOwnRole => if concealed then KongConcealedPrevailingOwnWindScore else KongExposedPrevailingOwnWindScore
         case OwnRole => if concealed then KongConcealedOwnWindScore else KongExposedOwnWindScore
         case PrevailingRole => if concealed then KongConcealedPrevailingWindScore else KongExposedPrevailingWindScore
         case NoRole => if concealed then KongConcealedWindScore else KongExposedWindScore)
  }

  /** Every group element is read back from its own description. */
  lemma DescriptionRoundTrip(e: ScoreElement)
    requires KindOf(e).Some?
    ensures TileTypeFor(e).Some?
    ensures ElementWith(KindOf(e).value, TileTypeFor(e).value, IsConcealedElement(e), IsMajorSuitElement(e), RoleOf(e)) == e
  {
    match KindOf(e).value
    case PAIR => RoundTripPair(e);
    case CHOW => RoundTripChow(e);
    case PUNG => RoundTripPung(e);
    case KONG => RoundTripKong(e);
  }

  lemma RoundTripPair(e: ScoreElement)
    requires KindOf(e) == Some(PAIR)
    ensures TileTypeFor(e).Some?
    ensures ElementWith(PAIR, TileTypeFor(e).value, IsConcealedElement(e), IsMajorSuitElement(e), RoleOf(e)) == e
  {
    match e
    case PairSuitScore =>
    case PairWindScore =>
    case PairOwnWindScore =>
    case PairPrevailingWindScore =>
    case PairDragonScore =>
    case _ => assert false;
  }

  lemma RoundTripChow(e: ScoreElement)
    requires KindOf(e) == Some(CHOW)
    ensures TileTypeFor(e).Some?
    ensures ElementWith(CHOW, TileTypeFor(e).value, IsConcealedElement(e), IsMajorSuitElement(e), RoleOf(e)) == e
  {
    match e
    case ChowSuitScore =>
    case _ => assert false;
  }

  lemma RoundTripPung(e: ScoreElement)
    requires KindOf(e) == Some(PUNG)
    ensures TileTypeFor(e).Some?
    ensures ElementWith(PUNG, TileTypeFor(e).value, IsConcealedElement(e), IsMajorSuitElement(e), RoleOf(e)) == e
  {
    match e
    case PungExposedMinorSuitScore =>
    case PungExposedMajorSuitScore =>
    case PungConcealedMinorSuitScore =>
    case PungConcealedMajorSuitScore =>
    case PungExposedPrevailingOwnWindScore =>
    case PungExposedOwnWindScore =>
    case PungExposedPrevailingWindScore =>
    case PungExposedWindScore =>
    case PungConcealedPrevailingOwnWindScore =>
    case PungConcealedOwnWindScore =>
    case PungConcealedPrevailingWindScore =>
    case PungConcealedWindScore =>
    case PungExposedDragonScore =>
    case PungConcealedDragonScore =>
    case _ => assert false;
  }

  lemma RoundTripKong(e: ScoreElement)
    requires KindOf(e) == Some(KONG)
    ensures TileTypeFor(e).Some?
    ensures ElementWith(KONG, TileTypeFor(e).value, IsConcealedElement(e), IsMajorSuitElement(e), RoleOf(e)) == e
  {
    match e
    case KongExposedMinorSuitScore =>
    case KongExposedMajorSuitScore =>
    case KongConcealedMinorSuitScore =>
    case KongConcealedMajorSuitScore =>
    case KongExposedPrevailingOwnWindScore =>
    case KongExposedOwnWindScore =>
    case KongExposedPrevailingWindScore =>
    case KongExposedWindScore =>
    case KongConcealedPrevailingOwnWindScore =>
    case KongConcealedOwnWindScore =>
    case KongConcealedPrevailingWindScore =>
    case KongConcealedWindScore =>
    case KongExposedDragonScore =>
    case KongConcealedDragonScore =>
    case _ => assert false;
  }
}
