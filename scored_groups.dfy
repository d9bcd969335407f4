/**
 * A scored group: a group together with the score list its scheme assigns
 * it, chosen from the group's type, tile type, visibility, the holder's own
 * wind and the prevailing wind.
 */
module ScoredGroups {
  import opened Wrappers
  import opened Winds
  import opened Tiles
  import opened Groups
  import opened ScoreElements
  import opened Contributions
  import opened Schemes

  /** `scorePair`: suit, then for a wind own wind before prevailing wind, then dragon. */
  function PairElement(g: Group, own: Wind, prevailing: Wind): ScoreElement
    requires Groups.Valid(g)
  {
    match FirstTile(g)
    case SuitTile(_, _) => PairSuitScore
    case WindTile(w) =>
      if w == own then PairOwnWindScore
      else if w == prevailing then PairPrevailingWindScore
      else PairWindScore
    case DragonTile(_) => PairDragonScore
  }

  /** `scoreChow`: only a suited chow has an element; any other gives the empty list. */
  function ChowElement(g: Group): Option<ScoreElement>
    requires Groups.Valid(g)
  {
    if TileTypeOf(g) == SUIT then Some(ChowSuitScore) else None
  }

  /** `scorePung`: major/minor suit, wind by role, or dragon, each concealed or exposed. */
  function PungElement(g: Group, own: Wind, prevailing: Wind): ScoreElement
    requires Groups.Valid(g)
  {
    var concealed := IsConcealed(g);
    match FirstTile(g)
    case SuitTile(_, _) =>
      if IsMajor(FirstTile(g)) then
        (if concealed then PungConcealedMajorSuitScore else PungExposedMajorSuitScore)
      else
        (if concealed then PungConcealedMinorSuitScore else PungExposedMinorSuitScore)
    case WindTile(w) =>
      if w == own && w == prevailing then
        (if concealed then PungConcealedPrevailingOwnWindScore else PungExposedPrevailingOwnWindScore)
      else if w == own then
        (if concealed then PungConcealedOwnWindScore else PungExposedOwnWindScore)
      else if w == prevailing then
        (if concealed then PungConcealedPrevailingWindScore else PungExposedPrevailingWindScore)
      else
        (if concealed then PungConcealedWindScore else PungExposedWindScore)
    case DragonTile(_) =>
      if concealed then PungConcealedDragonScore else PungExposedDragonScore
  }

  /** `scoreKong`: the same choices as a pung, among the Kong elements. */
  function KongElement(g: Group, own: Wind, prevailing: Wind): ScoreElement
    requires Groups.Valid(g)
  {
    var concealed := IsConcealed(g);
    match FirstTile(g)
    case SuitTile(_, _) =>
      if IsMajor(FirstTile(g)) then
        (if concealed then KongConcealedMajorSuitScore else KongExposedMajorSuitScore)
      else
        (if concealed then KongConcealedMinorSuitScore else KongExposedMinorSuitScore)
    case WindTile(w) =>
      if w == own && w == prevailing then
        (if concealed then KongConcealedPrevailingOwnWindScore else KongExposedPrevailingOwnWindScore)
      else if w == own then
        (if concealed then KongConcealedOwnWindScore else KongExposedOwnWindScore)
      else if w == prevailing then
        (if concealed then KongConcealedPrevailingWindScore else KongExposedPrevailingWindScore)
      else
        (if concealed then KongConcealedWindScore else KongExposedWindScore)
    case DragonTile(_) =>
      if concealed then KongConcealedDragonScore else KongExposedDragonScore
  }

  /** The constructor's dispatch on the group type. */
  function ElementFor(g: Group, own: Wind, prevailing: Wind): Option<ScoreElement>
    requires Groups.Valid(g)
  {
    match g.kind
    case PAIR => Some(PairElement(g, own, prevailing))
    case CHOW => ChowElement(g)
    case PUNG => Some(PungElement(g, own, prevailing))
    case KONG => Some(KongElement(g, own, prevailing))
  }

  /**
   * The wind role the element of a group must have: a wind pair is for the
   * own wind if the tile is the own wind, else for the prevailing wind if it
   * is that; a wind pung or kong distinguishes all four combinations.
   */
  function ExpectedRole(g: Group, own: Wind, prevailing: Wind): WindRole
    requires Groups.Valid(g)
  {
    match FirstTile(g)
    case WindTile(w) =>
      if g.kind == PAIR then
        (if w == own then OwnRole else if w == prevailing then PrevailingRole else NoRole)
      else if g.kind == CHOW then NoRole
      else if w == own && w == prevailing then PrevailingOwnRole
      else if w == own then OwnRole
      else if w == prevailing then PrevailingRole
      else NoRole
    case _ => NoRole
  }

  /** The description an element must have to be the one chosen for a group. */
  ghost predicate Describes(e: ScoreElement, g: Group, own: Wind, prevailing: Wind)
    requires Groups.Valid(g)
  {
    && KindOf(e) == Some(g.kind)
    && TileTypeFor(e) == Some(TileTypeOf(g))
    && (IsConcealedElement(e) <==> (g.kind == PUNG || g.kind == KONG) && IsConcealed(g))
    && (IsMajorSuitElement(e) <==> (g.kind == PUNG || g.kind == KONG) && TileTypeOf(g) == SUIT && IsMajor(FirstTile(g)))
    && RoleOf(e) == ExpectedRole(g, own, prevailing)
  }

  lemma PairDescribes(g: Group, own: Wind, prevailing: Wind)
    requires Groups.Valid(g) && g.kind == PAIR
    ensures ElementFor(g, own, prevailing) == Some(PairElement(g, own, prevailing))
    ensures Describes(PairElement(g, own, prevailing), g, own, prevailing)
    ensures !IsMultiplier(PairElement(g, own, prevailing))
  {
  }

  lemma ChowDescribes(g: Group, own: Wind, prevailing: Wind)
    requires Groups.Valid(g) && g.kind == CHOW
    ensures ElementFor(g, own, prevailing) == Some(ChowSuitScore)
    ensures Describes(ChowSuitScore, g, own, prevailing)
    ensures !IsMultiplier(ChowSuitScore)
  {
  }

  lemma PungDescribes(g: Group, own: Wind, prevailing: Wind)
    requires Groups.Valid(g) && g.kind == PUNG
    ensures ElementFor(g, own, prevailing) == Some(PungElement(g, own, prevailing))
    ensures Describes(PungElement(g, own, prevailing), g, own, prevailing)
    ensures !IsMultiplier(PungElement(g, own, prevailing))
  {
  }

  lemma KongDescribes(g: Group, own: Wind, prevailing: Wind)
    requires Groups.Valid(g) && g.kind == KONG
    ensures ElementFor(g, own, prevailing) == Some(KongElement(g, own, prevailing))
    ensures Describes(KongElement(g, own, prevailing), g, own, prevailing)
    ensures !IsMultiplier(KongElement(g, own, prevailing))
  {
  }

  /**
   * The element chosen for a group is for that group type and tile type; for
   * a pung or kong it is concealed exactly when the group is and major exactly
   * when a suited first tile is; its wind role follows the own and prevailing
   * winds. With `DescriptionDeterminesElement` this fixes the element.
   */
  lemma ElementDescribesGroup(g: Group, own: Wind, prevailing: Wind)
    requires Groups.Valid(g)
    ensures ElementFor(g, own, prevailing).Some?
    ensures Describes(ElementFor(g, own, prevailing).value, g, own, prevailing)
    ensures !IsMultiplier(ElementFor(g, own, prevailing).value)
  {
    match g.kind
    case PAIR => PairDescribes(g, own, prevailing);
    case CHOW => ChowDescribes(g, own, prevailing);
    case PUNG => PungDescribes(g, own, prevailing);
    case KONG => KongDescribes(g, own, prevailing);
  }

  /** Any element with that description is the one the constructor picks. */
  lemma ElementUnique(g: Group, own: Wind, prevailing: Wind, e: ScoreElement)
    requires Groups.Valid(g)
    requires Describes(e, g, own, prevailing)
    ensures ElementFor(g, own, prevailing) == Some(e)
  {
    ElementDescribesGroup(g, own, prevailing);
    DescriptionDeterminesElement(ElementFor(g, own, prevailing).value, e);
  }

  /** The score list of a group: its element's table entry. */
  function GroupScore(s: Scheme, g: Group, own: Wind, prevailing: Wind): (r: seq<Contribution>)
    requires WellFormed(s) && Groups.Valid(g)
    ensures ScoreLists.AllValid(r)
  {
    ElementDescribesGroup(g, own, prevailing);
    s.contributions[ElementFor(g, own, prevailing).value]
  }

  /**
   * Toggling visibility changes the element of a pung or kong to its
   * concealed/exposed counterpart and nothing else of its description; a
   * pair's or chow's element is unchanged.
   */
  lemma ToggleChangesOnlyConcealment(g: Group, own: Wind, prevailing: Wind)
    requires Groups.Valid(g)
    ensures var e := ElementFor(g, own, prevailing).value;
      var t := ElementFor(ToggleVisibility(g), own, prevailing).value;
      && KindOf(t) == KindOf(e) && TileTypeFor(t) == TileTypeFor(e)
      && IsMajorSuitElement(t) == IsMajorSuitElement(e) && RoleOf(t) == RoleOf(e)
      && ((g.kind == PUNG || g.kind == KONG) ==> IsConcealedElement(t) != IsConcealedElement(e))
      && ((g.kind == PAIR || g.kind == CHOW) ==> t == e)
  {
    ElementDescribesGroup(g, own, prevailing);
    ElementDescribesGroup(ToggleVisibility(g), own, prevailing);
  }

  /**
   * An immutable scored group. The scheme and winds are kept so that a
   * toggled copy can be rescored.
   */
  class ScoredGroup {
    const group: Group
    const scheme: Scheme
    const ownWind: Wind
    const prevailingWind: Wind
    const score: seq<Contribution>

    ghost predicate Valid()
    {
      Groups.Valid(group) && WellFormed(scheme)
      && score == GroupScore(scheme, group, ownWind, prevailingWind)
    }

    constructor (g: Group, s: Scheme, own: Wind, prevailing: Wind)
      requires Groups.Valid(g) && WellFormed(s)
      ensures Valid()
      ensures group == g && scheme == s && ownWind == own && prevailingWind == prevailing
      ensures score == GroupScore(s, g, own, prevailing)
    {
      group := g;
      scheme := s;
      ownWind := own;
      prevailingWind := prevailing;
      score := GroupScore(s, g, own, prevailing);
    }

    /** A new scored group with the other visibility, the same scheme and winds, rescored. */
    method ToggleVisibility() returns (r: ScoredGroup)
      requires Valid()
      ensures fresh(r) && r.Valid()
      ensures r.group == Groups.ToggleVisibility(group)
      ensures r.scheme == scheme && r.ownWind == ownWind && r.prevailingWind == prevailingWind
    {
      r := new ScoredGroup(Groups.ToggleVisibility(group), scheme, ownWind, prevailingWind);
    }
  }
}
