/**
 * Groups of tiles: a pair, chow (run of three), pung (three of a kind) or
 * kong (four of a kind), built from one anchor tile. A group is immutable once
 * built; its tile list is filled by the constructor.
 */
module Groups {
  import opened Wrappers
  import opened Tiles

  datatype GroupType = PAIR | CHOW | PUNG | KONG

  /** The number of tiles a group of this type holds. */
  function Size(k: GroupType): nat
  {
    match k
    case PAIR => 2
    case CHOW => 3
    case PUNG => 3
    case KONG => 4
  }

  /** How many tiles the group counts for toward the hand size. */
  function HandSize(k: GroupType): nat
  {
    match k
    case PAIR => 2
    case CHOW => 3
    case PUNG => 3
    case KONG => 3
  }

  /** Every type counts for its tile count except a kong, whose fourth tile is a bonus. */
  lemma HandSizeOfTypes(k: GroupType)
    ensures HandSize(k) == (if k == KONG then Size(k) - 1 else Size(k))
    ensures Size(PAIR) == 2 && Size(CHOW) == 3 && Size(PUNG) == 3 && Size(KONG) == 4
  {
  }

  datatype Visibility = EXPOSED | CONCEALED

  datatype Group = Group(kind: GroupType, visibility: Visibility, tiles: seq<Tile>)

  /** Three suited tiles of one suit with consecutive numbers. */
  predicate IsRun(ts: seq<Tile>)
  {
    |ts| == 3
    && ts[0].SuitTile? && ts[1].SuitTile? && ts[2].SuitTile?
    && ts[1].suit == ts[0].suit && ts[2].suit == ts[0].suit
    && NumberOrdinal(ts[1].number) == NumberOrdinal(ts[0].number) + 1
    && NumberOrdinal(ts[2].number) == NumberOrdinal(ts[0].number) + 2
  }

  /** The shape every constructed group has. */
  predicate Valid(g: Group)
  {
    |g.tiles| == Size(g.kind)
    && (g.kind == CHOW ==> IsRun(g.tiles))
    && (g.kind != CHOW ==> forall i | 0 <= i < |g.tiles| :: g.tiles[i] == g.tiles[0])
  }

  /** `isConcealed()`. */
  predicate IsConcealed(g: Group)
  {
    g.visibility == CONCEALED
  }

  /** `getFirstTile()`: tile 0. */
  function FirstTile(g: Group): (t: Tile)
    requires Valid(g)
    ensures t == g.tiles[0]
  {
    g.tiles[0]
  }

  /** `getTileType()`: the type of tile 0. */
  function TileTypeOf(g: Group): TileType
    requires Valid(g)
  {
    TypeOf(g.tiles[0])
  }

  /** `n` copies of one tile. */
  function Identical(t: Tile, n: nat): (r: seq<Tile>)
    ensures |r| == n
    ensures forall i | 0 <= i < n :: r[i] == t
  {
    seq(n, _ => t)
  }

  /**
   * `addIdenticalTiles`: appends `size` copies of `tile` by counting `size`
   * down to zero; a size of zero or less appends nothing.
   */
  method AddIdenticalTiles(tiles: seq<Tile>, tile: Tile, size: int) returns (r: seq<Tile>)
    ensures size <= 0 ==> r == tiles
    ensures size > 0 ==> |r| == |tiles| + size
    ensures r[..|tiles|] == tiles
    ensures forall i | |tiles| <= i < |r| :: r[i] == tile
  {
    r := tiles;
    var remaining := size;
    while remaining > 0
      invariant remaining <= size
      invariant size > 0 ==> remaining >= 0
      invariant |r| == |tiles| + (if size > 0 then size - remaining else 0)
      invariant remaining <= 0 ==> (size <= 0 ==> r == tiles)
      invariant r[..|tiles|] == tiles
      invariant forall i | |tiles| <= i < |r| :: r[i] == tile
    {
      r := r + [tile];
      remaining := remaining - 1;
    }
  }

  /**
   * The first tile of a chow: an anchor of eight or nine is moved down to seven
   * so that the run stays inside one to nine.
   */
  function ChowAnchor(t: Tile): (a: Tile)
    requires t.SuitTile?
    ensures a.SuitTile? && a.suit == t.suit
    ensures NumberOrdinal(a.number) <= 6
    ensures NumberOrdinal(t.number) <= 6 ==> a == t
    ensures NumberOrdinal(t.number) > 6 ==> a.number == SEVEN
  {
    if t.number == EIGHT || t.number == NINE then SuitTile(t.suit, SEVEN) else t
  }

  /** `addChowTiles`: the anchor and the two tiles that follow it in its suit. */
  function ChowTiles(t: Tile): (ts: seq<Tile>)
    requires t.SuitTile?
    ensures IsRun(ts)
    ensures ts[0] == ChowAnchor(t)
  {
    var a := ChowAnchor(t);
    var b := CreateNextNumber(a);
    [a, b, CreateNextNumber(b)]
  }

  /**
   * The three-argument constructor. A pair or chow is forced to EXPOSED; a pung
   * or kong keeps the requested visibility. A chow needs a suited anchor: the
   * source dereferences the missing number of an honour tile.
   */
  function NewGroup(kind: GroupType, tile: Tile, vis: Visibility): (g: Group)
    requires kind == CHOW ==> tile.SuitTile?
    ensures Valid(g) && g.kind == kind
    ensures kind == PAIR || kind == CHOW ==> g.visibility == EXPOSED
    ensures kind == PUNG || kind == KONG ==> g.visibility == vis
    ensures kind != CHOW ==> g.tiles == Identical(tile, Size(kind))
    ensures kind == CHOW ==> g.tiles[0] == ChowAnchor(tile)
  {
    match kind
    case PAIR => Group(kind, EXPOSED, Identical(tile, Size(kind)))
    case CHOW => Group(kind, EXPOSED, ChowTiles(tile))
    case _ => Group(kind, vis, Identical(tile, Size(kind)))
  }

  /** The failures of the two-argument constructor: a chow of an honour tile has no number to run from. */
  datatype ModelError = VisibilityRequired | NoChowNumber

  /**
   * The two-argument constructor: builds an EXPOSED group, then rejects any
   * type other than pair or chow. An honour chow fails while it is being
   * built, before the type is checked.
   */
  function NewGroupDefault(kind: GroupType, tile: Tile): (r: Result<Group, ModelError>)
    ensures r.Failure? && r.error == NoChowNumber <==> kind == CHOW && !tile.SuitTile?
    ensures r.Failure? && r.error == VisibilityRequired <==> kind == PUNG || kind == KONG
    ensures r.Success? <==> kind == PAIR || (kind == CHOW && tile.SuitTile?)
    ensures r.Success? ==> r.value == NewGroup(kind, tile, EXPOSED) && r.value.visibility == EXPOSED
  {
    match kind
    case PAIR => Success(NewGroup(kind, tile, EXPOSED))
    case CHOW => if tile.SuitTile? then Success(NewGroup(kind, tile, EXPOSED)) else Failure(NoChowNumber)
    case _ => Failure(VisibilityRequired)
  }

  /** A copy of the group with the other visibility; type and tiles are shared. */
  function ToggleVisibility(g: Group): (r: Group)
    ensures r.kind == g.kind && r.tiles == g.tiles
    ensures IsConcealed(r) <==> !IsConcealed(g)
    ensures Valid(g) ==> Valid(r)
  {
    g.(visibility := if g.visibility == EXPOSED then CONCEALED else EXPOSED)
  }

  lemma ToggleTwice(g: Group)
    ensures ToggleVisibility(ToggleVisibility(g)) == g
  {
  }

  /** The stored form of a group: its type, its visibility and its first tile only. */
  datatype GroupRecord = GroupRecord(kind: GroupType, visibility: Visibility, firstTile: TileRecord)

  datatype GroupLoadError = BadTile(e: LoadError) | HonourChow

  function Encode(g: Group): GroupRecord
    requires Valid(g)
  {
    GroupRecord(g.kind, g.visibility, Tiles.Encode(FirstTile(g)))
  }

  /** `fromJson()`: decodes the first tile and goes back through the constructor. */
  function Decode(r: GroupRecord): (res: Result<Group, GroupLoadError>)
    ensures res.Success? ==> Valid(res.value) && res.value.kind == r.kind
  {
    match Tiles.Decode(r.firstTile)
    case Failure(e) => Failure(BadTile(e))
    case Success(t) =>
      if r.kind == CHOW && !t.SuitTile? then Failure(HonourChow)
      else Success(NewGroup(r.kind, t, r.visibility))
  }

  /** A constructed group survives encoding and decoding unchanged. */
  lemma DecodeEncodeNew(kind: GroupType, tile: Tile, vis: Visibility)
    requires kind == CHOW ==> tile.SuitTile?
    ensures Decode(Encode(NewGroup(kind, tile, vis))) == Success(NewGroup(kind, tile, vis))
  {
    var g := NewGroup(kind, tile, vis);
    DecodeEncode(FirstTile(g));
    if kind == CHOW {
      assert ChowAnchor(ChowAnchor(tile)) == ChowAnchor(tile);
      assert ChowTiles(ChowAnchor(tile)) == ChowTiles(tile);
    }
  }

  /** A chow anchored at eight or nine is stored with seven as its first tile. */
  lemma ChowStoredFromSeven(s: Suit, n: Number)
    requires n == EIGHT || n == NINE
    ensures Encode(NewGroup(CHOW, SuitTile(s, n), EXPOSED)).firstTile == Tiles.Encode(SuitTile(s, SEVEN))
  {
  }

  /** A pair toggled to CONCEALED comes back EXPOSED from its stored form. */
  lemma ConcealedPairDecodesExposed(t: Tile)
    ensures Decode(Encode(ToggleVisibility(NewGroup(PAIR, t, EXPOSED)))) == Success(NewGroup(PAIR, t, EXPOSED))
    ensures ToggleVisibility(NewGroup(PAIR, t, EXPOSED)).visibility == CONCEALED
  {
    DecodeEncode(t);
  }
}
