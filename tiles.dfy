/**
 * Tiles: a suited tile (suit and number one to nine), a wind tile or a dragon
 * tile. The source keeps five nullable fields of which a constructor fills
 * exactly the ones matching the tile's type; here each kind is a constructor
 * of the datatype and the getters return `None` where the source holds null.
 */
module Tiles {
  import opened Wrappers
  import opened Winds

  // The declaration order of these enumerations is the hand's display order.
  datatype Suit = CIRCLES | CHARACTERS | BAMBOO
  datatype Number = ONE | TWO | THREE | FOUR | FIVE | SIX | SEVEN | EIGHT | NINE
  datatype Dragon = RED | WHITE | GREEN
  datatype TileType = DRAGON | WIND | SUIT

  function SuitOrdinal(s: Suit): (r: nat)
    ensures r < 3
  {
    match s
    case CIRCLES => 0
    case CHARACTERS => 1
    case BAMBOO => 2
  }

  function DragonOrdinal(d: Dragon): (r: nat)
    ensures r < 3
  {
    match d
    case RED => 0
    case WHITE => 1
    case GREEN => 2
  }

  function TypeOrdinal(t: TileType): (r: nat)
    ensures r < 3
  {
    match t
    case DRAGON => 0
    case WIND => 1
    case SUIT => 2
  }

  /** The ordinal of a number, which is its face value minus one. */
  function NumberOrdinal(n: Number): (r: nat)
    ensures r < 9
  {
    match n
    case ONE => 0
    case TWO => 1
    case THREE => 2
    case FOUR => 3
    case FIVE => 4
    case SIX => 5
    case SEVEN => 6
    case EIGHT => 7
    case NINE => 8
  }

  /** `Number.values()[i]`. */
  function NumberAt(i: nat): (n: Number)
    requires i < 9
    ensures NumberOrdinal(n) == i
  {
    [ONE, TWO, THREE, FOUR, FIVE, SIX, SEVEN, EIGHT, NINE][i]
  }

  lemma NumberOrdinalInjective(a: Number, b: Number)
    ensures NumberOrdinal(a) == NumberOrdinal(b) <==> a == b
  {
  }

  /**
   * `Number.next`: the number whose ordinal is one more. The source indexes
   * `values()[ordinal + 1]`, which is out of bounds for NINE.
   */
  function NextNumber(n: Number): (r: Number)
    requires n != NINE
    ensures NumberOrdinal(r) == NumberOrdinal(n) + 1
  {
    NumberAt(NumberOrdinal(n) + 1)
  }

  datatype Tile =
    | SuitTile(suit: Suit, number: Number)
    | WindTile(wind: Wind)
    | DragonTile(dragon: Dragon)

  /** `getType()`. */
  function TypeOf(t: Tile): TileType
  {
    match t
    case SuitTile(_, _) => SUIT
    case WindTile(_) => WIND
    case DragonTile(_) => DRAGON
  }

  /** `getSuit()`: null for a wind or dragon tile. */
  function GetSuit(t: Tile): Option<Suit>
  {
    if t.SuitTile? then Some(t.suit) else None
  }

  /** `getNumber()`: null for a wind or dragon tile. */
  function GetNumber(t: Tile): Option<Number>
  {
    if t.SuitTile? then Some(t.number) else None
  }

  /** `getWind()`: null unless a wind tile. */
  function GetWind(t: Tile): Option<Wind>
  {
    if t.WindTile? then Some(t.wind) else None
  }

  /** `getDragon()`: null unless a dragon tile. */
  function GetDragon(t: Tile): Option<Dragon>
  {
    if t.DragonTile? then Some(t.dragon) else None
  }

  /** The suited-tile constructor: sets suit, number and type SUIT, leaves the rest null. */
  function NewSuitTile(s: Suit, n: Number): (t: Tile)
    ensures TypeOf(t) == SUIT
    ensures GetSuit(t) == Some(s) && GetNumber(t) == Some(n)
    ensures GetWind(t) == None && GetDragon(t) == None
  {
    SuitTile(s, n)
  }

  /** The wind-tile constructor: sets wind and type WIND, leaves the rest null. */
  function NewWindTile(w: Wind): (t: Tile)
    ensures TypeOf(t) == WIND
    ensures GetWind(t) == Some(w)
    ensures GetSuit(t) == None && GetNumber(t) == None && GetDragon(t) == None
  {
    WindTile(w)
  }

  /** The dragon-tile constructor: sets dragon and type DRAGON, leaves the rest null. */
  function NewDragonTile(d: Dragon): (t: Tile)
    ensures TypeOf(t) == DRAGON
    ensures GetDragon(t) == Some(d)
    ensures GetSuit(t) == None && GetNumber(t) == None && GetWind(t) == None
  {
    DragonTile(d)
  }

  /** `isMajor()`: honours (winds and dragons) and the terminals one and nine. */
  function IsMajor(t: Tile): (r: bool)
    ensures TypeOf(t) != SUIT ==> r
    ensures TypeOf(t) == SUIT ==> (r <==> GetNumber(t) == Some(ONE) || GetNumber(t) == Some(NINE))
  {
    match t
    case SuitTile(_, n) => n == ONE || n == NINE
    case _ => true
  }

  /**
   * `createNextNumber()`: the tile of the same suit with the next number.
   * Only a suited tile up to EIGHT has one.
   */
  function CreateNextNumber(t: Tile): (r: Tile)
    requires t.SuitTile? && t.number != NINE
    ensures TypeOf(r) == SUIT && GetSuit(r) == GetSuit(t)
    ensures NumberOrdinal(r.number) == NumberOrdinal(t.number) + 1
  {
    SuitTile(t.suit, NextNumber(t.number))
  }

  /** `equals`: type, dragon, wind, suit and number all agree. */
  predicate Equals(a: Tile, b: Tile)
  {
    TypeOf(a) == TypeOf(b) && GetDragon(a) == GetDragon(b) && GetWind(a) == GetWind(b)
    && GetSuit(a) == GetSuit(b) && GetNumber(a) == GetNumber(b)
  }

  /** Field-wise equality coincides with value identity; tiles of different types never match. */
  lemma EqualsIsIdentity(a: Tile, b: Tile)
    ensures Equals(a, b) <==> a == b
    ensures TypeOf(a) != TypeOf(b) ==> !Equals(a, b)
  {
  }

  /**
   * The stored form of a tile: which of the keys "dragon", "wind", "suit" and
   * "number" are present, with their enum values.
   */
  datatype TileRecord = TileRecord(dragon: Option<Dragon>, wind: Option<Wind>, suit: Option<Suit>, number: Option<Number>)

  datatype LoadError = InvalidTileRecord | MissingNumber

  /** `toJson()`: one key for an honour, suit and number for a suited tile. */
  function Encode(t: Tile): TileRecord
  {
    match t
    case DragonTile(d) => TileRecord(Some(d), None, None, None)
    case WindTile(w) => TileRecord(None, Some(w), None, None)
    case SuitTile(s, n) => TileRecord(None, None, Some(s), Some(n))
  }

  /**
   * `fromJson()`: the keys are tried in the order dragon, wind, suit; a record
   * with none of them is rejected, and a suit without a number fails when the
   * source reads the missing number.
   */
  function Decode(r: TileRecord): (res: Result<Tile, LoadError>)
    ensures res.Success? <==> r.dragon.Some? || r.wind.Some? || (r.suit.Some? && r.number.Some?)
    ensures r.dragon.Some? ==> res == Success(DragonTile(r.dragon.value))
  {
    if r.dragon.Some? then Success(DragonTile(r.dragon.value))
    else if r.wind.Some? then Success(WindTile(r.wind.value))
    else if r.suit.Some? then
      if r.number.Some? then Success(SuitTile(r.suit.value, r.number.value)) else Failure(MissingNumber)
    else Failure(InvalidTileRecord)
  }

  /** Decoding an encoded tile gives back an equal tile. */
  lemma DecodeEncode(t: Tile)
    ensures Decode(Encode(t)) == Success(t)
  {
  }
}
