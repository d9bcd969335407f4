/**
 * The four seats of a game, each empty or holding a player, and the walks
 * around the table that the game makes: forwards to the next dealer,
 * backwards to the last player in play order, and forwards from the dealer to
 * hand out the seat winds.
 */
module Seating {
  import opened Wrappers
  import opened Winds
  import opened Players

  type Seats = seq<Option<PlayerId>>

  /** The players in the seats, in seat order, skipping empty seats (`getPlayers`). */
  function Occupants(s: Seats): (ps: seq<PlayerId>)
    ensures |ps| <= |s|
    ensures forall q :: q in ps <==> Some(q) in s
  {
    if s == [] then []
    else
      var n := |s| - 1;
      var rest := Occupants(s[..n]);
      assert s == s[..n] + [s[n]];
      if s[n].Some? then rest + [s[n].value] else rest
  }

  /** The seated players, as a set. */
  function SeatedSet(s: Seats): (r: set<PlayerId>)
    ensures forall q :: q in r <==> Some(q) in s
  {
    set q | q in Occupants(s)
  }

  /** The seated players of one more seat. */
  lemma {:induction false} SeatedSnoc(s: Seats, x: Option<PlayerId>)
    ensures SeatedSet(s + [x]) == SeatedSet(s) + if x.Some? then {x.value} else {}
  {
    forall q | q in SeatedSet(s)
      ensures q in SeatedSet(s + [x])
    {
      var j :| 0 <= j < |s| && s[j] == Some(q);
      assert (s + [x])[j] == Some(q);
    }
    assert (s + [x])[|s|] == x;
  }

  /** The players in the first `n` seats are seated. */
  lemma {:induction false} SeatedPrefix(s: Seats, n: nat)
    requires n <= |s|
    ensures SeatedSet(s[..n]) <= SeatedSet(s)
  {
    forall q | q in SeatedSet(s[..n])
      ensures q in SeatedSet(s)
    {
      var j :| 0 <= j < n && s[..n][j] == Some(q);
      assert s[j] == Some(q);
    }
  }

  /** The seated players of the first `i + 1` seats: those of the first `i`, and seat `i`'s. */
  lemma SeatedGrow(s: Seats, i: nat)
    requires i < |s|
    ensures SeatedSet(s[..i + 1]) == SeatedSet(s[..i]) + if s[i].Some? then {s[i].value} else {}
    ensures SeatedSet(s[..i + 1]) <= SeatedSet(s)
  {
    SeatedPrefix(s, i + 1);
    assert s[..i + 1] == s[..i] + [s[i]];
    SeatedSnoc(s[..i], s[i]);
  }

  /** Filling an empty seat adds its new player to the seated players. */
  lemma {:induction false} SeatedAfterFill(s: Seats, i: nat, p: PlayerId)
    requires i < |s| && s[i].None?
    ensures SeatedSet(s[i := Some(p)]) == SeatedSet(s) + {p}
  {
    var t := s[i := Some(p)];
    forall q | q in SeatedSet(t) && q != p
      ensures q in SeatedSet(s)
    {
      var j :| 0 <= j < |t| && t[j] == Some(q);
      assert s[j] == Some(q);
    }
    forall q | q in SeatedSet(s)
      ensures q in SeatedSet(t)
    {
      var j :| 0 <= j < |s| && s[j] == Some(q);
      assert t[j] == Some(q);
    }
    assert t[i] == Some(p);
  }

  /** The number of occupied seats. */
  function Occupied(s: Seats): (n: nat)
    ensures n == |Occupants(s)|
  {
    if s == [] then 0
    else Occupied(s[..|s| - 1]) + if s[|s| - 1].Some? then 1 else 0
  }

  /** `findPlayerIndex`: the first seat holding `p`, or -1 when `p` is not seated. */
  function SeatOf(s: Seats, p: PlayerId): (i: int)
    ensures -1 <= i < |s|
    ensures i == -1 <==> Some(p) !in s
    ensures i >= 0 ==> s[i] == Some(p)
  {
    if s == [] then -1
    else if s[0] == Some(p) then 0
    else
      var k := SeatOf(s[1..], p);
      assert forall j | 1 <= j < |s| :: s[1..][j - 1] == s[j];
      if k < 0 then -1 else k + 1
  }

  /** The seat found is the first one holding `p`. */
  lemma {:induction false} SeatOfFirst(s: Seats, p: PlayerId)
    ensures forall j | 0 <= j < SeatOf(s, p) :: s[j] != Some(p)
  {
    if s != [] && s[0] != Some(p) {
      SeatOfFirst(s[1..], p);
      assert forall j | 1 <= j < |s| :: s[1..][j - 1] == s[j];
    }
  }

  /** The seat `m` steps from seat `i`, going forwards or (when `back`) backwards round the table. */
  function Around(i: nat, back: bool, m: nat): (j: nat)
    requires i < 4 && m <= 4
    ensures j < 4
  {
    if back then (if m <= i then i - m else i + 4 - m)
    else if i + m < 4 then i + m else i + m - 4
  }

  /** One step on from seat `j` is one seat further round, wrapping past the last or first seat. */
  lemma {:induction false} AroundStep(i: nat, back: bool, k: nat)
    requires i < 4 && k < 4
    ensures Around(i, back, 0) == i
    ensures back ==> Around(i, true, k + 1) == if Around(i, true, k) == 0 then 3 else Around(i, true, k) - 1
    ensures !back ==> Around(i, false, k + 1) == if Around(i, false, k) == 3 then 0 else Around(i, false, k) + 1
    ensures !back ==> Around(i, false, k + 1) == (Around(i, false, k) + 1) % 4
  {
  }

  /**
   * The number of steps from seat `i`, trying `k` steps first, to the first
   * occupied seat; four, back at `i` itself, when every seat on the way is empty.
   */
  function StepsToOccupied(s: Seats, i: nat, back: bool, k: nat): (d: nat)
    requires |s| == 4 && i < 4 && 1 <= k <= 4
    ensures k <= d <= 4
    ensures d < 4 ==> s[Around(i, back, d)].Some?
    decreases 4 - k
  {
    if k == 4 || s[Around(i, back, k)].Some? then k else StepsToOccupied(s, i, back, k + 1)
  }

  /** The first occupied seat after seat `i` in the given direction, ending at `i` if there is no other. */
  function Neighbour(s: Seats, i: nat, back: bool): (j: nat)
    requires |s| == 4 && i < 4
    ensures j < 4
  {
    Around(i, back, StepsToOccupied(s, i, back, 1))
  }

  /**
   * Stepping from an occupied seat always lands on an occupied seat, every
   * seat passed over on the way is empty, and the walk stays at `i` only when
   * `i` is the one occupied seat.
   */
  lemma {:induction false} NeighbourOccupied(s: Seats, i: nat, back: bool)
    requires |s| == 4 && i < 4 && s[i].Some?
    ensures s[Neighbour(s, i, back)].Some?
    ensures forall m | 1 <= m < StepsToOccupied(s, i, back, 1) :: s[Around(i, back, m)].None?
    ensures Neighbour(s, i, back) == i ==> Occupied(s) == 1
  {
    var d := StepsToOccupied(s, i, back, 1);
    if d == 4 {
      assert Around(i, back, 4) == i;
      OnlyOneOccupied(s, i, back);
    }
  }

  lemma {:induction false} OnlyOneOccupied(s: Seats, i: nat, back: bool)
    requires |s| == 4 && i < 4 && s[i].Some?
    requires forall m | 1 <= m < 4 :: s[Around(i, back, m)].None?
    ensures Occupied(s) == 1
  {
    forall j | 0 <= j < 4 && j != i
      ensures s[j].None?
    {
      var m := if back then (i + 4 - j) % 4 else (j + 4 - i) % 4;
      assert 1 <= m < 4 && Around(i, back, m) == j;
    }
    OccupiedFour(s);
  }

  /** The count of a row of four seats, seat by seat. */
  lemma {:induction false} OccupiedFour(s: Seats)
    requires |s| == 4
    ensures Occupied(s) == (if s[0].Some? then 1 else 0) + (if s[1].Some? then 1 else 0)
      + (if s[2].Some? then 1 else 0) + (if s[3].Some? then 1 else 0)
  {
    assert s[..3][..2] == s[..2] && s[..2][..1] == s[..1] && s[..1][..0] == [];
    assert Occupied(s) == Occupied(s[..3]) + (if s[3].Some? then 1 else 0);
    assert Occupied(s[..3]) == Occupied(s[..2]) + (if s[2].Some? then 1 else 0);
    assert Occupied(s[..2]) == Occupied(s[..1]) + (if s[1].Some? then 1 else 0);
  }

  /** The seated player after `p` in play order: the next dealer when `p` passes the deal on. */
  function NextPlayer(s: Seats, p: PlayerId): (q: PlayerId)
    requires |s| == 4 && Some(p) in s
    ensures Some(q) in s
  {
    var i := Neighbour(s, SeatOf(s, p), false);
    NeighbourOccupied(s, SeatOf(s, p), false);
    s[i].value
  }

  /** `endingPlayer`: the seated player before `p`, the last to deal when `p` deals first. */
  function PreviousPlayer(s: Seats, p: PlayerId): (q: PlayerId)
    requires |s| == 4 && Some(p) in s
    ensures Some(q) in s
  {
    var i := Neighbour(s, SeatOf(s, p), true);
    NeighbourOccupied(s, SeatOf(s, p), true);
    s[i].value
  }

  /**
   * The number of seats from seat `e`, counting from `k`, to the first seat
   * holding `p`; four if there is none on the way.
   */
  function Distance(s: Seats, e: nat, p: PlayerId, k: nat): (d: nat)
    requires |s| == 4 && e < 4 && k <= 4
    ensures k <= d <= 4
    ensures d < 4 ==> s[Around(e, false, d)] == Some(p)
    decreases 4 - k
  {
    if k == 4 || s[Around(e, false, k)] == Some(p) then k else Distance(s, e, p, k + 1)
  }

  /** A seated player is found before going round the table. */
  lemma {:induction false} DistanceOfSeated(s: Seats, e: nat, p: PlayerId)
    requires |s| == 4 && e < 4 && Some(p) in s
    ensures Distance(s, e, p, 0) < 4
  {
    var i := SeatOf(s, p);
    var m := (i + 4 - e) % 4;
    assert Around(e, false, m) == i;
  }

  /**
   * `getPlayerWind`: the wind of `p` when the dealer sits at seat `e`. The
   * walk from the dealer steps the wind on at every seat, empty or not.
   */
  function PlayerWind(s: Seats, e: nat, p: PlayerId): Wind
    requires |s| == 4 && e < 4
  {
    Advance(EAST, Distance(s, e, p, 0))
  }

  /** The dealer's own wind is EAST. */
  lemma {:induction false} DealerIsEast(s: Seats, e: nat)
    requires |s| == 4 && e < 4 && s[e].Some?
    ensures PlayerWind(s, e, s[e].value) == EAST
  {
    assert Around(e, false, 0) == e;
  }

  /** Two different seated players are found at different distances from the dealer. */
  lemma DistancesDiffer(s: Seats, e: nat, p: PlayerId, q: PlayerId)
    requires |s| == 4 && e < 4 && Some(p) in s && Some(q) in s && p != q
    ensures Distance(s, e, p, 0) < 4 && Distance(s, e, q, 0) < 4
    ensures Distance(s, e, p, 0) != Distance(s, e, q, 0)
  {
    DistanceOfSeated(s, e, p);
    DistanceOfSeated(s, e, q);
  }

  /** Players in different seats never share a wind. */
  lemma WindsDiffer(s: Seats, e: nat, p: PlayerId, q: PlayerId)
    requires |s| == 4 && e < 4 && Some(p) in s && Some(q) in s && p != q
    ensures PlayerWind(s, e, p) != PlayerWind(s, e, q)
  {
    DistancesDiffer(s, e, p, q);
    AdvanceEastInjective(Distance(s, e, p, 0), Distance(s, e, q, 0));
  }

  /** A seated player's wind's ordinal is the number of seats, empty ones included, from the dealer. */
  lemma WindOrdinal(s: Seats, e: nat, p: PlayerId)
    requires |s| == 4 && e < 4 && Some(p) in s
    ensures Ordinal(PlayerWind(s, e, p)) == Distance(s, e, p, 0)
  {
    DistanceOfSeated(s, e, p);
    AdvanceEastOrdinal(Distance(s, e, p, 0));
  }

  /** With the dealer in seat 0, an empty seat 1 and a player in seat 2, that player's wind is WEST. */
  lemma EmptySeatTakesAWind(a: PlayerId, b: PlayerId)
    requires a != b
    ensures PlayerWind([Some(a), None, Some(b), None], 0, b) == WEST
  {
    var s := [Some(a), None, Some(b), None];
    assert Around(0, false, 0) == 0 && Around(0, false, 1) == 1 && Around(0, false, 2) == 2;
    assert Distance(s, 0, b, 2) == 2;
    assert Distance(s, 0, b, 0) == 2;
  }

  /** `rotateSeats`: every occupant moves one seat on, the last to the first. */
  function Rotate(s: Seats): Seats
    requires |s| == 4
  {
    [s[3], s[0], s[1], s[2]]
  }

  /** Rotating keeps the same players and the same count of occupied seats. */
  lemma {:induction false} RotateKeepsPlayers(s: Seats)
    requires |s| == 4
    ensures SeatedSet(Rotate(s)) == SeatedSet(s)
    ensures Occupied(Rotate(s)) == Occupied(s)
  {
    OccupiedFour(s);
    OccupiedFour(Rotate(s));
  }
}
