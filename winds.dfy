/**
 * The four seat winds in their declaration order EAST, SOUTH, WEST, NORTH,
 * and the rotation `next` that steps to the following wind modulo four.
 */
module Winds {
  datatype Wind = EAST | SOUTH | WEST | NORTH

  /** The enum ordinal: the position of the wind in declaration order. */
  function Ordinal(w: Wind): (r: nat)
    ensures r < 4
    ensures r == 0 <==> w == EAST
  {
    match w
    case EAST => 0
    case SOUTH => 1
    case WEST => 2
    case NORTH => 3
  }

  /** `Wind.values()[i]`. */
  function FromOrdinal(i: nat): (w: Wind)
    requires i < 4
    ensures Ordinal(w) == i
  {
    if i == 0 then EAST else if i == 1 then SOUTH else if i == 2 then WEST else NORTH
  }

  /** `next()`: the wind whose ordinal is one more, wrapping from NORTH to EAST. */
  function Next(w: Wind): (r: Wind)
    ensures Ordinal(r) == (Ordinal(w) + 1) % 4
    ensures r != w
  {
    FromOrdinal((Ordinal(w) + 1) % 4)
  }

  /** `next` applied `k` times. */
  function Advance(w: Wind, k: nat): Wind
  {
    if k == 0 then w else Next(Advance(w, k - 1))
  }

  /** The rotation is EAST -> SOUTH -> WEST -> NORTH -> EAST. */
  lemma NextCycle()
    ensures Next(EAST) == SOUTH && Next(SOUTH) == WEST
    ensures Next(WEST) == NORTH && Next(NORTH) == EAST
  {
  }

  /** `next` is injective, hence a permutation of the four winds. */
  lemma NextInjective(a: Wind, b: Wind)
    ensures Next(a) == Next(b) <==> a == b
  {
  }

  /** `next` moves the ordinal on by one, from 3 back to 0. */
  lemma NextOrdinal(w: Wind)
    ensures Ordinal(Next(w)) == if Ordinal(w) == 3 then 0 else Ordinal(w) + 1
  {
    NextCycle();
  }

  /** Advancing EAST by fewer than four steps reaches the wind with that ordinal. */
  lemma {:induction false} AdvanceEastOrdinal(k: nat)
    requires k < 4
    ensures Ordinal(Advance(EAST, k)) == k
  {
    if k > 0 {
      AdvanceEastOrdinal(k - 1);
      NextOrdinal(Advance(EAST, k - 1));
    }
  }

  /** Two winds with the same ordinal are the same wind. */
  lemma OrdinalInjective(a: Wind, b: Wind)
    ensures Ordinal(a) == Ordinal(b) <==> a == b
  {
  }

  /** Four steps of `next` are the identity. */
  lemma NextFourTimes(w: Wind)
    ensures Advance(w, 4) == w
  {
    assert Advance(w, 4) == Next(Next(Next(Next(w))));
    NextCycle();
  }

  /** Advancing EAST by fewer than four steps visits four different winds. */
  lemma AdvanceEastInjective(i: nat, j: nat)
    requires i < 4 && j < 4
    ensures Advance(EAST, i) == Advance(EAST, j) <==> i == j
  {
    AdvanceEastOrdinal(i);
    AdvanceEastOrdinal(j);
  }
}
