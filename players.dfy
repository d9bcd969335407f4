/**
 * Players: a player is identified by its id alone; its name can change. The
 * registry holds the players loaded so far, at most one per id, so that every
 * load of the same id yields the same object.
 */
module Players {
  import opened Wrappers

  /** A player's unique id; the random generation of new ids is not modelled. */
  datatype PlayerId = PlayerId(value: string)

  class Player {
    const id: PlayerId
    var name: string

    /** `create`: a new player with the given id. The registry is not touched. */
    constructor (name: string, id: PlayerId)
      ensures this.name == name && this.id == id
    {
      this.name := name;
      this.id := id;
    }

    /**
     * `setName`: only the name changes. The id is a constant, so equality and
     * the hash, which depend on nothing else, stay as they were.
     */
    method SetName(name: string)
      modifies this
      ensures this.name == name
    {
      this.name := name;
    }
  }

  /**
   * `equals`: two players are the same player exactly when their ids match.
   * It reads no mutable field, so renaming never changes it.
   */
  predicate Same(a: Player, b: Player)
  {
    a.id == b.id
  }

  /** `hashCode`: a function of the id alone. */
  function Hash(p: Player): PlayerId
  {
    p.id
  }

  /** Equal players hash alike, and players with different ids are never equal. */
  lemma HashAgreesWithSame(a: Player, b: Player)
    ensures Same(a, b) ==> Hash(a) == Hash(b)
    ensures a.id != b.id ==> !Same(a, b)
  {
  }

  /** The position of the player with id `id` in `ps`, or -1 if there is none. */
  function IndexOfId(ps: seq<Player>, id: PlayerId): (r: int)
    ensures -1 <= r < |ps|
    ensures r == -1 <==> forall i | 0 <= i < |ps| :: ps[i].id != id
    ensures r >= 0 ==> ps[r].id == id && forall i | 0 <= i < r :: ps[i].id != id
  {
    if ps == [] then -1
    else if ps[0].id == id then 0
    else
      var k := IndexOfId(ps[1..], id);
      assert forall i | 1 <= i < |ps| :: ps[1..][i - 1] == ps[i];
      if k < 0 then -1 else k + 1
  }

  /** No two players in `ps` share an id. */
  ghost predicate UniqueIds(ps: seq<Player>)
  {
    forall i, j | 0 <= i < j < |ps| :: ps[i].id != ps[j].id
  }

  /** With unique ids, every player is found at its own position. */
  lemma {:induction false} FindsOwnPosition(ps: seq<Player>, k: nat)
    requires UniqueIds(ps) && k < |ps|
    ensures IndexOfId(ps, ps[k].id) == k
  {
  }

  /** Adding a player under a fresh id keeps ids unique and makes it findable. */
  lemma AddUnseen(ps: seq<Player>, p: Player)
    requires UniqueIds(ps) && IndexOfId(ps, p.id) == -1
    ensures UniqueIds(ps + [p])
    ensures IndexOfId(ps + [p], p.id) == |ps|
  {
    FindsOwnPosition(ps + [p], |ps|);
  }

  /** `Cannot find player with id`. */
  datatype RegistryError = PlayerNotFound

  /** The set of all players created from stored records so far. */
  class Registry {
    var players: seq<Player>

    ghost predicate Valid()
      reads this
    {
      UniqueIds(players)
    }

    constructor ()
      ensures Valid() && players == []
    {
      players := [];
    }

    /**
     * `fromJson` on a decoded (id, name) record: the registered player with
     * that id if there is one, and otherwise a new player, which is registered.
     */
    method FromRecord(id: PlayerId, name: string) returns (p: Player)
      requires Valid()
      modifies this
      ensures Valid()
      ensures p.id == id && p in players
      ensures IndexOfId(old(players), id) >= 0 ==>
        p == old(players)[IndexOfId(old(players), id)] && players == old(players)
      ensures IndexOfId(old(players), id) == -1 ==>
        fresh(p) && p.name == name && players == old(players) + [p]
    {
      var candidate := new Player(name, id);
      for i := 0 to |players|
        invariant forall j | 0 <= j < i :: players[j].id != id
      {
        if Same(players[i], candidate) {
          return players[i];
        }
      }
      AddUnseen(players, candidate);
      players := players + [candidate];
      p := candidate;
    }

    /** `get`: the registered player with id `id`, or an error if there is none. */
    method Get(id: PlayerId) returns (r: Result<Player, RegistryError>)
      ensures r.Success? <==> IndexOfId(players, id) >= 0
      ensures r.Success? ==> r.value == players[IndexOfId(players, id)] && r.value.id == id
      ensures r.Failure? ==> r.error == PlayerNotFound
    {
      for i := 0 to |players|
        invariant forall j | 0 <= j < i :: players[j].id != id
      {
        if players[i].id == id {
          return Success(players[i]);
        }
      }
      r := Failure(PlayerNotFound);
    }
  }

  /** Loading a record and then looking its id up yields the loaded player. */
  lemma LoadThenGet(ps: seq<Player>, p: Player)
    requires UniqueIds(ps) && p in ps
    ensures IndexOfId(ps, p.id) >= 0 && ps[IndexOfId(ps, p.id)] == p
  {
    var k :| 0 <= k < |ps| && ps[k] == p;
    FindsOwnPosition(ps, k);
  }
}
