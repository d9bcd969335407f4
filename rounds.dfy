/**
 * A round: one entry per player holding the outcome of the player's hand and
 * the player's seat wind, and the score each player gains or loses.
 *
 * With exactly two hands the winner gains twice its own total less the
 * loser's, and the loser its own total less twice the winner's. With three or
 * four hands every pair of players settles: the winner collects its total
 * from each other player, and two losers settle the difference of their
 * totals; a settlement doubles when either party sits East.
 */
module Rounds {
  import opened Winds
  import opened Players
  import Hands

  /** What a round reads from a player's hand: the mahjong flag and the limited total. */
  datatype HandOutcome = HandOutcome(isMahjong: bool, total: int)

  datatype Entry = Entry(player: PlayerId, hand: HandOutcome, wind: Wind)

  /** The round's prevailing wind and its entries, as a value. */
  datatype RoundState = RoundState(prevailingWind: Wind, entries: seq<Entry>)

  /** The entries are keyed by player: no player has two. */
  ghost predicate DistinctPlayers(es: seq<Entry>)
  {
    forall i, j | 0 <= i < j < |es| :: es[i].player != es[j].player
  }

  /** `hasHandFor`. */
  predicate HasHandFor(es: seq<Entry>, p: PlayerId)
  {
    exists i | 0 <= i < |es| :: es[i].player == p
  }

  /** The position of the entry of `p`, or -1 if it has none. */
  function IndexOfPlayer(es: seq<Entry>, p: PlayerId): (r: int)
    ensures -1 <= r < |es|
    ensures r == -1 <==> !HasHandFor(es, p)
    ensures r >= 0 ==> es[r].player == p
  {
    if es == [] then -1
    else if es[0].player == p then 0
    else
      var k := IndexOfPlayer(es[1..], p);
      assert forall i | 1 <= i < |es| :: es[1..][i - 1] == es[i];
      if k < 0 then -1 else k + 1
  }

  /** The entry found is the first one of `p`. */
  lemma {:induction false} IndexOfPlayerFirst(es: seq<Entry>, p: PlayerId)
    ensures forall j | 0 <= j < IndexOfPlayer(es, p) :: es[j].player != p
  {
    if es != [] && es[0].player != p {
      IndexOfPlayerFirst(es[1..], p);
      assert forall i | 1 <= i < |es| :: es[1..][i - 1] == es[i];
    }
  }

  /** The entry of `p` (the map lookup). */
  function Lookup(es: seq<Entry>, p: PlayerId): Entry
    requires HasHandFor(es, p)
  {
    es[IndexOfPlayer(es, p)]
  }

  /** With players distinct, each entry is the one looked up for its player. */
  lemma LookupOwn(es: seq<Entry>, k: nat)
    requires DistinctPlayers(es) && k < |es|
    ensures HasHandFor(es, es[k].player) && Lookup(es, es[k].player) == es[k]
  {
  }

  /** `Map.put`: the entry of the same player is replaced in place; a new player is appended. */
  function Put(es: seq<Entry>, e: Entry): seq<Entry>
  {
    var i := IndexOfPlayer(es, e.player);
    if i < 0 then es + [e] else es[i := e]
  }

  /**
   * `addHand` keeps one entry per player: afterwards the player's entry is the
   * new one, every other player keeps its entry, and a new entry is added
   * exactly when the player had none.
   */
  lemma PutReplaces(es: seq<Entry>, e: Entry)
    requires DistinctPlayers(es)
    ensures DistinctPlayers(Put(es, e))
    ensures forall q :: HasHandFor(Put(es, e), q) <==> HasHandFor(es, q) || q == e.player
    ensures HasHandFor(Put(es, e), e.player) && Lookup(Put(es, e), e.player) == e
    ensures forall q | q != e.player && HasHandFor(es, q) :: Lookup(Put(es, e), q) == Lookup(es, q)
    ensures |Put(es, e)| == if HasHandFor(es, e.player) then |es| else |es| + 1
  {
    var r := Put(es, e);
    var i := IndexOfPlayer(es, e.player);
    forall q
      ensures HasHandFor(r, q) <==> HasHandFor(es, q) || q == e.player
    {
      if HasHandFor(es, q) {
        var j := IndexOfPlayer(es, q);
        if j == i {
          assert r[i].player == q;
        } else {
          assert r[j] == es[j];
        }
      }
      if q == e.player {
        assert r[if i < 0 then |es| else i].player == q;
      }
      if HasHandFor(r, q) {
        var j :| 0 <= j < |r| && r[j].player == q;
        if j == i || j == |es| {
          assert q == e.player;
        } else {
          assert es[j].player == q;
        }
      }
    }
    LookupOwn(r, if i < 0 then |es| else i);
    forall q | q != e.player && HasHandFor(es, q)
      ensures Lookup(r, q) == Lookup(es, q)
    {
      var j := IndexOfPlayer(es, q);
      assert r[j] == es[j];
      LookupOwn(r, j);
      LookupOwn(es, j);
    }
  }

  /** `getMahjongPlayers`: the players whose hand is mahjong, in entry order. */
  function MahjongPlayers(es: seq<Entry>): (ps: seq<PlayerId>)
    ensures |ps| <= |es|
    ensures forall p :: p in ps <==> exists i | 0 <= i < |es| :: es[i].player == p && es[i].hand.isMahjong
  {
    if es == [] then []
    else
      var n := |es| - 1;
      var rest := MahjongPlayers(es[..n]);
      assert forall i | 0 <= i < n :: es[..n][i] == es[i];
      if es[n].hand.isMahjong then rest + [es[n].player] else rest
  }

  /** At most one mahjong player means no two entries are both mahjong. */
  lemma {:induction false} AtMostOneWinner(es: seq<Entry>)
    requires |MahjongPlayers(es)| <= 1
    ensures forall i, j | 0 <= i < j < |es| :: !(es[i].hand.isMahjong && es[j].hand.isMahjong)
  {
    if es != [] {
      var n := |es| - 1;
      assert es[..n] + [es[n]] == es;
      AtMostOneWinner(es[..n]);
      if es[n].hand.isMahjong {
        assert |MahjongPlayers(es[..n])| == 0;
        forall i | 0 <= i < n
          ensures !es[i].hand.isMahjong
        {
          var x := es[..n][i];
          assert x == es[i];
          assert x.player !in MahjongPlayers(es[..n]);
        }
      }
    }
  }

  /** An amount settled between two parties, doubled when either of them sits East. */
  function EastDoubled(a: Wind, b: Wind, x: int): int
  {
    if a == EAST || b == EAST then 2 * x else x
  }

  /**
   * What `me` gains from `other` in a round of three or four hands: the
   * winner collects its own total, a loser pays the winner's total, and two
   * losers settle the difference of their totals.
   */
  function Transfer(me: Entry, other: Entry): int
  {
    EastDoubled(me.wind, other.wind,
      if me.hand.isMahjong then me.hand.total
      else if other.hand.isMahjong then -other.hand.total
      else me.hand.total - other.hand.total)
  }

  /** A settlement is a transfer: unless both hands are mahjong, one side gains what the other loses. */
  lemma TransferAntisymmetric(a: Entry, b: Entry)
    requires !(a.hand.isMahjong && b.hand.isMahjong)
    ensures Transfer(a, b) == -Transfer(b, a)
  {
  }

  /** `me`'s settlement with one other entry; nothing with itself. */
  function Settle(me: Entry, other: Entry): int
  {
    if other.player == me.player then 0 else Transfer(me, other)
  }

  /** `calculateThreeFourPlayerScore`: the sum of `me`'s settlements with all entries. */
  function Received(me: Entry, es: seq<Entry>): int
  {
    if es == [] then 0 else Received(me, es[..|es| - 1]) + Settle(me, es[|es| - 1])
  }

  /** `calculateTwoPlayerScore`. */
  function TwoPlayerScore(me: Entry, other: Entry): int
  {
    if me.hand.isMahjong then 2 * me.hand.total - other.hand.total
    else me.hand.total - 2 * other.hand.total
  }

  /** In a round of two hands, the entry that is not `p`'s. */
  function OtherEntry(es: seq<Entry>, p: PlayerId): Entry
    requires |es| == 2
  {
    if es[0].player != p then es[0] else es[1]
  }

  /** `getPlayerScore`: what player `p` gains (or, if negative, loses) in the round. */
  function PlayerScore(es: seq<Entry>, p: PlayerId): int
    requires HasHandFor(es, p)
  {
    if |es| == 2 then TwoPlayerScore(Lookup(es, p), OtherEntry(es, p))
    else Received(Lookup(es, p), es)
  }

  /** The sum of the scores of the players of the first `n` entries. */
  function ScoreSum(es: seq<Entry>, n: nat): int
    requires n <= |es|
  {
    if n == 0 then 0 else ScoreSum(es, n - 1) + PlayerScore(es, es[n - 1].player)
  }

  /** The sum over `a` of what each entry receives from the entries in `b`. */
  function ReceivedBy(a: seq<Entry>, b: seq<Entry>): int
  {
    if a == [] then 0 else ReceivedBy(a[..|a| - 1], b) + Received(a[|a| - 1], b)
  }

  /** The sum over `a` of each entry's settlement with `y`. */
  function PaidBy(a: seq<Entry>, y: Entry): int
  {
    if a == [] then 0 else PaidBy(a[..|a| - 1], y) + Settle(a[|a| - 1], y)
  }

  lemma {:induction false} ReceivedBySnoc(a: seq<Entry>, b: seq<Entry>, y: Entry)
    ensures ReceivedBy(a, b + [y]) == ReceivedBy(a, b) + PaidBy(a, y)
  {
    assert (b + [y])[..|b|] == b;
    if a != [] {
      ReceivedBySnoc(a[..|a| - 1], b, y);
    }
  }

  lemma {:induction false} PaidByIsReceived(a: seq<Entry>, y: Entry)
    requires forall i | 0 <= i < |a| :: !(a[i].hand.isMahjong && y.hand.isMahjong)
    ensures PaidBy(a, y) == -Received(y, a)
  {
    if a != [] {
      var n := |a| - 1;
      PaidByIsReceived(a[..n], y);
      TransferAntisymmetric(a[n], y);
    }
  }

  /** With no two mahjong hands, the settlements among all entries cancel out. */
  lemma {:induction false} SettlementsCancel(b: seq<Entry>)
    requires forall i, j | 0 <= i < j < |b| :: !(b[i].hand.isMahjong && b[j].hand.isMahjong)
    ensures ReceivedBy(b, b) == 0
  {
    if b != [] {
      var n := |b| - 1;
      var b', y := b[..n], b[n];
      assert b == b' + [y];
      SettlementsCancel(b');
      ReceivedBySnoc(b', b', y);
      PaidByIsReceived(b', y);
      assert Received(y, b) == Received(y, b');
    }
  }

  lemma {:induction false} ScoreSumIsReceived(es: seq<Entry>, n: nat)
    requires DistinctPlayers(es) && |es| != 2 && n <= |es|
    ensures ScoreSum(es, n) == ReceivedBy(es[..n], es)
  {
    if n > 0 {
      ScoreSumIsReceived(es, n - 1);
      LookupOwn(es, n - 1);
      assert es[..n][..n - 1] == es[..n - 1];
    }
  }

  /**
   * A round with exactly one mahjong hand is zero-sum: the scores of all
   * players add up to nothing.
   */
  lemma ZeroSum(es: seq<Entry>)
    requires DistinctPlayers(es) && |MahjongPlayers(es)| == 1
    ensures ScoreSum(es, |es|) == 0
  {
    AtMostOneWinner(es);
    if |es| == 2 {
      LookupOwn(es, 0);
      LookupOwn(es, 1);
      assert MahjongPlayers(es)[0] in MahjongPlayers(es);
      assert es[0].hand.isMahjong || es[1].hand.isMahjong;
      assert ScoreSum(es, 1) == PlayerScore(es, es[0].player);
      assert ScoreSum(es, 2) == PlayerScore(es, es[0].player) + PlayerScore(es, es[1].player);
    } else {
      ScoreSumIsReceived(es, |es|);
      assert es[..|es|] == es;
      SettlementsCancel(es);
    }
  }

  /** In three- or four-hand rounds the winner collects from every other player. */
  lemma {:induction false} WinnerCollects(me: Entry, es: seq<Entry>)
    requires me.hand.isMahjong && me.hand.total >= 0
    ensures Received(me, es) >= 0
  {
    if es != [] {
      WinnerCollects(me, es[..|es| - 1]);
    }
  }

  /** What a round records of a hand: its mahjong flag and its limited total. */
  function OutcomeOf(h: Hands.ScoredHand): HandOutcome
    reads h
  {
    HandOutcome(h.isMahjong, h.totalLimited)
  }

  class Round {
    const prevailingWind: Wind
    var entries: seq<Entry>

    ghost predicate Valid()
      reads this
    {
      DistinctPlayers(entries)
    }

    function State(): RoundState
      reads this
    {
      RoundState(prevailingWind, entries)
    }

    constructor (prevailingWind: Wind)
      ensures Valid() && this.prevailingWind == prevailingWind && entries == []
    {
      this.prevailingWind := prevailingWind;
      entries := [];
    }

    /** `addHand`: records the hand's outcome and the wind, replacing any earlier entry of the player. */
    method AddHand(player: PlayerId, hand: Hands.ScoredHand, playerWind: Wind)
      requires Valid()
      modifies this
      ensures Valid()
      ensures entries == Put(old(entries), Entry(player, OutcomeOf(hand), playerWind))
    {
      var e := Entry(player, OutcomeOf(hand), playerWind);
      var i := FindEntry(player);
      PutReplaces(entries, e);
      if i < 0 {
        entries := entries + [e];
      } else {
        entries := entries[i := e];
      }
    }

    /** The position of `player`'s entry, or -1. */
    method FindEntry(player: PlayerId) returns (i: int)
      ensures i == IndexOfPlayer(entries, player)
    {
      i := 0;
      while i < |entries|
        invariant 0 <= i <= |entries|
        invariant forall j | 0 <= j < i :: entries[j].player != player
      {
        if entries[i].player == player {
          IndexOfPlayerFirst(entries, player);
          return;
        }
        i := i + 1;
      }
      i := -1;
    }

    /** `isEmpty`. */
    method IsEmpty() returns (r: bool)
      ensures r <==> forall p :: !HasHandFor(entries, p)
    {
      r := |entries| == 0;
      if !r {
        assert HasHandFor(entries, entries[0].player);
      }
    }

    /** `getHandCount`: with one entry per player, the number of players with a hand. */
    method GetHandCount() returns (n: nat)
      requires Valid()
      ensures n == |entries|
    {
      n := |entries|;
    }

    /** `getMahjongPlayers`. */
    method GetMahjongPlayers() returns (ps: seq<PlayerId>)
      ensures ps == MahjongPlayers(entries)
    {
      ps := [];
      for i := 0 to |entries|
        invariant ps == MahjongPlayers(entries[..i])
      {
        assert entries[..i + 1][..i] == entries[..i];
        if entries[i].hand.isMahjong {
          ps := ps + [entries[i].player];
        }
      }
      assert entries[..|entries|] == entries;
    }

    /** `hasHandFor`. */
    method HasHandForPlayer(player: PlayerId) returns (r: bool)
      ensures r <==> HasHandFor(entries, player)
    {
      var i := FindEntry(player);
      r := i >= 0;
    }

    /** `hasHandForAll`: whether every one of `players` has an entry. */
    method HasHandForAll(players: seq<PlayerId>) returns (r: bool)
      ensures r <==> forall k | 0 <= k < |players| :: HasHandFor(entries, players[k])
    {
      for k := 0 to |players|
        invariant forall m | 0 <= m < k :: HasHandFor(entries, players[m])
      {
        var has := HasHandForPlayer(players[k]);
        if !has {
          return false;
        }
      }
      r := true;
    }

    /** `getPlayerScore`. */
    method GetPlayerScore(player: PlayerId) returns (score: int)
      requires Valid() && HasHandFor(entries, player)
      ensures score == PlayerScore(entries, player)
    {
      var i := FindEntry(player);
      var me := entries[i];
      if |entries| == 2 {
        var other := if entries[0].player != player then entries[0] else entries[1];
        score := TwoPlayerScore(me, other);
      } else {
        score := ThreeFourPlayerScore(me);
      }
    }

    /** `calculateThreeFourPlayerScore`: one pass over the entries. */
    method ThreeFourPlayerScore(me: Entry) returns (score: int)
      ensures score == Received(me, entries)
    {
      score := 0;
      for k := 0 to |entries|
        invariant score == Received(me, entries[..k])
      {
        assert entries[..k + 1][..k] == entries[..k];
        var that := entries[k];
        if that.player != me.player {
          var eastMultiplier := 1;
          if me.wind == EAST || that.wind == EAST {
            eastMultiplier := 2;
          }
          if me.hand.isMahjong {
            score := score + me.hand.total * eastMultiplier;
          } else if that.hand.isMahjong {
            score := score - that.hand.total * eastMultiplier;
          } else {
            score := score + (me.hand.total - that.hand.total) * eastMultiplier;
          }
        }
      }
      assert entries[..|entries|] == entries;
    }
  }

  /** A four-hand round with East winning 136 against hands of 2, 4 and 16. */
  function FourHands(): (es: seq<Entry>)
    ensures |es| == 4 && DistinctPlayers(es)
  {
    [ Entry(PlayerId("e"), HandOutcome(true, 136), EAST),
      Entry(PlayerId("s"), HandOutcome(false, 2), SOUTH),
      Entry(PlayerId("w"), HandOutcome(false, 4), WEST),
      Entry(PlayerId("n"), HandOutcome(false, 16), NORTH) ]
  }

  /** In a four-hand round, each player's score is what it settles with each of the four hands. */
  lemma FourHandScore(es: seq<Entry>, k: nat)
    requires |es| == 4 && DistinctPlayers(es) && k < 4
    ensures HasHandFor(es, es[k].player)
    ensures PlayerScore(es, es[k].player) == Settle(es[k], es[0]) + Settle(es[k], es[1]) + Settle(es[k], es[2]) + Settle(es[k], es[3])
  {
    LookupOwn(es, k);
    ReceivedFour(es[k], es);
  }

  /** East gains 816, six times its total, and the four scores add up to zero. */
  lemma FourPlayerFixture()
    ensures var es := FourHands();
      HasHandFor(es, PlayerId("e")) && HasHandFor(es, PlayerId("s"))
      && HasHandFor(es, PlayerId("w")) && HasHandFor(es, PlayerId("n"))
      && PlayerScore(es, PlayerId("e")) == 816
      && PlayerScore(es, PlayerId("s")) == -136 * 2 + 2 - 4 + 2 - 16
      && PlayerScore(es, PlayerId("w")) == -136 * 2 + 4 - 2 + 4 - 16
      && PlayerScore(es, PlayerId("n")) == -136 * 2 + 16 - 2 + 16 - 4
  {
    FourHandsEast();
    FourHandsSouth();
    FourHandsWest();
    FourHandsNorth();
  }

  lemma FourHandsEast()
    ensures HasHandFor(FourHands(), PlayerId("e")) && PlayerScore(FourHands(), PlayerId("e")) == 816
  {
    FourHandScore(FourHands(), 0);
  }

  lemma FourHandsSouth()
    ensures HasHandFor(FourHands(), PlayerId("s")) && PlayerScore(FourHands(), PlayerId("s")) == -136 * 2 + 2 - 4 + 2 - 16
  {
    FourHandScore(FourHands(), 1);
  }

  lemma FourHandsWest()
    ensures HasHandFor(FourHands(), PlayerId("w")) && PlayerScore(FourHands(), PlayerId("w")) == -136 * 2 + 4 - 2 + 4 - 16
  {
    FourHandScore(FourHands(), 2);
  }

  lemma FourHandsNorth()
    ensures HasHandFor(FourHands(), PlayerId("n")) && PlayerScore(FourHands(), PlayerId("n")) == -136 * 2 + 16 - 2 + 16 - 4
  {
    FourHandScore(FourHands(), 3);
  }

  lemma ReceivedFour(me: Entry, es: seq<Entry>)
    requires |es| == 4
    ensures Received(me, es) == Settle(me, es[0]) + Settle(me, es[1]) + Settle(me, es[2]) + Settle(me, es[3])
  {
    assert Received(me, es) == Received(me, es[..3]) + Settle(me, es[3]);
    assert es[..3][..2] == es[..2] && es[..3][2] == es[2];
    assert Received(me, es[..3]) == Received(me, es[..2]) + Settle(me, es[2]);
    assert es[..2][..1] == es[..1] && es[..2][1] == es[1];
    assert Received(me, es[..2]) == Received(me, es[..1]) + Settle(me, es[1]);
    assert es[..1][..0] == [] && es[..1][0] == es[0];
    assert Received(me, es[..1]) == Settle(me, es[0]);
  }

  /** A two-hand round: West wins 136 against East's 2, gaining 270 while East loses 270. */
  lemma TwoPlayerFixture()
    ensures var es := [
        Entry(PlayerId("e"), HandOutcome(false, 2), EAST),
        Entry(PlayerId("w"), HandOutcome(true, 136), WEST)];
      HasHandFor(es, PlayerId("e")) && HasHandFor(es, PlayerId("w"))
      && PlayerScore(es, PlayerId("e")) == -136 * 2 + 2
      && PlayerScore(es, PlayerId("w")) == 136 * 2 - 2
  {
    var es := [
        Entry(PlayerId("e"), HandOutcome(false, 2), EAST),
        Entry(PlayerId("w"), HandOutcome(true, 136), WEST)];
    LookupOwn(es, 0);
    LookupOwn(es, 1);
  }
}
