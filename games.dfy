/**
 * A game: four seats, the rounds played so far, and the running scores. The
 * game is not started, started, or finished. After each round the deal
 * (East) stays with a dealer who won, and otherwise passes to the next seated
 * player; the prevailing wind moves on each time the deal comes back to the
 * starting player, and the game finishes when the ending player has dealt
 * under a NORTH prevailing wind without winning.
 */
module Games {
  import opened Wrappers
  import opened Winds
  import opened Players
  import opened Rounds
  import opened Seating
  import opened Schemes

  /** What stays fixed once the game has started: the seats' players, the first and last dealer, the initial score. */
  datatype Table = Table(seats: Seats, starting: PlayerId, ending: PlayerId, initialScore: int)

  /** What the rounds change: the rounds, the score snapshots, the dealer, the prevailing wind and the finished flag. */
  datatype Play = Play(
    rounds: seq<RoundState>,
    snapshots: seq<map<PlayerId, int>>,
    east: PlayerId,
    prevailing: Wind,
    finished: bool)

  /** A round the game can score: it holds a hand for every seated player. */
  ghost predicate Fits(t: Table, r: RoundState)
  {
    forall q | q in SeatedSet(t.seats) :: HasHandFor(r.entries, q)
  }

  /** The dealers are seated and the latest snapshot has a score for every seated player. */
  ghost predicate Playable(t: Table, p: Play)
  {
    |t.seats| == 4
    && Some(t.starting) in t.seats && Some(t.ending) in t.seats && Some(p.east) in t.seats
    && |p.snapshots| >= 1
    && SeatedSet(t.seats) <= p.snapshots[|p.snapshots| - 1].Keys
  }

  /** The snapshot after a round: each seated player's score moved on by what the round gives it. */
  function NextScores(s: Seats, m: map<PlayerId, int>, es: seq<Entry>): (r: map<PlayerId, int>)
    requires SeatedSet(s) <= m.Keys && forall q | q in SeatedSet(s) :: HasHandFor(es, q)
  {
    map q | q in SeatedSet(s) :: m[q] + PlayerScore(es, q)
  }

  /** The scores at the start: the initial score for every seated player. */
  function InitialScores(s: Seats, v: int): (r: map<PlayerId, int>)
  {
    map q | q in SeatedSet(s) :: v
  }

  /**
   * The deal after a round: it stays with a dealer who won; otherwise the game
   * finishes if the ending player dealt under NORTH, and if not, the deal
   * passes to the next seated player and the prevailing wind moves on when
   * that is the starting player.
   */
  function MoveDeal(t: Table, p: Play, eastWon: bool): Play
    requires |t.seats| == 4 && Some(p.east) in t.seats
  {
    if eastWon then p
    else if p.east == t.ending && p.prevailing == NORTH then p.(finished := true)
    else
      var e := NextPlayer(t.seats, p.east);
      p.(east := e, prevailing := if e == t.starting then Next(p.prevailing) else p.prevailing)
  }

  /** `addRound` on a started game that is not finished. */
  function Step(t: Table, p: Play, r: RoundState): (p': Play)
    requires Playable(t, p) && Fits(t, r)
    ensures Playable(t, p')
    ensures p'.rounds == p.rounds + [r] && |p'.snapshots| == |p.snapshots| + 1
  {
    var last := p.snapshots[|p.snapshots| - 1];
    var q := MoveDeal(t, p, Lookup(r.entries, p.east).hand.isMahjong);
    Play(p.rounds + [r], p.snapshots + [NextScores(t.seats, last, r.entries)], q.east, q.prevailing, q.finished)
  }

  /** A map with a score for exactly the seated players, each moved on by the round, is the next snapshot. */
  lemma NextScoresPointwise(s: Seats, m: map<PlayerId, int>, es: seq<Entry>, next: map<PlayerId, int>)
    requires SeatedSet(s) <= m.Keys && forall q | q in SeatedSet(s) :: HasHandFor(es, q)
    requires next.Keys == SeatedSet(s) && forall q | q in next :: next[q] == m[q] + PlayerScore(es, q)
    ensures next == NextScores(s, m, es)
  {
  }

  /** One more seat taken into the next snapshot: the map built so far grows by that seat's player, if any. */
  lemma NextScoresGrow(s: Seats, i: nat, m: map<PlayerId, int>, es: seq<Entry>, next: map<PlayerId, int>)
    requires i < |s| && SeatedSet(s) <= m.Keys && forall q | q in SeatedSet(s) :: HasHandFor(es, q)
    requires next.Keys == SeatedSet(s[..i]) <= SeatedSet(s) && forall q | q in next :: next[q] == m[q] + PlayerScore(es, q)
    ensures s[i].Some? ==> s[i].value in m && HasHandFor(es, s[i].value)
    ensures var grown := if s[i].Some? then next[s[i].value := m[s[i].value] + PlayerScore(es, s[i].value)] else next;
      && grown.Keys == SeatedSet(s[..i + 1]) <= SeatedSet(s)
      && forall q | q in grown :: grown[q] == m[q] + PlayerScore(es, q)
  {
    SeatedGrow(s, i);
  }

  /** A map giving exactly the seated players the initial score is the starting snapshot. */
  lemma InitialScoresPointwise(s: Seats, v: int, initial: map<PlayerId, int>)
    requires initial.Keys == SeatedSet(s) && forall q | q in initial :: initial[q] == v
    ensures initial == InitialScores(s, v)
  {
  }

  /** The state right after `startGame`, and after `clearGame`. */
  function Fresh(t: Table): Play
  {
    Play([], [InitialScores(t.seats, t.initialScore)], t.starting, EAST, false)
  }

  /**
   * A step is the new snapshot together with where the deal goes, and it
   * leaves a consistent play consistent.
   */
  lemma StepFromParts(t: Table, p: Play, r: RoundState, next: map<PlayerId, int>, e: PlayerId, w: Wind, d: bool)
    requires Consistent(t, p) && Fits(t, r)
    requires next == NextScores(t.seats, p.snapshots[|p.snapshots| - 1], r.entries)
    requires var q := MoveDeal(t, p, Lookup(r.entries, p.east).hand.isMahjong);
      e == q.east && w == q.prevailing && d == q.finished
    ensures Step(t, p, r) == Play(p.rounds + [r], p.snapshots + [next], e, w, d)
    ensures Consistent(t, Play(p.rounds + [r], p.snapshots + [next], e, w, d))
  {
    StepConsistent(t, p, r);
  }

  /** The fresh state of a table whose dealers are seated is consistent. */
  lemma FreshConsistent(t: Table)
    requires |t.seats| == 4 && Some(t.starting) in t.seats && Some(t.ending) in t.seats
    ensures Consistent(t, Fresh(t))
  {
  }

  /** Adding the rounds `rs` one by one; once the game is finished a further round is refused. */
  function Replay(t: Table, p: Play, rs: seq<RoundState>): (q: Play)
    requires Playable(t, p) && AllFit(t, rs)
    ensures Playable(t, q)
  {
    if rs == [] then p
    else
      var n := |rs| - 1;
      var q := Replay(t, p, rs[..n]);
      if q.finished then q else Step(t, q, rs[n])
  }

  /** After a dealer wins, the deal and the prevailing wind stay where they were. */
  lemma DealerWinKeepsDeal(t: Table, p: Play, r: RoundState)
    requires Playable(t, p) && Fits(t, r)
    requires Lookup(r.entries, p.east).hand.isMahjong
    ensures Step(t, p, r).east == p.east && Step(t, p, r).prevailing == p.prevailing
    ensures Step(t, p, r).finished == p.finished
  {
  }

  /**
   * After a dealer loses, the game finishes exactly when the dealer is the
   * ending player under NORTH; otherwise the deal passes on, and the
   * prevailing wind moves on exactly when it passes back to the starting player.
   */
  lemma DealerLossPassesDeal(t: Table, p: Play, r: RoundState)
    requires Playable(t, p) && Fits(t, r) && !p.finished
    requires !Lookup(r.entries, p.east).hand.isMahjong
    ensures Step(t, p, r).finished <==> p.east == t.ending && p.prevailing == NORTH
    ensures Step(t, p, r).finished ==> Step(t, p, r).east == p.east && Step(t, p, r).prevailing == NORTH
    ensures !Step(t, p, r).finished ==>
      Step(t, p, r).east == NextPlayer(t.seats, p.east)
      && (Step(t, p, r).prevailing == Next(p.prevailing) <==> Step(t, p, r).east == t.starting)
  {
  }

  /** All of `rs` fit the table. */
  ghost predicate AllFit(t: Table, rs: seq<RoundState>)
  {
    forall k | 0 <= k < |rs| :: Fits(t, rs[k])
  }

  lemma PrefixFits(t: Table, rs: seq<RoundState>, n: nat)
    requires AllFit(t, rs) && n <= |rs|
    ensures AllFit(t, rs[..n])
  {
    forall k | 0 <= k < n
      ensures Fits(t, rs[..n][k])
    {
      assert rs[..n][k] == rs[k];
    }
  }

  /** Whether the rounds fit depends only on who is seated, not where. */
  lemma AllFitSeated(t: Table, t': Table, rs: seq<RoundState>)
    requires SeatedSet(t.seats) == SeatedSet(t'.seats) && AllFit(t, rs)
    ensures AllFit(t', rs)
  {
    forall k | 0 <= k < |rs|
      ensures Fits(t', rs[k])
    {
      assert Fits(t, rs[k]);
    }
  }

  /** Moving the same players to other seats keeps a play consistent with the table. */
  lemma ReseatConsistent(t: Table, seats: Seats, p: Play)
    requires Consistent(t, p) && |seats| == 4 && SeatedSet(seats) == SeatedSet(t.seats)
    ensures Consistent(t.(seats := seats), p)
  {
    AllFitSeated(t, t.(seats := seats), p.rounds);
  }

  /** Each round of `rs` fits the table. */
  lemma FitsAt(t: Table, rs: seq<RoundState>, k: nat)
    requires AllFit(t, rs) && k < |rs|
    ensures Fits(t, rs[k])
  {
  }

  /** A play whose rounds all fit the table, with one score snapshot more than there are rounds. */
  ghost predicate Consistent(t: Table, p: Play)
  {
    Playable(t, p) && AllFit(t, p.rounds) && |p.snapshots| == |p.rounds| + 1
  }

  /** A step keeps a play consistent. */
  lemma StepConsistent(t: Table, p: Play, r: RoundState)
    requires Consistent(t, p) && Fits(t, r)
    ensures Consistent(t, Step(t, p, r))
  {
    var rs := Step(t, p, r).rounds;
    assert rs[..|rs| - 1] == p.rounds;
  }

  /** A game not yet finished takes the next round as one step. */
  lemma {:induction false} ReplayNext(t: Table, p: Play, rs: seq<RoundState>, i: nat)
    requires Playable(t, p) && AllFit(t, rs) && i < |rs|
    requires AllFit(t, rs[..i]) && !Replay(t, p, rs[..i]).finished
    ensures AllFit(t, rs[..i + 1]) && Fits(t, rs[i])
    ensures Replay(t, p, rs[..i + 1]) == Step(t, Replay(t, p, rs[..i]), rs[i])
  {
    PrefixFits(t, rs, i + 1);
    FitsAt(t, rs, i);
    assert rs[..i + 1][..i] == rs[..i];
  }

  /** A finished game refuses the next round. */
  lemma {:induction false} ReplayFinishedLast(t: Table, p: Play, rs: seq<RoundState>)
    requires Playable(t, p) && AllFit(t, rs) && rs != []
    requires AllFit(t, rs[..|rs| - 1]) && Replay(t, p, rs[..|rs| - 1]).finished
    ensures Replay(t, p, rs) == Replay(t, p, rs[..|rs| - 1])
  {
  }

  /** A finished game stays as it is whatever further rounds are offered. */
  lemma {:induction false} ReplayStaysFinished(t: Table, p: Play, rs: seq<RoundState>, i: nat)
    requires Playable(t, p) && AllFit(t, rs) && i <= |rs|
    requires AllFit(t, rs[..i]) && Replay(t, p, rs[..i]).finished
    ensures Replay(t, p, rs) == Replay(t, p, rs[..i])
    decreases |rs| - i
  {
    if i < |rs| {
      var next := rs[..i + 1];
      PrefixFits(t, rs, i + 1);
      assert next[..i] == rs[..i];
      ReplayFinishedLast(t, p, next);
      ReplayStaysFinished(t, p, rs, i + 1);
    } else {
      assert rs[..i] == rs;
    }
  }

  /** What offering the round at `i` does to a replay of the rounds before it. */
  lemma ReplayFrom(t: Table, p: Play, rs: seq<RoundState>, i: nat)
    requires Playable(t, p) && AllFit(t, rs) && i < |rs| && AllFit(t, rs[..i])
    ensures Fits(t, rs[i]) && AllFit(t, rs[..i + 1])
    ensures Replay(t, p, rs[..i]).finished ==> Replay(t, p, rs) == Replay(t, p, rs[..i])
    ensures !Replay(t, p, rs[..i]).finished ==> Replay(t, p, rs[..i + 1]) == Step(t, Replay(t, p, rs[..i]), rs[i])
  {
    FitsAt(t, rs, i);
    PrefixFits(t, rs, i + 1);
    if Replay(t, p, rs[..i]).finished {
      ReplayStaysFinished(t, p, rs, i);
    } else {
      ReplayNext(t, p, rs, i);
    }
  }

  /** A play that is the replay of its own rounds from the fresh state: every round was taken while the game was open. */
  ghost predicate Reached(t: Table, p: Play)
  {
    Playable(t, Fresh(t)) && AllFit(t, p.rounds) && Replay(t, Fresh(t), p.rounds) == p
  }

  /** The fresh state is reached by no rounds. */
  lemma FreshReached(t: Table)
    requires |t.seats| == 4 && Some(t.starting) in t.seats && Some(t.ending) in t.seats
    ensures Reached(t, Fresh(t))
  {
    assert Replay(t, Fresh(t), []) == Fresh(t);
  }

  /** A round taken by an open game that was reached leaves a game that is reached. */
  lemma StepReached(t: Table, p: Play, r: RoundState)
    requires Reached(t, p) && !p.finished && Fits(t, r)
    ensures Reached(t, Step(t, p, r))
  {
    var rs := p.rounds + [r];
    assert rs[..|rs| - 1] == p.rounds;
    assert AllFit(t, rs) by {
      forall k | 0 <= k < |rs| ensures Fits(t, rs[k]) {
        if k < |p.rounds| {
          assert rs[k] == p.rounds[k];
        }
      }
    }
  }

  /** Replaying never adds more rounds than it is offered. */
  lemma {:induction false} ReplayRoundCount(t: Table, p: Play, rs: seq<RoundState>)
    requires Playable(t, p) && AllFit(t, rs)
    ensures |Replay(t, p, rs).rounds| <= |p.rounds| + |rs|
  {
    if rs != [] {
      var n := |rs| - 1;
      PrefixFits(t, rs, n);
      ReplayRoundCount(t, p, rs[..n]);
    }
  }

  /** Whatever a replay from the fresh state stops at is the replay of its own rounds. */
  lemma {:induction false} ReplayReached(t: Table, rs: seq<RoundState>)
    requires Playable(t, Fresh(t)) && AllFit(t, rs)
    ensures Reached(t, Replay(t, Fresh(t), rs))
  {
    if rs == [] {
      assert Replay(t, Fresh(t), []) == Fresh(t);
    } else {
      var n := |rs| - 1;
      PrefixFits(t, rs, n);
      ReplayReached(t, rs[..n]);
      var q := Replay(t, Fresh(t), rs[..n]);
      if !q.finished {
        FitsAt(t, rs, n);
        StepReached(t, q, rs[n]);
      }
    }
  }

  /**
   * What `popRound` undoes: a reached play with a round is the step, taken
   * while open, of the replay of all its rounds but the last, and that replay
   * takes every one of them.
   */
  lemma PopReached(t: Table, p: Play)
    requires Reached(t, p) && p.rounds != []
    ensures AllFit(t, p.rounds[..|p.rounds| - 1]) && Fits(t, p.rounds[|p.rounds| - 1])
    ensures var q := Replay(t, Fresh(t), p.rounds[..|p.rounds| - 1]);
      && Reached(t, q) && !q.finished && q.rounds == p.rounds[..|p.rounds| - 1]
      && Step(t, q, p.rounds[|p.rounds| - 1]) == p
  {
    var n := |p.rounds| - 1;
    PrefixFits(t, p.rounds, n);
    FitsAt(t, p.rounds, n);
    var q := Replay(t, Fresh(t), p.rounds[..n]);
    ReplayRoundCount(t, Fresh(t), p.rounds[..n]);
    ReplayReached(t, p.rounds[..n]);
    assert !q.finished;
    assert q.rounds + [p.rounds[n]] == p.rounds;
    assert q.rounds == p.rounds[..n];
  }

  /**
   * `popRound` after `addRound` on a reached game: the round taken is handed
   * back and the replay of the others is the game as it was.
   */
  lemma PopUndoesAdd(t: Table, p: Play, r: RoundState)
    requires Reached(t, p) && !p.finished && Fits(t, r)
    ensures var q := Step(t, p, r);
      && Reached(t, q) && q.rounds[|q.rounds| - 1] == r
      && AllFit(t, q.rounds[..|q.rounds| - 1])
      && Replay(t, Fresh(t), q.rounds[..|q.rounds| - 1]) == p
  {
    var q := Step(t, p, r);
    StepReached(t, p, r);
    assert q.rounds[..|q.rounds| - 1] == p.rounds;
  }

  /** The sum of the scores in `m` of the players in `ks`. */
  ghost function SumScores(m: map<PlayerId, int>, ks: set<PlayerId>): int
    requires ks <= m.Keys
    decreases ks
  {
    if ks == {} then 0 else var q :| q in ks; m[q] + SumScores(m, ks - {q})
  }

  /** Any player of `ks` can be taken out of the sum first. */
  lemma {:induction false} SumScoresRemove(m: map<PlayerId, int>, ks: set<PlayerId>, q: PlayerId)
    requires ks <= m.Keys && q in ks
    ensures SumScores(m, ks) == m[q] + SumScores(m, ks - {q})
    decreases ks
  {
    var p :| p in ks && SumScores(m, ks) == m[p] + SumScores(m, ks - {p});
    if p != q {
      SumScoresRemove(m, ks - {p}, q);
      SumScoresRemove(m, ks - {q}, p);
      assert ks - {p} - {q} == ks - {q} - {p};
    }
  }

  /** Scores moved on player by player by `d` sum to the old sum plus the sum of `d`. */
  lemma {:induction false} SumScoresShift(m: map<PlayerId, int>, m': map<PlayerId, int>, d: map<PlayerId, int>, ks: set<PlayerId>)
    requires ks <= m.Keys && ks <= m'.Keys && ks <= d.Keys
    requires forall q | q in ks :: m'[q] == m[q] + d[q]
    ensures SumScores(m', ks) == SumScores(m, ks) + SumScores(d, ks)
    decreases ks
  {
    if ks != {} {
      var q :| q in ks;
      SumScoresRemove(m, ks, q);
      SumScoresRemove(m', ks, q);
      SumScoresRemove(d, ks, q);
      SumScoresShift(m, m', d, ks - {q});
    }
  }

  /** Every player of `ks` on the same score `v` sums to `|ks|` times `v`. */
  lemma {:induction false} SumScoresConstant(m: map<PlayerId, int>, ks: set<PlayerId>, v: int)
    requires ks <= m.Keys && forall q | q in ks :: m[q] == v
    ensures SumScores(m, ks) == |ks| * v
    decreases ks
  {
    if ks != {} {
      var q :| q in ks;
      SumScoresRemove(m, ks, q);
      SumScoresConstant(m, ks - {q}, v);
      assert |ks - {q}| == |ks| - 1;
      assert (|ks| - 1) * v + v == |ks| * v;
    }
  }

  /** The players of the first `n` entries. */
  ghost function PlayersUpTo(es: seq<Entry>, n: nat): set<PlayerId>
    requires n <= |es|
  {
    set j | 0 <= j < n :: es[j].player
  }

  /** Each player's round score, for the players of `ks`. */
  ghost function RoundScores(es: seq<Entry>, ks: set<PlayerId>): (d: map<PlayerId, int>)
    requires forall q | q in ks :: HasHandFor(es, q)
    ensures d.Keys == ks
  {
    map q | q in ks :: PlayerScore(es, q)
  }

  /** The players of one more entry: the new entry's player, who is not among the earlier ones. */
  lemma PlayersUpToSnoc(es: seq<Entry>, n: nat)
    requires DistinctPlayers(es) && 0 < n <= |es|
    ensures es[n - 1].player in PlayersUpTo(es, n)
    ensures PlayersUpTo(es, n) - {es[n - 1].player} == PlayersUpTo(es, n - 1)
  {
    var x := es[n - 1].player;
    forall q | q in PlayersUpTo(es, n) && q != x ensures q in PlayersUpTo(es, n - 1) {
      var j :| 0 <= j < n && es[j].player == q;
    }
  }

  /** The scores in `d` of the players of the first `n` entries, entry by entry. */
  ghost function EntrySum(d: map<PlayerId, int>, es: seq<Entry>, n: nat): int
    requires n <= |es| && forall j | 0 <= j < |es| :: es[j].player in d
  {
    if n == 0 then 0 else EntrySum(d, es, n - 1) + d[es[n - 1].player]
  }

  /** With one entry per player, summing over the set of their players is summing entry by entry. */
  lemma {:induction false} SumOverEntries(d: map<PlayerId, int>, es: seq<Entry>, n: nat)
    requires DistinctPlayers(es) && n <= |es| && forall j | 0 <= j < |es| :: es[j].player in d
    ensures PlayersUpTo(es, n) <= d.Keys
    ensures SumScores(d, PlayersUpTo(es, n)) == EntrySum(d, es, n)
  {
    if n == 0 {
      assert PlayersUpTo(es, 0) == {};
    } else {
      SumOverEntries(d, es, n - 1);
      PlayersUpToSnoc(es, n);
      SumScoresRemove(d, PlayersUpTo(es, n), es[n - 1].player);
    }
  }

  /** Entry by entry, the round scores add up to the entries' score sum. */
  lemma {:induction false} EntrySumIsScoreSum(es: seq<Entry>, ks: set<PlayerId>, n: nat)
    requires n <= |es| && forall q :: q in ks <==> HasHandFor(es, q)
    ensures forall j | 0 <= j < |es| :: es[j].player in RoundScores(es, ks)
    ensures EntrySum(RoundScores(es, ks), es, n) == ScoreSum(es, n)
  {
    assert forall j | 0 <= j < |es| :: HasHandFor(es, es[j].player);
    if n > 0 {
      EntrySumIsScoreSum(es, ks, n - 1);
    }
  }

  /** When the entries are exactly the players of `ks`, one each, the round scores sum to the entries' score sum. */
  lemma RoundScoresSum(es: seq<Entry>, ks: set<PlayerId>)
    requires DistinctPlayers(es)
    requires forall q :: q in ks <==> HasHandFor(es, q)
    ensures SumScores(RoundScores(es, ks), ks) == ScoreSum(es, |es|)
  {
    EntrySumIsScoreSum(es, ks, |es|);
    SumOverEntries(RoundScores(es, ks), es, |es|);
    assert PlayersUpTo(es, |es|) == ks by {
      forall q | q in ks ensures q in PlayersUpTo(es, |es|) {
        assert HasHandFor(es, q);
      }
    }
  }

  /** A round of the seated players, one hand each, with exactly one mahjong hand. */
  ghost predicate ZeroSumRound(t: Table, r: RoundState)
  {
    DistinctPlayers(r.entries) && |MahjongPlayers(r.entries)| == 1
    && forall i | 0 <= i < |r.entries| :: Some(r.entries[i].player) in t.seats
  }

  /** Every snapshot scores every seated player, and the scores add up to the initial score per seated player. */
  ghost predicate Conserved(t: Table, snaps: seq<map<PlayerId, int>>)
  {
    forall k | 0 <= k < |snaps| ::
      SeatedSet(t.seats) <= snaps[k].Keys
      && SumScores(snaps[k], SeatedSet(t.seats)) == |SeatedSet(t.seats)| * t.initialScore
  }

  /** The starting snapshot holds the initial score for each seated player. */
  lemma FreshConserved(t: Table)
    ensures Conserved(t, Fresh(t).snapshots)
  {
    var ks := SeatedSet(t.seats);
    SumScoresConstant(InitialScores(t.seats, t.initialScore), ks, t.initialScore);
  }

  /** A zero-sum round leaves the sum of the seated players' scores as it was. */
  lemma StepConserves(t: Table, p: Play, r: RoundState)
    requires Playable(t, p) && Fits(t, r) && ZeroSumRound(t, r)
    ensures var last := p.snapshots[|p.snapshots| - 1];
      SumScores(NextScores(t.seats, last, r.entries), SeatedSet(t.seats)) == SumScores(last, SeatedSet(t.seats))
  {
    var ks := SeatedSet(t.seats);
    var last := p.snapshots[|p.snapshots| - 1];
    var es := r.entries;
    assert forall q :: q in ks <==> HasHandFor(es, q) by {
      forall q | HasHandFor(es, q) ensures q in ks {
        var i :| 0 <= i < |es| && es[i].player == q;
        assert Some(es[i].player) in t.seats;
      }
    }
    SumScoresShift(last, NextScores(t.seats, last, es), RoundScores(es, ks), ks);
    RoundScoresSum(es, ks);
    ZeroSum(es);
  }

  /** A further snapshot with the same sum keeps the snapshots conserved. */
  lemma ConservedSnoc(t: Table, snaps: seq<map<PlayerId, int>>, m: map<PlayerId, int>)
    requires Conserved(t, snaps) && snaps != [] && SeatedSet(t.seats) <= m.Keys
    requires SumScores(m, SeatedSet(t.seats)) == SumScores(snaps[|snaps| - 1], SeatedSet(t.seats))
    ensures Conserved(t, snaps + [m])
  {
    assert forall k | 0 <= k < |snaps| :: (snaps + [m])[k] == snaps[k];
  }

  /** Replaying zero-sum rounds keeps every snapshot's sum. */
  lemma {:induction false} ReplayConserves(t: Table, p: Play, rs: seq<RoundState>)
    requires Playable(t, p) && AllFit(t, rs) && Conserved(t, p.snapshots)
    requires forall k | 0 <= k < |rs| :: ZeroSumRound(t, rs[k])
    ensures Conserved(t, Replay(t, p, rs).snapshots)
  {
    if rs != [] {
      var n := |rs| - 1;
      PrefixFits(t, rs, n);
      ReplayConserves(t, p, rs[..n]);
      var q := Replay(t, p, rs[..n]);
      if !q.finished {
        FitsAt(t, rs, n);
        var next := NextScores(t.seats, q.snapshots[|q.snapshots| - 1], rs[n].entries);
        assert Replay(t, p, rs).snapshots == q.snapshots + [next];
        StepConserves(t, q, rs[n]);
        ConservedSnoc(t, q.snapshots, next);
      } else {
        assert Replay(t, p, rs) == q;
      }
    }
  }

  /**
   * Score conservation over a game: when every round has one hand per seated
   * player and exactly one mahjong hand, every score snapshot adds up to the
   * number of seated players times the initial score.
   */
  lemma GameConservesScores(t: Table, rs: seq<RoundState>)
    requires |t.seats| == 4 && Some(t.starting) in t.seats && Some(t.ending) in t.seats
    requires AllFit(t, rs) && forall k | 0 <= k < |rs| :: ZeroSumRound(t, rs[k])
    ensures Conserved(t, Replay(t, Fresh(t), rs).snapshots)
  {
    FreshConserved(t);
    ReplayConserves(t, Fresh(t), rs);
  }

  datatype SetPlayerResult = SeatFilled | AlreadyStarted | InvalidSeat | SeatTaken
  datatype StartResult = Started | StartedBefore | AlreadyFinished | TooFewPlayers | StartingPlayerNotSeated
  datatype AddRoundResult = Added | NotStarted | GameFinished
  datatype PopResult = NoRound | Popped(round: RoundState) | ReplayRefused

  class Game {
    const scheme: Scheme
    const seats: array<Option<PlayerId>>
    /** The contents of the seats as a value; every method keeps it equal to the array's. */
    ghost var seating: Seats
    var seatsOccupied: int
    var rounds: seq<RoundState>
    var started: bool
    var finished: bool
    /** The scores at the start of each round; the last one is the scores now. */
    var snapshots: seq<map<PlayerId, int>>
    var startingPlayer: Option<PlayerId>
    var endingPlayer: Option<PlayerId>
    var eastPlayer: Option<PlayerId>
    var prevailingWind: Option<Wind>

    /** The array holds the four seats that `seating` records. */
    ghost predicate SeatsHeld()
      reads this`seating, seats
    {
      seats.Length == 4 && seats[..] == seating
    }

    ghost function TableOf(): Table
      reads this`startingPlayer, this`endingPlayer, this`seating
      requires startingPlayer.Some? && endingPlayer.Some?
    {
      Table(seating, startingPlayer.value, endingPlayer.value, scheme.initialScore)
    }

    ghost function PlayOf(): Play
      reads this`rounds, this`snapshots, this`eastPlayer, this`prevailingWind, this`finished
      requires eastPlayer.Some? && prevailingWind.Some?
    {
      Play(rounds, snapshots, eastPlayer.value, prevailingWind.value, finished)
    }

    ghost predicate Valid()
      reads this, seats
    {
      SeatsHeld()
      && seatsOccupied == Occupied(seating)
      && (!started ==> rounds == [] && !finished && snapshots == [InitialScores(seating, scheme.initialScore)])
      && (started ==>
            startingPlayer.Some? && endingPlayer.Some? && eastPlayer.Some? && prevailingWind.Some?
            && Consistent(TableOf(), PlayOf()))
    }

    /**
     * A started game is the replay of its own rounds from the start, which
     * is what lets `popRound` rebuild it. Rotating the seats after the start
     * can break it.
     */
    ghost predicate Replayable()
      reads this, seats
      requires Valid()
    {
      started ==> Reached(TableOf(), PlayOf())
    }

    constructor (scheme: Scheme)
      ensures Valid() && fresh(seats)
      ensures this.scheme == scheme && seating == [None, None, None, None]
      ensures seatsOccupied == 0 && rounds == [] && snapshots == [map[]]
      ensures !started && !finished
      ensures startingPlayer.None? && endingPlayer.None? && eastPlayer.None? && prevailingWind.None?
    {
      this.scheme := scheme;
      seats := new Option<PlayerId>[4](_ => None);
      seatsOccupied := 0;
      rounds := [];
      started := false;
      finished := false;
      snapshots := [map[]];
      startingPlayer := None;
      endingPlayer := None;
      eastPlayer := None;
      prevailingWind := None;
      seating := [None, None, None, None];
      new;
      assert seats[..] == seating;
      assert SeatedSet(seating) == {};
      OccupiedFour(seating);
    }

    /**
     * `setPlayer`: seats `player` at `index` and gives it the initial score,
     * unless the game has started, the index is not a seat, or the seat is taken.
     */
    method SetPlayer(player: PlayerId, index: int) returns (r: SetPlayerResult)
      requires Valid()
      modifies this`seatsOccupied, this`snapshots, this`seating, seats
      ensures Valid()
      ensures old(started) ==> r == AlreadyStarted
      ensures !old(started) && !(0 <= index < 4) ==> r == InvalidSeat
      ensures !old(started) && 0 <= index < 4 && old(seating)[index].Some? ==> r == SeatTaken
      ensures r != SeatFilled ==>
        seating == old(seating) && snapshots == old(snapshots) && seatsOccupied == old(seatsOccupied)
      ensures r == SeatFilled <==> !old(started) && 0 <= index < 4 && old(seating)[index].None?
      ensures r == SeatFilled ==>
        seating == old(seating)[index := Some(player)]
        && seatsOccupied == old(seatsOccupied) + 1
        && snapshots == [old(snapshots)[0][player := scheme.initialScore]]
      ensures rounds == old(rounds) && started == old(started) && finished == old(finished)
      ensures startingPlayer == old(startingPlayer) && endingPlayer == old(endingPlayer)
      ensures eastPlayer == old(eastPlayer) && prevailingWind == old(prevailingWind)
    {
      if started {
        return AlreadyStarted;
      }
      if index < 0 || index > 3 {
        return InvalidSeat;
      }
      if seats[index].Some? {
        return SeatTaken;
      }
      FillSeat(player, index);
      r := SeatFilled;
    }

    /** Seats `player` in the empty seat `index` of a game not yet started and gives it the initial score. */
    method FillSeat(player: PlayerId, index: int)
      requires Valid() && !started && 0 <= index < 4 && seating[index].None?
      modifies this`seatsOccupied, this`snapshots, this`seating, seats
      ensures Valid()
      ensures seating == old(seating)[index := Some(player)] && seatsOccupied == old(seatsOccupied) + 1
      ensures snapshots == [old(snapshots)[0][player := scheme.initialScore]]
    {
      ghost var before := seating;
      OccupiedFour(before);
      OccupiedFour(before[index := Some(player)]);
      SeatedAfterFill(before, index, player);
      assert InitialScores(before[index := Some(player)], scheme.initialScore)
        == InitialScores(before, scheme.initialScore)[player := scheme.initialScore];
      WriteSeat(player, index);
    }

    /** The stores of `setPlayer`: the seat, the count of occupied seats and the starting scores. */
    method WriteSeat(player: PlayerId, index: int)
      requires SeatsHeld() && 0 <= index < 4 && |snapshots| >= 1
      modifies this`seatsOccupied, this`snapshots, this`seating, seats
      ensures SeatsHeld() && seating == old(seating)[index := Some(player)]
      ensures seatsOccupied == old(seatsOccupied) + 1
      ensures snapshots == [old(snapshots)[0][player := scheme.initialScore]]
    {
      seats[index] := Some(player);
      seating := seating[index := Some(player)];
      assert seats[..] == seating;
      seatsOccupied := seatsOccupied + 1;
      snapshots := [snapshots[0][player := scheme.initialScore]];
    }

    /** `getPlayer`: the occupant of seat `index`, or an error for an index that is not a seat. */
    method GetPlayer(index: int) returns (r: Result<Option<PlayerId>, SetPlayerResult>)
      requires Valid()
      ensures 0 <= index < 4 ==> r == Success(seating[index])
      ensures !(0 <= index < 4) ==> r == Failure(InvalidSeat)
    {
      if index < 0 || index >= 4 {
        return Failure(InvalidSeat);
      }
      r := Success(seats[index]);
    }

    /** `getPlayers`: the seated players in seat order. */
    method GetPlayers() returns (ps: seq<PlayerId>)
      requires SeatsHeld()
      ensures ps == Occupants(seating)
    {
      ps := [];
      for i := 0 to 4
        invariant ps == Occupants(seating[..i])
      {
        assert seating[..i + 1][..i] == seating[..i];
        if seats[i].Some? {
          ps := ps + [seats[i].value];
        }
      }
      assert seating[..4] == seating;
    }

    /** `rotateSeats`: every occupant moves one seat on; the dealers and scores stay. */
    method RotateSeats()
      requires Valid()
      modifies seats, this`seating
      ensures Valid()
      ensures seating == Rotate(old(seating))
      ensures SeatedSet(seating) == SeatedSet(old(seating))
    {
      RotateKeepsPlayers(seating);
      assert InitialScores(Rotate(seating), scheme.initialScore) == InitialScores(seating, scheme.initialScore);
      if started {
        ReseatConsistent(TableOf(), Rotate(seating), PlayOf());
      }
      ShiftSeats();
    }

    /** The stores of `rotateSeats`: each seat takes the occupant of the one before it. */
    method ShiftSeats()
      requires SeatsHeld()
      modifies seats, this`seating
      ensures SeatsHeld() && seating == Rotate(old(seating))
    {
      var player3 := seats[3];
      seats[3] := seats[2];
      seats[2] := seats[1];
      seats[1] := seats[0];
      seats[0] := player3;
      seating := Rotate(seating);
      assert seats[..] == seating;
    }

    /** `findPlayerIndex`: the first seat holding `player`, or -1 where the source throws. */
    method FindPlayerIndex(player: PlayerId) returns (i: int)
      requires SeatsHeld()
      ensures i == SeatOf(seating, player)
    {
      i := 0;
      while i < 4
        invariant 0 <= i <= 4
        invariant forall j | 0 <= j < i :: seating[j] != Some(player)
      {
        if seats[i] == Some(player) {
          SeatOfFirst(seating, player);
          return;
        }
        i := i + 1;
      }
      i := -1;
    }

    /** The do-while walks of `endingPlayer` and `addRound`: step seat by seat until one is occupied. */
    method StepToOccupied(i: int, back: bool) returns (j: int)
      requires SeatsHeld() && 0 <= i < 4 && seating[i].Some?
      ensures j == Neighbour(seating, i, back)
    {
      var k := 1;
      j := i;
      if back {
        if j <= 0 {
          j := 4;
        }
        j := j - 1;
      } else {
        j := j + 1;
        if j >= 4 {
          j := 0;
        }
      }
      AroundStep(i, back, 0);
      while seats[j].None?
        invariant 1 <= k <= 4 && j == Around(i, back, k)
        invariant StepsToOccupied(seating, i, back, 1) == StepsToOccupied(seating, i, back, k)
        decreases 4 - k
      {
        AroundStep(i, back, k);
        if back {
          if j <= 0 {
            j := 4;
          }
          j := j - 1;
        } else {
          j := j + 1;
          if j >= 4 {
            j := 0;
          }
        }
        k := k + 1;
      }
    }

    /**
     * `startGame`: makes `east` the starting dealer and the dealer, works out
     * the ending player and sets the prevailing wind to EAST. It is refused on
     * a game already started or finished and with fewer than two players; a
     * starting player who is not seated is rejected after it has been recorded.
     */
    method StartGame(east: PlayerId) returns (r: StartResult)
      requires Valid()
      modifies this`startingPlayer, this`endingPlayer, this`eastPlayer, this`prevailingWind, this`started
      ensures Valid()
      ensures old(started) ==> r == StartedBefore
      ensures !old(started) && old(finished) ==> r == AlreadyFinished
      ensures !old(started) && !old(finished) && old(seatsOccupied) < 2 ==> r == TooFewPlayers
      ensures r == StartingPlayerNotSeated <==>
        !old(started) && !old(finished) && old(seatsOccupied) >= 2 && Some(east) !in seating
      ensures r == StartingPlayerNotSeated ==> startingPlayer == Some(east)
      ensures r == Started <==>
        !old(started) && !old(finished) && old(seatsOccupied) >= 2 && Some(east) in seating
      ensures r == Started ==> Replayable()
      ensures r == Started ==>
        started && startingPlayer == Some(east) && eastPlayer == Some(east)
        && endingPlayer == Some(PreviousPlayer(seating, east))
        && prevailingWind == Some(EAST)
      ensures r != Started && r != StartingPlayerNotSeated ==> startingPlayer == old(startingPlayer)
      ensures r != Started ==>
        started == old(started) && endingPlayer == old(endingPlayer)
        && eastPlayer == old(eastPlayer) && prevailingWind == old(prevailingWind)
      ensures rounds == old(rounds) && snapshots == old(snapshots) && finished == old(finished)
      ensures seatsOccupied == old(seatsOccupied)
    {
      if started {
        return StartedBefore;
      }
      if finished {
        return AlreadyFinished;
      }
      if seatsOccupied < 2 {
        return TooFewPlayers;
      }
      startingPlayer := Some(east);
      var index := FindPlayerIndex(east);
      if index < 0 {
        return StartingPlayerNotSeated;
      }
      var endingIndex := StepToOccupied(index, true);
      NeighbourOccupied(seating, index, true);
      Begin(east, seats[endingIndex].value);
      r := Started;
    }

    /** Starts the game with `east` dealing first and `ending` dealing last. */
    method Begin(east: PlayerId, ending: PlayerId)
      requires Valid() && !started && Some(east) in seating && Some(ending) in seating
      modifies this`startingPlayer, this`endingPlayer, this`eastPlayer, this`prevailingWind, this`started
      ensures Valid() && started && Replayable()
      ensures startingPlayer == Some(east) && endingPlayer == Some(ending)
      ensures eastPlayer == Some(east) && prevailingWind == Some(EAST)
    {
      ghost var t := Table(seating, east, ending, scheme.initialScore);
      ghost var p := Play(rounds, snapshots, east, EAST, finished);
      assert p == Fresh(t);
      FreshReached(t);
      SetDealers(east, ending);
      assert TableOf() == t && PlayOf() == p;
    }

    /** The stores of `startGame`. */
    method SetDealers(east: PlayerId, ending: PlayerId)
      modifies this`startingPlayer, this`endingPlayer, this`eastPlayer, this`prevailingWind, this`started
      ensures startingPlayer == Some(east) && endingPlayer == Some(ending)
      ensures eastPlayer == Some(east) && prevailingWind == Some(EAST) && started
    {
      startingPlayer, endingPlayer := Some(east), Some(ending);
      eastPlayer, prevailingWind, started := Some(east), Some(EAST), true;
    }

    /** `isCompleteRound`: whether every seated player has a hand in the round. */
    method IsCompleteRound(round: Round) returns (r: bool)
      requires Valid()
      ensures r <==> forall q | Some(q) in seating :: HasHandFor(round.entries, q)
    {
      var players := GetPlayers();
      r := round.HasHandForAll(players);
    }

    /** The snapshot after `round`, built seat by seat. */
    method RoundEndScores(round: RoundState) returns (next: map<PlayerId, int>)
      requires SeatsHeld() && |snapshots| >= 1
      requires SeatedSet(seating) <= snapshots[|snapshots| - 1].Keys
      requires forall q | q in SeatedSet(seating) :: HasHandFor(round.entries, q)
      ensures next == NextScores(seating, snapshots[|snapshots| - 1], round.entries)
    {
      var start := snapshots[|snapshots| - 1];
      next := map[];
      for i := 0 to 4
        invariant next.Keys == SeatedSet(seating[..i]) <= SeatedSet(seating)
        invariant forall q | q in next :: next[q] == start[q] + PlayerScore(round.entries, q)
      {
        NextScoresGrow(seating, i, start, round.entries, next);
        var seat := seats[i];
        if seat.Some? {
          var player := seat.value;
          next := next[player := start[player] + PlayerScore(round.entries, player)];
        }
      }
      assert seating[..4] == seating;
      NextScoresPointwise(seating, start, round.entries, next);
    }

    /**
     * `addRound`: on a started game that is not finished, records the round
     * and the scores after it and moves the deal on (see `Step`).
     */
    method AddRound(round: RoundState) returns (r: AddRoundResult)
      requires Valid()
      requires started ==> Fits(TableOf(), round)
      modifies this`rounds, this`snapshots, this`finished, this`eastPlayer, this`prevailingWind
      ensures Valid()
      ensures !old(started) ==> r == NotStarted
      ensures old(started) && old(finished) ==> r == GameFinished
      ensures r != Added ==> PlayUnchanged() && started == old(started)
      ensures r == Added <==> old(started) && !old(finished)
      ensures r == Added ==> started && PlayOf() == Step(old(TableOf()), old(PlayOf()), round)
      ensures old(Replayable()) ==> Replayable()
      ensures started == old(started) && startingPlayer == old(startingPlayer)
      ensures endingPlayer == old(endingPlayer) && seatsOccupied == old(seatsOccupied)
    {
      if !started {
        return NotStarted;
      }
      if finished {
        return GameFinished;
      }
      ghost var t := TableOf();
      ghost var p := PlayOf();
      if Reached(t, p) {
        StepReached(t, p, round);
      }
      PlayRound(round);
      assert TableOf() == t;
      r := Added;
    }

    /** The work of `addRound` on a started game that is not finished: one `Step`. */
    method PlayRound(round: RoundState)
      requires Valid() && started && !finished && Fits(TableOf(), round)
      modifies this`rounds, this`snapshots, this`finished, this`eastPlayer, this`prevailingWind
      ensures Valid() && started
      ensures PlayOf() == Step(old(TableOf()), old(PlayOf()), round)
      ensures startingPlayer == old(startingPlayer) && endingPlayer == old(endingPlayer)
    {
      var east, wind, done := MoveDealOn(Lookup(round.entries, eastPlayer.value).hand.isMahjong);
      var next := RoundEndScores(round);
      Commit(round, next, east, wind, done);
    }

    /** Moves the game on by the step whose new snapshot and deal have been worked out. */
    method Commit(round: RoundState, next: map<PlayerId, int>, east: PlayerId, wind: Wind, done: bool)
      requires Valid() && started && Fits(TableOf(), round)
      requires next == NextScores(seating, snapshots[|snapshots| - 1], round.entries)
      requires var q := MoveDeal(TableOf(), PlayOf(), Lookup(round.entries, eastPlayer.value).hand.isMahjong);
        east == q.east && wind == q.prevailing && done == q.finished
      modifies this`rounds, this`snapshots, this`finished, this`eastPlayer, this`prevailingWind
      ensures Valid() && started && startingPlayer == old(startingPlayer) && endingPlayer == old(endingPlayer)
      ensures PlayOf() == Step(old(TableOf()), old(PlayOf()), round)
    {
      ghost var t := TableOf();
      ghost var p := PlayOf();
      StepFromParts(t, p, round, next, east, wind, done);
      Install(round, next, east, wind, done);
    }

    /** Moves the game on to a play already known to be consistent with its table. */
    method Install(round: RoundState, next: map<PlayerId, int>, east: PlayerId, wind: Wind, done: bool)
      requires Valid() && started
      requires Consistent(TableOf(), Play(rounds + [round], snapshots + [next], east, wind, done))
      modifies this`rounds, this`snapshots, this`finished, this`eastPlayer, this`prevailingWind
      ensures Valid() && started && startingPlayer == old(startingPlayer) && endingPlayer == old(endingPlayer)
      ensures PlayOf() == Play(old(rounds) + [round], old(snapshots) + [next], east, wind, done)
    {
      ghost var t := TableOf();
      Record(round, next, east, wind, done);
      assert TableOf() == t;
    }

    /** Stores a played round, the scores after it and where the deal has gone. */
    method Record(round: RoundState, next: map<PlayerId, int>, east: PlayerId, wind: Wind, done: bool)
      modifies this`rounds, this`snapshots, this`finished, this`eastPlayer, this`prevailingWind
      ensures rounds == old(rounds) + [round] && snapshots == old(snapshots) + [next] && finished == done
      ensures eastPlayer == Some(east) && prevailingWind == Some(wind)
    {
      rounds, snapshots, finished := rounds + [round], snapshots + [next], done;
      eastPlayer, prevailingWind := Some(east), Some(wind);
    }

    /**
     * The second half of `addRound`: where the deal and the prevailing wind go
     * after a round, and whether the game is then finished.
     */
    method MoveDealOn(eastWon: bool) returns (east: PlayerId, wind: Wind, done: bool)
      requires SeatsHeld() && startingPlayer.Some? && endingPlayer.Some?
      requires eastPlayer.Some? && prevailingWind.Some? && Some(eastPlayer.value) in seating
      ensures var q := MoveDeal(TableOf(), PlayOf(), eastWon);
        east == q.east && wind == q.prevailing && done == q.finished
    {
      east, wind, done := eastPlayer.value, prevailingWind.value, finished;
      if eastWon {
        return;
      }
      if east == endingPlayer.value && wind == NORTH {
        done := true;
        return;
      }
      var eastIndex := FindPlayerIndex(east);
      NeighbourOccupied(seating, eastIndex, false);
      eastIndex := StepToOccupied(eastIndex, false);
      east := seats[eastIndex].value;
      if east == startingPlayer.value {
        wind := Next(wind);
      }
    }

    /** Every field a round changes is as it was. */
    twostate predicate PlayUnchanged()
      reads this
    {
      rounds == old(rounds) && snapshots == old(snapshots) && finished == old(finished)
      && eastPlayer == old(eastPlayer) && prevailingWind == old(prevailingWind)
    }

    /** The scores reset by `clearGame`: the initial score for each seated player, built seat by seat. */
    method InitialScoresNow() returns (initial: map<PlayerId, int>)
      requires SeatsHeld()
      ensures initial == InitialScores(seating, scheme.initialScore)
    {
      initial := map[];
      for i := 0 to 4
        invariant initial.Keys == SeatedSet(seating[..i])
        invariant forall q | q in initial :: initial[q] == scheme.initialScore
      {
        SeatedGrow(seating, i);
        var seat := seats[i];
        if seat.Some? {
          initial := initial[seat.value := scheme.initialScore];
        }
      }
      assert seating[..4] == seating;
      InitialScoresPointwise(seating, scheme.initialScore, initial);
    }

    /** `clearGame`: back to the state right after `startGame`, handing back the rounds. */
    method ClearGame() returns (all: seq<RoundState>)
      requires Valid() && started
      modifies this`rounds, this`snapshots, this`finished, this`eastPlayer, this`prevailingWind
      ensures Valid() && started
      ensures all == old(rounds)
      ensures startingPlayer == old(startingPlayer) && endingPlayer == old(endingPlayer)
      ensures seatsOccupied == old(seatsOccupied)
      ensures PlayOf() == Fresh(TableOf()) && Replayable()
    {
      all := rounds;
      var initial := InitialScoresNow();
      ghost var t := TableOf();
      FreshConsistent(t);
      FreshReached(t);
      Reset(initial, startingPlayer);
      assert TableOf() == t;
    }

    /** Stores an empty round list, one snapshot, the deal with `east` and the wind east. */
    method Reset(initial: map<PlayerId, int>, east: Option<PlayerId>)
      modifies this`rounds, this`snapshots, this`finished, this`eastPlayer, this`prevailingWind
      ensures rounds == [] && snapshots == [initial] && !finished
      ensures eastPlayer == east && prevailingWind == Some(EAST)
    {
      rounds, snapshots, finished := [], [initial], false;
      eastPlayer, prevailingWind := east, Some(EAST);
    }

    /**
     * `popRound`: takes the last round off by starting afresh and adding
     * every other round again, in order. With no round it changes nothing. If
     * a replayed round meets a finished game, the source's exception stops the
     * replay there.
     */
    method PopRound() returns (r: PopResult)
      requires Valid()
      modifies this`rounds, this`snapshots, this`finished, this`eastPlayer, this`prevailingWind
      ensures Valid()
      ensures old(|rounds|) == 0 ==> r == NoRound && PlayUnchanged()
      ensures old(|rounds|) > 0 ==>
        started && startingPlayer == old(startingPlayer) && endingPlayer == old(endingPlayer)
        && AllFit(TableOf(), old(rounds)[..|old(rounds)| - 1])
        && PlayOf() == Replay(TableOf(), Fresh(TableOf()), old(rounds)[..|old(rounds)| - 1])
        && (r == Popped(old(rounds)[|old(rounds)| - 1]) <==> |rounds| == |old(rounds)| - 1)
        && (r != Popped(old(rounds)[|old(rounds)| - 1]) ==> r == ReplayRefused)
      ensures old(|rounds|) > 0 ==> Replayable()
      ensures old(Replayable()) && old(|rounds|) > 0 ==>
        r == Popped(old(rounds)[|old(rounds)| - 1])
        && Fits(TableOf(), old(rounds)[|old(rounds)| - 1])
        && Step(TableOf(), PlayOf(), old(rounds)[|old(rounds)| - 1]) == old(PlayOf())
    {
      if |rounds| == 0 {
        return NoRound;
      }
      ghost var t := TableOf();
      ghost var p := PlayOf();
      var all := ClearGame();
      assert TableOf() == t;
      r := Rebuild(t, p, all);
      assert started;
      assert startingPlayer == old(startingPlayer) && endingPlayer == old(endingPlayer);
      assert all == old(rounds);
      assert AllFit(TableOf(), old(rounds)[..|old(rounds)| - 1]);
      assert PlayOf() == Replay(TableOf(), Fresh(TableOf()), old(rounds)[..|old(rounds)| - 1]);
      assert r == Popped(old(rounds)[|old(rounds)| - 1]) <==> |rounds| == |old(rounds)| - 1;
    }

    /**
     * The second half of `popRound`: the game just cleared takes every round
     * of `all` but the last again. When the game before clearing was the
     * replay of its rounds, every round is taken and the popped round, added
     * once more, gives that game back.
     */
    method Rebuild(ghost t: Table, ghost p: Play, all: seq<RoundState>) returns (r: PopResult)
      requires Valid() && started && TableOf() == t && PlayOf() == Fresh(t)
      requires Consistent(t, p) && p.rounds == all && all != []
      modifies this`rounds, this`snapshots, this`finished, this`eastPlayer, this`prevailingWind
      ensures Valid() && started && startingPlayer == old(startingPlayer) && endingPlayer == old(endingPlayer)
      ensures TableOf() == t && AllFit(t, all[..|all| - 1])
      ensures PlayOf() == Replay(t, Fresh(t), all[..|all| - 1]) && Reached(t, PlayOf())
      ensures r == Popped(all[|all| - 1]) <==> |rounds| == |all| - 1
      ensures r != Popped(all[|all| - 1]) ==> r == ReplayRefused
      ensures Reached(t, p) ==>
        r == Popped(all[|all| - 1]) && Fits(t, all[|all| - 1]) && Step(t, PlayOf(), all[|all| - 1]) == p
    {
      var last := |all| - 1;
      if Reached(t, p) {
        PopReached(t, p);
      }
      PrefixFits(t, all, last);
      var complete := ReplayRounds(all[..last]);
      r := if complete then Popped(all[last]) else ReplayRefused;
    }

    /**
     * The promise of `popRound`: adding a round to a game that is the replay
     * of its own rounds, then popping it, hands the round back and leaves the
     * game as it was.
     */
    method AddThenPopRound(round: RoundState) returns (r: PopResult)
      requires Valid() && Replayable() && started && !finished && Fits(TableOf(), round)
      modifies this`rounds, this`snapshots, this`finished, this`eastPlayer, this`prevailingWind
      ensures Valid() && Replayable()
      ensures r == Popped(round)
      ensures TableOf() == old(TableOf()) && PlayOf() == old(PlayOf())
    {
      ghost var t := TableOf();
      ghost var p := PlayOf();
      PopUndoesAdd(t, p, round);
      var added := AddRound(round);
      assert rounds == Step(t, p, round).rounds;
      r := PopRound();
    }

    /** The loop of `popRound`: adds the rounds `rs` again, in order, to a game just cleared. */
    method ReplayRounds(rs: seq<RoundState>) returns (complete: bool)
      requires Valid() && started && AllFit(TableOf(), rs) && PlayOf() == Fresh(TableOf())
      modifies this`rounds, this`snapshots, this`finished, this`eastPlayer, this`prevailingWind
      ensures Valid() && started && startingPlayer == old(startingPlayer) && endingPlayer == old(endingPlayer)
      ensures PlayOf() == Replay(TableOf(), Fresh(TableOf()), rs) && Reached(TableOf(), PlayOf())
      ensures complete <==> |rounds| == |rs|
    {
      ghost var t := TableOf();
      FreshConsistent(t);
      ReplayReached(t, rs);
      var i := 0;
      while i < |rs|
        invariant 0 <= i <= |rs| && AllFit(t, rs[..i])
        invariant Valid() && started && TableOf() == t
        invariant PlayOf() == Replay(t, Fresh(t), rs[..i]) && |rounds| == i
      {
        var added := ReplayOne(t, rs, i);
        if !added {
          return false;
        }
        i := i + 1;
      }
      assert rs[..i] == rs;
      complete := true;
    }

    /** One pass of the loop of `popRound`: the game takes round `i` of `rs`, unless it has finished. */
    method ReplayOne(ghost t: Table, rs: seq<RoundState>, i: nat) returns (added: bool)
      requires Valid() && started && TableOf() == t && AllFit(t, rs) && i < |rs| && AllFit(t, rs[..i])
      requires PlayOf() == Replay(t, Fresh(t), rs[..i]) && |rounds| == i
      modifies this`rounds, this`snapshots, this`finished, this`eastPlayer, this`prevailingWind
      ensures Valid() && started && TableOf() == t
      ensures added ==> AllFit(t, rs[..i + 1]) && PlayOf() == Replay(t, Fresh(t), rs[..i + 1]) && |rounds| == i + 1
      ensures !added ==> PlayOf() == Replay(t, Fresh(t), rs) && |rounds| == i
    {
      FreshConsistent(t);
      ReplayFrom(t, Fresh(t), rs, i);
      var r := AddRound(rs[i]);
      added := r == Added;
    }

    /** `getPlayerWind`: walks the seats from the dealer's, stepping the wind on at each seat. */
    method GetPlayerWind(player: PlayerId) returns (w: Wind)
      requires Valid() && started && Some(player) in seating
      ensures w == PlayerWind(seating, SeatOf(seating, eastPlayer.value), player)
    {
      var index := FindPlayerIndex(eastPlayer.value);
      ghost var e := index;
      DistanceOfSeated(seating, e, player);
      AroundStep(e, false, 0);
      w := EAST;
      ghost var k := 0;
      while seats[index] != Some(player)
        invariant 0 <= k <= Distance(seating, e, player, 0) < 4
        invariant index == Around(e, false, k) && w == Advance(EAST, k)
        invariant Distance(seating, e, player, 0) == Distance(seating, e, player, k)
        decreases 4 - k
      {
        AroundStep(e, false, k);
        index := (index + 1) % seats.Length;
        w := Next(w);
        k := k + 1;
      }
    }

    /** `getPlayerScore`: the player's latest score; none where the source fails on an unseated player. */
    method GetPlayerScore(player: PlayerId) returns (r: Option<int>)
      requires Valid()
      ensures player in snapshots[|snapshots| - 1] ==> r == Some(snapshots[|snapshots| - 1][player])
      ensures player !in snapshots[|snapshots| - 1] ==> r.None?
      ensures Some(player) in seating ==> r.Some?
    {
      var current := snapshots[|snapshots| - 1];
      if player in current {
        r := Some(current[player]);
      } else {
        r := None;
      }
    }

    /** `getRoundScores`: the scores after each round, in round order. */
    method GetRoundScores() returns (r: seq<map<PlayerId, int>>)
      requires Valid()
      ensures |r| == |rounds| && r == snapshots[1..]
    {
      r := snapshots[1..];
    }

    /** `getIntialScores`. */
    method GetInitialScores() returns (r: map<PlayerId, int>)
      requires Valid()
      ensures r == snapshots[0]
    {
      r := snapshots[0];
    }

    /** `getLastRoundEndScores`: the scores now; the initial scores before any round. */
    method GetLastRoundEndScores() returns (r: map<PlayerId, int>)
      requires Valid()
      ensures r == snapshots[|rounds|]
      ensures rounds == [] ==> r == snapshots[0]
    {
      r := snapshots[|snapshots| - 1];
    }

    /** `getLastRoundStartScores`: the scores before the last round, none when there is no round. */
    method GetLastRoundStartScores() returns (r: Option<map<PlayerId, int>>)
      requires Valid()
      ensures |rounds| == 0 ==> r.None?
      ensures |rounds| > 0 ==> r == Some(snapshots[|rounds| - 1])
    {
      var index := |snapshots| - 2;
      if index < 0 {
        return None;
      }
      r := Some(snapshots[index]);
    }

    /** `getLastRound`. */
    method GetLastRound() returns (r: Option<RoundState>)
      ensures |rounds| == 0 ==> r.None?
      ensures |rounds| > 0 ==> r == Some(rounds[|rounds| - 1])
    {
      var index := |rounds| - 1;
      if index < 0 {
        return None;
      }
      r := Some(rounds[index]);
    }

    /** `getRoundCount`. */
    method GetRoundCount() returns (n: nat)
      ensures n == |rounds|
    {
      n := |rounds|;
    }
  }
}
