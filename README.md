# Mahjong scorer: hand scoring and match state

This project models, in Dafny, the core of an Android Mahjong scoring app
(Java package `house.mcintosh.mahjong`). It has two parts that work together.

**The hand-scoring engine.**

- Tiles, winds and tile groups (pair, chow, pung, kong) are values.
- A scoring scheme maps each score element to a list of score contributions. Each contribution holds a score and a hand multiplier.
- A scored group picks the score element that describes it, from its kind, tile, concealment and winds.
- A scored hand is an object that holds a list of scored groups and a set of "completed by" qualifiers. After every change it re-evaluates:
  - whether it is mahjong: 14 effective tiles and exactly one pair;
  - the whole-hand bonuses (all major, no chows, single suit, all concealed);
  - the qualifier bonuses;
  - the unlimited total, `(sum of scores) * (product of multipliers)`, and the total capped at the limit score.

**The match state machine.**

- A round holds one entry per player: whether the hand is mahjong, its limited total, and the player's seat wind. It computes what each player gains or loses.
- A game is an object with four seats, a list of rounds and a list of score snapshots. It moves the deal (East) and the prevailing wind on after each round and finishes the match.
- `popRound` undoes the last round by resetting the game and replaying the other rounds.

**How the Java constructs are modelled.**

- Value types become datatypes: `Tile`, `Group`, `ScoreContribution`, the enums, and a round's entries.
- Pure logic becomes functions with lemmas about them.
- Classes whose fields change become Dafny classes with `modifies` frames: `ScoredHand`, `Game`, `ScoreList`, `Round`, `Player` and the player registry.
- Each method is proved against a specification function:
  - `ScoredHand.UpdateScore` against `Hands.Evaluate`;
  - `Game.AddRound` against `Games.Step`;
  - `Game.PopRound` against `Games.Replay`;
  - `Round.GetPlayerScore` against `Rounds.PlayerScore`.
- The game's four seats are an `array`, mirrored by a ghost sequence.

Where the game's written rules and the code differ, the model follows the code:

- `Game.getPlayerWind` gives an empty seat a wind of its own as it walks round the table (`Seating.EmptySeatTakesAWind`).
- A four-hand round in which East wins 136 pays East 816. This is six times its total, as the round's code and its test compute (`Rounds.FourHandsEast`).

## Model

| member | source | states |
|---|---|---|
| Winds.Ordinal | app/src/main/java/house/mcintosh/mahjong/model/Wind.java:9-12 | winds are ordered EAST, SOUTH, WEST, NORTH; the ordinal is below 4 and is 0 exactly for EAST |
| Winds.FromOrdinal | app/src/main/java/house/mcintosh/mahjong/model/Wind.java:9-12 | every ordinal below 4 belongs to a wind |
| Winds.Next | app/src/main/java/house/mcintosh/mahjong/model/Wind.java:26-31 | `next` moves one ordinal on, modulo 4, and never returns the same wind |
| Winds.NextCycle | app/src/main/java/house/mcintosh/mahjong/model/Wind.java:26-31 | the cycle EAST, SOUTH, WEST, NORTH, EAST |
| Winds.NextInjective | app/src/main/java/house/mcintosh/mahjong/model/Wind.java:26-31 | different winds have different successors |
| Winds.NextOrdinal | app/src/main/java/house/mcintosh/mahjong/model/Wind.java:26-31 | `next` wraps from ordinal 3 back to 0 |
| Winds.AdvanceEastOrdinal | app/src/main/java/house/mcintosh/mahjong/model/Wind.java:26-31 | k steps on from EAST reach the wind with ordinal k |
| Winds.OrdinalInjective | app/src/main/java/house/mcintosh/mahjong/model/Wind.java:9-12 | the ordinal identifies the wind |
| Winds.NextFourTimes | app/src/main/java/house/mcintosh/mahjong/model/Wind.java:26-31 | four steps of `next` return to the starting wind |
| Winds.AdvanceEastInjective | app/src/main/java/house/mcintosh/mahjong/model/Wind.java:26-31 | fewer than four steps from EAST never reach the same wind twice |
| Tiles.SuitOrdinal | app/src/main/java/house/mcintosh/mahjong/model/Tile.java:22-32 | the three suits in declaration order |
| Tiles.DragonOrdinal | app/src/main/java/house/mcintosh/mahjong/model/Tile.java:51-61 | the three dragons in declaration order |
| Tiles.TypeOrdinal | app/src/main/java/house/mcintosh/mahjong/model/Tile.java:63-73 | the tile types DRAGON, WIND, SUIT in declaration order |
| Tiles.NumberOrdinal | app/src/main/java/house/mcintosh/mahjong/model/Tile.java:34-49 | the nine numbers in declaration order |
| Tiles.NumberAt | app/src/main/java/house/mcintosh/mahjong/model/Tile.java:34-49 | every ordinal below 9 is a number's ordinal |
| Tiles.NumberOrdinalInjective | app/src/main/java/house/mcintosh/mahjong/model/Tile.java:34-49 | the ordinal identifies the number |
| Tiles.NextNumber | app/src/main/java/house/mcintosh/mahjong/model/Tile.java:45-48 | `next` is the number one ordinal higher; NINE has none |
| Tiles.NewSuitTile | app/src/main/java/house/mcintosh/mahjong/model/Tile.java:90-93 | a suit tile has its suit and number, type SUIT, and no wind or dragon |
| Tiles.NewWindTile | app/src/main/java/house/mcintosh/mahjong/model/Tile.java:95-98 | a wind tile has its wind, type WIND, and no suit, number or dragon |
| Tiles.NewDragonTile | app/src/main/java/house/mcintosh/mahjong/model/Tile.java:100-103 | a dragon tile has its dragon, type DRAGON, and no suit, number or wind |
| Tiles.IsMajor | app/src/main/java/house/mcintosh/mahjong/model/Tile.java:130-147 | honours are major; a suit tile is major exactly when it is a ONE or a NINE |
| Tiles.CreateNextNumber | app/src/main/java/house/mcintosh/mahjong/model/Tile.java:149-158 | the next tile keeps the suit and is one number higher |
| Tiles.EqualsIsIdentity | app/src/main/java/house/mcintosh/mahjong/model/Tile.java:160-172 | `equals` holds exactly for identical tiles, and never across tile types |
| Tiles.Decode | app/src/main/java/house/mcintosh/mahjong/model/Tile.java:216-228 | a tile record decodes exactly when it names a dragon, a wind, or a suit together with a number; a dragon is tried first |
| Tiles.DecodeEncode | app/src/main/java/house/mcintosh/mahjong/model/Tile.java:193-228 | decoding an encoded tile gives the tile back |
| Groups.HandSizeOfTypes | app/src/main/java/house/mcintosh/mahjong/model/Group.java:19-39 | sizes 2, 3, 3, 4; a kong counts as 3 tiles in a hand and every other group as its size |
| Groups.FirstTile | app/src/main/java/house/mcintosh/mahjong/model/Group.java:128-131 | the first tile of the group's tile list |
| Groups.AddIdenticalTiles | app/src/main/java/house/mcintosh/mahjong/model/Group.java:138-142 | appends `size` copies of the tile, and nothing when `size` is not positive |
| Groups.ChowAnchor | app/src/main/java/house/mcintosh/mahjong/model/Group.java:144-151 | a chow starts at its tile, or at SEVEN of the same suit when given EIGHT or NINE |
| Groups.ChowTiles | app/src/main/java/house/mcintosh/mahjong/model/Group.java:144-158 | a chow is a run of three consecutive numbers in one suit, starting at the anchor |
| Groups.NewGroup | app/src/main/java/house/mcintosh/mahjong/model/Group.java:66-90 | pairs and chows are always exposed; pungs and kongs take the given visibility; the tiles are copies of the tile or a run |
| Groups.NewGroupDefault | app/src/main/java/house/mcintosh/mahjong/model/Group.java:92-106 | without a visibility a pair, or a chow of a suit tile, is built exposed; a pung or kong is the "Visibility required" error, and a chow of an honour tile (which has no next number) is the `NoChowNumber` error |
| Groups.ToggleVisibility | app/src/main/java/house/mcintosh/mahjong/scoring/ScoredGroup.java:57-65 | the same kind and tiles with the concealment flipped |
| Groups.ToggleTwice | app/src/main/java/house/mcintosh/mahjong/scoring/ScoredGroup.java:57-65 | toggling twice gives the group back |
| Groups.Decode | app/src/main/java/house/mcintosh/mahjong/model/Group.java:172-179 | a decoded group is rebuilt by the constructor, so it is well formed and of the stored kind |
| Groups.DecodeEncodeNew | app/src/main/java/house/mcintosh/mahjong/model/Group.java:160-179 | storing and reloading a constructed group gives the same group |
| Groups.ChowStoredFromSeven | app/src/main/java/house/mcintosh/mahjong/model/Group.java:144-170 | a chow built from an EIGHT or a NINE is stored from its SEVEN |
| Groups.ConcealedPairDecodesExposed | app/src/main/java/house/mcintosh/mahjong/model/Group.java:66-90 | a pair toggled to concealed is reloaded as exposed, because the constructor forces pairs exposed |
| GroupOrder.CompareAgreesWithRank | app/src/main/java/house/mcintosh/mahjong/model/SetComparator.java:13-72 | the comparator's sign agrees with an integer rank of each group |
| GroupOrder.CompareAntisymmetric | app/src/main/java/house/mcintosh/mahjong/model/SetComparator.java:13-72 | compare(a, b) is minus compare(b, a) |
| GroupOrder.CompareTransitive | app/src/main/java/house/mcintosh/mahjong/model/SetComparator.java:13-72 | the comparator is transitive, so sorting with it is well defined |
| GroupOrder.PairsLast | app/src/main/java/house/mcintosh/mahjong/model/SetComparator.java:13-29 | every pair sorts after every group that is not a pair |
| GroupOrder.TileTypeOrder | app/src/main/java/house/mcintosh/mahjong/model/SetComparator.java:31-39 | groups of different tile types sort dragons, then winds, then suits |
| GroupOrder.HonourOrder | app/src/main/java/house/mcintosh/mahjong/model/SetComparator.java:41-48 | dragon groups sort by dragon, and wind groups by wind |
| GroupOrder.SuitOrder | app/src/main/java/house/mcintosh/mahjong/model/SetComparator.java:53-71 | suit groups sort by suit; within a suit pungs and kongs precede chows; otherwise by number |
| GroupOrder.PungKongTie | app/src/main/java/house/mcintosh/mahjong/model/SetComparator.java:31-72 | a pung and a kong of the same tile compare equal |
| GroupOrder.InsertPosition | app/src/main/java/house/mcintosh/mahjong/scoring/ScoredHand.java:93-94 | the new group goes after every group whose key is not larger, and before the first larger one |
| GroupOrder.InsertAt | app/src/main/java/house/mcintosh/mahjong/scoring/ScoredHand.java:93-94 | inserting places the group at that position and keeps the others in order |
| GroupOrder.InsertKeepsSorted | app/src/main/java/house/mcintosh/mahjong/scoring/ScoredHand.java:93-94 | inserting into a sorted hand keeps it sorted |
| GroupOrder.InsertAddsOne | app/src/main/java/house/mcintosh/mahjong/scoring/ScoredHand.java:93-94 | inserting adds exactly the new group: the result is a permutation of the old groups plus it |
| GroupOrder.InsertSorted | app/src/main/java/house/mcintosh/mahjong/scoring/ScoredHand.java:93-94 | sorted and a permutation together: what the stable sort after `add` produces |
| GroupOrder.InsertStable | app/src/main/java/house/mcintosh/mahjong/scoring/ScoredHand.java:93-94 | the old groups keep their relative order around the inserted group |
| GroupOrder.DisplayOrderExample | app/src/test/java/house/mcintosh/mahjong/scoring/TestScoredHand.java:41-57 | the seventeen groups of the display-order example are well formed |
| GroupOrder.RankOfNew | app/src/main/java/house/mcintosh/mahjong/model/SetComparator.java:31-72 | the rank of a constructed group is the key of its kind and first tile |
| GroupOrder.ExampleRanksMatch | app/src/test/java/house/mcintosh/mahjong/scoring/TestScoredHand.java:41-57 | the ranks of the example groups are the listed values |
| GroupOrder.ExampleRankAt | app/src/test/java/house/mcintosh/mahjong/scoring/TestScoredHand.java:41-57 | each group of the example, built by the constructor, has the rank that its place in the expected order calls for |
| GroupOrder.DisplayOrderExampleSorted | app/src/test/java/house/mcintosh/mahjong/scoring/TestScoredHand.java:309-322 | the example list is in strictly increasing display order, as the test expects of every sorted hand |
| ScoreElements.DescriptionDeterminesElement | app/src/main/java/house/mcintosh/mahjong/scoring/ScoringScheme.java:23-97 | the kind, tile type, concealment, majorness and wind role of a group element identify it |
| ScoreElements.DescriptionRoundTrip | app/src/main/java/house/mcintosh/mahjong/scoring/ScoringScheme.java:23-97 | every group element is the element built from its own description |
| ScoreElements.RoundTripPair | app/src/main/java/house/mcintosh/mahjong/scoring/ScoringScheme.java:27-31 | the pair elements are determined by their description |
| ScoreElements.RoundTripChow | app/src/main/java/house/mcintosh/mahjong/scoring/ScoringScheme.java:33 | the chow element is determined by its description |
| ScoreElements.RoundTripPung | app/src/main/java/house/mcintosh/mahjong/scoring/ScoringScheme.java:35-53 | the pung elements are determined by their description |
| ScoreElements.RoundTripKong | app/src/main/java/house/mcintosh/mahjong/scoring/ScoringScheme.java:55-73 | the kong elements are determined by their description |
| Contributions.New | app/src/main/java/house/mcintosh/mahjong/scoring/ScoreContribution.java:22-33 | a negative score and a multiplier below 1 are rejected, in that order; otherwise the contribution holds exactly the given values |
| Contributions.Encode | app/src/main/java/house/mcintosh/mahjong/scoring/ScoreContribution.java:60-73 | a zero score and a multiplier of 1 are left out of the record |
| Contributions.Decode | app/src/main/java/house/mcintosh/mahjong/scoring/ScoreContribution.java:75-82 | a decoded contribution is valid; absent values default to score 0 and multiplier 1 |
| Contributions.DecodeEncode | app/src/main/java/house/mcintosh/mahjong/scoring/ScoreContribution.java:60-82 | decoding an encoded valid contribution gives it back |
| ScoreLists.EmptyTotal | app/src/main/java/house/mcintosh/mahjong/scoring/ScoreList.java:11-23 | an empty list totals 0 |
| ScoreLists.SumAppend | app/src/main/java/house/mcintosh/mahjong/scoring/ScoreList.java:45-56 | appending a list adds its scores to the sum |
| ScoreLists.ProductAppend | app/src/main/java/house/mcintosh/mahjong/scoring/ScoreList.java:45-56 | appending a list multiplies the product by its multipliers |
| ScoreLists.TotalAppend | app/src/main/java/house/mcintosh/mahjong/scoring/ScoreList.java:45-56 | the total of two appended lists is their joint sum times their joint product |
| ScoreLists.SumLast | app/src/main/java/house/mcintosh/mahjong/scoring/ScoreList.java:33-43 | appending one contribution adds its score and multiplies by its multiplier |
| ScoreLists.SumProductBounds | app/src/main/java/house/mcintosh/mahjong/scoring/ScoreList.java:11-23 | over valid contributions the sum is at least 0 and the product at least 1 |
| ScoreLists.TotalNonNegative | app/src/main/java/house/mcintosh/mahjong/scoring/ScoreList.java:11-23 | a total of valid contributions is never negative |
| ScoreLists.SumSplitAt | app/src/main/java/house/mcintosh/mahjong/scoring/ScoreList.java:11-23 | removing one contribution takes exactly its score from the sum |
| ScoreLists.ProductSplitAt | app/src/main/java/house/mcintosh/mahjong/scoring/ScoreList.java:11-23 | removing one contribution divides the product by exactly its multiplier |
| ScoreLists.TotalPermutation | app/src/main/java/house/mcintosh/mahjong/scoring/ScoreList.java:11-23 | the total does not depend on the order of the contributions |
| ScoreLists.HasScoreMeansEffect | app/src/main/java/house/mcintosh/mahjong/scoring/ScoreContribution.java:45-48 | a contribution without score or multiplier changes no total; one with either changes some total |
| ScoreLists.NoScoreNoChange | app/src/main/java/house/mcintosh/mahjong/scoring/ScoreContribution.java:45-48 | score 0 and multiplier 1 leave every total as it was |
| ScoreLists.ScoreChangesSinglePoint | app/src/main/java/house/mcintosh/mahjong/scoring/ScoreContribution.java:45-48 | a contribution that has a score changes the total of a one-point list |
| ScoreLists.ComputeTotal | app/src/main/java/house/mcintosh/mahjong/scoring/ScoreList.java:11-23 | the loop returns the sum of scores times the product of multipliers |
| ScoreLists.ScoreList.constructor | app/src/main/java/house/mcintosh/mahjong/scoring/ScoreList.java:5-9 | a new list is empty and is not the shared EMPTY list |
| ScoreLists.ScoreList.Empty | app/src/main/java/house/mcintosh/mahjong/scoring/ScoreList.java:9 | the shared EMPTY list is empty and refuses changes |
| ScoreLists.ScoreList.GetTotal | app/src/main/java/house/mcintosh/mahjong/scoring/ScoreList.java:11-23 | `getTotal` is the total of the contributions |
| ScoreLists.ScoreList.Add | app/src/main/java/house/mcintosh/mahjong/scoring/ScoreList.java:25-28 | `add` is always unsupported |
| ScoreLists.ScoreList.Append | app/src/main/java/house/mcintosh/mahjong/scoring/ScoreList.java:33-43 | EMPTY refuses; any other list gains the contribution at its end |
| ScoreLists.ScoreList.AppendList | app/src/main/java/house/mcintosh/mahjong/scoring/ScoreList.java:45-56 | EMPTY refuses; any other list gains the other list's contributions in order, and the other list is unchanged; a non-empty list appended to itself gains its first item and then reports the concurrent modification its iterator raises |
| Schemes.NewScheme | app/src/main/java/house/mcintosh/mahjong/scoring/ScoringScheme.java:133-135 | a new scheme has hand size 14, limit 1000 and initial score 2000 |
| Schemes.NoScoreNoEffect | app/src/main/java/house/mcintosh/mahjong/scoring/ScoringScheme.java:166-175 | an element whose contributions all lack a score leaves every total unchanged |
| Schemes.CollectLaterWins | app/src/main/java/house/mcintosh/mahjong/scoring/ScoringScheme.java:226-235 | loading keeps one contribution per element: the last one listed |
| Schemes.CollectValid | app/src/main/java/house/mcintosh/mahjong/scoring/ScoringScheme.java:226-235 | every collected contribution is valid and filed under its own element |
| Schemes.TableShape | app/src/main/java/house/mcintosh/mahjong/scoring/ScoringScheme.java:237-304 | the table has an entry for every element except the four wind multipliers; wind pungs and kongs get their multipliers appended |
| Schemes.TableKeys | app/src/main/java/house/mcintosh/mahjong/scoring/ScoringScheme.java:237-304 | exactly the elements that are not multipliers have a table entry |
| Schemes.TableEntry | app/src/main/java/house/mcintosh/mahjong/scoring/ScoringScheme.java:247-284 | an own-wind or prevailing-wind element's list is its own contribution followed by the matching multipliers |
| Schemes.DecodeAll | app/src/main/java/house/mcintosh/mahjong/scoring/ScoringScheme.java:228-235 | all records decode, in order, or the first failure is reported |
| Schemes.CollectContributions | app/src/main/java/house/mcintosh/mahjong/scoring/ScoringScheme.java:226-235 | the loading loop returns the collected map, or the decoding error |
| Schemes.DecodeAllFailsOnPrefix | app/src/main/java/house/mcintosh/mahjong/scoring/ScoringScheme.java:228-235 | a failure among the first records is the failure of the whole load |
| Schemes.FromRecord | app/src/main/java/house/mcintosh/mahjong/scoring/ScoringScheme.java:215-307 | a load fails exactly when a contribution fails to decode (with that error) or some element has no contribution (`MissingContribution`); a loaded scheme's table is the one the `addScoreContribution` and `append` calls build from each element's last decoded contribution (`Table`), is well formed, and keeps the record's hand size, limit and initial score |
| ScoredGroups.PairDescribes | app/src/main/java/house/mcintosh/mahjong/scoring/ScoredGroup.java:72-94 | a pair is scored by the element describing its tile type and wind role |
| ScoredGroups.ChowDescribes | app/src/main/java/house/mcintosh/mahjong/scoring/ScoredGroup.java:96-107 | a chow is scored by ChowSuitScore |
| ScoredGroups.PungDescribes | app/src/main/java/house/mcintosh/mahjong/scoring/ScoredGroup.java:109-144 | a pung is scored by the element describing its concealment, majorness and wind role |
| ScoredGroups.KongDescribes | app/src/main/java/house/mcintosh/mahjong/scoring/ScoredGroup.java:146-181 | a kong is scored by the element describing its concealment, majorness and wind role |
| ScoredGroups.ElementDescribesGroup | app/src/main/java/house/mcintosh/mahjong/scoring/ScoredGroup.java:27-55 | every well-formed group has an element that describes it, and that element is not a multiplier |
| ScoredGroups.ElementUnique | app/src/main/java/house/mcintosh/mahjong/scoring/ScoredGroup.java:27-55 | the element chosen is the only one that describes the group |
| ScoredGroups.GroupScore | app/src/main/java/house/mcintosh/mahjong/scoring/ScoredGroup.java:27-55 | a group's score list is made of valid contributions |
| ScoredGroups.ToggleChangesOnlyConcealment | app/src/main/java/house/mcintosh/mahjong/scoring/ScoredGroup.java:57-65 | toggling visibility changes the concealment of the element and nothing else in its description |
| ScoredGroups.ScoredGroup.constructor | app/src/main/java/house/mcintosh/mahjong/scoring/ScoredGroup.java:27-55 | the scored group keeps its group, scheme and winds, and its score is the scheme's list for its element |
| ScoredGroups.ScoredGroup.ToggleVisibility | app/src/main/java/house/mcintosh/mahjong/scoring/ScoredGroup.java:57-65 | a new scored group with visibility flipped and the same scheme and winds |
| Hands.QualifierElements | app/src/main/java/house/mcintosh/mahjong/scoring/ScoredHand.java:36-56 | every qualifier is listed, names a whole-hand element that is not a multiplier, and no two share an element |
| Hands.QualifierWholeHand | app/src/main/java/house/mcintosh/mahjong/scoring/ScoredHand.java:36-56 | qualifier elements are whole-hand elements, distinct from the mahjong bonuses except for the concealed pair |
| Hands.QualifierNoKind | app/src/main/java/house/mcintosh/mahjong/scoring/ScoredHand.java:36-56 | no qualifier element scores a group |
| Hands.QualifierNotMultiplier | app/src/main/java/house/mcintosh/mahjong/scoring/ScoredHand.java:36-56 | no qualifier element is a wind multiplier |
| Hands.QualifierNotGroupBonus | app/src/main/java/house/mcintosh/mahjong/scoring/ScoredHand.java:36-56 | apart from the concealed pair, no qualifier shares an element with a mahjong bonus |
| Hands.QualifierInjective | app/src/main/java/house/mcintosh/mahjong/scoring/ScoredHand.java:36-56 | qualifiers with the same element are the same qualifier |
| Hands.FirstPair | app/src/main/java/house/mcintosh/mahjong/scoring/ScoredHand.java:176-182 | the position of the first pair, or the hand's length when there is none |
| Hands.IndexOf | app/src/main/java/house/mcintosh/mahjong/scoring/ScoredHand.java:122-128 | the first position of the group, or -1 when it is not in the hand |
| Hands.RemoveFirst | app/src/main/java/house/mcintosh/mahjong/scoring/ScoredHand.java:114-120 | removing by value takes out one occurrence, or nothing when the group is absent |
| Hands.EvaluateTotals | app/src/main/java/house/mcintosh/mahjong/scoring/ScoredHand.java:368-373 | the unlimited total is the total of the group and whole-hand lists and is not negative; the limited total is the smaller of it and the limit |
| Hands.QualifierBonusesMembers | app/src/main/java/house/mcintosh/mahjong/scoring/ScoredHand.java:347-366 | an element is a qualifier bonus exactly when a set qualifier of the right mahjong kind names it |
| Hands.BonusesIff | app/src/main/java/house/mcintosh/mahjong/scoring/ScoredHand.java:289-366 | each mahjong bonus is scored exactly when the hand is mahjong and its condition holds; each qualifier exactly when set and of the hand's mahjong kind |
| Hands.NoGroupBonusFromQualifiers | app/src/main/java/house/mcintosh/mahjong/scoring/ScoredHand.java:36-56 | without the concealed pair, qualifiers never contribute a mahjong bonus element |
| Hands.QualifierBonusIff | app/src/main/java/house/mcintosh/mahjong/scoring/ScoredHand.java:347-366 | a qualifier's element is scored exactly when the qualifier is set and matches the hand's mahjong state |
| Hands.EvaluateOrderFree | app/src/main/java/house/mcintosh/mahjong/scoring/ScoredHand.java:257-374 | the evaluation depends only on which groups the hand holds, not on their order |
| Hands.GroupBonusesSameMembers | app/src/main/java/house/mcintosh/mahjong/scoring/ScoredHand.java:296-342 | the mahjong bonuses depend only on the set of groups |
| Hands.EvaluateQualifierOrderFree | app/src/main/java/house/mcintosh/mahjong/scoring/ScoredHand.java:347-366 | the total does not depend on the order in which the qualifier set is iterated |
| Hands.QualifierBonusesPermutation | app/src/main/java/house/mcintosh/mahjong/scoring/ScoredHand.java:347-366 | iterating the qualifiers in any order yields the same bonuses, permuted |
| Hands.PairCountBounds | app/src/main/java/house/mcintosh/mahjong/scoring/ScoredHand.java:268-276 | the pair count is at least the number of pairs seen |
| Hands.NoPairCount | app/src/main/java/house/mcintosh/mahjong/scoring/ScoredHand.java:268-276 | a hand without pairs counts none |
| Hands.PairDecidesAllConcealed | app/src/main/java/house/mcintosh/mahjong/scoring/ScoredHand.java:301-342 | when the pair's concealment is needed, the hand is all concealed exactly when its first pair is |
| Hands.UnscoredIsEmptyHand | app/src/main/java/house/mcintosh/mahjong/scoring/ScoredHand.java:257-287 | an empty hand is not mahjong and scores nothing |
| Hands.CapacityOfMahjong | app/src/main/java/house/mcintosh/mahjong/scoring/ScoredHand.java:433-454 | capacity is never negative, is 0 for a mahjong hand, and is positive only below the hand size |
| Hands.AddedGroups | app/src/main/java/house/mcintosh/mahjong/scoring/ScoredHand.java:86-99 | adding keeps the groups well formed and sorted, and adds exactly one group |
| Hands.RemovedGroups | app/src/main/java/house/mcintosh/mahjong/scoring/ScoredHand.java:101-112 | removing by position keeps the groups well formed and sorted |
| Hands.RemoveFirstGroups | app/src/main/java/house/mcintosh/mahjong/scoring/ScoredHand.java:114-120 | removing by value keeps the groups well formed and sorted |
| Hands.ScoredHand.constructor | app/src/main/java/house/mcintosh/mahjong/scoring/ScoredHand.java:75-84 | a new hand is empty, has no qualifiers and no latest addition, and scores nothing |
| Hands.ScoredHand.AppendQualifierScores | app/src/main/java/house/mcintosh/mahjong/scoring/ScoredHand.java:347-366 | the loop appends the lists of the qualifiers that apply, in qualifier order |
| Hands.ScoredHand.ScanGroups | app/src/main/java/house/mcintosh/mahjong/scoring/ScoredHand.java:268-276 | the first pass yields the group scores, the effective tile count and the pair count |
| Hands.ScoredHand.ScanMahjongGroups | app/src/main/java/house/mcintosh/mahjong/scoring/ScoredHand.java:296-327 | the second pass yields all major, no chow, the suits, all concealed and all non-pairs concealed |
| Hands.ScoredHand.MahjongBonusScores | app/src/main/java/house/mcintosh/mahjong/scoring/ScoredHand.java:291-342 | the mahjong bonus lists, and whether the pair's concealment must be asked for |
| Hands.ScoredHand.ComputeEvaluation | app/src/main/java/house/mcintosh/mahjong/scoring/ScoredHand.java:257-374 | the computed scores equal the specification `Evaluate` of the groups and qualifiers |
| Hands.ScoredHand.UpdateScore | app/src/main/java/house/mcintosh/mahjong/scoring/ScoredHand.java:257-374 | the cached scores become the evaluation of the hand; groups and qualifiers are untouched |
| Hands.ScoredHand.Add | app/src/main/java/house/mcintosh/mahjong/scoring/ScoredHand.java:86-99 | the group is added (in display order when sorting), becomes the latest addition, and the scores are re-evaluated |
| Hands.ScoredHand.Remove | app/src/main/java/house/mcintosh/mahjong/scoring/ScoredHand.java:101-112 | the group at the position is removed and returned; the latest addition is forgotten if it was that group |
| Hands.ScoredHand.ReplaceLatestAddition | app/src/main/java/house/mcintosh/mahjong/scoring/ScoredHand.java:114-120 | the first occurrence of the latest addition is removed, and the new group is added |
| Hands.ScoredHand.SetMahjongCompletedBy | app/src/main/java/house/mcintosh/mahjong/scoring/ScoredHand.java:164-202 | a qualifier is set or cleared; the concealed-pair qualifier toggles the first pair instead and reports whether tiles changed |
| Hands.ScoredHand.FindFirstPair | app/src/main/java/house/mcintosh/mahjong/scoring/ScoredHand.java:176-182 | the search loop stops at the first pair |
| Hands.ScoredHand.TogglePair | app/src/main/java/house/mcintosh/mahjong/scoring/ScoredHand.java:184-192 | the first pair is replaced in place by its toggled copy |
| Hands.ScoredHand.IsPairConcealed | app/src/main/java/house/mcintosh/mahjong/scoring/ScoredHand.java:224-233 | whether the first pair is concealed (false with no pair); it decides all concealed when that is asked for |
| Hands.ScoredHand.GetAvailableTileCapacity | app/src/main/java/house/mcintosh/mahjong/scoring/ScoredHand.java:433-454 | tiles still addable: the hand size less the tiles held, one fewer with two pairs, never negative |
| Hands.ScoredHand.GetLatestAdditionPosition | app/src/main/java/house/mcintosh/mahjong/scoring/ScoredHand.java:122-128 | the position of the latest addition, or -1 when there is none or it has gone |
| Players.Player.constructor | app/src/main/java/house/mcintosh/mahjong/model/Player.java:28-32 | a player holds the given name and id |
| Players.Player.SetName | app/src/main/java/house/mcintosh/mahjong/model/Player.java:92-101 | only the name changes, so equality and hash are unaffected |
| Players.HashAgreesWithSame | app/src/main/java/house/mcintosh/mahjong/model/Player.java:68-85 | equal players hash alike, and players with different ids are never equal |
| Players.IndexOfId | app/src/main/java/house/mcintosh/mahjong/model/Player.java:59-66 | the first registered player with the id, or -1 |
| Players.FindsOwnPosition | app/src/main/java/house/mcintosh/mahjong/model/Player.java:59-66 | with unique ids every player is found at its own position |
| Players.AddUnseen | app/src/main/java/house/mcintosh/mahjong/model/Player.java:37-50 | registering a player under a new id keeps ids unique and makes it findable |
| Players.Registry.constructor | app/src/main/java/house/mcintosh/mahjong/model/Player.java:17-18 | the registry starts empty |
| Players.Registry.FromRecord | app/src/main/java/house/mcintosh/mahjong/model/Player.java:37-50 | loading returns the registered player with the id, or registers and returns a new one |
| Players.Registry.Get | app/src/main/java/house/mcintosh/mahjong/model/Player.java:59-66 | the registered player with the id, or the "Cannot find player" error |
| Players.LoadThenGet | app/src/main/java/house/mcintosh/mahjong/model/Player.java:37-66 | looking up a registered player's id yields that player |
| Rounds.IndexOfPlayer | app/src/main/java/house/mcintosh/mahjong/model/Round.java:227-230 | the entry of the player, or -1 exactly when the player has no hand |
| Rounds.LookupOwn | app/src/main/java/house/mcintosh/mahjong/model/Round.java:77-85 | with one entry per player, each entry is the one looked up for its player |
| Rounds.PutReplaces | app/src/main/java/house/mcintosh/mahjong/model/Round.java:30-36 | `addHand` keeps one entry per player, replaces the player's entry, and leaves the others alone |
| Rounds.MahjongPlayers | app/src/main/java/house/mcintosh/mahjong/model/Round.java:54-70 | the players listed are exactly those with a mahjong hand |
| Rounds.AtMostOneWinner | app/src/main/java/house/mcintosh/mahjong/model/Round.java:54-58 | at most one mahjong player means no two mahjong entries |
| Rounds.TransferAntisymmetric | app/src/main/java/house/mcintosh/mahjong/model/Round.java:137-184 | unless both hands are mahjong, what one player gains from another the other loses |
| Rounds.SettlementsCancel | app/src/main/java/house/mcintosh/mahjong/model/Round.java:137-184 | with at most one mahjong hand, all settlements of a round cancel out |
| Rounds.ScoreSumIsReceived | app/src/main/java/house/mcintosh/mahjong/model/Round.java:123-135 | outside two-hand rounds, the players' scores add up to the settlements they receive |
| Rounds.ZeroSum | app/src/main/java/house/mcintosh/mahjong/model/Round.java:123-220 | a round with exactly one mahjong hand is zero-sum |
| Rounds.WinnerCollects | app/src/main/java/house/mcintosh/mahjong/model/Round.java:143-161 | the mahjong player never loses in a three- or four-hand round |
| Rounds.Round.constructor | app/src/main/java/house/mcintosh/mahjong/model/Round.java:25-28 | a new round has its prevailing wind and no entries |
| Rounds.Round.AddHand | app/src/main/java/house/mcintosh/mahjong/model/Round.java:30-36 | records the hand's outcome and wind, replacing any earlier entry of the player |
| Rounds.Round.FindEntry | app/src/main/java/house/mcintosh/mahjong/model/Round.java:77-85 | the search finds the player's entry, or -1 |
| Rounds.Round.IsEmpty | app/src/main/java/house/mcintosh/mahjong/model/Round.java:38-44 | true exactly when no player has a hand |
| Rounds.Round.GetHandCount | app/src/main/java/house/mcintosh/mahjong/model/Round.java:46-52 | the number of entries |
| Rounds.Round.GetMahjongPlayers | app/src/main/java/house/mcintosh/mahjong/model/Round.java:54-70 | the players with a mahjong hand, in entry order |
| Rounds.Round.HasHandForPlayer | app/src/main/java/house/mcintosh/mahjong/model/Round.java:227-230 | whether the player has an entry |
| Rounds.Round.HasHandForAll | app/src/main/java/house/mcintosh/mahjong/model/Round.java:222-225 | whether every given player has an entry |
| Rounds.Round.GetPlayerScore | app/src/main/java/house/mcintosh/mahjong/model/Round.java:123-135 | what the player gains or loses: the two-hand rule for two entries, otherwise the sum of settlements |
| Rounds.Round.ThreeFourPlayerScore | app/src/main/java/house/mcintosh/mahjong/model/Round.java:137-184 | the loop sums the player's settlement with every other entry |
| Rounds.FourHands | app/src/test/java/house/mcintosh/mahjong/model/TestRound.java:20-30 | the four-hand fixture has four entries for distinct players |
| Rounds.FourHandScore | app/src/main/java/house/mcintosh/mahjong/model/Round.java:137-184 | in a four-hand round a player's score is its four settlements |
| Rounds.FourPlayerFixture | app/src/test/java/house/mcintosh/mahjong/model/TestRound.java:34-43 | East winning 136 gains 816; the others' scores are as listed, and all add to zero |
| Rounds.FourHandsEast | app/src/test/java/house/mcintosh/mahjong/model/TestRound.java:39 | East's score in the fixture |
| Rounds.FourHandsSouth | app/src/test/java/house/mcintosh/mahjong/model/TestRound.java:40 | South's score in the fixture |
| Rounds.FourHandsWest | app/src/test/java/house/mcintosh/mahjong/model/TestRound.java:41 | West's score in the fixture |
| Rounds.FourHandsNorth | app/src/test/java/house/mcintosh/mahjong/model/TestRound.java:42 | North's score in the fixture |
| Rounds.TwoPlayerFixture | app/src/test/java/house/mcintosh/mahjong/model/TestRound.java:109-130 | West winning 136 against East's 2 gains 270 and East loses 270 |
| Seating.Occupants | app/src/main/java/house/mcintosh/mahjong/model/Game.java:196-207 | the seated players in seat order, skipping empty seats |
| Seating.SeatedSet | app/src/main/java/house/mcintosh/mahjong/model/Game.java:196-207 | exactly the players in some seat |
| Seating.SeatedAfterFill | app/src/main/java/house/mcintosh/mahjong/model/Game.java:171-186 | filling an empty seat adds exactly its player |
| Seating.Occupied | app/src/main/java/house/mcintosh/mahjong/model/Game.java:171-186 | the occupied-seat count is the number of seated players |
| Seating.SeatOf | app/src/main/java/house/mcintosh/mahjong/model/Game.java:503-510 | the first seat holding the player, or -1 ("Player not found") |
| Seating.SeatOfFirst | app/src/main/java/house/mcintosh/mahjong/model/Game.java:503-510 | no earlier seat holds the player |
| Seating.StepsToOccupied | app/src/main/java/house/mcintosh/mahjong/model/Game.java:298-308 | the number of steps round the table to the next occupied seat |
| Seating.Neighbour | app/src/main/java/house/mcintosh/mahjong/model/Game.java:298-308 | the next occupied seat round the table, in either direction |
| Seating.NeighbourOccupied | app/src/main/java/house/mcintosh/mahjong/model/Game.java:298-308 | the seat found is occupied, every seat passed is empty, and it is the starting seat only when one player is seated |
| Seating.OnlyOneOccupied | app/src/main/java/house/mcintosh/mahjong/model/Game.java:483-501 | if every other seat is empty, one seat is occupied |
| Seating.NextPlayer | app/src/main/java/house/mcintosh/mahjong/model/Game.java:298-310 | the next dealer is a seated player |
| Seating.PreviousPlayer | app/src/main/java/house/mcintosh/mahjong/model/Game.java:483-501 | the ending player is a seated player |
| Seating.Distance | app/src/main/java/house/mcintosh/mahjong/model/Game.java:438-453 | the number of seats walked from the dealer, empty ones included, before reaching the player |
| Seating.DistanceOfSeated | app/src/main/java/house/mcintosh/mahjong/model/Game.java:438-453 | a seated player is reached before going round the table |
| Seating.DealerIsEast | app/src/main/java/house/mcintosh/mahjong/model/Game.java:438-453 | the dealer's own wind is EAST |
| Seating.DistancesDiffer | app/src/main/java/house/mcintosh/mahjong/model/Game.java:438-453 | two seated players lie at different distances from the dealer |
| Seating.WindsDiffer | app/src/main/java/house/mcintosh/mahjong/model/Game.java:438-453 | no two seated players share a wind |
| Seating.WindOrdinal | app/src/main/java/house/mcintosh/mahjong/model/Game.java:438-453 | a player's wind ordinal is the number of seats from the dealer |
| Seating.EmptySeatTakesAWind | app/src/main/java/house/mcintosh/mahjong/model/Game.java:438-453 | an empty seat between the dealer and a player uses up a wind |
| Seating.RotateKeepsPlayers | app/src/main/java/house/mcintosh/mahjong/model/Game.java:209-216 | rotating the seats keeps the same players and the same count |
| Games.Step | app/src/main/java/house/mcintosh/mahjong/model/Game.java:256-314 | a round adds one round and one snapshot and keeps the game playable |
| Games.NextScoresPointwise | app/src/main/java/house/mcintosh/mahjong/model/Game.java:268-282 | the snapshot after a round gives each seated player its score plus its round score |
| Games.NextScoresGrow | app/src/main/java/house/mcintosh/mahjong/model/Game.java:271-280 | one step of the scoring loop keeps the partial snapshot right for the seats seen |
| Games.InitialScoresPointwise | app/src/main/java/house/mcintosh/mahjong/model/Game.java:327-333 | the initial snapshot gives every seated player the initial score |
| Games.StepFromParts | app/src/main/java/house/mcintosh/mahjong/model/Game.java:256-314 | a round's result is the new scores together with the moved deal, and it keeps the game consistent |
| Games.FreshConsistent | app/src/main/java/house/mcintosh/mahjong/model/Game.java:316-338 | the reset game is consistent |
| Games.Replay | app/src/main/java/house/mcintosh/mahjong/model/Game.java:345-367 | replaying rounds keeps the game playable |
| Games.DealerWinKeepsDeal | app/src/main/java/house/mcintosh/mahjong/model/Game.java:286-288 | a winning dealer keeps the deal, the wind and the finished state |
| Games.DealerLossPassesDeal | app/src/main/java/house/mcintosh/mahjong/model/Game.java:290-313 | after a losing dealer the game finishes exactly when the ending player dealt under NORTH; otherwise the deal passes on, and the wind moves when it reaches the starting player |
| Games.AllFitSeated | app/src/main/java/house/mcintosh/mahjong/model/Game.java:209-216 | rounds that fit the seated players still fit after rotation |
| Games.ReseatConsistent | app/src/main/java/house/mcintosh/mahjong/model/Game.java:209-216 | rotating the seats keeps the play consistent |
| Games.StepConsistent | app/src/main/java/house/mcintosh/mahjong/model/Game.java:256-314 | each round keeps the rounds, snapshots and deal consistent with one another |
| Games.ReplayNext | app/src/main/java/house/mcintosh/mahjong/model/Game.java:359-364 | replaying one more round of an unfinished game is one more step |
| Games.ReplayFinishedLast | app/src/main/java/house/mcintosh/mahjong/model/Game.java:359-364 | once the game is finished, a further round changes nothing |
| Games.ReplayStaysFinished | app/src/main/java/house/mcintosh/mahjong/model/Game.java:359-364 | once the game is finished, the remaining rounds change nothing |
| Games.ReplayFrom | app/src/main/java/house/mcintosh/mahjong/model/Game.java:359-364 | replay extends round by round, and stops at the finish |
| Games.FreshReached | app/src/main/java/house/mcintosh/mahjong/model/Game.java:316-338 | the state just after the start is the replay of no rounds |
| Games.StepReached | app/src/main/java/house/mcintosh/mahjong/model/Game.java:256-314 | a round added to an open game that was the replay of its rounds leaves a game that still is |
| Games.ReplayRoundCount | app/src/main/java/house/mcintosh/mahjong/model/Game.java:359-364 | a replay adds at most one round per round offered |
| Games.ReplayReached | app/src/main/java/house/mcintosh/mahjong/model/Game.java:345-367 | whatever a replay from the start stops at is the replay of its own rounds |
| Games.PopReached | app/src/main/java/house/mcintosh/mahjong/model/Game.java:345-367 | a game that is the replay of its rounds is the step, taken while open, of the replay of all its rounds but the last, which keeps each of them |
| Games.PopUndoesAdd | app/src/main/java/house/mcintosh/mahjong/model/Game.java:345-367 | popping after adding a round hands that round back and replays to the game as it was |
| Games.SumScoresRemove | app/src/test/java/house/mcintosh/mahjong/model/TestGame.java:66 | any player can be taken out of a sum of scores first |
| Games.SumScoresShift | app/src/test/java/house/mcintosh/mahjong/model/TestGame.java:66 | adding each player's round score to a snapshot adds the round scores' sum to its sum |
| Games.SumScoresConstant | app/src/test/java/house/mcintosh/mahjong/model/TestGame.java:66 | a snapshot giving everyone the same score sums to that score times the number of players |
| Games.SumOverEntries | app/src/test/java/house/mcintosh/mahjong/model/TestGame.java:66 | with one entry per player, the sum over the players is the sum over the entries |
| Games.RoundScoresSum | app/src/test/java/house/mcintosh/mahjong/model/TestGame.java:141 | the round scores of a round's players sum to the sum of its entries' scores |
| Games.FreshConserved | app/src/test/java/house/mcintosh/mahjong/model/TestGame.java:66 | the initial snapshot sums to the initial score per seated player |
| Games.StepConserves | app/src/main/java/house/mcintosh/mahjong/model/Game.java:268-282 | a round of the seated players with one mahjong hand leaves the sum of the seated players' scores unchanged |
| Games.ReplayConserves | app/src/main/java/house/mcintosh/mahjong/model/Game.java:359-364 | replaying such rounds keeps every snapshot's sum |
| Games.GameConservesScores | app/src/test/java/house/mcintosh/mahjong/model/TestGame.java:141 | over a whole game of such rounds, every snapshot sums to the number of seated players times the initial score (8000 for four players at 2000) |
| Games.Game.constructor | app/src/main/java/house/mcintosh/mahjong/model/Game.java:41-53 | a new game has four empty seats, no rounds, one empty snapshot, and is neither started nor finished |
| Games.Game.SetPlayer | app/src/main/java/house/mcintosh/mahjong/model/Game.java:171-186 | refused once started, for a bad seat, or for a taken seat; otherwise fills the seat and gives the player the initial score |
| Games.Game.GetPlayer | app/src/main/java/house/mcintosh/mahjong/model/Game.java:188-194 | the seat's occupant, or the invalid-seat error |
| Games.Game.GetPlayers | app/src/main/java/house/mcintosh/mahjong/model/Game.java:196-207 | the seated players in seat order |
| Games.Game.RotateSeats | app/src/main/java/house/mcintosh/mahjong/model/Game.java:209-216 | every occupant moves one seat on and the last moves to the first |
| Games.Game.FindPlayerIndex | app/src/main/java/house/mcintosh/mahjong/model/Game.java:503-510 | the first seat of the player, or -1 |
| Games.Game.StepToOccupied | app/src/main/java/house/mcintosh/mahjong/model/Game.java:298-308 | the stepping loop stops at the next occupied seat |
| Games.Game.StartGame | app/src/main/java/house/mcintosh/mahjong/model/Game.java:224-240 | refused if started, finished, with fewer than two players, or with the dealer not seated; otherwise sets the starting, ending and East players and the EAST wind, and the game is the replay of no rounds |
| Games.Game.IsCompleteRound | app/src/main/java/house/mcintosh/mahjong/model/Game.java:245-254 | true exactly when every seated player has a hand in the round |
| Games.Game.RoundEndScores | app/src/main/java/house/mcintosh/mahjong/model/Game.java:268-282 | the loop builds the next snapshot |
| Games.Game.AddRound | app/src/main/java/house/mcintosh/mahjong/model/Game.java:256-314 | refused unless started and not finished; otherwise the game takes one step of the specification `Step`, and a game that was the replay of its rounds still is |
| Games.Game.PlayRound | app/src/main/java/house/mcintosh/mahjong/model/Game.java:264-314 | scores the round and moves the deal as `Step` says |
| Games.Game.MoveDealOn | app/src/main/java/house/mcintosh/mahjong/model/Game.java:284-313 | the deal and wind after the round, as `MoveDeal` says |
| Games.Game.InitialScoresNow | app/src/main/java/house/mcintosh/mahjong/model/Game.java:327-333 | the initial score for every seated player |
| Games.Game.ClearGame | app/src/main/java/house/mcintosh/mahjong/model/Game.java:316-338 | returns the rounds and resets the play to its state just after the start, which is the replay of no rounds |
| Games.Game.PopRound | app/src/main/java/house/mcintosh/mahjong/model/Game.java:345-367 | with no round, nothing changes; otherwise the game is the replay of all but the last round; when the game was the replay of its rounds, the last round is returned and adding it back gives the game as it was |
| Games.Game.Rebuild | app/src/main/java/house/mcintosh/mahjong/model/Game.java:345-367 | the replay of all rounds but the last, handing the last back when the game was the replay of its rounds |
| Games.Game.AddThenPopRound | app/src/main/java/house/mcintosh/mahjong/model/Game.java:345-367 | `addRound` then `popRound` returns the round added and leaves the game as it was |
| Games.Game.ReplayRounds | app/src/main/java/house/mcintosh/mahjong/model/Game.java:359-364 | re-adding the rounds gives the replay of them, and the result is the replay of its own rounds |
| Games.Game.ReplayOne | app/src/main/java/house/mcintosh/mahjong/model/Game.java:361-364 | re-adding one round advances the replay by one, or reports that the game had finished |
| Games.Game.GetPlayerWind | app/src/main/java/house/mcintosh/mahjong/model/Game.java:438-453 | the player's wind counted from the dealer's seat, empty seats included |
| Games.Game.GetPlayerScore | app/src/main/java/house/mcintosh/mahjong/model/Game.java:455-463 | the player's score in the latest snapshot, present for every seated player |
| Games.Game.GetRoundScores | app/src/main/java/house/mcintosh/mahjong/model/Game.java:375-378 | the snapshots after each round, one per round |
| Games.Game.GetInitialScores | app/src/main/java/house/mcintosh/mahjong/model/Game.java:380-383 | the first snapshot |
| Games.Game.GetLastRoundEndScores | app/src/main/java/house/mcintosh/mahjong/model/Game.java:389-392 | the latest snapshot, which is the initial one before any round |
| Games.Game.GetLastRoundStartScores | app/src/main/java/house/mcintosh/mahjong/model/Game.java:398-406 | the snapshot before the last round, or none |
| Games.Game.GetLastRound | app/src/main/java/house/mcintosh/mahjong/model/Game.java:408-416 | the last round, or none |
| Games.Game.GetRoundCount | app/src/main/java/house/mcintosh/mahjong/model/Game.java:418-421 | the number of rounds |

## Left out

- JSON loading and saving of Tile, Group, ScoreContribution, ScoringScheme and the player id are modelled as records: `TileRecord`, `GroupRecord`, `ContributionRecord`, `SchemeRecord` and the player records, covering their `toJson`/`fromJson`, `ScoringScheme.load` and `getIdJson`. Android resources, streams and the file name are not modelled.
- `toJson`/`fromJson` of Round, ScoredHand and Game are not modelled: no record type stands for them.
- The game's `fromJson` replays the stored rounds through `addRound`, which is what `Games.Game.ReplayRounds` does; the parsing of the stored game is not modelled.
- `PlayerId.create` draws random bytes. The model takes the id as a parameter.
- `Player.create` leaves the player out of the registry, as the source does. The constructor models it without touching the registry.
- Java's 32-bit `int` is modelled as an unbounded integer. No overflow is modelled in totals, score transfers or snapshots.
- `HashMap` and `HashSet` iteration order is unspecified in Java:
  - The qualifier set is iterated in declaration order. `Hands.EvaluateQualifierOrderFree` proves that the order does not change the total.
  - A round's entries are kept in insertion order. The scores are sums over all entries.
- `Group.toggleVisibility` is modelled as the same group with the visibility flipped, bypassing the constructor's forcing of pairs and chows to exposed; its own body is not modelled. `ScoredGroup.toggleVisibility` shows that the tiles and kind stay.
- `GroupComparator`, used by `ScoredHand.add`, is modelled as `SetComparator`'s order extended to scored groups; its own body is not modelled.
- `Collections.sort` after each `add` is modelled as insertion into an already sorted list. This gives the same list as a stable sort, because the list was sorted before the addition (`GroupOrder.InsertSorted`, `GroupOrder.InsertStable`).
- `ScoringScheme.instance` and the British scheme's values are not modelled. The scheme is a parameter, and its numbers are data.
- A round records only what scoring reads from a hand: the mahjong flag and the limited total. It does not keep the `ScoredHand` object itself. `getHand` and `getPlayerWind` of a round are the entry lookup.
- Groups.NewGroup: requires a suit tile for a chow. The source would fail with a NullPointerException in `createNextNumber` (Tile.java:155-158) on an honour tile; `Groups.NewGroupDefault` returns that case as the `NoChowNumber` error.
- Groups.Decode: returns `HonourChow` for a stored chow of an honour tile, where the source's constructor would throw a NullPointerException.
- Schemes.FromRecord: refuses a load that lacks a contribution for some element, with `MissingContribution`. The source fails at load with a NullPointerException when an element that heads a list is missing (ScoringScheme.java:179-187), but files null for a missing multiplier appended to a list and fails only when that list is totalled.
- ScoreLists.ScoreList.AppendList: for a list appended to itself, models the iterator's `ConcurrentModificationException` as the `ConcurrentModification` outcome after one item was added; the exception itself is not modelled.
- Games.Game.RotateSeats: after the start, rotating the seats leaves the stored rounds as they were, so the game may no longer be the replay of its rounds (`Replayable`). The source behaves the same way; `Replayable` is therefore stated on the members that keep it rather than in `Valid`.
- Games.Game.AddRound: requires that a started game's round holds a hand for every seated player. The source reads those hands without checking and would dereference a missing (null) entry; callers check completeness first with `isCompleteRound`.
- Games.Game.PopRound: the source's replay would throw "Game is finished" if a replayed round found the game already finished. The model stops the replay there and returns `ReplayRefused` instead of throwing.
- Games.Game.PlayRound: computes the new East and wind before writing the new snapshot. The source does the reverse. Both computations only read the state, so the result is the same.
- Games.Game.GetPlayerWind: requires a seated player of a started game. For a player in no seat, the source's `while (true)` loop (Game.java:443-452) never returns; before the start, `findPlayerIndex` (Game.java:503-510) is called with a null East player and fails with a NullPointerException. Neither behaviour is modelled.
- Games.MoveDeal: the source moves the prevailing wind on when the new East player is the starting player by object identity (Game.java:312), while its end-of-game test uses `equals` (Game.java:292). The model compares player ids in both places. The two differ only if the game was started with an equal player object other than the one seated.
- Games.Game.GetPlayerScore: returns `None` where the source would unbox a null score. Its printed warning is not modelled.
- Games.Game.StartGame: returns `StartingPlayerNotSeated` where the source's `findPlayerIndex` throws "Player not found".
- Games.Game.SetPlayer: returns result values where the source throws exceptions.
- Rounds.Round.GetPlayerScore: requires the player to have an entry, where the source would dereference a missing (null) entry.
- The game's seats are held both in an `array` and in a ghost sequence that mirrors it. Aliasing of the seat array outside the game is not modelled, because `getSeats` returns a clone.
- `Tile.hashCode`, `toString`, description strings and the UI are not modelled. They do not affect scores.
