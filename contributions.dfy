/**
 * Score elements and score contributions. A contribution pairs a score
 * element with a non-negative score and a hand multiplier of at least one;
 * the constructor refuses anything else.
 */
module Contributions {
  import opened Wrappers
  import opened ScoreElements

  datatype Contribution = Contribution(element: ScoreElement, score: int, multiplier: int)

  /** What the constructor guarantees of every contribution it builds. */
  predicate Valid(c: Contribution)
  {
    c.score >= 0 && c.multiplier >= 1
  }

  datatype SchemeError = InvalidScore | InvalidMultiplier | MissingContribution

  /**
   * The constructor: a negative score is refused first, then a multiplier
   * below one; otherwise the getters return the arguments unchanged.
   */
  function New(e: ScoreElement, score: int, multiplier: int): (r: Result<Contribution, SchemeError>)
    ensures score < 0 ==> r == Failure(InvalidScore)
    ensures score >= 0 && multiplier < 1 ==> r == Failure(InvalidMultiplier)
    ensures r.Success? <==> score >= 0 && multiplier >= 1
    ensures r.Success? ==> Valid(r.value) && r.value.element == e
    ensures r.Success? ==> r.value.score == score && r.value.multiplier == multiplier
  {
    if score < 0 then Failure(InvalidScore)
    else if multiplier < 1 then Failure(InvalidMultiplier)
    else Success(Contribution(e, score, multiplier))
  }

  /** `hasScore()`: the contribution adds a score or scales the hand. */
  predicate HasScore(c: Contribution)
  {
    c.score != 0 || c.multiplier != 1
  }

  /** The stored form: the element's name, and score and multiplier only when not 0 and 1. */
  datatype ContributionRecord = ContributionRecord(name: ScoreElement, score: Option<int>, multiplier: Option<int>)

  function Encode(c: Contribution): (r: ContributionRecord)
    ensures r.name == c.element
    ensures r.score.None? <==> c.score == 0
    ensures r.multiplier.None? <==> c.multiplier == 1
  {
    ContributionRecord(c.element,
      if c.score != 0 then Some(c.score) else None,
      if c.multiplier != 1 then Some(c.multiplier) else None)
  }

  /** `fromJson`: an absent score reads as 0 and an absent multiplier as 1; then the constructor validates. */
  function Decode(r: ContributionRecord): (res: Result<Contribution, SchemeError>)
    ensures res.Success? ==> Valid(res.value) && res.value.element == r.name
    ensures r.score.None? && r.multiplier.None? ==> res == Success(Contribution(r.name, 0, 1))
  {
    New(r.name,
      if r.score.Some? then r.score.value else 0,
      if r.multiplier.Some? then r.multiplier.value else 1)
  }

  /** Element, score and multiplier survive encoding and decoding. */
  lemma DecodeEncode(c: Contribution)
    requires Valid(c)
    ensures Decode(Encode(c)) == Success(c)
  {
  }
}
