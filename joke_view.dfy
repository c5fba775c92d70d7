/**
 * The presentational `Joke` component: it maps a joke's score to one of seven
 * tiers, each with a border colour and an emoji class, and forwards a click on
 * one of its two vote arrows to the board as a vote intent.
 */
module JokeView {

  /** Number of score tiers, from "angry" (tier 0) to "rolling on the floor" (tier 6). */
  const TierCount: nat := 7

  /** Border colour of each tier, lowest tier first. */
  const Colors: seq<string> :=
    ["#f44336", "#FF9800", "#FFC107", "#FFEB3B", "#CDDC39", "#8BC34A", "#4CAF50"]

  /** Emoji class of each tier, lowest tier first. */
  const Emojis: seq<string> :=
    [ "em em-angry", "em em-confused", "em em-neutral_face", "em em-slightly_smiling_face",
      "em em-smiley", "em em-laughing", "em em-rolling_on_the_floor_laughing" ]

  /**
   * Reference definition of the tiers: negative scores form tier 0, scores of
   * 15 and more tier 6, and in between every band of three consecutive scores
   * starting at 0 is a tier of its own.
   */
  function Tier(score: int): (t: nat)
    ensures t < TierCount
    ensures t == 0 <==> score < 0
    ensures t == TierCount - 1 <==> score >= 15
    ensures 0 < t < TierCount - 1 ==> 3 * (t - 1) <= score < 3 * t
  {
    if score < 0 then 0
    else if score >= 15 then TierCount - 1
    else score / 3 + 1
  }

  /** `getColor`: the border colour of the score box, by an if/else chain over the thresholds. */
  function GetColor(score: int): (c: string)
    ensures c == Colors[Tier(score)]
  {
    if score >= 15 then "#4CAF50"
    else if score >= 12 then "#8BC34A"
    else if score >= 9 then "#CDDC39"
    else if score >= 6 then "#FFEB3B"
    else if score >= 3 then "#FFC107"
    else if score >= 0 then "#FF9800"
    else "#f44336"
  }

  /** `getEmoji`: the emoji class shown under the joke, by the same thresholds as `GetColor`. */
  function GetEmoji(score: int): (e: string)
    ensures e == Emojis[Tier(score)]
  {
    if score >= 15 then "em em-rolling_on_the_floor_laughing"
    else if score >= 12 then "em em-laughing"
    else if score >= 9 then "em em-smiley"
    else if score >= 6 then "em em-slightly_smiling_face"
    else if score >= 3 then "em em-neutral_face"
    else if score >= 0 then "em em-confused"
    else "em em-angry"
  }

  /** Every score gets one of the seven colours, and each colour belongs to exactly one tier. */
  lemma ColorIsTotalAndTiered(score: int)
    ensures GetColor(score) in Colors
    ensures forall t :: 0 <= t < TierCount && Colors[t] == GetColor(score) ==> t == Tier(score)
  {
  }

  /** The half-open bands of the colour chain, each with its own colour. */
  lemma ColorBands(score: int)
    ensures score >= 15 <==> GetColor(score) == "#4CAF50"
    ensures 12 <= score < 15 <==> GetColor(score) == "#8BC34A"
    ensures 9 <= score < 12 <==> GetColor(score) == "#CDDC39"
    ensures 6 <= score < 9 <==> GetColor(score) == "#FFEB3B"
    ensures 3 <= score < 6 <==> GetColor(score) == "#FFC107"
    ensures 0 <= score < 3 <==> GetColor(score) == "#FF9800"
    ensures score < 0 <==> GetColor(score) == "#f44336"
  {
  }

  /** The tier never goes down when the score goes up. */
  lemma TierMonotone(s1: int, s2: int)
    requires s1 <= s2
    ensures Tier(s1) <= Tier(s2)
  {
  }

  /**
   * Colour and emoji always correspond: two scores share a colour exactly
   * when they share an emoji, because both are picked by the same tier.
   */
  lemma ColorAndEmojiAgree(s1: int, s2: int)
    ensures GetColor(s1) == GetColor(s2) <==> Tier(s1) == Tier(s2)
    ensures GetEmoji(s1) == GetEmoji(s2) <==> Tier(s1) == Tier(s2)
  {
  }

  /** The call a click on a vote arrow makes on the board: `updateScore(vote, id)`. */
  datatype VoteCall = VoteCall(vote: string, id: string)

  /** The DOM ids of the two arrows; `updateScore` only tests for the first. */
  const UpVote: string := "up-vote"
  const DownVote: string := "down-vote"

  /**
   * `handleClick`: forwards the clicked element's id as the vote kind and the
   * joke's own id, both unchanged.
   */
  function HandleClick(targetId: string, jokeId: string): (c: VoteCall)
    ensures c.vote == targetId && c.id == jokeId
  {
    VoteCall(targetId, jokeId)
  }
}
