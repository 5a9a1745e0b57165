/** The single-player result screen: the final score against the best possible score, ten per
    level, rated "Perfect!" from 90 percent, "Excellent!" from 70 percent and "Good Job!"
    below. The percentage is a floating-point quotient; here it is compared exactly, by
    cross-multiplying, with the division by zero of an empty game written out. */
module ResultScreen {
  datatype Rating = Perfect | Excellent | GoodJob

  function MaxScore(totalLevels: int): int
  {
    totalLevels * 10
  }

  /** `score / maxScore * 100 >= p`, exactly. With no levels the quotient is infinite for a
      positive score (every threshold is met) and not a number otherwise (none is). */
  predicate AtLeastPercent(score: int, maxScore: int, p: int)
  {
    if maxScore > 0 then score * 100 >= p * maxScore
    else if maxScore < 0 then score * 100 <= p * maxScore
    else score > 0
  }

  function RatingOf(score: int, totalLevels: int): Rating
  {
    var m := MaxScore(totalLevels);
    if AtLeastPercent(score, m, 90) then Perfect
    else if AtLeastPercent(score, m, 70) then Excellent
    else GoodJob
  }

  function Message(r: Rating): string
  {
    match r
    case Perfect => "Perfect!"
    case Excellent => "Excellent!"
    case GoodJob => "Good Job!"
  }

  function Emoji(r: Rating): string
  {
    match r
    case Perfect => "🏆"
    case Excellent => "🔥"
    case GoodJob => "🌟"
  }

  /** For a game with levels: 90 percent or more is perfect, 70 up to 90 percent excellent,
      and anything less a good job. */
  lemma RatingBands(score: int, totalLevels: int)
    requires totalLevels > 0
    ensures RatingOf(score, totalLevels) == Perfect <==> 10 * score >= 9 * MaxScore(totalLevels)
    ensures RatingOf(score, totalLevels) == Excellent <==>
      10 * score < 9 * MaxScore(totalLevels) && 10 * score >= 7 * MaxScore(totalLevels)
    ensures RatingOf(score, totalLevels) == GoodJob <==> 10 * score < 7 * MaxScore(totalLevels)
  {
  }

  /** The screen's message and emoji for a game with levels: the trophy and "Perfect!" from
      90 percent, the flame and "Excellent!" from 70 percent, the star and "Good Job!" below. */
  lemma ShownTexts(score: int, totalLevels: int)
    requires totalLevels > 0
    ensures var r := RatingOf(score, totalLevels);
      (Message(r) == "Perfect!" && Emoji(r) == "🏆") <==> 10 * score >= 9 * MaxScore(totalLevels)
    ensures var r := RatingOf(score, totalLevels);
      (Message(r) == "Excellent!" && Emoji(r) == "🔥") <==>
        10 * score < 9 * MaxScore(totalLevels) && 10 * score >= 7 * MaxScore(totalLevels)
    ensures var r := RatingOf(score, totalLevels);
      (Message(r) == "Good Job!" && Emoji(r) == "🌟") <==> 10 * score < 7 * MaxScore(totalLevels)
  {
    RatingBands(score, totalLevels);
  }

  function Rank(r: Rating): nat
  {
    match r
    case GoodJob => 0
    case Excellent => 1
    case Perfect => 2
  }

  /** A higher score never earns a lower rating. */
  lemma RatingMonotone(s1: int, s2: int, totalLevels: int)
    requires totalLevels > 0 && s1 <= s2
    ensures Rank(RatingOf(s1, totalLevels)) <= Rank(RatingOf(s2, totalLevels))
  {
  }

  /** A perfect game, ten points on every level, is rated perfect; so is any positive score
      in a game without levels, while a zero score there is only a good job. */
  lemma RatingEdges(totalLevels: int, score: int)
    requires totalLevels > 0
    ensures RatingOf(MaxScore(totalLevels), totalLevels) == Perfect
    ensures RatingOf(0, totalLevels) == GoodJob
    ensures score > 0 ==> RatingOf(score, 0) == Perfect
    ensures RatingOf(0, 0) == GoodJob
  {
  }
}
