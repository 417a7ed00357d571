/**
 * src/resources/score/store.ts: the osu!mania ScoreV1 table of hit values,
 * bonus values, bonus gains and punishments per judgement, and the score and
 * bonus constants.
 */
module ScoreStore {
  import opened JudgementStore

  /** `hitPunishment`: a number of bonus points, or `Infinity` for MISS. */
  datatype Punishment = Points(points: nat) | Infinite

  /** One row of `judgementScores`. */
  datatype Scores = Scores(hitValue: nat, hitBonusValue: nat, hitBonus: nat, hitPunishment: Punishment)

  /** `judgementScores[j]`. */
  function JudgementScores(j: Judgement): Scores {
    match j
    case Perfect => Scores(320, 32, 2, Points(0))
    case Great => Scores(300, 32, 1, Points(0))
    case Good => Scores(200, 16, 0, Points(8))
    case Ok => Scores(100, 8, 0, Points(24))
    case Meh => Scores(50, 4, 0, Points(44))
    case Miss => Scores(0, 0, 0, Infinite)
  }

  const MAX_SCORE: nat := 1_000_000
  const MOD_MULTIPLIER: nat := 1
  const MOD_DIVIDER: nat := 1
  const MIN_BONUS: nat := 0
  const MAX_BONUS: nat := 100

  /** The hit value falls strictly from PERFECT (320) to MISS (0). */
  lemma HitValueFalls(i: nat, k: nat)
    requires i < k < |Judgements|
    ensures JudgementScores(Judgements[i]).hitValue > JudgementScores(Judgements[k]).hitValue
    ensures JudgementScores(Judgements[0]).hitValue == 320 && JudgementScores(Judgements[5]).hitValue == 0
  {
  }

  /** Only PERFECT and GREAT gain bonus, and neither is punished. */
  lemma BonusGainers(j: Judgement)
    ensures JudgementScores(j).hitBonus > 0 <==> j == Perfect || j == Great
    ensures JudgementScores(j).hitBonus > 0 ==> JudgementScores(j).hitPunishment == Points(0)
    ensures JudgementScores(j).hitPunishment == Points(0) <==> j == Perfect || j == Great
  {
  }

  /** MISS is worth nothing and is the only judgement with an infinite punishment. */
  lemma MissWorthless(j: Judgement)
    ensures j == Miss ==> JudgementScores(j).hitValue == 0 && JudgementScores(j).hitBonusValue == 0 && JudgementScores(j).hitBonus == 0
    ensures JudgementScores(j).hitPunishment.Infinite? <==> j == Miss
  {
  }

  /** The bonus range is non-empty and the mods scale nothing. */
  lemma Constants()
    ensures MIN_BONUS < MAX_BONUS && MOD_MULTIPLIER == 1 && MOD_DIVIDER == 1
  {
  }
}
