/**
 * src/resources/score/useScore.ts: the running osu!mania ScoreV1 score of a
 * play. Each judgement adds a base score from its hit value and a bonus
 * score from its bonus value and the square root of the current bonus; the
 * bonus is updated (gained, punished and clamped) before it is used.
 * `Math.sqrt` is outside the model: the caller passes the root of the
 * updated bonus. `totalNotes` is read at every update and passed in.
 */
module UseScore {
  import opened JudgementStore
  import opened ScoreStore

  /** lodash `clamp(n, lower, upper)`. */
  function Clamp(n: real, lower: real, upper: real): (r: real)
    requires lower <= upper
    ensures lower <= r <= upper
    ensures lower <= n <= upper ==> r == n
  {
    if n < lower then lower else if n > upper then upper else n
  }

  /** The bonus after judgement `j`: `clamp(bonus + hitBonus - hitPunishment / MOD_DIVIDER, MIN_BONUS, MAX_BONUS)`. */
  function NewBonus(bonus: real, j: Judgement): real {
    var s := JudgementScores(j);
    match s.hitPunishment
    case Infinite => MIN_BONUS as real
    case Points(p) => Clamp(bonus + s.hitBonus as real - p as real / MOD_DIVIDER as real, MIN_BONUS as real, MAX_BONUS as real)
  }

  /** Whatever the bonus was, the updated bonus is within [MIN_BONUS, MAX_BONUS]. */
  lemma NewBonusInRange(bonus: real, j: Judgement)
    ensures MIN_BONUS as real <= NewBonus(bonus, j) <= MAX_BONUS as real
  {
  }

  /** A MISS (infinite punishment) drops the bonus to MIN_BONUS; PERFECT at full bonus keeps it full. */
  lemma NewBonusExtremes(bonus: real)
    ensures NewBonus(bonus, Miss) == MIN_BONUS as real
    ensures NewBonus(MAX_BONUS as real, Perfect) == MAX_BONUS as real
  {
  }

  /** From an in-range bonus, GOOD, OK and MEH lower it by their punishment (down to MIN_BONUS) and PERFECT and GREAT raise it (up to MAX_BONUS). */
  lemma NewBonusDirection(bonus: real, j: Judgement)
    requires MIN_BONUS as real <= bonus <= MAX_BONUS as real
    ensures j in {Perfect, Great} ==> NewBonus(bonus, j) >= bonus
    ensures j in {Good, Ok, Meh} ==> NewBonus(bonus, j) < bonus || NewBonus(bonus, j) == MIN_BONUS as real
  {
  }

  /** `calculateBaseScore(j)`. */
  function BaseScore(j: Judgement, totalNotes: real): (r: real)
    requires totalNotes > 0.0
    ensures 0.0 <= r <= (MAX_SCORE * MOD_MULTIPLIER) as real * 0.5 / totalNotes
    ensures r == 0.0 <==> j == Miss
  {
    var n := (MAX_SCORE * MOD_MULTIPLIER) as real * 0.5 / totalNotes;
    assert n > 0.0;
    n * (JudgementScores(j).hitValue as real / 320.0)
  }

  /** The base scores of a play of `totalNotes` PERFECT hits add up to half of MAX_SCORE. */
  lemma AllPerfectBase(totalNotes: nat)
    requires totalNotes > 0
    ensures BaseScore(Perfect, totalNotes as real) * totalNotes as real == (MAX_SCORE * MOD_MULTIPLIER) as real / 2.0
  {
  }

  /** The bonus score of `calculateBonusScore(j)`, given `root`, the square root of the updated bonus. */
  function BonusScore(j: Judgement, totalNotes: real, root: real): (r: real)
    requires totalNotes > 0.0 && root >= 0.0
    ensures r >= 0.0
    ensures r == 0.0 <==> j == Miss || root == 0.0
  {
    var n := (MAX_SCORE * MOD_MULTIPLIER) as real * 0.5 / totalNotes;
    assert n > 0.0;
    var v := JudgementScores(j).hitBonusValue as real;
    assert v * root >= 0.0;
    n * (v * root / 320.0)
  }

  /** A PERFECT at full bonus (root 10) earns a total of MAX_SCORE / totalNotes, so such a play reaches MAX_SCORE. */
  lemma PerfectAtFullBonus(totalNotes: nat)
    requires totalNotes > 0
    ensures NewBonus(MAX_BONUS as real, Perfect) == 10.0 * 10.0
    ensures (BaseScore(Perfect, totalNotes as real) + BonusScore(Perfect, totalNotes as real, 10.0)) * totalNotes as real == MAX_SCORE as real
  {
  }

  class ScoreTracker {
    /** `score.value`. */
    var score: real
    /** `bonus`. */
    var bonus: real

    /** `useScore(...)`: no score and full bonus. */
    constructor ()
      ensures score == 0.0 && bonus == MAX_BONUS as real
    {
      score := 0.0;
      bonus := MAX_BONUS as real;
    }

    predicate Valid()
      reads this
    {
      MIN_BONUS as real <= bonus <= MAX_BONUS as real && score >= 0.0
    }

    /** `update(j)`, with `totalNotes` read now and `root` = `Math.sqrt` of the updated bonus. */
    method Update(j: Judgement, totalNotes: real, root: real)
      requires totalNotes > 0.0
      requires root >= 0.0 && root * root == NewBonus(bonus, j)
      modifies this
      ensures bonus == NewBonus(old(bonus), j)
      ensures score == old(score) + BaseScore(j, totalNotes) + BonusScore(j, totalNotes, root)
      ensures score >= old(score)
      ensures old(Valid()) ==> Valid()
      ensures MIN_BONUS as real <= bonus <= MAX_BONUS as real
    {
      var base := BaseScore(j, totalNotes);
      bonus := NewBonus(bonus, j);
      NewBonusInRange(old(bonus), j);
      var extra := BonusScore(j, totalNotes, root);
      score := score + (base + extra);
    }
  }
}
