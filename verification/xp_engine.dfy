/**
 The XP engine: the XP award for one activity, the FinCred Score, the level
 reached with a total amount of XP, and the progress within that level.
 Every number of xpEngine.ts is an exact `real` here; thresholds and levels are
 integers.
 */
module XpEngine {
  import opened Common

  // ---------------------------------------------------------------------------
  // XP award
  // ---------------------------------------------------------------------------

  /** The inputs of one XP award; the four adjustments are optional and an
      omitted one counts as 0. */
  datatype XPParams = XPParams(
    baseXP: real,
    difficulty: real,
    streak: real,
    penalties: Option<real>,
    savingsBonus: Option<real>,
    budgetBonus: Option<real>,
    consistencyBonus: Option<real>)

  /** Base XP scaled by difficulty and by 10% per streak period. */
  function CoreXP(p: XPParams): real
  {
    p.baseXP * p.difficulty * (1.0 + p.streak * 0.1)
  }

  /** The core XP depends on the base, the difficulty and the streak alone. */
  lemma SameCoreXP(p: XPParams, q: XPParams)
    requires q.baseXP == p.baseXP && q.difficulty == p.difficulty && q.streak == p.streak
    ensures CoreXP(q) == CoreXP(p)
  {
  }

  /** The core XP less the penalty plus the three bonuses, before clamping. */
  function AdjustedXP(p: XPParams): real
  {
    CoreXP(p) - p.penalties.GetOr(0.0) + p.savingsBonus.GetOr(0.0)
      + p.budgetBonus.GetOr(0.0) + p.consistencyBonus.GetOr(0.0)
  }

  /** The XP award: the adjusted sum clamped at 0 as a whole, then rounded once. */
  function CalculateXP(p: XPParams): (xp: int)
    ensures xp >= 0
    ensures AdjustedXP(p) <= 0.0 ==> xp == 0
    ensures AdjustedXP(p) > 0.0 ==> xp as real - 0.5 <= AdjustedXP(p) < xp as real + 0.5
  {
    Round(Max(0.0, AdjustedXP(p)))
  }

  /** `q` differs from `p` only by adjustments that favour the user: no larger
      penalty and no smaller bonus. */
  predicate FavourableAdjustment(p: XPParams, q: XPParams)
  {
    && q.baseXP == p.baseXP && q.difficulty == p.difficulty && q.streak == p.streak
    && q.penalties.GetOr(0.0) <= p.penalties.GetOr(0.0)
    && q.savingsBonus.GetOr(0.0) >= p.savingsBonus.GetOr(0.0)
    && q.budgetBonus.GetOr(0.0) >= p.budgetBonus.GetOr(0.0)
    && q.consistencyBonus.GetOr(0.0) >= p.consistencyBonus.GetOr(0.0)
  }

  /** Raising a bonus never lowers the award and raising the penalty never raises it. */
  lemma XPMonotoneInAdjustments(p: XPParams, q: XPParams)
    requires FavourableAdjustment(p, q)
    ensures CalculateXP(p) <= CalculateXP(q)
  {
    SameCoreXP(p, q);
    assert AdjustedXP(p) <= AdjustedXP(q);
    RoundMonotone(Max(0.0, AdjustedXP(p)), Max(0.0, AdjustedXP(q)));
  }

  /** An adjustment with its destructuring default made explicit. */
  function ExplicitZero(o: Option<real>): (e: Option<real>)
    ensures e.Some?
    ensures o.Some? ==> e == o
    ensures o.None? ==> e == Some(0.0)
  {
    Some(o.GetOr(0.0))
  }

  /** An omitted adjustment behaves exactly like an explicit 0. */
  lemma OmittedAdjustmentsAreZero(p: XPParams)
    ensures CalculateXP(p) == CalculateXP(p.(penalties := ExplicitZero(p.penalties),
                                             savingsBonus := ExplicitZero(p.savingsBonus),
                                             budgetBonus := ExplicitZero(p.budgetBonus),
                                             consistencyBonus := ExplicitZero(p.consistencyBonus)))
  {
    var q := p.(penalties := ExplicitZero(p.penalties), savingsBonus := ExplicitZero(p.savingsBonus),
                budgetBonus := ExplicitZero(p.budgetBonus), consistencyBonus := ExplicitZero(p.consistencyBonus));
    SameCoreXP(p, q);
    assert AdjustedXP(q) == AdjustedXP(p);
  }

  /** Without adjustments and with non-negative inputs the award is the rounded
      product `baseXP * difficulty * (1 + streak / 10)`; with no streak it is
      the rounded `baseXP * difficulty`. */
  lemma XPWithoutAdjustments(p: XPParams)
    requires p.penalties == None && p.savingsBonus == None
    requires p.budgetBonus == None && p.consistencyBonus == None
    requires p.baseXP >= 0.0 && p.difficulty >= 0.0 && p.streak >= 0.0
    ensures CalculateXP(p) == Round(p.baseXP * p.difficulty * (1.0 + p.streak / 10.0))
    ensures p.streak == 0.0 ==> CalculateXP(p) == Round(p.baseXP * p.difficulty)
  {
    var bd := p.baseXP * p.difficulty;
    assert bd >= 0.0;
    assert CoreXP(p) == bd * (1.0 + p.streak / 10.0);
    assert CoreXP(p) >= 0.0;
  }

  /** Worked awards: 10 XP at difficulty 2 gives 20, or 30 with a five-period
      streak; a penalty of 25 clamps it to 0; two bonuses of 5 on 10 XP give 20. */
  lemma XPExamples()
    ensures CalculateXP(XPParams(10.0, 2.0, 0.0, None, None, None, None)) == 20
    ensures CalculateXP(XPParams(10.0, 2.0, 5.0, None, None, None, None)) == 30
    ensures CalculateXP(XPParams(10.0, 2.0, 0.0, Some(25.0), None, None, None)) == 0
    ensures CalculateXP(XPParams(10.0, 1.0, 0.0, None, Some(5.0), Some(5.0), None)) == 20
  {
  }

  // ---------------------------------------------------------------------------
  // FinCred Score
  // ---------------------------------------------------------------------------

  /** The four behaviour ratios (conventionally in [0, 1], never checked) and the XP level. */
  datatype ScoreParams = ScoreParams(
    budgetAdherence: real,
    challengeCompletion: real,
    consistency: real,
    savingsRate: real,
    xpLevel: real)

  const BaseScore: real := 300.0
  const MaxScore: real := 850.0
  /** Points the XP level can add at most. */
  const XPLevelBonusCap: real := 50.0

  /** Five points per level, capped. */
  function XPLevelBonus(xpLevel: real): (bonus: real)
    ensures bonus <= XPLevelBonusCap
    ensures xpLevel >= 0.0 ==> bonus >= 0.0
    ensures xpLevel >= 10.0 ==> bonus == XPLevelBonusCap
    ensures xpLevel <= 10.0 ==> bonus == 5.0 * xpLevel
  {
    Min(xpLevel * 5.0, XPLevelBonusCap)
  }

  /** The weighted blend before the ceiling: 150 + 150 + 100 + 100 points for
      the four ratios on top of the base. */
  function RawScore(p: ScoreParams): real
  {
    BaseScore + p.budgetAdherence * 150.0 + p.challengeCompletion * 150.0
      + p.consistency * 100.0 + p.savingsRate * 100.0 + XPLevelBonus(p.xpLevel)
  }

  /** Every input in its conventional range: ratios in [0, 1], level non-negative. */
  predicate ConventionalInputs(p: ScoreParams)
  {
    && 0.0 <= p.budgetAdherence <= 1.0 && 0.0 <= p.challengeCompletion <= 1.0
    && 0.0 <= p.consistency <= 1.0 && 0.0 <= p.savingsRate <= 1.0
    && p.xpLevel >= 0.0
  }

  /** The FinCred Score: never above 850, and at least 300 when the inputs are
      in their conventional ranges. */
  function CalculateFinCredScore(p: ScoreParams): (score: int)
    ensures score <= 850
    ensures ConventionalInputs(p) ==> 300 <= score
    ensures RawScore(p) <= MaxScore ==> score as real - 0.5 <= RawScore(p) < score as real + 0.5
    ensures RawScore(p) >= MaxScore ==> score == 850
  {
    Round(Min(MaxScore, RawScore(p)))
  }

  /** The score never falls when any input rises. */
  lemma ScoreMonotone(p: ScoreParams, q: ScoreParams)
    requires p.budgetAdherence <= q.budgetAdherence && p.challengeCompletion <= q.challengeCompletion
    requires p.consistency <= q.consistency && p.savingsRate <= q.savingsRate
    requires p.xpLevel <= q.xpLevel
    ensures CalculateFinCredScore(p) <= CalculateFinCredScore(q)
  {
    RoundMonotone(Min(MaxScore, RawScore(p)), Min(MaxScore, RawScore(q)));
  }

  /** All-zero inputs score exactly the base; perfect ratios from level 10 on
      score exactly the ceiling. */
  lemma ScoreExtremes(p: ScoreParams)
    ensures p == ScoreParams(0.0, 0.0, 0.0, 0.0, 0.0) ==> CalculateFinCredScore(p) == 300
    ensures (p.budgetAdherence == 1.0 && p.challengeCompletion == 1.0 && p.consistency == 1.0
             && p.savingsRate == 1.0 && p.xpLevel >= 10.0) ==> CalculateFinCredScore(p) == 850
  {
    RoundOfInteger(300);
    RoundOfInteger(850);
  }

  /** The documented 300 floor is not enforced: a negative ratio scores below it. */
  lemma NegativeRatioScoresBelowBase()
    ensures CalculateFinCredScore(ScoreParams(-1.0, 0.0, 0.0, 0.0, 0.0)) == 150
  {
    RoundOfInteger(150);
  }

  // ---------------------------------------------------------------------------
  // Levels
  // ---------------------------------------------------------------------------

  /** The width of the level after one `t` XP wide: `Math.floor(t * 1.2)`. */
  function NextThreshold(t: int): (next: int)
    ensures next == (6 * t) / 5
    ensures t >= 5 ==> next > t
  {
    var q := (6 * t) / 5;
    assert q as real <= (t as real) * 1.2 < q as real + 1.0;
    ((t as real) * 1.2).Floor
  }

  /** Width of the `n`-th bucket the level loop fills: 100, 120, 144, 172, ... */
  function Threshold(n: nat): (t: int)
    ensures t >= 100
  {
    if n == 0 then 100 else NextThreshold(Threshold(n - 1))
  }

  /** Each bucket is wider than the one before. */
  lemma {:induction false} ThresholdsIncrease(m: nat, n: nat)
    requires m < n
    ensures Threshold(m) < Threshold(n)
  {
    if m < n - 1 {
      ThresholdsIncrease(m, n - 1);
    }
  }

  /** XP needed to fill the first `n` buckets. */
  function CumulativeXP(n: nat): (total: int)
    ensures total >= 100 * n
  {
    if n == 0 then 0 else CumulativeXP(n - 1) + Threshold(n - 1)
  }

  lemma {:induction false} CumulativeXPIncreases(m: nat, n: nat)
    requires m < n
    ensures CumulativeXP(m) < CumulativeXP(n)
  {
    if m < n - 1 {
      CumulativeXPIncreases(m, n - 1);
    }
  }

  /** `totalXP` fills exactly the first `k` buckets and not the next one. */
  predicate FillsExactly(totalXP: real, k: nat)
  {
    CumulativeXP(k) as real <= totalXP < CumulativeXP(k + 1) as real
  }

  /** At most one bucket count fits a given total. */
  lemma FillsExactlyUnique(totalXP: real, j: nat, k: nat)
    requires FillsExactly(totalXP, j) && FillsExactly(totalXP, k)
    ensures j == k
  {
    if j < k {
      if j + 1 < k { CumulativeXPIncreases(j + 1, k); }
    } else if k < j {
      if k + 1 < j { CumulativeXPIncreases(k + 1, j); }
    }
  }

  /** The `while` loop of the level computation, one iteration per call: while
      the remainder covers the threshold, subtract it, widen the threshold and
      count one more level. */
  function LevelLoop(remainingXP: real, xpThreshold: int, level: int): (result: int)
    requires xpThreshold >= 100
    ensures result >= level
    ensures remainingXP >= xpThreshold as real ==> result > level
    decreases remainingXP.Floor
  {
    if remainingXP >= xpThreshold as real then
      LevelLoop(remainingXP - xpThreshold as real, NextThreshold(xpThreshold), level + 1)
    else
      level
  }

  /** The level reached with `totalXP`: 1 below 100 XP, otherwise the loop
      started at level 2 with a 100 XP threshold. */
  function CalculateLevel(totalXP: real): (level: int)
    ensures level >= 1
    ensures level == 1 <==> totalXP < 100.0
    ensures totalXP >= 100.0 ==> level >= 3
  {
    if totalXP < 100.0 then 1 else LevelLoop(totalXP, 100, 2)
  }

  /** One pass of the loop in terms of filled buckets: from `n` to `n + 1`. */
  lemma LevelLoopStep(totalXP: real, n: nat)
    requires totalXP - CumulativeXP(n) as real >= Threshold(n) as real
    ensures LevelLoop(totalXP - CumulativeXP(n) as real, Threshold(n), 2 + n)
         == LevelLoop(totalXP - CumulativeXP(n + 1) as real, Threshold(n + 1), 2 + (n + 1))
    ensures 0 <= (totalXP - CumulativeXP(n + 1) as real).Floor < (totalXP - CumulativeXP(n) as real).Floor
  {
  }

  /** Started after `n` filled buckets, the loop stops after the bucket count
      that `totalXP` fills exactly, and returns 2 plus that count. */
  lemma {:induction false} LevelLoopFills(totalXP: real, n: nat) returns (k: nat)
    requires CumulativeXP(n) as real <= totalXP
    ensures n <= k && FillsExactly(totalXP, k)
    ensures LevelLoop(totalXP - CumulativeXP(n) as real, Threshold(n), 2 + n) == 2 + k
    decreases (totalXP - CumulativeXP(n) as real).Floor
  {
    if totalXP - CumulativeXP(n) as real >= Threshold(n) as real {
      LevelLoopStep(totalXP, n);
      k := LevelLoopFills(totalXP, n + 1);
    } else {
      k := n;
    }
  }

  /** Independent reading of the level: from 100 XP on, the level is 2 plus
      the number of buckets `totalXP` fills, and that number is at least 1. */
  lemma LevelIsFilledBucketsPlusTwo(totalXP: real, k: nat)
    requires totalXP >= 100.0
    ensures CalculateLevel(totalXP) == 2 + k <==> FillsExactly(totalXP, k)
    ensures FillsExactly(totalXP, k) ==> k >= 1
  {
    assert CumulativeXP(0) == 0 && Threshold(0) == 100;
    var j := LevelLoopFills(totalXP, 0);
    if FillsExactly(totalXP, k) {
      FillsExactlyUnique(totalXP, j, k);
    }
  }

  /** More XP never means a lower level. */
  lemma LevelMonotone(x: real, y: real)
    requires x <= y
    ensures CalculateLevel(x) <= CalculateLevel(y)
  {
    if x >= 100.0 {
      var j: nat := CalculateLevel(x) - 2;
      var k: nat := CalculateLevel(y) - 2;
      LevelIsFilledBucketsPlusTwo(x, j);
      LevelIsFilledBucketsPlusTwo(y, k);
      if k < j {
        if k + 1 < j { CumulativeXPIncreases(k + 1, j); }
      }
    }
  }

  /** The level is never 2: the first 100 XP already yield level 3, although
      the comments in xpEngine.ts list level 2 at 100 XP and level 3 at 220 XP. */
  lemma LevelIsNeverTwo(totalXP: real)
    ensures CalculateLevel(totalXP) != 2
  {
  }

  /** The loop at the first bucket boundaries. */
  lemma LevelExamples()
    ensures CalculateLevel(0.0) == 1 && CalculateLevel(99.0) == 1
    ensures CalculateLevel(100.0) == 3 && CalculateLevel(219.0) == 3
    ensures CalculateLevel(220.0) == 4
    ensures Threshold(1) == 120 && Threshold(2) == 144 && Threshold(3) == 172
  {
    assert NextThreshold(100) == 120;
    assert NextThreshold(120) == 144;
    assert LevelLoop(0.0, 144, 4) == 4;
    assert LevelLoop(120.0, 120, 3) == 4;
    assert LevelLoop(19.0, 120, 3) == 3;
  }

  // ---------------------------------------------------------------------------
  // Progress within a level
  // ---------------------------------------------------------------------------

  /** What the progress bar shows. `nextLevelXP` is the width of the current
      level's bucket, not the total at which the next level starts. */
  datatype LevelProgress = LevelProgress(
    currentLevel: int,
    nextLevelXP: int,
    progress: real,
    currentLevelXP: real)

  lemma FractionBelowOne(a: real, b: real)
    requires 0.0 <= a < b
    ensures 0.0 <= a / b < 1.0
  {
  }

  /** Progress within the current level: the level, then the buckets below it
      replayed to find the XP they used. For any non-negative total the XP in
      the level lies in [0, width) and the progress in [0, 1). */
  method CalculateXPProgress(totalXP: real) returns (p: LevelProgress)
    ensures p.currentLevel == CalculateLevel(totalXP)
    ensures p.currentLevel >= 2 ==> p.nextLevelXP == Threshold(p.currentLevel - 2)
    ensures p.currentLevel >= 2 ==> totalXP == CumulativeXP(p.currentLevel - 2) as real + p.currentLevelXP
    ensures p.currentLevel == 1 ==> p.nextLevelXP == 100 && p.currentLevelXP == totalXP
    ensures p.nextLevelXP >= 100
    ensures p.progress == p.currentLevelXP / p.nextLevelXP as real
    ensures totalXP >= 0.0 ==> 0.0 <= p.currentLevelXP < p.nextLevelXP as real
    ensures totalXP >= 0.0 ==> 0.0 <= p.progress < 1.0
  {
    var currentLevel := CalculateLevel(totalXP);
    var xpThreshold := 100;
    var accumulatedXP := 0;
    var i := 2;
    while i < currentLevel
      invariant i == 2 || 2 < i <= currentLevel
      invariant accumulatedXP == CumulativeXP(i - 2)
      invariant xpThreshold == Threshold(i - 2)
    {
      accumulatedXP := accumulatedXP + xpThreshold;
      xpThreshold := NextThreshold(xpThreshold);
      i := i + 1;
    }
    var levelStartXP := accumulatedXP;
    var nextLevelStartXP := accumulatedXP + xpThreshold;
    var progress := (totalXP - levelStartXP as real) / (nextLevelStartXP - levelStartXP) as real;
    p := LevelProgress(currentLevel, xpThreshold, progress, totalXP - levelStartXP as real);
    if totalXP >= 100.0 {
      LevelIsFilledBucketsPlusTwo(totalXP, currentLevel - 2);
    }
    if totalXP >= 0.0 {
      FractionBelowOne(p.currentLevelXP, p.nextLevelXP as real);
    }
  }
}
