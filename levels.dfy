/** The level curve of the gamification engine: a fixed ascending table of
    point thresholds, the level a point total reaches, and the points still
    needed for the next level. */
module Levels {

  /** Points needed to reach level i+1. */
  const LevelThresholds: seq<int> := [0, 100, 250, 500, 1000, 2000, 3500, 5500, 8000, 11000, 15000]

  /** The highest level of the table. */
  const MaxLevel: int := 11

  /** Points that the next-level query puts above the top of the table. */
  const BeyondTableStep: int := 5000

  /** The table is strictly ascending. */
  lemma ThresholdsAscending(i: int, j: int)
    requires 0 <= i < j < |LevelThresholds|
    ensures LevelThresholds[i] < LevelThresholds[j]
  {
  }

  /** The downward search of `calculateLevel`, resumed at index `i`: the first
      threshold from `i` down that `points` reaches gives level index+1; when
      none is reached the level is 1. */
  function SearchLevel(points: int, i: nat): (level: int)
    requires i < |LevelThresholds|
    ensures 1 <= level <= i + 1
    ensures forall j :: level <= j <= i ==> points < LevelThresholds[j]
    ensures level > 1 ==> LevelThresholds[level - 1] <= points
    ensures level == 1 && points >= 0 ==> LevelThresholds[0] <= points
  {
    if points >= LevelThresholds[i] then i + 1
    else if i == 0 then 1
    else SearchLevel(points, i - 1)
  }

  /** `calculateLevel`: the level a point total has reached. */
  function CalculateLevel(points: int): (level: int)
    ensures 1 <= level <= MaxLevel
    ensures points < 0 ==> level == 1
    ensures points >= 0 ==> LevelThresholds[level - 1] <= points
    ensures level < MaxLevel ==> points < LevelThresholds[level]
  {
    SearchLevel(points, |LevelThresholds| - 1)
  }

  /** More points never lower the level. */
  lemma CalculateLevelMonotone(p: int, q: int)
    requires p <= q
    ensures CalculateLevel(p) <= CalculateLevel(q)
  {
    var lp, lq := CalculateLevel(p), CalculateLevel(q);
    if p >= 0 && lp > 1 && lq < MaxLevel {
      // threshold(lp - 1) <= p <= q < threshold(lq), so lp - 1 < lq
      assert LevelThresholds[lp - 1] < LevelThresholds[lq];
    }
  }

  /** The table's values at and around its boundaries. */
  lemma LevelExamples()
    ensures CalculateLevel(0) == 1
    ensures CalculateLevel(99) == 1
    ensures CalculateLevel(100) == 2
    ensures CalculateLevel(14999) == 10
    ensures CalculateLevel(15000) == 11
    ensures CalculateLevel(100000) == 11
    ensures CalculateLevel(-50) == 1
  {
    var l := CalculateLevel(99);
    if l > 1 { ThresholdsAscending(1, l - 1); }
    l := CalculateLevel(14999);
    if l < 10 { ThresholdsAscending(l, 9); }
  }

  /** `getExperienceToNextLevel`: distance from `points` to the threshold of
      the next level; beyond the table the next threshold is the last one
      plus 5000. */
  function ExperienceToNextLevel(points: int): (xp: int)
    ensures var level := CalculateLevel(points);
      && (level < MaxLevel ==> xp == LevelThresholds[level] - points)
      && (level == MaxLevel ==> xp == 20000 - points)
    ensures points < 20000 ==> xp > 0
  {
    var level := CalculateLevel(points);
    var next := if level < |LevelThresholds| && LevelThresholds[level] != 0
      then LevelThresholds[level]
      else LevelThresholds[|LevelThresholds| - 1] + BeyondTableStep;
    next - points
  }
}
