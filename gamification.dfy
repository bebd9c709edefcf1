/** The gamification store: lifetime and weekly points, the level derived
    from the lifetime total, the achievement ledger, the weekly challenge and
    the overall daily streak. */
module Gamification {
  import opened Basics
  import opened Levels

  datatype WeeklyChallenge = WeeklyChallenge(
    id: Id,
    title: string,
    description: string,
    targetValue: int,
    currentValue: int,
    reward: int,
    expiresAt: int)

  /** An entry of the challenge catalogue, as drawn at random by the store. */
  datatype ChallengeTemplate = ChallengeTemplate(
    id: Id, title: string, description: string, targetValue: int, reward: int)

  /** What one progress report does to the challenge: its new state and the
      bonus points it awards. */
  datatype ChallengeStep = ChallengeStep(challenge: Option<WeeklyChallenge>, award: int)

  /** The answer of `getProgress`. */
  datatype Progress = Progress(level: int, currentXP: int, xpToNext: int, percentComplete: real)

  predicate NoDuplicates(ids: seq<Id>) {
    forall i, j :: 0 <= i < j < |ids| ==> ids[i] != ids[j]
  }

  /** The ledger after unlocking `id`: appended once, never twice. */
  function Unlocked(ids: seq<Id>, id: Id): (r: seq<Id>)
    ensures id in r
    ensures id in ids ==> r == ids
    ensures id !in ids ==> r == ids + [id]
    ensures NoDuplicates(ids) ==> NoDuplicates(r)
  {
    if id in ids then ids else ids + [id]
  }

  /** Unlocking twice is unlocking once. */
  lemma UnlockIdempotent(ids: seq<Id>, id: Id)
    ensures Unlocked(Unlocked(ids, id), id) == Unlocked(ids, id)
  {
  }

  /** One `updateWeeklyChallenge(progress)`: without a challenge nothing
      happens; otherwise the progress is added, and the reward is paid exactly
      when this report moves the value from below the target to the target
      or beyond. */
  function ChallengeProgress(c: Option<WeeklyChallenge>, progress: int): (r: ChallengeStep)
    ensures c.None? ==> r == ChallengeStep(None, 0)
    ensures c.Some? ==>
      r.challenge == Some(c.value.(currentValue := c.value.currentValue + progress))
    ensures c.Some? ==>
      (r.award == if c.value.currentValue < c.value.targetValue <= c.value.currentValue + progress
                  then c.value.reward else 0)
  {
    match c
    case None => ChallengeStep(None, 0)
    case Some(ch) =>
      var newValue := ch.currentValue + progress;
      var completed := newValue >= ch.targetValue;
      var updated := ch.(currentValue := newValue);
      if completed && ch.currentValue < ch.targetValue then ChallengeStep(Some(updated), ch.reward)
      else ChallengeStep(Some(updated), 0)
  }

  /** Total bonus awarded by a series of progress reports. */
  function AwardsOver(c: Option<WeeklyChallenge>, reports: seq<int>): int
    decreases |reports|
  {
    if reports == [] then 0
    else
      var step := ChallengeProgress(c, reports[0]);
      step.award + AwardsOver(step.challenge, reports[1..])
  }

  /** Once the target is reached, further non-negative progress reports award
      nothing: the reward is paid at most once. */
  lemma {:induction false} NoRewardAfterCompletion(c: WeeklyChallenge, reports: seq<int>)
    requires c.currentValue >= c.targetValue
    requires forall i :: 0 <= i < |reports| ==> reports[i] >= 0
    ensures AwardsOver(Some(c), reports) == 0
    decreases |reports|
  {
    if reports != [] {
      var step := ChallengeProgress(Some(c), reports[0]);
      NoRewardAfterCompletion(step.challenge.value, reports[1..]);
    }
  }

  /** Target 5, value 4, reward 50: a report of 2 pays 50 and leaves 6;
      a further report of 1 leaves 7 and pays nothing. */
  lemma ChallengeExample(c: WeeklyChallenge)
    requires c.targetValue == 5 && c.currentValue == 4 && c.reward == 50
    ensures ChallengeProgress(Some(c), 2).award == 50
    ensures ChallengeProgress(Some(c), 2).challenge.value.currentValue == 6
    ensures ChallengeProgress(ChallengeProgress(Some(c), 2).challenge, 1).award == 0
    ensures ChallengeProgress(ChallengeProgress(Some(c), 2).challenge, 1).challenge.value.currentValue == 7
  {
  }

  /** `table[i] || fallback` on a JavaScript array literal. */
  function LookupOr(table: seq<int>, i: int, fallback: int): int {
    if 0 <= i < |table| && table[i] != 0 then table[i] else fallback
  }

  class GamificationStore {
    var totalPoints: int
    var level: int
    var experienceToNextLevel: int
    var unlockedAchievements: seq<Id>
    var weeklyPoints: int
    var weeklyChallenge: Option<WeeklyChallenge>
    var longestOverallStreak: int
    var currentOverallStreak: int

    /** What every action keeps: a level of the table, the current overall
        streak within the longest one, no achievement listed twice. */
    ghost predicate Valid()
      reads this
    {
      && 1 <= level <= MaxLevel
      && 0 <= currentOverallStreak <= longestOverallStreak
      && NoDuplicates(unlockedAchievements)
    }

    constructor ()
      ensures Valid()
      ensures totalPoints == 0 && level == 1 && experienceToNextLevel == 100
      ensures unlockedAchievements == [] && weeklyPoints == 0 && weeklyChallenge == None
      ensures longestOverallStreak == 0 && currentOverallStreak == 0
    {
      totalPoints := 0;
      level := 1;
      experienceToNextLevel := 100;
      unlockedAchievements := [];
      weeklyPoints := 0;
      weeklyChallenge := None;
      longestOverallStreak := 0;
      currentOverallStreak := 0;
    }

    /** `addPoints`: both totals move by exactly `points`; level and
        experience are recomputed from the new lifetime total. */
    method AddPoints(points: int)
      requires Valid()
      modifies this
      ensures Valid()
      ensures totalPoints == old(totalPoints) + points
      ensures weeklyPoints == old(weeklyPoints) + points
      ensures level == CalculateLevel(totalPoints)
      ensures experienceToNextLevel == ExperienceToNextLevel(totalPoints)
      ensures unlockedAchievements == old(unlockedAchievements)
      ensures weeklyChallenge == old(weeklyChallenge)
      ensures longestOverallStreak == old(longestOverallStreak)
      ensures currentOverallStreak == old(currentOverallStreak)
    {
      var newTotal := totalPoints + points;
      totalPoints := newTotal;
      weeklyPoints := weeklyPoints + points;
      level := CalculateLevel(newTotal);
      experienceToNextLevel := ExperienceToNextLevel(newTotal);
    }

    /** `unlockAchievement`: idempotent, never duplicates an id. */
    method UnlockAchievement(achievementId: Id)
      requires Valid()
      modifies this
      ensures Valid()
      ensures unlockedAchievements == Unlocked(old(unlockedAchievements), achievementId)
      ensures HasAchievement(achievementId)
      ensures totalPoints == old(totalPoints) && weeklyPoints == old(weeklyPoints)
      ensures level == old(level) && experienceToNextLevel == old(experienceToNextLevel)
      ensures weeklyChallenge == old(weeklyChallenge)
      ensures longestOverallStreak == old(longestOverallStreak)
      ensures currentOverallStreak == old(currentOverallStreak)
    {
      if achievementId in unlockedAchievements {
        return;
      }
      unlockedAchievements := unlockedAchievements + [achievementId];
    }

    /** `updateWeeklyChallenge`: progress is added; a crossing of the target
        pays the reward into both totals.  The level is NOT recomputed on
        this path. */
    method UpdateWeeklyChallenge(progress: int)
      requires Valid()
      modifies this
      ensures Valid()
      ensures var step := ChallengeProgress(old(weeklyChallenge), progress);
        && weeklyChallenge == step.challenge
        && totalPoints == old(totalPoints) + step.award
        && weeklyPoints == old(weeklyPoints) + step.award
      ensures old(weeklyChallenge).None? ==>
        weeklyChallenge == None && totalPoints == old(totalPoints) && weeklyPoints == old(weeklyPoints)
      ensures level == old(level) && experienceToNextLevel == old(experienceToNextLevel)
      ensures unlockedAchievements == old(unlockedAchievements)
      ensures longestOverallStreak == old(longestOverallStreak)
      ensures currentOverallStreak == old(currentOverallStreak)
    {
      if weeklyChallenge.None? {
        return;
      }
      var ch := weeklyChallenge.value;
      var newValue := ch.currentValue + progress;
      var completed := newValue >= ch.targetValue;
      if completed && ch.currentValue < ch.targetValue {
        weeklyChallenge := Some(ch.(currentValue := newValue));
        totalPoints := totalPoints + ch.reward;
        weeklyPoints := weeklyPoints + ch.reward;
        return;
      }
      weeklyChallenge := Some(ch.(currentValue := newValue));
    }

    /** `generateWeeklyChallenge`, with the random catalogue draw passed in:
        a fresh challenge at value 0 that expires at the start of next week
        (Sunday midnight after `today`). */
    method GenerateWeeklyChallenge(drawn: ChallengeTemplate, today: int)
      requires Valid()
      modifies this
      ensures Valid()
      ensures weeklyChallenge == Some(WeeklyChallenge(drawn.id, drawn.title, drawn.description,
        drawn.targetValue, 0, drawn.reward, Midnight(StartOfWeek(today) + 7)))
      ensures Midnight(today) < weeklyChallenge.value.expiresAt <= Midnight(today + 7)
      ensures totalPoints == old(totalPoints) && weeklyPoints == old(weeklyPoints)
      ensures level == old(level) && experienceToNextLevel == old(experienceToNextLevel)
      ensures unlockedAchievements == old(unlockedAchievements)
      ensures longestOverallStreak == old(longestOverallStreak)
      ensures currentOverallStreak == old(currentOverallStreak)
    {
      var weekEnd := Midnight(StartOfWeek(today) + 7);
      weeklyChallenge := Some(WeeklyChallenge(drawn.id, drawn.title, drawn.description,
        drawn.targetValue, 0, drawn.reward, weekEnd));
    }

    /** `updateOverallStreak`: a completed day extends the streak and raises
        the high-water mark; a missed day resets the streak only. */
    method UpdateOverallStreak(allHabitsCompleted: bool)
      requires Valid()
      modifies this
      ensures Valid()
      ensures allHabitsCompleted ==>
        && currentOverallStreak == old(currentOverallStreak) + 1
        && longestOverallStreak == if currentOverallStreak > old(longestOverallStreak)
             then currentOverallStreak else old(longestOverallStreak)
      ensures !allHabitsCompleted ==>
        currentOverallStreak == 0 && longestOverallStreak == old(longestOverallStreak)
      ensures totalPoints == old(totalPoints) && weeklyPoints == old(weeklyPoints)
      ensures level == old(level) && experienceToNextLevel == old(experienceToNextLevel)
      ensures unlockedAchievements == old(unlockedAchievements)
      ensures weeklyChallenge == old(weeklyChallenge)
    {
      if allHabitsCompleted {
        var newStreak := currentOverallStreak + 1;
        currentOverallStreak := newStreak;
        longestOverallStreak := if newStreak > longestOverallStreak then newStreak else longestOverallStreak;
      } else {
        currentOverallStreak := 0;
      }
    }

    /** `resetWeeklyPoints`: only the weekly counter is cleared. */
    method ResetWeeklyPoints()
      requires Valid()
      modifies this
      ensures Valid()
      ensures weeklyPoints == 0
      ensures totalPoints == old(totalPoints)
      ensures level == old(level) && experienceToNextLevel == old(experienceToNextLevel)
      ensures unlockedAchievements == old(unlockedAchievements)
      ensures weeklyChallenge == old(weeklyChallenge)
      ensures longestOverallStreak == old(longestOverallStreak)
      ensures currentOverallStreak == old(currentOverallStreak)
    {
      weeklyPoints := 0;
    }

    /** `hasAchievement`: `includes` on the unlocked list. */
    predicate HasAchievement(achievementId: Id)
      reads this
      ensures HasAchievement(achievementId) <==>
        exists i :: 0 <= i < |unlockedAchievements| && unlockedAchievements[i] == achievementId
    {
      achievementId in unlockedAchievements
    }

    /** `getProgress`: points into the current level and the width of the
        level, from two ten-entry tables (levels 1..10); at level 11 both
        lookups fall back, to 0 and 15000.  The percentage is capped at 100
        (the rounding of the source is not modelled). */
    function GetProgress(): (p: Progress)
      reads this
      ensures p.level == level
      ensures 1 <= level < MaxLevel ==>
        && p.currentXP == totalPoints - LevelThresholds[level - 1]
        && p.xpToNext == LevelThresholds[level] - LevelThresholds[level - 1]
      ensures level == MaxLevel ==> p.currentXP == totalPoints && p.xpToNext == 15000
      ensures p.xpToNext > 0
      ensures p.percentComplete <= 100.0
      ensures p.currentXP >= 0 ==> p.percentComplete >= 0.0
    {
      var currentLevelThreshold :=
        if level > 1 then LookupOr([0, 100, 250, 500, 1000, 2000, 3500, 5500, 8000, 11000], level - 1, 0)
        else 0;
      var nextLevelThreshold :=
        LookupOr([100, 250, 500, 1000, 2000, 3500, 5500, 8000, 11000, 15000], level - 1, 15000);
      var currentXP := totalPoints - currentLevelThreshold;
      var xpToNext := nextLevelThreshold - currentLevelThreshold;
      var ratio := (currentXP as real / xpToNext as real) * 100.0;
      Progress(level, currentXP, xpToNext, if ratio < 100.0 then ratio else 100.0)
    }
  }
}
