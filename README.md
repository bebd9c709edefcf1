# Ripple client state, modelled in Dafny

Ripple is a student wellness planner. Its browser client keeps all of its
data in eight stores, each persisted to local storage:

- habits with daily completion logs and cached streaks;
- sleep entries, one per night, with their statistics;
- mood check-ins, with averages and a streak;
- calendar events, including the weekly class timetable expanded into class
  events;
- the gamification ledger: points, the level curve, achievements, the weekly
  challenge and the overall streak;
- meals, with the nutrition goals and weekly statistics;
- the user profile, with its classes and goals;
- coach chat sessions.

This project models each store as a Dafny `class` whose fields are the
store's state. Every action is a `method` that reassigns those fields. The
pure computations behind the actions and getters (filters, patches, the
streak walk, the level table, sorting, the class-sync expansion) are
functions with lemmas about what they mean.

Conventions:

- Calendar days are day numbers; day 0 is 1970-01-01, a Thursday. A
  `yyyy-MM-dd` string is modelled by its day number: those strings sort in
  the same order as the days they name.
- Instants are whole minutes.
- The clock, fresh uuids and the random challenge draw are parameters of the
  operations that use them (`now`, `today`, `freshId`, `drawn`).
- A `Partial<T>` update is a patch datatype with an `Option` per field.

Modules:

- `Basics`: options, ids, truthiness, calendar arithmetic.
- `Seqs`: the array operations the stores use, namely `filter`, `map` at one
  id, `find`, a stable sort, `slice` and `splice` index normalisation, and
  sums.
- `Streak`: the consecutive-day walk shared by three stores.
- `Levels`: the level table.
- `Gamification`, `Habits`, `Sleep`, `Mood`, `Events`, `Nutrition`, `User`
  and `Chat`: one module per store. `User` also declares the class timetable
  types (`DayOfWeek`, `ClassSchedule`), which `Events` imports.

## Model

| member | source | states |
|---|---|---|
| Basics.Merge | src/store/habit-store.ts:79 | one field of an object spread: the update's value when supplied, otherwise the current one |
| Basics.MergeOptional | src/store/event-store.ts:64 | the same for an optional field: a supplied value replaces it, an absent one cannot clear it |
| Basics.Weekday | src/store/event-store.ts:10-18 | Sunday-based weekday numbers lie in 0..6 |
| Basics.StartOfWeek | src/store/event-store.ts:130 | the Sunday-based week start is a Sunday, on or at most six days before the day |
| Basics.DayDifferenceOfInstant | src/store/mood-store.ts:128-130 | floor((now - midnight(d)) / one day) equals the difference of day numbers, so the instant cursor and the day cursor agree |
| Seqs.Filter | src/store/habit-store.ts:86-87 | `filter` keeps exactly the elements satisfying the predicate, with their multiplicities |
| Seqs.FilterAppend | src/store/sleep-store.ts:56-59 | filtering distributes over concatenation |
| Seqs.FilterUpdateWhere | src/store/nutrition-store.ts:52-64 | rewriting only elements the predicate rejects, into elements it also rejects, does not change the filtered list |
| Seqs.UpdateWhere | src/store/event-store.ts:62-66 | `map` with a conditional rewrite: same length, unselected elements unchanged, selected ones rewritten |
| Seqs.MapSeq | src/store/habit-store.ts:105 | `map`: same length, element i is f of element i |
| Seqs.RelativeIndex | src/store/habit-store.ts:102-103 | a `slice`/`splice` index: negative counts from the end, clamped to 0..length |
| Seqs.FindIndex | src/store/habit-store.ts:111-113 | the index of the first element satisfying the predicate, or none when no element does |
| Seqs.Find | src/store/habit-store.ts:111-113 | `find` returns an element of the list that satisfies the predicate (the one at the first matching index), and none exactly when no element satisfies |
| Seqs.SortedPrefixComesFirst | src/store/event-store.ts:226-227 | in a sorted list every element of a prefix has a key no larger than any element left out |
| Seqs.FilterSorted | src/store/event-store.ts:216-219 | filtering a sorted list keeps it sorted |
| Seqs.Insert | src/store/sleep-store.ts:103 | inserting before the first element with a key not smaller keeps the list sorted and adds exactly one element |
| Seqs.SortBy | src/store/sleep-store.ts:101-103 | the sort returns a sorted permutation of its input |
| Seqs.FilterDistinct | src/store/sleep-store.ts:57 | filtering keeps keys distinct |
| Seqs.InsertDistinct | src/store/sleep-store.ts:103 | inserting an element whose key is new keeps keys distinct |
| Seqs.SortByDistinct | src/store/sleep-store.ts:92 | sorting keeps keys distinct |
| Seqs.SumAppend | src/store/sleep-store.ts:126-127 | `reduce` to a sum distributes over concatenation |
| Seqs.SumBounds | src/store/mood-store.ts:101 | a sum of n terms each within [lo, hi] lies within [n*lo, n*hi] |
| Streak.WalkFrom | src/store/habit-store.ts:41-56 | the walk counts at most every listed day |
| Streak.WalkStopsAtFirstGap | src/store/habit-store.ts:44-54 | every counted day is 0 or 1 day before the cursor, and the first uncounted day is not |
| Streak.WalkIsLeadingRun | src/store/habit-store.ts:44-54 | conversely, a continuing run followed by a gap or the end is exactly the count |
| Streak.NoStreakWithoutRecentDay | src/store/habit-store.ts:44-53 | when the newest day is neither today nor yesterday, the streak is 0 |
| Streak.ThreeConsecutiveDays | src/store/habit-store.ts:44-54 | today, yesterday and the day before at the head give a streak of at least 3, and exactly 3 when nothing else is listed |
| Streak.GapBreaksStreak | src/store/habit-store.ts:48-53 | today and two days ago, with yesterday missing, give a streak of 1 |
| Streak.RunAtHead | src/store/habit-store.ts:35-37 | in a descending list bounded by `top`, a run of days ending at `top` sits at the head of the list |
| Streak.RunDayContinues | src/store/habit-store.ts:48-50 | each day of a run ending today or yesterday continues the walk |
| Streak.RunEndsAtGap | src/store/habit-store.ts:51-53 | the day after such a run does not continue the walk |
| Streak.WalkCountsRunEndingAt | src/store/habit-store.ts:41-56 | with the day before the run missing, the walk counts exactly the run |
| Streak.WalkCountsConsecutiveRun | src/store/habit-store.ts:34-57 | with distinct days none after today, the streak is the length of the run of consecutive days ending today, or ending yesterday when today is missing |
| Streak.CountStreak | src/store/habit-store.ts:41-56 | the loop with the day cursor computes the walk |
| Streak.CountStreakFromInstant | src/store/sleep-store.ts:171-188 | the loop whose cursor is an instant computes the same walk, started at today |
| Streak.NewestFirstDays | src/store/habit-store.ts:37 | sorting newest first and keeping days gives a descending list with the same days |
| Levels.ThresholdsAscending | src/types/gamification.ts:47-59 | the level table is strictly ascending |
| Levels.SearchLevel | src/types/gamification.ts:62-67 | the downward search returns the first reached threshold's level, or 1 |
| Levels.CalculateLevel | src/types/gamification.ts:61-68 | the level is in 1..11, its threshold is reached, and the next level's is not |
| Levels.CalculateLevelMonotone | src/types/gamification.ts:61-68 | more points never give a lower level |
| Levels.LevelExamples | src/types/gamification.ts:47-68 | 0 and 99 points give level 1, 100 gives 2, 14999 gives 10, 15000 and more give 11, negative totals give 1 |
| Levels.ExperienceToNextLevel | src/types/gamification.ts:70-74 | the distance to the next threshold; beyond the table the next threshold is 15000 + 5000; positive below 20000 points |
| Gamification.Unlocked | src/store/gamification-store.ts:65-71 | the ledger after an unlock holds the id, appended only when new, and has no duplicates if it had none |
| Gamification.UnlockIdempotent | src/store/gamification-store.ts:65-71 | unlocking twice is unlocking once |
| Gamification.ChallengeProgress | src/store/gamification-store.ts:73-99 | progress is added; the reward is paid exactly when the value crosses the target from below; no challenge means no change |
| Gamification.NoRewardAfterCompletion | src/store/gamification-store.ts:80-90 | once the target is reached, further non-negative reports pay nothing |
| Gamification.ChallengeExample | src/store/gamification-store.ts:77-97 | target 5, value 4, reward 50: a report of 2 pays 50; a further report pays nothing |
| Gamification.GamificationStore.constructor | src/store/gamification-store.ts:41-48 | the initial state: 0 points, level 1, 100 to next level, no achievements, no challenge, streaks 0 |
| Gamification.GamificationStore.AddPoints | src/store/gamification-store.ts:50-63 | both totals move by the points; level and experience are recomputed from the new total; nothing else changes |
| Gamification.GamificationStore.UnlockAchievement | src/store/gamification-store.ts:65-71 | the ledger becomes the unlocked ledger; the achievement is held afterwards; nothing else changes |
| Gamification.GamificationStore.UpdateWeeklyChallenge | src/store/gamification-store.ts:73-99 | applies one challenge step and pays its award into both totals; level and experience are not recomputed |
| Gamification.GamificationStore.GenerateWeeklyChallenge | src/store/gamification-store.ts:101-103 | installs the drawn challenge at value 0, expiring at the midnight that starts next week, later than today's midnight and at most seven days on |
| Gamification.GamificationStore.UpdateOverallStreak | src/store/gamification-store.ts:105-119 | a completed day extends the streak and raises the longest one; a missed day resets only the current streak |
| Gamification.GamificationStore.ResetWeeklyPoints | src/store/gamification-store.ts:121-123 | only the weekly points become 0 |
| Gamification.GamificationStore.HasAchievement | src/store/gamification-store.ts:125-127 | true exactly when some position of the unlocked list holds the id |
| Gamification.GamificationStore.GetProgress | src/store/gamification-store.ts:129-145 | points into the level and the level's width from the threshold table, the width always positive, the percentage capped at 100 |
| Habits.FindLog | src/store/habit-store.ts:111-113 | the day's log of the habit, none exactly when no log has that habit and date |
| Habits.FindLogUnique | src/store/habit-store.ts:111-113 | with one log per habit and day, the lookup returns that log |
| Habits.KeysKept | src/store/habit-store.ts:117-121 | rewriting logs without touching habit, date or id keeps one log per habit and day |
| Habits.AppendKept | src/store/habit-store.ts:124-131 | appending a log for a new habit and day, with a fresh id, keeps one log per habit and day |
| Habits.Flipped | src/store/habit-store.ts:119 | the toggled log has its flag flipped, a completion time exactly when completed, and nothing else changed |
| Habits.ToggleCompletion | src/store/habit-store.ts:110-132 | a toggle flips the existing log of the day or appends a completed one, and keeps one log per habit and day |
| Habits.ToggleTwiceRestoresFlag | src/store/habit-store.ts:110-132 | toggling an existing day twice restores its completion flag |
| Habits.IncrementCounts | src/store/habit-store.ts:150-179 | an increment adds one to the day's count, or starts a new log at 1, completed by the target rule, and keeps the invariant |
| Habits.DecrementCounts | src/store/habit-store.ts:181-199 | a decrement does nothing without a log or at count 0; otherwise it subtracts one and recomputes completion |
| Habits.CompletedLogsOf | src/store/habit-store.ts:35-36 | the habit's completed logs, exactly |
| Habits.CalculateStreak | src/store/habit-store.ts:34-57 | the loop computes the walk over the habit's completed days, newest first, and gives 0 with no completed log |
| Habits.CompletedDaysShape | src/store/habit-store.ts:35-37 | with one log per habit and day, the completed days are strictly descending and are exactly the days done |
| Habits.StreakIsConsecutiveRun | src/store/habit-store.ts:34-57 | the habit streak is the run of consecutive completed days ending today, or yesterday |
| Habits.StreakBounds | src/store/habit-store.ts:39 | no completed log gives streak 0; the streak never exceeds the number of completed logs |
| Habits.HabitsWithout | src/store/habit-store.ts:86 | exactly the habits with the id are removed |
| Habits.LogsWithout | src/store/habit-store.ts:87 | every log of the deleted habit goes, every other log stays, and the invariant is kept |
| Habits.UpdatedHabits | src/store/habit-store.ts:76-82 | the patch lands on the habits with the id only |
| Habits.ActiveToggled | src/store/habit-store.ts:91-97 | the habits with the id have `active` negated; nothing else changes |
| Habits.Moved | src/store/habit-store.ts:101-103 | the two splices keep the same elements, and the element at the start index lands at the end index |
| Habits.Reordered | src/store/habit-store.ts:99-108 | the moved list is renumbered so that each habit's order is its index |
| Habits.StreakRecord | src/store/habit-store.ts:136-146 | the cached record holds the new streak, a longest streak equal to the larger of it and the previous longest (0 when none), and the date |
| Habits.StreakRecordKeepsValid | src/store/habit-store.ts:137-147 | writing a record keeps every cached longest streak at least its current one |
| Habits.HabitStore.constructor | src/store/habit-store.ts:62-64 | no habits, no logs, no streaks |
| Habits.HabitStore.AddHabit | src/store/habit-store.ts:66-74 | appends the habit with a fresh id, the creation time and the next order |
| Habits.HabitStore.UpdateHabit | src/store/habit-store.ts:76-82 | habits become the patched habits; logs and streaks unchanged |
| Habits.HabitStore.DeleteHabit | src/store/habit-store.ts:84-89 | removes the habit and cascades to its logs |
| Habits.HabitStore.ToggleHabitActive | src/store/habit-store.ts:91-97 | habits become the active-toggled habits |
| Habits.HabitStore.ReorderHabits | src/store/habit-store.ts:99-108 | habits become the reordered habits |
| Habits.HabitStore.ToggleHabitCompletion | src/store/habit-store.ts:110-148 | with `today` the day of `now`, logs become the toggled logs; the habit's streak record is recomputed from them; the invariant holds |
| Habits.HabitStore.IncrementHabitCount | src/store/habit-store.ts:150-179 | logs become the incremented logs for the found habit; streaks are not refreshed |
| Habits.HabitStore.DecrementHabitCount | src/store/habit-store.ts:181-199 | logs become the decremented logs; streaks are not refreshed |
| Habits.HabitStore.GetActiveHabits | src/store/habit-store.ts:201-203 | exactly the active habits, sorted by order |
| Habits.HabitStore.GetLogsForDate | src/store/habit-store.ts:205-212 | exactly the logs of the date |
| Habits.HabitStore.GetHabitStreak | src/store/habit-store.ts:214-216 | the cached current streak, or 0 when none is cached |
| Habits.HabitStore.IsHabitCompletedToday | src/store/habit-store.ts:218-224 | true exactly when the habit has a completed log today |
| Sleep.SleepMinutes | src/store/sleep-store.ts:29-33 | the minutes from bed to wake; positive exactly when waking after going to bed |
| Sleep.RolledWakeTime | src/app/sleep/page.tsx:124-128 | a wake time at or before bed time moves one day later |
| Sleep.RolledNightIsPositive | src/app/sleep/page.tsx:124-128 | for bed and wake on one date, the rolled night lasts from 1 to 1440 minutes |
| Sleep.NewEntry | src/store/sleep-store.ts:42-52 | the new entry carries the computed duration, a fresh id and the creation time |
| Sleep.EntriesOn | src/store/sleep-store.ts:57 | exactly the entries of the date |
| Sleep.Upserted | src/store/sleep-store.ts:54-60 | the new entry is last, after the kept entries |
| Sleep.UpsertByDate | src/store/sleep-store.ts:54-60 | afterwards the new entry is the only one of its date, and every other date is unchanged |
| Sleep.UpdatedEntry | src/store/sleep-store.ts:65-76 | fields merge; the duration is recomputed when bed or wake time is supplied and kept otherwise; an empty patch changes nothing |
| Sleep.UpdatedEntries | src/store/sleep-store.ts:63-78 | only entries with the id change |
| Sleep.EntriesWithoutId | src/store/sleep-store.ts:80-84 | exactly the entries with the id are removed |
| Sleep.Latest | src/store/sleep-store.ts:90-94 | an entry of the latest date, none for no entries |
| Sleep.SleepStreakIsConsecutiveRun | src/store/sleep-store.ts:165-189 | with one entry per date, none after today, the sleep streak is the run of consecutive nights ending today or yesterday |
| Sleep.Shortfall | src/store/sleep-store.ts:132-133 | never negative; positive exactly when the night is shorter than the target |
| Sleep.SleepDebt | src/store/sleep-store.ts:131-134 | the debt is never negative |
| Sleep.SurplusNightAddsNoDebt | src/store/sleep-store.ts:131-134 | a night at or above the target adds no debt |
| Sleep.DebtCoversEachNight | src/store/sleep-store.ts:131-134 | the debt is at least each night's shortfall |
| Sleep.DebtExample | src/store/sleep-store.ts:131-134 | nights of 420, 480, 390 and four of 480 minutes against 8 hours owe 150 minutes |
| Sleep.WeeklyTrend | src/store/sleep-store.ts:136-150 | stable below four entries; otherwise improving or declining when the later half's mean exceeds the earlier half's by more than 15 minutes either way |
| Sleep.MeanOfConstant | src/store/sleep-store.ts:143-146 | nights of one length have that length as their mean |
| Sleep.ConstantNightsAreStable | src/store/sleep-store.ts:136-150 | equal nights give a stable trend |
| Sleep.SleepStore.constructor | src/store/sleep-store.ts:38-39 | no entries, target 8 hours |
| Sleep.SleepStore.AddEntry | src/store/sleep-store.ts:41-61 | entries become the upsert of the new entry |
| Sleep.SleepStore.UpdateEntry | src/store/sleep-store.ts:63-78 | entries become the updated entries |
| Sleep.SleepStore.DeleteEntry | src/store/sleep-store.ts:80-84 | entries lose the id |
| Sleep.SleepStore.SetTargetSleepHours | src/store/sleep-store.ts:86-88 | only the target changes |
| Sleep.SleepStore.GetLastEntry | src/store/sleep-store.ts:90-94 | sorts the stored entries newest first in place, a permutation, and returns an entry of the latest date |
| Sleep.SleepStore.GetEntryForDate | src/store/sleep-store.ts:96-98 | an entry of the date, none exactly when no entry has it |
| Sleep.SleepStore.GetEntriesForDateRange | src/store/sleep-store.ts:100-104 | exactly the entries within the inclusive range, sorted by date |
| Sleep.SleepStore.GetWeekEntries | src/store/sleep-store.ts:106-110 | the entries from seven days ago through today, each as often as stored, sorted |
| Sleep.SleepStore.GetSleepStats | src/store/sleep-store.ts:112-159 | all zero and stable for an empty week; otherwise the mean duration, the mean quality, the debt and the trend of the week's entries |
| Sleep.SleepStore.GetSleepDebt | src/store/sleep-store.ts:161-163 | the stats' debt, never negative, zero for an empty week |
| Sleep.SleepStore.GetSleepStreak | src/store/sleep-store.ts:165-189 | sorts the stored entries in place and returns the walk over their dates from now |
| Mood.EmojiLookup | src/types/mood.ts:29-40 | an emoji for each score 1..10, nothing otherwise |
| Mood.AddedEmoji | src/store/mood-store.ts:32 | the table's emoji, or the neutral face outside 1..10 |
| Mood.EmojisDistinct | src/types/mood.ts:29-40 | no two scores share an emoji |
| Mood.EntriesOn | src/store/mood-store.ts:47 | exactly the entries of the date |
| Mood.NewEntry | src/store/mood-store.ts:31-41 | the new entry has a fresh id, the emoji of its score and both time stamps at now |
| Mood.Added | src/store/mood-store.ts:43-50 | the new entry is last, after the kept entries |
| Mood.AddEntryReplacesToday | src/store/mood-store.ts:43-50 | the entries dated today are dropped, whatever the new entry's date; a back-dated entry is added beside its date's entries |
| Mood.UpdatedEntry | src/store/mood-store.ts:55-66 | fields merge; a truthy new score sets the emoji from the table without fallback; updatedAt becomes now |
| Mood.UpdateOutOfRangeDropsEmoji | src/store/mood-store.ts:60-62 | an update to score 11 leaves no emoji, while adding with score 11 stores the neutral face |
| Mood.UpdatedEntries | src/store/mood-store.ts:53-68 | only entries with the id change |
| Mood.EntriesWithoutId | src/store/mood-store.ts:70-74 | exactly the entries with the id are removed |
| Mood.MeanWithinBounds | src/store/mood-store.ts:101-102 | the mean lies within bounds that hold for every entry |
| Mood.MeanBetweenExtremes | src/store/mood-store.ts:101-102 | the mean lies between the lowest and the highest score |
| Mood.MoodStreakIsConsecutiveRun | src/store/mood-store.ts:117-141 | with one entry per date, none after today, the mood streak is the run of consecutive days ending today or yesterday |
| Mood.MoodStore.constructor | src/store/mood-store.ts:29 | no entries |
| Mood.MoodStore.AddEntry | src/store/mood-store.ts:31-51 | with `today` the day of `now`, as both come from one clock reading, entries become the added entries for today |
| Mood.MoodStore.UpdateEntry | src/store/mood-store.ts:53-68 | entries become the updated entries |
| Mood.MoodStore.DeleteEntry | src/store/mood-store.ts:70-74 | entries lose the id |
| Mood.MoodStore.GetTodayEntry | src/store/mood-store.ts:76-79 | an entry dated today, none exactly when there is none |
| Mood.MoodStore.GetEntriesForDateRange | src/store/mood-store.ts:81-85 | exactly the entries within the inclusive range, sorted by date |
| Mood.MoodStore.GetWeekEntries | src/store/mood-store.ts:87-91 | the entries from seven days ago through today, each as often as stored, sorted |
| Mood.MoodStore.WindowAverage | src/store/mood-store.ts:93-115 | 0 for an empty window, otherwise the mean, within 1..10 when all scores are |
| Mood.MoodStore.GetAverageMood | src/store/mood-store.ts:93-103 | 0 for an empty window, otherwise within 1..10 for scores in 1..10 |
| Mood.MoodStore.GetAverageStress | src/store/mood-store.ts:105-115 | the same for stress levels |
| Mood.MoodStore.GetMoodStreak | src/store/mood-store.ts:117-141 | sorts the stored entries in place and returns the walk over their dates from now |
| Events.DayNumber | src/store/event-store.ts:10-18 | each weekday maps to a number in 0..6 |
| Events.NewEvent | src/store/event-store.ts:47-58 | not completed, not skipped, fresh id, both time stamps now, other fields the caller's |
| Events.Patched | src/store/event-store.ts:64 | fields merge, id and creation kept, updatedAt now |
| Events.UpdatedEvents | src/store/event-store.ts:60-68 | only events with the id change |
| Events.EventsWithoutId | src/store/event-store.ts:70-74 | exactly the events with the id are removed |
| Events.CompletionToggled | src/store/event-store.ts:76-84 | the events with the id have completion negated and a new update time |
| Events.ToggleTwiceRestores | src/store/event-store.ts:76-84 | toggling twice restores every event apart from its update time |
| Events.SkipMarked | src/store/event-store.ts:86-94 | the events with the id become skipped |
| Events.SkipIdempotent | src/store/event-store.ts:86-94 | skipping twice is skipping once, at the later time |
| Events.RescheduleClones | src/store/event-store.ts:96-123 | an unknown id changes nothing; otherwise the original is marked skipped and a copy with the new times, a fresh id and a back reference is appended |
| Events.WithoutClassEvents | src/store/event-store.ts:179-184 | exactly the events with a set class id are removed |
| Events.ClassDrafts | src/store/event-store.ts:138-169 | the innermost loop generates only class events of that class, from `now` on |
| Events.WeekDrafts | src/store/event-store.ts:137-170 | one week generates only events of the given classes |
| Events.SyncDrafts | src/store/event-store.ts:134-171 | all weeks generate only events of the given classes |
| Events.Numbered | src/store/event-store.ts:152 | the k-th pushed event gets the k-th fresh id |
| Events.NumberedPush | src/store/event-store.ts:151-167 | pushing one more draft numbers it after the others |
| Events.ClassDraftsStep | src/store/event-store.ts:138-168 | one more day extends the innermost loop's output by that day's slot when it is not in the past |
| Events.WeekDraftsStep | src/store/event-store.ts:137-169 | one more class extends the week's output by that class's drafts |
| Events.PushClassDays | src/store/event-store.ts:138-169 | the innermost loop pushes exactly the class's drafts, numbered in order |
| Events.PushWeek | src/store/event-store.ts:137-170 | the middle loop pushes exactly the week's drafts, numbered in order |
| Events.GenerateClassEvents | src/store/event-store.ts:129-171 | the loops push exactly the numbered drafts of every week |
| Events.SyncedEvents | src/store/event-store.ts:125-177 | every non-class event survives; every event afterwards is an old non-class event or a generated one |
| Events.ClassDraftsCover | src/store/event-store.ts:138-168 | every listed day of a class whose slot is not in the past is generated |
| Events.WeekDraftsCover | src/store/event-store.ts:137-169 | the same for every class of a week |
| Events.SyncDraftsCover | src/store/event-store.ts:134-171 | the same for every week |
| Events.SyncCoversEverySlot | src/store/event-store.ts:125-177 | after a sync, every future slot of every class in every week is present as a class event |
| Events.ClassSlots | src/store/event-store.ts:138-168 | the slots the innermost loop visits: ascending, and exactly the class's listed days in that week that start at or after now |
| Events.WeekSlots | src/store/event-store.ts:137-169 | the slots of one week: ascending, and exactly the due slots of that week |
| Events.SyncSlots | src/store/event-store.ts:134-171 | the slots of all the weeks ahead: ascending, so each once, and exactly the due slots |
| Events.ClassDraftsAreSlotDrafts | src/store/event-store.ts:138-168 | the innermost loop's drafts are, position by position, the drafts of its slots |
| Events.WeekDraftsAreSlotDrafts | src/store/event-store.ts:137-169 | the same for one week |
| Events.SyncDraftsAreSlotDrafts | src/store/event-store.ts:134-171 | the same for all the weeks ahead |
| Events.DueSlotsAreSyncSlots | src/store/event-store.ts:134-171 | the set of due slots is the set of slots the loops visit |
| Events.SyncDraftsAreDueSlots | src/store/event-store.ts:134-171 | every generated draft is the draft of a due slot, and there are exactly as many drafts as due slots |
| Events.SyncedEventsAreDueSlots | src/store/event-store.ts:125-177 | after a sync: the kept non-class events in order, then one event per visited slot (each due slot once) in slot order, the k-th with the k-th fresh id, and nothing else |
| Events.SyncedEventsCount | src/store/event-store.ts:125-177 | a sync leaves as many events as it keeps plus one per due slot |
| Events.GeneratedIsDue | src/store/event-store.ts:134-171 | each generated event is, up to its id, the draft of a due slot |
| Events.SyncedEventIsKeptOrDue | src/store/event-store.ts:125-177 | every event after a sync is a kept non-class event or, up to its id, the event of a due slot |
| Events.SyncTwiceIsSyncOnce | src/store/event-store.ts:125-184 | with non-empty class ids, syncing twice equals one sync that draws the second sync's fresh ids |
| Events.EventStore.constructor | src/store/event-store.ts:44-45 | no events; classes not generated |
| Events.EventStore.AddEvent | src/store/event-store.ts:47-58 | appends the new event |
| Events.EventStore.UpdateEvent | src/store/event-store.ts:60-68 | events become the updated events |
| Events.EventStore.DeleteEvent | src/store/event-store.ts:70-74 | events lose the id |
| Events.EventStore.ToggleEventComplete | src/store/event-store.ts:76-84 | events become the toggled events |
| Events.EventStore.SkipEvent | src/store/event-store.ts:86-94 | events become the skip-marked events |
| Events.EventStore.RescheduleEvent | src/store/event-store.ts:96-123 | events become the rescheduled events |
| Events.EventStore.ClearClassEvents | src/store/event-store.ts:179-184 | class events removed; the generated flag cleared |
| Events.EventStore.SyncClassesFromUser | src/store/event-store.ts:125-177 | events become the synced events; the generated flag set |
| Events.EventStore.GetEventsForDate | src/store/event-store.ts:186-199 | exactly the events starting in the day, ending in it or spanning it |
| Events.EventStore.GetEventsForWeek | src/store/event-store.ts:201-213 | exactly the events starting or ending in the week |
| Events.EventStore.GetTodayEvents | src/store/event-store.ts:215-220 | exactly today's unskipped events, each as often as in the store, sorted by start |
| Events.EventStore.GetUpcomingEvents | src/store/event-store.ts:222-228 | pending future events only, no event more often than among the pending ones, sorted by start, as many as the slice keeps |
| Events.UpcomingAreEarliest | src/store/event-store.ts:222-228 | every pending event left out starts no earlier than every one listed |
| Events.WeekQueryMissesSpanningEvent | src/store/event-store.ts:201-213 | an event spanning the whole week is listed for a day but not for its week |
| Events.DayEventsAreWeekEvents | src/store/event-store.ts:186-213 | apart from whole-day spans, the day's events are the week's events |
| Nutrition.NewMeal | src/store/nutrition-store.ts:42-50 | the caller's meal with a fresh id |
| Nutrition.PatchedMeal | src/store/nutrition-store.ts:55 | fields merge; the id is kept |
| Nutrition.UpdatedMeals | src/store/nutrition-store.ts:52-58 | only meals with the id change |
| Nutrition.MealsWithoutId | src/store/nutrition-store.ts:60-64 | exactly the meals with the id are removed |
| Nutrition.UpdateMealTouchesOnlyId | src/store/nutrition-store.ts:52-64 | an update leaves every meal with another id as it was |
| Nutrition.MergedGoals | src/store/nutrition-store.ts:66-70 | a shallow merge: absent fields are kept, and a supplied meal-times object replaces the old one whole |
| Nutrition.SetGoalsIdempotent | src/store/nutrition-store.ts:66-70 | setting the same goals twice is setting them once; an empty update changes nothing |
| Nutrition.MealsOn | src/store/nutrition-store.ts:77-79 | exactly the meals of the date |
| Nutrition.AddMealNeverReplaces | src/store/nutrition-store.ts:42-50 | adding a meal keeps every meal of its date and adds the new one |
| Nutrition.ExpectedMealsOrdered | src/store/nutrition-store.ts:112 | breakfast, lunch and dinner are in meal order, each once |
| Nutrition.LoggedTypes | src/store/nutrition-store.ts:110-111 | each listed type was logged on the date |
| Nutrition.LoggedTypesComplete | src/store/nutrition-store.ts:110-111 | each type logged on the date is listed |
| Nutrition.MissingMeals | src/store/nutrition-store.ts:109-114 | in meal order, each at most once, at most three |
| Nutrition.MissingMealsMeaning | src/store/nutrition-store.ts:109-114 | a type is missing exactly when it is a main meal not logged on the date |
| Nutrition.SnackDoesNotCount | src/store/nutrition-store.ts:112-113 | a day with only a snack misses breakfast, lunch and dinner |
| Nutrition.FullDayMissesNothing | src/store/nutrition-store.ts:109-114 | a day with all three main meals misses nothing |
| Nutrition.Last7Days | src/store/nutrition-store.ts:83-85 | seven days, exactly today and the six before |
| Nutrition.InLast7DaysIsListed | src/store/nutrition-store.ts:87 | the window test is membership in the seven listed days |
| Nutrition.WeekMeals | src/store/nutrition-store.ts:87 | exactly the meals of the last seven days |
| Nutrition.DatesOf | src/store/nutrition-store.ts:88 | the set of dates with a meal, no larger than the number of meals |
| Nutrition.DayRange | src/store/nutrition-store.ts:83-85 | n consecutive days, exactly |
| Nutrition.SubsetOfRange | src/store/nutrition-store.ts:88 | a set of days inside n consecutive days has at most n, and all of them when it has n |
| Nutrition.WeeklyStatsOf | src/store/nutrition-store.ts:81-107 | meals per day over 7, mean quality, water over 7 (0 for an empty week), and the share of days with a meal |
| Nutrition.NoDaysWithoutMeals | src/store/nutrition-store.ts:88 | no dates exactly when the week has no meal |
| Nutrition.AtMostSevenDays | src/store/nutrition-store.ts:83-88 | the dates lie in the window, so there are at most seven |
| Nutrition.WindowDay | src/store/nutrition-store.ts:87-88 | a window day is counted exactly when it has a meal |
| Nutrition.FullWeekHasSevenDays | src/store/nutrition-store.ts:87-88 | a meal every day gives the whole window |
| Nutrition.SevenDatesFillWindow | src/store/nutrition-store.ts:88 | seven dates are every day of the window |
| Nutrition.SevenDaysCoverWeek | src/store/nutrition-store.ts:88 | seven dates means a meal every day |
| Nutrition.SevenDaysWithMeals | src/store/nutrition-store.ts:88 | seven dates exactly when every day of the window has a meal |
| Nutrition.ConsistencyBounds | src/store/nutrition-store.ts:99 | consistency lies in 0..100, is 0 exactly for an empty week, and 100 exactly when every day has a meal |
| Nutrition.QuotientBounds | src/store/nutrition-store.ts:93 | a total of n terms within [lo, hi], divided by n, lies within [lo, hi] |
| Nutrition.AverageQualityBounds | src/store/nutrition-store.ts:91-94 | with ratings 1..5 the mean quality is 0 or within 1..5 |
| Nutrition.OldMealsDoNotCount | src/store/nutrition-store.ts:81-107 | a meal outside the window changes no statistic |
| Nutrition.NutritionStore.constructor | src/store/nutrition-store.ts:31-40 | no meals; 8 glasses, 3 meals, meal times 08:00, 12:30 and 18:30 |
| Nutrition.NutritionStore.AddMeal | src/store/nutrition-store.ts:42-50 | appends the new meal |
| Nutrition.NutritionStore.UpdateMeal | src/store/nutrition-store.ts:52-58 | meals become the updated meals |
| Nutrition.NutritionStore.DeleteMeal | src/store/nutrition-store.ts:60-64 | meals lose the id |
| Nutrition.NutritionStore.SetGoals | src/store/nutrition-store.ts:66-70 | goals become the merged goals |
| Nutrition.NutritionStore.GetMealsByDate | src/store/nutrition-store.ts:77-79 | exactly the meals of the date |
| Nutrition.NutritionStore.GetTodayMeals | src/store/nutrition-store.ts:72-75 | the meals of today's date |
| Nutrition.NutritionStore.GetWeeklyStats | src/store/nutrition-store.ts:81-107 | consistency within 0..100; every figure 0 for an empty week |
| Nutrition.NutritionStore.GetMissingMeals | src/store/nutrition-store.ts:109-114 | exactly the main meals not logged on the date, at most three |
| User.UpdatedUser | src/store/user-store.ts:52-63 | fields merge; id and creation kept; updatedAt now |
| User.UpdateUserLaws | src/store/user-store.ts:52-63 | an empty update only stamps the time; the same update twice equals once |
| User.Onboarded | src/store/user-store.ts:65-76 | the flag set and the time stamped, nothing else changed |
| User.OnboardingIsAnUpdate | src/store/user-store.ts:52-76 | completing onboarding is the update that sets the flag, and is idempotent |
| User.NewClass | src/store/user-store.ts:78-94 | the caller's class with a fresh id |
| User.ClassesWithout | src/store/user-store.ts:96-107 | exactly the classes with the id are removed |
| User.PatchedClass | src/store/user-store.ts:114 | fields merge; the id is kept |
| User.UpdatedClasses | src/store/user-store.ts:109-122 | only classes with the id change |
| User.UpdateClassTouchesOnlyId | src/store/user-store.ts:109-122 | an update leaves every class with another id as it was |
| User.RemoveUndoesAddClass | src/store/user-store.ts:78-107 | removing a freshly added class restores the list |
| User.NewGoal | src/store/user-store.ts:124-141 | a fresh, uncompleted goal with the caller's fields |
| User.GoalsWithout | src/store/user-store.ts:143-154 | exactly the goals with the id are removed |
| User.ToggledGoals | src/store/user-store.ts:156-169 | the goals with the id have completion negated |
| User.ToggleGoalTwice | src/store/user-store.ts:156-169 | toggling twice restores the goals |
| User.RemoveUndoesAddGoal | src/store/user-store.ts:124-154 | removing a freshly added goal restores the list |
| User.UserStore.constructor | src/store/user-store.ts:48 | no user |
| User.UserStore.SetUser | src/store/user-store.ts:50 | the user is set |
| User.UserStore.UpdateUser | src/store/user-store.ts:52-63 | no user, no change; otherwise the updated user |
| User.UserStore.CompleteOnboarding | src/store/user-store.ts:65-76 | no user, no change; otherwise the onboarded user |
| User.UserStore.AddClass | src/store/user-store.ts:78-94 | no user, no change; otherwise the class is appended and the time stamped |
| User.UserStore.RemoveClass | src/store/user-store.ts:96-107 | no user, no change; otherwise the class is removed and the time stamped |
| User.UserStore.UpdateClass | src/store/user-store.ts:109-122 | no user, no change; otherwise the classes are updated and the time stamped |
| User.UserStore.AddGoal | src/store/user-store.ts:124-141 | no user, no change; otherwise the goal is appended and the time stamped |
| User.UserStore.RemoveGoal | src/store/user-store.ts:143-154 | no user, no change; otherwise the goal is removed and the time stamped |
| User.UserStore.ToggleGoalComplete | src/store/user-store.ts:156-169 | no user, no change; otherwise the goal is toggled and the time stamped |
| User.UserStore.ResetUser | src/store/user-store.ts:171 | no user |
| Chat.NewSession | src/store/chat-store.ts:35-52 | an empty session with the fresh id, the current energy and today's date |
| Chat.NewSessionIsFound | src/store/chat-store.ts:35-52 | after creation with a fresh id, the current-session lookup finds the new session |
| Chat.SessionsWithout | src/store/chat-store.ts:113-119 | exactly the sessions with the id are removed |
| Chat.DeletedSessionIsNotFound | src/store/chat-store.ts:113-124 | after deletion no session with that id is found |
| Chat.NewMessage | src/store/chat-store.ts:54-68 | the caller's message with a fresh id and the time |
| Chat.WithMessage | src/store/chat-store.ts:54-68 | the message is appended to the sessions with the id only |
| Chat.PatchedMessage | src/store/chat-store.ts:75-79 | fields merge; id and time kept |
| Chat.MessageUpdated | src/store/chat-store.ts:70-83 | within the session, only messages with the id change |
| Chat.Cleared | src/store/chat-store.ts:105-111 | the sessions with the id lose all messages |
| Chat.ClearForgetsMessages | src/store/chat-store.ts:54-111 | clearing after adding equals clearing; clearing twice equals once |
| Chat.EnergyRecorded | src/store/chat-store.ts:89-103 | the sessions with the id record the energy level in their context |
| Chat.RecentMessages | src/store/chat-store.ts:126-130 | a suffix of the messages; exactly `limit` long when there are enough; all messages for limit 0 or a large limit |
| Chat.RecentMessagesDefault | src/store/chat-store.ts:126-130 | the default keeps at most the last ten messages |
| Chat.ChatStore.constructor | src/store/chat-store.ts:31-33 | no sessions, no current session, normal energy |
| Chat.ChatStore.GetCurrentSession | src/store/chat-store.ts:121-124 | the session whose id is current, none exactly when there is none |
| Chat.ChatStore.CreateSession | src/store/chat-store.ts:35-52 | with `today` the day of `now`, appends the new session, makes it current, returns its id, and it is then found |
| Chat.ChatStore.AddMessage | src/store/chat-store.ts:54-68 | sessions become the sessions with the message |
| Chat.ChatStore.UpdateMessage | src/store/chat-store.ts:70-83 | sessions become the updated sessions |
| Chat.ChatStore.SetCurrentSession | src/store/chat-store.ts:85-87 | only the current id changes |
| Chat.ChatStore.SetEnergyLevel | src/store/chat-store.ts:89-103 | the level is set, and recorded in the current session when a current id is set |
| Chat.ChatStore.ClearSession | src/store/chat-store.ts:105-111 | sessions become the cleared sessions |
| Chat.ChatStore.DeleteSession | src/store/chat-store.ts:113-119 | the session goes, the current id is dropped if it was that session's, and the deleted session is never current afterwards |
| Chat.ChatStore.GetRecentMessages | src/store/chat-store.ts:126-130 | the recent messages of the current session, none without one |

## Left out

- Persistence: local-storage serialisation, rehydration and the event store's `Date` revival are not modelled; the stores start from their initial state.
- The clock, `uuidv4`, `Date.now()` ids and `Math.random` are parameters. Fresh ids are assumed to be unused where a lemma needs it.
- Time zones and daylight-saving time are not modelled. Days are exactly 1440 minutes, and `startOfDay`, `startOfWeek` and `parseISO` are day-number arithmetic.
- ISO time-stamp strings are modelled as integers in minutes. Seconds and milliseconds are dropped.
- The `HH:mm` times of a class are taken as already split into hours and minutes. Malformed times, which give `NaN` in the source, are not modelled.
- Rounding: `Math.round` in the sleep, mood and nutrition statistics and in the progress percentage is not modelled; the model keeps exact rationals.
- Patches cannot clear an optional field by passing `undefined`. `id` and `createdAt` cannot be patched, although the source's `Partial<T>` types admit them.
- The `reason` argument of `addPoints` is ignored by the source and not modelled.
- `getTodayLogs` is `GetLogsForDate` on today's date. It has no member of its own.
- Habits.HabitStore.ReorderHabits: requires a non-empty list and a start index below its length. With a start index past the end, the source splices in `undefined`, which has no counterpart in the model.
- Habits.Moved: requires the same start index below the list's length, for the same reason.
- Habits.Reordered: requires the same start index below the list's length, for the same reason.
- Seqs.SortBy: is proved to be a sorted permutation but not stable. The stores' results do not depend on stability, except in the order of equal keys.
- Events.SyncTwiceIsSyncOnce: requires every class id to be non-empty. An empty class id gives class events that `clearClassEvents` does not recognise, so they accumulate across syncs.
- The sync loops are written as three methods (`PushClassDays`, `PushWeek`, `GenerateClassEvents`). They push events in the same order as the source's three nested loops.
- Sleep: a bed or wake time that is the empty string counts as supplied in the model, although the source treats it as absent.
- Sleep.SleepStreakIsConsecutiveRun: assumes one entry per date. The walk continues on a difference of 0 as well as 1, so in the source and in the model each further entry of a counted day adds one to the streak; the model computes that walk but states the run meaning only for distinct dates.
- Mood.MoodStreakIsConsecutiveRun: assumes one entry per date, for the same reason as the sleep streak.
- Nutrition: the quality rating is an integer; its 1..5 range is a hypothesis of `AverageQualityBounds`, not a type.
- Mood: the `moodEmoji` field of a patch is ignored, because the store always recomputes or keeps the emoji.
- The unused `initialUser` object and the pages that call the stores are not modelled, apart from the sleep page's wake-time roll.
- The chat API route that talks to the language model is not modelled. A suggestion's event payload is an event patch.
- The weekly-challenge catalogue is the `drawn` parameter. The catalogue constants and the random draw are not part of this model.
