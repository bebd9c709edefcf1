/** The habit store: habit definitions, one completion log per habit and
    day, and a cached streak per habit that is recomputed after every
    completion toggle. */
module Habits {
  import opened Basics
  import opened Seqs
  import opened Streak

  datatype Frequency = Daily | Weekly | SpecificDays
  datatype HabitCategory = Wellness | Productivity | Social | Health | Custom

  datatype Habit = Habit(
    id: Id,
    name: string,
    description: Option<string>,
    icon: string,
    color: string,
    frequency: Frequency,
    targetDays: Option<seq<int>>,
    targetCount: Option<int>,
    category: HabitCategory,
    isPrebuilt: bool,
    pointsPerCompletion: int,
    active: bool,
    createdAt: int,
    order: int)

  datatype HabitLog = HabitLog(
    id: Id,
    habitId: Id,
    date: int,
    completed: bool,
    count: Option<int>,
    notes: Option<string>,
    completedAt: Option<int>)

  datatype HabitStreak = HabitStreak(habitId: Id, currentStreak: int, longestStreak: int, lastCompletedDate: int)

  /** A `Partial<Habit>`: each present field replaces the habit's. */
  datatype HabitPatch = HabitPatch(
    name: Option<string>,
    description: Option<string>,
    icon: Option<string>,
    color: Option<string>,
    frequency: Option<Frequency>,
    targetDays: Option<seq<int>>,
    targetCount: Option<int>,
    category: Option<HabitCategory>,
    isPrebuilt: Option<bool>,
    pointsPerCompletion: Option<int>,
    active: Option<bool>,
    order: Option<int>)

  function Patched(h: Habit, p: HabitPatch): Habit {
    h.(name := Merge(p.name, h.name),
       description := MergeOptional(p.description, h.description),
       icon := Merge(p.icon, h.icon),
       color := Merge(p.color, h.color),
       frequency := Merge(p.frequency, h.frequency),
       targetDays := MergeOptional(p.targetDays, h.targetDays),
       targetCount := MergeOptional(p.targetCount, h.targetCount),
       category := Merge(p.category, h.category),
       isPrebuilt := Merge(p.isPrebuilt, h.isPrebuilt),
       pointsPerCompletion := Merge(p.pointsPerCompletion, h.pointsPerCompletion),
       active := Merge(p.active, h.active),
       order := Merge(p.order, h.order))
  }

  // ---------------------------------------------------------------------
  // Logs: keys, lookup and the one-log-per-day invariant

  function LogKey(l: HabitLog): (Id, int) { (l.habitId, l.date) }
  function LogId(l: HabitLog): Id { l.id }
  function LogDate(l: HabitLog): int { l.date }
  function NewestFirst(l: HabitLog): int { -l.date }

  /** At most one log per (habit, day), and no log id used twice. */
  predicate LogsValid(logs: seq<HabitLog>) {
    DistinctBy(logs, LogKey) && DistinctBy(logs, LogId)
  }

  predicate FreshLogId(logs: seq<HabitLog>, id: Id) {
    forall l :: l in logs ==> l.id != id
  }

  /** The `find` of every logging action: the first log of the habit on the day. */
  function FindLog(logs: seq<HabitLog>, habitId: Id, date: int): (r: Option<HabitLog>)
    ensures r.None? <==> forall l :: l in logs ==> LogKey(l) != (habitId, date)
    ensures r.Some? ==> r.value in logs && LogKey(r.value) == (habitId, date)
  {
    Find(logs, (l: HabitLog) => l.habitId == habitId && l.date == date)
  }

  /** Under the invariant the day's log is the one `find` returns. */
  lemma FindLogUnique(logs: seq<HabitLog>, x: HabitLog)
    requires DistinctBy(logs, LogKey)
    requires x in logs
    ensures FindLog(logs, x.habitId, x.date) == Some(x)
  {
    var y := FindLog(logs, x.habitId, x.date).value;
    var a :| 0 <= a < |logs| && logs[a] == y;
    var b :| 0 <= b < |logs| && logs[b] == x;
    assert LogKey(logs[a]) == LogKey(logs[b]);
    assert a == b;
  }

  /** Rewriting logs without touching their keys or ids keeps the invariant. */
  lemma KeysKept(logs: seq<HabitLog>, r: seq<HabitLog>)
    requires LogsValid(logs)
    requires |r| == |logs|
    requires forall i :: 0 <= i < |logs| ==> LogKey(r[i]) == LogKey(logs[i]) && r[i].id == logs[i].id
    ensures LogsValid(r)
  {
  }

  /** Appending a log with a new key and a fresh id keeps the invariant. */
  lemma AppendKept(logs: seq<HabitLog>, x: HabitLog)
    requires LogsValid(logs)
    requires FindLog(logs, x.habitId, x.date).None?
    requires FreshLogId(logs, x.id)
    ensures LogsValid(logs + [x])
  {
    var r := logs + [x];
    forall i, j | 0 <= i < j < |r| ensures LogKey(r[i]) != LogKey(r[j]) && r[i].id != r[j].id {
      if j == |logs| {
        assert r[i] in logs;
      }
    }
  }

  // ---------------------------------------------------------------------
  // toggleHabitCompletion

  /** The day's log after a toggle: `completed` flipped, `completedAt` stamped
      when it becomes completed and cleared otherwise. */
  function Flipped(l: HabitLog, now: int): (r: HabitLog)
    ensures r.completed == !l.completed
    ensures r.completedAt.Some? <==> r.completed
    ensures r.(completed := l.completed, completedAt := l.completedAt) == l
  {
    l.(completed := !l.completed, completedAt := if !l.completed then Some(now) else None)
  }

  /** The logs after `toggleHabitCompletion(habitId, date)`. */
  function ToggledLogs(logs: seq<HabitLog>, habitId: Id, date: int, freshId: Id, now: int): seq<HabitLog> {
    match FindLog(logs, habitId, date)
    case Some(e) => UpdateWhere(logs, (l: HabitLog) => l.id == e.id, (l: HabitLog) => Flipped(l, now))
    case None => logs + [HabitLog(freshId, habitId, date, true, None, None, Some(now))]
  }

  /** A toggle keeps one log per (habit, day): it flips the existing log in
      place, or appends one new completed log; every other log keeps its
      place and value. */
  lemma ToggleCompletion(logs: seq<HabitLog>, habitId: Id, date: int, freshId: Id, now: int)
    requires LogsValid(logs)
    requires FreshLogId(logs, freshId)
    ensures var r := ToggledLogs(logs, habitId, date, freshId, now);
      && LogsValid(r)
      && FindLog(r, habitId, date) == Some(
           match FindLog(logs, habitId, date)
           case Some(e) => Flipped(e, now)
           case None => HabitLog(freshId, habitId, date, true, None, None, Some(now)))
      && |r| == |logs| + (if FindLog(logs, habitId, date).Some? then 0 else 1)
      && (forall i :: 0 <= i < |logs| && LogKey(logs[i]) != (habitId, date) ==> r[i] == logs[i])
  {
    var r := ToggledLogs(logs, habitId, date, freshId, now);
    match FindLog(logs, habitId, date)
    case Some(e) =>
      var k :| 0 <= k < |logs| && logs[k] == e;
      assert forall i :: 0 <= i < |logs| && i != k ==> logs[i].id != e.id;
      KeysKept(logs, r);
      FindLogUnique(r, r[k]);
    case None =>
      var x := HabitLog(freshId, habitId, date, true, None, None, Some(now));
      AppendKept(logs, x);
      FindLogUnique(r, x);
  }

  /** Toggling the same day twice restores its completion flag. */
  lemma ToggleTwiceRestoresFlag(logs: seq<HabitLog>, habitId: Id, date: int, id1: Id, id2: Id, t1: int, t2: int)
    requires LogsValid(logs)
    requires FreshLogId(logs, id1) && FreshLogId(logs, id2) && id1 != id2
    requires FindLog(logs, habitId, date).Some?
    ensures var twice := ToggledLogs(ToggledLogs(logs, habitId, date, id1, t1), habitId, date, id2, t2);
      FindLog(twice, habitId, date).value.completed == FindLog(logs, habitId, date).value.completed
  {
    ToggleCompletion(logs, habitId, date, id1, t1);
    var once := ToggledLogs(logs, habitId, date, id1, t1);
    assert FreshLogId(once, id2);
    ToggleCompletion(once, habitId, date, id2, t2);
  }

  // ---------------------------------------------------------------------
  // incrementHabitCount / decrementHabitCount

  /** `habit?.targetCount` is truthy. */
  predicate HasTarget(habit: Option<Habit>) {
    habit.Some? && habit.value.targetCount.Some? && habit.value.targetCount.value != 0
  }

  /** Completion after an increment: the target is reached, or true when the
      habit has no target. */
  predicate DoneAfterIncrement(habit: Option<Habit>, count: int) {
    if HasTarget(habit) then count >= habit.value.targetCount.value else true
  }

  /** Completion after a decrement: the target is reached, or the count is
      still positive when the habit has no target. */
  predicate DoneAfterDecrement(habit: Option<Habit>, count: int) {
    if HasTarget(habit) then count >= habit.value.targetCount.value else count > 0
  }

  function IncrementedLogs(logs: seq<HabitLog>, habit: Option<Habit>, habitId: Id, date: int,
                           freshId: Id, now: int): seq<HabitLog>
  {
    match FindLog(logs, habitId, date)
    case Some(e) =>
      var newCount := OrZero(e.count) + 1;
      var done := DoneAfterIncrement(habit, newCount);
      UpdateWhere(logs, (l: HabitLog) => l.id == e.id,
                  (l: HabitLog) => l.(count := Some(newCount), completed := done))
    case None =>
      var done := DoneAfterIncrement(habit, 1);
      logs + [HabitLog(freshId, habitId, date, done, Some(1), None, if done then Some(now) else None)]
  }

  function DecrementedLogs(logs: seq<HabitLog>, habit: Option<Habit>, habitId: Id, date: int): seq<HabitLog> {
    match FindLog(logs, habitId, date)
    case Some(e) =>
      if OrZero(e.count) > 0 then
        var newCount := OrZero(e.count) - 1;
        var done := DoneAfterDecrement(habit, newCount);
        UpdateWhere(logs, (l: HabitLog) => l.id == e.id,
                    (l: HabitLog) => l.(count := Some(newCount), completed := done))
      else logs
    case None => logs
  }

  /** An increment adds one to the day's count (a new log starts at 1) and
      sets `completed` from the target; other logs are untouched. */
  lemma IncrementCounts(logs: seq<HabitLog>, habit: Option<Habit>, habitId: Id, date: int, freshId: Id, now: int)
    requires LogsValid(logs)
    requires FreshLogId(logs, freshId)
    ensures var r := IncrementedLogs(logs, habit, habitId, date, freshId, now);
      var before := FindLog(logs, habitId, date);
      var newCount := (if before.Some? then OrZero(before.value.count) else 0) + 1;
      && LogsValid(r)
      && FindLog(r, habitId, date).Some?
      && FindLog(r, habitId, date).value.count == Some(newCount)
      && FindLog(r, habitId, date).value.completed == DoneAfterIncrement(habit, newCount)
      && (forall i :: 0 <= i < |logs| && LogKey(logs[i]) != (habitId, date) ==> r[i] == logs[i])
  {
    var r := IncrementedLogs(logs, habit, habitId, date, freshId, now);
    match FindLog(logs, habitId, date)
    case Some(e) =>
      var k :| 0 <= k < |logs| && logs[k] == e;
      assert forall i :: 0 <= i < |logs| && i != k ==> logs[i].id != e.id;
      KeysKept(logs, r);
      FindLogUnique(r, r[k]);
    case None =>
      var done := DoneAfterIncrement(habit, 1);
      var x := HabitLog(freshId, habitId, date, done, Some(1), None, if done then Some(now) else None);
      AppendKept(logs, x);
      FindLogUnique(r, x);
  }

  /** A decrement is a no-op without a log or at count 0; otherwise it takes
      one off the count (never below 0) and resets `completed` from the
      target.  No log is added. */
  lemma DecrementCounts(logs: seq<HabitLog>, habit: Option<Habit>, habitId: Id, date: int)
    requires LogsValid(logs)
    ensures var r := DecrementedLogs(logs, habit, habitId, date);
      var before := FindLog(logs, habitId, date);
      && LogsValid(r)
      && |r| == |logs|
      && (before.None? || OrZero(before.value.count) <= 0 ==> r == logs)
      && (before.Some? && OrZero(before.value.count) > 0 ==>
            var c := OrZero(before.value.count) - 1;
            && c >= 0
            && FindLog(r, habitId, date) == Some(before.value.(count := Some(c),
                                                               completed := DoneAfterDecrement(habit, c))))
      && (forall i :: 0 <= i < |logs| && LogKey(logs[i]) != (habitId, date) ==> r[i] == logs[i])
  {
    var r := DecrementedLogs(logs, habit, habitId, date);
    match FindLog(logs, habitId, date)
    case Some(e) =>
      if OrZero(e.count) > 0 {
        var k :| 0 <= k < |logs| && logs[k] == e;
        assert forall i :: 0 <= i < |logs| && i != k ==> logs[i].id != e.id;
        KeysKept(logs, r);
        FindLogUnique(r, r[k]);
      }
    case None =>
  }

  // ---------------------------------------------------------------------
  // calculateStreak

  /** The filter of `calculateStreak`: the habit's completed logs. */
  function CompletedOf(habitId: Id): HabitLog -> bool {
    (l: HabitLog) => l.habitId == habitId && l.completed
  }

  function CompletedLogsOf(logs: seq<HabitLog>, habitId: Id): (r: seq<HabitLog>)
    ensures forall l :: l in r <==> l in logs && l.habitId == habitId && l.completed
    ensures |r| <= |logs|
  {
    Filter(logs, CompletedOf(habitId))
  }

  /** The habit's completed days, newest first. */
  function CompletedDays(logs: seq<HabitLog>, habitId: Id): seq<int> {
    MapSeq(SortBy(CompletedLogsOf(logs, habitId), NewestFirst), LogDate)
  }

  /** The streak `calculateStreak` computes, counted from `today`. */
  function StreakOf(logs: seq<HabitLog>, habitId: Id, today: int): nat {
    WalkFrom(today, CompletedDays(logs, habitId))
  }

  predicate DoneOn(logs: seq<HabitLog>, habitId: Id, day: int) {
    exists l :: l in logs && l.habitId == habitId && l.completed && l.date == day
  }

  /** `calculateStreak(logs, habitId)` run on day `today`. */
  method CalculateStreak(logs: seq<HabitLog>, habitId: Id, today: int) returns (streak: nat)
    ensures streak == StreakOf(logs, habitId, today)
    ensures streak <= |CompletedLogsOf(logs, habitId)|
    ensures CompletedLogsOf(logs, habitId) == [] ==> streak == 0
  {
    var habitLogs := SortBy(CompletedLogsOf(logs, habitId), NewestFirst);
    if |habitLogs| == 0 {
      return 0;
    }
    streak := CountStreak(today, MapSeq(habitLogs, LogDate));
  }

  /** The completed days are listed newest first, each once, and are exactly
      the days on which the habit has a completed log. */
  lemma CompletedDaysShape(logs: seq<HabitLog>, habitId: Id)
    requires DistinctBy(logs, LogKey)
    ensures Descending(CompletedDays(logs, habitId))
    ensures forall d :: d in CompletedDays(logs, habitId) <==> DoneOn(logs, habitId, d)
  {
    var done := CompletedLogsOf(logs, habitId);
    FilterDistinct(logs, CompletedOf(habitId), LogKey);
    assert DistinctBy(done, LogDate) by {
      forall i, j | 0 <= i < j < |done| ensures done[i].date != done[j].date {
        assert done[i] in done && done[j] in done;
        assert LogKey(done[i]) != LogKey(done[j]);
      }
    }
    NewestFirstDays(done, NewestFirst, LogDate);
  }

  /** What the streak means: with one log per (habit, day) and no completed
      log after today, the streak is the length of the run of consecutive
      completed days ending today, or ending yesterday when today is not
      done yet.  A habit done today, yesterday and the day before (and not
      the day before that) has streak 3; a missing yesterday with today
      done gives 1; a most recent completion two or more days back gives 0. */
  lemma StreakIsConsecutiveRun(logs: seq<HabitLog>, habitId: Id, today: int, k: nat)
    requires DistinctBy(logs, LogKey)
    requires forall l :: l in logs && l.habitId == habitId && l.completed ==> l.date <= today
    requires var last := if DoneOn(logs, habitId, today) then today else today - 1;
      && (forall d :: last - k < d <= last ==> DoneOn(logs, habitId, d))
      && !DoneOn(logs, habitId, last - k)
    ensures StreakOf(logs, habitId, today) == k
  {
    var days := CompletedDays(logs, habitId);
    CompletedDaysShape(logs, habitId);
    forall m | 0 <= m < |days| ensures days[m] <= today {
      assert DoneOn(logs, habitId, days[m]);
    }
    WalkCountsConsecutiveRun(today, days, k);
  }

  /** A habit with no completed log has streak 0, and no streak exceeds the
      number of the habit's completed logs. */
  lemma StreakBounds(logs: seq<HabitLog>, habitId: Id, today: int)
    ensures StreakOf(logs, habitId, today) <= |CompletedLogsOf(logs, habitId)|
    ensures (forall l :: l in logs && l.habitId == habitId ==> !l.completed) ==> StreakOf(logs, habitId, today) == 0
  {
    if forall l :: l in logs && l.habitId == habitId ==> !l.completed {
      FilterNone(logs, CompletedOf(habitId));
    }
  }

  // ---------------------------------------------------------------------
  // Habit list operations

  function HabitOrder(h: Habit): int { h.order }

  /** `filter(h => h.id !== habitId)`. */
  function HabitsWithout(habits: seq<Habit>, habitId: Id): (r: seq<Habit>)
    ensures forall h :: h in r <==> h in habits && h.id != habitId
    ensures forall h: Habit :: h.id != habitId ==> multiset(r)[h] == multiset(habits)[h]
  {
    Filter(habits, (h: Habit) => h.id != habitId)
  }

  /** The cascade of `deleteHabit`: every log of the habit goes, every other
      log stays with its multiplicity. */
  function LogsWithout(logs: seq<HabitLog>, habitId: Id): (r: seq<HabitLog>)
    ensures forall l :: l in r <==> l in logs && l.habitId != habitId
    ensures forall l: HabitLog :: l.habitId != habitId ==> multiset(r)[l] == multiset(logs)[l]
    ensures LogsValid(logs) ==> LogsValid(r)
  {
    var p := (l: HabitLog) => l.habitId != habitId;
    if LogsValid(logs) then
      FilterDistinct(logs, p, LogKey);
      FilterDistinct(logs, p, LogId);
      Filter(logs, p)
    else Filter(logs, p)
  }

  /** The habits after `updateHabit`: the patch lands on the matching id only. */
  function UpdatedHabits(habits: seq<Habit>, habitId: Id, patch: HabitPatch): (r: seq<Habit>)
    ensures |r| == |habits|
    ensures forall i :: 0 <= i < |habits| && habits[i].id != habitId ==> r[i] == habits[i]
    ensures forall i :: 0 <= i < |habits| && habits[i].id == habitId ==> r[i] == Patched(habits[i], patch)
  {
    UpdateWhere(habits, (h: Habit) => h.id == habitId, (h: Habit) => Patched(h, patch))
  }

  /** The habits after `toggleHabitActive`. */
  function ActiveToggled(habits: seq<Habit>, habitId: Id): (r: seq<Habit>)
    ensures |r| == |habits|
    ensures forall i :: 0 <= i < |habits| ==>
      r[i].active == (if habits[i].id == habitId then !habits[i].active else habits[i].active)
    ensures forall i :: 0 <= i < |habits| ==> r[i].(active := habits[i].active) == habits[i]
  {
    UpdateWhere(habits, (h: Habit) => h.id == habitId, (h: Habit) => h.(active := !h.active))
  }

  /** `splice(from, 1)` followed by `splice(to, 0, removed)`: one element moves. */
  function Moved<T>(s: seq<T>, from: int, to: int): (r: seq<T>)
    requires |s| > 0 && from < |s|
    ensures |r| == |s|
    ensures multiset(r) == multiset(s)
    ensures r[RelativeIndex(|s| - 1, to)] == s[RelativeIndex(|s|, from)]
  {
    var f := RelativeIndex(|s|, from);
    var rest := s[..f] + s[f + 1..];
    var t := RelativeIndex(|rest|, to);
    assert s == s[..f] + [s[f]] + s[f + 1..];
    assert multiset(s) == multiset(s[..f]) + multiset{s[f]} + multiset(s[f + 1..]);
    assert rest == rest[..t] + rest[t..];
    assert multiset(rest) == multiset(rest[..t]) + multiset(rest[t..]);
    assert multiset(rest) == multiset(s[..f]) + multiset(s[f + 1..]);
    var moved := rest[..t] + [s[f]] + rest[t..];
    assert multiset(moved) == multiset(rest[..t]) + multiset{s[f]} + multiset(rest[t..]);
    assert multiset(moved) == multiset(rest) + multiset{s[f]};
    moved
  }

  /** `reorderHabits`: the moved list, renumbered so that `order` is the index. */
  function Reordered(habits: seq<Habit>, startIndex: int, endIndex: int): (r: seq<Habit>)
    requires |habits| > 0 && startIndex < |habits|
    ensures |r| == |habits|
    ensures forall i :: 0 <= i < |r| ==> r[i].order == i
    ensures forall i :: 0 <= i < |r| ==>
      r[i] == Moved(habits, startIndex, endIndex)[i].(order := i)
    ensures r[RelativeIndex(|habits| - 1, endIndex)].id == habits[RelativeIndex(|habits|, startIndex)].id
  {
    var moved := Moved(habits, startIndex, endIndex);
    seq(|moved|, i requires 0 <= i < |moved| => moved[i].(order := i))
  }

  // ---------------------------------------------------------------------
  // The store

  /** The cached streak written after a toggle: the new current streak, the
      larger of it and the old longest (0 when absent), and the toggled date. */
  function StreakRecord(streaks: map<Id, HabitStreak>, habitId: Id, current: nat, date: int): (s: HabitStreak)
    ensures s.currentStreak == current
    ensures s.longestStreak >= s.currentStreak
    ensures habitId in streaks ==> s.longestStreak >= streaks[habitId].longestStreak
    ensures s.longestStreak == current || (habitId in streaks && s.longestStreak == streaks[habitId].longestStreak)
    ensures s.lastCompletedDate == date
  {
    var previous := if habitId in streaks then streaks[habitId].longestStreak else 0;
    HabitStreak(habitId, current, if current > previous then current else previous, date)
  }

  predicate StreaksValid(streaks: map<Id, HabitStreak>) {
    forall id :: id in streaks ==>
      streaks[id].habitId == id && 0 <= streaks[id].currentStreak <= streaks[id].longestStreak
  }

  /** Recording a habit's streak keeps every record consistent. */
  lemma StreakRecordKeepsValid(streaks: map<Id, HabitStreak>, habitId: Id, current: nat, date: int)
    requires StreaksValid(streaks)
    ensures StreaksValid(streaks[habitId := StreakRecord(streaks, habitId, current, date)])
  {
  }

  class HabitStore {
    var habits: seq<Habit>
    var logs: seq<HabitLog>
    var streaks: map<Id, HabitStreak>

    ghost predicate Valid()
      reads this
    {
      LogsValid(logs) && StreaksValid(streaks)
    }

    constructor ()
      ensures Valid()
      ensures habits == [] && logs == [] && streaks == map[]
    {
      habits := [];
      logs := [];
      streaks := map[];
    }

    /** `addHabit`: appended with a fresh id, the creation time and the next
        position as its order. */
    method AddHabit(data: Habit, freshId: Id, now: int)
      requires Valid()
      modifies this
      ensures Valid()
      ensures habits == old(habits) + [data.(id := freshId, createdAt := now, order := |old(habits)|)]
      ensures logs == old(logs) && streaks == old(streaks)
    {
      var newHabit := data.(id := freshId, createdAt := now, order := |habits|);
      habits := habits + [newHabit];
    }

    /** `updateHabit`. */
    method UpdateHabit(habitId: Id, patch: HabitPatch)
      requires Valid()
      modifies this
      ensures Valid()
      ensures habits == UpdatedHabits(old(habits), habitId, patch)
      ensures logs == old(logs) && streaks == old(streaks)
    {
      habits := UpdatedHabits(habits, habitId, patch);
    }

    /** `deleteHabit`: removes the habit and cascades to all of its logs.
        The cached streak entry is left in place, as in the store. */
    method DeleteHabit(habitId: Id)
      requires Valid()
      modifies this
      ensures Valid()
      ensures habits == HabitsWithout(old(habits), habitId)
      ensures logs == LogsWithout(old(logs), habitId)
      ensures streaks == old(streaks)
    {
      habits := HabitsWithout(habits, habitId);
      logs := LogsWithout(logs, habitId);
    }

    /** `toggleHabitActive`. */
    method ToggleHabitActive(habitId: Id)
      requires Valid()
      modifies this
      ensures Valid()
      ensures habits == ActiveToggled(old(habits), habitId)
      ensures logs == old(logs) && streaks == old(streaks)
    {
      habits := ActiveToggled(habits, habitId);
    }

    /** `reorderHabits(startIndex, endIndex)`, for a start index that names an
        existing habit. */
    method ReorderHabits(startIndex: int, endIndex: int)
      requires Valid()
      requires |habits| > 0 && startIndex < |habits|
      modifies this
      ensures Valid()
      ensures habits == Reordered(old(habits), startIndex, endIndex)
      ensures logs == old(logs) && streaks == old(streaks)
    {
      habits := Reordered(habits, startIndex, endIndex);
    }

    /** `toggleHabitCompletion(habitId, date)` on day `today` at instant
        `now`: flips or creates the day's log, then recomputes and caches the
        habit's streak from the new logs. */
    method ToggleHabitCompletion(habitId: Id, date: int, today: int, now: int, freshId: Id)
      requires DayOf(now) == today
      requires Valid()
      requires FreshLogId(logs, freshId)
      modifies this
      ensures Valid()
      ensures logs == ToggledLogs(old(logs), habitId, date, freshId, now)
      ensures streaks == old(streaks)[habitId := StreakRecord(old(streaks), habitId, StreakOf(logs, habitId, today), date)]
      ensures habits == old(habits)
    {
      var newLogs := ToggledLogs(logs, habitId, date, freshId, now);
      assert LogsValid(newLogs) by {
        ToggleCompletion(logs, habitId, date, freshId, now);
      }
      var streak := CalculateStreak(newLogs, habitId, today);
      var newStreaks := streaks[habitId := StreakRecord(streaks, habitId, streak, date)];
      StreakRecordKeepsValid(streaks, habitId, streak, date);
      logs := newLogs;
      streaks := newStreaks;
    }

    /** `incrementHabitCount`: the cached streak is not refreshed. */
    method IncrementHabitCount(habitId: Id, date: int, now: int, freshId: Id)
      requires Valid()
      requires FreshLogId(logs, freshId)
      modifies this
      ensures Valid()
      ensures logs == IncrementedLogs(old(logs), Find(old(habits), (h: Habit) => h.id == habitId),
                                      habitId, date, freshId, now)
      ensures habits == old(habits) && streaks == old(streaks)
    {
      var habit := Find(habits, (h: Habit) => h.id == habitId);
      IncrementCounts(logs, habit, habitId, date, freshId, now);
      logs := IncrementedLogs(logs, habit, habitId, date, freshId, now);
    }

    /** `decrementHabitCount`: the cached streak is not refreshed. */
    method DecrementHabitCount(habitId: Id, date: int)
      requires Valid()
      modifies this
      ensures Valid()
      ensures logs == DecrementedLogs(old(logs), Find(old(habits), (h: Habit) => h.id == habitId), habitId, date)
      ensures habits == old(habits) && streaks == old(streaks)
    {
      var habit := Find(habits, (h: Habit) => h.id == habitId);
      DecrementCounts(logs, habit, habitId, date);
      logs := DecrementedLogs(logs, habit, habitId, date);
    }

    /** `getActiveHabits`: exactly the active habits, ordered by `order`. */
    function GetActiveHabits(): (r: seq<Habit>)
      reads this
      ensures forall h :: h in r <==> h in habits && h.active
      ensures forall h: Habit :: h.active ==> multiset(r)[h] == multiset(habits)[h]
      ensures SortedBy(r, HabitOrder)
    {
      SortBy(Filter(habits, (h: Habit) => h.active), HabitOrder)
    }

    /** `getLogsForDate` (and `getTodayLogs` with today's date). */
    function GetLogsForDate(date: int): (r: seq<HabitLog>)
      reads this
      ensures forall l :: l in r <==> l in logs && l.date == date
      ensures forall l: HabitLog :: l.date == date ==> multiset(r)[l] == multiset(logs)[l]
    {
      Filter(logs, (l: HabitLog) => l.date == date)
    }

    /** `getHabitStreak`: the cached current streak, 0 when none is cached. */
    function GetHabitStreak(habitId: Id): (r: int)
      reads this
      ensures habitId !in streaks ==> r == 0
      ensures habitId in streaks ==> r == streaks[habitId].currentStreak
      ensures Valid() ==> r >= 0
    {
      if habitId in streaks then streaks[habitId].currentStreak else 0
    }

    /** `isHabitCompletedToday`: under the invariant, true exactly when the
        habit has a completed log today. */
    function IsHabitCompletedToday(habitId: Id, today: int): (r: bool)
      reads this
      ensures Valid() ==> (r <==> DoneOn(logs, habitId, today))
    {
      var found := FindLog(logs, habitId, today);
      assert Valid() && DoneOn(logs, habitId, today) ==> found.Some? && found.value.completed by {
        if Valid() && DoneOn(logs, habitId, today) {
          var l :| l in logs && l.habitId == habitId && l.completed && l.date == today;
          FindLogUnique(logs, l);
        }
      }
      found.Some? && found.value.completed
    }
  }
}
