/** The consecutive-day walk that the habit, mood and sleep streaks share.

    Each store sorts its qualifying day numbers newest first and walks them
    with a cursor that starts at today: a day 0 or 1 days before the cursor
    extends the streak and becomes the new cursor; anything else ends the
    walk. */
module Streak {
  import opened Basics
  import opened Seqs

  /** A logged day continues the walk from `cursor`. */
  predicate Continues(cursor: int, day: int) {
    cursor - day == 0 || cursor - day == 1
  }

  /** The cursor in force when the walk reaches index `i`. */
  function CursorAt(start: int, days: seq<int>, i: nat): int
    requires i <= |days|
  {
    if i == 0 then start else days[i - 1]
  }

  /** Length of the walk from `cursor` over `days`, newest first. */
  function WalkFrom(cursor: int, days: seq<int>): (r: nat)
    ensures r <= |days|
    decreases |days|
  {
    if days == [] then 0
    else if Continues(cursor, days[0]) then 1 + WalkFrom(days[0], days[1..])
    else 0
  }

  /** The walk counts exactly the leading run of days each of which continues
      from the one before it, and stops at the first that does not. */
  lemma {:induction false} WalkStopsAtFirstGap(start: int, days: seq<int>)
    ensures var r := WalkFrom(start, days);
      && (forall i :: 0 <= i < r ==> Continues(CursorAt(start, days, i), days[i]))
      && (r < |days| ==> !Continues(CursorAt(start, days, r), days[r]))
    decreases |days|
  {
    if days != [] && Continues(start, days[0]) {
      WalkStopsAtFirstGap(days[0], days[1..]);
      var r := WalkFrom(start, days);
      forall i | 0 <= i < r ensures Continues(CursorAt(start, days, i), days[i]) {
        if i > 0 {
          assert CursorAt(start, days, i) == CursorAt(days[0], days[1..], i - 1);
        }
      }
      if r < |days| {
        assert CursorAt(start, days, r) == CursorAt(days[0], days[1..], r - 1);
      }
    }
  }

  /** Conversely, a run of `k` continuing days that is followed by a gap (or by
      the end of the list) is exactly what the walk counts. */
  lemma {:induction false} WalkIsLeadingRun(start: int, days: seq<int>, k: nat)
    requires k <= |days|
    requires forall i :: 0 <= i < k ==> Continues(CursorAt(start, days, i), days[i])
    requires k < |days| ==> !Continues(CursorAt(start, days, k), days[k])
    ensures WalkFrom(start, days) == k
    decreases k
  {
    if k > 0 {
      assert Continues(start, days[0]);
      forall i | 0 <= i < k - 1
        ensures Continues(CursorAt(days[0], days[1..], i), days[1..][i])
      {
        assert CursorAt(start, days, i + 1) == CursorAt(days[0], days[1..], i);
      }
      if k - 1 < |days| - 1 {
        assert CursorAt(start, days, k) == CursorAt(days[0], days[1..], k - 1);
      }
      WalkIsLeadingRun(days[0], days[1..], k - 1);
    }
  }

  /** A most recent day two or more days back (or in the future) gives 0. */
  lemma NoStreakWithoutRecentDay(today: int, days: seq<int>)
    requires days != [] && !Continues(today, days[0])
    ensures WalkFrom(today, days) == 0
  {
  }

  /** Days today, today-1 and today-2 at the head give a streak of at least 3,
      and of exactly 3 when nothing else was logged. */
  lemma ThreeConsecutiveDays(today: int, days: seq<int>)
    requires |days| >= 3 && days[0] == today && days[1] == today - 1 && days[2] == today - 2
    ensures WalkFrom(today, days) >= 3
    ensures |days| == 3 ==> WalkFrom(today, days) == 3
  {
    var rest := days[3..];
    assert days[1..][1..][1..] == rest;
    assert WalkFrom(today - 2, days[1..][1..]) == 1 + WalkFrom(today - 2, rest);
    assert WalkFrom(today - 1, days[1..]) == 2 + WalkFrom(today - 2, rest);
  }

  /** Today and today-2 with today-1 missing: the walk stops after one day. */
  lemma GapBreaksStreak(today: int)
    ensures WalkFrom(today, [today, today - 2]) == 1
  {
    assert [today, today - 2][1..] == [today - 2];
  }

  /** Days listed newest first, no day twice. */
  predicate Descending(days: seq<int>) {
    forall i, j :: 0 <= i < j < |days| ==> days[i] > days[j]
  }

  /** In a descending list bounded by `top` that holds every day from
      top-i to top, those days are exactly its first i+1 entries. */
  lemma {:induction false} RunAtHead(days: seq<int>, top: int, i: nat)
    requires Descending(days)
    requires forall m :: 0 <= m < |days| ==> days[m] <= top
    requires forall d :: top - i <= d <= top ==> d in days
    ensures i < |days| && days[i] == top - i
  {
    assert top - i in days;
    var m :| 0 <= m < |days| && days[m] == top - i;
    if i == 0 {
      assert days[0] >= days[m];
    } else {
      RunAtHead(days, top, i - 1);
      assert forall a :: 0 <= a < i ==> days[a] >= days[i - 1] > top - i;
      assert days[i] >= days[m];
      assert days[i] < days[i - 1];
    }
  }

  /** Each day of a run ending at `last`, one of today and yesterday,
      continues the walk started at today. */
  lemma RunDayContinues(today: int, days: seq<int>, last: int, k: nat, i: nat)
    requires Descending(days)
    requires last == today || last == today - 1
    requires forall m :: 0 <= m < |days| ==> days[m] <= last
    requires forall d :: last - k < d <= last ==> d in days
    requires i < k
    ensures i < |days| && Continues(CursorAt(today, days, i), days[i])
  {
    RunAtHead(days, last, i);
    if i > 0 {
      RunAtHead(days, last, i - 1);
    }
  }

  /** The day after such a run, if any, does not continue the walk. */
  lemma RunEndsAtGap(today: int, days: seq<int>, last: int, k: nat)
    requires Descending(days)
    requires last == today || last == today - 1
    requires forall m :: 0 <= m < |days| ==> days[m] <= last
    requires forall d :: last - k < d <= last ==> d in days
    requires last - k !in days
    requires (last == today) == (today in days)
    ensures k <= |days|
    ensures k < |days| ==> !Continues(CursorAt(today, days, k), days[k])
  {
    if k > 0 {
      RunAtHead(days, last, k - 1);
    }
    if k < |days| {
      assert days[k] != last - k;
      if k > 0 {
        assert days[k] < days[k - 1];
      }
    }
  }

  /** The walk from today counts a run of `k` days ending at `last`, one of
      today and yesterday, when the day before the run is missing. */
  lemma WalkCountsRunEndingAt(today: int, days: seq<int>, last: int, k: nat)
    requires Descending(days)
    requires (last == today) == (today in days)
    requires last == today || last == today - 1
    requires forall m :: 0 <= m < |days| ==> days[m] <= last
    requires forall d :: last - k < d <= last ==> d in days
    requires last - k !in days
    ensures WalkFrom(today, days) == k
  {
    forall i | 0 <= i < k ensures i < |days| && Continues(CursorAt(today, days, i), days[i]) {
      RunDayContinues(today, days, last, k, i);
    }
    RunEndsAtGap(today, days, last, k);
    WalkIsLeadingRun(today, days, k);
  }

  /** What the streak means: with each day listed once and none after today,
      the walk counts the run of consecutive days ending today, or ending
      yesterday when today is missing. */
  lemma WalkCountsConsecutiveRun(today: int, days: seq<int>, k: nat)
    requires Descending(days)
    requires forall m :: 0 <= m < |days| ==> days[m] <= today
    requires var last := if today in days then today else today - 1;
      && (forall d :: last - k < d <= last ==> d in days)
      && last - k !in days
    ensures WalkFrom(today, days) == k
  {
    if today in days {
      WalkCountsRunEndingAt(today, days, today, k);
    } else {
      assert forall m :: 0 <= m < |days| ==> days[m] <= today - 1 by {
        forall m | 0 <= m < |days| ensures days[m] <= today - 1 {
          assert days[m] != today;
        }
      }
      WalkCountsRunEndingAt(today, days, today - 1, k);
    }
  }

  /** The loop of `calculateStreak`, `getMoodStreak` and `getSleepStreak`:
      walk `days` (newest first) from `today`, breaking at the first gap. */
  method CountStreak(today: int, days: seq<int>) returns (streak: nat)
    ensures streak == WalkFrom(today, days)
    ensures streak <= |days|
  {
    streak := 0;
    var currentDate := today;
    var i := 0;
    while i < |days|
      invariant 0 <= i <= |days|
      invariant streak == i
      invariant currentDate == CursorAt(today, days, i)
      invariant WalkFrom(today, days) == i + WalkFrom(currentDate, days[i..])
    {
      var diff := currentDate - days[i];
      if diff == 0 || diff == 1 {
        assert days[i..][1..] == days[i + 1..];
        streak := streak + 1;
        currentDate := days[i];
        i := i + 1;
      } else {
        break;
      }
    }
  }

  /** The loop of `getMoodStreak` and `getSleepStreak`, whose cursor is an
      instant: it starts at `now` and moves to the midnight of each counted
      day; the gap is the floor of the elapsed time in whole days.  It
      counts the same walk as the day-cursor loop, started at today. */
  method CountStreakFromInstant(now: int, days: seq<int>) returns (streak: nat)
    ensures streak == WalkFrom(DayOf(now), days)
    ensures streak <= |days|
  {
    streak := 0;
    var currentInstant := now;
    var i := 0;
    while i < |days|
      invariant 0 <= i <= |days|
      invariant streak == i
      invariant DayOf(currentInstant) == CursorAt(DayOf(now), days, i)
      invariant WalkFrom(DayOf(now), days) == i + WalkFrom(DayOf(currentInstant), days[i..])
    {
      var entryInstant := Midnight(days[i]);
      var diff := (currentInstant - entryInstant) / MinutesPerDay;
      DayDifferenceOfInstant(currentInstant, days[i]);
      if diff == 0 || diff == 1 {
        assert days[i..][1..] == days[i + 1..];
        streak := streak + 1;
        currentInstant := entryInstant;
        i := i + 1;
      } else {
        break;
      }
    }
  }

  /** Sorting records newest first by a day key that no two share lists
      their days in strictly descending order, each recorded day once. */
  lemma NewestFirstDays<T(!new)>(s: seq<T>, newestFirst: T -> int, day: T -> int)
    requires forall x :: newestFirst(x) == -day(x)
    requires DistinctBy(s, day)
    ensures Descending(MapSeq(SortBy(s, newestFirst), day))
    ensures forall d :: d in MapSeq(SortBy(s, newestFirst), day) <==> exists x :: x in s && day(x) == d
  {
    var sorted := SortBy(s, newestFirst);
    var days := MapSeq(sorted, day);
    SortByDistinct(s, newestFirst, day);
    forall i, j | 0 <= i < j < |days| ensures days[i] > days[j] {
      assert newestFirst(sorted[i]) <= newestFirst(sorted[j]);
      assert day(sorted[i]) != day(sorted[j]);
    }
    forall d ensures d in days <==> exists x :: x in s && day(x) == d {
      if d in days {
        var i :| 0 <= i < |days| && days[i] == d;
        assert sorted[i] in multiset(s);
      }
      if exists x :: x in s && day(x) == d {
        var x :| x in s && day(x) == d;
        assert x in multiset(sorted);
        var i :| 0 <= i < |sorted| && sorted[i] == x;
        assert days[i] == d;
      }
    }
  }
}
