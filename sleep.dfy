/** The sleep store: one entry per night with bed and wake instants, the
    derived sleep duration, a quality rating, and the weekly statistics
    (average, sleep debt against a target, trend) and streak built on them. */
module Sleep {
  import opened Basics
  import opened Seqs
  import opened Streak

  datatype SleepFactors = SleepFactors(
    caffeine: Option<bool>,
    exercise: Option<bool>,
    screens: Option<bool>,
    stress: Option<bool>,
    alcohol: Option<bool>)

  /** A night, dated by its day number; bed and wake time are instants in minutes. */
  datatype SleepEntry = SleepEntry(
    id: Id,
    date: int,
    bedTime: int,
    wakeTime: int,
    totalSleepMinutes: int,
    qualityRating: int,
    factors: Option<SleepFactors>,
    notes: Option<string>,
    createdAt: int)

  /** What the caller of `addEntry` supplies: an entry without id, duration
      and creation time. */
  datatype SleepEntryData = SleepEntryData(
    date: int,
    bedTime: int,
    wakeTime: int,
    qualityRating: int,
    factors: Option<SleepFactors>,
    notes: Option<string>)

  /** A `Partial<SleepEntry>` for `updateEntry`. */
  datatype SleepPatch = SleepPatch(
    date: Option<int>,
    bedTime: Option<int>,
    wakeTime: Option<int>,
    totalSleepMinutes: Option<int>,
    qualityRating: Option<int>,
    factors: Option<SleepFactors>,
    notes: Option<string>)

  datatype Trend = Improving | Declining | Stable

  /** `SleepStats`; the store rounds the averages and the debt, the model keeps
      them exact. */
  datatype SleepStats = SleepStats(
    averageSleepDuration: real,
    averageQuality: real,
    sleepDebt: real,
    targetSleepMinutes: real,
    weeklyTrend: Trend)

  function EntryDate(e: SleepEntry): int { e.date }
  function NewestFirst(e: SleepEntry): int { -e.date }
  function TotalMinutes(e: SleepEntry): int { e.totalSleepMinutes }
  function Quality(e: SleepEntry): int { e.qualityRating }

  // ---------------------------------------------------------------------
  // Durations

  /** `calculateSleepMinutes`: the whole minutes from bed to wake, with no
      rolling over midnight; negative when wake precedes bed. */
  function SleepMinutes(bedTime: int, wakeTime: int): (m: int)
    ensures bedTime + m == wakeTime
    ensures m > 0 <==> wakeTime > bedTime
  {
    wakeTime - bedTime
  }

  /** The roll the sleep page applies before calling `addEntry`: a wake time
      not after the bed time moves to the next day. */
  function RolledWakeTime(bedTime: int, wakeTime: int): (w: int)
    ensures w > bedTime || wakeTime + MinutesPerDay <= bedTime
    ensures w == wakeTime || w == wakeTime + MinutesPerDay
  {
    if wakeTime <= bedTime then wakeTime + MinutesPerDay else wakeTime
  }

  /** For bed and wake on the same day, the rolled night lasts between one
      minute and one full day, so the stored duration is positive. */
  lemma RolledNightIsPositive(date: int, bedMinute: int, wakeMinute: int)
    requires 0 <= bedMinute < MinutesPerDay && 0 <= wakeMinute < MinutesPerDay
    ensures var bed := Midnight(date) + bedMinute;
      var minutes := SleepMinutes(bed, RolledWakeTime(bed, Midnight(date) + wakeMinute));
      0 < minutes <= MinutesPerDay
  {
  }

  /** The entry `addEntry` builds. */
  function NewEntry(data: SleepEntryData, freshId: Id, now: int): (e: SleepEntry)
    ensures e.totalSleepMinutes == SleepMinutes(data.bedTime, data.wakeTime)
    ensures e.id == freshId && e.createdAt == now && e.date == data.date
  {
    SleepEntry(freshId, data.date, data.bedTime, data.wakeTime,
               SleepMinutes(data.bedTime, data.wakeTime),
               data.qualityRating, data.factors, data.notes, now)
  }

  // ---------------------------------------------------------------------
  // Upsert by date

  function OnDate(date: int): SleepEntry -> bool { (e: SleepEntry) => e.date == date }
  function NotOnDate(date: int): SleepEntry -> bool { (e: SleepEntry) => e.date != date }

  /** `entries.filter(e => e.date === date)`. */
  function EntriesOn(entries: seq<SleepEntry>, date: int): (r: seq<SleepEntry>)
    ensures forall e :: e in r <==> e in entries && e.date == date
  {
    Filter(entries, OnDate(date))
  }

  /** The entries after `addEntry(e)`: every entry of e's date is dropped
      and `e` is appended. */
  function Upserted(entries: seq<SleepEntry>, e: SleepEntry): (r: seq<SleepEntry>)
    ensures 1 <= |r| <= |entries| + 1
    ensures r[|r| - 1] == e
  {
    Filter(entries, NotOnDate(e.date)) + [e]
  }

  /** Upsert by date: afterwards the new entry is the only one of its date,
      and every other date keeps exactly the entries it had, in order. */
  lemma {:induction false} UpsertByDate(entries: seq<SleepEntry>, e: SleepEntry)
    ensures EntriesOn(Upserted(entries, e), e.date) == [e]
    ensures forall d :: d != e.date ==> EntriesOn(Upserted(entries, e), d) == EntriesOn(entries, d)
  {
    var kept := Filter(entries, NotOnDate(e.date));
    FilterAppend(kept, [e], OnDate(e.date));
    FilterNone(kept, OnDate(e.date));
    assert Filter([e], OnDate(e.date)) == [e];
    forall d | d != e.date
      ensures EntriesOn(Upserted(entries, e), d) == EntriesOn(entries, d)
    {
      FilterAppend(kept, [e], OnDate(d));
      assert Filter([e], OnDate(d)) == [];
      FilterFilter(entries, NotOnDate(e.date), OnDate(d));
    }
  }

  // ---------------------------------------------------------------------
  // updateEntry / deleteEntry

  /** `{...e, ...updates}`, with the duration recomputed from the merged bed
      and wake times when either of them is supplied. */
  function UpdatedEntry(e: SleepEntry, p: SleepPatch): (r: SleepEntry)
    ensures r.id == e.id && r.createdAt == e.createdAt
    ensures p.bedTime.Some? || p.wakeTime.Some? ==> r.totalSleepMinutes == SleepMinutes(r.bedTime, r.wakeTime)
    ensures p.bedTime.None? && p.wakeTime.None? ==>
      r.totalSleepMinutes == (Merge(p.totalSleepMinutes, e.totalSleepMinutes))
    ensures p == SleepPatch(None, None, None, None, None, None, None) ==> r == e
  {
    var merged := e.(
      date := Merge(p.date, e.date),
      bedTime := Merge(p.bedTime, e.bedTime),
      wakeTime := Merge(p.wakeTime, e.wakeTime),
      totalSleepMinutes := Merge(p.totalSleepMinutes, e.totalSleepMinutes),
      qualityRating := Merge(p.qualityRating, e.qualityRating),
      factors := MergeOptional(p.factors, e.factors),
      notes := MergeOptional(p.notes, e.notes));
    if p.bedTime.Some? || p.wakeTime.Some? then
      merged.(totalSleepMinutes := SleepMinutes(merged.bedTime, merged.wakeTime))
    else merged
  }

  /** The entries after `updateEntry`: only entries with the id change. */
  function UpdatedEntries(entries: seq<SleepEntry>, entryId: Id, p: SleepPatch): (r: seq<SleepEntry>)
    ensures |r| == |entries|
    ensures forall i :: 0 <= i < |entries| && entries[i].id != entryId ==> r[i] == entries[i]
    ensures forall i :: 0 <= i < |entries| && entries[i].id == entryId ==> r[i] == UpdatedEntry(entries[i], p)
  {
    UpdateWhere(entries, (e: SleepEntry) => e.id == entryId, (e: SleepEntry) => UpdatedEntry(e, p))
  }

  /** The entries after `deleteEntry`: exactly those with the id are gone. */
  function EntriesWithoutId(entries: seq<SleepEntry>, entryId: Id): (r: seq<SleepEntry>)
    ensures forall e :: e in r <==> e in entries && e.id != entryId
    ensures forall e: SleepEntry :: e.id != entryId ==> multiset(r)[e] == multiset(entries)[e]
  {
    Filter(entries, (e: SleepEntry) => e.id != entryId)
  }

  // ---------------------------------------------------------------------
  // Latest entry and streak

  /** The first entry after sorting newest first: an entry of the latest date. */
  function Latest(entries: seq<SleepEntry>): (r: Option<SleepEntry>)
    ensures r.None? <==> entries == []
    ensures r.Some? ==> r.value in entries && forall e :: e in entries ==> e.date <= r.value.date
  {
    var sorted := SortBy(entries, NewestFirst);
    if sorted == [] then None
    else
      assert sorted[0] in multiset(entries);
      assert forall e :: e in entries ==> e.date <= sorted[0].date by {
        forall e | e in entries ensures e.date <= sorted[0].date {
          assert e in multiset(sorted);
          var j :| 0 <= j < |sorted| && sorted[j] == e;
          assert NewestFirst(sorted[0]) <= NewestFirst(sorted[j]);
        }
      }
      Some(sorted[0])
  }

  /** The streak `getSleepStreak` counts at instant `now`. */
  function SleepStreakOf(entries: seq<SleepEntry>, now: int): nat {
    WalkFrom(DayOf(now), MapSeq(SortBy(entries, NewestFirst), EntryDate))
  }

  predicate LoggedOn(entries: seq<SleepEntry>, day: int) {
    exists e :: e in entries && e.date == day
  }

  /** With one entry per date and none after today, the sleep streak is the
      length of the run of consecutive logged nights ending today, or ending
      yesterday when today has no entry yet. */
  lemma SleepStreakIsConsecutiveRun(entries: seq<SleepEntry>, now: int, k: nat)
    requires DistinctBy(entries, EntryDate)
    requires forall e :: e in entries ==> e.date <= DayOf(now)
    requires var last := if LoggedOn(entries, DayOf(now)) then DayOf(now) else DayOf(now) - 1;
      && (forall d :: last - k < d <= last ==> LoggedOn(entries, d))
      && !LoggedOn(entries, last - k)
    ensures SleepStreakOf(entries, now) == k
  {
    var days := MapSeq(SortBy(entries, NewestFirst), EntryDate);
    NewestFirstDays(entries, NewestFirst, EntryDate);
    forall d ensures d in days <==> LoggedOn(entries, d) {
      if LoggedOn(entries, d) {
        var e :| e in entries && e.date == d;
        assert EntryDate(e) == d;
      }
    }
    forall m | 0 <= m < |days| ensures days[m] <= DayOf(now) {
      assert days[m] in days;
    }
    WalkCountsConsecutiveRun(DayOf(now), days, k);
  }

  // ---------------------------------------------------------------------
  // Statistics

  /** Mean of the durations. */
  function MeanMinutes(entries: seq<SleepEntry>): real
    requires |entries| > 0
  {
    (Sum(entries, TotalMinutes) as real) / (|entries| as real)
  }

  /** What a night falls short of the target, never negative. */
  function Shortfall(targetMinutes: real, e: SleepEntry): (s: real)
    ensures s >= 0.0
    ensures s > 0.0 <==> (e.totalSleepMinutes as real) < targetMinutes
  {
    var diff := targetMinutes - e.totalSleepMinutes as real;
    if diff > 0.0 then diff else 0.0
  }

  /** The sleep debt: the shortfalls summed, surpluses counting nothing. */
  function SleepDebt(entries: seq<SleepEntry>, targetMinutes: real): (d: real)
    ensures d >= 0.0
  {
    if entries == [] then 0.0 else Shortfall(targetMinutes, entries[0]) + SleepDebt(entries[1..], targetMinutes)
  }

  /** A night at or above the target adds no debt, wherever it comes: surplus
      never offsets a shortfall. */
  lemma {:induction false} SurplusNightAddsNoDebt(entries: seq<SleepEntry>, e: SleepEntry, targetMinutes: real)
    requires e.totalSleepMinutes as real >= targetMinutes
    ensures SleepDebt(entries + [e], targetMinutes) == SleepDebt(entries, targetMinutes)
  {
    if entries == [] {
      assert [e][1..] == [];
    } else {
      assert (entries + [e])[1..] == entries[1..] + [e];
      SurplusNightAddsNoDebt(entries[1..], e, targetMinutes);
    }
  }

  /** The debt is at least every single night's shortfall. */
  lemma {:induction false} DebtCoversEachNight(entries: seq<SleepEntry>, targetMinutes: real, i: nat)
    requires i < |entries|
    ensures SleepDebt(entries, targetMinutes) >= Shortfall(targetMinutes, entries[i])
  {
    if i > 0 {
      DebtCoversEachNight(entries[1..], targetMinutes, i - 1);
    }
  }

  function NightOf(minutes: int): SleepEntry {
    SleepEntry("", 0, 0, minutes, minutes, 3, None, None, 0)
  }

  /** A week of 420, 480, 390 and four 480-minute nights against an 8 hour
      target has a debt of 150 minutes. */
  lemma DebtExample()
    ensures SleepDebt([NightOf(420), NightOf(480), NightOf(390), NightOf(480),
                       NightOf(480), NightOf(480), NightOf(480)], 8.0 * 60.0) == 150.0
  {
    var week := [NightOf(420), NightOf(480), NightOf(390), NightOf(480),
                 NightOf(480), NightOf(480), NightOf(480)];
    assert week[7..] == [];
    assert week[6..][1..] == week[7..];
    assert week[5..][1..] == week[6..];
    assert week[4..][1..] == week[5..];
    assert week[3..][1..] == week[4..];
    assert week[2..][1..] == week[3..];
    assert week[1..][1..] == week[2..];
    assert Shortfall(480.0, NightOf(480)) == 0.0;
    assert SleepDebt(week[6..], 480.0) == 0.0;
    assert SleepDebt(week[5..], 480.0) == 0.0;
    assert SleepDebt(week[4..], 480.0) == 0.0;
    assert SleepDebt(week[3..], 480.0) == 0.0;
    assert SleepDebt(week[2..], 480.0) == 90.0;
  }

  /** The weekly trend: stable below four entries, otherwise the mean of the
      later half against the mean of the earlier half, split at floor(n/2),
      with a 15 minute dead band. */
  function WeeklyTrend(entries: seq<SleepEntry>): (t: Trend)
    ensures |entries| < 4 ==> t == Stable
    ensures |entries| >= 4 ==>
      var first, second := MeanMinutes(entries[..|entries| / 2]), MeanMinutes(entries[|entries| / 2..]);
      && (t == Improving <==> second > first + 15.0)
      && (t == Declining <==> second < first - 15.0)
  {
    if |entries| < 4 then Stable
    else
      var mid := |entries| / 2;
      var firstAvg := MeanMinutes(entries[..mid]);
      var secondAvg := MeanMinutes(entries[mid..]);
      if secondAvg > firstAvg + 15.0 then Improving
      else if secondAvg < firstAvg - 15.0 then Declining
      else Stable
  }

  /** Nights of one fixed duration have the duration as their mean. */
  lemma MeanOfConstant(entries: seq<SleepEntry>, c: int)
    requires |entries| > 0
    requires forall i :: 0 <= i < |entries| ==> entries[i].totalSleepMinutes == c
    ensures MeanMinutes(entries) == c as real
  {
    SumBounds(entries, TotalMinutes, c, c);
    assert (Sum(entries, TotalMinutes) as real) == (|entries| as real) * (c as real);
  }

  /** A week of equally long nights is stable. */
  lemma ConstantNightsAreStable(entries: seq<SleepEntry>, c: int)
    requires forall i :: 0 <= i < |entries| ==> entries[i].totalSleepMinutes == c
    ensures WeeklyTrend(entries) == Stable
  {
    if |entries| >= 4 {
      var mid := |entries| / 2;
      MeanOfConstant(entries[..mid], c);
      MeanOfConstant(entries[mid..], c);
    }
  }

  class SleepStore {
    var entries: seq<SleepEntry>
    var targetSleepHours: real

    constructor ()
      ensures entries == [] && targetSleepHours == 8.0
    {
      entries := [];
      targetSleepHours := 8.0;
    }

    /** `addEntry`: an upsert by the entry's date. */
    method AddEntry(data: SleepEntryData, freshId: Id, now: int)
      modifies this
      ensures entries == Upserted(old(entries), NewEntry(data, freshId, now))
      ensures targetSleepHours == old(targetSleepHours)
    {
      var newEntry := NewEntry(data, freshId, now);
      entries := Upserted(entries, newEntry);
    }

    /** `updateEntry`. */
    method UpdateEntry(entryId: Id, patch: SleepPatch)
      modifies this
      ensures entries == UpdatedEntries(old(entries), entryId, patch)
      ensures targetSleepHours == old(targetSleepHours)
    {
      entries := UpdatedEntries(entries, entryId, patch);
    }

    /** `deleteEntry`. */
    method DeleteEntry(entryId: Id)
      modifies this
      ensures entries == EntriesWithoutId(old(entries), entryId)
      ensures targetSleepHours == old(targetSleepHours)
    {
      entries := EntriesWithoutId(entries, entryId);
    }

    /** `setTargetSleepHours`. */
    method SetTargetSleepHours(hours: real)
      modifies this
      ensures targetSleepHours == hours && entries == old(entries)
    {
      targetSleepHours := hours;
    }

    /** `getLastEntry`: sorts the stored entries newest first in place and
        returns the first. */
    method GetLastEntry() returns (last: Option<SleepEntry>)
      modifies this
      ensures entries == SortBy(old(entries), NewestFirst)
      ensures multiset(entries) == multiset(old(entries))
      ensures last == Latest(old(entries))
      ensures targetSleepHours == old(targetSleepHours)
    {
      entries := SortBy(entries, NewestFirst);
      last := if |entries| > 0 then Some(entries[0]) else None;
    }

    /** `getEntryForDate`: the first entry of the date. */
    function GetEntryForDate(date: int): (r: Option<SleepEntry>)
      reads this
      ensures r.None? <==> !LoggedOn(entries, date)
      ensures r.Some? ==> r.value in entries && r.value.date == date
    {
      Find(entries, OnDate(date))
    }

    /** `getEntriesForDateRange`: the entries dated within [startDate,
        endDate], both ends included, in ascending date order. */
    function GetEntriesForDateRange(startDate: int, endDate: int): (r: seq<SleepEntry>)
      reads this
      ensures forall e :: e in r <==> e in entries && startDate <= e.date <= endDate
      ensures forall e: SleepEntry :: startDate <= e.date <= endDate ==> multiset(r)[e] == multiset(entries)[e]
      ensures SortedBy(r, EntryDate)
    {
      SortBy(Filter(entries, (e: SleepEntry) => startDate <= e.date <= endDate), EntryDate)
    }

    /** `getWeekEntries`: the eight days from a week ago through today. */
    function GetWeekEntries(today: int): (r: seq<SleepEntry>)
      reads this
      ensures forall e :: e in r <==> e in entries && today - 7 <= e.date <= today
      ensures forall e: SleepEntry :: today - 7 <= e.date <= today ==> multiset(r)[e] == multiset(entries)[e]
      ensures SortedBy(r, EntryDate)
    {
      GetEntriesForDateRange(today - 7, today)
    }

    /** `getSleepStats` on day `today`. */
    function GetSleepStats(today: int): (st: SleepStats)
      reads this
      ensures st.targetSleepMinutes == targetSleepHours * 60.0
      ensures st.sleepDebt >= 0.0
      ensures GetWeekEntries(today) == [] ==> st == SleepStats(0.0, 0.0, 0.0, targetSleepHours * 60.0, Stable)
      ensures GetWeekEntries(today) != [] ==>
        var week := GetWeekEntries(today);
        && st.averageSleepDuration == MeanMinutes(week)
        && st.averageQuality == (Sum(week, Quality) as real) / (|week| as real)
        && st.sleepDebt == SleepDebt(week, targetSleepHours * 60.0)
        && st.weeklyTrend == WeeklyTrend(week)
    {
      var week := GetWeekEntries(today);
      var targetMinutes := targetSleepHours * 60.0;
      if |week| == 0 then SleepStats(0.0, 0.0, 0.0, targetMinutes, Stable)
      else
        SleepStats(MeanMinutes(week),
                   (Sum(week, Quality) as real) / (|week| as real),
                   SleepDebt(week, targetMinutes),
                   targetMinutes,
                   WeeklyTrend(week))
    }

    /** `getSleepDebt`. */
    function GetSleepDebt(today: int): (d: real)
      reads this
      ensures d >= 0.0
      ensures GetWeekEntries(today) == [] ==> d == 0.0
    {
      GetSleepStats(today).sleepDebt
    }

    /** `getSleepStreak` at instant `now`: sorts the stored entries newest
        first in place, then walks back from now. */
    method GetSleepStreak(now: int) returns (streak: nat)
      modifies this
      ensures entries == SortBy(old(entries), NewestFirst)
      ensures streak == SleepStreakOf(old(entries), now)
      ensures streak <= |old(entries)|
      ensures old(entries) == [] ==> streak == 0
      ensures targetSleepHours == old(targetSleepHours)
    {
      entries := SortBy(entries, NewestFirst);
      if |entries| == 0 {
        return 0;
      }
      streak := CountStreakFromInstant(now, MapSeq(entries, EntryDate));
    }
  }
}
