/** The mood store: at most one check-in per day is intended, each with a
    mood score and emoji, a stress level and optional details; window
    averages and a day streak are derived from the entries. */
module Mood {
  import opened Basics
  import opened Seqs
  import opened Streak

  datatype MoodEntry = MoodEntry(
    id: Id,
    date: int,
    moodScore: int,
    moodEmoji: Option<string>,
    stressLevel: int,
    energyLevel: Option<int>,
    anxietyLevel: Option<int>,
    factors: Option<seq<string>>,
    journalEntry: Option<string>,
    aiInsight: Option<string>,
    createdAt: int,
    updatedAt: int)

  /** What the caller of `addEntry` supplies. */
  datatype MoodEntryData = MoodEntryData(
    date: int,
    moodScore: int,
    stressLevel: int,
    energyLevel: Option<int>,
    anxietyLevel: Option<int>,
    factors: Option<seq<string>>,
    journalEntry: Option<string>,
    aiInsight: Option<string>)

  /** A `Partial<MoodEntry>` for `updateEntry` (the store always overrides
      the emoji and the update time itself). */
  datatype MoodPatch = MoodPatch(
    date: Option<int>,
    moodScore: Option<int>,
    stressLevel: Option<int>,
    energyLevel: Option<int>,
    anxietyLevel: Option<int>,
    factors: Option<seq<string>>,
    journalEntry: Option<string>,
    aiInsight: Option<string>)

  function EntryDate(e: MoodEntry): int { e.date }
  function NewestFirst(e: MoodEntry): int { -e.date }
  function MoodScore(e: MoodEntry): int { e.moodScore }
  function StressLevel(e: MoodEntry): int { e.stressLevel }

  // ---------------------------------------------------------------------
  // Emojis

  /** `MOOD_EMOJIS[score]`: an emoji for each score 1..10, nothing otherwise. */
  function EmojiLookup(score: int): (r: Option<string>)
    ensures r.Some? <==> 1 <= score <= 10
  {
    if score == 1 then Some("\U{1F622}")
    else if score == 2 then Some("\U{1F614}")
    else if score == 3 then Some("\U{1F615}")
    else if score == 4 then Some("\U{1F610}")
    else if score == 5 then Some("\U{1F642}")
    else if score == 6 then Some("\U{1F60A}")
    else if score == 7 then Some("\U{1F604}")
    else if score == 8 then Some("\U{1F601}")
    else if score == 9 then Some("\U{1F929}")
    else if score == 10 then Some("\U{1F973}")
    else None
  }

  /** The neutral face `addEntry` falls back to. */
  const NeutralEmoji: string := "\U{1F610}"

  /** The emoji `addEntry` stores: the table's, or the neutral face outside
      1..10. */
  function AddedEmoji(score: int): (r: string)
    ensures 1 <= score <= 10 ==> r == EmojiLookup(score).value
    ensures !(1 <= score <= 10) ==> r == NeutralEmoji
    ensures r != ""
  {
    match EmojiLookup(score)
    case Some(emoji) => if emoji != "" then emoji else NeutralEmoji
    case None => NeutralEmoji
  }

  /** No two scores share an emoji. */
  lemma EmojisDistinct(a: int, b: int)
    requires 1 <= a <= 10 && 1 <= b <= 10 && a != b
    ensures EmojiLookup(a) != EmojiLookup(b)
  {
  }

  // ---------------------------------------------------------------------
  // addEntry

  function OnDate(date: int): MoodEntry -> bool { (e: MoodEntry) => e.date == date }
  function NotOnDate(date: int): MoodEntry -> bool { (e: MoodEntry) => e.date != date }

  /** `entries.filter(e => e.date === date)`. */
  function EntriesOn(entries: seq<MoodEntry>, date: int): (r: seq<MoodEntry>)
    ensures forall e :: e in r <==> e in entries && e.date == date
  {
    Filter(entries, OnDate(date))
  }

  /** The entry `addEntry` builds. */
  function NewEntry(data: MoodEntryData, freshId: Id, now: int): (e: MoodEntry)
    ensures e.id == freshId && e.date == data.date && e.moodScore == data.moodScore
    ensures e.moodEmoji == Some(AddedEmoji(data.moodScore))
    ensures e.createdAt == now && e.updatedAt == now
  {
    MoodEntry(freshId, data.date, data.moodScore, Some(AddedEmoji(data.moodScore)), data.stressLevel,
              data.energyLevel, data.anxietyLevel, data.factors, data.journalEntry, data.aiInsight, now, now)
  }

  /** The entries after `addEntry` on day `today`: the entries dated today are
      dropped, whatever the new entry's date, and the new entry is appended. */
  function Added(entries: seq<MoodEntry>, e: MoodEntry, today: int): (r: seq<MoodEntry>)
    ensures 1 <= |r| <= |entries| + 1
    ensures r[|r| - 1] == e
  {
    Filter(entries, NotOnDate(today)) + [e]
  }

  /** What `addEntry` does to each date: today ends with the new entry alone
      when the entry is for today and with nothing otherwise; the entry's own
      date keeps its old entries when it is not today, so a back-dated entry
      sits beside the one it was meant to replace; every other date is kept. */
  lemma {:induction false} AddEntryReplacesToday(entries: seq<MoodEntry>, e: MoodEntry, today: int)
    ensures EntriesOn(Added(entries, e, today), today) == (if e.date == today then [e] else [])
    ensures e.date != today ==> EntriesOn(Added(entries, e, today), e.date) == EntriesOn(entries, e.date) + [e]
    ensures forall d :: d != today && d != e.date ==> EntriesOn(Added(entries, e, today), d) == EntriesOn(entries, d)
  {
    var kept := Filter(entries, NotOnDate(today));
    FilterAppend(kept, [e], OnDate(today));
    FilterNone(kept, OnDate(today));
    forall d | d != today
      ensures EntriesOn(Added(entries, e, today), d) == EntriesOn(entries, d) + Filter([e], OnDate(d))
    {
      FilterAppend(kept, [e], OnDate(d));
      FilterFilter(entries, NotOnDate(today), OnDate(d));
    }
    assert forall d :: Filter([e], OnDate(d)) == (if e.date == d then [e] else []);
  }

  // ---------------------------------------------------------------------
  // updateEntry / deleteEntry

  /** `{...e, ...updates}` with the emoji recomputed, without fallback, when
      the patch carries a truthy (non-zero) score, and the update time set. */
  function UpdatedEntry(e: MoodEntry, p: MoodPatch, now: int): (r: MoodEntry)
    ensures r.id == e.id && r.createdAt == e.createdAt && r.updatedAt == now
    ensures p.moodScore.Some? && p.moodScore.value != 0 ==> r.moodEmoji == EmojiLookup(p.moodScore.value)
    ensures !(p.moodScore.Some? && p.moodScore.value != 0) ==> r.moodEmoji == e.moodEmoji
    ensures r.moodScore == Merge(p.moodScore, e.moodScore)
  {
    e.(date := Merge(p.date, e.date),
       moodScore := Merge(p.moodScore, e.moodScore),
       stressLevel := Merge(p.stressLevel, e.stressLevel),
       energyLevel := MergeOptional(p.energyLevel, e.energyLevel),
       anxietyLevel := MergeOptional(p.anxietyLevel, e.anxietyLevel),
       factors := MergeOptional(p.factors, e.factors),
       journalEntry := MergeOptional(p.journalEntry, e.journalEntry),
       aiInsight := MergeOptional(p.aiInsight, e.aiInsight),
       moodEmoji := if p.moodScore.Some? && p.moodScore.value != 0 then EmojiLookup(p.moodScore.value) else e.moodEmoji,
       updatedAt := now)
  }

  /** An update to a score outside 1..10 leaves the entry with no emoji,
      where `addEntry` would have stored the neutral face. */
  lemma UpdateOutOfRangeDropsEmoji(e: MoodEntry, p: MoodPatch, now: int)
    requires p.moodScore == Some(11)
    ensures UpdatedEntry(e, p, now).moodEmoji == None
    ensures NewEntry(MoodEntryData(e.date, 11, e.stressLevel, None, None, None, None, None), e.id, now).moodEmoji
            == Some(NeutralEmoji)
  {
  }

  /** The entries after `updateEntry`: only entries with the id change. */
  function UpdatedEntries(entries: seq<MoodEntry>, entryId: Id, p: MoodPatch, now: int): (r: seq<MoodEntry>)
    ensures |r| == |entries|
    ensures forall i :: 0 <= i < |entries| && entries[i].id != entryId ==> r[i] == entries[i]
    ensures forall i :: 0 <= i < |entries| && entries[i].id == entryId ==> r[i] == UpdatedEntry(entries[i], p, now)
  {
    UpdateWhere(entries, (e: MoodEntry) => e.id == entryId, (e: MoodEntry) => UpdatedEntry(e, p, now))
  }

  /** The entries after `deleteEntry`: exactly those with the id are gone. */
  function EntriesWithoutId(entries: seq<MoodEntry>, entryId: Id): (r: seq<MoodEntry>)
    ensures forall e :: e in r <==> e in entries && e.id != entryId
    ensures forall e: MoodEntry :: e.id != entryId ==> multiset(r)[e] == multiset(entries)[e]
  {
    Filter(entries, (e: MoodEntry) => e.id != entryId)
  }

  // ---------------------------------------------------------------------
  // Averages

  /** Mean of a score over a non-empty window (the store rounds it to one
      decimal). */
  function Mean(window: seq<MoodEntry>, score: MoodEntry -> int): real
    requires |window| > 0
  {
    (Sum(window, score) as real) / (|window| as real)
  }

  /** The mean lies within any bounds that hold for every entry of the window,
      so between the window's minimum and maximum. */
  lemma MeanWithinBounds(window: seq<MoodEntry>, score: MoodEntry -> int, lo: int, hi: int)
    requires |window| > 0
    requires forall i :: 0 <= i < |window| ==> lo <= score(window[i]) <= hi
    ensures lo as real <= Mean(window, score) <= hi as real
  {
    SumBounds(window, score, lo, hi);
    var n := |window| as real;
    var total := Sum(window, score) as real;
    assert n * (lo as real) <= total <= n * (hi as real);
    assert total / n >= lo as real by {
      assert total / n * n == total;
    }
    assert total / n <= hi as real by {
      assert total / n * n == total;
    }
  }

  /** The mean of a window where some entry has `low` and another `high`
      lies between the window's minimum and maximum. */
  lemma MeanBetweenExtremes(window: seq<MoodEntry>, score: MoodEntry -> int, i: nat, j: nat)
    requires i < |window| && j < |window|
    requires forall k :: 0 <= k < |window| ==> score(window[i]) <= score(window[k]) <= score(window[j])
    ensures score(window[i]) as real <= Mean(window, score) <= score(window[j]) as real
  {
    MeanWithinBounds(window, score, score(window[i]), score(window[j]));
  }

  // ---------------------------------------------------------------------
  // Streak

  /** The streak `getMoodStreak` counts at instant `now`. */
  function MoodStreakOf(entries: seq<MoodEntry>, now: int): nat {
    WalkFrom(DayOf(now), MapSeq(SortBy(entries, NewestFirst), EntryDate))
  }

  predicate LoggedOn(entries: seq<MoodEntry>, day: int) {
    exists e :: e in entries && e.date == day
  }

  /** With one entry per date and none after today, the mood streak is the
      length of the run of consecutive logged days ending today, or ending
      yesterday when today has no entry yet. */
  lemma MoodStreakIsConsecutiveRun(entries: seq<MoodEntry>, now: int, k: nat)
    requires DistinctBy(entries, EntryDate)
    requires forall e :: e in entries ==> e.date <= DayOf(now)
    requires var last := if LoggedOn(entries, DayOf(now)) then DayOf(now) else DayOf(now) - 1;
      && (forall d :: last - k < d <= last ==> LoggedOn(entries, d))
      && !LoggedOn(entries, last - k)
    ensures MoodStreakOf(entries, now) == k
  {
    var days := MapSeq(SortBy(entries, NewestFirst), EntryDate);
    NewestFirstDays(entries, NewestFirst, EntryDate);
    forall d ensures d in days <==> LoggedOn(entries, d) {
      if LoggedOn(entries, d) {
        var e :| e in entries && e.date == d;
        assert EntryDate(e) == d;
      }
    }
    forall m | 0 <= m < |days| ensures days[m] <= DayOf(now) {
      assert days[m] in days;
    }
    WalkCountsConsecutiveRun(DayOf(now), days, k);
  }

  // ---------------------------------------------------------------------
  // The store

  class MoodStore {
    var entries: seq<MoodEntry>

    constructor ()
      ensures entries == []
    {
      entries := [];
    }

    /** `addEntry` on day `today` at instant `now`. */
    method AddEntry(data: MoodEntryData, freshId: Id, now: int, today: int)
      requires DayOf(now) == today
      modifies this
      ensures entries == Added(old(entries), NewEntry(data, freshId, now), today)
    {
      var newEntry := NewEntry(data, freshId, now);
      entries := Added(entries, newEntry, today);
    }

    /** `updateEntry` at instant `now`. */
    method UpdateEntry(entryId: Id, patch: MoodPatch, now: int)
      modifies this
      ensures entries == UpdatedEntries(old(entries), entryId, patch, now)
    {
      entries := UpdatedEntries(entries, entryId, patch, now);
    }

    /** `deleteEntry`. */
    method DeleteEntry(entryId: Id)
      modifies this
      ensures entries == EntriesWithoutId(old(entries), entryId)
    {
      entries := EntriesWithoutId(entries, entryId);
    }

    /** `getTodayEntry`: the first entry dated today. */
    function GetTodayEntry(today: int): (r: Option<MoodEntry>)
      reads this
      ensures r.None? <==> !LoggedOn(entries, today)
      ensures r.Some? ==> r.value in entries && r.value.date == today
    {
      Find(entries, OnDate(today))
    }

    /** `getEntriesForDateRange`: the entries dated within [startDate,
        endDate], both ends included, in ascending date order. */
    function GetEntriesForDateRange(startDate: int, endDate: int): (r: seq<MoodEntry>)
      reads this
      ensures forall e :: e in r <==> e in entries && startDate <= e.date <= endDate
      ensures forall e: MoodEntry :: startDate <= e.date <= endDate ==> multiset(r)[e] == multiset(entries)[e]
      ensures SortedBy(r, EntryDate)
    {
      SortBy(Filter(entries, (e: MoodEntry) => startDate <= e.date <= endDate), EntryDate)
    }

    /** `getWeekEntries`: the eight days from a week ago through today. */
    function GetWeekEntries(today: int): (r: seq<MoodEntry>)
      reads this
      ensures forall e :: e in r <==> e in entries && today - 7 <= e.date <= today
      ensures forall e: MoodEntry :: today - 7 <= e.date <= today ==> multiset(r)[e] == multiset(entries)[e]
      ensures SortedBy(r, EntryDate)
    {
      GetEntriesForDateRange(today - 7, today)
    }

    /** The window mean of `getAverageMood` and `getAverageStress`: 0 for an
        empty window, otherwise the mean over the entries present (not over
        `days`). */
    function WindowAverage(today: int, days: int, score: MoodEntry -> int): (r: real)
      reads this
      ensures GetEntriesForDateRange(today - days, today) == [] ==> r == 0.0
      ensures GetEntriesForDateRange(today - days, today) != [] ==>
        r == Mean(GetEntriesForDateRange(today - days, today), score)
      ensures (forall e :: e in entries ==> 1 <= score(e) <= 10) ==> r == 0.0 || 1.0 <= r <= 10.0
    {
      var window := GetEntriesForDateRange(today - days, today);
      if |window| == 0 then 0.0
      else
        assert (forall e :: e in entries ==> 1 <= score(e) <= 10) ==> 1.0 <= Mean(window, score) <= 10.0 by {
          if forall e :: e in entries ==> 1 <= score(e) <= 10 {
            assert forall i :: 0 <= i < |window| ==> window[i] in window;
            MeanWithinBounds(window, score, 1, 10);
          }
        }
        Mean(window, score)
    }

    /** `getAverageMood(days)` on day `today`. */
    function GetAverageMood(today: int, days: int): (r: real)
      reads this
      ensures GetEntriesForDateRange(today - days, today) == [] ==> r == 0.0
      ensures (forall e :: e in entries ==> 1 <= e.moodScore <= 10) ==> r == 0.0 || 1.0 <= r <= 10.0
    {
      WindowAverage(today, days, MoodScore)
    }

    /** `getAverageStress(days)` on day `today`. */
    function GetAverageStress(today: int, days: int): (r: real)
      reads this
      ensures GetEntriesForDateRange(today - days, today) == [] ==> r == 0.0
      ensures (forall e :: e in entries ==> 1 <= e.stressLevel <= 10) ==> r == 0.0 || 1.0 <= r <= 10.0
    {
      WindowAverage(today, days, StressLevel)
    }

    /** `getMoodStreak` at instant `now`: sorts the stored entries newest
        first in place, then walks back from now. */
    method GetMoodStreak(now: int) returns (streak: nat)
      modifies this
      ensures entries == SortBy(old(entries), NewestFirst)
      ensures streak == MoodStreakOf(old(entries), now)
      ensures streak <= |old(entries)|
      ensures old(entries) == [] ==> streak == 0
    {
      entries := SortBy(entries, NewestFirst);
      if |entries| == 0 {
        return 0;
      }
      streak := CountStreakFromInstant(now, MapSeq(entries, EntryDate));
    }
  }
}
