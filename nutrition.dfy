/** The nutrition store: a log of meals (several per day and per meal type
    are allowed), the user's nutrition goals, and the per-day and weekly
    views derived from the log. */
module Nutrition {
  import opened Basics
  import opened Seqs

  datatype MealType = Breakfast | Lunch | Dinner | Snack

  datatype MealEntry = MealEntry(
    id: Id,
    date: int,
    mealType: MealType,
    time: string,
    description: string,
    calories: Option<int>,
    hydration: Option<int>,
    quality: int,
    notes: Option<string>)

  /** What the caller of `addMeal` supplies: everything but the id. */
  datatype MealData = MealData(
    date: int,
    mealType: MealType,
    time: string,
    description: string,
    calories: Option<int>,
    hydration: Option<int>,
    quality: int,
    notes: Option<string>)

  /** A `Partial<MealEntry>` for `updateMeal`. */
  datatype MealPatch = MealPatch(
    date: Option<int>,
    mealType: Option<MealType>,
    time: Option<string>,
    description: Option<string>,
    calories: Option<int>,
    hydration: Option<int>,
    quality: Option<int>,
    notes: Option<string>)

  datatype MealTimes = MealTimes(breakfast: Option<string>, lunch: Option<string>, dinner: Option<string>)

  datatype NutritionGoals = NutritionGoals(
    dailyCalories: Option<int>,
    dailyWaterGlasses: int,
    mealsPerDay: int,
    preferredMealTimes: MealTimes)

  /** A `Partial<NutritionGoals>` for `setGoals`. */
  datatype GoalsPatch = GoalsPatch(
    dailyCalories: Option<int>,
    dailyWaterGlasses: Option<int>,
    mealsPerDay: Option<int>,
    preferredMealTimes: Option<MealTimes>)

  /** What `getWeeklyStats` reports, before its rounding. */
  datatype WeeklyStats = WeeklyStats(avgMealsPerDay: real, avgQuality: real, avgWater: real, consistency: real)

  /** The goals a new store starts with: 8 glasses, 3 meals, and meals at
      08:00, 12:30 and 18:30. */
  const DefaultGoals: NutritionGoals :=
    NutritionGoals(None, 8, 3, MealTimes(Some("08:00"), Some("12:30"), Some("18:30")))

  function Quality(e: MealEntry): int { e.quality }
  function Water(e: MealEntry): int { OrZero(e.hydration) }
  function HasId(id: Id): MealEntry -> bool { (e: MealEntry) => e.id == id }
  function NotHasId(id: Id): MealEntry -> bool { (e: MealEntry) => e.id != id }
  function OnDate(date: int): MealEntry -> bool { (e: MealEntry) => e.date == date }

  // ---------------------------------------------------------------------
  // addMeal / updateMeal / deleteMeal / setGoals

  /** The entry `addMeal` builds around the caller's data. */
  function NewMeal(data: MealData, freshId: Id): (e: MealEntry)
    ensures e.id == freshId && e.date == data.date && e.mealType == data.mealType
    ensures e.quality == data.quality && e.hydration == data.hydration
  {
    MealEntry(freshId, data.date, data.mealType, data.time, data.description,
              data.calories, data.hydration, data.quality, data.notes)
  }

  /** `{...e, ...updates}`. */
  function PatchedMeal(e: MealEntry, p: MealPatch): (r: MealEntry)
    ensures r.id == e.id
  {
    MealEntry(e.id, Merge(p.date, e.date), Merge(p.mealType, e.mealType), Merge(p.time, e.time),
              Merge(p.description, e.description), MergeOptional(p.calories, e.calories),
              MergeOptional(p.hydration, e.hydration), Merge(p.quality, e.quality),
              MergeOptional(p.notes, e.notes))
  }

  /** The entries after `updateMeal`: entries with the id are patched in
      place, every other entry is kept where it was. */
  function UpdatedMeals(entries: seq<MealEntry>, id: Id, p: MealPatch): (r: seq<MealEntry>)
    ensures |r| == |entries|
    ensures forall i :: 0 <= i < |entries| && entries[i].id != id ==> r[i] == entries[i]
    ensures forall i :: 0 <= i < |entries| && entries[i].id == id ==> r[i] == PatchedMeal(entries[i], p)
  {
    UpdateWhere(entries, HasId(id), (e: MealEntry) => PatchedMeal(e, p))
  }

  /** The entries after `deleteMeal`: exactly those with the id are gone,
      the rest keep their order and multiplicity. */
  function MealsWithoutId(entries: seq<MealEntry>, id: Id): (r: seq<MealEntry>)
    ensures forall e :: e in r <==> e in entries && e.id != id
    ensures forall e: MealEntry :: e.id != id ==> multiset(r)[e] == multiset(entries)[e]
  {
    Filter(entries, NotHasId(id))
  }

  /** An update is invisible once the updated id is deleted: `updateMeal`
      touches no entry with another id. */
  lemma UpdateMealTouchesOnlyId(entries: seq<MealEntry>, id: Id, p: MealPatch)
    ensures MealsWithoutId(UpdatedMeals(entries, id, p), id) == MealsWithoutId(entries, id)
  {
    FilterUpdateWhere(entries, HasId(id), (e: MealEntry) => PatchedMeal(e, p), NotHasId(id));
  }

  /** `{...goals, ...updates}`: a shallow merge, so a supplied
      `preferredMealTimes` replaces all three times at once. */
  function MergedGoals(g: NutritionGoals, p: GoalsPatch): (r: NutritionGoals)
    ensures p.dailyWaterGlasses.None? ==> r.dailyWaterGlasses == g.dailyWaterGlasses
    ensures p.mealsPerDay.None? ==> r.mealsPerDay == g.mealsPerDay
    ensures p.dailyCalories.None? ==> r.dailyCalories == g.dailyCalories
    ensures p.preferredMealTimes.None? ==> r.preferredMealTimes == g.preferredMealTimes
    ensures p.preferredMealTimes.Some? ==> r.preferredMealTimes == p.preferredMealTimes.value
  {
    NutritionGoals(MergeOptional(p.dailyCalories, g.dailyCalories),
                   Merge(p.dailyWaterGlasses, g.dailyWaterGlasses),
                   Merge(p.mealsPerDay, g.mealsPerDay),
                   Merge(p.preferredMealTimes, g.preferredMealTimes))
  }

  /** Setting the same goals twice is setting them once, and an empty
      update changes nothing. */
  lemma SetGoalsIdempotent(g: NutritionGoals, p: GoalsPatch)
    ensures MergedGoals(MergedGoals(g, p), p) == MergedGoals(g, p)
    ensures MergedGoals(g, GoalsPatch(None, None, None, None)) == g
  {
  }

  // ---------------------------------------------------------------------
  // Queries by date

  /** `entries.filter(e => e.date === date)`. */
  function MealsOn(entries: seq<MealEntry>, date: int): (r: seq<MealEntry>)
    ensures forall e :: e in r <==> e in entries && e.date == date
    ensures forall e: MealEntry :: e.date == date ==> multiset(r)[e] == multiset(entries)[e]
  {
    Filter(entries, OnDate(date))
  }

  /** `addMeal` appends: the new entry's date gains it after the meals it
      already had, even one of the same meal type, and no other date
      changes. */
  lemma AddMealNeverReplaces(entries: seq<MealEntry>, e: MealEntry, date: int)
    ensures MealsOn(entries + [e], date) == MealsOn(entries, date) + (if e.date == date then [e] else [])
  {
    FilterAppend(entries, [e], OnDate(date));
    assert Filter([e], OnDate(date)) == (if e.date == date then [e] else []);
  }

  /** `getMissingMeals`' checklist. */
  const ExpectedMeals: seq<MealType> := [Breakfast, Lunch, Dinner]

  function MealRank(m: MealType): int {
    match m
    case Breakfast => 0
    case Lunch => 1
    case Dinner => 2
    case Snack => 3
  }

  /** The checklist is in rank order, no type twice. */
  lemma ExpectedMealsOrdered()
    ensures SortedBy(ExpectedMeals, MealRank) && DistinctBy(ExpectedMeals, MealRank)
  {
  }

  /** A meal of type `m` is logged on `date`. */
  predicate Logged(entries: seq<MealEntry>, date: int, m: MealType) {
    exists e :: e in entries && e.date == date && e.mealType == m
  }

  /** `loggedTypes.includes(m)` negated. */
  function NotLoggedIn(loggedTypes: seq<MealType>): MealType -> bool {
    (m: MealType) => m !in loggedTypes
  }

  function TypeOf(e: MealEntry): MealType { e.mealType }

  /** `getMealsByDate(date).map(m => m.mealType)`. */
  function LoggedTypes(entries: seq<MealEntry>, date: int): (r: seq<MealType>)
    ensures forall m :: m in r ==> Logged(entries, date, m)
  {
    var meals := MealsOn(entries, date);
    var types := MapSeq(meals, TypeOf);
    assert forall m :: m in types ==> Logged(entries, date, m) by {
      forall m | m in types ensures Logged(entries, date, m) {
        var i :| 0 <= i < |types| && types[i] == m;
        assert meals[i] in meals;
      }
    }
    types
  }

  /** Every meal type logged on the date is listed. */
  lemma LoggedTypesComplete(entries: seq<MealEntry>, date: int, m: MealType)
    requires Logged(entries, date, m)
    ensures m in LoggedTypes(entries, date)
  {
    var meals := MealsOn(entries, date);
    var e :| e in entries && e.date == date && e.mealType == m;
    assert e in meals;
    var i :| 0 <= i < |meals| && meals[i] == e;
    assert LoggedTypes(entries, date)[i] == m;
  }

  /** `getMissingMeals(date)`: the checklist filtered by the types logged on
      the date, so at most three meals, in checklist order. */
  function MissingMeals(entries: seq<MealEntry>, date: int): (r: seq<MealType>)
    ensures SortedBy(r, MealRank) && DistinctBy(r, MealRank)
    ensures |r| <= 3
  {
    var r := Filter(ExpectedMeals, NotLoggedIn(LoggedTypes(entries, date)));
    ExpectedMealsOrdered();
    FilterSorted(ExpectedMeals, NotLoggedIn(LoggedTypes(entries, date)), MealRank);
    FilterDistinct(ExpectedMeals, NotLoggedIn(LoggedTypes(entries, date)), MealRank);
    r
  }

  /** A meal type is missing exactly when it is breakfast, lunch or dinner
      and no meal of that type is logged on the date: a snack is never
      asked for. */
  lemma MissingMealsMeaning(entries: seq<MealEntry>, date: int, m: MealType)
    ensures m in MissingMeals(entries, date) <==> m != Snack && !Logged(entries, date, m)
  {
    if Logged(entries, date, m) {
      LoggedTypesComplete(entries, date, m);
    }
  }

  /** A day with only a snack still misses all three meals. */
  lemma SnackDoesNotCount(e: MealEntry)
    requires e.mealType == Snack
    ensures MissingMeals([e], e.date) == [Breakfast, Lunch, Dinner]
  {
    var logged := LoggedTypes([e], e.date);
    assert forall i :: 0 <= i < |ExpectedMeals| ==> ExpectedMeals[i] !in logged;
    FilterAll(ExpectedMeals, NotLoggedIn(logged));
  }

  /** A day with breakfast, lunch and dinner misses none. */
  lemma FullDayMissesNothing(entries: seq<MealEntry>, date: int)
    requires Logged(entries, date, Breakfast) && Logged(entries, date, Lunch) && Logged(entries, date, Dinner)
    ensures MissingMeals(entries, date) == []
  {
    LoggedTypesComplete(entries, date, Breakfast);
    LoggedTypesComplete(entries, date, Lunch);
    LoggedTypesComplete(entries, date, Dinner);
    FilterNone(ExpectedMeals, NotLoggedIn(LoggedTypes(entries, date)));
  }

  // ---------------------------------------------------------------------
  // Weekly statistics

  /** The seven day keys `getWeeklyStats` lists: today and the six days
      before it. */
  function Last7Days(today: int): (r: seq<int>)
    ensures |r| == 7
    ensures forall d :: d in r <==> today - 6 <= d <= today
  {
    var r := seq(7, i requires 0 <= i < 7 => today - i);
    assert forall d :: today - 6 <= d <= today ==> d in r by {
      forall d | today - 6 <= d <= today ensures d in r {
        assert r[today - d] == d;
      }
    }
    r
  }

  /** `last7Days.includes(e.date)`. */
  function InLast7Days(today: int): MealEntry -> bool {
    (e: MealEntry) => today - 6 <= e.date <= today
  }

  /** The window test is membership in the seven listed days. */
  lemma InLast7DaysIsListed(today: int, e: MealEntry)
    ensures InLast7Days(today)(e) <==> e.date in Last7Days(today)
  {
  }

  /** The entries inside the window. */
  function WeekMeals(entries: seq<MealEntry>, today: int): (r: seq<MealEntry>)
    ensures forall e :: e in r <==> e in entries && today - 6 <= e.date <= today
  {
    Filter(entries, InLast7Days(today))
  }

  /** `new Set(meals.map(e => e.date))`. */
  function DatesOf(meals: seq<MealEntry>): (r: set<int>)
    ensures forall d :: d in r <==> HasMealOn(meals, d)
    ensures |r| <= |meals|
  {
    if meals == [] then {}
    else
      var rest := DatesOf(meals[1..]);
      assert forall e :: e in meals <==> e == meals[0] || e in meals[1..];
      rest + {meals[0].date}
  }

  /** The days lo, lo+1, …, lo+n-1. */
  function DayRange(lo: int, n: nat): (r: set<int>)
    ensures forall d :: d in r <==> lo <= d < lo + n
    ensures |r| == n
  {
    if n == 0 then {} else DayRange(lo, n - 1) + {lo + n - 1}
  }

  /** A set of days inside a range of n days holds at most n of them, and
      exactly n only when it is the whole range. */
  lemma {:induction false} SubsetOfRange(s: set<int>, lo: int, n: nat)
    requires forall d :: d in s ==> lo <= d < lo + n
    ensures |s| <= n
    ensures |s| == n ==> forall d :: lo <= d < lo + n ==> d in s
  {
    var all := DayRange(lo, n);
    assert s <= all;
    assert |all - s| + |s| == |all| by {
      assert all == (all - s) + s;
      assert (all - s) * s == {};
    }
    if |s| == n {
      assert all - s == {};
      forall d | lo <= d < lo + n ensures d in s {
        assert d in all;
      }
    }
  }

  /** `getWeeklyStats` on day `today`, before rounding: meals per day and
      water are averaged over all seven days, quality over the meals of the
      window, and consistency is the share of the seven days with a meal. */
  function WeeklyStatsOf(entries: seq<MealEntry>, today: int): (r: WeeklyStats)
    ensures r.avgMealsPerDay == |WeekMeals(entries, today)| as real / 7.0
    ensures WeekMeals(entries, today) == [] ==> r.avgQuality == 0.0 && r.avgWater == 0.0
    ensures WeekMeals(entries, today) != [] ==>
      r.avgQuality == Sum(WeekMeals(entries, today), Quality) as real / |WeekMeals(entries, today)| as real
    ensures WeekMeals(entries, today) != [] ==> r.avgWater == Sum(WeekMeals(entries, today), Water) as real / 7.0
    ensures r.consistency == |DatesOf(WeekMeals(entries, today))| as real / 7.0 * 100.0
  {
    var week := WeekMeals(entries, today);
    var daysWithMeals := |DatesOf(week)|;
    var avgMealsPerDay := |week| as real / 7.0;
    var avgQuality := if |week| > 0 then Sum(week, Quality) as real / |week| as real else 0.0;
    var avgWater := if |week| > 0 then Sum(week, Water) as real / 7.0 else 0.0;
    var consistency := daysWithMeals as real / 7.0 * 100.0;
    WeeklyStats(avgMealsPerDay, avgQuality, avgWater, consistency)
  }

  /** Some meal is logged on day `d`. */
  predicate HasMealOn(entries: seq<MealEntry>, d: int) {
    exists e :: e in entries && e.date == d
  }

  /** The window's days: none exactly when it has no meal. */
  lemma NoDaysWithoutMeals(entries: seq<MealEntry>, today: int)
    ensures |DatesOf(WeekMeals(entries, today))| == 0 <==> WeekMeals(entries, today) == []
  {
    var week := WeekMeals(entries, today);
    if week != [] {
      assert week[0].date in DatesOf(week);
    }
  }

  /** The window holds at most seven distinct days. */
  lemma AtMostSevenDays(entries: seq<MealEntry>, today: int)
    ensures forall d :: d in DatesOf(WeekMeals(entries, today)) ==> today - 6 <= d <= today
    ensures |DatesOf(WeekMeals(entries, today))| <= 7
  {
    var week := WeekMeals(entries, today);
    var dates := DatesOf(week);
    forall d | d in dates ensures today - 6 <= d <= today {
      assert HasMealOn(week, d);
    }
    SubsetOfRange(dates, today - 6, 7);
  }

  /** A day of the window is among the window's days exactly when a meal
      is logged on it. */
  lemma WindowDay(entries: seq<MealEntry>, today: int, d: int)
    requires today - 6 <= d <= today
    ensures d in DatesOf(WeekMeals(entries, today)) <==> HasMealOn(entries, d)
  {
    var week := WeekMeals(entries, today);
    if HasMealOn(entries, d) {
      var e :| e in entries && e.date == d;
      assert e in week;
    }
  }

  /** Every day of the window has a meal: the window's days are all seven. */
  lemma FullWeekHasSevenDays(entries: seq<MealEntry>, today: int)
    requires forall d :: today - 6 <= d <= today ==> HasMealOn(entries, d)
    ensures DatesOf(WeekMeals(entries, today)) == DayRange(today - 6, 7)
  {
    forall d | today - 6 <= d <= today ensures d in DatesOf(WeekMeals(entries, today)) {
      WindowDay(entries, today, d);
    }
    AtMostSevenDays(entries, today);
  }

  /** Seven distinct days in the window are all of its days. */
  lemma SevenDatesFillWindow(entries: seq<MealEntry>, today: int)
    requires |DatesOf(WeekMeals(entries, today))| == 7
    ensures forall d :: today - 6 <= d <= today ==> d in DatesOf(WeekMeals(entries, today))
  {
    AtMostSevenDays(entries, today);
    SubsetOfRange(DatesOf(WeekMeals(entries, today)), today - 6, 7);
  }

  /** Seven distinct days in the window: each of its days has a meal. */
  lemma SevenDaysCoverWeek(entries: seq<MealEntry>, today: int)
    requires |DatesOf(WeekMeals(entries, today))| == 7
    ensures forall d :: today - 6 <= d <= today ==> HasMealOn(entries, d)
  {
    SevenDatesFillWindow(entries, today);
    forall d | today - 6 <= d <= today ensures HasMealOn(entries, d) {
      WindowDay(entries, today, d);
    }
  }

  /** Seven days exactly when every day of the window has a meal. */
  lemma SevenDaysWithMeals(entries: seq<MealEntry>, today: int)
    ensures |DatesOf(WeekMeals(entries, today))| == 7 <==>
      forall d :: today - 6 <= d <= today ==> HasMealOn(entries, d)
  {
    var week := WeekMeals(entries, today);
    var dates := DatesOf(week);
    if forall d :: today - 6 <= d <= today ==> HasMealOn(entries, d) {
      FullWeekHasSevenDays(entries, today);
    }
    if |dates| == 7 {
      SevenDaysCoverWeek(entries, today);
    }
  }

  /** Consistency lies in [0, 100]: it is 0 exactly when the window has no
      meal, and 100 exactly when each of the seven days has one, however many
      meals a day holds. */
  lemma ConsistencyBounds(entries: seq<MealEntry>, today: int)
    ensures 0.0 <= WeeklyStatsOf(entries, today).consistency <= 100.0
    ensures WeeklyStatsOf(entries, today).consistency == 0.0 <==> WeekMeals(entries, today) == []
    ensures WeeklyStatsOf(entries, today).consistency == 100.0 <==>
      forall d :: today - 6 <= d <= today ==> HasMealOn(entries, d)
  {
    NoDaysWithoutMeals(entries, today);
    AtMostSevenDays(entries, today);
    SevenDaysWithMeals(entries, today);
    var n := |DatesOf(WeekMeals(entries, today))|;
    assert n as real / 7.0 * 100.0 == n as real * 100.0 / 7.0;
  }

  /** A total of n terms each within [lo, hi], divided by n, lies within
      [lo, hi]. */
  lemma QuotientBounds(total: int, n: int, lo: int, hi: int)
    requires n > 0 && n * lo <= total <= n * hi
    ensures lo as real <= total as real / n as real <= hi as real
  {
    var q := total as real / n as real;
    assert q * n as real == total as real;
  }

  /** With every quality within 1..5 the average quality is 0 (no meals) or
      within 1..5 as well. */
  lemma AverageQualityBounds(entries: seq<MealEntry>, today: int)
    requires forall e :: e in entries ==> 1 <= e.quality <= 5
    ensures var q := WeeklyStatsOf(entries, today).avgQuality; q == 0.0 || 1.0 <= q <= 5.0
  {
    var week := WeekMeals(entries, today);
    if week != [] {
      forall i | 0 <= i < |week| ensures 1 <= Quality(week[i]) <= 5 {
        assert week[i] in week;
      }
      SumBounds(week, Quality, 1, 5);
      QuotientBounds(Sum(week, Quality), |week|, 1, 5);
    }
  }

  /** Meals outside the window leave the statistics unchanged. */
  lemma OldMealsDoNotCount(entries: seq<MealEntry>, e: MealEntry, today: int)
    requires e.date < today - 6 || e.date > today
    ensures WeeklyStatsOf(entries + [e], today) == WeeklyStatsOf(entries, today)
  {
    FilterAppend(entries, [e], InLast7Days(today));
    assert Filter([e], InLast7Days(today)) == [];
    assert entries + [e] == entries + [e];
    assert WeekMeals(entries + [e], today) == WeekMeals(entries, today);
  }

  // ---------------------------------------------------------------------
  // The store

  class NutritionStore {
    var entries: seq<MealEntry>
    var goals: NutritionGoals

    constructor ()
      ensures entries == [] && goals == DefaultGoals
    {
      entries := [];
      goals := DefaultGoals;
    }

    /** `addMeal`, with the id `Date.now().toString()` passed in. */
    method AddMeal(data: MealData, freshId: Id)
      modifies this
      ensures entries == old(entries) + [NewMeal(data, freshId)]
      ensures goals == old(goals)
    {
      var newEntry := NewMeal(data, freshId);
      entries := entries + [newEntry];
    }

    /** `updateMeal`. */
    method UpdateMeal(id: Id, updates: MealPatch)
      modifies this
      ensures entries == UpdatedMeals(old(entries), id, updates)
      ensures goals == old(goals)
    {
      entries := UpdatedMeals(entries, id, updates);
    }

    /** `deleteMeal`. */
    method DeleteMeal(id: Id)
      modifies this
      ensures entries == MealsWithoutId(old(entries), id)
      ensures goals == old(goals)
    {
      entries := MealsWithoutId(entries, id);
    }

    /** `setGoals`. */
    method SetGoals(updates: GoalsPatch)
      modifies this
      ensures goals == MergedGoals(old(goals), updates)
      ensures entries == old(entries)
    {
      goals := MergedGoals(goals, updates);
    }

    /** `getMealsByDate`: exactly the entries of that date, in log order. */
    function GetMealsByDate(date: int): (r: seq<MealEntry>)
      reads this
      ensures forall e :: e in r <==> e in entries && e.date == date
      ensures forall e: MealEntry :: e.date == date ==> multiset(r)[e] == multiset(entries)[e]
    {
      MealsOn(entries, date)
    }

    /** `getTodayMeals` on day `today`. */
    function GetTodayMeals(today: int): (r: seq<MealEntry>)
      reads this
      ensures r == GetMealsByDate(today)
      ensures forall e :: e in r <==> e in entries && e.date == today
    {
      MealsOn(entries, today)
    }

    /** `getWeeklyStats` on day `today`. */
    function GetWeeklyStats(today: int): (r: WeeklyStats)
      reads this
      ensures 0.0 <= r.consistency <= 100.0
      ensures r.avgMealsPerDay == |WeekMeals(entries, today)| as real / 7.0
      ensures WeekMeals(entries, today) == [] ==> r.avgQuality == 0.0 && r.avgWater == 0.0 && r.consistency == 0.0
    {
      ConsistencyBounds(entries, today);
      WeeklyStatsOf(entries, today)
    }

    /** `getMissingMeals`. */
    function GetMissingMeals(date: int): (r: seq<MealType>)
      reads this
      ensures forall m :: m in r <==> m != Snack && !Logged(entries, date, m)
      ensures |r| <= 3
    {
      assert forall m :: m in MissingMeals(entries, date) <==> m != Snack && !Logged(entries, date, m) by {
        forall m ensures m in MissingMeals(entries, date) <==> m != Snack && !Logged(entries, date, m) {
          MissingMealsMeaning(entries, date, m);
        }
      }
      MissingMeals(entries, date)
    }
  }
}
