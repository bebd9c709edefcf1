/** Shared vocabulary of the stores: optional values, identifiers, JavaScript
    truthiness and the calendar arithmetic the date library performs.

    Instants are whole minutes of local time; calendar days are day numbers
    counted from 1970-01-01 (day 0, a Thursday).  A `yyyy-MM-dd` string is
    modelled by its day number: those strings compare lexicographically in
    the same order as the days they name. */
module Basics {

  datatype Option<T> = None | Some(value: T)

  /** Identifiers (uuids, `Date.now()` strings) are opaque strings. */
  type Id = string

  const MinutesPerDay: int := 1440
  const MinutesPerWeek: int := 7 * 1440

  /** `x || ""` style truthiness of an optional string: present and not empty. */
  predicate IsSet(o: Option<string>) {
    o.Some? && o.value != ""
  }

  /** `x || 0` on an optional number. */
  function OrZero(o: Option<int>): int {
    if o.Some? then o.value else 0
  }

  /** One field of `{...current, ...updates}`: the update's value when it is
      supplied, the current one otherwise. */
  function Merge<T>(update: Option<T>, current: T): (r: T)
    ensures update.Some? ==> r == update.value
    ensures update.None? ==> r == current
  {
    if update.Some? then update.value else current
  }

  /** The same for an optional field: a supplied update replaces it; an
      absent one cannot clear it. */
  function MergeOptional<T>(update: Option<T>, current: Option<T>): (r: Option<T>)
    ensures update.Some? ==> r == update
    ensures update.None? ==> r == current
  {
    if update.Some? then update else current
  }

  /** Day number of an instant (`startOfDay`, then `yyyy-MM-dd`). */
  function DayOf(instant: int): int {
    instant / MinutesPerDay
  }

  /** First minute of a day (local midnight, what `parseISO` of a day string gives). */
  function Midnight(day: int): int {
    day * MinutesPerDay
  }

  /** Day of the week as `Date.getDay` numbers it: Sunday is 0. */
  function Weekday(day: int): (w: int)
    ensures 0 <= w < 7
  {
    (day + 4) % 7
  }

  /** `startOfWeek(_, { weekStartsOn: 0 })` on day numbers: the Sunday on or before `day`. */
  function StartOfWeek(day: int): (s: int)
    ensures s <= day < s + 7
    ensures Weekday(s) == 0
  {
    day - Weekday(day)
  }

  /** The day difference the mood and sleep streaks compute,
      `floor((now - midnight(d)) / one day)`, is the plain difference of day
      numbers.  This is why all three streak walks share one day cursor. */
  lemma DayDifferenceOfInstant(now: int, d: int)
    ensures (now - Midnight(d)) / MinutesPerDay == DayOf(now) - d
  {
    var q := now / MinutesPerDay;
    var r := now % MinutesPerDay;
    assert now == q * MinutesPerDay + r && 0 <= r < MinutesPerDay;
    assert now - Midnight(d) == (q - d) * MinutesPerDay + r;
  }
}
