/** The calendar store: events with start and end instants, status flags and
    links to the class or habit they come from; class schedules are expanded
    into dated class events for the weeks ahead. */
module Events {
  import opened Basics
  import opened Seqs
  import opened User

  datatype EventType = Class | Study | Habit | Personal | Social | Work
  datatype RecurrenceFrequency = Daily | Weekly | Monthly
  datatype EnergyRequirement = Low | Medium | High
  datatype RecurrencePattern = RecurrencePattern(
    frequency: RecurrenceFrequency,
    daysOfWeek: Option<seq<int>>,
    endDate: Option<string>)

  /** A calendar event; `start`, `end` and the time stamps are instants in
      minutes. */
  datatype CalendarEvent = CalendarEvent(
    id: Id,
    title: string,
    description: Option<string>,
    start: int,
    end: int,
    allDay: bool,
    eventType: EventType,
    color: string,
    recurring: bool,
    recurrencePattern: Option<RecurrencePattern>,
    suggestedByAI: bool,
    energyLevel: Option<EnergyRequirement>,
    completed: bool,
    skipped: bool,
    rescheduledFrom: Option<Id>,
    classId: Option<Id>,
    habitId: Option<Id>,
    createdAt: int,
    updatedAt: int)

  /** A `Partial<CalendarEvent>` for `updateEvent`. */
  datatype EventPatch = EventPatch(
    title: Option<string>,
    description: Option<string>,
    start: Option<int>,
    end: Option<int>,
    allDay: Option<bool>,
    eventType: Option<EventType>,
    color: Option<string>,
    recurring: Option<bool>,
    recurrencePattern: Option<RecurrencePattern>,
    suggestedByAI: Option<bool>,
    energyLevel: Option<EnergyRequirement>,
    completed: Option<bool>,
    skipped: Option<bool>,
    rescheduledFrom: Option<Id>,
    classId: Option<Id>,
    habitId: Option<Id>)

  function EventStart(e: CalendarEvent): int { e.start }

  /** `DAY_MAP`: Sunday-based weekday numbers. */
  function DayNumber(d: DayOfWeek): (n: int)
    ensures 0 <= n < 7
  {
    match d
    case Sun => 0
    case Mon => 1
    case Tue => 2
    case Wed => 3
    case Thu => 4
    case Fri => 5
    case Sat => 6
  }

  /** `!!e.classId`: the event was generated from a class. */
  predicate IsClassEvent(e: CalendarEvent) {
    IsSet(e.classId)
  }

  // ---------------------------------------------------------------------
  // add / update / delete / toggle / skip

  /** The event `addEvent` stores: the caller's fields with a fresh id, both
      flags cleared and both time stamps set to now. */
  function NewEvent(data: CalendarEvent, freshId: Id, now: int): (e: CalendarEvent)
    ensures !e.completed && !e.skipped
    ensures e.id == freshId && e.createdAt == now && e.updatedAt == now
    ensures e.(id := data.id, completed := data.completed, skipped := data.skipped,
               createdAt := data.createdAt, updatedAt := data.updatedAt) == data
  {
    data.(id := freshId, completed := false, skipped := false, createdAt := now, updatedAt := now)
  }

  function Patched(e: CalendarEvent, p: EventPatch, now: int): (r: CalendarEvent)
    ensures r.id == e.id && r.createdAt == e.createdAt && r.updatedAt == now
    ensures r.start == (Merge(p.start, e.start))
    ensures r.end == (Merge(p.end, e.end))
    ensures r.completed == (Merge(p.completed, e.completed))
    ensures r.skipped == (Merge(p.skipped, e.skipped))
    ensures r.classId == (MergeOptional(p.classId, e.classId))
  {
    CalendarEvent(
      e.id,
      Merge(p.title, e.title),
      MergeOptional(p.description, e.description),
      Merge(p.start, e.start),
      Merge(p.end, e.end),
      Merge(p.allDay, e.allDay),
      Merge(p.eventType, e.eventType),
      Merge(p.color, e.color),
      Merge(p.recurring, e.recurring),
      MergeOptional(p.recurrencePattern, e.recurrencePattern),
      Merge(p.suggestedByAI, e.suggestedByAI),
      MergeOptional(p.energyLevel, e.energyLevel),
      Merge(p.completed, e.completed),
      Merge(p.skipped, e.skipped),
      MergeOptional(p.rescheduledFrom, e.rescheduledFrom),
      MergeOptional(p.classId, e.classId),
      MergeOptional(p.habitId, e.habitId),
      e.createdAt,
      now)
  }

  /** The events after `updateEvent`: only events with the id change. */
  function UpdatedEvents(events: seq<CalendarEvent>, eventId: Id, p: EventPatch, now: int): (r: seq<CalendarEvent>)
    ensures |r| == |events|
    ensures forall i :: 0 <= i < |events| && events[i].id != eventId ==> r[i] == events[i]
    ensures forall i :: 0 <= i < |events| && events[i].id == eventId ==> r[i] == Patched(events[i], p, now)
  {
    UpdateWhere(events, (e: CalendarEvent) => e.id == eventId, (e: CalendarEvent) => Patched(e, p, now))
  }

  /** The events after `deleteEvent`: exactly those with the id are gone. */
  function EventsWithoutId(events: seq<CalendarEvent>, eventId: Id): (r: seq<CalendarEvent>)
    ensures forall e :: e in r <==> e in events && e.id != eventId
    ensures forall e: CalendarEvent :: e.id != eventId ==> multiset(r)[e] == multiset(events)[e]
  {
    Filter(events, (e: CalendarEvent) => e.id != eventId)
  }

  /** The events after `toggleEventComplete`. */
  function CompletionToggled(events: seq<CalendarEvent>, eventId: Id, now: int): (r: seq<CalendarEvent>)
    ensures |r| == |events|
    ensures forall i :: 0 <= i < |events| && events[i].id != eventId ==> r[i] == events[i]
    ensures forall i :: 0 <= i < |events| && events[i].id == eventId ==>
      r[i].completed == !events[i].completed && r[i].(completed := events[i].completed, updatedAt := events[i].updatedAt) == events[i]
  {
    UpdateWhere(events, (e: CalendarEvent) => e.id == eventId,
                (e: CalendarEvent) => e.(completed := !e.completed, updatedAt := now))
  }

  /** Toggling twice restores every completion flag; only the update time of
      the matching events moves. */
  lemma ToggleTwiceRestores(events: seq<CalendarEvent>, eventId: Id, t1: int, t2: int)
    ensures var twice := CompletionToggled(CompletionToggled(events, eventId, t1), eventId, t2);
      && |twice| == |events|
      && forall i :: 0 <= i < |events| ==>
           twice[i] == if events[i].id == eventId then events[i].(updatedAt := t2) else events[i]
  {
  }

  /** The events after `skipEvent`. */
  function SkipMarked(events: seq<CalendarEvent>, eventId: Id, now: int): (r: seq<CalendarEvent>)
    ensures |r| == |events|
    ensures forall i :: 0 <= i < |events| && events[i].id != eventId ==> r[i] == events[i]
    ensures forall i :: 0 <= i < |events| && events[i].id == eventId ==>
      r[i].skipped && r[i].(skipped := events[i].skipped, updatedAt := events[i].updatedAt) == events[i]
  {
    UpdateWhere(events, (e: CalendarEvent) => e.id == eventId,
                (e: CalendarEvent) => e.(skipped := true, updatedAt := now))
  }

  /** Skipping is idempotent up to the update time. */
  lemma SkipIdempotent(events: seq<CalendarEvent>, eventId: Id, t1: int, t2: int)
    ensures SkipMarked(SkipMarked(events, eventId, t1), eventId, t2) == SkipMarked(events, eventId, t2)
  {
  }

  // ---------------------------------------------------------------------
  // rescheduleEvent

  /** The events after `rescheduleEvent`: nothing happens for an unknown id;
      otherwise the events with the id are marked skipped and a copy of the
      first of them, with a fresh id, the new times and a back reference, is
      appended. */
  function Rescheduled(events: seq<CalendarEvent>, eventId: Id, newStart: int, newEnd: int,
                       freshId: Id, now: int): seq<CalendarEvent>
  {
    match Find(events, (e: CalendarEvent) => e.id == eventId)
    case None => events
    case Some(original) =>
      var clone := original.(id := freshId, start := newStart, end := newEnd,
                             rescheduledFrom := Some(eventId), createdAt := now, updatedAt := now);
      SkipMarked(events, eventId, now) + [clone]
  }

  /** What rescheduling does: for an unknown id nothing; otherwise every
      original keeps its times and becomes skipped, and exactly one clone is
      appended that carries the new times and `rescheduledFrom`, with every
      other field (including the status flags) copied from the original. */
  lemma RescheduleClones(events: seq<CalendarEvent>, eventId: Id, newStart: int, newEnd: int, freshId: Id, now: int)
    ensures (forall e :: e in events ==> e.id != eventId) ==>
      Rescheduled(events, eventId, newStart, newEnd, freshId, now) == events
    ensures (exists e :: e in events && e.id == eventId) ==>
      var r := Rescheduled(events, eventId, newStart, newEnd, freshId, now);
      && |r| == |events| + 1
      && (forall i :: 0 <= i < |events| && events[i].id == eventId ==>
            r[i].skipped && r[i].start == events[i].start && r[i].end == events[i].end)
      && (forall i :: 0 <= i < |events| && events[i].id != eventId ==> r[i] == events[i])
      && var clone := r[|events|];
         && clone.id == freshId && clone.start == newStart && clone.end == newEnd
         && clone.rescheduledFrom == Some(eventId)
         && exists original :: original in events && original.id == eventId &&
              clone == original.(id := freshId, start := newStart, end := newEnd,
                                 rescheduledFrom := Some(eventId), createdAt := now, updatedAt := now)
  {
  }

  // ---------------------------------------------------------------------
  // clearClassEvents / syncClassesFromUser

  function NotClassEvent(): CalendarEvent -> bool { (e: CalendarEvent) => !IsClassEvent(e) }

  /** The events after `clearClassEvents`: exactly the events with a set
      class id are gone. */
  function WithoutClassEvents(events: seq<CalendarEvent>): (r: seq<CalendarEvent>)
    ensures forall e :: e in r <==> e in events && !IsClassEvent(e)
    ensures forall e: CalendarEvent :: !IsClassEvent(e) ==> multiset(r)[e] == multiset(events)[e]
  {
    Filter(events, NotClassEvent())
  }

  /** The number of weeks the `for` loop runs. */
  function Weeks(weeksAhead: int): nat {
    if weeksAhead < 0 then 0 else weeksAhead
  }

  const DefaultWeeksAhead: int := 4

  function ClassTitle(cls: ClassSchedule): string {
    if cls.code != "" then cls.code + ": " + cls.name else cls.name
  }

  function ClassDescription(cls: ClassSchedule): Option<string> {
    if cls.location != "" then Some("Location: " + cls.location) else None
  }

  /** The start of the class on a given day. */
  function SlotStart(cls: ClassSchedule, day: int): int {
    Midnight(day) + cls.startHour * 60 + cls.startMinute
  }

  /** The event generated for a class on a day, before it receives its id. */
  function Draft(cls: ClassSchedule, day: int, now: int): CalendarEvent {
    CalendarEvent("", ClassTitle(cls), ClassDescription(cls),
                  SlotStart(cls, day), Midnight(day) + cls.endHour * 60 + cls.endMinute,
                  false, Class, cls.color, true, None, false, None, false, false, None,
                  Some(cls.id), None, now, now)
  }

  /** The ids of the classes. */
  function ClassIds(classes: seq<ClassSchedule>): set<Id> {
    set cls | cls in classes :: cls.id
  }

  /** The fields every generated event has, whatever its id: a class event
      of one of the classes, recurring, not suggested, not completed, not
      skipped, not all-day, starting at or after now. */
  predicate Generated(e: CalendarEvent, classIds: set<Id>, now: int) {
    && e.classId.Some? && e.classId.value in classIds
    && e.eventType == Class && e.recurring
    && !e.suggestedByAI && !e.completed && !e.skipped && !e.allDay
    && e.start >= now && e.createdAt == now && e.updatedAt == now
  }

  /** The innermost loop: the class's days in order, keeping the slots that
      start at or after now. */
  function ClassDrafts(cls: ClassSchedule, days: seq<DayOfWeek>, weekStart: int, now: int): (r: seq<CalendarEvent>)
    ensures forall e :: e in r ==> Generated(e, {cls.id}, now) && e.title == ClassTitle(cls) && e.color == cls.color
    decreases |days|
  {
    if days == [] then []
    else
      var day := weekStart + DayNumber(days[|days| - 1]);
      ClassDrafts(cls, days[..|days| - 1], weekStart, now)
        + (if SlotStart(cls, day) >= now then [Draft(cls, day, now)] else [])
  }

  /** The middle loop: every class in order, for one week. */
  function WeekDrafts(classes: seq<ClassSchedule>, weekStart: int, now: int): (r: seq<CalendarEvent>)
    ensures forall e :: e in r ==> Generated(e, ClassIds(classes), now)
    decreases |classes|
  {
    if classes == [] then []
    else
      var last := classes[|classes| - 1];
      assert ClassIds(classes[..|classes| - 1]) <= ClassIds(classes) by {
        forall cls | cls in classes[..|classes| - 1] ensures cls in classes { }
      }
      assert last.id in ClassIds(classes);
      WeekDrafts(classes[..|classes| - 1], weekStart, now) + ClassDrafts(last, last.days, weekStart, now)
  }

  /** The outer loop: `weeks` weeks from the start of the current week. */
  function SyncDrafts(classes: seq<ClassSchedule>, weeks: nat, weekStart: int, now: int): (r: seq<CalendarEvent>)
    ensures forall e :: e in r ==> Generated(e, ClassIds(classes), now)
  {
    if weeks == 0 then []
    else SyncDrafts(classes, weeks - 1, weekStart, now) + WeekDrafts(classes, weekStart + 7 * (weeks - 1), now)
  }

  /** The drafts numbered in push order: the k-th pushed event gets `freshId(k)`. */
  function Numbered(drafts: seq<CalendarEvent>, freshId: nat -> Id): (r: seq<CalendarEvent>)
    ensures |r| == |drafts|
    ensures forall k :: 0 <= k < |drafts| ==> r[k] == drafts[k].(id := freshId(k))
  {
    seq(|drafts|, k requires 0 <= k < |drafts| => drafts[k].(id := freshId(k)))
  }

  /** Pushing one more draft numbers it after the others. */
  lemma NumberedPush(drafts: seq<CalendarEvent>, draft: CalendarEvent, freshId: nat -> Id)
    ensures Numbered(drafts + [draft], freshId) == Numbered(drafts, freshId) + [draft.(id := freshId(|drafts|))]
  {
  }

  /** One more day of the innermost loop. */
  lemma ClassDraftsStep(cls: ClassSchedule, days: seq<DayOfWeek>, d: nat, weekStart: int, now: int)
    requires d < |days|
    ensures var day := weekStart + DayNumber(days[d]);
      ClassDrafts(cls, days[..d + 1], weekStart, now)
      == ClassDrafts(cls, days[..d], weekStart, now) + (if SlotStart(cls, day) >= now then [Draft(cls, day, now)] else [])
  {
    assert days[..d + 1][..d] == days[..d];
  }

  /** One more class of the middle loop. */
  lemma WeekDraftsStep(classes: seq<ClassSchedule>, c: nat, weekStart: int, now: int)
    requires c < |classes|
    ensures WeekDrafts(classes[..c + 1], weekStart, now)
      == WeekDrafts(classes[..c], weekStart, now) + ClassDrafts(classes[c], classes[c].days, weekStart, now)
  {
    assert classes[..c + 1][..c] == classes[..c];
  }

  /** The innermost loop of `syncClassesFromUser`: pushes the class's event
      for each of its days in one week that starts at or after now. */
  method PushClassDays(cls: ClassSchedule, currentWeekStart: int, now: int, freshId: nat -> Id,
                       newEvents: seq<CalendarEvent>, ghost before: seq<CalendarEvent>)
    returns (pushed: seq<CalendarEvent>)
    requires newEvents == Numbered(before, freshId)
    ensures pushed == Numbered(before + ClassDrafts(cls, cls.days, currentWeekStart, now), freshId)
  {
    pushed := newEvents;
    var d := 0;
    while d < |cls.days|
      invariant 0 <= d <= |cls.days|
      invariant pushed == Numbered(before + ClassDrafts(cls, cls.days[..d], currentWeekStart, now), freshId)
    {
      var eventDay := currentWeekStart + DayNumber(cls.days[d]);
      var eventStart := Midnight(eventDay) + cls.startHour * 60 + cls.startMinute;
      ghost var prior := before + ClassDrafts(cls, cls.days[..d], currentWeekStart, now);
      ClassDraftsStep(cls, cls.days, d, currentWeekStart, now);
      if eventStart >= now {
        NumberedPush(prior, Draft(cls, eventDay, now), freshId);
        AppendAssociative(before, ClassDrafts(cls, cls.days[..d], currentWeekStart, now), [Draft(cls, eventDay, now)]);
        pushed := pushed + [Draft(cls, eventDay, now).(id := freshId(|pushed|))];
      } else {
        assert prior == before + ClassDrafts(cls, cls.days[..d + 1], currentWeekStart, now);
      }
      d := d + 1;
    }
    assert cls.days[..|cls.days|] == cls.days;
  }

  /** The middle loop: every class in order, for one week. */
  method PushWeek(classes: seq<ClassSchedule>, currentWeekStart: int, now: int, freshId: nat -> Id,
                  newEvents: seq<CalendarEvent>, ghost done: seq<CalendarEvent>)
    returns (pushed: seq<CalendarEvent>)
    requires newEvents == Numbered(done, freshId)
    ensures pushed == Numbered(done + WeekDrafts(classes, currentWeekStart, now), freshId)
  {
    pushed := newEvents;
    var c := 0;
    while c < |classes|
      invariant 0 <= c <= |classes|
      invariant pushed == Numbered(done + WeekDrafts(classes[..c], currentWeekStart, now), freshId)
    {
      ghost var before := done + WeekDrafts(classes[..c], currentWeekStart, now);
      pushed := PushClassDays(classes[c], currentWeekStart, now, freshId, pushed, before);
      WeekDraftsStep(classes, c, currentWeekStart, now);
      AppendAssociative(done, WeekDrafts(classes[..c], currentWeekStart, now),
                        ClassDrafts(classes[c], classes[c].days, currentWeekStart, now));
      c := c + 1;
    }
    assert classes[..|classes|] == classes;
  }

  /** The event list `syncClassesFromUser` computes before it stores it: the
      outer loop over the weeks ahead, from the start of the current week. */
  method GenerateClassEvents(classes: seq<ClassSchedule>, weeksAhead: int, now: int, freshId: nat -> Id)
    returns (newEvents: seq<CalendarEvent>)
    ensures newEvents == Numbered(SyncDrafts(classes, Weeks(weeksAhead), StartOfWeek(DayOf(now)), now), freshId)
  {
    var weekStart := StartOfWeek(DayOf(now));
    newEvents := [];
    var week := 0;
    while week < weeksAhead
      invariant 0 <= week <= Weeks(weeksAhead)
      invariant newEvents == Numbered(SyncDrafts(classes, week, weekStart, now), freshId)
    {
      var currentWeekStart := weekStart + 7 * week;
      newEvents := PushWeek(classes, currentWeekStart, now, freshId, newEvents, SyncDrafts(classes, week, weekStart, now));
      week := week + 1;
    }
  }

  /** The events after `syncClassesFromUser`: the non-class events, in
      order, followed by the generated ones. */
  function SyncedEvents(events: seq<CalendarEvent>, classes: seq<ClassSchedule>, weeksAhead: int,
                        now: int, freshId: nat -> Id): (r: seq<CalendarEvent>)
    ensures forall e :: e in events && !IsClassEvent(e) ==> e in r
    ensures forall e :: e in r ==> (e in events && !IsClassEvent(e)) || Generated(e, ClassIds(classes), now)
  {
    var kept := WithoutClassEvents(events);
    var drafts := SyncDrafts(classes, Weeks(weeksAhead), StartOfWeek(DayOf(now)), now);
    var generated := Numbered(drafts, freshId);
    assert forall k :: 0 <= k < |generated| ==> Generated(generated[k], ClassIds(classes), now) by {
      forall k | 0 <= k < |generated| ensures Generated(generated[k], ClassIds(classes), now) {
        assert drafts[k] in drafts;
      }
    }
    kept + generated
  }

  /** Every slot is generated: each listed day of each class in each of the
      weeks yields its event when it starts at or after now. */
  lemma {:induction false} ClassDraftsCover(cls: ClassSchedule, days: seq<DayOfWeek>, weekStart: int, now: int, i: nat)
    requires i < |days|
    requires SlotStart(cls, weekStart + DayNumber(days[i])) >= now
    ensures Draft(cls, weekStart + DayNumber(days[i]), now) in ClassDrafts(cls, days, weekStart, now)
    decreases |days|
  {
    if i < |days| - 1 {
      assert days[..|days| - 1][i] == days[i];
      ClassDraftsCover(cls, days[..|days| - 1], weekStart, now, i);
    }
  }

  lemma {:induction false} WeekDraftsCover(classes: seq<ClassSchedule>, weekStart: int, now: int, j: nat, i: nat)
    requires j < |classes| && i < |classes[j].days|
    requires SlotStart(classes[j], weekStart + DayNumber(classes[j].days[i])) >= now
    ensures Draft(classes[j], weekStart + DayNumber(classes[j].days[i]), now) in WeekDrafts(classes, weekStart, now)
    decreases |classes|
  {
    if j < |classes| - 1 {
      assert classes[..|classes| - 1][j] == classes[j];
      WeekDraftsCover(classes[..|classes| - 1], weekStart, now, j, i);
    } else {
      ClassDraftsCover(classes[j], classes[j].days, weekStart, now, i);
    }
  }

  lemma {:induction false} SyncDraftsCover(classes: seq<ClassSchedule>, weeks: nat, weekStart: int, now: int,
                                           w: nat, j: nat, i: nat)
    requires w < weeks && j < |classes| && i < |classes[j].days|
    requires SlotStart(classes[j], weekStart + 7 * w + DayNumber(classes[j].days[i])) >= now
    ensures Draft(classes[j], weekStart + 7 * w + DayNumber(classes[j].days[i]), now)
            in SyncDrafts(classes, weeks, weekStart, now)
    decreases weeks
  {
    var earlier := SyncDrafts(classes, weeks - 1, weekStart, now);
    var last := WeekDrafts(classes, weekStart + 7 * (weeks - 1), now);
    assert SyncDrafts(classes, weeks, weekStart, now) == earlier + last;
    var draft := Draft(classes[j], weekStart + 7 * w + DayNumber(classes[j].days[i]), now);
    if w < weeks - 1 {
      SyncDraftsCover(classes, weeks - 1, weekStart, now, w, j, i);
      assert draft in earlier;
    } else {
      assert w == weeks - 1;
      WeekDraftsCover(classes, weekStart + 7 * (weeks - 1), now, j, i);
      assert draft in last;
    }
  }

  /** What the sync generates: for every week before `weeksAhead`, every
      class and every day listed for it, the class's slot on that day of that
      week is an event of the result (under some fresh id) when it starts at
      or after now; and every event of the result is either a kept non-class
      event or a class event that starts at or after now. */
  lemma SyncCoversEverySlot(events: seq<CalendarEvent>, classes: seq<ClassSchedule>, weeksAhead: int,
                            now: int, freshId: nat -> Id, w: nat, j: nat, i: nat)
    requires w < weeksAhead && j < |classes| && i < |classes[j].days|
    requires SlotStart(classes[j], StartOfWeek(DayOf(now)) + 7 * w + DayNumber(classes[j].days[i])) >= now
    ensures exists e :: (e in SyncedEvents(events, classes, weeksAhead, now, freshId) &&
      e.(id := "") == Draft(classes[j], StartOfWeek(DayOf(now)) + 7 * w + DayNumber(classes[j].days[i]), now))
  {
    var weekStart := StartOfWeek(DayOf(now));
    var drafts := SyncDrafts(classes, Weeks(weeksAhead), weekStart, now);
    var draft := Draft(classes[j], weekStart + 7 * w + DayNumber(classes[j].days[i]), now);
    SyncDraftsCover(classes, Weeks(weeksAhead), weekStart, now, w, j, i);
    var k :| 0 <= k < |drafts| && drafts[k] == draft;
    var r := SyncedEvents(events, classes, weeksAhead, now, freshId);
    assert r[|WithoutClassEvents(events)| + k] == draft.(id := freshId(k));
    assert r[|WithoutClassEvents(events)| + k] in r;
  }

  /** Syncing twice with the same classes at the same instant leaves the same
      events as syncing once with the second run's ids: the second run
      removes exactly what the first generated.  This holds when every class
      id is non-empty, since an event whose class id is empty is not a class
      event and would survive the clear. */
  lemma SyncTwiceIsSyncOnce(events: seq<CalendarEvent>, classes: seq<ClassSchedule>, weeksAhead: int,
                            now: int, id1: nat -> Id, id2: nat -> Id)
    requires forall cls :: cls in classes ==> cls.id != ""
    ensures SyncedEvents(SyncedEvents(events, classes, weeksAhead, now, id1), classes, weeksAhead, now, id2)
         == SyncedEvents(events, classes, weeksAhead, now, id2)
  {
    var kept := WithoutClassEvents(events);
    var drafts := SyncDrafts(classes, Weeks(weeksAhead), StartOfWeek(DayOf(now)), now);
    var first := Numbered(drafts, id1);
    var once := SyncedEvents(events, classes, weeksAhead, now, id1);
    assert once == kept + first;
    assert "" !in ClassIds(classes);
    forall k | 0 <= k < |first| ensures !NotClassEvent()(first[k]) {
      assert drafts[k] in drafts;
    }
    FilterAppend(kept, first, NotClassEvent());
    FilterFilter(events, NotClassEvent(), NotClassEvent());
    FilterNone(first, NotClassEvent());
    assert WithoutClassEvents(once) == kept;
  }

  // ---------------------------------------------------------------------
  // The slots of a sync

  /** A slot of the timetable: `week` weeks after the current one, the class
      at `index` in the list, and the `pos`-th day listed for that class. */
  datatype Slot = Slot(week: nat, index: nat, pos: nat)

  /** The slot names a class of the list and one of its listed days. */
  predicate InTimetable(classes: seq<ClassSchedule>, s: Slot) {
    s.index < |classes| && s.pos < |classes[s.index].days|
  }

  /** The day a slot falls on. */
  function SlotDay(classes: seq<ClassSchedule>, weekStart: int, s: Slot): int
    requires InTimetable(classes, s)
  {
    weekStart + 7 * s.week + DayNumber(classes[s.index].days[s.pos])
  }

  /** The event a slot yields, before it receives its id. */
  function SlotDraft(classes: seq<ClassSchedule>, weekStart: int, s: Slot, now: int): CalendarEvent
    requires InTimetable(classes, s)
  {
    Draft(classes[s.index], SlotDay(classes, weekStart, s), now)
  }

  /** A slot the sync is meant to fill: one of the weeks ahead, a listed day
      of a listed class, starting at or after now. */
  predicate Due(classes: seq<ClassSchedule>, weeks: nat, weekStart: int, now: int, s: Slot) {
    s.week < weeks && InTimetable(classes, s)
    && SlotStart(classes[s.index], SlotDay(classes, weekStart, s)) >= now
  }

  /** The due slots, as a set. */
  function DueSlots(classes: seq<ClassSchedule>, weeks: nat, weekStart: int, now: int): set<Slot> {
    set w: nat, c: nat, d: nat | w < weeks && c < |classes| && d < |classes[c].days|
                                 && Due(classes, weeks, weekStart, now, Slot(w, c, d)) :: Slot(w, c, d)
  }

  /** Slots ordered by week, then by class, then by listed day. */
  predicate SlotBefore(a: Slot, b: Slot) {
    || a.week < b.week
    || (a.week == b.week && a.index < b.index)
    || (a.week == b.week && a.index == b.index && a.pos < b.pos)
  }

  predicate Ascending(slots: seq<Slot>) {
    forall a, b :: 0 <= a < b < |slots| ==> SlotBefore(slots[a], slots[b])
  }

  lemma AscendingAppend(x: seq<Slot>, y: seq<Slot>)
    requires Ascending(x) && Ascending(y)
    requires forall a, b :: a in x && b in y ==> SlotBefore(a, b)
    ensures Ascending(x + y)
  {
    forall a, b | 0 <= a < b < |x + y| ensures SlotBefore((x + y)[a], (x + y)[b]) {
      if b < |x| {
      } else if a >= |x| {
        assert (x + y)[a] == y[a - |x|] && (x + y)[b] == y[b - |x|];
      } else {
        assert (x + y)[a] in x && (x + y)[b] in y;
      }
    }
  }

  /** The slots the innermost loop visits for the class at `index` in week
      `week`, over its first `n` listed days, keeping those that start at or
      after now. */
  function ClassSlots(classes: seq<ClassSchedule>, weekStart: int, now: int, week: nat, index: nat, n: nat)
    : (r: seq<Slot>)
    requires index < |classes| && n <= |classes[index].days|
    ensures Ascending(r)
    ensures forall s :: s in r <==> s.week == week && s.index == index && s.pos < n
                                     && Due(classes, week + 1, weekStart, now, s)
    decreases n
  {
    if n == 0 then []
    else
      var s := Slot(week, index, n - 1);
      var earlier := ClassSlots(classes, weekStart, now, week, index, n - 1);
      var last := if SlotStart(classes[index], SlotDay(classes, weekStart, s)) >= now then [s] else [];
      AscendingAppend(earlier, last);
      earlier + last
  }

  /** The slots the middle loop visits in week `week`, over the first `m`
      classes. */
  function WeekSlots(classes: seq<ClassSchedule>, weekStart: int, now: int, week: nat, m: nat): (r: seq<Slot>)
    requires m <= |classes|
    ensures Ascending(r)
    ensures forall s :: s in r <==> s.week == week && s.index < m && Due(classes, week + 1, weekStart, now, s)
    decreases m
  {
    if m == 0 then []
    else
      var earlier := WeekSlots(classes, weekStart, now, week, m - 1);
      var last := ClassSlots(classes, weekStart, now, week, m - 1, |classes[m - 1].days|);
      AscendingAppend(earlier, last);
      earlier + last
  }

  /** The slots the outer loop visits over `weeks` weeks: exactly the due
      slots, each once, in ascending order. */
  function SyncSlots(classes: seq<ClassSchedule>, weekStart: int, now: int, weeks: nat): (r: seq<Slot>)
    ensures Ascending(r)
    ensures forall s :: s in r <==> Due(classes, weeks, weekStart, now, s)
  {
    if weeks == 0 then []
    else
      var earlier := SyncSlots(classes, weekStart, now, weeks - 1);
      var last := WeekSlots(classes, weekStart, now, weeks - 1, |classes|);
      AscendingAppend(earlier, last);
      earlier + last
  }

  /** `drafts` are, position by position, the drafts of `slots`. */
  predicate DraftsOf(drafts: seq<CalendarEvent>, slots: seq<Slot>, classes: seq<ClassSchedule>, weekStart: int, now: int) {
    && |drafts| == |slots|
    && forall k :: 0 <= k < |slots| ==>
         InTimetable(classes, slots[k]) && drafts[k] == SlotDraft(classes, weekStart, slots[k], now)
  }

  lemma DraftsOfAppend(d1: seq<CalendarEvent>, s1: seq<Slot>, d2: seq<CalendarEvent>, s2: seq<Slot>,
                       classes: seq<ClassSchedule>, weekStart: int, now: int)
    requires DraftsOf(d1, s1, classes, weekStart, now) && DraftsOf(d2, s2, classes, weekStart, now)
    ensures DraftsOf(d1 + d2, s1 + s2, classes, weekStart, now)
  {
    forall k | |s1| <= k < |s1 + s2|
      ensures InTimetable(classes, (s1 + s2)[k]) && (d1 + d2)[k] == SlotDraft(classes, weekStart, (s1 + s2)[k], now)
    {
      assert (s1 + s2)[k] == s2[k - |s1|] && (d1 + d2)[k] == d2[k - |s1|];
    }
  }

  /** The innermost loop yields the drafts of its slots. */
  lemma {:induction false} ClassDraftsAreSlotDrafts(classes: seq<ClassSchedule>, weekStart: int, now: int,
                                                    week: nat, index: nat, n: nat)
    requires index < |classes| && n <= |classes[index].days|
    ensures DraftsOf(ClassDrafts(classes[index], classes[index].days[..n], weekStart + 7 * week, now),
                     ClassSlots(classes, weekStart, now, week, index, n), classes, weekStart, now)
    decreases n
  {
    var cls := classes[index];
    if n == 0 {
      assert cls.days[..0] == [];
    } else {
      var s := Slot(week, index, n - 1);
      var earlierDrafts := ClassDrafts(cls, cls.days[..n - 1], weekStart + 7 * week, now);
      var earlierSlots := ClassSlots(classes, weekStart, now, week, index, n - 1);
      ClassDraftsAreSlotDrafts(classes, weekStart, now, week, index, n - 1);
      assert cls.days[..n][..n - 1] == cls.days[..n - 1];
      var day := weekStart + 7 * week + DayNumber(cls.days[n - 1]);
      assert SlotDay(classes, weekStart, s) == day;
      assert SlotDraft(classes, weekStart, s, now) == Draft(cls, day, now);
      if SlotStart(cls, day) >= now {
        assert ClassSlots(classes, weekStart, now, week, index, n) == earlierSlots + [s];
        assert ClassDrafts(cls, cls.days[..n], weekStart + 7 * week, now) == earlierDrafts + [Draft(cls, day, now)];
        DraftsOfAppend(earlierDrafts, earlierSlots, [Draft(cls, day, now)], [s], classes, weekStart, now);
      } else {
        assert ClassSlots(classes, weekStart, now, week, index, n) == earlierSlots;
        assert ClassDrafts(cls, cls.days[..n], weekStart + 7 * week, now) == earlierDrafts;
      }
    }
  }

  /** The middle loop yields the drafts of its slots. */
  lemma {:induction false} WeekDraftsAreSlotDrafts(classes: seq<ClassSchedule>, weekStart: int, now: int,
                                                   week: nat, m: nat)
    requires m <= |classes|
    ensures DraftsOf(WeekDrafts(classes[..m], weekStart + 7 * week, now),
                     WeekSlots(classes, weekStart, now, week, m), classes, weekStart, now)
    decreases m
  {
    if m == 0 {
      assert classes[..0] == [];
    } else {
      var cls := classes[m - 1];
      WeekDraftsAreSlotDrafts(classes, weekStart, now, week, m - 1);
      assert classes[..m][..m - 1] == classes[..m - 1] && classes[..m][m - 1] == cls;
      ClassDraftsAreSlotDrafts(classes, weekStart, now, week, m - 1, |cls.days|);
      assert cls.days[..|cls.days|] == cls.days;
      DraftsOfAppend(WeekDrafts(classes[..m - 1], weekStart + 7 * week, now),
                     WeekSlots(classes, weekStart, now, week, m - 1),
                     ClassDrafts(cls, cls.days, weekStart + 7 * week, now),
                     ClassSlots(classes, weekStart, now, week, m - 1, |cls.days|), classes, weekStart, now);
    }
  }

  /** The outer loop yields the drafts of its slots. */
  lemma {:induction false} SyncDraftsAreSlotDrafts(classes: seq<ClassSchedule>, weeks: nat, weekStart: int, now: int)
    ensures DraftsOf(SyncDrafts(classes, weeks, weekStart, now), SyncSlots(classes, weekStart, now, weeks),
                     classes, weekStart, now)
    decreases weeks
  {
    if weeks > 0 {
      SyncDraftsAreSlotDrafts(classes, weeks - 1, weekStart, now);
      WeekDraftsAreSlotDrafts(classes, weekStart, now, weeks - 1, |classes|);
      assert classes[..|classes|] == classes;
      DraftsOfAppend(SyncDrafts(classes, weeks - 1, weekStart, now), SyncSlots(classes, weekStart, now, weeks - 1),
                     WeekDrafts(classes, weekStart + 7 * (weeks - 1), now),
                     WeekSlots(classes, weekStart, now, weeks - 1, |classes|), classes, weekStart, now);
    }
  }

  /** The set of due slots is the set of slots the loops visit. */
  lemma DueSlotsAreSyncSlots(classes: seq<ClassSchedule>, weeks: nat, weekStart: int, now: int)
    ensures DueSlots(classes, weeks, weekStart, now) == set s | s in SyncSlots(classes, weekStart, now, weeks)
  {
    var slots := SyncSlots(classes, weekStart, now, weeks);
    forall s | s in slots ensures s in DueSlots(classes, weeks, weekStart, now) {
      assert s == Slot(s.week, s.index, s.pos);
    }
  }

  /** What the loops of `syncClassesFromUser` generate, exactly: one draft
      per due slot and nothing else. Every draft is the draft of a due slot,
      and there are as many drafts as due slots. */
  lemma SyncDraftsAreDueSlots(classes: seq<ClassSchedule>, weeks: nat, weekStart: int, now: int)
    ensures forall e :: e in SyncDrafts(classes, weeks, weekStart, now) ==>
      exists s :: Due(classes, weeks, weekStart, now, s) && e == SlotDraft(classes, weekStart, s, now)
    ensures |SyncDrafts(classes, weeks, weekStart, now)| == |DueSlots(classes, weeks, weekStart, now)|
  {
    var drafts := SyncDrafts(classes, weeks, weekStart, now);
    var slots := SyncSlots(classes, weekStart, now, weeks);
    SyncDraftsAreSlotDrafts(classes, weeks, weekStart, now);
    forall e | e in drafts
      ensures exists s :: Due(classes, weeks, weekStart, now, s) && e == SlotDraft(classes, weekStart, s, now)
    {
      var k :| 0 <= k < |drafts| && drafts[k] == e;
      assert slots[k] in slots;
    }
    DueSlotsAreSyncSlots(classes, weeks, weekStart, now);
    forall i, j | 0 <= i < j < |slots| ensures slots[i] != slots[j] {
      assert SlotBefore(slots[i], slots[j]);
    }
    DistinctCardinality(slots);
  }

  /** The events after a sync are the kept ones followed by the numbered
      drafts. */
  lemma SyncedEventsParts(events: seq<CalendarEvent>, classes: seq<ClassSchedule>, weeksAhead: int,
                          now: int, freshId: nat -> Id)
    ensures SyncedEvents(events, classes, weeksAhead, now, freshId)
         == WithoutClassEvents(events)
            + Numbered(SyncDrafts(classes, Weeks(weeksAhead), StartOfWeek(DayOf(now)), now), freshId)
  {
  }

  /** The events after a sync, exactly: the kept non-class events in their
      order, then, in ascending slot order, one event per slot the loops
      visit (each due slot once), the k-th with the k-th fresh id. */
  lemma SyncedEventsAreDueSlots(events: seq<CalendarEvent>, classes: seq<ClassSchedule>, weeksAhead: int,
                                now: int, freshId: nat -> Id)
    ensures var weekStart := StartOfWeek(DayOf(now));
      var slots := SyncSlots(classes, weekStart, now, Weeks(weeksAhead));
      var kept := WithoutClassEvents(events);
      var r := SyncedEvents(events, classes, weeksAhead, now, freshId);
      && |r| == |kept| + |slots|
      && r[..|kept|] == kept
      && (forall k :: 0 <= k < |slots| ==>
            InTimetable(classes, slots[k])
            && r[|kept| + k] == SlotDraft(classes, weekStart, slots[k], now).(id := freshId(k)))
  {
    var weekStart := StartOfWeek(DayOf(now));
    var slots := SyncSlots(classes, weekStart, now, Weeks(weeksAhead));
    var drafts := SyncDrafts(classes, Weeks(weeksAhead), weekStart, now);
    var kept := WithoutClassEvents(events);
    var generated := Numbered(drafts, freshId);
    SyncedEventsParts(events, classes, weeksAhead, now, freshId);
    SyncDraftsAreSlotDrafts(classes, Weeks(weeksAhead), weekStart, now);
    assert (kept + generated)[..|kept|] == kept;
    forall k | 0 <= k < |slots|
      ensures (kept + generated)[|kept| + k] == SlotDraft(classes, weekStart, slots[k], now).(id := freshId(k))
    {
      assert (kept + generated)[|kept| + k] == generated[k];
    }
  }

  /** A sync leaves as many events as it keeps plus one per due slot. */
  lemma SyncedEventsCount(events: seq<CalendarEvent>, classes: seq<ClassSchedule>, weeksAhead: int,
                          now: int, freshId: nat -> Id)
    ensures |SyncedEvents(events, classes, weeksAhead, now, freshId)|
         == |WithoutClassEvents(events)| + |DueSlots(classes, Weeks(weeksAhead), StartOfWeek(DayOf(now)), now)|
  {
    SyncedEventsParts(events, classes, weeksAhead, now, freshId);
    SyncDraftsAreDueSlots(classes, Weeks(weeksAhead), StartOfWeek(DayOf(now)), now);
  }


  /** The j-th generated event is, up to its id, the draft of a due slot. */
  lemma GeneratedIsDue(classes: seq<ClassSchedule>, weeks: nat, weekStart: int, now: int, freshId: nat -> Id, j: nat)
    requires j < |SyncDrafts(classes, weeks, weekStart, now)|
    ensures exists s :: Due(classes, weeks, weekStart, now, s)
                        && Numbered(SyncDrafts(classes, weeks, weekStart, now), freshId)[j].(id := "")
                           == SlotDraft(classes, weekStart, s, now)
  {
    var drafts := SyncDrafts(classes, weeks, weekStart, now);
    var slots := SyncSlots(classes, weekStart, now, weeks);
    SyncDraftsAreSlotDrafts(classes, weeks, weekStart, now);
    var s := slots[j];
    assert s in slots;
    assert Numbered(drafts, freshId)[j].(id := "") == drafts[j];
  }

  /** Soundness of the sync: every event afterwards is a kept non-class
      event or, up to its id, the draft of a due slot. */
  lemma SyncedEventIsKeptOrDue(events: seq<CalendarEvent>, classes: seq<ClassSchedule>, weeksAhead: int,
                               now: int, freshId: nat -> Id, e: CalendarEvent)
    requires e in SyncedEvents(events, classes, weeksAhead, now, freshId)
    ensures || (e in events && !IsClassEvent(e))
            || exists s :: Due(classes, Weeks(weeksAhead), StartOfWeek(DayOf(now)), now, s)
                           && e.(id := "") == SlotDraft(classes, StartOfWeek(DayOf(now)), s, now)
  {
    var weekStart := StartOfWeek(DayOf(now));
    var drafts := SyncDrafts(classes, Weeks(weeksAhead), weekStart, now);
    var kept := WithoutClassEvents(events);
    var generated := Numbered(drafts, freshId);
    var r := SyncedEvents(events, classes, weeksAhead, now, freshId);
    assert e in kept + generated;
    if e in generated {
      var j :| 0 <= j < |generated| && generated[j] == e;
      GeneratedIsDue(classes, Weeks(weeksAhead), weekStart, now, freshId, j);
    } else {
      assert e in kept;
    }
  }




  // ---------------------------------------------------------------------
  // Date queries

  /** `isWithinInterval(t, { start: lo, end: hi })`. */
  predicate Within(t: int, lo: int, hi: int) {
    lo <= t <= hi
  }

  /** The first and last minute of the day holding an instant. */
  function DayStartOf(instant: int): int { Midnight(DayOf(instant)) }
  function DayEndOf(instant: int): int { Midnight(DayOf(instant)) + MinutesPerDay - 1 }

  /** The first and last minute of the Sunday-based week holding an instant. */
  function WeekStartOf(instant: int): int { Midnight(StartOfWeek(DayOf(instant))) }
  function WeekEndOf(instant: int): int { Midnight(StartOfWeek(DayOf(instant)) + 7) - 1 }

  /** The filter of `getEventsForDate`: the event starts in the day, ends in
      it, or spans it. */
  predicate OnDay(e: CalendarEvent, instant: int) {
    || Within(e.start, DayStartOf(instant), DayEndOf(instant))
    || Within(e.end, DayStartOf(instant), DayEndOf(instant))
    || (e.start <= DayStartOf(instant) && e.end >= DayEndOf(instant))
  }

  /** The filter of `getEventsForWeek`: the event starts or ends in the week;
      there is no spanning case. */
  predicate InWeek(e: CalendarEvent, instant: int) {
    || Within(e.start, WeekStartOf(instant), WeekEndOf(instant))
    || Within(e.end, WeekStartOf(instant), WeekEndOf(instant))
  }

  /** `e.start >= now && !e.skipped && !e.completed`. */
  predicate Upcoming(e: CalendarEvent, now: int) {
    e.start >= now && !e.skipped && !e.completed
  }

  function UpcomingAt(now: int): CalendarEvent -> bool { (e: CalendarEvent) => Upcoming(e, now) }

  const DefaultUpcomingLimit: int := 5

  // ---------------------------------------------------------------------
  // The store

  class EventStore {
    var events: seq<CalendarEvent>
    var classEventsGenerated: bool

    constructor ()
      ensures events == [] && !classEventsGenerated
    {
      events := [];
      classEventsGenerated := false;
    }

    /** `addEvent`: exactly one event is appended. */
    method AddEvent(data: CalendarEvent, freshId: Id, now: int)
      modifies this
      ensures events == old(events) + [NewEvent(data, freshId, now)]
      ensures classEventsGenerated == old(classEventsGenerated)
    {
      events := events + [NewEvent(data, freshId, now)];
    }

    /** `updateEvent`. */
    method UpdateEvent(eventId: Id, patch: EventPatch, now: int)
      modifies this
      ensures events == UpdatedEvents(old(events), eventId, patch, now)
      ensures classEventsGenerated == old(classEventsGenerated)
    {
      events := UpdatedEvents(events, eventId, patch, now);
    }

    /** `deleteEvent`. */
    method DeleteEvent(eventId: Id)
      modifies this
      ensures events == EventsWithoutId(old(events), eventId)
      ensures classEventsGenerated == old(classEventsGenerated)
    {
      events := EventsWithoutId(events, eventId);
    }

    /** `toggleEventComplete`. */
    method ToggleEventComplete(eventId: Id, now: int)
      modifies this
      ensures events == CompletionToggled(old(events), eventId, now)
      ensures classEventsGenerated == old(classEventsGenerated)
    {
      events := CompletionToggled(events, eventId, now);
    }

    /** `skipEvent`. */
    method SkipEvent(eventId: Id, now: int)
      modifies this
      ensures events == SkipMarked(old(events), eventId, now)
      ensures classEventsGenerated == old(classEventsGenerated)
    {
      events := SkipMarked(events, eventId, now);
    }

    /** `rescheduleEvent`. */
    method RescheduleEvent(eventId: Id, newStart: int, newEnd: int, freshId: Id, now: int)
      modifies this
      ensures events == Rescheduled(old(events), eventId, newStart, newEnd, freshId, now)
      ensures classEventsGenerated == old(classEventsGenerated)
    {
      var originalEvent := Find(events, (e: CalendarEvent) => e.id == eventId);
      if originalEvent.None? {
        return;
      }
      var rescheduledEvent := originalEvent.value.(id := freshId, start := newStart, end := newEnd,
                                                   rescheduledFrom := Some(eventId), createdAt := now, updatedAt := now);
      events := SkipMarked(events, eventId, now) + [rescheduledEvent];
    }

    /** `clearClassEvents`. */
    method ClearClassEvents()
      modifies this
      ensures events == WithoutClassEvents(old(events))
      ensures !classEventsGenerated
    {
      events := WithoutClassEvents(events);
      classEventsGenerated := false;
    }

    /** `syncClassesFromUser(classes, weeksAhead)` at instant `now`; the k-th
        generated event receives `freshId(k)`. */
    method SyncClassesFromUser(classes: seq<ClassSchedule>, weeksAhead: int, now: int, freshId: nat -> Id)
      modifies this
      ensures events == SyncedEvents(old(events), classes, weeksAhead, now, freshId)
      ensures classEventsGenerated
    {
      ClearClassEvents();
      var newEvents := GenerateClassEvents(classes, weeksAhead, now, freshId);
      events := events + newEvents;
      classEventsGenerated := true;
    }

    /** `getEventsForDate`. */
    function GetEventsForDate(date: int): (r: seq<CalendarEvent>)
      reads this
      ensures forall e :: e in r <==> e in events && OnDay(e, date)
      ensures forall e: CalendarEvent :: OnDay(e, date) ==> multiset(r)[e] == multiset(events)[e]
    {
      Filter(events, (e: CalendarEvent) => OnDay(e, date))
    }

    /** `getEventsForWeek`. */
    function GetEventsForWeek(date: int): (r: seq<CalendarEvent>)
      reads this
      ensures forall e :: e in r <==> e in events && InWeek(e, date)
      ensures forall e: CalendarEvent :: InWeek(e, date) ==> multiset(r)[e] == multiset(events)[e]
    {
      Filter(events, (e: CalendarEvent) => InWeek(e, date))
    }

    /** `getTodayEvents` at instant `now`: today's events that are not
        skipped, by start. */
    function GetTodayEvents(now: int): (r: seq<CalendarEvent>)
      reads this
      ensures forall e :: e in r <==> e in events && OnDay(e, now) && !e.skipped
      ensures forall e: CalendarEvent :: OnDay(e, now) && !e.skipped ==> multiset(r)[e] == multiset(events)[e]
      ensures SortedBy(r, EventStart)
    {
      SortBy(Filter(GetEventsForDate(now), (e: CalendarEvent) => !e.skipped), EventStart)
    }

    /** `getUpcomingEvents(limit)` at instant `now`: the earliest pending
        events that have not started, at most `limit` of them. */
    function GetUpcomingEvents(now: int, limit: int): (r: seq<CalendarEvent>)
      reads this
      ensures forall e :: e in r ==> e in events && Upcoming(e, now)
      ensures multiset(r) <= multiset(Filter(events, UpcomingAt(now)))
      ensures SortedBy(r, EventStart)
      ensures |r| == RelativeIndex(|Filter(events, UpcomingAt(now))|, limit)
      ensures limit >= 0 ==> |r| <= limit
    {
      var pending := Filter(events, UpcomingAt(now));
      var sorted := SortBy(pending, EventStart);
      var n := RelativeIndex(|sorted|, limit);
      assert forall e :: e in sorted[..n] ==> e in events && Upcoming(e, now) by {
        forall e | e in sorted[..n] ensures e in events && Upcoming(e, now) {
          assert e in sorted;
          assert e in pending;
        }
      }
      assert multiset(sorted[..n]) <= multiset(pending) by {
        PrefixMultiset(sorted, n);
      }
      sorted[..n]
    }
  }

  /** The upcoming list holds the earliest pending events: any pending event
      left out starts no earlier than every event listed. */
  lemma UpcomingAreEarliest(store: EventStore, now: int, limit: int, x: CalendarEvent, e: CalendarEvent)
    requires x in store.GetUpcomingEvents(now, limit)
    requires e in store.events && Upcoming(e, now) && e !in store.GetUpcomingEvents(now, limit)
    ensures x.start <= e.start
  {
    var pending := Filter(store.events, UpcomingAt(now));
    var sorted := SortBy(pending, EventStart);
    assert e in pending;
    SortedPrefixComesFirst(sorted, RelativeIndex(|sorted|, limit), EventStart, x, e);
  }

  /** The week query has no spanning case: an event running from before the
      week to after it is listed for every day of the week but not for the
      week itself. */
  lemma WeekQueryMissesSpanningEvent(store: EventStore, date: int, e: CalendarEvent)
    requires e in store.events
    requires e.start < WeekStartOf(date) && e.end > WeekEndOf(date)
    ensures e in store.GetEventsForDate(date)
    ensures e !in store.GetEventsForWeek(date)
  {
    var day := DayOf(date);
    assert StartOfWeek(day) <= day < StartOfWeek(day) + 7;
    assert DayStartOf(date) >= WeekStartOf(date);
    assert DayEndOf(date) <= WeekEndOf(date);
  }

  /** Apart from events spanning the whole day, everything listed for a day
      is also listed for its week. */
  lemma DayEventsAreWeekEvents(store: EventStore, date: int, e: CalendarEvent)
    requires e in store.GetEventsForDate(date)
    requires !(e.start <= DayStartOf(date) && e.end >= DayEndOf(date))
    ensures e in store.GetEventsForWeek(date)
  {
    var day := DayOf(date);
    assert StartOfWeek(day) <= day < StartOfWeek(day) + 7;
    assert DayStartOf(date) >= WeekStartOf(date);
    assert DayEndOf(date) <= WeekEndOf(date);
  }
}
