/** The user store: the signed-in student's profile (or none), with its
    class timetable and personal goals.  Every action other than `setUser`
    and `resetUser` does nothing while there is no profile, and stamps the
    profile's update time otherwise. */
module User {
  import opened Basics
  import opened Seqs

  datatype DayOfWeek = Mon | Tue | Wed | Thu | Fri | Sat | Sun

  /** A class of the user's timetable; the `HH:mm` start and end times are
      carried already split into hours and minutes. */
  datatype ClassSchedule = ClassSchedule(
    id: Id,
    name: string,
    code: string,
    location: string,
    instructor: Option<string>,
    days: seq<DayOfWeek>,
    startHour: int,
    startMinute: int,
    endHour: int,
    endMinute: int,
    color: string)

  datatype YearInSchool = Freshman | Sophomore | Junior | Senior | Graduate
  datatype PeakTime = EarlyMorning | Morning | Afternoon | Evening | Night
  datatype GoalCategory = Academic | Health | Social | Career | Personal

  datatype EnergyPattern = EnergyPattern(
    morningEnergy: int,
    afternoonEnergy: int,
    eveningEnergy: int,
    peakProductivityTime: PeakTime)

  datatype UserGoal = UserGoal(
    id: Id,
    category: GoalCategory,
    title: string,
    description: Option<string>,
    targetDate: Option<string>,
    completed: bool)

  /** What the caller of `addGoal` supplies: no id and no completion flag. */
  datatype GoalData = GoalData(
    category: GoalCategory,
    title: string,
    description: Option<string>,
    targetDate: Option<string>)

  datatype UserProfile = UserProfile(
    id: Id,
    name: string,
    major: string,
    yearInSchool: YearInSchool,
    preferredBedtime: string,
    preferredWakeTime: string,
    classes: seq<ClassSchedule>,
    goals: seq<UserGoal>,
    energyPattern: EnergyPattern,
    currentChallenges: seq<string>,
    onboardingCompleted: bool,
    createdAt: int,
    updatedAt: int)

  /** A `Partial<UserProfile>` for `updateUser` (the store stamps the update
      time itself). */
  datatype UserPatch = UserPatch(
    name: Option<string>,
    major: Option<string>,
    yearInSchool: Option<YearInSchool>,
    preferredBedtime: Option<string>,
    preferredWakeTime: Option<string>,
    classes: Option<seq<ClassSchedule>>,
    goals: Option<seq<UserGoal>>,
    energyPattern: Option<EnergyPattern>,
    currentChallenges: Option<seq<string>>,
    onboardingCompleted: Option<bool>)

  /** What the caller of `addClass` supplies: everything but the id. */
  datatype ClassData = ClassData(
    name: string,
    code: string,
    location: string,
    instructor: Option<string>,
    days: seq<DayOfWeek>,
    startHour: int,
    startMinute: int,
    endHour: int,
    endMinute: int,
    color: string)

  /** A `Partial<ClassSchedule>` for `updateClass`. */
  datatype ClassPatch = ClassPatch(
    name: Option<string>,
    code: Option<string>,
    location: Option<string>,
    instructor: Option<string>,
    days: Option<seq<DayOfWeek>>,
    startHour: Option<int>,
    startMinute: Option<int>,
    endHour: Option<int>,
    endMinute: Option<int>,
    color: Option<string>)

  const EmptyUserPatch: UserPatch := UserPatch(None, None, None, None, None, None, None, None, None, None)

  // ---------------------------------------------------------------------
  // The profile as a whole

  /** `{...currentUser, ...updates, updatedAt}`. */
  function UpdatedUser(u: UserProfile, p: UserPatch, now: int): (r: UserProfile)
    ensures r.id == u.id && r.createdAt == u.createdAt && r.updatedAt == now
    ensures r.classes == Merge(p.classes, u.classes) && r.goals == Merge(p.goals, u.goals)
    ensures r.onboardingCompleted == Merge(p.onboardingCompleted, u.onboardingCompleted)
  {
    UserProfile(u.id, Merge(p.name, u.name), Merge(p.major, u.major), Merge(p.yearInSchool, u.yearInSchool),
                Merge(p.preferredBedtime, u.preferredBedtime), Merge(p.preferredWakeTime, u.preferredWakeTime),
                Merge(p.classes, u.classes), Merge(p.goals, u.goals), Merge(p.energyPattern, u.energyPattern),
                Merge(p.currentChallenges, u.currentChallenges),
                Merge(p.onboardingCompleted, u.onboardingCompleted), u.createdAt, now)
  }

  /** An empty update only stamps the time; applying the same update twice
      is applying it once. */
  lemma UpdateUserLaws(u: UserProfile, p: UserPatch, t1: int, t2: int)
    ensures UpdatedUser(u, EmptyUserPatch, t1) == u.(updatedAt := t1)
    ensures UpdatedUser(UpdatedUser(u, p, t1), p, t2) == UpdatedUser(u, p, t2)
  {
  }

  /** `completeOnboarding`: the flag is set and the time stamped. */
  function Onboarded(u: UserProfile, now: int): (r: UserProfile)
    ensures r.onboardingCompleted && r.updatedAt == now
    ensures r.(onboardingCompleted := u.onboardingCompleted, updatedAt := u.updatedAt) == u
  {
    u.(onboardingCompleted := true, updatedAt := now)
  }

  /** Completing onboarding is `updateUser` with the flag alone, and doing
      it again changes only the time. */
  lemma OnboardingIsAnUpdate(u: UserProfile, t1: int, t2: int)
    ensures Onboarded(u, t1) == UpdatedUser(u, EmptyUserPatch.(onboardingCompleted := Some(true)), t1)
    ensures Onboarded(Onboarded(u, t1), t2) == Onboarded(u, t2)
  {
  }

  // ---------------------------------------------------------------------
  // Classes

  function ClassHasId(id: Id): ClassSchedule -> bool { (c: ClassSchedule) => c.id == id }
  function ClassNotId(id: Id): ClassSchedule -> bool { (c: ClassSchedule) => c.id != id }

  /** The class `addClass` builds around the caller's data. */
  function NewClass(data: ClassData, freshId: Id): (c: ClassSchedule)
    ensures c.id == freshId && c.name == data.name && c.days == data.days
  {
    ClassSchedule(freshId, data.name, data.code, data.location, data.instructor, data.days,
                  data.startHour, data.startMinute, data.endHour, data.endMinute, data.color)
  }

  /** `classes.filter(c => c.id !== classId)`. */
  function ClassesWithout(classes: seq<ClassSchedule>, classId: Id): (r: seq<ClassSchedule>)
    ensures forall c :: c in r <==> c in classes && c.id != classId
    ensures forall c: ClassSchedule :: c.id != classId ==> multiset(r)[c] == multiset(classes)[c]
  {
    Filter(classes, ClassNotId(classId))
  }

  /** `{...c, ...updates}`. */
  function PatchedClass(c: ClassSchedule, p: ClassPatch): (r: ClassSchedule)
    ensures r.id == c.id
  {
    ClassSchedule(c.id, Merge(p.name, c.name), Merge(p.code, c.code), Merge(p.location, c.location),
                  MergeOptional(p.instructor, c.instructor), Merge(p.days, c.days),
                  Merge(p.startHour, c.startHour), Merge(p.startMinute, c.startMinute),
                  Merge(p.endHour, c.endHour), Merge(p.endMinute, c.endMinute), Merge(p.color, c.color))
  }

  /** The classes after `updateClass`: the class with the id is patched in
      place, every other class is kept where it was. */
  function UpdatedClasses(classes: seq<ClassSchedule>, classId: Id, p: ClassPatch): (r: seq<ClassSchedule>)
    ensures |r| == |classes|
    ensures forall i :: 0 <= i < |classes| && classes[i].id != classId ==> r[i] == classes[i]
    ensures forall i :: 0 <= i < |classes| && classes[i].id == classId ==> r[i] == PatchedClass(classes[i], p)
  {
    UpdateWhere(classes, ClassHasId(classId), (c: ClassSchedule) => PatchedClass(c, p))
  }

  /** `updateClass` touches no class with another id. */
  lemma UpdateClassTouchesOnlyId(classes: seq<ClassSchedule>, classId: Id, p: ClassPatch)
    ensures ClassesWithout(UpdatedClasses(classes, classId, p), classId) == ClassesWithout(classes, classId)
  {
    FilterUpdateWhere(classes, ClassHasId(classId), (c: ClassSchedule) => PatchedClass(c, p), ClassNotId(classId));
  }

  /** Removing a class just added under a fresh id gives back the timetable
      as it was. */
  lemma RemoveUndoesAddClass(classes: seq<ClassSchedule>, data: ClassData, freshId: Id)
    requires forall c :: c in classes ==> c.id != freshId
    ensures ClassesWithout(classes + [NewClass(data, freshId)], freshId) == classes
  {
    FilterAppend(classes, [NewClass(data, freshId)], ClassNotId(freshId));
    FilterAll(classes, ClassNotId(freshId));
    assert Filter([NewClass(data, freshId)], ClassNotId(freshId)) == [];
  }

  // ---------------------------------------------------------------------
  // Goals

  function GoalHasId(id: Id): UserGoal -> bool { (g: UserGoal) => g.id == id }
  function GoalNotId(id: Id): UserGoal -> bool { (g: UserGoal) => g.id != id }
  function Flip(g: UserGoal): UserGoal { g.(completed := !g.completed) }

  /** The goal `addGoal` builds: a fresh id, not yet completed. */
  function NewGoal(data: GoalData, freshId: Id): (g: UserGoal)
    ensures g.id == freshId && !g.completed && g.title == data.title && g.category == data.category
  {
    UserGoal(freshId, data.category, data.title, data.description, data.targetDate, false)
  }

  /** `goals.filter(g => g.id !== goalId)`. */
  function GoalsWithout(goals: seq<UserGoal>, goalId: Id): (r: seq<UserGoal>)
    ensures forall g :: g in r <==> g in goals && g.id != goalId
    ensures forall g: UserGoal :: g.id != goalId ==> multiset(r)[g] == multiset(goals)[g]
  {
    Filter(goals, GoalNotId(goalId))
  }

  /** The goals after `toggleGoalComplete`: the goal with the id has its
      completion flipped in place and every other goal is kept. */
  function ToggledGoals(goals: seq<UserGoal>, goalId: Id): (r: seq<UserGoal>)
    ensures |r| == |goals|
    ensures forall i :: 0 <= i < |goals| && goals[i].id != goalId ==> r[i] == goals[i]
    ensures forall i :: 0 <= i < |goals| && goals[i].id == goalId ==>
      r[i].completed == !goals[i].completed && r[i].(completed := goals[i].completed) == goals[i]
  {
    UpdateWhere(goals, GoalHasId(goalId), Flip)
  }

  /** Toggling a goal twice restores every goal. */
  lemma ToggleGoalTwice(goals: seq<UserGoal>, goalId: Id)
    ensures ToggledGoals(ToggledGoals(goals, goalId), goalId) == goals
  {
  }

  /** Removing a goal just added under a fresh id gives back the goals as
      they were. */
  lemma RemoveUndoesAddGoal(goals: seq<UserGoal>, data: GoalData, freshId: Id)
    requires forall g :: g in goals ==> g.id != freshId
    ensures GoalsWithout(goals + [NewGoal(data, freshId)], freshId) == goals
  {
    FilterAppend(goals, [NewGoal(data, freshId)], GoalNotId(freshId));
    FilterAll(goals, GoalNotId(freshId));
    assert Filter([NewGoal(data, freshId)], GoalNotId(freshId)) == [];
  }

  // ---------------------------------------------------------------------
  // The store

  class UserStore {
    var user: Option<UserProfile>

    constructor ()
      ensures user == None
    {
      user := None;
    }

    /** `setUser`. */
    method SetUser(u: UserProfile)
      modifies this
      ensures user == Some(u)
    {
      user := Some(u);
    }

    /** `updateUser` at instant `now`. */
    method UpdateUser(updates: UserPatch, now: int)
      modifies this
      ensures old(user).None? ==> user == None
      ensures old(user).Some? ==> user == Some(UpdatedUser(old(user).value, updates, now))
    {
      if user.None? {
        return;
      }
      user := Some(UpdatedUser(user.value, updates, now));
    }

    /** `completeOnboarding` at instant `now`. */
    method CompleteOnboarding(now: int)
      modifies this
      ensures old(user).None? ==> user == None
      ensures old(user).Some? ==> user == Some(Onboarded(old(user).value, now))
    {
      if user.None? {
        return;
      }
      user := Some(Onboarded(user.value, now));
    }

    /** `addClass`: the new class, under a fresh id, goes after the others. */
    method AddClass(classData: ClassData, freshId: Id, now: int)
      modifies this
      ensures old(user).None? ==> user == None
      ensures old(user).Some? ==> user == Some(old(user).value.(
        classes := old(user).value.classes + [NewClass(classData, freshId)], updatedAt := now))
    {
      if user.None? {
        return;
      }
      var currentUser := user.value;
      var newClass := NewClass(classData, freshId);
      user := Some(currentUser.(classes := currentUser.classes + [newClass], updatedAt := now));
    }

    /** `removeClass`. */
    method RemoveClass(classId: Id, now: int)
      modifies this
      ensures old(user).None? ==> user == None
      ensures old(user).Some? ==> user == Some(old(user).value.(
        classes := ClassesWithout(old(user).value.classes, classId), updatedAt := now))
    {
      if user.None? {
        return;
      }
      var currentUser := user.value;
      user := Some(currentUser.(classes := ClassesWithout(currentUser.classes, classId), updatedAt := now));
    }

    /** `updateClass`. */
    method UpdateClass(classId: Id, updates: ClassPatch, now: int)
      modifies this
      ensures old(user).None? ==> user == None
      ensures old(user).Some? ==> user == Some(old(user).value.(
        classes := UpdatedClasses(old(user).value.classes, classId, updates), updatedAt := now))
    {
      if user.None? {
        return;
      }
      var currentUser := user.value;
      user := Some(currentUser.(classes := UpdatedClasses(currentUser.classes, classId, updates), updatedAt := now));
    }

    /** `addGoal`: the new goal, open and under a fresh id, goes after the
        others. */
    method AddGoal(goal: GoalData, freshId: Id, now: int)
      modifies this
      ensures old(user).None? ==> user == None
      ensures old(user).Some? ==> user == Some(old(user).value.(
        goals := old(user).value.goals + [NewGoal(goal, freshId)], updatedAt := now))
    {
      if user.None? {
        return;
      }
      var currentUser := user.value;
      var newGoal := NewGoal(goal, freshId);
      user := Some(currentUser.(goals := currentUser.goals + [newGoal], updatedAt := now));
    }

    /** `removeGoal`. */
    method RemoveGoal(goalId: Id, now: int)
      modifies this
      ensures old(user).None? ==> user == None
      ensures old(user).Some? ==> user == Some(old(user).value.(
        goals := GoalsWithout(old(user).value.goals, goalId), updatedAt := now))
    {
      if user.None? {
        return;
      }
      var currentUser := user.value;
      user := Some(currentUser.(goals := GoalsWithout(currentUser.goals, goalId), updatedAt := now));
    }

    /** `toggleGoalComplete`. */
    method ToggleGoalComplete(goalId: Id, now: int)
      modifies this
      ensures old(user).None? ==> user == None
      ensures old(user).Some? ==> user == Some(old(user).value.(
        goals := ToggledGoals(old(user).value.goals, goalId), updatedAt := now))
    {
      if user.None? {
        return;
      }
      var currentUser := user.value;
      user := Some(currentUser.(goals := ToggledGoals(currentUser.goals, goalId), updatedAt := now));
    }

    /** `resetUser`. */
    method ResetUser()
      modifies this
      ensures user == None
    {
      user := None;
    }
  }
}
