/** The user data store: the profile record and the sleep, water, meal and
    workout logs, each changed by one list update. "Today" (the UTC day as
    an ISO `YYYY-MM-DD` string) and the generated ids are parameters. */
module UserData {
  import opened Common

  /** The profile keeps every field as the text the form produced. */
  datatype UserProfile = UserProfile(name: string, gender: string, age: string, height: string, weight: string)

  /** A `Partial<UserProfileData>`: `None` is a key the caller left out. */
  datatype ProfilePatch = ProfilePatch(
    name: Option<string>, gender: Option<string>, age: Option<string>,
    height: Option<string>, weight: Option<string>)

  const NoChange := ProfilePatch(None, None, None, None, None)

  datatype SleepEntry = SleepEntry(date: string, hoursSlept: real, restTime: string, wakeUpTime: string)

  datatype WaterEntry = WaterEntry(date: string, amount: real)

  datatype MealType = Breakfast | Lunch | Dinner | Snack

  /** A meal as the form supplies it (`Omit<MealData, 'id' | 'date'>`). */
  datatype MealDraft = MealDraft(name: string, calories: real, carbs: real, protein: real, fat: real, mealType: MealType)

  datatype Meal = Meal(id: string, name: string, calories: real, carbs: real, protein: real, fat: real,
                       date: string, mealType: MealType)

  datatype Intensity = Low | Medium | High

  /** A workout as the form supplies it (`Omit<WorkoutData, 'id' | 'date'>`). */
  datatype WorkoutDraft = WorkoutDraft(name: string, duration: real, intensity: Intensity, muscleGroups: seq<string>)

  datatype Workout = Workout(id: string, name: string, duration: real, intensity: Intensity,
                             muscleGroups: seq<string>, date: string)

  // ---------------------------------------------------------------- profile

  function Override(current: string, supplied: Option<string>): string
  {
    match supplied
    case Some(v) => v
    case None => current
  }

  /** `{ ...prev, ...data }`: supplied fields win, omitted ones are kept. */
  function UpdateProfile(p: UserProfile, d: ProfilePatch): (r: UserProfile)
    ensures d.name.Some? ==> r.name == d.name.value
    ensures d.gender.Some? ==> r.gender == d.gender.value
    ensures d.age.Some? ==> r.age == d.age.value
    ensures d.height.Some? ==> r.height == d.height.value
    ensures d.weight.Some? ==> r.weight == d.weight.value
    ensures d.name.None? ==> r.name == p.name
    ensures d.gender.None? ==> r.gender == p.gender
    ensures d.age.None? ==> r.age == p.age
    ensures d.height.None? ==> r.height == p.height
    ensures d.weight.None? ==> r.weight == p.weight
  {
    UserProfile(Override(p.name, d.name), Override(p.gender, d.gender), Override(p.age, d.age),
                Override(p.height, d.height), Override(p.weight, d.weight))
  }

  lemma EmptyPatchIsIdentity(p: UserProfile)
    ensures UpdateProfile(p, NoChange) == p
  {
  }

  lemma UpdateProfileIdempotent(p: UserProfile, d: ProfilePatch)
    ensures UpdateProfile(UpdateProfile(p, d), d) == UpdateProfile(p, d)
  {
  }

  /** The patch that applies `a` and then `b`. */
  function Then(a: ProfilePatch, b: ProfilePatch): ProfilePatch
  {
    ProfilePatch(
      if b.name.Some? then b.name else a.name,
      if b.gender.Some? then b.gender else a.gender,
      if b.age.Some? then b.age else a.age,
      if b.height.Some? then b.height else a.height,
      if b.weight.Some? then b.weight else a.weight)
  }

  lemma UpdateProfileComposes(p: UserProfile, a: ProfilePatch, b: ProfilePatch)
    ensures UpdateProfile(UpdateProfile(p, a), b) == UpdateProfile(p, Then(a, b))
  {
  }

  // ------------------------------------------------------------------ sleep

  /** The most entries the sleep log keeps. */
  const SleepCap: nat := 30

  /** The first `SleepCap` entries of `s`. */
  function Cap(s: seq<SleepEntry>): (r: seq<SleepEntry>)
    ensures |r| == Min(SleepCap, |s|) && r == s[..|r|]
  {
    s[..Min(SleepCap, |s|)]
  }

  /** `[entry, ...prev.slice(0, 29)]`. */
  function AddSleepEntry(prev: seq<SleepEntry>, entry: SleepEntry): (r: seq<SleepEntry>)
    ensures |r| == Min(|prev| + 1, SleepCap)
    ensures r[0] == entry
    ensures forall i :: 1 <= i < |r| ==> r[i] == prev[i - 1]
  {
    [entry] + prev[..Min(SleepCap - 1, |prev|)]
  }

  /** Adding an entry is prepending it and keeping the first thirty. */
  lemma AddSleepEntryIsCap(prev: seq<SleepEntry>, entry: SleepEntry)
    ensures AddSleepEntry(prev, entry) == Cap([entry] + prev)
  {
    var r := AddSleepEntry(prev, entry);
    var c := Cap([entry] + prev);
    assert |r| == |c|;
    forall i | 0 <= i < |r| ensures r[i] == c[i] {
      if i > 0 { assert c[i] == ([entry] + prev)[i] == prev[i - 1]; }
    }
  }

  lemma CapAbsorbs(a: seq<SleepEntry>, b: seq<SleepEntry>)
    ensures Cap(a + Cap(b)) == Cap(a + b)
  {
    var l := Cap(a + Cap(b));
    var rr := Cap(a + b);
    assert |l| == |rr|;
    forall i | 0 <= i < |l| ensures l[i] == rr[i] {
      if i >= |a| {
        assert l[i] == Cap(b)[i - |a|] == b[i - |a|];
      }
    }
  }

  /** `addSleepEntry` called once for each of `entries`, in order. */
  function AddSleepEntries(prev: seq<SleepEntry>, entries: seq<SleepEntry>): seq<SleepEntry>
    decreases |entries|
  {
    if |entries| == 0 then prev else AddSleepEntries(AddSleepEntry(prev, entries[0]), entries[1..])
  }

  /** Any run of additions leaves the newest thirty entries, newest first:
      eviction is first-in first-out by insertion, never by date. */
  lemma {:induction false} AddSleepEntriesKeepsNewest(prev: seq<SleepEntry>, entries: seq<SleepEntry>)
    requires |prev| <= SleepCap || |entries| > 0
    ensures |AddSleepEntries(prev, entries)| == Min(SleepCap, |entries| + |prev|)
    ensures AddSleepEntries(prev, entries) == Cap(Reverse(entries) + prev)
    decreases |entries|
  {
    if |entries| == 0 {
      assert Reverse(entries) + prev == prev;
    } else {
      var e := entries[0];
      AddSleepEntriesKeepsNewest(AddSleepEntry(prev, e), entries[1..]);
      AddSleepEntryIsCap(prev, e);
      CapAbsorbs(Reverse(entries[1..]), [e] + prev);
      assert Reverse(entries) == Reverse(entries[1..]) + [e];
      assert Reverse(entries[1..]) + ([e] + prev) == Reverse(entries) + prev;
    }
  }

  // ------------------------------------------------------------------ water

  predicate HasEntryFor(log: seq<WaterEntry>, day: string)
  {
    exists i :: 0 <= i < |log| && log[i].date == day
  }

  /** `prev.map(e => e.date === day ? { ...e, amount: e.amount + amount } : e)`. */
  function AddOnDay(prev: seq<WaterEntry>, day: string, amount: real): (r: seq<WaterEntry>)
    ensures |r| == |prev|
    ensures forall i :: 0 <= i < |prev| && prev[i].date == day ==> r[i] == WaterEntry(day, prev[i].amount + amount)
    ensures forall i :: 0 <= i < |prev| && prev[i].date != day ==> r[i] == prev[i]
  {
    if |prev| == 0 then []
    else
      var e := prev[0];
      [if e.date == day then e.(amount := e.amount + amount) else e] + AddOnDay(prev[1..], day, amount)
  }

  /** Adds `amount` litres to today's entry, or starts one at the front. */
  function AddWaterIntake(prev: seq<WaterEntry>, today: string, amount: real): (r: seq<WaterEntry>)
    ensures HasEntryFor(prev, today) ==> |r| == |prev|
    ensures HasEntryFor(prev, today) ==>
      forall i :: 0 <= i < |prev| ==>
        r[i].date == prev[i].date
        && r[i].amount == (if prev[i].date == today then prev[i].amount + amount else prev[i].amount)
    ensures !HasEntryFor(prev, today) ==> r == [WaterEntry(today, amount)] + prev
  {
    if HasEntryFor(prev, today) then AddOnDay(prev, today, amount)
    else [WaterEntry(today, amount)] + prev
  }

  /** At most one entry per date. */
  ghost predicate DatesUnique(log: seq<WaterEntry>)
  {
    forall i, j :: 0 <= i < j < |log| ==> log[i].date != log[j].date
  }

  lemma AddWaterIntakeKeepsDatesUnique(prev: seq<WaterEntry>, today: string, amount: real)
    requires DatesUnique(prev)
    ensures DatesUnique(AddWaterIntake(prev, today, amount))
    ensures HasEntryFor(AddWaterIntake(prev, today, amount), today)
  {
    var r := AddWaterIntake(prev, today, amount);
    if !HasEntryFor(prev, today) {
      assert r[0].date == today;
      forall i, j | 0 <= i < j < |r| ensures r[i].date != r[j].date {
        if i > 0 { assert r[i] == prev[i - 1] && r[j] == prev[j - 1]; }
        else { assert r[j] == prev[j - 1]; }
      }
    } else {
      var k :| 0 <= k < |prev| && prev[k].date == today;
      assert r[k].date == today;
    }
  }

  // ---------------------------------------------------- meals and workouts

  /** The draft a stored meal was made from. */
  function MealDraftOf(m: Meal): MealDraft
  {
    MealDraft(m.name, m.calories, m.carbs, m.protein, m.fat, m.mealType)
  }

  /** `[{ ...meal, id, date: today }, ...prev]`. */
  function AddMeal(prev: seq<Meal>, meal: MealDraft, id: string, today: string): (r: seq<Meal>)
    ensures |r| == |prev| + 1 && r[1..] == prev
    ensures r[0].id == id && r[0].date == today
    ensures MealDraftOf(r[0]) == meal
  {
    [Meal(id, meal.name, meal.calories, meal.carbs, meal.protein, meal.fat, today, meal.mealType)] + prev
  }

  function WorkoutDraftOf(w: Workout): WorkoutDraft
  {
    WorkoutDraft(w.name, w.duration, w.intensity, w.muscleGroups)
  }

  /** `[{ ...workout, id, date: today }, ...prev]`. */
  function AddWorkout(prev: seq<Workout>, workout: WorkoutDraft, id: string, today: string): (r: seq<Workout>)
    ensures |r| == |prev| + 1 && r[1..] == prev
    ensures r[0].id == id && r[0].date == today
    ensures WorkoutDraftOf(r[0]) == workout
  {
    [Workout(id, workout.name, workout.duration, workout.intensity, workout.muscleGroups, today)] + prev
  }

  // ------------------------------------------------------------- seed data

  /** The data a first visit starts from. */
  const DefaultProfile := UserProfile("Alex", "male", "30", "178", "73.2")

  const SeedSleep: seq<SleepEntry> := [
    SleepEntry("2023-05-01", 7.5, "23:00", "06:30"),
    SleepEntry("2023-05-02", 6.8, "23:30", "06:20"),
    SleepEntry("2023-05-03", 8.2, "22:45", "07:00"),
    SleepEntry("2023-05-04", 7.0, "23:15", "06:15"),
    SleepEntry("2023-05-05", 7.8, "22:30", "06:20"),
    SleepEntry("2023-05-06", 8.5, "22:00", "06:30"),
    SleepEntry("2023-05-07", 7.2, "23:45", "07:00")
  ]

  const SeedWater: seq<WaterEntry> := [
    WaterEntry("2023-05-01", 1.8), WaterEntry("2023-05-02", 2.1), WaterEntry("2023-05-03", 1.5),
    WaterEntry("2023-05-04", 2.3), WaterEntry("2023-05-05", 2.0), WaterEntry("2023-05-06", 1.9),
    WaterEntry("2023-05-07", 2.2)
  ]

  const SeedMeals: seq<Meal> := [
    Meal("1", "Oatmeal with Berries", 350.0, 45.0, 12.0, 8.0, "2023-05-07", Breakfast),
    Meal("2", "Chicken Salad", 420.0, 15.0, 35.0, 22.0, "2023-05-07", Lunch),
    Meal("3", "Salmon with Vegetables", 480.0, 20.0, 40.0, 25.0, "2023-05-07", Dinner),
    Meal("4", "Greek Yogurt with Honey", 180.0, 20.0, 15.0, 5.0, "2023-05-07", Snack)
  ]

  const SeedWorkouts: seq<Workout> := [
    Workout("1", "Push-ups", 15.0, Medium, ["chest", "shoulders", "triceps"], "2023-05-07"),
    Workout("2", "Running", 30.0, High, ["legs", "cardiovascular"], "2023-05-07"),
    Workout("3", "Squats", 20.0, Medium, ["legs", "glutes"], "2023-05-06"),
    Workout("4", "Pull-ups", 10.0, High, ["back", "biceps"], "2023-05-05")
  ]

  /** The seed logs already satisfy the invariants the operations keep. */
  lemma SeedDataWellFormed()
    ensures |SeedSleep| <= SleepCap
    ensures DatesUnique(SeedWater)
    ensures forall w :: w in SeedWorkouts ==> |w.muscleGroups| > 0
    ensures forall i, j :: 0 <= i < j < |SeedMeals| ==> SeedMeals[i].id != SeedMeals[j].id
    ensures forall i, j :: 0 <= i < j < |SeedWorkouts| ==> SeedWorkouts[i].id != SeedWorkouts[j].id
  {
  }
}
