/** The workout page: the log form (exercise picker, muscle-group check
    boxes, submit validation) and the analysis drawn from the workout log
    (recent workouts, how often each muscle group was trained, the top
    seven groups, the least trained groups and the suggested exercise). */
module WorkoutsPage {
  import opened Common
  import opened Text
  import opened UserData

  /** The check boxes, in the order the page lists them. */
  const MuscleGroups: seq<string> := [
    "chest", "back", "shoulders", "biceps", "triceps", "forearms",
    "abs", "legs", "glutes", "calves", "cardiovascular"
  ]

  datatype Exercise = Exercise(name: string, muscleGroups: seq<string>)

  /** The exercises the picker offers. */
  const Exercises: seq<Exercise> := [
    Exercise("Push-ups", ["chest", "shoulders", "triceps"]),
    Exercise("Pull-ups", ["back", "biceps"]),
    Exercise("Squats", ["legs", "glutes"]),
    Exercise("Lunges", ["legs", "glutes"]),
    Exercise("Bench Press", ["chest", "shoulders", "triceps"]),
    Exercise("Deadlift", ["back", "legs", "glutes"]),
    Exercise("Shoulder Press", ["shoulders"]),
    Exercise("Bicep Curls", ["biceps"]),
    Exercise("Tricep Dips", ["triceps"]),
    Exercise("Crunches", ["abs"]),
    Exercise("Running", ["cardiovascular", "legs"]),
    Exercise("Cycling", ["cardiovascular", "legs"])
  ]

  // ------------------------------------------------------------------- form

  datatype WorkoutForm = WorkoutForm(name: string, duration: real, intensity: Intensity, muscleGroups: seq<string>)

  /** The page's form state and the picker's current choice. */
  datatype Page = Page(form: WorkoutForm, selectedExercise: string)

  const BlankForm := WorkoutForm("", 30.0, Medium, [])

  const InitialPage := Page(BlankForm, "")

  /** Checking appends the group; unchecking removes every copy of it. */
  function ToggleMuscleGroup(form: WorkoutForm, group: string, checked: bool): (r: WorkoutForm)
    ensures r.name == form.name && r.duration == form.duration && r.intensity == form.intensity
    ensures checked ==> r.muscleGroups == form.muscleGroups + [group]
    ensures !checked ==> group !in r.muscleGroups
    ensures !checked ==> |r.muscleGroups| == |form.muscleGroups| - Count(form.muscleGroups, group)
    ensures !checked ==> forall g :: g != group ==> Count(r.muscleGroups, g) == Count(form.muscleGroups, g)
  {
    if checked then form.(muscleGroups := form.muscleGroups + [group])
    else form.(muscleGroups := RemoveAll(form.muscleGroups, group))
  }

  /** Unchecking keeps the remaining groups in their order. */
  lemma UncheckKeepsOrder(form: WorkoutForm, group: string, before: seq<string>, after: seq<string>)
    requires form.muscleGroups == before + after
    ensures ToggleMuscleGroup(form, group, false).muscleGroups
            == RemoveAll(before, group) + RemoveAll(after, group)
  {
    RemoveAllAppend(before, after, group);
  }

  /** `workoutExercises.find(e => e.name === value)`. */
  function FindExercise(name: string): (r: Option<Exercise>)
    ensures r.Some? ==> r.value in Exercises && r.value.name == name
    ensures r.None? <==> forall e :: e in Exercises ==> e.name != name
  {
    Find(Exercises, (e: Exercise) => e.name == name)
  }

  /** Picking a known exercise fills in its name and muscle groups; an
      unknown name changes nothing. */
  function SelectExercise(page: Page, value: string): (r: Page)
    ensures FindExercise(value).None? ==> r == page
    ensures FindExercise(value).Some? ==>
      && r.selectedExercise == value
      && r.form.name == value
      && r.form.muscleGroups == FindExercise(value).value.muscleGroups
      && r.form.duration == page.form.duration
      && r.form.intensity == page.form.intensity
  {
    match FindExercise(value)
    case None => page
    case Some(e) => Page(page.form.(name := e.name, muscleGroups := e.muscleGroups), value)
  }

  /** The intensity select changes the intensity and nothing else. */
  function SetIntensity(page: Page, intensity: Intensity): (r: Page)
    ensures r.form.intensity == intensity && r.selectedExercise == page.selectedExercise
    ensures r.form.name == page.form.name && r.form.duration == page.form.duration
    ensures r.form.muscleGroups == page.form.muscleGroups
  {
    page.(form := page.form.(intensity := intensity))
  }

  /** An intensity chosen before picking an exercise survives the pick,
      and is the one the logged workout carries. */
  lemma IntensitySurvivesPick(page: Page, intensity: Intensity, value: string, workouts: seq<Workout>, id: string, today: string)
    ensures SelectExercise(SetIntensity(page, intensity), value).form.intensity == intensity
    ensures SubmitWorkout(SelectExercise(SetIntensity(page, intensity), value), workouts, id, today).Accepted? ==>
      SubmitWorkout(SelectExercise(SetIntensity(page, intensity), value), workouts, id, today).log[0].intensity == intensity
  {
  }

  function DraftOf(form: WorkoutForm): WorkoutDraft
  {
    WorkoutDraft(form.name, form.duration, form.intensity, form.muscleGroups)
  }

  /** A workout is logged only when its name is not blank and at least one
      muscle group is checked; then the form is reset. */
  function SubmitWorkout(page: Page, workouts: seq<Workout>, id: string, today: string): (r: Submitted<Page, seq<Workout>>)
    ensures r.Accepted? <==> !IsBlank(page.form.name) && |page.form.muscleGroups| > 0
    ensures IsBlank(page.form.name) ==> r == Rejected("Please enter an exercise name")
    ensures !IsBlank(page.form.name) && |page.form.muscleGroups| == 0 ==>
              r == Rejected("Please select at least one muscle group")
    ensures r.Accepted? ==> r.page == InitialPage
    ensures r.Accepted? ==> |r.log| == |workouts| + 1 && r.log[1..] == workouts
    ensures r.Accepted? ==> r.log[0] == Workout(id, page.form.name, page.form.duration, page.form.intensity,
                                                page.form.muscleGroups, today)
  {
    TrimEmptyIffBlank(page.form.name);
    if Trim(page.form.name) == "" then Rejected("Please enter an exercise name")
    else if |page.form.muscleGroups| == 0 then Rejected("Please select at least one muscle group")
    else Accepted(InitialPage, AddWorkout(workouts, DraftOf(page.form), id, today))
  }

  // --------------------------------------------------------------- analysis

  /** How many workouts the recent list shows. */
  const RecentLimit: nat := 10

  /** `workouts.slice(0, 10)`: the newest ten, newest first. */
  function RecentWorkouts(workouts: seq<Workout>): (r: seq<Workout>)
    ensures |r| == Min(RecentLimit, |workouts|)
    ensures r == workouts[..|r|]
  {
    workouts[..Min(RecentLimit, |workouts|)]
  }

  /** Every muscle group of every workout, in log order. */
  function AllGroups(workouts: seq<Workout>): seq<string>
  {
    if |workouts| == 0 then [] else workouts[0].muscleGroups + AllGroups(workouts[1..])
  }

  /** One key of the frequency record and its count. */
  datatype GroupCount = GroupCount(group: string, count: nat)

  ghost predicate GroupsDistinct(t: seq<GroupCount>)
  {
    forall i, j :: 0 <= i < j < |t| ==> t[i].group != t[j].group
  }

  ghost predicate CountsPositive(t: seq<GroupCount>)
  {
    forall i :: 0 <= i < |t| ==> t[i].count > 0
  }

  /** `frequency[group] || 0`. */
  function Lookup(t: seq<GroupCount>, group: string): nat
  {
    if |t| == 0 then 0 else if t[0].group == group then t[0].count else Lookup(t[1..], group)
  }

  function SumCounts(t: seq<GroupCount>): nat
  {
    if |t| == 0 then 0 else t[0].count + SumCounts(t[1..])
  }

  lemma {:induction false} LookupFindsEntry(t: seq<GroupCount>, i: nat)
    requires GroupsDistinct(t) && i < |t|
    ensures Lookup(t, t[i].group) == t[i].count
  {
    if i > 0 {
      assert t[0].group != t[i].group;
      LookupFindsEntry(t[1..], i - 1);
    }
  }

  lemma {:induction false} LookupPositiveIsListed(t: seq<GroupCount>, group: string) returns (i: nat)
    requires Lookup(t, group) > 0
    ensures i < |t| && t[i].group == group
  {
    if t[0].group == group {
      i := 0;
    } else {
      var j := LookupPositiveIsListed(t[1..], group);
      i := j + 1;
    }
  }

  /** Whether `group` is already a key of the record. */
  predicate Listed(t: seq<GroupCount>, group: string)
  {
    exists i :: 0 <= i < |t| && t[i].group == group
  }

  /** `frequency[group] = (frequency[group] || 0) + 1`: an existing key is
      counted up in place, a new key goes last with count 1. */
  function Bump(t: seq<GroupCount>, group: string): (r: seq<GroupCount>)
    ensures |r| == if Listed(t, group) then |t| else |t| + 1
    ensures forall i :: 0 <= i < |t| ==>
      r[i] == if t[i].group == group then t[i].(count := t[i].count + 1) else t[i]
    ensures !Listed(t, group) ==> r == t + [GroupCount(group, 1)]
  {
    if Listed(t, group) then
      seq(|t|, i requires 0 <= i < |t| =>
        if t[i].group == group then t[i].(count := t[i].count + 1) else t[i])
    else t + [GroupCount(group, 1)]
  }

  lemma BumpKeepsKeysDistinct(t: seq<GroupCount>, group: string)
    requires GroupsDistinct(t)
    ensures GroupsDistinct(Bump(t, group))
    ensures CountsPositive(t) ==> CountsPositive(Bump(t, group))
  {
  }

  lemma {:induction false} LookupMissing(t: seq<GroupCount>, group: string)
    requires !Listed(t, group)
    ensures Lookup(t, group) == 0
  {
    if |t| > 0 {
      assert forall i :: 0 <= i < |t[1..]| ==> t[1..][i] == t[i + 1];
      LookupMissing(t[1..], group);
    }
  }

  /** Counting `group` up raises its lookup by one and leaves every other
      group's lookup alone. */
  lemma BumpLookup(t: seq<GroupCount>, group: string, g: string)
    requires GroupsDistinct(t)
    ensures Lookup(Bump(t, group), g) == Lookup(t, g) + (if g == group then 1 else 0)
  {
    var r := Bump(t, group);
    BumpKeepsKeysDistinct(t, group);
    if i :| 0 <= i < |t| && t[i].group == g {
      LookupFindsEntry(t, i);
      LookupFindsEntry(r, i);
    } else {
      LookupMissing(t, g);
      if g == group {
        LookupFindsEntry(r, |t|);
      } else {
        assert !Listed(r, g);
        LookupMissing(r, g);
      }
    }
  }

  lemma {:induction false} SumCountsAppend(a: seq<GroupCount>, b: seq<GroupCount>)
    ensures SumCounts(a + b) == SumCounts(a) + SumCounts(b)
  {
    if |a| == 0 {
      assert a + b == b;
    } else {
      assert (a + b)[1..] == a[1..] + b;
      SumCountsAppend(a[1..], b);
    }
  }

  lemma {:induction false} SumCountsRaise(t: seq<GroupCount>, i: nat)
    requires i < |t|
    ensures SumCounts(t[i := t[i].(count := t[i].count + 1)]) == SumCounts(t) + 1
  {
    var u := t[i := t[i].(count := t[i].count + 1)];
    if i > 0 {
      assert u[1..] == t[1..][i - 1 := t[i].(count := t[i].count + 1)];
      SumCountsRaise(t[1..], i - 1);
    } else {
      assert u[1..] == t[1..];
    }
  }

  /** Every bump adds exactly one to the total. */
  lemma BumpSum(t: seq<GroupCount>, group: string)
    requires GroupsDistinct(t)
    ensures SumCounts(Bump(t, group)) == SumCounts(t) + 1
  {
    var r := Bump(t, group);
    if i :| 0 <= i < |t| && t[i].group == group {
      assert r == t[i := t[i].(count := t[i].count + 1)];
      SumCountsRaise(t, i);
    } else {
      SumCountsAppend(t, [GroupCount(group, 1)]);
      assert [GroupCount(group, 1)][1..] == [];
    }
  }

  /** The frequency record built by the two nested `forEach` loops over
      `groups`, keys in first-seen order. */
  function Tally(groups: seq<string>): (t: seq<GroupCount>)
    ensures GroupsDistinct(t) && CountsPositive(t)
    ensures forall g :: Lookup(t, g) == Count(groups, g)
    ensures SumCounts(t) == |groups|
    decreases |groups|
  {
    if |groups| == 0 then []
    else
      var init := groups[..|groups| - 1];
      var last := groups[|groups| - 1];
      var prev := Tally(init);
      assert groups == init + [last];
      BumpKeepsKeysDistinct(prev, last);
      BumpSum(prev, last);
      forall g ensures Lookup(Bump(prev, last), g) == Count(groups, g) {
        BumpLookup(prev, last, g);
        CountAppend(init, [last], g);
        assert Count([last], g) == (if g == last then 1 else 0) by {
          assert [last][1..] == [];
        }
      }
      Bump(prev, last)
  }

  /** `muscleGroupFrequency`. */
  function Frequency(workouts: seq<Workout>): seq<GroupCount>
  {
    Tally(AllGroups(workouts))
  }

  /** Each recorded count is the group's number of occurrences across all
      workouts, a group is recorded iff it occurs, and the counts add up to
      the total number of muscle-group tags. */
  lemma FrequencyCounts(workouts: seq<Workout>)
    ensures forall i :: 0 <= i < |Frequency(workouts)| ==>
      Frequency(workouts)[i].count == Count(AllGroups(workouts), Frequency(workouts)[i].group)
    ensures forall g :: g in AllGroups(workouts) <==> Lookup(Frequency(workouts), g) > 0
    ensures SumCounts(Frequency(workouts)) == |AllGroups(workouts)|
  {
    var t := Frequency(workouts);
    var all := AllGroups(workouts);
    forall i | 0 <= i < |t| ensures t[i].count == Count(all, t[i].group) {
      LookupFindsEntry(t, i);
    }
    forall g ensures g in all <==> Lookup(t, g) > 0 {
      CountPositiveIffIn(all, g);
    }
  }

  ghost predicate CountsNonIncreasing(t: seq<GroupCount>)
  {
    forall i :: 0 <= i < |t| - 1 ==> t[i].count >= t[i + 1].count
  }

  lemma {:induction false} NonIncreasingPairwise(t: seq<GroupCount>, i: int, j: int)
    requires CountsNonIncreasing(t) && 0 <= i <= j < |t|
    ensures t[i].count >= t[j].count
    decreases j - i
  {
    if i < j {
      NonIncreasingPairwise(t, i + 1, j);
    }
  }

  /** Inserts `x` before the first entry whose count is not larger, so an
      entry that came first stays first among equal counts. */
  function InsertByCount(x: GroupCount, t: seq<GroupCount>): (r: seq<GroupCount>)
    requires CountsNonIncreasing(t)
    ensures CountsNonIncreasing(r)
    ensures multiset(r) == multiset(t) + multiset{x}
    ensures |r| == |t| + 1 && (r[0] == x || (|t| > 0 && r[0] == t[0]))
  {
    if |t| == 0 then [x]
    else if x.count >= t[0].count then [x] + t
    else
      assert t == [t[0]] + t[1..];
      [t[0]] + InsertByCount(x, t[1..])
  }

  /** `.sort((a, b) => b[1] - a[1])`: a stable sort, largest count first. */
  function SortByCount(t: seq<GroupCount>): (r: seq<GroupCount>)
    ensures CountsNonIncreasing(r)
    ensures multiset(r) == multiset(t)
    ensures |r| == |t|
  {
    if |t| == 0 then []
    else
      assert t == [t[0]] + t[1..];
      InsertByCount(t[0], SortByCount(t[1..]))
  }

  /** How many bars the chart shows. */
  const ChartBars: nat := 7

  predicate Shown(top: seq<GroupCount>, group: string)
  {
    exists i :: 0 <= i < |top| && top[i].group == group
  }

  /** Every entry records its group's true, positive count in `all`. */
  ghost predicate Faithful(t: seq<GroupCount>, all: seq<string>)
  {
    forall i :: 0 <= i < |t| ==> t[i].count == Count(all, t[i].group) && t[i].count > 0
  }

  lemma PermutationFaithful(t: seq<GroupCount>, s: seq<GroupCount>, all: seq<string>)
    requires multiset(s) == multiset(t) && Faithful(t, all)
    ensures Faithful(s, all)
  {
    forall i | 0 <= i < |s| ensures s[i].count == Count(all, s[i].group) && s[i].count > 0 {
      assert s[i] in multiset(t);
    }
  }

  /** In a sorted sequence an entry at or past `k` is no larger than any
      entry before `k`. */
  lemma BeyondPrefixIsSmaller(s: seq<GroupCount>, k: nat, j: nat)
    requires CountsNonIncreasing(s) && k <= j < |s|
    ensures forall i :: 0 <= i < k ==> s[j].count <= s[i].count
  {
    forall i | 0 <= i < k ensures s[j].count <= s[i].count {
      NonIncreasingPairwise(s, i, j);
    }
  }

  /** Cutting a faithful, sorted permutation of the frequency record after
      `k` entries leaves out only groups no more trained than those kept. */
  lemma SortedPrefixIsTop(t: seq<GroupCount>, s: seq<GroupCount>, k: nat, all: seq<string>, g: string)
    requires CountsNonIncreasing(s) && multiset(s) == multiset(t) && k <= |s|
    requires Lookup(t, g) > 0 && Lookup(t, g) == Count(all, g) && GroupsDistinct(t)
    requires !Shown(s[..k], g)
    ensures k < |s| && forall i :: 0 <= i < k ==> Count(all, g) <= s[i].count
  {
    var m := LookupPositiveIsListed(t, g);
    LookupFindsEntry(t, m);
    assert t[m] in multiset(s);
    var j :| 0 <= j < |s| && s[j] == t[m];
    BeyondPrefixIsSmaller(s, k, j);
  }

  /** With distinct keys no entry occurs twice. */
  lemma {:induction false} DistinctKeysOccurOnce(t: seq<GroupCount>, x: GroupCount)
    requires GroupsDistinct(t)
    ensures multiset(t)[x] <= 1
  {
    if |t| > 0 {
      assert t == [t[0]] + t[1..];
      assert GroupsDistinct(t[1..]) by {
        assert forall i :: 0 <= i < |t[1..]| ==> t[1..][i] == t[i + 1];
      }
      DistinctKeysOccurOnce(t[1..], x);
      if x == t[0] {
        assert x !in t[1..];
      }
    }
  }

  lemma RepeatedEntryOccursTwice(s: seq<GroupCount>, i: nat, j: nat)
    requires i < j < |s| && s[i] == s[j]
    ensures multiset(s)[s[i]] >= 2
  {
    assert s == s[..j] + s[j..];
    assert s[i] in s[..j];
    assert s[j..][0] == s[j];
  }

  /** Any part of a record with distinct keys has distinct keys. */
  lemma SubBagKeepsKeysDistinct(t: seq<GroupCount>, s: seq<GroupCount>)
    requires GroupsDistinct(t) && multiset(s) <= multiset(t)
    ensures GroupsDistinct(s)
  {
    forall i, j | 0 <= i < j < |s| ensures s[i].group != s[j].group {
      assert s[i] in multiset(s) && s[j] in multiset(s);
      var a :| 0 <= a < |t| && t[a] == s[i];
      var b :| 0 <= b < |t| && t[b] == s[j];
      if a == b {
        RepeatedEntryOccursTwice(s, i, j);
        DistinctKeysOccurOnce(t, s[i]);
      }
    }
  }

  lemma PrefixOfPermutation(t: seq<GroupCount>, s: seq<GroupCount>, k: nat)
    requires GroupsDistinct(t) && multiset(s) == multiset(t) && k <= |s|
    ensures multiset(s[..k]) <= multiset(t) && GroupsDistinct(s[..k])
  {
    assert s == s[..k] + s[k..];
    SubBagKeepsKeysDistinct(t, s[..k]);
  }

  /** The seven most trained groups, most trained first, each a distinct
      entry of the frequency record. A group left out was trained no more
      often than every group shown. */
  function TopGroups(workouts: seq<Workout>): (r: seq<GroupCount>)
    ensures |r| == Min(ChartBars, |Frequency(workouts)|)
    ensures multiset(r) <= multiset(Frequency(workouts)) && GroupsDistinct(r)
    ensures CountsNonIncreasing(r)
    ensures Faithful(r, AllGroups(workouts))
    ensures forall g :: g in AllGroups(workouts) && !Shown(r, g) ==>
      |r| == ChartBars && forall i :: 0 <= i < |r| ==> Count(AllGroups(workouts), g) <= r[i].count
  {
    var t := Frequency(workouts);
    var s := SortByCount(t);
    var k := Min(ChartBars, |s|);
    var all := AllGroups(workouts);
    FrequencyCounts(workouts);
    PermutationFaithful(t, s, all);
    SortedPrefixFaithful(t, s, k, all);
    PrefixOfPermutation(t, s, k);
    s[..k]
  }

  /** The first `k` entries of a sorted, faithful permutation of the
      record count truly, and every group they leave out was trained no
      more often than each of them. */
  lemma SortedPrefixFaithful(t: seq<GroupCount>, s: seq<GroupCount>, k: nat, all: seq<string>)
    requires GroupsDistinct(t) && forall g :: Lookup(t, g) == Count(all, g)
    requires multiset(s) == multiset(t) && CountsNonIncreasing(s) && Faithful(s, all)
    requires k == Min(ChartBars, |s|)
    ensures Faithful(s[..k], all)
    ensures forall g :: Count(all, g) > 0 && !Shown(s[..k], g) ==>
      k == ChartBars && forall i :: 0 <= i < k ==> Count(all, g) <= s[..k][i].count
  {
    forall g | Count(all, g) > 0 && !Shown(s[..k], g)
      ensures k == ChartBars && forall i :: 0 <= i < k ==> Count(all, g) <= s[..k][i].count
    {
      SortedPrefixIsTop(t, s, k, all, g);
    }
  }

  /** One bar of the chart. */
  datatype Bar = Bar(name: string, count: nat)

  /** `muscleGroupData`: the top groups with capitalised names. */
  function MuscleGroupData(workouts: seq<Workout>): (r: seq<Bar>)
    ensures |r| <= ChartBars && |r| == |TopGroups(workouts)|
    ensures forall i :: 0 <= i < |r| ==>
      r[i] == Bar(Capitalize(TopGroups(workouts)[i].group), TopGroups(workouts)[i].count)
    ensures forall i :: 0 <= i < |r| - 1 ==> r[i].count >= r[i + 1].count
  {
    var top := TopGroups(workouts);
    seq(|top|, i requires 0 <= i < |top| => Bar(Capitalize(top[i].group), top[i].count))
  }

  /** The groups of `groups` trained fewer than two times. */
  function Underworked(groups: seq<string>, freq: seq<GroupCount>): (r: seq<string>)
    ensures IsSubsequence(r, groups)
    ensures forall g :: g in r ==> Lookup(freq, g) < 2
    ensures forall g :: g in groups && Lookup(freq, g) < 2 ==> g in r
  {
    if |groups| == 0 then []
    else if Lookup(freq, groups[0]) < 2 then
      var r := [groups[0]] + Underworked(groups[1..], freq);
      assert r[1..] == Underworked(groups[1..], freq);
      r
    else Underworked(groups[1..], freq)
  }

  /** How many of `groups` were trained fewer than two times in `all`. */
  function NumUndertrained(groups: seq<string>, all: seq<string>): nat
  {
    if |groups| == 0 then 0
    else (if Count(all, groups[0]) < 2 then 1 else 0) + NumUndertrained(groups[1..], all)
  }

  lemma {:induction false} NumUndertrainedAppend(a: seq<string>, b: seq<string>, all: seq<string>)
    ensures NumUndertrained(a + b, all) == NumUndertrained(a, all) + NumUndertrained(b, all)
  {
    if |a| == 0 {
      assert a + b == b;
    } else {
      assert (a + b)[1..] == a[1..] + b;
      NumUndertrainedAppend(a[1..], b, all);
    }
  }

  /** With a record that counts `all`, the filter keeps exactly the
      undertrained groups. */
  lemma {:induction false} UnderworkedLength(groups: seq<string>, freq: seq<GroupCount>, all: seq<string>)
    requires forall g :: Lookup(freq, g) == Count(all, g)
    ensures |Underworked(groups, freq)| == NumUndertrained(groups, all)
  {
    if |groups| > 0 {
      UnderworkedLength(groups[1..], freq, all);
    }
  }

  /** In a list without repeats, the `j`th group is among the first `k`
      filtered ones exactly when it passes the filter and fewer than `k`
      groups before it do. */
  lemma {:induction false} UnderworkedPrefix(groups: seq<string>, freq: seq<GroupCount>, k: nat, j: nat)
    requires Distinct(groups) && j < |groups|
    ensures groups[j] in Underworked(groups, freq)[..Min(k, |Underworked(groups, freq)|)]
            <==> Lookup(freq, groups[j]) < 2 && |Underworked(groups[..j], freq)| < k
  {
    var u := Underworked(groups, freq);
    var rest := groups[1..];
    var v := Underworked(rest, freq);
    assert Distinct(rest) by {
      assert forall i :: 0 <= i < |rest| ==> rest[i] == groups[i + 1];
    }
    if j == 0 {
      assert groups[..0] == [];
    } else {
      assert groups[..j][0] == groups[0] && groups[..j][1..] == rest[..j - 1];
      assert rest[j - 1] == groups[j] && groups[j] != groups[0];
      if Lookup(freq, groups[0]) < 2 {
        if k > 0 {
          UnderworkedPrefix(rest, freq, k - 1, j - 1);
          assert u[..Min(k, |u|)] == [groups[0]] + v[..Min(k - 1, |v|)];
        }
      } else {
        UnderworkedPrefix(rest, freq, k, j - 1);
      }
    }
  }

  /** How many groups the insight names. */
  const InsightLimit: nat := 3

  /** `lessWorkedGroups`: the first three check-box groups trained fewer
      than two times, in check-box order. A check-box group is named exactly
      when it was trained fewer than two times and fewer than three groups
      before it in the list were. */
  function LessWorkedGroups(workouts: seq<Workout>): (r: seq<string>)
    ensures |r| <= InsightLimit
    ensures IsSubsequence(r, MuscleGroups) && forall g :: g in r ==> g in MuscleGroups
    ensures forall g :: g in r ==> Count(AllGroups(workouts), g) < 2
    ensures |r| < InsightLimit ==>
      forall g :: g in MuscleGroups && Count(AllGroups(workouts), g) < 2 ==> g in r
    ensures forall j :: 0 <= j < |MuscleGroups| ==>
      (MuscleGroups[j] in r <==> Count(AllGroups(workouts), MuscleGroups[j]) < 2
                                 && NumUndertrained(MuscleGroups[..j], AllGroups(workouts)) < InsightLimit)
  {
    var f := Frequency(workouts);
    var all := AllGroups(workouts);
    var u := Underworked(MuscleGroups, f);
    var k := Min(InsightLimit, |u|);
    PrefixOfSubsequence(u, MuscleGroups, k);
    forall g | g in u[..k] ensures g in MuscleGroups {
      SubsequenceMembers(u[..k], MuscleGroups, g);
    }
    assert forall g :: g in u[..k] ==> g in u;
    assert k < InsightLimit ==> u[..k] == u;
    assert Distinct(MuscleGroups);
    forall j | 0 <= j < |MuscleGroups|
      ensures MuscleGroups[j] in u[..k] <==> Count(all, MuscleGroups[j]) < 2
                                             && NumUndertrained(MuscleGroups[..j], all) < InsightLimit
    {
      UnderworkedPrefix(MuscleGroups, f, InsightLimit, j);
      UnderworkedLength(MuscleGroups[..j], f, all);
    }
    u[..k]
  }

  /** The suggestion card: the first of chest, back, legs and abs that is
      among the less worked groups picks the exercise. */
  function RecommendedExercise(lessWorked: seq<string>): (r: string)
    ensures r == "Push-ups or Bench Press" <==> "chest" in lessWorked
    ensures r == "Pull-ups or Rows" <==> "chest" !in lessWorked && "back" in lessWorked
    ensures r == "Squats or Lunges" <==> "chest" !in lessWorked && "back" !in lessWorked && "legs" in lessWorked
    ensures r == "Planks or Crunches" <==>
      "chest" !in lessWorked && "back" !in lessWorked && "legs" !in lessWorked && "abs" in lessWorked
    ensures r == "HIIT or Circuit Training" <==>
      forall g :: g in ["chest", "back", "legs", "abs"] ==> g !in lessWorked
  {
    if "chest" in lessWorked then "Push-ups or Bench Press"
    else if "back" in lessWorked then "Pull-ups or Rows"
    else if "legs" in lessWorked then "Squats or Lunges"
    else if "abs" in lessWorked then "Planks or Crunches"
    else "HIIT or Circuit Training"
  }

  /** The check-box groups between back and legs. */
  const Middle: seq<string> := ["shoulders", "biceps", "triceps", "forearms"]

  /** The suggestion in terms of how often each group was trained. Chest
      heads the check-box list, so an undertrained chest always wins; back
      comes second. Legs (eighth) and abs (seventh) are named only when
      fewer than three groups before them are undertrained, and legs wins
      over abs. */
  lemma RecommendationPriority(workouts: seq<Workout>)
    ensures var all := AllGroups(workouts);
      Count(all, "chest") < 2 ==>
        RecommendedExercise(LessWorkedGroups(workouts)) == "Push-ups or Bench Press"
    ensures var all := AllGroups(workouts);
      Count(all, "chest") >= 2 && Count(all, "back") < 2 ==>
        RecommendedExercise(LessWorkedGroups(workouts)) == "Pull-ups or Rows"
    ensures var all := AllGroups(workouts);
      Count(all, "chest") >= 2 && Count(all, "back") >= 2
      && Count(all, "legs") < 2 && NumUndertrained(Middle + ["abs"], all) < 3 ==>
        RecommendedExercise(LessWorkedGroups(workouts)) == "Squats or Lunges"
    ensures var all := AllGroups(workouts);
      Count(all, "chest") >= 2 && Count(all, "back") >= 2
      && !(Count(all, "legs") < 2 && NumUndertrained(Middle + ["abs"], all) < 3)
      && Count(all, "abs") < 2 && NumUndertrained(Middle, all) < 3 ==>
        RecommendedExercise(LessWorkedGroups(workouts)) == "Planks or Crunches"
    ensures var all := AllGroups(workouts);
      RecommendedExercise(LessWorkedGroups(workouts)) == "HIIT or Circuit Training" <==>
        Count(all, "chest") >= 2 && Count(all, "back") >= 2
        && !(Count(all, "legs") < 2 && NumUndertrained(Middle + ["abs"], all) < 3)
        && !(Count(all, "abs") < 2 && NumUndertrained(Middle, all) < 3)
  {
    NamedChestAndBack(workouts);
    NamedAbsAndLegs(workouts);
  }

  lemma NamedChestAndBack(workouts: seq<Workout>)
    ensures "chest" in LessWorkedGroups(workouts) <==> Count(AllGroups(workouts), "chest") < 2
    ensures "back" in LessWorkedGroups(workouts) <==> Count(AllGroups(workouts), "back") < 2
  {
    var all := AllGroups(workouts);
    assert MuscleGroups[0] == "chest" && MuscleGroups[1] == "back";
    assert MuscleGroups[..0] == [] && MuscleGroups[..1] == ["chest"];
    assert NumUndertrained(["chest"], all) <= 1 by {
      assert ["chest"][1..] == [];
    }
  }

  /** How many of chest and back are undertrained, then the groups up to
      abs and legs. */
  lemma CountBeforeAbsAndLegs(all: seq<string>)
    requires Count(all, "chest") >= 2 && Count(all, "back") >= 2
    ensures NumUndertrained(MuscleGroups[..6], all) == NumUndertrained(Middle, all)
    ensures NumUndertrained(MuscleGroups[..7], all) == NumUndertrained(Middle + ["abs"], all)
  {
    var head: seq<string> := ["chest", "back"];
    assert MuscleGroups[..6] == head + Middle;
    assert MuscleGroups[..7] == head + (Middle + ["abs"]);
    NumUndertrainedAppend(head, Middle, all);
    NumUndertrainedAppend(head, Middle + ["abs"], all);
    assert head[1..] == ["back"] && head[1..][1..] == [];
  }

  lemma NamedAbsAndLegs(workouts: seq<Workout>)
    ensures var all := AllGroups(workouts);
      Count(all, "chest") >= 2 && Count(all, "back") >= 2 ==>
        && ("abs" in LessWorkedGroups(workouts) <==> Count(all, "abs") < 2 && NumUndertrained(Middle, all) < 3)
        && ("legs" in LessWorkedGroups(workouts) <==>
              Count(all, "legs") < 2 && NumUndertrained(Middle + ["abs"], all) < 3)
  {
    var all := AllGroups(workouts);
    if Count(all, "chest") >= 2 && Count(all, "back") >= 2 {
      assert MuscleGroups[6] == "abs" && MuscleGroups[7] == "legs";
      CountBeforeAbsAndLegs(all);
    }
  }

  /** When every listed group was trained at least twice the insight names
      none and the generic suggestion is shown. */
  lemma BalancedTraining(workouts: seq<Workout>)
    requires forall g :: g in MuscleGroups ==> Count(AllGroups(workouts), g) >= 2
    ensures LessWorkedGroups(workouts) == []
    ensures RecommendedExercise(LessWorkedGroups(workouts)) == "HIIT or Circuit Training"
  {
    var r := LessWorkedGroups(workouts);
    if |r| > 0 {
      HeadIsMember(r);
      assert false;
    }
  }
}
