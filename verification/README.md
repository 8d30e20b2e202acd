# FitViz Analytics — a Dafny model of the data core

FitViz Analytics is a single-page fitness dashboard. Everything it knows sits
in two stores. The user store holds the profile and the sleep, water, meal and
workout logs. The notification store holds an ordered list of notifications
and an unread count. Five pages read those stores, derive figures from them
(totals, averages, targets, rankings, categories, chart series) and write
back through the stores' update functions.

This project models that core as pure Dafny functions over immutable
datatypes and proves what the code promises:

- `UserData` — the user store: the partial profile update, the sleep log
  capped at 30 entries (newest first), the per-day water merge, and the
  prepend of meals and workouts with a generated id and today's date.
- `NotificationStore` — the notification list and the unread count that is
  re-derived from the list after every change.
- `WorkoutsPage`, `NutritionPage`, `WaterPage`, `SleepPage`, `ProfilePage` —
  each page's form handlers, submit validation and derived figures.
- `Text` — `trim()` with ECMAScript's whitespace set, first-letter
  capitalisation, and the code-unit order `localeCompare` gives on ISO dates.
- `Charts` — the shared "sort by date, keep the last seven, label as
  month/day" chart pipeline of the water and sleep pages.
- `Common` — `Option`, a submission result (`Rejected` with the error
  message or `Accepted` with the new page state and log), counting,
  subsequences and reversal.

JavaScript numbers are modelled as exact reals. The current date, the
generated ids and `Date.now()` timestamps are parameters. Two facts about
the code shape the model:

- The recommended water intake is 33 ml per kg, formatted with
  `toFixed(1)` and read back with `Number`. Every later use sees the
  rounded value, so 70 kg gives 2.3 L rather than 2.31 L
  (`WaterPage.SeventyKilograms`).
- "Today" is the UTC calendar day (`toISOString().split('T')[0]`), not the
  local one. The model takes it as a given string.

## Model

| member | source | states |
|---|---|---|
| `UserData.UpdateProfile` | src/context/UserContext.tsx:148-150 | each field the patch supplies replaces the profile's, each field it leaves out is kept |
| `UserData.EmptyPatchIsIdentity` | src/context/UserContext.tsx:148-150 | an empty patch leaves the profile unchanged |
| `UserData.UpdateProfileIdempotent` | src/context/UserContext.tsx:148-150 | applying the same patch twice equals applying it once |
| `UserData.UpdateProfileComposes` | src/context/UserContext.tsx:148-150 | two successive updates equal one update with the merged patch, later fields winning |
| `UserData.Cap` | src/context/UserContext.tsx:153 | the capped log is the first min(30, n) entries of the list |
| `UserData.AddSleepEntry` | src/context/UserContext.tsx:152-154 | the new entry comes first, followed by the previous entries in order, and the log never exceeds 30 entries |
| `UserData.AddSleepEntryIsCap` | src/context/UserContext.tsx:152-154 | adding an entry equals prepending it and keeping the first 30 |
| `UserData.CapAbsorbs` | src/context/UserContext.tsx:153 | capping before or after a further prepend-and-cap gives the same log |
| `UserData.AddSleepEntriesKeepsNewest` | src/context/UserContext.tsx:152-154 | after any sequence of additions the log is the 30 newest entries, newest first |
| `UserData.AddOnDay` | src/context/UserContext.tsx:161-165 | entries dated today gain the amount; every other entry and the order are unchanged |
| `UserData.AddWaterIntake` | src/context/UserContext.tsx:156-169 | with an entry for today the log keeps its length and today's amount grows; without one a new entry for today is prepended |
| `UserData.AddWaterIntakeKeepsDatesUnique` | src/context/UserContext.tsx:156-169 | a log with at most one entry per date keeps that property, and afterwards has an entry for today |
| `UserData.AddMeal` | src/context/UserContext.tsx:171-178 | the meal is prepended with the given id and today's date, its other fields come from the draft, and the old log follows unchanged |
| `UserData.AddWorkout` | src/context/UserContext.tsx:180-187 | the workout is prepended with the given id and today's date, its other fields come from the draft, and the old log follows unchanged |
| `UserData.SeedDataWellFormed` | src/context/UserContext.tsx:57-98 | the seed logs have one water entry per date, at most 30 sleep entries, a muscle group on every workout and distinct meal and workout ids |
| `NotificationStore.UnreadCount` | src/context/NotificationContext.tsx:52 | the count never exceeds the list length and is zero exactly when every entry is read |
| `NotificationStore.UnreadCountAppend` | src/context/NotificationContext.tsx:52 | the count of two lists put together is the sum of their counts |
| `NotificationStore.Load` | src/context/NotificationContext.tsx:39-46 | a loaded list is kept as is, with the count of its unread entries |
| `NotificationStore.AddNotification` | src/context/NotificationContext.tsx:55-73 | a fresh unread entry with the given id, time, title, message and kind goes first, the rest is unchanged, and the count rises by one |
| `NotificationStore.MarkAllAsRead` | src/context/NotificationContext.tsx:75-79 | every entry becomes read with all other fields kept, and the count becomes zero |
| `NotificationStore.MarkAllAsReadIdempotent` | src/context/NotificationContext.tsx:75-79 | marking all as read twice equals doing it once |
| `NotificationStore.MarkAsRead` | src/context/NotificationContext.tsx:81-89 | only entries with the id become read, the others are untouched, and the count drops by the number of unread entries with that id |
| `NotificationStore.MarkAsReadAbsentIsIdentity` | src/context/NotificationContext.tsx:81-89 | marking an id that is not in the list leaves the list unchanged |
| `NotificationStore.DropIdAppend` | src/context/NotificationContext.tsx:92-94 | removal distributes over concatenation, so survivors keep their relative order |
| `NotificationStore.DropIdKeepsOthers` | src/context/NotificationContext.tsx:92-94 | every entry with a different id survives the removal |
| `NotificationStore.ClearNotification` | src/context/NotificationContext.tsx:91-95 | exactly the entries with the id disappear, and the count drops by the unread ones among them |
| `NotificationStore.ClearOneOfUniqueIds` | src/context/NotificationContext.tsx:91-95 | with distinct ids, clearing one entry shortens the list by one and lowers the count by one exactly when that entry was unread |
| `NotificationStore.ClearAllNotifications` | src/context/NotificationContext.tsx:97-99 | the list becomes empty and the count zero |
| `Text.TrimStart` | src/pages/Workouts.tsx:90 | the result is a suffix of the input; the dropped part is all whitespace, and the result does not start with whitespace |
| `Text.TrimEnd` | src/pages/Workouts.tsx:90 | the result is a prefix of the input; the dropped part is all whitespace, and the result does not end with whitespace |
| `Text.TrimEmptyIffBlank` | src/pages/Workouts.tsx:90 | a string trims to empty exactly when every character is ECMAScript whitespace |
| `Text.Capitalize` | src/pages/Workouts.tsx:142 | same length, the tail unchanged; a lower-case ASCII first letter becomes its upper-case letter, and any other first character is kept |
| `Text.CapitalizeIdempotent` | src/pages/Workouts.tsx:142 | capitalising twice equals capitalising once |
| `Text.LexLeTotal` | src/pages/Water.tsx:33 | any two dates are ordered one way or the other |
| `Text.LexLeTransitive` | src/pages/Water.tsx:33 | the date order is transitive |
| `Text.LexLeAntisymmetric` | src/pages/Water.tsx:33 | two dates ordered both ways are equal |
| `Charts.SortByDate` | src/pages/Water.tsx:32-33 | the result is a permutation of the readings in ascending date order |
| `Charts.Window` | src/pages/Water.tsx:32-34 | min(7, n) readings drawn from the input, in date order, and no reading left out has a later date than any kept one |
| `Charts.IsoDateLabel` | src/pages/Water.tsx:36 | a `YYYY-MM-DD` date is labelled `MM/DD` |
| `WaterPage.ToTenths` | src/pages/Water.tsx:22 | the result is a whole number of tenths within half a tenth of the input, ties rounded away from zero |
| `WaterPage.RecommendedWater` | src/pages/Water.tsx:21-22 | the target is 33 ml per kg, in litres, within 0.05 L and never negative for a non-negative weight |
| `WaterPage.SeventyKilograms` | src/pages/Water.tsx:21-22 | 70 kg gives a target of 2.3 L |
| `WaterPage.TodayIntake` | src/pages/Water.tsx:25-26 | the amount of the first entry dated today, or 0 when there is none |
| `WaterPage.TodayIntakeAfterAdd` | src/context/UserContext.tsx:156-169 | adding water raises today's intake by exactly the amount added |
| `WaterPage.TwoAdditionsSameDay` | src/context/UserContext.tsx:156-169 | two additions on a fresh day leave one entry for the day holding their sum |
| `WaterPage.HandleAddWater` | src/pages/Water.tsx:41-47 | today's intake grows by the selected amount; the log grows only when today had no entry |
| `WaterPage.Progress` | src/pages/Water.tsx:29 | the intake as a percentage of the target, at most 100, and exactly 100 when the target is reached |
| `WaterPage.BaseHydration` | src/pages/Water.tsx:53-55 | 60 for men up to 50, 55 for men over 50 and for others up to 50, 50 for others over 50 |
| `WaterPage.BodyWaterIndex` | src/pages/Water.tsx:58-59 | the base plus ten points per target drunk when that lies within 0 to 100, exactly 100 above and 0 below; never below the base |
| `WaterPage.BodyWaterIndexMonotone` | src/pages/Water.tsx:58-59 | drinking more never lowers the index |
| `WaterPage.ChartData` | src/pages/Water.tsx:32-39 | min(7, n) points, each an actual log entry's amount under its month/day label, all against the same target |
| `WaterPage.WindowedIsLogged` | src/pages/Water.tsx:32-34 | every reading the window keeps belongs to some entry of the water log |
| `SleepPage.SubmitSleep` | src/pages/Sleep.tsx:28-43 | the form's values, dated today, head the log and earlier entries follow, capped at 30 |
| `SleepPage.AverageSleep` | src/pages/Sleep.tsx:55-57 | zero for an empty log, otherwise the value that times the number of entries gives the total hours |
| `SleepPage.TotalWithinBounds` | src/pages/Sleep.tsx:56 | entries within a range sum to within that range times their number |
| `SleepPage.AverageWithinBounds` | src/pages/Sleep.tsx:55-57 | the average of a non-empty log lies within any range that contains every entry |
| `SleepPage.SleepInsight` | src/pages/Sleep.tsx:60-70 | the four messages are chosen by the bands below 6, 6 up to 7, 7 to 9 inclusive, and above 9 |
| `SleepPage.SleepInsightMonotone` | src/pages/Sleep.tsx:60-70 | a longer average never falls into an earlier band |
| `SleepPage.SteadyNightsAreRecommended` | src/pages/Sleep.tsx:55-70 | a non-empty log of 7-to-9-hour nights gets the recommended message; an empty log reads as below recommended |
| `SleepPage.ChartData` | src/pages/Sleep.tsx:46-52 | min(7, n) points, each an actual logged night's hours under its month/day label |
| `SleepPage.WindowedIsLogged` | src/pages/Sleep.tsx:46-48 | every reading the window keeps belongs to some night of the sleep log |
| `NutritionPage.TodayMeals` | src/pages/Nutrition.tsx:40-41 | a subsequence of the log holding every meal dated today as often as the log does, and no other meal |
| `NutritionPage.SumAppend` | src/pages/Nutrition.tsx:43-46 | the four `reduce` totals of two lists put together are the sums of their totals |
| `NutritionPage.DailyTotals` | src/pages/Nutrition.tsx:40-46 | a log without a meal dated today gives zero totals |
| `NutritionPage.DailyTotalsAppend` | src/pages/Nutrition.tsx:40-46 | today's totals over two lists put together are the sums of the two lists' totals |
| `NutritionPage.OtherDaysDoNotCount` | src/pages/Nutrition.tsx:40-46 | meals of other days added to the log leave today's totals unchanged |
| `NutritionPage.NoMealsTodayMeansZero` | src/pages/Nutrition.tsx:41-46 | a day without meals has no meals listed and zero totals |
| `NutritionPage.AddMealRaisesTotals` | src/pages/Nutrition.tsx:43-46 | logging a meal raises each of today's totals by that meal's value |
| `NutritionPage.Targets` | src/pages/Nutrition.tsx:48-52 | 2500 kcal for "male" and 2000 otherwise; a quarter of the calories from fat and half from carbohydrate; 1.6 g protein per kg |
| `Common.Find` | src/pages/Nutrition.tsx:66 | the element found is the first one that satisfies the test, and nothing is found exactly when none does |
| `NutritionPage.FindFood` | src/pages/Nutrition.tsx:66 | a found food is in the database under that name, and nothing is found exactly when no food has the name |
| `NutritionPage.SetMealType` | src/pages/Nutrition.tsx:63-64 | the meal type changes and every other field of the form and the picker stays |
| `NutritionPage.MealTypeSurvivesPick` | src/pages/Nutrition.tsx:62-79 | a meal type chosen before picking a food survives the pick and is the type of the logged meal |
| `NutritionPage.SelectFood` | src/pages/Nutrition.tsx:62-79 | a known food fills the name and nutrition fields and keeps the meal type; an unknown name changes nothing |
| `NutritionPage.SubmitMeal` | src/pages/Nutrition.tsx:81-109 | accepted exactly when the name is not blank, with the form reset and the meal prepended; otherwise rejected with the name message |
| `NutritionPage.Recommendation` | src/pages/Nutrition.tsx:315-318 | protein when below 80% of its target, else carbohydrate when below 80%, else fats |
| `NutritionPage.EmptyDaySuggestsProtein` | src/pages/Nutrition.tsx:307-318 | with nothing eaten today and a positive weight, protein is suggested |
| `WorkoutsPage.ToggleMuscleGroup` | src/pages/Workouts.tsx:73-85 | checking appends the group; unchecking removes every copy of it and keeps the counts of the others |
| `WorkoutsPage.UncheckKeepsOrder` | src/pages/Workouts.tsx:80-83 | unchecking keeps the remaining groups in their order |
| `WorkoutsPage.FindExercise` | src/pages/Workouts.tsx:61 | a found exercise is in the list under that name, and nothing is found exactly when no exercise has the name |
| `WorkoutsPage.SetIntensity` | src/pages/Workouts.tsx:58-59 | the intensity changes and every other field of the form and the picker stays |
| `WorkoutsPage.IntensitySurvivesPick` | src/pages/Workouts.tsx:57-71 | an intensity chosen before picking an exercise survives the pick and is the intensity of the logged workout |
| `WorkoutsPage.SelectExercise` | src/pages/Workouts.tsx:57-71 | a known exercise fills the name and muscle groups and keeps duration and intensity; an unknown name changes nothing |
| `WorkoutsPage.SubmitWorkout` | src/pages/Workouts.tsx:87-123 | accepted exactly when the name is not blank and a group is checked, with the form reset and the workout prepended; otherwise rejected with the first failing message |
| `WorkoutsPage.RecentWorkouts` | src/pages/Workouts.tsx:127 | the newest ten workouts, newest first |
| `WorkoutsPage.BumpLookup` | src/pages/Workouts.tsx:133 | counting a group up raises its lookup by one and leaves every other group's lookup unchanged |
| `WorkoutsPage.BumpKeepsKeysDistinct` | src/pages/Workouts.tsx:133 | the record keeps one entry per group and all counts positive |
| `WorkoutsPage.BumpSum` | src/pages/Workouts.tsx:133 | every count-up adds exactly one to the total of the counts |
| `WorkoutsPage.Tally` | src/pages/Workouts.tsx:130-135 | distinct keys with positive counts, each equal to the group's number of occurrences, summing to the number of tags |
| `WorkoutsPage.FrequencyCounts` | src/pages/Workouts.tsx:130-135 | each recorded count is the group's occurrences across all workouts, and a group is recorded exactly when it occurs |
| `WorkoutsPage.SortByCount` | src/pages/Workouts.tsx:139 | a permutation of the record, ordered by non-increasing count |
| `WorkoutsPage.TopGroups` | src/pages/Workouts.tsx:138-140 | at most seven distinct entries of the frequency record, largest count first; a trained group left out was trained no more than every group shown |
| `WorkoutsPage.MuscleGroupData` | src/pages/Workouts.tsx:138-144 | one capitalised bar per top group, counts non-increasing |
| `WorkoutsPage.Underworked` | src/pages/Workouts.tsx:147-148 | exactly the groups trained fewer than twice, in list order |
| `WorkoutsPage.UnderworkedPrefix` | src/pages/Workouts.tsx:147-149 | in a list without repeats, a group is among the first k filtered ones exactly when it passes the filter and fewer than k groups before it do |
| `WorkoutsPage.LessWorkedGroups` | src/pages/Workouts.tsx:147-149 | at most three check-box groups, in check-box order, each trained fewer than twice; a check-box group is listed exactly when it was trained fewer than twice and fewer than three groups before it were |
| `WorkoutsPage.RecommendedExercise` | src/pages/Workouts.tsx:325-331 | the exercise of the first of chest, back, legs and abs that is listed, or the generic circuit when none is |
| `WorkoutsPage.RecommendationPriority` | src/pages/Workouts.tsx:325-331 | in terms of training counts: an undertrained chest picks the exercise, else an undertrained back, else undertrained legs when fewer than three of shoulders to abs are undertrained, else undertrained abs when fewer than three of shoulders to forearms are; the generic circuit exactly when none of these applies |
| `WorkoutsPage.BalancedTraining` | src/pages/Workouts.tsx:147-149 | when every group was trained at least twice nothing is listed and the generic circuit is suggested |
| `ProfilePage.FormOf` | src/pages/Profile.tsx:35-50 | the form shows the profile's gender, age, height and weight |
| `ProfilePage.EditField` | src/pages/Profile.tsx:52-59 | an edit replaces the named field and keeps the other three |
| `ProfilePage.EditFieldSetsOnlyThatField` | src/pages/Profile.tsx:52-59 | after an edit the field reads the new value and every other field reads as before |
| `ProfilePage.SubmitProfile` | src/pages/Profile.tsx:61-68 | the name is kept and the re-synchronised form equals the submitted one |
| `ProfilePage.SubmitUnchangedForm` | src/pages/Profile.tsx:61-68 | submitting the form as loaded leaves the profile unchanged |
| `ProfilePage.SubmitLastWins` | src/pages/Profile.tsx:61-68 | of two submissions only the second matters |
| `ProfilePage.Bmi` | src/pages/Profile.tsx:71-73 | a non-zero height gives the finite value that times the squared height in metres gives the weight; a zero height gives an infinity of the weight's sign, or NaN |
| `ProfilePage.Category` | src/pages/Profile.tsx:76-88 | below 18.5 underweight, 25 up to 30 overweight, 30 or more obese, otherwise normal; NaN reads as normal |
| `ProfilePage.CategoryMonotone` | src/pages/Profile.tsx:76-88 | a higher BMI never gives a lower category |
| `ProfilePage.HeavierNeverLowersCategory` | src/pages/Profile.tsx:71-88 | at a fixed non-zero height a heavier weight never gives a lower category |
| `ProfilePage.DefaultProfileIsNormalWeight` | src/pages/Profile.tsx:71-88 | the seeded profile, 73.2 kg at 178 cm, has a normal weight |

## Left out

- Persistence: reading and writing `localStorage` and the JSON round trip are not modelled. `NotificationStore.Load` takes the parsed list.
- Clocks and ids: `new Date()`, `Date.now()` and the ids built from them are parameters. Two notifications added in the same millisecond share an id; the model simply takes the given id.
- React state: the render cycle and the stale snapshot `addWaterIntake` reads (`waterIntake.find` before the functional update) are not modelled. Each operation acts on the current state.
- Toasts, icons, layout, the chart components, the mock weight history on the profile page, the sidebar and top bar, the notification panel, the index and not-found pages, and reminder scheduling are presentation only.
- Number parsing: `Number(...)` of the profile's text fields and of the numeric form inputs is not modelled, and neither are the `handleChange` handlers of the sleep, nutrition and workout forms that feed it. The page functions take the number already converted, so NaN from unparsable text is not represented. `ProfilePage.Bmi` produces NaN only for a zero weight over a zero height.
- Floating point: all arithmetic is exact real arithmetic. Binary rounding errors (for example in `70 * 0.033`) are not modelled.
- WaterPage.Progress: requires a positive target. A recommended intake of 0, from a weight below about 1.5 kg, divides by zero in the code.
- WaterPage.BodyWaterIndex: requires a positive target, for the same reason.
- Charts.SortByDate: proves that the result is sorted and is a permutation, but not that the sort is stable. Equal dates are left in an order the model does not pin down.
- WorkoutsPage.SortByCount: proves that the result is sorted and is a permutation, but not that it is stable.
- Text.Capitalize: only ASCII letters are upper-cased. `toUpperCase` on other scripts is not modelled.
- Text.LexLeTotal: `localeCompare` is modelled as code-unit order, which agrees with it on ISO `YYYY-MM-DD` dates but not on arbitrary text.
- Profile patches with keys explicitly set to `undefined` are not modelled. A patch either supplies a field or leaves it out.
- Form fields named outside the four known ones are not modelled. `handleChange` could add an extra key through `[name]: value`, but the page's inputs carry only the known names.
