/** The nutrition page: today's meals and their macro totals, the targets
    derived from the profile, the food picker, submit validation and the
    food recommendation. */
module NutritionPage {
  import opened Common
  import opened Text
  import opened UserData

  datatype Food = Food(name: string, calories: real, carbs: real, protein: real, fat: real)

  /** The foods the picker offers. */
  const FoodDatabase: seq<Food> := [
    Food("Chicken Breast", 165.0, 0.0, 31.0, 3.6),
    Food("Brown Rice", 216.0, 45.0, 5.0, 1.8),
    Food("Salmon", 206.0, 0.0, 22.0, 13.0),
    Food("Broccoli", 55.0, 11.0, 3.7, 0.6),
    Food("Sweet Potato", 86.0, 20.0, 1.6, 0.1),
    Food("Avocado", 160.0, 8.5, 2.0, 14.7),
    Food("Greek Yogurt", 100.0, 3.6, 17.0, 0.4),
    Food("Banana", 105.0, 27.0, 1.3, 0.4),
    Food("Eggs", 78.0, 0.6, 6.3, 5.3),
    Food("Quinoa", 120.0, 21.0, 4.4, 1.9)
  ]

  /** Calories and grams of each macronutrient. */
  datatype Macros = Macros(calories: real, carbs: real, protein: real, fat: real)

  const NoMacros := Macros(0.0, 0.0, 0.0, 0.0)

  function Plus(a: Macros, b: Macros): Macros
  {
    Macros(a.calories + b.calories, a.carbs + b.carbs, a.protein + b.protein, a.fat + b.fat)
  }

  function MacrosOf(m: Meal): Macros
  {
    Macros(m.calories, m.carbs, m.protein, m.fat)
  }

  // ------------------------------------------------------------ daily view

  /** `meals.filter(meal => meal.date === today)`. */
  function TodayMeals(meals: seq<Meal>, today: string): (r: seq<Meal>)
    ensures forall i :: 0 <= i < |r| ==> r[i].date == today
    ensures forall m :: m in meals && m.date == today ==> m in r
    ensures IsSubsequence(r, meals)
    ensures forall m :: Count(r, m) == if m.date == today then Count(meals, m) else 0
  {
    if |meals| == 0 then []
    else if meals[0].date == today then
      var r := [meals[0]] + TodayMeals(meals[1..], today);
      assert r[1..] == TodayMeals(meals[1..], today);
      r
    else TodayMeals(meals[1..], today)
  }

  /** The four `reduce` sums, all starting from zero. */
  function Sum(meals: seq<Meal>): Macros
  {
    if |meals| == 0 then NoMacros else Plus(MacrosOf(meals[0]), Sum(meals[1..]))
  }

  /** Summing two lists put together gives the sum of their sums. */
  lemma {:induction false} SumAppend(a: seq<Meal>, b: seq<Meal>)
    ensures Sum(a + b) == Plus(Sum(a), Sum(b))
  {
    if |a| == 0 {
      assert a + b == b;
    } else {
      assert (a + b)[1..] == a[1..] + b;
      SumAppend(a[1..], b);
    }
  }

  /** Today's calorie, carb, protein and fat totals; zero on a day without
      meals. */
  function DailyTotals(meals: seq<Meal>, today: string): (r: Macros)
    ensures (forall i :: 0 <= i < |meals| ==> meals[i].date != today) ==> r == NoMacros
  {
    var day := TodayMeals(meals, today);
    if |day| > 0 then
      SubsequenceMembers(day, meals, day[0]);
      Sum(day)
    else Sum(day)
  }

  /** Meals of other days never move today's totals. */
  lemma OtherDaysDoNotCount(a: seq<Meal>, b: seq<Meal>, today: string)
    requires forall i :: 0 <= i < |a| ==> a[i].date != today
    ensures DailyTotals(a + b, today) == DailyTotals(b, today)
  {
    TodayMealsAppend(a, b, today);
    NoMealsTodayMeansZero(a, today);
    assert [] + TodayMeals(b, today) == TodayMeals(b, today);
  }

  lemma {:induction false} TodayMealsAppend(a: seq<Meal>, b: seq<Meal>, today: string)
    ensures TodayMeals(a + b, today) == TodayMeals(a, today) + TodayMeals(b, today)
  {
    if |a| == 0 {
      assert a + b == b;
    } else {
      assert (a + b)[1..] == a[1..] + b;
      TodayMealsAppend(a[1..], b, today);
    }
  }

  /** Today's totals over two lists put together are the sum of the two. */
  lemma DailyTotalsAppend(a: seq<Meal>, b: seq<Meal>, today: string)
    ensures DailyTotals(a + b, today) == Plus(DailyTotals(a, today), DailyTotals(b, today))
  {
    TodayMealsAppend(a, b, today);
    SumAppend(TodayMeals(a, today), TodayMeals(b, today));
  }

  lemma {:induction false} NoMealsTodayMeansZero(meals: seq<Meal>, today: string)
    requires forall i :: 0 <= i < |meals| ==> meals[i].date != today
    ensures TodayMeals(meals, today) == []
    ensures DailyTotals(meals, today) == NoMacros
  {
    if |meals| > 0 {
      NoMealsTodayMeansZero(meals[1..], today);
    }
  }

  /** Logging a meal raises today's totals by exactly that meal's values. */
  lemma AddMealRaisesTotals(meals: seq<Meal>, meal: MealDraft, id: string, today: string)
    ensures DailyTotals(AddMeal(meals, meal, id, today), today)
            == Plus(Macros(meal.calories, meal.carbs, meal.protein, meal.fat), DailyTotals(meals, today))
  {
    var after := AddMeal(meals, meal, id, today);
    assert after[1..] == meals;
  }

  // ---------------------------------------------------------------- targets

  /** Recommended daily intake: 2500 kcal for "male" and 2000 otherwise,
      1.6 g of protein per kg of body weight, a quarter of the calories from
      fat at 9 kcal/g and half from carbohydrate at 4 kcal/g. */
  function Targets(gender: string, weightKg: real): (r: Macros)
    ensures r.calories == 2500.0 || r.calories == 2000.0
    ensures r.calories == 2500.0 <==> gender == "male"
    ensures r.fat * 9.0 == r.calories * 0.25
    ensures r.carbs * 4.0 == r.calories * 0.5
    ensures r.protein == weightKg * 1.6
  {
    var calories := if gender == "male" then 2500.0 else 2000.0;
    Macros(calories, (calories * 0.5) / 4.0, weightKg * 1.6, (calories * 0.25) / 9.0)
  }

  // ------------------------------------------------------------------- form

  datatype MealForm = MealForm(name: string, calories: real, carbs: real, protein: real, fat: real, mealType: MealType)

  /** The page's form state and the picker's current choice. */
  datatype Page = Page(form: MealForm, selectedFood: string)

  const BlankForm := MealForm("", 0.0, 0.0, 0.0, 0.0, Breakfast)

  const InitialPage := Page(BlankForm, "")

  /** `foodDatabase.find(f => f.name === value)`. */
  function FindFood(name: string): (r: Option<Food>)
    ensures r.Some? ==> r.value in FoodDatabase && r.value.name == name
    ensures r.None? <==> forall f :: f in FoodDatabase ==> f.name != name
  {
    Find(FoodDatabase, (f: Food) => f.name == name)
  }

  /** Picking a known food copies its name and nutrition values and leaves
      the meal type alone; an unknown name changes nothing. */
  function SelectFood(page: Page, value: string): (r: Page)
    ensures FindFood(value).None? ==> r == page
    ensures FindFood(value).Some? ==>
      var f := FindFood(value).value;
      && r.selectedFood == value
      && r.form == MealForm(f.name, f.calories, f.carbs, f.protein, f.fat, page.form.mealType)
      && f in FoodDatabase && f.name == value
  {
    match FindFood(value)
    case None => page
    case Some(f) => Page(MealForm(f.name, f.calories, f.carbs, f.protein, f.fat, page.form.mealType), value)
  }

  /** The meal-type select changes the meal type and nothing else. */
  function SetMealType(page: Page, mealType: MealType): (r: Page)
    ensures r.form.mealType == mealType && r.selectedFood == page.selectedFood
    ensures DraftOf(r.form) == DraftOf(page.form).(mealType := mealType)
  {
    page.(form := page.form.(mealType := mealType))
  }

  /** A meal type chosen before picking a food survives the pick, and is
      the one the logged meal carries. */
  lemma MealTypeSurvivesPick(page: Page, mealType: MealType, value: string, meals: seq<Meal>, id: string, today: string)
    ensures SelectFood(SetMealType(page, mealType), value).form.mealType == mealType
    ensures SubmitMeal(SelectFood(SetMealType(page, mealType), value), meals, id, today).Accepted? ==>
      SubmitMeal(SelectFood(SetMealType(page, mealType), value), meals, id, today).log[0].mealType == mealType
  {
  }

  function DraftOf(form: MealForm): MealDraft
  {
    MealDraft(form.name, form.calories, form.carbs, form.protein, form.fat, form.mealType)
  }

  /** A meal is logged only when its name is not blank; then the form is
      reset. */
  function SubmitMeal(page: Page, meals: seq<Meal>, id: string, today: string): (r: Submitted<Page, seq<Meal>>)
    ensures r.Accepted? <==> !IsBlank(page.form.name)
    ensures r.Rejected? ==> r.message == "Please enter a meal name"
    ensures r.Accepted? ==> r.page == InitialPage
    ensures r.Accepted? ==> |r.log| == |meals| + 1 && r.log[1..] == meals
    ensures r.Accepted? ==> r.log[0] == Meal(id, page.form.name, page.form.calories, page.form.carbs,
                                             page.form.protein, page.form.fat, today, page.form.mealType)
  {
    TrimEmptyIffBlank(page.form.name);
    if Trim(page.form.name) == "" then Rejected("Please enter a meal name")
    else Accepted(InitialPage, AddMeal(meals, DraftOf(page.form), id, today))
  }

  // --------------------------------------------------------- recommendation

  /** The nutrient the recommendation card suggests. */
  datatype Focus = MoreProtein | MoreCarbs | MoreFats

  /** Protein counts as low below 80% of its target (the insight card). */
  predicate ProteinLow(totals: Macros, targets: Macros)
  {
    totals.protein < targets.protein * 0.8
  }

  /** Protein first, then carbohydrate, each when below 80% of its
      target; otherwise fats. */
  function Recommendation(totals: Macros, targets: Macros): (r: Focus)
    ensures r == MoreProtein <==> ProteinLow(totals, targets)
    ensures r == MoreCarbs <==> !ProteinLow(totals, targets) && totals.carbs < targets.carbs * 0.8
    ensures r == MoreFats <==> totals.protein >= targets.protein * 0.8 && totals.carbs >= targets.carbs * 0.8
  {
    if totals.protein < targets.protein * 0.8 then MoreProtein
    else if totals.carbs < targets.carbs * 0.8 then MoreCarbs
    else MoreFats
  }

  /** With nothing eaten today and a positive body weight, protein is the
      first suggestion. */
  lemma EmptyDaySuggestsProtein(meals: seq<Meal>, today: string, gender: string, weightKg: real)
    requires forall i :: 0 <= i < |meals| ==> meals[i].date != today
    requires weightKg > 0.0
    ensures Recommendation(DailyTotals(meals, today), Targets(gender, weightKg)) == MoreProtein
  {
    NoMealsTodayMeansZero(meals, today);
  }
}
