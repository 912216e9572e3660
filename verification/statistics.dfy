/**
 * `get_camp_statistics` (app/services/calculation.py): the meal counts per
 * type, the inclusive day count, expected and planned meals, the warnings,
 * the completion percentage and the per-day overview of one camp.
 */
module Statistics {
  import opened Wrappers
  import opened Entities
  import opened Rounding
  import Calculation

  // ------------------------------------------------------------ counting rows

  /** The number of rows of meal type `t`. */
  function CountType(plans: seq<MealPlan>, t: MealType): nat {
    if plans == [] then 0
    else CountType(plans[..|plans| - 1], t) + (if plans[|plans| - 1].mealType == t then 1 else 0)
  }

  /**
   * The `meal_counts` counter after the rows `plans`, as `dict(meal_counts)`
   * returns it: a meal type is a key only once a row of that type was counted.
   */
  function MealCountsOf(plans: seq<MealPlan>): map<MealType, nat> {
    if plans == [] then map[]
    else
      var before := MealCountsOf(plans[..|plans| - 1]);
      var t := plans[|plans| - 1].mealType;
      before[t := (if t in before then before[t] else 0) + 1]
  }

  /**
   * The `recipe_ids` set after the rows `plans`, as the list of its members
   * in the order they were first added: each truthy recipe id once.
   */
  function RecipeIds(plans: seq<MealPlan>): seq<int> {
    if plans == [] then []
    else
      var before := RecipeIds(plans[..|plans| - 1]);
      var last := plans[|plans| - 1];
      before + (if HasRecipeId(last) && last.recipeId.value !in before then [last.recipeId.value] else [])
  }

  /** A meal type is a key of the counter iff some row has it, and its value is the number of such rows. */
  lemma {:induction false} MealCountsOfSpec(plans: seq<MealPlan>)
    ensures forall t :: t in MealCountsOf(plans) <==> CountType(plans, t) > 0
    ensures forall t :: t in MealCountsOf(plans) ==> MealCountsOf(plans)[t] == CountType(plans, t)
  {
    if plans != [] {
      MealCountsOfSpec(plans[..|plans| - 1]);
    }
  }

  /** A count read from the counter, zero for a type it does not hold. */
  function CountOf(counts: map<MealType, nat>, t: MealType): nat {
    if t in counts then counts[t] else 0
  }

  lemma {:induction false} TypeCountsSum(plans: seq<MealPlan>)
    ensures CountType(plans, Breakfast) + CountType(plans, Lunch) + CountType(plans, Dinner) == |plans|
  {
    if plans != [] {
      TypeCountsSum(plans[..|plans| - 1]);
    }
  }

  /** The values of `meal_counts` add up to the number of meal-plan rows. */
  lemma MealCountsSumToPlans(plans: seq<MealPlan>)
    ensures CountOf(MealCountsOf(plans), Breakfast) + CountOf(MealCountsOf(plans), Lunch)
            + CountOf(MealCountsOf(plans), Dinner) == |plans|
  {
    MealCountsOfSpec(plans);
    TypeCountsSum(plans);
  }

  /** `recipe_ids` holds exactly the truthy recipe ids of the rows, each once. */
  lemma {:induction false} RecipeIdsSpec(plans: seq<MealPlan>)
    ensures forall id :: id in RecipeIds(plans) <==>
      exists i :: 0 <= i < |plans| && HasRecipeId(plans[i]) && plans[i].recipeId.value == id
    ensures Calculation.Distinct(RecipeIds(plans))
  {
    if plans != [] {
      var before := plans[..|plans| - 1];
      RecipeIdsSpec(before);
      forall id | id in RecipeIds(plans)
        ensures exists i :: 0 <= i < |plans| && HasRecipeId(plans[i]) && plans[i].recipeId.value == id
      {
        if id in RecipeIds(before) {
          var i :| 0 <= i < |before| && HasRecipeId(before[i]) && before[i].recipeId.value == id;
          assert plans[i] == before[i];
        } else {
          assert HasRecipeId(plans[|plans| - 1]) && plans[|plans| - 1].recipeId.value == id;
        }
      }
      forall id | exists i :: 0 <= i < |plans| && HasRecipeId(plans[i]) && plans[i].recipeId.value == id
        ensures id in RecipeIds(plans)
      {
        var i :| 0 <= i < |plans| && HasRecipeId(plans[i]) && plans[i].recipeId.value == id;
        if i < |before| {
          assert before[i] == plans[i];
        }
      }
    }
  }

  /** The counting loop over the rows: the type counter and the set of truthy recipe ids. */
  method CountMeals(plans: seq<MealPlan>) returns (counts: map<MealType, nat>, recipeIds: seq<int>)
    ensures counts == MealCountsOf(plans)
    ensures recipeIds == RecipeIds(plans)
  {
    counts := map[];
    recipeIds := [];
    for i := 0 to |plans|
      invariant counts == MealCountsOf(plans[..i])
      invariant recipeIds == RecipeIds(plans[..i])
    {
      assert plans[..i + 1][..i] == plans[..i];
      var plan := plans[i];
      var t := plan.mealType;
      counts := counts[t := (if t in counts then counts[t] else 0) + 1];
      if plan.recipeId.Some? && plan.recipeId.value != 0 && plan.recipeId.value !in recipeIds {
        recipeIds := recipeIds + [plan.recipeId.value];
      }
    }
    assert plans[..|plans|] == plans;
  }

  // ------------------------------------------------------------ unique against total recipes

  /** The falsy recipe ids that occur among the rows: `None` and `0`. */
  function FalsyRecipeIds(plans: seq<MealPlan>): (ids: set<Option<int>>)
    ensures forall x :: x in ids ==> x.None? || x.value == 0
  {
    set i | 0 <= i < |plans| && !HasRecipeId(plans[i]) :: plans[i].recipeId
  }

  /**
   * `total_recipes` of the shopping list counts the falsy ids too, while
   * `unique_recipes` of the statistics does not: the two differ by exactly
   * the number of distinct falsy ids present, so a single "no meal" row
   * makes the shopping list report one recipe more.
   */
  lemma TotalRecipesCountsFalsyIds(plans: seq<MealPlan>)
    ensures |Calculation.RecipeIdSet(plans)| == |RecipeIds(plans)| + |FalsyRecipeIds(plans)|
    ensures (exists i :: 0 <= i < |plans| && plans[i].recipeId.None?) ==>
      |Calculation.RecipeIdSet(plans)| > |RecipeIds(plans)|
  {
    RecipeIdsSpec(plans);
    var ids := RecipeIds(plans);
    var truthy := set id | id in ids :: Some(id);
    var falsy := FalsyRecipeIds(plans);
    assert Calculation.RecipeIdSet(plans) == truthy + falsy;
    assert truthy * falsy == {};
    SomeImageSize(ids);
    if exists i :: 0 <= i < |plans| && plans[i].recipeId.None? {
      var i :| 0 <= i < |plans| && plans[i].recipeId.None?;
      assert plans[i].recipeId in falsy;
    }
  }

  lemma {:induction false} SomeImageSize(s: seq<int>)
    requires Calculation.Distinct(s)
    ensures |set x | x in s :: Some(x)| == |s|
  {
    if s != [] {
      var rest := s[..|s| - 1];
      var x := s[|s| - 1];
      assert Calculation.Distinct(rest);
      SomeImageSize(rest);
      assert (set y | y in s :: Some(y)) == (set y | y in rest :: Some(y)) + {Some(x)};
      assert Some(x) !in (set y | y in rest :: Some(y));
    }
  }

  // ------------------------------------------------------------ allergens

  /** The recipe behind `id` exists and has no allergen attached. */
  predicate LacksAllergens(recipes: map<int, Recipe>, id: int) {
    id in recipes && recipes[id].allergens == []
  }

  /** How many of `ids` have a recipe that exists and lists no allergen. */
  function CountLacking(ids: seq<int>, recipes: map<int, Recipe>): nat {
    if ids == [] then 0
    else CountLacking(ids[..|ids| - 1], recipes) + (if LacksAllergens(recipes, ids[|ids| - 1]) then 1 else 0)
  }

  /**
   * Over a list without repetitions, the count is the number of distinct ids
   * whose recipe exists and lists no allergen.
   */
  lemma {:induction false} CountLackingSpec(ids: seq<int>, recipes: map<int, Recipe>)
    requires Calculation.Distinct(ids)
    ensures CountLacking(ids, recipes) == |set id | id in ids && LacksAllergens(recipes, id)|
  {
    if ids != [] {
      var rest := ids[..|ids| - 1];
      var x := ids[|ids| - 1];
      assert Calculation.Distinct(rest);
      CountLackingSpec(rest, recipes);
      var before := set id | id in rest && LacksAllergens(recipes, id);
      if LacksAllergens(recipes, x) {
        assert (set id | id in ids && LacksAllergens(recipes, id)) == before + {x};
        assert x !in before;
      } else {
        assert (set id | id in ids && LacksAllergens(recipes, id)) == before;
      }
    }
  }

  /** The allergen loop over the recipe ids: how many recipes exist and list no allergen. */
  method CountWithoutAllergens(ids: seq<int>, recipes: map<int, Recipe>) returns (n: nat)
    ensures n == CountLacking(ids, recipes)
  {
    n := 0;
    for i := 0 to |ids|
      invariant n == CountLacking(ids[..i], recipes)
    {
      assert ids[..i + 1][..i] == ids[..i];
      var id := ids[i];
      if id in recipes && recipes[id].allergens == [] {
        n := n + 1;
      }
    }
    assert ids[..|ids|] == ids;
  }

  // ------------------------------------------------------------ warnings and completion

  /** The two warnings, as what their messages report. */
  datatype Warning = MealsNotPlanned(missing: int) | RecipesWithoutAllergens(count: nat)

  /** The warnings list: the shortfall first, then the recipes without allergen information. */
  function Warnings(planned: nat, expected: int, withoutAllergens: nat): seq<Warning> {
    (if planned < expected then [MealsNotPlanned(expected - planned)] else [])
    + (if withoutAllergens > 0 then [RecipesWithoutAllergens(withoutAllergens)] else [])
  }

  /**
   * A shortfall warning is given iff fewer rows than slots are planned, and it
   * reports the difference; an allergen warning iff some recipe lacks allergens.
   */
  lemma WarningsSpec(planned: nat, expected: int, withoutAllergens: nat)
    ensures MealsNotPlanned(expected - planned) in Warnings(planned, expected, withoutAllergens) <==> planned < expected
    ensures forall m :: MealsNotPlanned(m) in Warnings(planned, expected, withoutAllergens) ==> m == expected - planned > 0
    ensures RecipesWithoutAllergens(withoutAllergens) in Warnings(planned, expected, withoutAllergens) <==> withoutAllergens > 0
    ensures forall k :: RecipesWithoutAllergens(k) in Warnings(planned, expected, withoutAllergens) ==> k == withoutAllergens > 0
  {
  }

  /** `round(planned / expected * 100, 1)`, or 0 when no meal is expected. */
  function Completion(planned: nat, expected: int): real {
    if expected > 0 then RoundTo(planned as real / expected as real * 100.0, 1) else 0.0
  }

  /** The percentage is the planned share of the expected slots, to within half a tenth, and never negative. */
  lemma CompletionBound(planned: nat, expected: int)
    ensures expected <= 0 ==> Completion(planned, expected) == 0.0
    ensures expected > 0 ==>
      planned as real / expected as real * 100.0 - 0.05 < Completion(planned, expected)
      <= planned as real / expected as real * 100.0 + 0.05
    ensures Completion(planned, expected) >= 0.0
  {
    if expected > 0 {
      RoundToBound(planned as real / expected as real * 100.0, 1);
      RoundedNonNegative(planned as real / expected as real * 100.0);
    }
  }

  lemma RoundedNonNegative(x: real)
    requires x >= 0.0
    ensures RoundTo(x, 1) >= 0.0
  {
    assert Pow10(1) == 10;
    assert (x * 10.0 + 0.5).Floor >= 0;
  }

  /** More rows than slots push the percentage to 100 or beyond: it is not capped. */
  lemma OverplannedCompletionAtLeastHundred(planned: nat, expected: int)
    requires 0 < expected < planned
    ensures Completion(planned, expected) >= 100.0
  {
    var x := planned as real / expected as real * 100.0;
    assert planned as real / expected as real > 1.0;
    assert Pow10(1) == 10;
    assert (x * 10.0 + 0.5).Floor >= 1000;
  }

  /** A one-day camp with four rows is reported as 133.3 % complete. */
  lemma FourRowsOnOneDay()
    ensures Completion(4, 3 * 1) == 133.3
  {
    assert Pow10(1) == 10;
    var x := 4.0 / 3.0 * 100.0;
    assert x * 10.0 + 0.5 == 8003.0 / 6.0;
    assert (x * 10.0 + 0.5).Floor == 1333;
  }

  // ------------------------------------------------------------ daily overview

  /** The `day_meals` dict of one day: per meal type `None`, or the rows of that type in order. */
  datatype DayMeals = DayMeals(breakfast: Option<seq<MealPlan>>, lunch: Option<seq<MealPlan>>, dinner: Option<seq<MealPlan>>)
  {
    function Get(t: MealType): Option<seq<MealPlan>> {
      match t
      case Breakfast => breakfast
      case Lunch => lunch
      case Dinner => dinner
    }

    function Put(t: MealType, v: Option<seq<MealPlan>>): DayMeals {
      match t
      case Breakfast => this.(breakfast := v)
      case Lunch => this.(lunch := v)
      case Dinner => this.(dinner := v)
    }
  }

  /** One entry of `daily_overview`. */
  datatype DayOverview = DayOverview(dayNumber: int, date: int, meals: DayMeals, mealsPlanned: nat)

  /** The rows dated `day` of meal type `t`, in order. */
  function PlansAt(plans: seq<MealPlan>, day: int, t: MealType): seq<MealPlan> {
    if plans == [] then []
    else
      var last := plans[|plans| - 1];
      PlansAt(plans[..|plans| - 1], day, t) + (if last.date == day && last.mealType == t then [last] else [])
  }

  /** The entry of `day_meals` for type `t`: `None` unless some row fills it. */
  function Slot(plans: seq<MealPlan>, day: int, t: MealType): Option<seq<MealPlan>> {
    if PlansAt(plans, day, t) == [] then None else Some(PlansAt(plans, day, t))
  }

  /** The `day_meals` dict built for `day`. */
  function MealsOn(plans: seq<MealPlan>, day: int): DayMeals {
    DayMeals(Slot(plans, day, Breakfast), Slot(plans, day, Lunch), Slot(plans, day, Dinner))
  }

  /** A meal type that holds a non-empty list. */
  predicate Filled(meals: DayMeals, t: MealType) {
    meals.Get(t).Some? && |meals.Get(t).value| > 0
  }

  /** `meals_planned`: the number of meal types whose list is present and non-empty. */
  function MealsPlanned(meals: DayMeals): nat {
    (if Filled(meals, Breakfast) then 1 else 0)
    + (if Filled(meals, Lunch) then 1 else 0)
    + (if Filled(meals, Dinner) then 1 else 0)
  }

  /** The overview entry of day number `i` (counted from 0) of a camp starting on `start`. */
  function DayEntry(plans: seq<MealPlan>, start: int, i: int): DayOverview {
    DayOverview(i + 1, start + i, MealsOn(plans, start + i), MealsPlanned(MealsOn(plans, start + i)))
  }

  /** `PlansAt` keeps exactly the rows of that day and type. */
  lemma {:induction false} PlansAtSpec(plans: seq<MealPlan>, day: int, t: MealType)
    ensures forall p :: p in PlansAt(plans, day, t) ==> p in plans && p.date == day && p.mealType == t
    ensures forall i :: 0 <= i < |plans| && plans[i].date == day && plans[i].mealType == t ==> plans[i] in PlansAt(plans, day, t)
  {
    if plans != [] {
      var before := plans[..|plans| - 1];
      PlansAtSpec(before, day, t);
      forall i | 0 <= i < |plans| - 1 && plans[i].date == day && plans[i].mealType == t
        ensures plans[i] in PlansAt(plans, day, t)
      {
        assert plans[i] == before[i];
      }
    }
  }

  /**
   * In the overview of a day, a meal type holds `None` iff no row of that day
   * has that type, and otherwise exactly that day's rows of that type; each
   * row of the day lands in the list of its own type.
   */
  lemma DayMealsSpec(plans: seq<MealPlan>, day: int)
    ensures forall t :: MealsOn(plans, day).Get(t).None? <==>
      forall i :: 0 <= i < |plans| ==> !(plans[i].date == day && plans[i].mealType == t)
    ensures forall t, p :: MealsOn(plans, day).Get(t).Some? && p in MealsOn(plans, day).Get(t).value ==>
      p in plans && p.date == day && p.mealType == t
    ensures forall i :: 0 <= i < |plans| && plans[i].date == day ==>
      MealsOn(plans, day).Get(plans[i].mealType).Some? && plans[i] in MealsOn(plans, day).Get(plans[i].mealType).value
  {
    forall t ensures MealsOn(plans, day).Get(t) == Slot(plans, day, t) {
    }
    forall t ensures PlansAt(plans, day, t) == [] <==>
      forall i :: 0 <= i < |plans| ==> !(plans[i].date == day && plans[i].mealType == t)
    {
      PlansAtSpec(plans, day, t);
      if PlansAt(plans, day, t) != [] {
        assert PlansAt(plans, day, t)[0] in PlansAt(plans, day, t);
      }
    }
    PlansAtSpec(plans, day, Breakfast);
    PlansAtSpec(plans, day, Lunch);
    PlansAtSpec(plans, day, Dinner);
  }

  /** `meals_planned` lies in 0..3 and counts the meal types that have a non-empty list. */
  lemma MealsPlannedCountsTypes(meals: DayMeals)
    ensures 0 <= MealsPlanned(meals) <= 3
    ensures MealsPlanned(meals) == |set t | t in {Breakfast, Lunch, Dinner} && Filled(meals, t)|
  {
    FilledTypesSplit(meals);
    FilledTypesSize(meals);
  }

  /** `{t}` when the slot of `t` is filled, else the empty set. */
  function FilledSingleton(meals: DayMeals, t: MealType): set<MealType> {
    if Filled(meals, t) then {t} else {}
  }

  lemma FilledTypesSplit(meals: DayMeals)
    ensures (set t | t in {Breakfast, Lunch, Dinner} && Filled(meals, t))
         == FilledSingleton(meals, Breakfast) + FilledSingleton(meals, Lunch) + FilledSingleton(meals, Dinner)
  {
  }

  lemma FilledTypesSize(meals: DayMeals)
    ensures |FilledSingleton(meals, Breakfast) + FilledSingleton(meals, Lunch) + FilledSingleton(meals, Dinner)|
         == MealsPlanned(meals)
  {
    var b := FilledSingleton(meals, Breakfast);
    var l := FilledSingleton(meals, Lunch);
    var d := FilledSingleton(meals, Dinner);
    assert b * l == {} && (b + l) * d == {};
  }

  /** The overview entry of day `i`: numbered `i + 1`, dated `start + i`, with the meals of that date. */
  lemma DayEntrySpec(plans: seq<MealPlan>, start: int, i: int)
    ensures DayEntry(plans, start, i).dayNumber == i + 1
    ensures DayEntry(plans, start, i).date == start + i
    ensures DayEntry(plans, start, i).meals == MealsOn(plans, DayEntry(plans, start, i).date)
    ensures 0 <= DayEntry(plans, start, i).mealsPlanned <= 3
    ensures DayEntry(plans, start, i).mealsPlanned == PlannedTypes(plans, DayEntry(plans, start, i).date)
  {
    MealsPlannedOnDay(plans, start + i);
  }

  /** The number of meal types that have at least one row dated `day`. */
  function PlannedTypes(plans: seq<MealPlan>, day: int): nat {
    |set t | t in {Breakfast, Lunch, Dinner} && PlansAt(plans, day, t) != []|
  }

  /** On any day, `meals_planned` is the number of meal types with a row that day, at most 3. */
  lemma MealsPlannedOnDay(plans: seq<MealPlan>, day: int)
    ensures MealsPlanned(MealsOn(plans, day)) == PlannedTypes(plans, day) <= 3
  {
    var meals := MealsOn(plans, day);
    MealsPlannedCountsTypes(meals);
    forall t ensures Filled(meals, t) <==> PlansAt(plans, day, t) != [] {
      assert meals.Get(t) == Slot(plans, day, t);
    }
    assert (set t | t in {Breakfast, Lunch, Dinner} && Filled(meals, t))
        == (set t | t in {Breakfast, Lunch, Dinner} && PlansAt(plans, day, t) != []);
  }

  /** The inner loop of the overview: sorts the rows dated `day` into the three meal types. */
  method CollectDay(plans: seq<MealPlan>, day: int) returns (meals: DayMeals)
    ensures meals == MealsOn(plans, day)
  {
    meals := DayMeals(None, None, None);
    for j := 0 to |plans|
      invariant meals == MealsOn(plans[..j], day)
    {
      MealsOnStep(plans, j, day);
      var plan := plans[j];
      if plan.date == day {
        var t := plan.mealType;
        var list := if meals.Get(t).None? then [] else meals.Get(t).value;
        meals := meals.Put(t, Some(list + [plan]));
      }
    }
    assert plans[..|plans|] == plans;
  }

  lemma MealsOnStep(plans: seq<MealPlan>, j: int, day: int)
    requires 0 <= j < |plans|
    ensures plans[j].date != day ==> MealsOn(plans[..j + 1], day) == MealsOn(plans[..j], day)
    ensures plans[j].date == day ==>
      var before := MealsOn(plans[..j], day).Get(plans[j].mealType);
      MealsOn(plans[..j + 1], day)
        == MealsOn(plans[..j], day).Put(plans[j].mealType, Some((if before.None? then [] else before.value) + [plans[j]]))
  {
    SlotStep(plans, j, day, Breakfast);
    SlotStep(plans, j, day, Lunch);
    SlotStep(plans, j, day, Dinner);
  }

  lemma SlotStep(plans: seq<MealPlan>, j: int, day: int, t: MealType)
    requires 0 <= j < |plans|
    ensures Slot(plans[..j + 1], day, t) ==
      if plans[j].date == day && plans[j].mealType == t then
        Some((if Slot(plans[..j], day, t).None? then [] else Slot(plans[..j], day, t).value) + [plans[j]])
      else Slot(plans[..j], day, t)
  {
    var b := plans[..j + 1];
    assert b[..|b| - 1] == plans[..j] && b[|b| - 1] == plans[j];
    var m := if plans[j].date == day && plans[j].mealType == t then [plans[j]] else [];
    assert PlansAt(b, day, t) == PlansAt(plans[..j], day, t) + m;
    if m == [] {
      assert PlansAt(plans[..j], day, t) + m == PlansAt(plans[..j], day, t);
    } else {
      assert [] + m == m;
    }
  }
  /** One entry of the overview: the meals of day `dayNum` and how many types are planned. */
  method OverviewEntry(plans: seq<MealPlan>, start: int, dayNum: int) returns (entry: DayOverview)
    ensures entry == DayEntry(plans, start, dayNum)
  {
    var dayDate := start + dayNum;
    var meals := CollectDay(plans, dayDate);
    var planned := (if meals.breakfast.Some? && |meals.breakfast.value| > 0 then 1 else 0)
                 + (if meals.lunch.Some? && |meals.lunch.value| > 0 then 1 else 0)
                 + (if meals.dinner.Some? && |meals.dinner.value| > 0 then 1 else 0);
    entry := DayOverview(dayNum + 1, dayDate, meals, planned);
  }

  /** The outer loop of the overview: one entry per camp day, `total_days` of them. */
  method DailyOverview(plans: seq<MealPlan>, start: int, totalDays: int) returns (days: seq<DayOverview>)
    ensures |days| == if totalDays > 0 then totalDays else 0
    ensures forall i :: 0 <= i < |days| ==> days[i] == DayEntry(plans, start, i)
  {
    days := [];
    var dayNum := 0;
    while dayNum < totalDays
      invariant 0 <= dayNum == |days|
      invariant totalDays > 0 ==> dayNum <= totalDays
      invariant totalDays <= 0 ==> dayNum == 0
      invariant forall i :: 0 <= i < |days| ==> days[i] == DayEntry(plans, start, i)
    {
      var entry := OverviewEntry(plans, start, dayNum);
      days := days + [entry];
      dayNum := dayNum + 1;
    }
  }

  // ------------------------------------------------------------ the statistics

  /** The result of `get_camp_statistics` for an existing camp. */
  datatype CampStatistics = CampStatistics(
    camp: Camp,
    totalDays: int,
    plannedMeals: nat,
    expectedMeals: int,
    uniqueRecipes: nat,
    mealCounts: map<MealType, nat>,
    completionPercentage: real,
    warnings: seq<Warning>,
    dailyOverview: seq<DayOverview>)

  /**
   * `get_camp_statistics` over the fetched camp (absent when not found), its
   * meal-plan rows and the recipes by id; `None` is the empty result.
   */
  method GetCampStatistics(camp: Option<Camp>, plans: seq<MealPlan>, recipes: map<int, Recipe>)
    returns (r: Option<CampStatistics>)
    ensures camp.None? <==> r.None?
    ensures r.Some? ==>
      var days := camp.value.endDate - camp.value.startDate + 1;
      && r.value.camp == camp.value
      && r.value.totalDays == days
      && r.value.expectedMeals == 3 * days
      && r.value.plannedMeals == |plans|
      && r.value.uniqueRecipes == |RecipeIds(plans)|
      && r.value.mealCounts == MealCountsOf(plans)
      && r.value.completionPercentage == Completion(|plans|, 3 * days)
      && r.value.warnings == Warnings(|plans|, 3 * days, CountLacking(RecipeIds(plans), recipes))
      && |r.value.dailyOverview| == (if days > 0 then days else 0)
      && forall i :: 0 <= i < |r.value.dailyOverview| ==> r.value.dailyOverview[i] == DayEntry(plans, camp.value.startDate, i)
  {
    if camp.None? {
      return None;
    }
    var c := camp.value;
    var counts, recipeIds := CountMeals(plans);
    var totalDays := c.endDate - c.startDate + 1;
    var expected := totalDays * 3;
    var planned := |plans|;
    var warnings: seq<Warning> := [];
    if planned < expected {
      warnings := warnings + [MealsNotPlanned(expected - planned)];
    }
    var withoutAllergens := CountWithoutAllergens(recipeIds, recipes);
    if withoutAllergens > 0 {
      warnings := warnings + [RecipesWithoutAllergens(withoutAllergens)];
    }
    var overview := DailyOverview(plans, c.startDate, totalDays);
    var completion := if expected > 0 then RoundTo(planned as real / expected as real * 100.0, 1) else 0.0;
    r := Some(CampStatistics(c, totalDays, planned, expected, |recipeIds|, counts, completion, warnings, overview));
  }
}
