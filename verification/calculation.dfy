/**
 * Recipe scaling and the camp shopping list (app/services/calculation.py,
 * `scale_recipe` and `calculate_shopping_list`): every meal plan that has a
 * recipe contributes that recipe scaled to the camp's participant count,
 * scaled quantities are summed per (ingredient id, unit), each sum goes
 * through the unit converter with the built-in rules, and the items are
 * grouped by category.
 */
module Calculation {
  import opened Wrappers
  import opened Text
  import opened Sorting
  import opened Entities
  import opened UnitConverter

  datatype Error = InvalidBaseServings | CampNotFound

  /** One scaled ingredient line; the original quantity and unit are kept beside the scaled ones. */
  datatype ScaledIngredient = ScaledIngredient(ingredient: Ingredient, quantity: real, unit: string, originalQuantity: real, originalUnit: string)

  datatype ScaledRecipe = ScaledRecipe(recipe: Recipe, ingredients: seq<ScaledIngredient>, factor: real, targetServings: int, baseServings: int)

  // ---------------------------------------------------------------- scaling

  /** `target_servings / recipe.base_servings` (true division). */
  function Factor(targetServings: int, baseServings: int): real
    requires baseServings > 0
  {
    targetServings as real / baseServings as real
  }

  /** A quantity multiplied by a scaling factor. */
  function Scaled(quantity: real, factor: real): real {
    quantity * factor
  }

  /** The scaled entry for one recipe line. */
  function ScaleLine(line: RecipeIngredient, factor: real): ScaledIngredient {
    ScaledIngredient(line.ingredient, Scaled(line.quantity, factor), line.unit, line.quantity, line.unit)
  }

  /** Every line of a recipe scaled by `factor`, in the recipe's order. */
  function ScaleLines(lines: seq<RecipeIngredient>, factor: real): seq<ScaledIngredient> {
    if lines == [] then []
    else ScaleLines(lines[..|lines| - 1], factor) + [ScaleLine(lines[|lines| - 1], factor)]
  }

  /** Scaling keeps the ingredient, the unit and the original quantity of every line and multiplies its quantity. */
  lemma {:induction false} ScaleLinesSpec(lines: seq<RecipeIngredient>, factor: real)
    ensures |ScaleLines(lines, factor)| == |lines|
    ensures forall i :: 0 <= i < |lines| ==>
      var r := ScaleLines(lines, factor)[i];
      && r.ingredient == lines[i].ingredient
      && r.unit == lines[i].unit
      && r.originalQuantity == lines[i].quantity
      && r.originalUnit == lines[i].unit
      && r.quantity == Scaled(lines[i].quantity, factor)
    decreases |lines|
  {
    if lines != [] {
      var prefix := lines[..|lines| - 1];
      ScaleLinesSpec(prefix, factor);
      assert forall i :: 0 <= i < |prefix| ==> lines[i] == prefix[i];
    }
  }

  /** `scale_recipe(recipe, target_servings)`: fails for a non-positive base, else scales every line. */
  method ScaleRecipe(recipe: Recipe, targetServings: int) returns (r: Result<ScaledRecipe, Error>)
    ensures r.Failure? <==> recipe.baseServings <= 0
    ensures r.Failure? ==> r.error == InvalidBaseServings
    ensures r.Success? ==>
      && r.value.recipe == recipe
      && r.value.factor == Factor(targetServings, recipe.baseServings)
      && r.value.targetServings == targetServings
      && r.value.baseServings == recipe.baseServings
      && r.value.ingredients == ScaleLines(recipe.ingredients, r.value.factor)
  {
    if recipe.baseServings <= 0 {
      return Failure(InvalidBaseServings);
    }
    var factor := targetServings as real / recipe.baseServings as real;
    var scaled: seq<ScaledIngredient> := [];
    var i := 0;
    while i < |recipe.ingredients|
      invariant 0 <= i <= |recipe.ingredients|
      invariant scaled == ScaleLines(recipe.ingredients[..i], factor)
    {
      var line := recipe.ingredients[i];
      assert recipe.ingredients[..i + 1][..i] == recipe.ingredients[..i];
      scaled := scaled + [ScaledIngredient(line.ingredient, Scaled(line.quantity, factor), line.unit, line.quantity, line.unit)];
      i := i + 1;
    }
    assert recipe.ingredients[..i] == recipe.ingredients;
    r := Success(ScaledRecipe(recipe, scaled, factor, targetServings, recipe.baseServings));
  }

  /** Scaling to the recipe's own base leaves every quantity as it was. */
  lemma ScaleToBaseIsIdentity(recipe: Recipe)
    requires recipe.baseServings > 0
    ensures var r := ScaleLines(recipe.ingredients, Factor(recipe.baseServings, recipe.baseServings));
            |r| == |recipe.ingredients| && forall i :: 0 <= i < |r| ==> r[i].quantity == recipe.ingredients[i].quantity
  {
    assert Factor(recipe.baseServings, recipe.baseServings) == 1.0;
    ScaleLinesSpec(recipe.ingredients, 1.0);
  }

  /** Scaled quantities are proportional to the target servings. */
  lemma ScaleIsProportional(quantity: real, s1: int, s2: int, baseServings: int)
    requires baseServings > 0 && s2 != 0 && quantity != 0.0
    ensures Scaled(quantity, Factor(s2, baseServings)) != 0.0
    ensures Scaled(quantity, Factor(s1, baseServings)) / Scaled(quantity, Factor(s2, baseServings)) == s1 as real / s2 as real
  {
    var b := baseServings as real;
    var a1 := quantity * (s1 as real / b);
    var a2 := quantity * (s2 as real / b);
    assert a1 == (quantity / b) * s1 as real;
    assert a2 == (quantity / b) * s2 as real;
    assert quantity / b != 0.0;
    QuotientOfMultiples(quantity / b, s1 as real, s2 as real);
  }

  lemma QuotientOfMultiples(c: real, x: real, y: real)
    requires c != 0.0 && y != 0.0
    ensures c * y != 0.0
    ensures (c * x) / (c * y) == x / y
  {
  }

  // ------------------------------------------------------------ aggregation

  /** The aggregation key `(ingredient.id, unit)`. */
  datatype Key = Key(ingredientId: int, unit: string)

  function KeyOf(line: ScaledIngredient): Key {
    Key(line.ingredient.id, line.unit)
  }

  /** A meal plan is skipped as "no meal" unless it has a (truthy) recipe id and a loaded recipe. */
  predicate Contributes(plan: MealPlan) {
    HasRecipeId(plan) && plan.recipe.Some?
  }

  /** Every contributing plan's recipe can be scaled. */
  predicate Scalable(plans: seq<MealPlan>) {
    forall i :: 0 <= i < |plans| && Contributes(plans[i]) ==> plans[i].recipe.value.baseServings > 0
  }

  /**
   * The scaled lines one plan adds to the shopping list. A recipe that cannot
   * be scaled makes the whole calculation fail, so its (empty) lines here are
   * never part of a result.
   */
  function PlanLines(plan: MealPlan, participants: int): seq<ScaledIngredient> {
    if Contributes(plan) && plan.recipe.value.baseServings > 0 then
      ScaleLines(plan.recipe.value.ingredients, Factor(participants, plan.recipe.value.baseServings))
    else []
  }

  /** All scaled lines of all plans, in plan order. */
  function Contributions(plans: seq<MealPlan>, participants: int): seq<ScaledIngredient> {
    if plans == [] then []
    else PlanLines(plans[0], participants) + Contributions(plans[1..], participants)
  }

  /** The sum of the quantities of the lines with key `k`. */
  function Total(lines: seq<ScaledIngredient>, k: Key): real {
    if lines == [] then 0.0
    else Total(lines[..|lines| - 1], k) + (if KeyOf(lines[|lines| - 1]) == k then lines[|lines| - 1].quantity else 0.0)
  }

  /** The distinct keys of `lines`, in order of first occurrence (dict insertion order). */
  function KeysInOrder(lines: seq<ScaledIngredient>): seq<Key> {
    if lines == [] then []
    else
      var keys := KeysInOrder(lines[..|lines| - 1]);
      var k := KeyOf(lines[|lines| - 1]);
      if k in keys then keys else keys + [k]
  }

  /** The ingredient of the first line with key `k`; the aggregation keeps it for the key. */
  function FirstIngredient(lines: seq<ScaledIngredient>, k: Key): Ingredient
    requires k in KeysInOrder(lines)
  {
    var prefix := lines[..|lines| - 1];
    if k in KeysInOrder(prefix) then FirstIngredient(prefix, k) else lines[|lines| - 1].ingredient
  }

  /** The keys are pairwise different and are exactly the keys of the lines. */
  lemma {:induction false} KeysInOrderSpec(lines: seq<ScaledIngredient>)
    ensures var keys := KeysInOrder(lines);
            && (forall i, j :: 0 <= i < j < |keys| ==> keys[i] != keys[j])
            && (forall i :: 0 <= i < |lines| ==> KeyOf(lines[i]) in keys)
            && (forall k :: k in keys ==> exists i :: 0 <= i < |lines| && KeyOf(lines[i]) == k)
    decreases |lines|
  {
    if lines != [] {
      var prefix := lines[..|lines| - 1];
      KeysInOrderSpec(prefix);
      assert forall i :: 0 <= i < |prefix| ==> lines[i] == prefix[i];
    }
  }

  /** A key that no line has totals zero. */
  lemma {:induction false} TotalOfAbsentKey(lines: seq<ScaledIngredient>, k: Key)
    requires k !in KeysInOrder(lines)
    ensures Total(lines, k) == 0.0
    decreases |lines|
  {
    if lines != [] {
      TotalOfAbsentKey(lines[..|lines| - 1], k);
    }
  }

  /** The kept ingredient is that of the earliest line with the key, so its id is the key's. */
  lemma {:induction false} FirstIngredientSpec(lines: seq<ScaledIngredient>, k: Key)
    requires k in KeysInOrder(lines)
    ensures FirstIngredient(lines, k).id == k.ingredientId
    ensures exists i :: 0 <= i < |lines| && KeyOf(lines[i]) == k && lines[i].ingredient == FirstIngredient(lines, k) &&
                        forall j :: 0 <= j < i ==> KeyOf(lines[j]) != k
    decreases |lines|
  {
    var prefix := lines[..|lines| - 1];
    assert forall i :: 0 <= i < |prefix| ==> lines[i] == prefix[i];
    if k in KeysInOrder(prefix) {
      FirstIngredientSpec(prefix, k);
      var i :| 0 <= i < |prefix| && KeyOf(prefix[i]) == k && prefix[i].ingredient == FirstIngredient(prefix, k) &&
               forall j :: 0 <= j < i ==> KeyOf(prefix[j]) != k;
      assert KeyOf(lines[i]) == k;
    } else {
      KeysInOrderSpec(prefix);
      assert forall j :: 0 <= j < |prefix| ==> KeyOf(lines[j]) != k;
      assert KeyOf(lines[|lines| - 1]) == k;
    }
  }

  /** The running entry of the `aggregated` dictionary. */
  datatype Entry = Entry(ingredient: Ingredient, unit: string, quantity: real)

  /** The dictionary entry for the key of `x` after adding `x` (created with quantity 0 when missing). */
  function Bumped(entries: map<Key, Entry>, x: ScaledIngredient): Entry {
    var base := if KeyOf(x) in entries then entries[KeyOf(x)] else Entry(x.ingredient, x.unit, 0.0);
    base.(quantity := base.quantity + x.quantity)
  }

  /** The `aggregated` dictionary after adding `lines` one by one to an empty one. */
  function EntriesOf(lines: seq<ScaledIngredient>): map<Key, Entry> {
    if lines == [] then map[]
    else
      var before := EntriesOf(lines[..|lines| - 1]);
      var x := lines[|lines| - 1];
      before[KeyOf(x) := Bumped(before, x)]
  }

  /**
   * What the dictionary holds: exactly the keys of the lines, each with the
   * ingredient of its first line, its unit and the sum of its quantities.
   */
  lemma {:induction false} EntriesOfSpec(lines: seq<ScaledIngredient>)
    ensures forall k :: k in EntriesOf(lines) <==> k in KeysInOrder(lines)
    ensures forall k :: k in EntriesOf(lines) ==>
              EntriesOf(lines)[k] == Entry(FirstIngredient(lines, k), k.unit, Total(lines, k))
    decreases |lines|
  {
    if lines != [] {
      var prefix := lines[..|lines| - 1];
      var x := lines[|lines| - 1];
      EntriesOfSpec(prefix);
      forall k | k in EntriesOf(lines)
        ensures EntriesOf(lines)[k] == Entry(FirstIngredient(lines, k), k.unit, Total(lines, k))
      {
        if k == KeyOf(x) && k !in EntriesOf(prefix) {
          TotalOfAbsentKey(prefix, k);
        }
      }
    }
  }

  /** One line added: the dictionary and the key order as the loop body updates them. */
  lemma AggregateStep(lines: seq<ScaledIngredient>, x: ScaledIngredient)
    ensures KeyOf(x) in EntriesOf(lines) <==> KeyOf(x) in KeysInOrder(lines)
    ensures KeysInOrder(lines + [x]) ==
            if KeyOf(x) in KeysInOrder(lines) then KeysInOrder(lines) else KeysInOrder(lines) + [KeyOf(x)]
    ensures EntriesOf(lines + [x]) == EntriesOf(lines)[KeyOf(x) := Bumped(EntriesOf(lines), x)]
  {
    var all := lines + [x];
    assert all[..|all| - 1] == lines;
    EntriesOfSpec(lines);
  }

  /** The outcome of the aggregation loop: keys in insertion order and their entries. */
  datatype Aggregation = Aggregation(order: seq<Key>, entries: map<Key, Entry>)

  /** The inner loop of the aggregation: adds the scaled lines of one recipe. */
  method AddLines(order0: seq<Key>, entries0: map<Key, Entry>, ghost before: seq<ScaledIngredient>, lines: seq<ScaledIngredient>)
    returns (order: seq<Key>, entries: map<Key, Entry>)
    requires order0 == KeysInOrder(before) && entries0 == EntriesOf(before)
    ensures order == KeysInOrder(before + lines) && entries == EntriesOf(before + lines)
  {
    order, entries := order0, entries0;
    var j := 0;
    assert before + lines[..0] == before;
    while j < |lines|
      invariant 0 <= j <= |lines|
      invariant order == KeysInOrder(before + lines[..j]) && entries == EntriesOf(before + lines[..j])
    {
      order, entries := AddLine(order, entries, before + lines[..j], lines[j]);
      ExtendPrefix(before, lines, j);
      j := j + 1;
    }
    assert lines[..j] == lines;
  }

  /** The body of the aggregation loop for one scaled line. */
  method AddLine(order0: seq<Key>, entries0: map<Key, Entry>, ghost done: seq<ScaledIngredient>, line: ScaledIngredient)
    returns (order: seq<Key>, entries: map<Key, Entry>)
    requires order0 == KeysInOrder(done) && entries0 == EntriesOf(done)
    ensures order == KeysInOrder(done + [line]) && entries == EntriesOf(done + [line])
  {
    AggregateStep(done, line);
    order, entries := order0, entries0;
    var key := Key(line.ingredient.id, line.unit);
    var entry := if key in entries then entries[key] else Entry(line.ingredient, line.unit, 0.0);
    if key !in entries {
      order := order + [key];
    }
    entries := entries[key := entry.(quantity := entry.quantity + line.quantity)];
  }

  lemma ExtendPrefix<T>(before: seq<T>, s: seq<T>, j: int)
    requires 0 <= j < |s|
    ensures before + s[..j] + [s[j]] == before + s[..j + 1]
  {
    assert s[..j + 1] == s[..j] + [s[j]];
  }

  lemma ContributionsExtend(plans: seq<MealPlan>, i: int, participants: int)
    requires 0 <= i < |plans| && Scalable(plans[..i])
    requires Contributes(plans[i]) ==> plans[i].recipe.value.baseServings > 0
    ensures Scalable(plans[..i + 1])
    ensures Contributions(plans[..i + 1], participants) == Contributions(plans[..i], participants) + PlanLines(plans[i], participants)
    ensures !Contributes(plans[i]) ==> Contributions(plans[..i + 1], participants) == Contributions(plans[..i], participants)
  {
    assert plans[..i + 1] == plans[..i] + [plans[i]];
    ContributionsAppend(plans[..i], [plans[i]], participants);
    assert [plans[i]][1..] == [];
    assert PlanLines(plans[i], participants) + [] == PlanLines(plans[i], participants);
    assert Contributions(plans[..i], participants) + [] == Contributions(plans[..i], participants);
  }

  /**
   * The nested loop of `calculate_shopping_list` that fills `aggregated`:
   * fails when a contributing recipe cannot be scaled.
   */
  method Aggregate(plans: seq<MealPlan>, participants: int) returns (r: Result<Aggregation, Error>)
    ensures r.Failure? <==> !Scalable(plans)
    ensures r.Failure? ==> r.error == InvalidBaseServings
    ensures r.Success? ==> var lines := Contributions(plans, participants);
      r.value.order == KeysInOrder(lines) && r.value.entries == EntriesOf(lines)
  {
    var order: seq<Key> := [];
    var entries: map<Key, Entry> := map[];
    var i := 0;
    while i < |plans|
      invariant 0 <= i <= |plans|
      invariant Scalable(plans[..i])
      invariant order == KeysInOrder(Contributions(plans[..i], participants))
      invariant entries == EntriesOf(Contributions(plans[..i], participants))
    {
      var plan := plans[i];
      if Contributes(plan) {
        var scaled := ScaleRecipe(plan.recipe.value, participants);
        if scaled.Failure? {
          assert !Scalable(plans) by {
            assert Contributes(plans[i]) && plans[i].recipe.value.baseServings <= 0;
          }
          return Failure(InvalidBaseServings);
        }
        order, entries := AddLines(order, entries, Contributions(plans[..i], participants), scaled.value.ingredients);
      }
      ContributionsExtend(plans, i, participants);
      i := i + 1;
    }
    assert plans[..i] == plans;
    r := Success(Aggregation(order, entries));
  }

  // ------------------------------------------------- order independence

  lemma {:induction false} TotalAppend(a: seq<ScaledIngredient>, b: seq<ScaledIngredient>, k: Key)
    ensures Total(a + b, k) == Total(a, k) + Total(b, k)
    decreases |b|
  {
    if b != [] {
      var b' := b[..|b| - 1];
      assert (a + b)[..|a + b| - 1] == a + b';
      TotalAppend(a, b', k);
    } else {
      assert a + b == a;
    }
  }

  lemma {:induction false} ContributionsAppend(p: seq<MealPlan>, q: seq<MealPlan>, participants: int)
    ensures Contributions(p + q, participants) == Contributions(p, participants) + Contributions(q, participants)
    decreases |p|
  {
    if p == [] {
      assert p + q == q;
    } else {
      assert (p + q)[1..] == p[1..] + q;
      ContributionsAppend(p[1..], q, participants);
    }
  }

  /** Reordering the plans keeps them scalable: whether the calculation fails does not depend on the order. */
  lemma ScalableUnderPermutation(p1: seq<MealPlan>, p2: seq<MealPlan>)
    requires multiset(p1) == multiset(p2) && Scalable(p1)
    ensures Scalable(p2)
  {
    forall i | 0 <= i < |p2| && Contributes(p2[i])
      ensures p2[i].recipe.value.baseServings > 0
    {
      assert p2[i] in multiset(p1);
      var j :| 0 <= j < |p1| && p1[j] == p2[i];
    }
  }

  /**
   * Each (ingredient id, unit) total is the same whatever the order of the meal plans:
   * two lists with the same plans give the same sums.
   */
  lemma {:induction false} TotalsIndependentOfPlanOrder(p1: seq<MealPlan>, p2: seq<MealPlan>, participants: int, k: Key)
    requires multiset(p1) == multiset(p2)
    ensures Total(Contributions(p1, participants), k) == Total(Contributions(p2, participants), k)
    decreases |p1|
  {
    if p1 != [] {
      var n := |p1| - 1;
      assert p1[n] in multiset(p2);
      var j :| 0 <= j < |p2| && p2[j] == p1[n];
      MultisetWithout(p1, n);
      MultisetWithout(p2, j);
      assert p1[..n] + p1[n + 1..] == p1[..n];
      TotalsIndependentOfPlanOrder(p1[..n], p2[..j] + p2[j + 1..], participants, k);
      TotalsAfterRemoval(p1, p2, j, participants, k);
    }
  }

  /** The totals of `p1` and `p2` differ from those without the shared plan by the same amount. */
  lemma TotalsAfterRemoval(p1: seq<MealPlan>, p2: seq<MealPlan>, j: int, participants: int, k: Key)
    requires p1 != [] && 0 <= j < |p2| && p2[j] == p1[|p1| - 1]
    requires Total(Contributions(p1[..|p1| - 1], participants), k) == Total(Contributions(p2[..j] + p2[j + 1..], participants), k)
    ensures Total(Contributions(p1, participants), k) == Total(Contributions(p2, participants), k)
  {
    ContributionsSplitLast(p1, participants);
    ContributionsSplitAt(p2, j, participants);
    ContributionsAppend(p2[..j], p2[j + 1..], participants);
    TotalsAround(Contributions(p1[..|p1| - 1], participants), Contributions(p2[..j], participants),
                 PlanLines(p2[j], participants), Contributions(p2[j + 1..], participants), k);
  }

  lemma ContributionsSplitAt(p: seq<MealPlan>, j: int, participants: int)
    requires 0 <= j < |p|
    ensures Contributions(p, participants) ==
            Contributions(p[..j], participants) + PlanLines(p[j], participants) + Contributions(p[j + 1..], participants)
  {
    assert p == p[..j] + p[j..];
    ContributionsAppend(p[..j], p[j..], participants);
    assert p[j..][1..] == p[j + 1..];
  }

  lemma ContributionsSplitLast(p: seq<MealPlan>, participants: int)
    requires p != []
    ensures Contributions(p, participants) == Contributions(p[..|p| - 1], participants) + PlanLines(p[|p| - 1], participants)
  {
    ContributionsSplitAt(p, |p| - 1, participants);
    assert p[|p|..] == [];
    assert Contributions(p[|p|..], participants) == [];
  }

  /** Adding the same lines to two lists with the same total keeps the totals equal, wherever they go. */
  lemma TotalsAround(r: seq<ScaledIngredient>, a: seq<ScaledIngredient>, x: seq<ScaledIngredient>, b: seq<ScaledIngredient>, k: Key)
    requires Total(r, k) == Total(a + b, k)
    ensures Total(r + x, k) == Total(a + x + b, k)
  {
    TotalAppend(a + x, b, k);
    TotalAppend(a, x, k);
    TotalAppend(a, b, k);
    TotalAppend(r, x, k);
  }

  /** Removing the element at index `j` removes one copy of it from the multiset. */
  lemma MultisetWithout<T>(p: seq<T>, j: int)
    requires 0 <= j < |p|
    ensures multiset(p[..j] + p[j + 1..]) == multiset(p) - multiset{p[j]}
  {
    assert p == p[..j] + [p[j]] + p[j + 1..];
  }

  /** Plans that do not contribute (no recipe) can be dropped without changing any line. */
  lemma {:induction false} NoMealPlansContributeNothing(plans: seq<MealPlan>, participants: int)
    ensures Contributions(OnlyContributing(plans), participants) == Contributions(plans, participants)
    decreases |plans|
  {
    if plans != [] {
      var x := plans[0];
      var rest := OnlyContributing(plans[1..]);
      NoMealPlansContributeNothing(plans[1..], participants);
      if Contributes(x) {
        assert ([x] + rest)[1..] == rest;
      } else {
        assert [] + rest == rest;
        assert [] + Contributions(plans[1..], participants) == Contributions(plans[1..], participants);
      }
    }
  }

  /** The plans with a recipe, in order. */
  function OnlyContributing(plans: seq<MealPlan>): (kept: seq<MealPlan>)
    ensures forall i :: 0 <= i < |kept| ==> Contributes(kept[i]) && kept[i] in plans
  {
    if plans == [] then []
    else (if Contributes(plans[0]) then [plans[0]] else []) + OnlyContributing(plans[1..])
  }

  // ---------------------------------------------------------- shopping items

  /** One entry of the shopping list. */
  datatype ShoppingItem = ShoppingItem(ingredient: Ingredient, quantity: Amount, unit: string,
                                       originalQuantity: real, originalUnit: string, category: string)

  /** The item for an aggregated entry: its total converted with the built-in rules only. */
  function ItemFor(e: Entry): (item: ShoppingItem)
    ensures item.originalQuantity == e.quantity && item.originalUnit == e.unit
    ensures item.ingredient == e.ingredient && item.category == e.ingredient.category
    ensures item.quantity == ConvertUnit(e.quantity, e.unit, map[]).quantity
    ensures item.unit == ConvertUnit(e.quantity, e.unit, map[]).unit
  {
    var converted := ConvertUnit(e.quantity, e.unit, map[]);
    ShoppingItem(e.ingredient, converted.quantity, converted.unit, e.quantity, e.unit, e.ingredient.category)
  }

  /** The aggregation key an item came from. */
  function ItemKey(item: ShoppingItem): Key {
    Key(item.ingredient.id, item.originalUnit)
  }

  /** The loop turning `aggregated` into `shopping_items`, in key insertion order. */
  method BuildItems(agg: Aggregation) returns (items: seq<ShoppingItem>)
    requires forall k :: k in agg.order ==> k in agg.entries
    ensures |items| == |agg.order|
    ensures forall i :: 0 <= i < |items| ==> items[i] == ItemFor(agg.entries[agg.order[i]])
  {
    items := [];
    var i := 0;
    while i < |agg.order|
      invariant 0 <= i <= |agg.order|
      invariant |items| == i
      invariant forall m :: 0 <= m < i ==> items[m] == ItemFor(agg.entries[agg.order[m]])
    {
      var data := agg.entries[agg.order[i]];
      var converted := ConvertUnit(data.quantity, data.unit, map[]);
      items := items + [ShoppingItem(data.ingredient, converted.quantity, converted.unit, data.quantity, data.unit, data.ingredient.category)];
      i := i + 1;
    }
  }

  // -------------------------------------------------------------- categories

  /** One category of the shopping list with its items. */
  datatype CategoryGroup = CategoryGroup(name: string, items: seq<ShoppingItem>)

  /** The items of category `c`, in list order. */
  function InCategory(items: seq<ShoppingItem>, c: string): (r: seq<ShoppingItem>)
    ensures forall i :: 0 <= i < |r| ==> r[i].category == c && r[i] in items
    ensures forall x :: x in items && x.category == c ==> x in r
  {
    if items == [] then []
    else
      var prefix := InCategory(items[..|items| - 1], c);
      var x := items[|items| - 1];
      assert forall y :: y in items ==> y in items[..|items| - 1] || y == x;
      if x.category == c then prefix + [x] else prefix
  }

  /** Items ordered by ingredient name. */
  predicate ByName(a: ShoppingItem, b: ShoppingItem) {
    StrLe(a.ingredient.name, b.ingredient.name)
  }

  lemma StrLeIsTotalPreorder()
    ensures TotalPreorder(StrLe)
  {
    forall a, b ensures StrLe(a, b) || StrLe(b, a) { StrLeTotal(a, b); }
    forall a, b, c | StrLe(a, b) && StrLe(b, c) ensures StrLe(a, c) { StrLeTransitive(a, b, c); }
  }

  lemma ByNameIsTotalPreorder()
    ensures TotalPreorder(ByName)
  {
    forall a, b ensures ByName(a, b) || ByName(b, a) {
      StrLeTotal(a.ingredient.name, b.ingredient.name);
    }
    forall a, b, c | ByName(a, b) && ByName(b, c) ensures ByName(a, c) {
      StrLeTransitive(a.ingredient.name, b.ingredient.name, c.ingredient.name);
    }
  }

  /** Category names in ascending order (`sorted(categories.keys())`). */
  function SortNames(names: seq<string>): (r: seq<string>)
    ensures Sorted(r, StrLe) && multiset(r) == multiset(names) && |r| == |names|
  {
    StrLeIsTotalPreorder();
    Sort(names, StrLe)
  }

  /** Items in ascending order of ingredient name. */
  function SortByName(items: seq<ShoppingItem>): (r: seq<ShoppingItem>)
    ensures Sorted(r, ByName) && multiset(r) == multiset(items) && |r| == |items|
  {
    ByNameIsTotalPreorder();
    Sort(items, ByName)
  }

  /** No element occurs twice. */
  predicate Distinct<T(==)>(s: seq<T>) {
    forall i, j :: 0 <= i < j < |s| ==> s[i] != s[j]
  }

  lemma {:induction false} DistinctCountAtMostOne<T>(s: seq<T>, x: T)
    requires Distinct(s)
    ensures multiset(s)[x] <= 1
    decreases |s|
  {
    if s != [] {
      var s' := s[1..];
      assert s == [s[0]] + s';
      assert Distinct(s');
      DistinctCountAtMostOne(s', x);
      if s[0] == x {
        assert x !in s';
      }
    }
  }

  /** A permutation of a sequence without repetitions has none either. */
  lemma PermutationKeepsDistinct<T>(a: seq<T>, b: seq<T>)
    requires Distinct(a) && multiset(a) == multiset(b)
    ensures Distinct(b)
  {
    forall i, j | 0 <= i < j < |b| ensures b[i] != b[j] {
      if b[i] == b[j] {
        var x := b[i];
        assert b == b[..j] + b[j..];
        assert x in multiset(b[..j]) && x in multiset(b[j..]);
        assert multiset(b)[x] >= 2;
        DistinctCountAtMostOne(a, x);
      }
    }
  }

  /**
   * The grouping the shopping list promises: category names strictly ascending,
   * each category's items sorted by name and exactly the items of that
   * category, and every item's category present.
   */
  ghost predicate IsCategoryGrouping(groups: seq<CategoryGroup>, items: seq<ShoppingItem>) {
    && (forall i, j :: 0 <= i < j < |groups| ==> StrLe(groups[i].name, groups[j].name) && groups[i].name != groups[j].name)
    && (forall i :: 0 <= i < |groups| ==>
          && groups[i].items != []
          && Sorted(groups[i].items, ByName)
          && multiset(groups[i].items) == multiset(InCategory(items, groups[i].name)))
    && (forall x :: x in items ==> exists i :: 0 <= i < |groups| && groups[i].name == x.category)
  }

  /** Each item is in the list of its own category and in no other list. */
  lemma GroupingPlacesEachItemOnce(groups: seq<CategoryGroup>, items: seq<ShoppingItem>, x: ShoppingItem)
    requires IsCategoryGrouping(groups, items)
    requires x in items
    ensures exists i :: 0 <= i < |groups| && groups[i].name == x.category && x in groups[i].items
    ensures forall i :: 0 <= i < |groups| && x in groups[i].items ==> groups[i].name == x.category
    ensures forall i, j :: 0 <= i < |groups| && 0 <= j < |groups| && x in groups[i].items && x in groups[j].items ==> i == j
  {
    var i :| 0 <= i < |groups| && groups[i].name == x.category;
    GroupMembers(groups[i], items, x);
    forall m | 0 <= m < |groups| && x in groups[m].items ensures groups[m].name == x.category {
      GroupMembers(groups[m], items, x);
    }
  }

  /** A group holding exactly the items of its category holds `x` when `x` is an item of that category. */
  lemma GroupMembers(group: CategoryGroup, items: seq<ShoppingItem>, x: ShoppingItem)
    requires multiset(group.items) == multiset(InCategory(items, group.name))
    ensures x in group.items <==> x in items && x.category == group.name
  {
    assert x in group.items <==> x in multiset(group.items);
    assert x in InCategory(items, group.name) <==> x in multiset(InCategory(items, group.name));
  }

  lemma InCategoryAppend(items: seq<ShoppingItem>, x: ShoppingItem, c: string)
    ensures InCategory(items + [x], c) == InCategory(items, c) + (if x.category == c then [x] else [])
  {
    var all := items + [x];
    assert all[..|all| - 1] == items;
  }

  /** The categories of `items`, in order of first appearance. */
  function CategoryNames(items: seq<ShoppingItem>): seq<string> {
    if items == [] then []
    else
      var names := CategoryNames(items[..|items| - 1]);
      var c := items[|items| - 1].category;
      if c in names then names else names + [c]
  }

  /** The `categories` dictionary after adding `items` one by one. */
  function BucketsOf(items: seq<ShoppingItem>): map<string, seq<ShoppingItem>> {
    if items == [] then map[]
    else
      var before := BucketsOf(items[..|items| - 1]);
      var x := items[|items| - 1];
      before[x.category := (if x.category in before then before[x.category] else []) + [x]]
  }

  /** The names list each category of `items` once. */
  lemma {:induction false} CategoryNamesSpec(items: seq<ShoppingItem>)
    ensures Distinct(CategoryNames(items))
    ensures forall m :: 0 <= m < |items| ==> items[m].category in CategoryNames(items)
    ensures forall c :: c in CategoryNames(items) ==> exists m :: 0 <= m < |items| && items[m].category == c
    decreases |items|
  {
    if items != [] {
      var prefix := items[..|items| - 1];
      CategoryNamesSpec(prefix);
      assert forall m :: 0 <= m < |prefix| ==> items[m] == prefix[m];
    }
  }

  /**
   * The dictionary has one bucket per category name, holding exactly the
   * items of that category, never empty.
   */
  lemma {:induction false} BucketsOfSpec(items: seq<ShoppingItem>)
    ensures forall c :: c in BucketsOf(items) <==> c in CategoryNames(items)
    ensures forall c :: c in BucketsOf(items) ==> BucketsOf(items)[c] == InCategory(items, c) && BucketsOf(items)[c] != []
    decreases |items|
  {
    if items != [] {
      var prefix := items[..|items| - 1];
      var x := items[|items| - 1];
      BucketsOfSpec(prefix);
      assert items == prefix + [x];
      forall c | c in BucketsOf(items)
        ensures BucketsOf(items)[c] == InCategory(items, c)
      {
        InCategoryAppend(prefix, x, c);
        if c == x.category && c !in BucketsOf(prefix) {
          NotListedNotInCategory(prefix, c);
        }
      }
    }
  }

  /** A category that is not among the names has no items. */
  lemma NotListedNotInCategory(items: seq<ShoppingItem>, c: string)
    requires c !in CategoryNames(items)
    ensures InCategory(items, c) == []
  {
    CategoryNamesSpec(items);
  }

  lemma BucketStep(items: seq<ShoppingItem>, x: ShoppingItem)
    ensures x.category in BucketsOf(items) <==> x.category in CategoryNames(items)
    ensures CategoryNames(items + [x]) ==
            if x.category in CategoryNames(items) then CategoryNames(items) else CategoryNames(items) + [x.category]
    ensures BucketsOf(items + [x]) ==
            BucketsOf(items)[x.category := (if x.category in BucketsOf(items) then BucketsOf(items)[x.category] else []) + [x]]
  {
    var all := items + [x];
    assert all[..|all| - 1] == items;
    BucketsOfSpec(items);
  }

  /** The first loop of the `categories` block: one bucket per category, in order of appearance. */
  method BucketByCategory(items: seq<ShoppingItem>) returns (names: seq<string>, buckets: map<string, seq<ShoppingItem>>)
    ensures names == CategoryNames(items) && buckets == BucketsOf(items)
  {
    buckets := map[];
    names := [];
    var i := 0;
    while i < |items|
      invariant 0 <= i <= |items|
      invariant names == CategoryNames(items[..i]) && buckets == BucketsOf(items[..i])
    {
      names, buckets := AddToBucket(names, buckets, items[..i], items[i]);
      assert items[..i + 1] == items[..i] + [items[i]];
      i := i + 1;
    }
    assert items[..i] == items;
  }

  /** The body of the grouping loop: `categories[item['category']].append(item)`. */
  method AddToBucket(names0: seq<string>, buckets0: map<string, seq<ShoppingItem>>, ghost done: seq<ShoppingItem>, item: ShoppingItem)
    returns (names: seq<string>, buckets: map<string, seq<ShoppingItem>>)
    requires names0 == CategoryNames(done) && buckets0 == BucketsOf(done)
    ensures names == CategoryNames(done + [item]) && buckets == BucketsOf(done + [item])
  {
    BucketStep(done, item);
    names, buckets := names0, buckets0;
    var bucket := if item.category in buckets then buckets[item.category] else [];
    if item.category !in buckets {
      names := names + [item.category];
    }
    buckets := buckets[item.category := bucket + [item]];
  }

  /** The groups for `names`, in order: each name with its bucket sorted by ingredient name. */
  function GroupsFor(names: seq<string>, buckets: map<string, seq<ShoppingItem>>): seq<CategoryGroup>
    requires forall c :: c in names ==> c in buckets
  {
    if names == [] then []
    else GroupsFor(names[..|names| - 1], buckets)
         + [CategoryGroup(names[|names| - 1], SortByName(buckets[names[|names| - 1]]))]
  }

  lemma {:induction false} GroupsForSpec(names: seq<string>, buckets: map<string, seq<ShoppingItem>>)
    requires forall c :: c in names ==> c in buckets
    ensures |GroupsFor(names, buckets)| == |names|
    ensures forall m :: 0 <= m < |names| ==> GroupsFor(names, buckets)[m] == CategoryGroup(names[m], SortByName(buckets[names[m]]))
  {
    if names != [] {
      var before := names[..|names| - 1];
      GroupsForSpec(before, buckets);
      forall m | 0 <= m < |names| - 1
        ensures GroupsFor(names, buckets)[m] == CategoryGroup(names[m], SortByName(buckets[names[m]]))
      {
        assert before[m] == names[m];
      }
    }
  }

  /** The last loop of the `categories` block: each category's items sorted by name. */
  method SortEachGroup(names: seq<string>, buckets: map<string, seq<ShoppingItem>>) returns (groups: seq<CategoryGroup>)
    requires forall c :: c in names ==> c in buckets
    ensures |groups| == |names|
    ensures forall m :: 0 <= m < |groups| ==> groups[m] == CategoryGroup(names[m], SortByName(buckets[names[m]]))
  {
    groups := [];
    var j := 0;
    while j < |names|
      invariant 0 <= j <= |names|
      invariant groups == GroupsFor(names[..j], buckets)
    {
      var c := names[j];
      assert names[..j + 1][..j] == names[..j];
      groups := groups + [CategoryGroup(c, SortByName(buckets[c]))];
      j := j + 1;
    }
    assert names[..j] == names;
    GroupsForSpec(names, buckets);
  }

  /** The `categories` block: group items by category, then sort names and each list. */
  method GroupByCategory(items: seq<ShoppingItem>) returns (groups: seq<CategoryGroup>)
    ensures IsCategoryGrouping(groups, items)
  {
    var names, buckets := BucketByCategory(items);
    CategoryNamesSpec(items);
    BucketsOfSpec(items);
    var sortedNames := SortNames(names);
    assert forall c :: c in sortedNames ==> c in buckets by {
      forall c | c in sortedNames ensures c in buckets {
        assert c in multiset(names);
      }
    }
    groups := SortEachGroup(sortedNames, buckets);
    GroupsFromBuckets(items, sortedNames, groups);
  }

  /** Sorted category names with each bucket sorted by name form the promised grouping. */
  lemma GroupsFromBuckets(items: seq<ShoppingItem>, sortedNames: seq<string>, groups: seq<CategoryGroup>)
    requires sortedNames == SortNames(CategoryNames(items))
    requires forall c :: c in sortedNames ==> c in BucketsOf(items)
    requires |groups| == |sortedNames|
    requires forall m :: 0 <= m < |groups| ==> groups[m] == CategoryGroup(sortedNames[m], SortByName(BucketsOf(items)[sortedNames[m]]))
    ensures IsCategoryGrouping(groups, items)
  {
    NamesAscending(items, sortedNames);
    forall m | 0 <= m < |groups|
      ensures && groups[m].items != []
              && Sorted(groups[m].items, ByName)
              && multiset(groups[m].items) == multiset(InCategory(items, groups[m].name))
    {
      GroupContents(items, sortedNames[m]);
    }
    GroupsCover(items, sortedNames, groups);
  }

  lemma NamesAscending(items: seq<ShoppingItem>, sortedNames: seq<string>)
    requires sortedNames == SortNames(CategoryNames(items))
    ensures forall i, j :: 0 <= i < j < |sortedNames| ==> StrLe(sortedNames[i], sortedNames[j]) && sortedNames[i] != sortedNames[j]
  {
    CategoryNamesSpec(items);
    PermutationKeepsDistinct(CategoryNames(items), sortedNames);
  }

  lemma GroupContents(items: seq<ShoppingItem>, c: string)
    requires c in BucketsOf(items)
    ensures var g := SortByName(BucketsOf(items)[c]);
            g != [] && Sorted(g, ByName) && multiset(g) == multiset(InCategory(items, c))
  {
    BucketsOfSpec(items);
    var bucket := BucketsOf(items)[c];
    assert bucket[0] in multiset(SortByName(bucket));
  }

  lemma GroupsCover(items: seq<ShoppingItem>, sortedNames: seq<string>, groups: seq<CategoryGroup>)
    requires sortedNames == SortNames(CategoryNames(items))
    requires |groups| == |sortedNames|
    requires forall m :: 0 <= m < |groups| ==> groups[m].name == sortedNames[m]
    ensures forall x :: x in items ==> exists m :: 0 <= m < |groups| && groups[m].name == x.category
  {
    CategoryNamesSpec(items);
    forall x | x in items ensures exists m :: 0 <= m < |groups| && groups[m].name == x.category {
      var k :| 0 <= k < |items| && items[k] == x;
      assert x.category in multiset(sortedNames);
      var m :| 0 <= m < |sortedNames| && sortedNames[m] == x.category;
      assert groups[m].name == x.category;
    }
  }

  // ------------------------------------------------------------ shopping list

  /** The result of `calculate_shopping_list`. */
  datatype ShoppingList = ShoppingList(camp: Camp, items: seq<ShoppingItem>, categories: seq<CategoryGroup>,
                                       totalItems: nat, totalRecipes: nat)

  /** `set(mp.recipe_id for mp in meal_plans)`: the distinct recipe ids, `None` included. */
  function RecipeIdSet(plans: seq<MealPlan>): set<Option<int>> {
    set i | 0 <= i < |plans| :: plans[i].recipeId
  }

  /** The item for key `k`: its total over `lines`, converted, with the key's first ingredient. */
  function ItemForKey(lines: seq<ScaledIngredient>, k: Key): ShoppingItem
    requires k in KeysInOrder(lines)
  {
    ItemFor(Entry(FirstIngredient(lines, k), k.unit, Total(lines, k)))
  }

  /**
   * `calculate_shopping_list` over the fetched camp (absent when not found)
   * and its meal plans.
   */
  method CalculateShoppingList(camp: Option<Camp>, plans: seq<MealPlan>) returns (r: Result<ShoppingList, Error>)
    ensures camp.None? ==> r == Failure(CampNotFound)
    ensures camp.Some? ==> (r.Failure? <==> !Scalable(plans))
    ensures camp.Some? && r.Failure? ==> r.error == InvalidBaseServings
    ensures r.Success? ==>
      var lines := Contributions(plans, camp.value.participantCount);
      var keys := KeysInOrder(lines);
      && r.value.camp == camp.value
      && |r.value.items| == |keys| == r.value.totalItems
      && (forall i :: 0 <= i < |keys| ==> r.value.items[i] == ItemForKey(lines, keys[i]))
      && IsCategoryGrouping(r.value.categories, r.value.items)
      && r.value.totalRecipes == |RecipeIdSet(plans)|
  {
    if camp.None? {
      return Failure(CampNotFound);
    }
    var aggregated := Aggregate(plans, camp.value.participantCount);
    if aggregated.Failure? {
      return Failure(aggregated.error);
    }
    EntriesOfSpec(Contributions(plans, camp.value.participantCount));
    var items := BuildItems(aggregated.value);
    ItemsFollowKeys(aggregated.value, Contributions(plans, camp.value.participantCount), items);
    var categories := GroupByCategory(items);
    var recipeIds := set i | 0 <= i < |plans| :: plans[i].recipeId;
    r := Success(ShoppingList(camp.value, items, categories, |items|, |recipeIds|));
  }

  lemma ItemsFollowKeys(agg: Aggregation, lines: seq<ScaledIngredient>, items: seq<ShoppingItem>)
    requires agg.order == KeysInOrder(lines) && agg.entries == EntriesOf(lines)
    requires forall k :: k in agg.order ==> k in agg.entries
    requires |items| == |agg.order|
    requires forall i :: 0 <= i < |items| ==> items[i] == ItemFor(agg.entries[agg.order[i]])
    ensures |items| == |KeysInOrder(lines)|
    ensures forall i :: 0 <= i < |items| ==> items[i] == ItemForKey(lines, KeysInOrder(lines)[i])
  {
    EntriesOfSpec(lines);
  }

  /** There is exactly one item per aggregation key: items have pairwise different keys, covering every line. */
  lemma OneItemPerKey(lines: seq<ScaledIngredient>, items: seq<ShoppingItem>)
    requires |items| == |KeysInOrder(lines)|
    requires forall i :: 0 <= i < |items| ==> items[i] == ItemForKey(lines, KeysInOrder(lines)[i])
    ensures forall i :: 0 <= i < |items| ==> ItemKey(items[i]) == KeysInOrder(lines)[i]
    ensures forall i, j :: 0 <= i < j < |items| ==> ItemKey(items[i]) != ItemKey(items[j])
    ensures forall l :: 0 <= l < |lines| ==> exists i :: 0 <= i < |items| && ItemKey(items[i]) == KeyOf(lines[l])
    ensures forall i :: 0 <= i < |items| ==> items[i].originalQuantity == Total(lines, ItemKey(items[i]))
  {
    var keys := KeysInOrder(lines);
    KeysInOrderSpec(lines);
    forall i | 0 <= i < |items| ensures ItemKey(items[i]) == keys[i] {
      FirstIngredientSpec(lines, keys[i]);
    }
    forall l | 0 <= l < |lines|
      ensures exists i :: 0 <= i < |items| && ItemKey(items[i]) == KeyOf(lines[l])
    {
      var i :| 0 <= i < |keys| && keys[i] == KeyOf(lines[l]);
      assert ItemKey(items[i]) == keys[i];
    }
  }
}
