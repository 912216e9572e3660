/**
 * The database rows the planner's core reads, as value snapshots
 * (app/models.py and the nullable meal-plan recipe of the migration).
 * Dates are day numbers; ids are the primary keys.
 */
module Entities {
  import opened Wrappers

  datatype Ingredient = Ingredient(id: int, name: string, unit: string, category: string)

  /** One ingredient line of a recipe: a quantity in a unit, written for `baseServings` people. */
  datatype RecipeIngredient = RecipeIngredient(ingredient: Ingredient, quantity: real, unit: string)

  /** A recipe; `allergens` are the ids of the allergens attached to it. */
  datatype Recipe = Recipe(id: int, name: string, baseServings: int, ingredients: seq<RecipeIngredient>, allergens: seq<int>)

  /** A camp runs from `startDate` to `endDate`, both days included. */
  datatype Camp = Camp(id: int, name: string, startDate: int, endDate: int, participantCount: int)

  datatype MealType = Breakfast | Lunch | Dinner

  /**
   * A meal-plan row. A row with no recipe id is an explicit "no meal" entry;
   * `recipe` is the loaded relationship, absent when the id refers to no recipe.
   */
  datatype MealPlan = MealPlan(id: int, campId: int, date: int, mealType: MealType, recipeId: Option<int>, recipe: Option<Recipe>, notes: string)

  /** Python truthiness of `meal_plan.recipe_id`: neither `None` nor `0`. */
  predicate HasRecipeId(plan: MealPlan) {
    plan.recipeId.Some? && plan.recipeId.value != 0
  }
}
