# Kuechenplaner core in Dafny

Kuechenplaner plans the meals of a holiday camp: recipes with base servings,
a meal plan of breakfast, lunch and dinner rows per camp day, a shopping
list summed over all planned recipes, camp statistics, an Excel importer for
recipes and a fuzzy ingredient search. This project models the computational
core of that system and proves what it promises:

- `unit_converter.dfy` (module `UnitConverter`): the threshold conversion
  rules (g → kg, ml → L, mg → g at 1000 with factor 0.001), custom rules
  merged over the built-in ones, the magnitude-dependent rounding of a
  converted quantity, the unit alias table, and the stored custom rule set
  as a class whose add and remove methods update it in place.
- `calculation.dfy` (module `Calculation`): `scale_recipe` and
  `calculate_shopping_list`. Each meal plan with a recipe contributes its
  scaled recipe. The scaled lines are summed per (ingredient id, unit) in
  first-seen order. Each sum goes through the unit converter. The items are
  grouped by category in ascending category order, each group sorted by
  ingredient name.
- `statistics.dfy` (module `Statistics`): `get_camp_statistics`. It covers
  meal counts per type, distinct recipe ids, expected and planned meals,
  warnings, the completion percentage and the day-by-day overview.
- `excel_import.dfy` (module `ExcelImport`): the keyword chain of
  `guess_ingredient_category` and the sheet rules of
  `import_recipe_from_sheet`:
  - the name comes from A1 and the base servings from A4;
  - ingredient rows run from 5 to 30, stopping at an empty D cell and skipping rows without a usable quantity;
  - instruction lines come from row 31 onward.
- `ingredient_search.dfy` (module `IngredientSearch`):
  `search_ingredients_fuzzy`. It covers the exact, prefix, substring and fuzzy
  scores, the threshold of 60, the ranking by score, usage and name, and the
  Python slice `[:limit]`.
- Supporting modules:
  - `wrappers.dfy`: Option and Result.
  - `text.dfy`: Latin-1 lower-casing, substring search, strip, replace, join and string order.
  - `sorting.dfy`: an insertion sort proved sorted and a permutation; it stands for `sorted` and `list.sort`.
  - `rounding.dfy`: `round(x, n)` on reals.
  - `entities.dfy`: the records the core reads.

Where the code and the documented behaviour differ, the model follows the code:
- `planned_meals` is the number of meal-plan rows, not the number of filled slots. Two rows in one slot count twice, and a completion above 100 % is possible (`Statistics.OverplannedCompletionAtLeastHundred`).
- `total_recipes` of the shopping list counts the distinct raw `recipe_id` values. A "no meal" row (`None`) and the id 0 are counted too, so it can exceed `unique_recipes` (`Statistics.TotalRecipesCountsFalsyIds`).
- The egg test `'ei' in name` also matches words such as "Reis", so rice is filed under "Milchprodukte" (`ExcelImport.RiceIsDairy`).

## Model

| member | source | states |
|---|---|---|
| UnitConverter.MergeRules | app/services/unit_converter.py:27-30 | the merged table has the built-in and the custom units as keys; a custom rule overrides the built-in rule of its unit, every other built-in rule is kept |
| UnitConverter.ConvertUnit | app/services/unit_converter.py:14-59 | a conversion happens exactly when the unit has a merged rule and the quantity reaches its threshold; then the unit is the rule's target, the original quantity and unit are reported and the quantity is the rounded product; otherwise the unit is kept, nothing original is reported and the quantity is the integer for a whole quantity, else the quantity rounded to 2 places |
| UnitConverter.ConvertedPrecision | app/services/unit_converter.py:36-44 | a converted quantity has 1 decimal at 10 and above, 2 between 1 and 10, 3 below 1, and lies within half a unit of that last place of the exact product |
| UnitConverter.ConvertedReconstructs | app/services/unit_converter.py:36-51 | dividing a converted quantity by a positive factor gives back the original quantity up to the rounding error divided by the factor |
| UnitConverter.DefaultMetricConversion | app/services/unit_converter.py:8-12 | with the built-in rules, g, ml and mg from 1000 on become kg, L and g, scaled by 0.001 and rounded by magnitude, with the original kept |
| UnitConverter.UnruledUnitKept | app/services/unit_converter.py:32-59 | with the built-in rules, any unit other than g, ml and mg is never converted and is returned unchanged |
| UnitConverter.CustomRuleWins | app/services/unit_converter.py:27-30 | a unit with a custom rule converts as if that rule were the only one |
| UnitConverter.DefaultRuleKept | app/services/unit_converter.py:27-30 | a unit without a custom rule converts as with the built-in rules alone |
| UnitConverter.WholeQuantityUnchanged | app/services/unit_converter.py:56 | an unconverted whole quantity comes back as the equal integer |
| UnitConverter.GramsToKilograms | app/services/unit_converter.py:33-52 | 1200 g become 1.2 kg with the original 1200 g reported |
| UnitConverter.KilogramsKept | app/services/unit_converter.py:54-59 | 4.0 kg come back as the integer 4 kg, not converted |
| UnitConverter.ThresholdBoundary | app/services/unit_converter.py:35 | 999.5 g stay in grams, while 1000 g become exactly 1.0 kg: the threshold is inclusive |
| UnitConverter.NormalizeUnitName | app/services/unit_converter.py:103-118 | the result is the given name or one of the canonical names g, kg, L, ml, Stück |
| UnitConverter.NormalizeIgnoresCase | app/services/unit_converter.py:118 | two spellings of a known alias that differ only in letter case normalise to the same canonical name |
| UnitConverter.NormalizeKeepsUnknown | app/services/unit_converter.py:118 | a name that is no alias in lower case is returned unchanged, case included |
| UnitConverter.NormalizeIdempotent | app/services/unit_converter.py:103-118 | normalising a normalised name changes nothing |
| UnitConverter.CanonicalNamesFixed | app/services/unit_converter.py:105-116 | every canonical name normalises to itself |
| UnitConverter.ConversionSettings.constructor | app/services/unit_converter.py:61-66 | the settings start with the stored custom rules |
| UnitConverter.ConversionSettings.AddCustomConversion | app/services/unit_converter.py:72-80 | the stored rules afterwards are the old ones with the rule for the unit set to the new threshold, target and factor |
| UnitConverter.ConversionSettings.RemoveCustomConversion | app/services/unit_converter.py:82-87 | the rule of the unit is gone afterwards; the rules are saved exactly when the unit had one, and are unchanged otherwise |
| UnitConverter.ConversionSettings.AllConversions | app/services/unit_converter.py:89-94 | the table covers the built-in and the stored units, a stored rule overrides the built-in one, and a built-in rule without a stored override is kept |
| UnitConverter.AddedRuleInEffect | app/services/unit_converter.py:72-80 | after adding a rule for a unit, the merged table maps that unit to that rule and every other unit as before |
| UnitConverter.RemovedRuleRestoresDefault | app/services/unit_converter.py:82-87 | after removing the rule of a unit, only that unit changes in the merged table, and its built-in rule, if any, is back |
| Rounding.RoundToBound | app/services/unit_converter.py:40-44 | rounding to n places moves a value by at most half a unit of the n-th place |
| Rounding.RoundToIdempotent | app/services/unit_converter.py:40-44 | a rounded value has at most n decimals |
| Calculation.ScaleLinesSpec | app/services/calculation.py:16-24 | one scaled line per recipe line, in order, with the same ingredient and unit, the original quantity and unit kept and the quantity multiplied by the factor |
| Calculation.ScaleRecipe | app/services/calculation.py:9-32 | fails with an invalid-base-servings error exactly when the base servings are not positive; otherwise returns the recipe, the factor target/base, both servings counts and the scaled lines |
| Calculation.ScaleToBaseIsIdentity | app/services/calculation.py:14-20 | scaling a recipe to its own base servings leaves every quantity as it is |
| Calculation.ScaleIsProportional | app/services/calculation.py:14-20 | scaled quantities of one line for two targets stand in the ratio of the targets |
| Calculation.KeysInOrderSpec | app/services/calculation.py:59-66 | the aggregation keys are pairwise distinct, every scaled line's (ingredient id, unit) is one, and each comes from a line |
| Calculation.TotalOfAbsentKey | app/services/calculation.py:66 | a key no line has sums to 0 |
| Calculation.FirstIngredientSpec | app/services/calculation.py:62-64 | the ingredient stored under a key is that of the first line with the key, and its id is the key's |
| Calculation.EntriesOfSpec | app/services/calculation.py:45-66 | the aggregated dictionary has an entry exactly for each key, holding the first ingredient, the unit and the sum of that key's quantities |
| Calculation.AggregateStep | app/services/calculation.py:59-66 | adding one scaled line appends its key if new and adds its quantity to its entry |
| Calculation.AddLines | app/services/calculation.py:54-66 | the inner loop leaves the keys and entries of all lines seen so far |
| Calculation.Aggregate | app/services/calculation.py:45-66 | fails exactly when a plan with a recipe has non-positive base servings; otherwise returns the keys and entries of all contributed lines |
| Calculation.TotalAppend | app/services/calculation.py:66 | the sum over two line lists is the sum of the sums |
| Calculation.ContributionsAppend | app/services/calculation.py:47-57 | the lines of two plan lists are the lines of the first followed by those of the second |
| Calculation.ScalableUnderPermutation | app/services/calculation.py:47-52 | whether the calculation fails does not depend on the order of the meal plans |
| Calculation.TotalsIndependentOfPlanOrder | app/services/calculation.py:45-66 | the sum per key does not depend on the order of the meal plans |
| Calculation.NoMealPlansContributeNothing | app/services/calculation.py:48-50 | dropping the "no meal" rows leaves the contributed lines unchanged |
| Calculation.ItemFor | app/services/calculation.py:70-80 | an item carries the ingredient, its category, the summed quantity and unit as originals, and the quantity and unit the built-in conversion gives |
| Calculation.BuildItems | app/services/calculation.py:69-80 | one item per aggregated key, in key order, each the conversion of its entry |
| Calculation.InCategory | app/services/calculation.py:83-85 | a category bucket holds only items of that category and every item of it |
| Calculation.SortNames | app/services/calculation.py:89 | the category names come out sorted, as a permutation |
| Calculation.SortByName | app/services/calculation.py:90-93 | the items of a category come out sorted by ingredient name, as a permutation |
| Calculation.GroupingPlacesEachItemOnce | app/services/calculation.py:82-93 | in a category grouping each item lies in the group of its own category and in no other group |
| Calculation.CategoryNamesSpec | app/services/calculation.py:83-85 | the bucket names are distinct, include every item's category and only those |
| Calculation.BucketsOfSpec | app/services/calculation.py:83-85 | the buckets exist exactly for those names, and each holds the items of its category in item order and is not empty |
| Calculation.BucketStep | app/services/calculation.py:84-85 | appending an item appends it to its category's bucket, creating the bucket when new |
| Calculation.BucketByCategory | app/services/calculation.py:82-85 | the grouping loop builds exactly those names and buckets |
| Calculation.SortEachGroup | app/services/calculation.py:88-93 | one group per name, in name order, each holding its bucket sorted by ingredient name |
| Calculation.GroupByCategory | app/services/calculation.py:82-93 | the categories are strictly ascending; each group is non-empty, sorted by name and a permutation of its category's items; every item's category has a group |
| Calculation.NamesAscending | app/services/calculation.py:89 | the sorted category names are strictly ascending |
| Calculation.GroupContents | app/services/calculation.py:90-93 | every sorted group is non-empty, sorted by name and a permutation of its category's items |
| Calculation.GroupsCover | app/services/calculation.py:88-93 | every item's category has a group |
| Calculation.CalculateShoppingList | app/services/calculation.py:34-101 | fails when the camp is missing, or when some planned recipe has non-positive base servings, and only then. Otherwise it returns one converted item per (ingredient id, unit) key in first-seen order with the key's total, their count, the category grouping, and the number of distinct raw recipe ids |
| Calculation.OneItemPerKey | app/services/calculation.py:69-80 | the items have pairwise distinct keys, every contributed line has its item, and each item's original quantity is its key's total |
| Statistics.MealCountsOfSpec | app/services/calculation.py:113-117 | the meal-count dictionary has a key for exactly the meal types that occur, with the number of rows of that type |
| Statistics.TypeCountsSum | app/services/calculation.py:116-117 | the counts of the three meal types add up to the number of rows |
| Statistics.MealCountsSumToPlans | app/services/calculation.py:113-117 | the values of the meal-count dictionary add up to the number of rows |
| Statistics.RecipeIdsSpec | app/services/calculation.py:114-120 | the collected recipe ids are distinct and are exactly the truthy recipe ids of the rows |
| Statistics.CountMeals | app/services/calculation.py:113-120 | the counting loop returns that dictionary and those ids |
| Statistics.FalsyRecipeIds | app/services/calculation.py:100 | the raw ids left out of the truthy ids are only `None` and 0 |
| Statistics.TotalRecipesCountsFalsyIds | app/services/calculation.py:100 | the shopping list's recipe count is the statistics' unique count plus the falsy raw ids present, so it is strictly larger when any "no meal" row exists |
| Statistics.CountLackingSpec | app/services/calculation.py:134-139 | the allergen counter is the number of distinct recipe ids whose recipe exists and has no allergens |
| Statistics.CountWithoutAllergens | app/services/calculation.py:135-139 | the loop over the recipe ids returns that count |
| Statistics.WarningsSpec | app/services/calculation.py:129-142 | there is a missing-meals warning exactly when fewer meals are planned than expected, carrying the shortfall, and an allergen warning exactly when some recipe lacks allergens, carrying their number |
| Statistics.CompletionBound | app/services/calculation.py:183 | the completion is 0 without expected meals, otherwise within 0.05 of planned/expected·100, and never negative |
| Statistics.OverplannedCompletionAtLeastHundred | app/services/calculation.py:127 | with more rows than expected meals, the completion is at least 100 |
| Statistics.FourRowsOnOneDay | app/services/calculation.py:123-127 | four rows on a one-day camp give a completion of 133.3 |
| Statistics.PlansAtSpec | app/services/calculation.py:158-164 | a day's list for a meal type holds rows of that day and type only, and every such row |
| Statistics.DayMealsSpec | app/services/calculation.py:152-164 | a meal slot of a day is empty exactly when no row has that day and type; a filled slot lists only rows of that day and type; every row of the day is in its type's slot |
| Statistics.MealsPlannedCountsTypes | app/services/calculation.py:167 | the planned-meals count of a day is the number of filled slots, between 0 and 3 |
| Statistics.MealsPlannedOnDay | app/services/calculation.py:167 | it equals the number of meal types that have a row on that day |
| Statistics.DayEntrySpec | app/services/calculation.py:148-174 | day i of the overview has number i+1, the date start+i, that date's meals and a planned count of the meal types with a row on that date |
| Statistics.CollectDay | app/services/calculation.py:152-164 | the loop over the rows builds that day's meal slots |
| Statistics.OverviewEntry | app/services/calculation.py:149-174 | one loop round builds that day's overview entry |
| Statistics.DailyOverview | app/services/calculation.py:144-174 | the overview has one entry per camp day (none for a non-positive day count), entry i being day i |
| Statistics.GetCampStatistics | app/services/calculation.py:103-186 | no statistics exactly when the camp is missing. Otherwise: the total days from the dates, three expected meals per day, the planned meals as the row count, the unique truthy recipe ids, the meal counts, the completion, the warnings and the daily overview |
| ExcelImport.GuessCategory | excel_import.py:124-202 | the guess is always one of the eleven category names |
| ExcelImport.GuessCategoryIsFirstMatch | excel_import.py:124-202 | the guess is the category of the first keyword group, in the fixed order, with a keyword inside the lower-cased name, and "Sonstiges" if none has |
| ExcelImport.FirstThreeGroups | excel_import.py:129-149 | vegetables are tested first, then fruit, then meat |
| ExcelImport.MiddleThreeGroups | excel_import.py:151-166 | then fish, dairy, and the egg test, which also yields "Milchprodukte" |
| ExcelImport.NextThreeGroups | excel_import.py:168-185 | then grain, baking goods, and oils and fats |
| ExcelImport.LastTwoGroups | excel_import.py:187-202 | then spices, then canned goods, else "Sonstiges" |
| ExcelImport.EggGroupIsEggTest | excel_import.py:165 | the egg group matches exactly when "ei" or "eier" occurs in the name |
| ExcelImport.OtherIffNoKeyword | excel_import.py:201-202 | the guess is "Sonstiges" exactly when no keyword of any group occurs in the lower-cased name |
| ExcelImport.GuessIgnoresCase | excel_import.py:127 | names equal up to letter case get the same guess, and lower-casing first changes nothing |
| ExcelImport.PaprikaIsVegetable | excel_import.py:130-135 | "paprika" is also a spice keyword, yet "Paprika" is filed under vegetables because that group comes first |
| ExcelImport.RiceIsDairy | excel_import.py:164-173 | "reis" is a grain keyword, yet "Reis" is filed under "Milchprodukte" because the earlier egg test finds "ei" in it |
| ExcelImport.EggTestBeforeGrain | excel_import.py:164-166 | a name containing "ei" and no keyword of the first five groups is filed under "Milchprodukte", whatever grain keyword it holds |
| ExcelImport.TruncateToInt | excel_import.py:36 | `int()` of a number truncates toward zero |
| ExcelImport.BaseServings | excel_import.py:31-36 | an empty, falsy or non-numeric A4 gives 30; a nonzero integer is taken as is; a nonzero float is truncated; True counts as 1 |
| ExcelImport.ParseRowSpec | excel_import.py:43-72 | a row yields nothing exactly when its quantity cell is falsy or does not parse. Otherwise the line has: the parsed quantity; the stripped unit, or "Stück" for a falsy unit cell; the stripped name; and the guessed category |
| ExcelImport.ScanFromSpec | excel_import.py:42-63 | at most 26 ingredient lines are read, and a line is read exactly when some row before the first empty ingredient cell parses to it |
| ExcelImport.ReadRow | excel_import.py:43-72 | reading one row gives that row's line or nothing |
| ExcelImport.ScanIngredientRows | excel_import.py:41-88 | the row loop with its stop and skip rules returns the lines of rows 5 to 30 in order |
| ExcelImport.InstructionLinesSpec | excel_import.py:91-95 | there is at most one instruction line per row from 31 to the last row, and none exactly when all those A cells are falsy |
| ExcelImport.CollectInstructions | excel_import.py:90-97 | the instructions are absent without lines, otherwise the stripped lines joined by newlines |
| ExcelImport.ImportRecipeFromSheet | excel_import.py:19-97 | a sheet is skipped exactly when A1 is falsy. Otherwise the recipe has the A1 name, the A4 base servings, the ingredient lines and the instructions |
| IngredientSearch.UsageOf | app/crud.py:215 | a missing usage count counts as 0, a present one as itself |
| IngredientSearch.Score | app/crud.py:201-208 | the score is the maximum of the four: at least the fuzzy score, 100 for an exact match, at least 95 for a prefix and at least 85 for a substring; and each of 100, 95 and 85 is reached only through its own test or an equal fuzzy score |
| IngredientSearch.QualifyingSpec | app/crud.py:198-216 | the kept results are exactly the candidates whose best score is at least 60, each with its score and usage |
| IngredientSearch.ScoreCandidates | app/crud.py:195-216 | the scoring loop keeps exactly those results in query order |
| IngredientSearch.RankLeIsTotalPreorder | app/crud.py:219 | the sort key order (score down, usage down, name up) is total and transitive |
| IngredientSearch.Rank | app/crud.py:219 | the results come out in that order, as a permutation |
| IngredientSearch.SliceEnd | app/crud.py:222 | `[:limit]` keeps `limit` elements at most, and drops `-limit` from the end for a negative limit |
| IngredientSearch.SearchIngredientsFuzzy | app/crud.py:177-222 | an empty query finds nothing. Otherwise the result is the ingredients of the first `[:limit]` ranked results, in rank order |
| IngredientSearch.AtMostLimit | app/crud.py:222 | no more than a non-negative limit of ingredients is returned |
| IngredientSearch.RankedSpec | app/crud.py:211-219 | every ranked result scores at least 60 and comes from a candidate with that score and usage; the results are ordered by score, usage and name; they are a permutation of the kept results |
| IngredientSearch.QualifiedAreRanked | app/crud.py:211-219 | every candidate scoring at least 60 is among the ranked results |
| IngredientSearch.ExactNameScoresHundred | app/crud.py:196-208 | a name equal to the query up to letter case scores 100 |
| Text.Lower | app/crud.py:196-199 | lower-casing keeps the length and lower-cases each character |
| Text.ContainsAt | app/crud.py:204 | the substring test holds exactly when the query occurs at some position |
| Text.Strip | excel_import.py:69 | the result is the piece of the input left after removing every leading and trailing character that Python counts as white space (including the no-break space and the other Unicode spaces); it neither starts nor ends with white space |
| Text.NoBreakSpaceStripped | excel_import.py:69 | a name typed with trailing no-break spaces becomes the bare name |
| Text.ReplaceChar | excel_import.py:59 | every comma becomes a point and nothing else changes |
| Text.StrLeTotal | app/services/calculation.py:89 | the string order compares any two names |
| Text.StrLeTransitive | app/services/calculation.py:89 | the string order is transitive |
| Sorting.Sort | app/services/calculation.py:89-93 | the sorted list is ordered by the given total preorder and is a permutation of the input |

## Left out

- Python's `round` rounds half to even on binary floats. The model rounds half up on exact reals, and every quantity is a real, not a float.
- `str.lower` is modelled for the Basic Latin and Latin-1 capitals (A-Z, À-Þ); other case mappings are not.
- `format_quantity_unit` is display formatting and is not part of this model.
- `load_custom_conversions`, `save_custom_conversions` and the settings table are left out. `ConversionSettings` holds the stored rule map in memory, and a failed load is not modelled.
- The database queries (`crud.get_camp`, `crud.get_meal_plans_for_camp`, `crud.get_recipe`, the usage-count join) become inputs: an optional camp, a list of meal plans with their loaded recipes, a map of recipes by id, and candidates with usage counts.
- `thefuzz.fuzz.partial_ratio` is a parameter returning a score from 0 to 100.
- openpyxl is left out. A sheet is a map from (column, row) to a cell, and `float()` on a text cell and `str()` on a float cell are parameters.
- Creating ingredients and the recipe in the database while importing (`get_or_create_ingredient`, `create_recipe`, the error handling around them) is left out. The importer returns what it would save.
- Dates are day numbers, with `timedelta(days=n)` as addition.
- Logging and console output are left out.
- Statistics.Warnings: the warnings are values carrying their numbers, not the German message strings.
- Statistics.RecipeIds: a Python `set` is iterated in an unspecified order. The model iterates the distinct ids in first-seen order, which changes no count.
- Calculation.PlanLines gives no lines for a recipe with non-positive base servings. In that case the whole calculation fails, so those lines are never part of a result.
- IngredientSearch.Rank, Calculation.SortByName, Calculation.GroupByCategory and Calculation.CalculateShoppingList: stability of Python's sort is not proved. Elements with equal keys may come out in another order. In a shopping list group this is the order of two items with the same ingredient name (one ingredient in two units); for `Rank` no two results tie, because ingredient names are unique.
- `results.sort(...)` sorts a list in place; the model assigns the sorted copy.
