/**
 * Threshold-based unit conversion (app/services/unit_converter.py): a rule
 * table keyed by unit name, custom rules merged over the built-in ones, the
 * magnitude-dependent rounding of converted quantities, the unit alias table,
 * and the stored custom rule set that the settings page edits.
 */
module UnitConverter {
  import opened Wrappers
  import opened Text
  import opened Rounding

  /** A conversion rule: at or above `threshold`, multiply by `factor` and relabel as `target`. */
  datatype Rule = Rule(threshold: real, target: string, factor: real)

  /** A returned quantity: Python returns an `int` for a whole unconverted quantity, a `float` otherwise. */
  datatype Amount = Whole(n: int) | Decimal(x: real) {
    function Value(): real {
      match this
      case Whole(n) => n as real
      case Decimal(x) => x
    }
  }

  /** The quantity and unit before a conversion fired. */
  datatype Original = Original(quantity: real, unit: string)

  /** The dictionary `convert_unit` returns; `original` is present only when a rule fired. */
  datatype Conversion = Conversion(quantity: Amount, unit: string, wasConverted: bool, original: Option<Original>)

  /** The built-in rules: g -> kg, ml -> L, mg -> g, each at 1000 with factor 0.001. */
  const DefaultConversions: map<string, Rule> :=
    map["g" := Rule(1000.0, "kg", 0.001),
        "ml" := Rule(1000.0, "L", 0.001),
        "mg" := Rule(1000.0, "g", 0.001)]

  /** The built-in table updated with the custom rules. */
  function MergeRules(custom: map<string, Rule>): (rules: map<string, Rule>)
    ensures rules.Keys == DefaultConversions.Keys + custom.Keys
    ensures forall u :: u in custom ==> rules[u] == custom[u]
    ensures forall u :: u in DefaultConversions && u !in custom ==> rules[u] == DefaultConversions[u]
  {
    DefaultConversions + custom
  }

  /** `quantity != int(quantity)` is false: the quantity has no fractional part. */
  predicate IsWhole(quantity: real) {
    quantity.Floor as real == quantity
  }

  /** Decimal places kept after a conversion: 1 from 10 up, 2 from 1 up, 3 below 1. */
  function ConvertedPlaces(converted: real): nat {
    if converted >= 10.0 then 1 else if converted >= 1.0 then 2 else 3
  }

  /** A quantity multiplied by a rule's factor, rounded to the places its magnitude calls for. */
  function ConvertedQuantity(quantity: real, factor: real): real {
    var converted := quantity * factor;
    RoundTo(converted, ConvertedPlaces(converted))
  }

  /** `convert_unit(quantity, unit, custom)`. */
  function ConvertUnit(quantity: real, unit: string, custom: map<string, Rule>): (r: Conversion)
    ensures r.wasConverted <==> unit in MergeRules(custom) && quantity >= MergeRules(custom)[unit].threshold
    ensures r.wasConverted ==>
      var rule := MergeRules(custom)[unit];
      && r.unit == rule.target
      && r.original == Some(Original(quantity, unit))
      && r.quantity == Decimal(ConvertedQuantity(quantity, rule.factor))
    ensures !r.wasConverted ==>
      && r.unit == unit
      && r.original == None
      && (r.quantity.Whole? <==> IsWhole(quantity))
      && r.quantity.Value() == if IsWhole(quantity) then quantity else RoundTo(quantity, 2)
  {
    var rules := MergeRules(custom);
    if unit in rules && quantity >= rules[unit].threshold then
      var rule := rules[unit];
      Conversion(Decimal(ConvertedQuantity(quantity, rule.factor)), rule.target, true, Some(Original(quantity, unit)))
    else
      Conversion(if IsWhole(quantity) then Whole(quantity.Floor) else Decimal(RoundTo(quantity, 2)), unit, false, None)
  }

  /**
   * A converted quantity keeps 1 decimal from 10 up, 2 decimals from 1 up and
   * 3 decimals below 1, and lies within half a unit of that place of the
   * exact product of quantity and factor.
   */
  lemma {:induction false} ConvertedPrecision(quantity: real, unit: string, custom: map<string, Rule>)
    requires ConvertUnit(quantity, unit, custom).wasConverted
    ensures var exact := quantity * MergeRules(custom)[unit].factor;
            var v := ConvertUnit(quantity, unit, custom).quantity.Value();
            && (exact >= 10.0 ==> HasDecimals(v, 1) && exact - 0.05 < v <= exact + 0.05)
            && (1.0 <= exact < 10.0 ==> HasDecimals(v, 2) && exact - 0.005 < v <= exact + 0.005)
            && (exact < 1.0 ==> HasDecimals(v, 3) && exact - 0.0005 < v <= exact + 0.0005)
  {
    var exact := quantity * MergeRules(custom)[unit].factor;
    var places := ConvertedPlaces(exact);
    RoundToIdempotent(exact, places);
    RoundToBound(exact, places);
    assert Pow10(1) == 10 && Pow10(2) == 100 && Pow10(3) == 1000;
  }

  /**
   * Dividing a converted quantity by a positive factor gives back the original
   * quantity up to the rounding error scaled by the factor.
   */
  lemma {:induction false} ConvertedReconstructs(quantity: real, unit: string, custom: map<string, Rule>)
    requires ConvertUnit(quantity, unit, custom).wasConverted
    requires MergeRules(custom)[unit].factor > 0.0
    ensures var f := MergeRules(custom)[unit].factor;
            var v := ConvertUnit(quantity, unit, custom).quantity.Value();
            var h := HalfUnit(ConvertedPlaces(quantity * f)) / f;
            quantity - h < v / f <= quantity + h
  {
    ConvertedQuantityReconstructs(quantity, MergeRules(custom)[unit].factor);
  }

  lemma ConvertedQuantityReconstructs(quantity: real, f: real)
    requires f > 0.0
    ensures var h := HalfUnit(ConvertedPlaces(quantity * f)) / f;
            quantity - h < ConvertedQuantity(quantity, f) / f <= quantity + h
  {
    RoundToBound(quantity * f, ConvertedPlaces(quantity * f));
    DivideBounds(quantity, ConvertedQuantity(quantity, f), HalfUnit(ConvertedPlaces(quantity * f)), f);
  }

  lemma DivideBounds(quantity: real, v: real, h: real, f: real)
    requires f > 0.0 && quantity * f - h < v <= quantity * f + h
    ensures quantity - h / f < v / f <= quantity + h / f
  {
    assert (quantity * f - h) / f == quantity - h / f;
    assert (quantity * f + h) / f == quantity + h / f;
    assert (quantity * f - h) / f < v / f by {
      assert v / f - (quantity * f - h) / f == (v - (quantity * f - h)) / f;
    }
    assert v / f <= (quantity * f + h) / f by {
      assert (quantity * f + h) / f - v / f == ((quantity * f + h) - v) / f;
    }
  }

  /** With the built-in table, g, ml and mg quantities from 1000 up become kg, L and g, scaled by 0.001. */
  lemma DefaultMetricConversion(quantity: real, unit: string)
    requires unit == "g" || unit == "ml" || unit == "mg"
    requires quantity >= 1000.0
    ensures var r := ConvertUnit(quantity, unit, map[]);
            && r.wasConverted
            && r.unit == (if unit == "g" then "kg" else if unit == "ml" then "L" else "g")
            && r.original == Some(Original(quantity, unit))
            && r.quantity.Value() == RoundTo(quantity * 0.001, ConvertedPlaces(quantity * 0.001))
  {
    assert MergeRules(map[]) == DefaultConversions;
  }

  /** Units without a rule in the built-in table (kg, L, Stück, ...) are never converted by it. */
  lemma UnruledUnitKept(quantity: real, unit: string)
    requires unit != "g" && unit != "ml" && unit != "mg"
    ensures !ConvertUnit(quantity, unit, map[]).wasConverted
    ensures ConvertUnit(quantity, unit, map[]).unit == unit
  {
    assert MergeRules(map[]) == DefaultConversions;
  }

  /** A custom rule for a unit decides that unit alone; the other custom rules do not matter. */
  lemma CustomRuleWins(quantity: real, unit: string, custom: map<string, Rule>)
    requires unit in custom
    ensures ConvertUnit(quantity, unit, custom) == ConvertUnit(quantity, unit, map[unit := custom[unit]])
  {
  }

  /** For a unit without a custom rule, the built-in rule (or none) stays in effect. */
  lemma DefaultRuleKept(quantity: real, unit: string, custom: map<string, Rule>)
    requires unit !in custom
    ensures ConvertUnit(quantity, unit, custom) == ConvertUnit(quantity, unit, map[])
  {
    assert MergeRules(map[]) == DefaultConversions;
  }

  /** An unconverted whole quantity comes back unchanged, as an integer. */
  lemma WholeQuantityUnchanged(quantity: real, unit: string, custom: map<string, Rule>)
    requires !ConvertUnit(quantity, unit, custom).wasConverted
    requires IsWhole(quantity)
    ensures ConvertUnit(quantity, unit, custom).quantity == Whole(quantity.Floor)
    ensures ConvertUnit(quantity, unit, custom).quantity.Value() == quantity
  {
  }

  /** 600 g for 25 servings scaled to 50 is 1200 g, which becomes 1.2 kg. */
  lemma GramsToKilograms()
    ensures ConvertUnit(1200.0, "g", map[]) == Conversion(Decimal(1.2), "kg", true, Some(Original(1200.0, "g")))
  {
    assert MergeRules(map[]) == DefaultConversions;
    assert Pow10(2) == 100;
    RoundToExact(1.2, 2, 120);
  }

  /** 4 kg has no rule and is whole, so it is returned as the integer 4. */
  lemma KilogramsKept()
    ensures ConvertUnit(4.0, "kg", map[]) == Conversion(Whole(4), "kg", false, None)
  {
    assert MergeRules(map[]) == DefaultConversions;
  }

  /** Just below the threshold nothing is converted; at the threshold the rule fires. */
  lemma ThresholdBoundary()
    ensures !ConvertUnit(999.5, "g", map[]).wasConverted
    ensures ConvertUnit(999.5, "g", map[]).unit == "g"
    ensures ConvertUnit(1000.0, "g", map[]) == Conversion(Decimal(1.0), "kg", true, Some(Original(1000.0, "g")))
  {
    assert MergeRules(map[]) == DefaultConversions;
    assert Pow10(2) == 100;
    RoundToExact(1.0, 2, 100);
  }

  /** The names the alias table maps to. */
  const CanonicalUnits: set<string> := {"g", "kg", "L", "ml", "Stück"}

  /** `normalize_unit_name`'s alias table, keyed by lower-case spelling. */
  const UnitAliases: map<string, string> :=
    map["gramm" := "g", "gram" := "g",
        "kilogramm" := "kg", "kilogram" := "kg",
        "liter" := "L", "milliliter" := "ml",
        "stück" := "Stück", "stueck" := "Stück",
        "piece" := "Stück", "pieces" := "Stück"]

  /** `normalize_unit_name(unit)`: the canonical name of a known alias, any other name unchanged. */
  function NormalizeUnitName(unit: string): (r: string)
    ensures r == unit || r in CanonicalUnits
  {
    var key := Lower(unit);
    assert forall k :: k in UnitAliases ==> UnitAliases[k] in CanonicalUnits;
    if key in UnitAliases then UnitAliases[key] else unit
  }

  /** Names that differ only in letter case normalise alike when they are a known alias. */
  lemma NormalizeIgnoresCase(a: string, b: string)
    requires Lower(a) == Lower(b)
    requires Lower(a) in UnitAliases
    ensures NormalizeUnitName(a) == NormalizeUnitName(b)
    ensures NormalizeUnitName(a) in CanonicalUnits
  {
  }

  /** A name that is no alias in any letter case is returned unchanged. */
  lemma NormalizeKeepsUnknown(unit: string)
    requires Lower(unit) !in UnitAliases
    ensures NormalizeUnitName(unit) == unit
  {
  }

  /** Every canonical name normalises to itself, so normalising twice is normalising once. */
  lemma NormalizeIdempotent(unit: string)
    ensures NormalizeUnitName(NormalizeUnitName(unit)) == NormalizeUnitName(unit)
  {
    var r := NormalizeUnitName(unit);
    if r != unit {
      CanonicalNamesFixed(r);
    } else if Lower(unit) in UnitAliases {
      CanonicalNamesFixed(r);
    }
  }

  lemma CanonicalNamesFixed(v: string)
    requires v in CanonicalUnits
    ensures NormalizeUnitName(v) == v
  {
    if v == "Stück" {
      assert Lower(v) == "stück";
    } else {
      assert |Lower(v)| <= 2;
      assert Lower(v) !in UnitAliases;
    }
  }

  /**
   * The custom rules stored in the settings table (key `unit_conversions`).
   * The add and remove operations of the settings page update it in place.
   */
  class ConversionSettings {
    var custom: map<string, Rule>

    constructor (stored: map<string, Rule>)
      ensures custom == stored
    {
      custom := stored;
    }

    /** `add_custom_conversion`: store (or replace) the rule for `fromUnit`. */
    method AddCustomConversion(fromUnit: string, toUnit: string, threshold: real, factor: real)
      modifies this
      ensures custom == old(custom)[fromUnit := Rule(threshold, toUnit, factor)]
    {
      custom := custom[fromUnit := Rule(threshold, toUnit, factor)];
    }

    /** `remove_custom_conversion`: delete the rule for `fromUnit`; saves only when there was one. */
    method RemoveCustomConversion(fromUnit: string) returns (saved: bool)
      modifies this
      ensures saved <==> fromUnit in old(custom)
      ensures custom == old(custom) - {fromUnit}
      ensures !saved ==> custom == old(custom)
    {
      saved := fromUnit in custom;
      if saved {
        custom := custom - {fromUnit};
      }
    }

    /** `get_all_conversions`: the built-in rules overridden by the stored custom rules. */
    function AllConversions(): (rules: map<string, Rule>)
      reads this
      ensures forall u :: u in rules <==> u in DefaultConversions || u in custom
      ensures forall u :: u in custom ==> rules[u] == custom[u]
      ensures forall u :: u in DefaultConversions && u !in custom ==> rules[u] == DefaultConversions[u]
    {
      MergeRules(custom)
    }
  }

  /** After adding a rule for `u`, the merged table maps `u` to exactly that rule and nothing else changes. */
  lemma AddedRuleInEffect(custom: map<string, Rule>, u: string, rule: Rule)
    ensures MergeRules(custom[u := rule])[u] == rule
    ensures forall v :: v != u ==> (v in MergeRules(custom[u := rule]) <==> v in MergeRules(custom))
    ensures forall v :: v != u && v in MergeRules(custom) ==> MergeRules(custom[u := rule])[v] == MergeRules(custom)[v]
  {
  }

  /**
   * Removing the custom rule for `u` changes the merged table at `u` only,
   * where the built-in rule (if any) comes back.
   */
  lemma RemovedRuleRestoresDefault(custom: map<string, Rule>, u: string)
    ensures forall v :: v != u ==> (v in MergeRules(custom - {u}) <==> v in MergeRules(custom))
    ensures forall v :: v != u && v in MergeRules(custom) ==> MergeRules(custom - {u})[v] == MergeRules(custom)[v]
    ensures u in MergeRules(custom - {u}) <==> u in DefaultConversions
    ensures u in DefaultConversions ==> MergeRules(custom - {u})[u] == DefaultConversions[u]
  {
  }
}
