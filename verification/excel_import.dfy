/**
 * The recipe importer (excel_import.py): the keyword chain that guesses an
 * ingredient's category, and the cell and row rules that turn one worksheet
 * into a recipe. A worksheet is a map from (column, row) to cell values.
 */
module ExcelImport {
  import opened Wrappers
  import opened Text

  // ------------------------------------------------------------ category guess

  const VegetableWords: seq<string> := ["kartoffel", "zwiebel", "knoblauch", "tomat", "gurke", "paprika",
    "möhre", "karotte", "sellerie", "lauch", "zucchini", "aubergine",
    "brokkoli", "blumenkohl", "kohl", "salat", "spinat", "erbsen"]
  const FruitWords: seq<string> := ["apfel", "birne", "banane", "orange", "zitrone", "beeren",
    "erdbeere", "himbeere", "kirsche", "pflaume", "pfirsich"]
  const MeatWords: seq<string> := ["fleisch", "hack", "rind", "schwein", "hähnchen", "huhn",
    "pute", "schnitzel", "würstchen", "wurst", "speck", "schinken"]
  const FishWords: seq<string> := ["fisch", "lachs", "thunfisch", "forelle", "garnele", "krabbe"]
  const DairyWords: seq<string> := ["milch", "sahne", "butter", "käse", "quark", "joghurt",
    "schmand", "creme", "frischkäse"]
  const EggWords: seq<string> := ["ei", "eier"]
  const GrainWords: seq<string> := ["mehl", "reis", "nudel", "pasta", "brot", "brötchen",
    "haferflocken", "müsli", "couscous", "bulgur"]
  const BakingWords: seq<string> := ["zucker", "backpulver", "hefe", "vanille", "kakao"]
  const FatWords: seq<string> := ["öl", "olivenöl", "sonnenblumenöl", "margarine", "fett"]
  const SpiceWords: seq<string> := ["salz", "pfeffer", "paprika", "curry", "zimt", "muskat",
    "kräuter", "petersilie", "basilikum", "oregano", "thymian",
    "rosmarin", "majoran", "kümmel", "koriander"]
  const CannedWords: seq<string> := ["dose", "konserve", "passiert", "geschält", "tomatenmark"]

  /** The eleven labels the guess can return. */
  const Labels: set<string> := {"Gemüse", "Obst", "Fleisch", "Fisch", "Milchprodukte", "Getreide",
    "Backwaren", "Öle & Fette", "Gewürze", "Konserven", "Sonstiges"}

  /** `any(w in text for w in words)`. */
  predicate AnyIn(words: seq<string>, text: string) {
    exists w :: w in words && Contains(text, w)
  }

  /** `guess_ingredient_category`: the first keyword group found in the lower-cased name decides. */
  function GuessCategory(name: string): (category: string)
    ensures category in Labels
  {
    CategoryOfLower(Lower(name))
  }

  /** The if-chain of `guess_ingredient_category` on the already lower-cased name. */
  function CategoryOfLower(lower: string): (category: string)
    ensures category in Labels
  {
    if AnyIn(VegetableWords, lower) then "Gemüse"
    else if AnyIn(FruitWords, lower) then "Obst"
    else if AnyIn(MeatWords, lower) then "Fleisch"
    else if AnyIn(FishWords, lower) then "Fisch"
    else if AnyIn(DairyWords, lower) then "Milchprodukte"
    else if Contains(lower, "ei") || Contains(lower, "eier") then "Milchprodukte"
    else if AnyIn(GrainWords, lower) then "Getreide"
    else if AnyIn(BakingWords, lower) then "Backwaren"
    else if AnyIn(FatWords, lower) then "Öle & Fette"
    else if AnyIn(SpiceWords, lower) then "Gewürze"
    else if AnyIn(CannedWords, lower) then "Konserven"
    else "Sonstiges"
  }

  /** A keyword group and the label it yields. */
  datatype Group = Group(words: seq<string>, category: string)

  /** The groups in the order they are tried; the egg test yields the dairy label. */
  const Groups: seq<Group> := [
    Group(VegetableWords, "Gemüse"), Group(FruitWords, "Obst"), Group(MeatWords, "Fleisch"),
    Group(FishWords, "Fisch"), Group(DairyWords, "Milchprodukte"), Group(EggWords, "Milchprodukte"),
    Group(GrainWords, "Getreide"), Group(BakingWords, "Backwaren"), Group(FatWords, "Öle & Fette"),
    Group(SpiceWords, "Gewürze"), Group(CannedWords, "Konserven")]

  /** Table-driven reference: the label of the first group with a keyword in `text`, else "Sonstiges". */
  function FirstMatch(groups: seq<Group>, text: string): string {
    if groups == [] then "Sonstiges"
    else if AnyIn(groups[0].words, text) then groups[0].category
    else FirstMatch(groups[1..], text)
  }

  /** The if-chain is the ordered table lookup: groups are tried in order and the first match wins. */
  lemma GuessCategoryIsFirstMatch(name: string)
    ensures GuessCategory(name) == FirstMatch(Groups, Lower(name))
  {
    var lower := Lower(name);
    EggGroupIsEggTest(lower);
    FirstThreeGroups(lower);
    MiddleThreeGroups(lower);
    NextThreeGroups(lower);
    LastTwoGroups(lower);
  }

  lemma FirstThreeGroups(text: string)
    ensures FirstMatch(Groups, text) ==
      if AnyIn(VegetableWords, text) then "Gemüse"
      else if AnyIn(FruitWords, text) then "Obst"
      else if AnyIn(MeatWords, text) then "Fleisch"
      else FirstMatch(Groups[3..], text)
  {
    FirstMatchAt(Groups, 0, text);
    FirstMatchAt(Groups, 1, text);
    FirstMatchAt(Groups, 2, text);
  }

  lemma MiddleThreeGroups(text: string)
    ensures FirstMatch(Groups[3..], text) ==
      if AnyIn(FishWords, text) then "Fisch"
      else if AnyIn(DairyWords, text) then "Milchprodukte"
      else if AnyIn(EggWords, text) then "Milchprodukte"
      else FirstMatch(Groups[6..], text)
  {
    FirstMatchAt(Groups, 3, text);
    FirstMatchAt(Groups, 4, text);
    FirstMatchAt(Groups, 5, text);
  }

  lemma NextThreeGroups(text: string)
    ensures FirstMatch(Groups[6..], text) ==
      if AnyIn(GrainWords, text) then "Getreide"
      else if AnyIn(BakingWords, text) then "Backwaren"
      else if AnyIn(FatWords, text) then "Öle & Fette"
      else FirstMatch(Groups[9..], text)
  {
    FirstMatchAt(Groups, 6, text);
    FirstMatchAt(Groups, 7, text);
    FirstMatchAt(Groups, 8, text);
  }

  lemma LastTwoGroups(text: string)
    ensures FirstMatch(Groups[9..], text) ==
      if AnyIn(SpiceWords, text) then "Gewürze"
      else if AnyIn(CannedWords, text) then "Konserven"
      else "Sonstiges"
  {
    FirstMatchAt(Groups, 9, text);
    FirstMatchAt(Groups, 10, text);
    assert Groups[11..] == [];
  }

  lemma FirstMatchAt(groups: seq<Group>, k: int, text: string)
    requires 0 <= k < |groups|
    ensures FirstMatch(groups[k..], text)
         == if AnyIn(groups[k].words, text) then groups[k].category else FirstMatch(groups[k + 1..], text)
  {
    assert groups[k..][1..] == groups[k + 1..];
  }

  lemma EggGroupIsEggTest(lower: string)
    ensures AnyIn(EggWords, lower) <==> Contains(lower, "ei") || Contains(lower, "eier")
  {
    if AnyIn(EggWords, lower) {
      var w :| w in EggWords && Contains(lower, w);
    }
    if Contains(lower, "ei") {
      assert "ei" in EggWords;
    }
    if Contains(lower, "eier") {
      assert "eier" in EggWords;
    }
  }

  /** No group yields "Sonstiges", so the reference gives it exactly when no group matches. */
  lemma {:induction false} FirstMatchDefault(groups: seq<Group>, text: string)
    requires forall g :: g in groups ==> g.category != "Sonstiges"
    ensures FirstMatch(groups, text) == "Sonstiges" <==> forall g :: g in groups ==> !AnyIn(g.words, text)
  {
    if groups != [] {
      FirstMatchDefault(groups[1..], text);
      assert forall g :: g in groups[1..] ==> g in groups;
      assert forall g :: g in groups ==> g == groups[0] || g in groups[1..];
    }
  }

  /** "Sonstiges" is returned exactly when no keyword of any group occurs in the lower-cased name. */
  lemma OtherIffNoKeyword(name: string)
    ensures GuessCategory(name) == "Sonstiges" <==> forall g :: g in Groups ==> !AnyIn(g.words, Lower(name))
  {
    GuessCategoryIsFirstMatch(name);
    GroupsNeverOther();
    FirstMatchDefault(Groups, Lower(name));
  }

  lemma GroupsNeverOther()
    ensures forall g :: g in Groups ==> g.category != "Sonstiges"
  {
  }

  /** The guess ignores case: names equal up to `lower()` get the same category. */
  lemma GuessIgnoresCase(a: string, b: string)
    requires Lower(a) == Lower(b)
    ensures GuessCategory(a) == GuessCategory(b)
    ensures GuessCategory(Lower(a)) == GuessCategory(a)
  {
    LowerIdempotent(a);
  }

  /** The text contains none of `words`: each is longer than it, or as long and different. */
  lemma NoneOccurs(words: seq<string>, text: string)
    requires forall w :: w in words ==> |w| > |text| || (|w| == |text| && w != text)
    ensures !AnyIn(words, text)
  {
    forall w | w in words ensures !Contains(text, w) {
      if |w| > |text| {
        ContainsNotLonger(text, w);
      } else {
        ContainsSameLength(text, w);
      }
    }
  }

  /** "Paprika" is a vegetable, although "paprika" is also a spice keyword: the earlier group wins. */
  lemma PaprikaIsVegetable()
    ensures AnyIn(SpiceWords, "paprika")
    ensures GuessCategory("Paprika") == "Gemüse"
  {
    LowerPaprika();
    PaprikaKeywords();
  }

  lemma LowerPaprika()
    ensures Lower("Paprika") == "paprika"
  {
  }

  lemma PaprikaKeywords()
    ensures AnyIn(VegetableWords, "paprika") && AnyIn(SpiceWords, "paprika")
  {
    ContainsSameLength("paprika", "paprika");
    assert "paprika" in VegetableWords && "paprika" in SpiceWords;
  }

  /** "Reis" is filed under dairy: "ei" occurs in "reis" and the egg test comes before the grain test. */
  lemma RiceIsDairy()
    ensures AnyIn(GrainWords, "reis")
    ensures GuessCategory("Reis") == "Milchprodukte"
  {
    assert Lower("Reis") == "reis";
    ReisMissesFirstGroups();
    ReisMissesMiddleGroups();
    assert OccursAt("reis", "ei", 1);
    ContainsAt("reis", "ei");
    ContainsSameLength("reis", "reis");
    assert "reis" in GrainWords;
  }

  lemma ReisMissesFirstGroups()
    ensures !AnyIn(VegetableWords, "reis") && !AnyIn(FruitWords, "reis") && !AnyIn(MeatWords, "reis")
  {
    ReisIsNoVegetable();
    ReisIsNoFruit();
    ReisIsNoMeat();
  }

  lemma ReisIsNoFruit()
    ensures !AnyIn(FruitWords, "reis")
  {
    NoneOccurs(FruitWords, "reis");
  }

  lemma ReisIsNoMeat()
    ensures !AnyIn(MeatWords, "reis")
  {
    NoneOccurs(MeatWords, "reis");
  }

  lemma ReisIsNoVegetable()
    ensures !AnyIn(VegetableWords, "reis")
  {
    NoneOccurs(VegetableWords, "reis");
  }

  lemma ReisMissesMiddleGroups()
    ensures !AnyIn(FishWords, "reis") && !AnyIn(DairyWords, "reis")
  {
    ReisIsNoFish();
    ReisIsNoDairy();
  }

  lemma ReisIsNoFish()
    ensures !AnyIn(FishWords, "reis")
  {
    NoneOccurs(FishWords, "reis");
  }

  lemma ReisIsNoDairy()
    ensures !AnyIn(DairyWords, "reis")
  {
    NoneOccurs(DairyWords, "reis");
  }

  /** A name with "ei" in it that matches none of the first five groups is dairy, before grain is tried. */
  lemma EggTestBeforeGrain(name: string)
    requires Contains(Lower(name), "ei")
    requires forall g :: g in Groups[..5] ==> !AnyIn(g.words, Lower(name))
    ensures GuessCategory(name) == "Milchprodukte"
  {
    assert Groups[..5] == [Groups[0], Groups[1], Groups[2], Groups[3], Groups[4]];
    assert Groups[0] in Groups[..5] && Groups[1] in Groups[..5] && Groups[2] in Groups[..5];
    assert Groups[3] in Groups[..5] && Groups[4] in Groups[..5];
  }

  // ------------------------------------------------------------ cells and sheets

  /**
   * A cell value as openpyxl returns it: empty, a number, text, a boolean,
   * or any other value (a date, say) together with its `str()`.
   */
  datatype Cell = Blank | Int(i: int) | Float(f: real) | Text(s: string) | Bool(b: bool) | Other(shown: string)

  /** Python truthiness of a cell value. */
  predicate Truthy(c: Cell) {
    match c
    case Blank => false
    case Int(i) => i != 0
    case Float(f) => f != 0.0
    case Text(s) => s != []
    case Bool(b) => b
    case Other(_) => true
  }

  /** `isinstance(v, (int, float))`; a boolean is an `int` in Python. */
  predicate IsNumber(c: Cell) {
    c.Int? || c.Float? || c.Bool?
  }

  /** A worksheet: its title, the cells by (column letter, row number) and the last used row. */
  datatype Sheet = Sheet(title: string, cells: map<(char, int), Cell>, maxRow: int)

  /** `sheet['<column><row>'].value`: a cell never written is empty. */
  function CellAt(sheet: Sheet, column: char, row: int): Cell {
    if (column, row) in sheet.cells then sheet.cells[(column, row)] else Blank
  }

  /** The decimal digits of `n`. */
  function NatString(n: nat): (s: string)
    ensures |s| >= 1
    ensures forall k :: 0 <= k < |s| ==> '0' <= s[k] <= '9'
  {
    if n < 10 then [(n + '0' as int) as char] else NatString(n / 10) + [((n % 10) + '0' as int) as char]
  }

  /** `str(v)` of a cell value; how a float is printed is left to `showFloat`. */
  function Str(c: Cell, showFloat: real -> string): string {
    match c
    case Blank => "None"
    case Int(i) => if i < 0 then "-" + NatString(-i) else NatString(i)
    case Float(f) => showFloat(f)
    case Text(s) => s
    case Bool(b) => if b then "True" else "False"
    case Other(shown) => shown
  }

  /** `int(x)` of a float: truncation toward zero. */
  function TruncateToInt(x: real): (n: int)
    ensures x >= 0.0 ==> n as real <= x < n as real + 1.0
    ensures x < 0.0 ==> n as real - 1.0 < x <= n as real
  {
    if x >= 0.0 then x.Floor else -((-x).Floor)
  }

  /**
   * The base servings read from A4: 30 unless the value is a non-zero number,
   * in which case it is that number truncated to an integer.
   */
  function BaseServings(a4: Cell): (servings: int)
    ensures !Truthy(a4) || !IsNumber(a4) ==> servings == 30
    ensures a4.Int? && a4.i != 0 ==> servings == a4.i
    ensures a4.Float? && a4.f != 0.0 ==> servings == TruncateToInt(a4.f)
    ensures a4 == Bool(true) ==> servings == 1
  {
    if !Truthy(a4) || !IsNumber(a4) then 30
    else if a4.Int? then a4.i
    else if a4.Float? then TruncateToInt(a4.f)
    else 1
  }

  /**
   * `float(value)` of a quantity cell, with a decimal comma in text turned into
   * a point first; `None` where `float` raises. How text is parsed is left to
   * `parseFloat`.
   */
  function ParseQuantity(c: Cell, parseFloat: string -> Option<real>): Option<real> {
    match c
    case Blank => None
    case Int(i) => Some(i as real)
    case Float(f) => Some(f)
    case Text(s) => parseFloat(ReplaceChar(s, ',', '.'))
    case Bool(b) => Some(if b then 1.0 else 0.0)
    case Other(_) => None
  }

  /** One imported ingredient line. */
  datatype ImportedLine = ImportedLine(name: string, quantity: real, unit: string, category: string)

  /**
   * The line read from `row`, whose ingredient cell is filled; `None` when
   * the quantity cell is empty or does not parse, so the row is skipped.
   */
  function ParseRow(sheet: Sheet, row: int, parseFloat: string -> Option<real>, showFloat: real -> string): Option<ImportedLine> {
    var quantityCell := CellAt(sheet, 'A', row);
    var unitCell := CellAt(sheet, 'C', row);
    if !Truthy(quantityCell) then None
    else
      match ParseQuantity(quantityCell, parseFloat)
      case None => None
      case Some(quantity) =>
        var unit := if Truthy(unitCell) then Strip(Str(unitCell, showFloat)) else "Stück";
        var name := Strip(Str(CellAt(sheet, 'D', row), showFloat));
        Some(ImportedLine(name, quantity, unit, GuessCategory(name)))
  }

  /** A row is skipped exactly when its quantity is empty or unparsable; a kept row carries the cell rules. */
  lemma ParseRowSpec(sheet: Sheet, row: int, parseFloat: string -> Option<real>, showFloat: real -> string)
    ensures ParseRow(sheet, row, parseFloat, showFloat).None? <==>
      !Truthy(CellAt(sheet, 'A', row)) || ParseQuantity(CellAt(sheet, 'A', row), parseFloat).None?
    ensures ParseRow(sheet, row, parseFloat, showFloat).Some? ==>
      var line := ParseRow(sheet, row, parseFloat, showFloat).value;
      && line.quantity == ParseQuantity(CellAt(sheet, 'A', row), parseFloat).value
      && (!Truthy(CellAt(sheet, 'C', row)) ==> line.unit == "Stück")
      && (Truthy(CellAt(sheet, 'C', row)) ==> line.unit == Strip(Str(CellAt(sheet, 'C', row), showFloat)))
      && line.name == Strip(Str(CellAt(sheet, 'D', row), showFloat))
      && line.category == GuessCategory(line.name)
  {
  }

  /** The lines of rows `row`..30, stopping at the first row whose ingredient cell is empty. */
  function ScanFrom(sheet: Sheet, row: int, parseFloat: string -> Option<real>, showFloat: real -> string): seq<ImportedLine>
    decreases 31 - row
  {
    if row > 30 || !Truthy(CellAt(sheet, 'D', row)) then []
    else
      (match ParseRow(sheet, row, parseFloat, showFloat) case None => [] case Some(line) => [line])
      + ScanFrom(sheet, row + 1, parseFloat, showFloat)
  }

  /** Every ingredient cell in rows `row`..`r` is filled, so the scan reaches row `r`. */
  predicate Reaches(sheet: Sheet, row: int, r: int) {
    row <= r <= 30 && forall q :: row <= q <= r ==> Truthy(CellAt(sheet, 'D', q))
  }

  /** The lines a row contributes: its parsed line, if any. */
  function RowLines(sheet: Sheet, row: int, parseFloat: string -> Option<real>, showFloat: real -> string): seq<ImportedLine> {
    match ParseRow(sheet, row, parseFloat, showFloat)
    case None => []
    case Some(line) => [line]
  }

  lemma ScanFromStep(sheet: Sheet, row: int, parseFloat: string -> Option<real>, showFloat: real -> string)
    requires row <= 30 && Truthy(CellAt(sheet, 'D', row))
    ensures ScanFrom(sheet, row, parseFloat, showFloat)
         == RowLines(sheet, row, parseFloat, showFloat) + ScanFrom(sheet, row + 1, parseFloat, showFloat)
  {
  }

  /** A scan that reaches a later row from `row` reaches it from `row + 1`. */
  lemma ReachesTail(sheet: Sheet, row: int, r: int)
    requires Reaches(sheet, row, r) && r > row
    ensures Reaches(sheet, row + 1, r)
  {
  }

  /** A scan that reaches `r` from `row + 1` reaches it from a filled `row`. */
  lemma ReachesCons(sheet: Sheet, row: int, r: int)
    requires Truthy(CellAt(sheet, 'D', row)) && Reaches(sheet, row + 1, r)
    ensures Reaches(sheet, row, r)
  {
  }

  /** `line` is the parsed line of a row that the scan from `row` reaches. */
  ghost predicate ReadFromReachedRow(sheet: Sheet, row: int, line: ImportedLine, parseFloat: string -> Option<real>, showFloat: real -> string) {
    exists r :: Reaches(sheet, row, r) && ParseRow(sheet, r, parseFloat, showFloat) == Some(line)
  }

  /**
   * The scan yields exactly the parsed lines of the rows up to row 30 that it
   * reaches before an empty ingredient cell, at most one per row.
   */
  lemma {:induction false} ScanFromSpec(sheet: Sheet, row: int, parseFloat: string -> Option<real>, showFloat: real -> string)
    requires row >= 5
    ensures |ScanFrom(sheet, row, parseFloat, showFloat)| <= if row <= 30 then 31 - row else 0
    ensures forall line :: line in ScanFrom(sheet, row, parseFloat, showFloat) <==>
      ReadFromReachedRow(sheet, row, line, parseFloat, showFloat)
    decreases 31 - row
  {
    if row <= 30 && Truthy(CellAt(sheet, 'D', row)) {
      ScanFromSpec(sheet, row + 1, parseFloat, showFloat);
      ScanFromStep(sheet, row, parseFloat, showFloat);
      forall line ensures line in ScanFrom(sheet, row, parseFloat, showFloat) <==>
        ReadFromReachedRow(sheet, row, line, parseFloat, showFloat)
      {
        ScanFromMember(sheet, row, parseFloat, showFloat, line);
      }
    } else {
      assert forall r :: Reaches(sheet, row, r) ==> Truthy(CellAt(sheet, 'D', row));
    }
  }

  /** One step of the membership proof: a line of row `row` itself, or of a row reached from `row + 1`. */
  lemma ScanFromMember(sheet: Sheet, row: int, parseFloat: string -> Option<real>, showFloat: real -> string, line: ImportedLine)
    requires row <= 30 && Truthy(CellAt(sheet, 'D', row))
    requires ScanFrom(sheet, row, parseFloat, showFloat)
          == RowLines(sheet, row, parseFloat, showFloat) + ScanFrom(sheet, row + 1, parseFloat, showFloat)
    requires line in ScanFrom(sheet, row + 1, parseFloat, showFloat) <==>
      ReadFromReachedRow(sheet, row + 1, line, parseFloat, showFloat)
    ensures line in ScanFrom(sheet, row, parseFloat, showFloat) <==>
      ReadFromReachedRow(sheet, row, line, parseFloat, showFloat)
  {
    if ReadFromReachedRow(sheet, row, line, parseFloat, showFloat) {
      var r :| Reaches(sheet, row, r) && ParseRow(sheet, r, parseFloat, showFloat) == Some(line);
      if r > row {
        ReachesTail(sheet, row, r);
        assert ReadFromReachedRow(sheet, row + 1, line, parseFloat, showFloat);
      } else {
        assert line in RowLines(sheet, row, parseFloat, showFloat);
      }
    }
    if line in ScanFrom(sheet, row, parseFloat, showFloat) {
      if line in ScanFrom(sheet, row + 1, parseFloat, showFloat) {
        var r :| Reaches(sheet, row + 1, r) && ParseRow(sheet, r, parseFloat, showFloat) == Some(line);
        ReachesCons(sheet, row, r);
      } else {
        assert line in RowLines(sheet, row, parseFloat, showFloat);
        assert Reaches(sheet, row, row);
      }
    }
  }

  /** The body of the ingredient loop for a row with a filled ingredient cell: `None` where it `continue`s. */
  method ReadRow(sheet: Sheet, row: int, parseFloat: string -> Option<real>, showFloat: real -> string)
    returns (line: Option<ImportedLine>)
    ensures line == ParseRow(sheet, row, parseFloat, showFloat)
  {
    var quantityCell := CellAt(sheet, 'A', row);
    if !Truthy(quantityCell) {
      return None;
    }
    var quantity := ParseQuantity(quantityCell, parseFloat);
    if quantity.None? {
      return None;
    }
    var unitCell := CellAt(sheet, 'C', row);
    var unit := if Truthy(unitCell) then Strip(Str(unitCell, showFloat)) else "Stück";
    var name := Strip(Str(CellAt(sheet, 'D', row), showFloat));
    var category := GuessCategory(name);
    line := Some(ImportedLine(name, quantity.value, unit, category));
  }

  /** The ingredient loop over rows 5..30: `break` at an empty ingredient cell, `continue` past a skipped row. */
  method ScanIngredientRows(sheet: Sheet, parseFloat: string -> Option<real>, showFloat: real -> string)
    returns (lines: seq<ImportedLine>)
    ensures lines == ScanFrom(sheet, 5, parseFloat, showFloat)
  {
    lines := [];
    for row := 5 to 31
      invariant lines + ScanFrom(sheet, row, parseFloat, showFloat) == ScanFrom(sheet, 5, parseFloat, showFloat)
    {
      var ingredientCell := CellAt(sheet, 'D', row);
      if !Truthy(ingredientCell) {
        assert lines + [] == lines;
        break;
      }
      var line := ReadRow(sheet, row, parseFloat, showFloat);
      ScanPastRow(sheet, row, parseFloat, showFloat, lines, line);
      if line.None? {
        continue;
      }
      lines := lines + [line.value];
    }
    assert lines + [] == lines;
  }

  /** Passing a filled row keeps the loop invariant: its line, if any, is the next one the scan yields. */
  lemma ScanPastRow(sheet: Sheet, row: int, parseFloat: string -> Option<real>, showFloat: real -> string,
                    lines: seq<ImportedLine>, line: Option<ImportedLine>)
    requires row <= 30 && Truthy(CellAt(sheet, 'D', row))
    requires line == ParseRow(sheet, row, parseFloat, showFloat)
    ensures ScanFrom(sheet, row, parseFloat, showFloat)
         == (if line.None? then [] else [line.value]) + ScanFrom(sheet, row + 1, parseFloat, showFloat)
    ensures lines + ScanFrom(sheet, row, parseFloat, showFloat)
         == (if line.None? then lines else lines + [line.value]) + ScanFrom(sheet, row + 1, parseFloat, showFloat)
  {
    ScanFromStep(sheet, row, parseFloat, showFloat);
    if line.None? {
      assert RowLines(sheet, row, parseFloat, showFloat) == [];
      assert [] + ScanFrom(sheet, row + 1, parseFloat, showFloat) == ScanFrom(sheet, row + 1, parseFloat, showFloat);
    } else {
      assert RowLines(sheet, row, parseFloat, showFloat) == [line.value];
      assert lines + [line.value] + ScanFrom(sheet, row + 1, parseFloat, showFloat)
          == lines + ([line.value] + ScanFrom(sheet, row + 1, parseFloat, showFloat));
    }
  }

  // ------------------------------------------------------------ instructions

  /** The stripped texts of the filled A-cells of rows 31..`last`. */
  function InstructionLines(sheet: Sheet, last: int, showFloat: real -> string): seq<string>
    decreases last
  {
    if last < 31 then []
    else
      InstructionLines(sheet, last - 1, showFloat)
      + (if Truthy(CellAt(sheet, 'A', last)) then [Strip(Str(CellAt(sheet, 'A', last), showFloat))] else [])
  }

  /** The instructions: the lines joined by newlines, or `None` when there is none. */
  function Instructions(sheet: Sheet, showFloat: real -> string): Option<string> {
    var lines := InstructionLines(sheet, sheet.maxRow, showFloat);
    if lines == [] then None else Some(Join(lines, "\n"))
  }

  /** Instructions are absent exactly when no A-cell from row 31 to the last row is filled. */
  lemma {:induction false} InstructionLinesSpec(sheet: Sheet, last: int, showFloat: real -> string)
    ensures |InstructionLines(sheet, last, showFloat)| <= if last >= 31 then last - 30 else 0
    ensures InstructionLines(sheet, last, showFloat) == [] <==>
      forall r :: 31 <= r <= last ==> !Truthy(CellAt(sheet, 'A', r))
    decreases last
  {
    if last >= 31 {
      InstructionLinesSpec(sheet, last - 1, showFloat);
    }
  }

  /** The instructions loop over rows 31..`max_row`. */
  method CollectInstructions(sheet: Sheet, showFloat: real -> string) returns (instructions: Option<string>)
    ensures instructions == Instructions(sheet, showFloat)
  {
    var lines: seq<string> := [];
    var row := 31;
    while row <= sheet.maxRow
      invariant row >= 31
      invariant row <= sheet.maxRow + 1 || row == 31
      invariant lines == InstructionLines(sheet, row - 1, showFloat)
      decreases sheet.maxRow + 1 - row
    {
      var value := CellAt(sheet, 'A', row);
      if Truthy(value) {
        lines := lines + [Strip(Str(value, showFloat))];
      }
      row := row + 1;
    }
    assert lines == InstructionLines(sheet, sheet.maxRow, showFloat);
    instructions := if lines == [] then None else Some(Join(lines, "\n"));
  }

  // ------------------------------------------------------------ one sheet

  /** A recipe read from one sheet, before it is stored. */
  datatype ImportedRecipe = ImportedRecipe(name: Cell, baseServings: int, ingredients: seq<ImportedLine>, instructions: Option<string>)

  /**
   * `import_recipe_from_sheet` up to the point where the recipe is stored:
   * a sheet whose A1 is empty is skipped.
   */
  method ImportRecipeFromSheet(sheet: Sheet, parseFloat: string -> Option<real>, showFloat: real -> string)
    returns (r: Option<ImportedRecipe>)
    ensures r.None? <==> !Truthy(CellAt(sheet, 'A', 1))
    ensures r.Some? ==> r.value == ImportedRecipe(CellAt(sheet, 'A', 1), BaseServings(CellAt(sheet, 'A', 4)),
      ScanFrom(sheet, 5, parseFloat, showFloat), Instructions(sheet, showFloat))
  {
    var recipeName := CellAt(sheet, 'A', 1);
    if !Truthy(recipeName) {
      return None;
    }
    var baseCell := CellAt(sheet, 'A', 4);
    var baseServings := if !Truthy(baseCell) || !IsNumber(baseCell) then 30
      else if baseCell.Int? then baseCell.i
      else if baseCell.Float? then TruncateToInt(baseCell.f)
      else 1;
    var ingredients := ScanIngredientRows(sheet, parseFloat, showFloat);
    var instructions := CollectInstructions(sheet, showFloat);
    r := Some(ImportedRecipe(recipeName, baseServings, ingredients, instructions));
  }
}
