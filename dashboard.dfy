/**
 * The pure parts of the dashboard component (frontend/src/App.js): the
 * client-side recipe filter, the 2FA code input and request guard, the chart
 * rows and the card cap. Records arrive as JSON, so every field may be missing.
 */
module Dashboard {
  import opened Seqs
  import opened Text
  import opened Recipes

  /** A recipe as the browser receives it; `None` is a missing field. */
  datatype RecipeJson = RecipeJson(
    dietType: Option<string>,
    recipeName: Option<string>,
    cuisineType: Option<string>,
    proteinG: Option<real>,
    carbsG: Option<real>,
    fatG: Option<real>)

  /** The label of the selector entry that switches the diet filter off. */
  const AllDietTypes: string := "All Diet Types"

  /** `field?.toLowerCase().includes(t)`: false for a missing field. */
  predicate FieldIncludes(field: Option<string>, t: string)
  {
    field.Some? && Contains(Lower(field.value), t)
  }

  /** `recipe.diet_type === selectedDietType.toLowerCase()`. */
  function DietIs(selected: string): RecipeJson -> bool
  {
    (r: RecipeJson) => r.dietType == Some(Lower(selected))
  }

  /** The search predicate: the lower-cased, untrimmed term in the name, cuisine or diet. */
  function TermMatch(term: string): RecipeJson -> bool
  {
    (r: RecipeJson) =>
      FieldIncludes(r.recipeName, Lower(term))
      || FieldIncludes(r.cuisineType, Lower(term))
      || FieldIncludes(r.dietType, Lower(term))
  }

  /**
   * The body of the filter effect: the diet filter unless the selection is
   * "All Diet Types", then the search filter unless the trimmed term is empty.
   */
  function FilterRecipes(recipes: seq<RecipeJson>, selected: string, term: string): (r: seq<RecipeJson>)
    ensures selected == AllDietTypes && IsBlank(term) ==> r == recipes
    ensures forall x :: x in r <==>
      && x in recipes
      && (selected == AllDietTypes || x.dietType == Some(Lower(selected)))
      && (IsBlank(term) || TermMatch(term)(x))
  {
    var byDiet := if selected != AllDietTypes then Filter(recipes, DietIs(selected)) else recipes;
    TrimEmptyIffBlank(term);
    assert forall x :: DietIs(selected)(x) <==> x.dietType == Some(Lower(selected));
    if Trim(term) != "" then Filter(byDiet, TermMatch(term)) else byDiet
  }

  /** The client-side filter keeps an order-preserving subsequence of the loaded recipes. */
  lemma FilterRecipesIsSubsequence(recipes: seq<RecipeJson>, selected: string, term: string)
    ensures IsSubsequence(FilterRecipes(recipes, selected, term), recipes)
  {
    var byDiet := if selected != AllDietTypes then Filter(recipes, DietIs(selected)) else recipes;
    if selected != AllDietTypes {
      FilterIsSubsequence(recipes, DietIs(selected));
    } else {
      SubsequenceRefl(recipes);
    }
    if Trim(term) != "" {
      FilterIsSubsequence(byDiet, TermMatch(term));
      SubsequenceTrans(FilterRecipes(recipes, selected, term), byDiet, recipes);
    }
  }

  /** The client-side filter keeps every copy of a matching recipe and no copy of any other. */
  lemma FilterRecipesCounts(recipes: seq<RecipeJson>, selected: string, term: string)
    ensures forall x :: multiset(FilterRecipes(recipes, selected, term))[x] ==
              if (selected == AllDietTypes || x.dietType == Some(Lower(selected))) && (IsBlank(term) || TermMatch(term)(x))
              then multiset(recipes)[x] else 0
  {
    var byDiet := if selected != AllDietTypes then Filter(recipes, DietIs(selected)) else recipes;
    TrimEmptyIffBlank(term);
    if selected != AllDietTypes {
      FilterCounts(recipes, DietIs(selected));
      assert forall x :: DietIs(selected)(x) <==> x.dietType == Some(Lower(selected));
    }
    if Trim(term) != "" {
      FilterCounts(byDiet, TermMatch(term));
    }
  }

  /**
   * Unlike the backend, the client ignores a blank term; like the backend, it
   * does not trim a non-blank one: "tofu " misses a recipe named "Tofu".
   */
  lemma PaddedTermMisses(r: RecipeJson)
    requires r == RecipeJson(Some("vegan"), Some("Tofu"), Some("asian"), None, None, None)
    ensures FilterRecipes([r], AllDietTypes, " ") == [r]
    ensures FilterRecipes([r], AllDietTypes, "tofu ") == []
  {
    assert IsBlank(" ") by {
      assert IsJsWhitespace(' ');
    }
    var t := Lower("tofu ");
    assert |t| == 5;
    assert !IsBlank("tofu ") by {
      assert !IsJsWhitespace("tofu "[0]);
    }
    assert !FieldIncludes(r.recipeName, t);
    assert !FieldIncludes(r.cuisineType, t);
    assert !FieldIncludes(r.dietType, t);
    assert !TermMatch("tofu ")(r);
  }

  /**
   * The filter effect: without a `recipes` member in the loaded data it
   * returns early and the filtered list keeps its value.
   */
  function FilterEffect(recipesData: Option<seq<RecipeJson>>, selected: string, term: string, current: seq<RecipeJson>): (r: seq<RecipeJson>)
    ensures recipesData.None? ==> r == current
    ensures recipesData.Some? ==> r == FilterRecipes(recipesData.value, selected, term)
    ensures recipesData.Some? ==> IsSubsequence(r, recipesData.value)
  {
    match recipesData
    case None => current
    case Some(recipes) =>
      FilterRecipesIsSubsequence(recipes, selected, term);
      FilterRecipes(recipes, selected, term)
  }

  /** The recipe cards shown: the first twelve of the filtered list. */
  function DisplayedCards(filtered: seq<RecipeJson>): (r: seq<RecipeJson>)
    ensures |r| == Min(|filtered|, 12)
    ensures r == filtered[..|r|]
  {
    Take(filtered, 12)
  }

  /** The `onChange` of the code input: `value.replace(/\D/g, '').slice(0, 6)`. */
  function SanitizeCode(input: string): (r: string)
    ensures |r| == Min(|Filter(input, IsDigit)|, 6)
    ensures r == Filter(input, IsDigit)[..|r|]
    ensures forall i :: 0 <= i < |r| ==> IsDigit(r[i])
    ensures IsSubsequence(r, input)
  {
    var digits := Filter(input, IsDigit);
    FilterIsSubsequence(input, IsDigit);
    var r := Take(digits, 6);
    forall i | 0 <= i < |r| ensures IsDigit(r[i]) {
      assert r[i] in digits;
    }
    assert IsSubsequence(r, digits) by {
      var idx := seq(|r|, k => k);
      assert Embeds(idx, r, digits);
    }
    SubsequenceTrans(r, digits, input);
    r
  }

  /** Sanitising an already sanitised code changes nothing. */
  lemma SanitizeCodeIdempotent(input: string)
    ensures SanitizeCode(SanitizeCode(input)) == SanitizeCode(input)
  {
    var r := SanitizeCode(input);
    FilterAll(r, IsDigit);
  }

  /** The body of `POST /api/2fa/verify` as the client sends it. */
  datatype VerifyRequest = VerifyRequest(userId: string, token: string)

  /** `verify2FA`: no request unless the code is exactly six characters long. */
  function Verify2FARequest(code: string): (req: Option<VerifyRequest>)
    ensures req.Some? <==> |code| == 6
    ensures req.Some? ==> req.value.userId == "user-oauth" && req.value.token == code
  {
    if |code| != 6 then None else Some(VerifyRequest("user-oauth", code))
  }

  /** Through the input field, a request goes out exactly when six digits were typed or pasted. */
  lemma SanitizedCodeSendsIffSixDigits(input: string)
    ensures Verify2FARequest(SanitizeCode(input)).Some? <==> |Filter(input, IsDigit)| >= 6
  {
  }

  /** The average grams per diet as `Object.entries(average_macronutrients)` lists them. */
  datatype MacroEntry = MacroEntry(diet: string, proteinG: real, carbsG: real, fatG: real)

  /** The fetched insights; `averages` is `None` when the member is missing. */
  datatype NutritionalData = NutritionalData(averages: Option<seq<MacroEntry>>)

  /** `Object.entries(nutritionalData.average_macronutrients || {})`, or nothing before the data arrives. */
  function Entries(data: Option<NutritionalData>): seq<MacroEntry>
  {
    if data.None? || data.value.averages.None? then [] else data.value.averages.value
  }

  /** A bar of the macronutrient chart. */
  datatype BarRow = BarRow(diet: string, protein: real, carbs: real, fat: real)

  /** `prepareBarChartData`: one bar per diet, labelled with the capitalised diet name. */
  function PrepareBarChartData(data: Option<NutritionalData>): (rows: seq<BarRow>)
    ensures |rows| == |Entries(data)|
    ensures forall i :: 0 <= i < |rows| ==>
      var e := Entries(data)[i];
      && |rows[i].diet| == |e.diet|
      && (|e.diet| > 0 ==> rows[i].diet[0] == UpperChar(e.diet[0]) && rows[i].diet[1..] == e.diet[1..])
      && rows[i].protein == e.proteinG && rows[i].carbs == e.carbsG && rows[i].fat == e.fatG
  {
    var entries := Entries(data);
    seq(|entries|, i requires 0 <= i < |entries| =>
      BarRow(Capitalize(entries[i].diet), entries[i].proteinG, entries[i].carbsG, entries[i].fatG))
  }

  /** A cell row of the heat map. */
  datatype HeatmapRow = HeatmapRow(diet: string, protein: real, carbs: real, fat: real)

  /** `prepareHeatmapData`: the same label and numbers as the bar of the same index. */
  function PrepareHeatmapData(data: Option<NutritionalData>): (rows: seq<HeatmapRow>)
    ensures |rows| == |PrepareBarChartData(data)|
    ensures forall i :: 0 <= i < |rows| ==>
      var bar := PrepareBarChartData(data)[i];
      rows[i] == HeatmapRow(bar.diet, bar.protein, bar.carbs, bar.fat)
  {
    var entries := Entries(data);
    seq(|entries|, i requires 0 <= i < |entries| =>
      HeatmapRow(Capitalize(entries[i].diet), entries[i].proteinG, entries[i].carbsG, entries[i].fatG))
  }

  /** A slice of the diet pie chart. */
  datatype PieSlice = PieSlice(name: string, value: int)

  /** `preparePieData`: one slice of weight 1 per diet key, labelled like the bars. */
  function PreparePieData(data: Option<NutritionalData>): (slices: seq<PieSlice>)
    ensures |slices| == |Entries(data)|
    ensures forall i :: 0 <= i < |slices| ==> slices[i].value == 1
    ensures forall i :: 0 <= i < |slices| ==> slices[i].name == PrepareBarChartData(data)[i].diet
  {
    var entries := Entries(data);
    seq(|entries|, i requires 0 <= i < |entries| => PieSlice(Capitalize(entries[i].diet), 1))
  }

  /** A point of the carbs/protein scatter chart. */
  datatype ScatterPoint = ScatterPoint(x: real, y: real, name: Option<string>)

  /** `prepareScatterData`: one point per loaded recipe, a missing or zero amount plotted at 0. */
  function PrepareScatterData(recipesData: Option<seq<RecipeJson>>): (points: seq<ScatterPoint>)
    ensures recipesData.None? ==> points == []
    ensures recipesData.Some? ==> |points| == |recipesData.value|
    ensures recipesData.Some? ==> forall i :: 0 <= i < |points| ==>
      var r := recipesData.value[i];
      && (r.carbsG.None? ==> points[i].x == 0.0)
      && (r.proteinG.None? ==> points[i].y == 0.0)
      && (r.carbsG.Some? ==> points[i].x == r.carbsG.value)
      && (r.proteinG.Some? ==> points[i].y == r.proteinG.value)
      && points[i].name == r.recipeName
  {
    match recipesData
    case None => []
    case Some(recipes) =>
      seq(|recipes|, i requires 0 <= i < |recipes| =>
        ScatterPoint(OrZero(recipes[i].carbsG), OrZero(recipes[i].proteinG), recipes[i].recipeName))
  }
}
