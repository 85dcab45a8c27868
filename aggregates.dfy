/**
 * `calculateAverageMacros` and the nutritional-insights endpoint of
 * backend/server.js: per-diet sums and counts gathered in one pass, then one
 * average per diet, plus the list of distinct diet types.
 */
module Aggregates {
  import opened Seqs
  import opened Recipes

  /** The running entry `grouped[diet]`: three sums and a count. */
  datatype Totals = Totals(proteinSum: real, carbsSum: real, fatSum: real, count: nat)

  /** The average grams of one diet, as `averages[diet]` holds them. */
  datatype Macros = Macros(proteinG: real, carbsG: real, fatG: real)

  const EmptyTotals := Totals(0.0, 0.0, 0.0, 0)

  /** Left-to-right sum of f over s, the fold `s.reduce((sum, r) => sum + f(r), 0)`. */
  function Sum(s: seq<Recipe>, f: Recipe -> real): real
  {
    if s == [] then 0.0 else Sum(Init(s), f) + f(Last(s))
  }

  lemma SumSnoc(s: seq<Recipe>, x: Recipe, f: Recipe -> real)
    ensures Sum(s + [x], f) == Sum(s, f) + f(x)
  {
    InitOfSnoc(s, x);
  }

  /** One step of the `forEach`: add a recipe's grams to the sums and count it. */
  function AddRecipe(t: Totals, r: Recipe): Totals
  {
    Totals(t.proteinSum + r.proteinG, t.carbsSum + r.carbsG, t.fatSum + r.fatG, t.count + 1)
  }

  /** The sums and count of a whole group. */
  function TotalsOf(g: seq<Recipe>): Totals
  {
    Totals(Sum(g, Protein), Sum(g, Carbs), Sum(g, Fat), |g|)
  }

  /** The recipes of one diet, in input order. */
  function DietGroup(data: seq<Recipe>, diet: string): seq<Recipe>
  {
    Filter(data, KeyIs(Diet, diet))
  }

  /** A diet's group holds exactly the recipes of that diet. */
  lemma DietGroupMembers(data: seq<Recipe>, d: string)
    ensures forall r :: r in DietGroup(data, d) <==> r in data && r.dietType == d
  {
    forall r ensures KeyIs(Diet, d)(r) <==> r.dietType == d {
      KeyIsApply(Diet, d, r);
    }
  }

  /** The `grouped` dictionary after the first pass over `data`. */
  function GroupTotals(data: seq<Recipe>): map<string, Totals>
  {
    if data == [] then map[]
    else
      var grouped := GroupTotals(Init(data));
      var diet := Last(data).dietType;
      grouped[diet := AddRecipe(if diet in grouped then grouped[diet] else EmptyTotals, Last(data))]
  }

  /** After the first pass, a diet has an entry exactly when its group is not empty. */
  lemma {:induction false} GroupTotalsKeys(data: seq<Recipe>, d: string)
    ensures d in GroupTotals(data) <==> DietGroup(data, d) != []
    decreases |data|
  {
    if data != [] {
      var prefix, x := Init(data), Last(data);
      assert data == prefix + [x];
      GroupTotalsKeys(prefix, d);
      FilterSnoc(prefix, x, KeyIs(Diet, d));
    }
  }

  /** After the first pass, the entry of a diet holds the sums and the size of its group. */
  lemma {:induction false} GroupTotalsValues(data: seq<Recipe>, d: string)
    requires d in GroupTotals(data)
    ensures GroupTotals(data)[d] == TotalsOf(DietGroup(data, d))
    decreases |data|
  {
    var prefix, x := Init(data), Last(data);
    var before := GroupTotals(prefix);
    assert data == prefix + [x];
    FilterSnoc(prefix, x, KeyIs(Diet, d));
    var g := DietGroup(prefix, d);
    if d == x.dietType {
      assert DietGroup(data, d) == g + [x];
      SumSnoc(g, x, Protein);
      SumSnoc(g, x, Carbs);
      SumSnoc(g, x, Fat);
      if d in before {
        GroupTotalsValues(prefix, d);
      } else {
        GroupTotalsKeys(prefix, d);
        assert g == [];
      }
    } else {
      assert DietGroup(data, d) == g;
      GroupTotalsValues(prefix, d);
    }
  }

  /**
   * The first pass groups exactly the diets that occur, and each entry holds
   * the sums and the size of that diet's group, which is therefore at least one.
   */
  lemma GroupTotalsAreGroupSums(data: seq<Recipe>)
    ensures forall d :: d in GroupTotals(data) <==> exists r :: r in data && r.dietType == d
    ensures forall d :: d in GroupTotals(data) ==>
      GroupTotals(data)[d] == TotalsOf(DietGroup(data, d)) && GroupTotals(data)[d].count >= 1
  {
    forall d
      ensures d in GroupTotals(data) <==> exists r :: r in data && r.dietType == d
      ensures d in GroupTotals(data) ==> GroupTotals(data)[d] == TotalsOf(DietGroup(data, d))
    {
      GroupTotalsKeys(data, d);
      DietGroupMembers(data, d);
      var g := DietGroup(data, d);
      if g != [] {
        assert g[0] in g;
        GroupTotalsValues(data, d);
      }
    }
  }

  /** `protein_sum / count` and the like; the count of a present group is never zero. */
  function Mean(t: Totals): Macros
    requires t.count > 0
  {
    Macros(t.proteinSum / t.count as real, t.carbsSum / t.count as real, t.fatSum / t.count as real)
  }

  /** The first `forEach` of `calculateAverageMacros`: sums and counts per diet. */
  method GroupByDiet(data: seq<Recipe>) returns (grouped: map<string, Totals>)
    ensures grouped == GroupTotals(data)
  {
    grouped := map[];
    for i := 0 to |data|
      invariant grouped == GroupTotals(data[..i])
    {
      var recipe := data[i];
      var diet := recipe.dietType;
      if diet !in grouped {
        grouped := grouped[diet := EmptyTotals];
      }
      grouped := grouped[diet := AddRecipe(grouped[diet], recipe)];
      InitOfSnoc(data[..i], recipe);
      assert data[..i + 1] == data[..i] + [recipe];
    }
    assert data[..|data|] == data;
  }

  /** The second `forEach`: divide each diet's sums by its count. */
  method AverageEach(grouped: map<string, Totals>) returns (averages: map<string, Macros>)
    requires forall d :: d in grouped ==> grouped[d].count > 0
    ensures averages.Keys == grouped.Keys
    ensures forall d :: d in averages ==> averages[d] == Mean(grouped[d])
  {
    averages := map[];
    var pending := grouped.Keys;
    while pending != {}
      invariant pending <= grouped.Keys
      invariant averages.Keys == grouped.Keys - pending
      invariant forall d :: d in averages ==> averages[d] == Mean(grouped[d])
      decreases pending
    {
      var diet :| diet in pending;
      averages := averages[diet := Mean(grouped[diet])];
      pending := pending - {diet};
    }
  }

  /**
   * `calculateAverageMacros`: one entry per diet that occurs in `data`, holding
   * the mean grams of that diet's recipes.
   */
  method CalculateAverageMacros(data: seq<Recipe>) returns (averages: map<string, Macros>)
    ensures forall d :: d in averages <==> exists r :: r in data && r.dietType == d
    ensures forall d :: d in averages ==>
      |DietGroup(data, d)| >= 1 && averages[d] == Mean(TotalsOf(DietGroup(data, d)))
  {
    var grouped := GroupByDiet(data);
    GroupTotalsAreGroupSums(data);
    averages := AverageEach(grouped);
  }

  /**
   * Two keto recipes with 10 g and 30 g of protein and a vegan one with 20 g:
   * the keto group has both keto recipes and averages 20 g of protein.
   */
  lemma AveragesExample(k1: Recipe, k2: Recipe, v: Recipe)
    requires k1.dietType == "keto" && k2.dietType == "keto" && v.dietType == "vegan"
    requires k1.proteinG == 10.0 && k2.proteinG == 30.0 && v.proteinG == 20.0
    ensures DietGroup([k1, k2, v], "keto") == [k1, k2]
    ensures Mean(TotalsOf([k1, k2])).proteinG == 20.0
  {
    var isKeto := KeyIs(Diet, "keto");
    KeyIsApply(Diet, "keto", k1);
    KeyIsApply(Diet, "keto", k2);
    KeyIsApply(Diet, "keto", v);
    assert isKeto(k1) && isKeto(k2);
    assert !isKeto(v) by { assert v.dietType[0] != "keto"[0]; }
    assert [k1, k2, v][..2] == [k1, k2] && [k1, k2][..1] == [k1];
    assert Filter([k1], isKeto) == [k1];
    assert Filter([k1, k2], isKeto) == [k1, k2];
    assert Sum([k1], Protein) == 10.0;
    assert Sum([k1, k2], Protein) == 40.0;
  }

  /** The group counts, summed in the order of `keys`. */
  function CountSum(keys: seq<string>, grouped: map<string, Totals>): int
    requires forall i :: 0 <= i < |keys| ==> keys[i] in grouped
  {
    if keys == [] then 0 else CountSum(Init(keys), grouped) + grouped[Last(keys)].count
  }

  lemma {:induction false} CountSumIsGroupSizes(keys: seq<string>, data: seq<Recipe>)
    requires forall i :: 0 <= i < |keys| ==> keys[i] in GroupTotals(data)
    ensures CountSum(keys, GroupTotals(data)) == GroupSizes(keys, data, Diet)
    decreases |keys|
  {
    if keys != [] {
      CountSumIsGroupSizes(Init(keys), data);
      GroupTotalsAreGroupSums(data);
    }
  }

  /**
   * The per-diet counts partition the input: summed over the diets (in
   * `Object.keys` order) they give the number of recipes.
   */
  lemma GroupCountsSumToLength(data: seq<Recipe>)
    ensures var keys := DistinctKeys(data, Diet);
      (forall i :: 0 <= i < |keys| ==> keys[i] in GroupTotals(data))
      && CountSum(keys, GroupTotals(data)) == |data|
  {
    var keys := DistinctKeys(data, Diet);
    GroupTotalsAreGroupSums(data);
    forall i | 0 <= i < |keys| ensures keys[i] in GroupTotals(data) {
      assert keys[i] in keys;
    }
    CountSumIsGroupSizes(keys, data);
    forall i | 0 <= i < |data| ensures Diet(data[i]) in keys {
      assert data[i] in data;
    }
    GroupSizesPartition(keys, data, Diet);
  }

  /** The JSON body of `GET /api/nutritional-insights`, without its timestamp. */
  datatype InsightsResponse = InsightsResponse(
    totalRecipes: nat,
    dietTypes: seq<string>,
    averageMacronutrients: map<string, Macros>)

  /** The recipes the insights endpoint reports on: diet filter first, then search. */
  function InsightsRecipes(dietData: seq<Recipe>, dietType: Option<string>, search: Option<string>): seq<Recipe>
  {
    FilterBySearch(FilterByDiet(dietData, dietType), search)
  }

  /** `GET /api/nutritional-insights`. */
  method NutritionalInsights(dietData: seq<Recipe>, dietType: Option<string>, search: Option<string>)
    returns (resp: InsightsResponse)
    ensures var f := InsightsRecipes(dietData, dietType, search);
      && resp.totalRecipes == |f|
      && NoDup(resp.dietTypes)
      && (forall d :: d in resp.dietTypes <==> exists r :: r in f && r.dietType == d)
      && (forall d :: d in resp.averageMacronutrients <==> d in resp.dietTypes)
      && (forall d :: d in resp.averageMacronutrients ==>
            |DietGroup(f, d)| >= 1 && resp.averageMacronutrients[d] == Mean(TotalsOf(DietGroup(f, d))))
  {
    var filteredData := FilterByDiet(dietData, dietType);
    filteredData := FilterBySearch(filteredData, search);
    var averageMacros := CalculateAverageMacros(filteredData);
    var dietTypes := DistinctKeys(filteredData, Diet);
    resp := InsightsResponse(|filteredData|, dietTypes, averageMacros);
  }

  /** Everything the insights endpoint counts comes from the stored collection, in order. */
  lemma InsightsRecipesAreSubsequence(dietData: seq<Recipe>, dietType: Option<string>, search: Option<string>)
    ensures IsSubsequence(InsightsRecipes(dietData, dietType, search), dietData)
  {
    var byDiet := FilterByDiet(dietData, dietType);
    FilterByDietIsSubsequence(dietData, dietType);
    FilterBySearchIsSubsequence(byDiet, search);
    SubsequenceTrans(InsightsRecipes(dietData, dietType, search), byDiet, dietData);
  }
}
