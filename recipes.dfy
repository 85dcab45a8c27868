/**
 * The recipe store of the Express backend (backend/server.js): the record each
 * CSV row becomes, the load that fills the in-memory `dietData` collection,
 * and the diet-type and search filters every data endpoint applies first.
 */
module Recipes {
  import opened Seqs
  import opened Text

  /** One row as the CSV parser hands it over: every column is text. */
  datatype CsvRow = CsvRow(
    dietType: string,
    recipeName: string,
    cuisineType: string,
    protein: string,
    carbs: string,
    fat: string)

  /** A loaded recipe: the diet type is lower-cased and the grams are numbers. */
  datatype Recipe = Recipe(
    dietType: string,
    recipeName: string,
    cuisineType: string,
    proteinG: real,
    carbsG: real,
    fatG: real)

  function Diet(r: Recipe): string { r.dietType }
  function Protein(r: Recipe): real { r.proteinG }
  function Carbs(r: Recipe): real { r.carbsG }
  function Fat(r: Recipe): real { r.fatG }

  /**
   * `parseFloat(x) || 0`, given what `parseFloat` returned: `None` stands for
   * NaN. NaN and zero both become 0; every other number passes unchanged,
   * negative ones included.
   */
  function OrZero(parsed: Option<real>): real
  {
    match parsed
    case None => 0.0
    case Some(v) => v
  }

  /** The record `loadCSVData` pushes for one row; `parseFloat` is the parser's number reading. */
  function CoerceRow(row: CsvRow, parseFloat: string -> Option<real>): (r: Recipe)
    ensures IsLowerCase(r.dietType) && r.dietType == Lower(row.dietType)
    ensures r.recipeName == row.recipeName && r.cuisineType == row.cuisineType
    ensures parseFloat(row.protein).None? ==> r.proteinG == 0.0
    ensures parseFloat(row.carbs).None? ==> r.carbsG == 0.0
    ensures parseFloat(row.fat).None? ==> r.fatG == 0.0
    ensures parseFloat(row.protein).Some? ==> r.proteinG == parseFloat(row.protein).value
    ensures parseFloat(row.carbs).Some? ==> r.carbsG == parseFloat(row.carbs).value
    ensures parseFloat(row.fat).Some? ==> r.fatG == parseFloat(row.fat).value
  {
    Recipe(
      Lower(row.dietType),
      row.recipeName,
      row.cuisineType,
      OrZero(parseFloat(row.protein)),
      OrZero(parseFloat(row.carbs)),
      OrZero(parseFloat(row.fat)))
  }

  /** The `on('data')` handler over the whole stream: one record per row, pushed in order. */
  method CoerceRows(rows: seq<CsvRow>, parseFloat: string -> Option<real>) returns (results: seq<Recipe>)
    ensures |results| == |rows|
    ensures forall i :: 0 <= i < |rows| ==> results[i] == CoerceRow(rows[i], parseFloat)
    ensures forall i :: 0 <= i < |results| ==> IsLowerCase(results[i].dietType)
  {
    results := [];
    for i := 0 to |rows|
      invariant |results| == i
      invariant forall j :: 0 <= j < i ==> results[j] == CoerceRow(rows[j], parseFloat)
    {
      results := results + [CoerceRow(rows[i], parseFloat)];
    }
  }

  /** The module-level `dietData` collection and the load that fills it. */
  class RecipeStore {
    var dietData: seq<Recipe>

    constructor ()
      ensures dietData == []
    {
      dietData := [];
    }

    /**
     * `loadCSVData`: `source` is the parsed stream, or `None` when the stream
     * reported an error, in which case the collection is left as it was.
     */
    method LoadCsvData(source: Option<seq<CsvRow>>, parseFloat: string -> Option<real>) returns (loaded: bool)
      modifies this
      ensures loaded <==> source.Some?
      ensures !loaded ==> dietData == old(dietData)
      ensures loaded ==> |dietData| == |source.value|
      ensures loaded ==> forall i :: 0 <= i < |dietData| ==> dietData[i] == CoerceRow(source.value[i], parseFloat)
    {
      match source
      case None =>
        loaded := false;
      case Some(rows) =>
        var results := CoerceRows(rows, parseFloat);
        dietData := results;
        loaded := true;
    }
  }

  /** The JSON body of `GET /api/health`, without its fixed texts and timestamp. */
  datatype HealthStatus = HealthStatus(dataLoaded: bool, totalRecipes: nat)

  /** `GET /api/health`: the data counts as loaded as soon as the collection is not empty. */
  function Health(dietData: seq<Recipe>): (h: HealthStatus)
    ensures h.totalRecipes == |dietData|
    ensures h.dataLoaded <==> dietData != []
  {
    HealthStatus(|dietData| > 0, |dietData|)
  }

  /**
   * `diet_type && diet_type !== 'all'`: an absent or empty parameter and the
   * exact string "all" switch the diet filter off; the comparison is case-sensitive.
   */
  predicate DietFilterActive(dietType: Option<string>)
  {
    dietType.Some? && dietType.value != "" && dietType.value != "all"
  }

  /** The diet-type filter shared by the three data endpoints. */
  function FilterByDiet(data: seq<Recipe>, dietType: Option<string>): (r: seq<Recipe>)
    ensures !DietFilterActive(dietType) ==> r == data
    ensures DietFilterActive(dietType) ==>
      forall x :: x in r <==> x in data && x.dietType == Lower(dietType.value)
  {
    if DietFilterActive(dietType) then
      var p := KeyIs(Diet, Lower(dietType.value));
      assert forall x :: p(x) <==> x.dietType == Lower(dietType.value) by {
        forall x ensures p(x) <==> x.dietType == Lower(dietType.value) {
          KeyIsApply(Diet, Lower(dietType.value), x);
        }
      }
      Filter(data, p)
    else data
  }

  /** The diet filter keeps an order-preserving subsequence of its input. */
  lemma FilterByDietIsSubsequence(data: seq<Recipe>, dietType: Option<string>)
    ensures IsSubsequence(FilterByDiet(data, dietType), data)
  {
    if DietFilterActive(dietType) {
      FilterIsSubsequence(data, KeyIs(Diet, Lower(dietType.value)));
    } else {
      SubsequenceRefl(data);
    }
  }

  /** The diet filter keeps every copy of a matching recipe and no copy of any other. */
  lemma FilterByDietCounts(data: seq<Recipe>, dietType: Option<string>)
    ensures forall x :: multiset(FilterByDiet(data, dietType))[x] ==
              if !DietFilterActive(dietType) || x.dietType == Lower(dietType.value) then multiset(data)[x] else 0
  {
    if DietFilterActive(dietType) {
      var d := Lower(dietType.value);
      FilterCounts(data, KeyIs(Diet, d));
      forall x ensures KeyIs(Diet, d)(x) <==> x.dietType == d {
        KeyIsApply(Diet, d, x);
      }
    }
  }

  /** "All" is not the sentinel: it filters for recipes whose diet type is "all". */
  lemma CapitalisedAllFilters(r: Recipe)
    requires r.dietType == "vegan"
    ensures FilterByDiet([r], Some("All")) == []
  {
    assert Lower("All")[0] == 'a';
    assert r.dietType[0] == 'v';
  }

  /** The search predicate: the term occurs in the diet type or in the lower-cased name. */
  function SearchMatch(term: string): Recipe -> bool
  {
    (r: Recipe) => Contains(r.dietType, Lower(term)) || Contains(Lower(r.recipeName), Lower(term))
  }

  /** The search filter of the insights endpoint; only a missing or empty term switches it off. */
  function FilterBySearch(data: seq<Recipe>, search: Option<string>): (r: seq<Recipe>)
    ensures search.None? || search.value == "" ==> r == data
    ensures search.Some? && search.value != "" ==>
      forall x :: x in r <==> x in data && (Contains(x.dietType, Lower(search.value)) || Contains(Lower(x.recipeName), Lower(search.value)))
  {
    if search.Some? && search.value != "" then Filter(data, SearchMatch(search.value)) else data
  }

  lemma FilterBySearchIsSubsequence(data: seq<Recipe>, search: Option<string>)
    ensures IsSubsequence(FilterBySearch(data, search), data)
  {
    if search.Some? && search.value != "" {
      FilterIsSubsequence(data, SearchMatch(search.value));
    } else {
      SubsequenceRefl(data);
    }
  }

  /** The search filter keeps every copy of a matching recipe and no copy of any other. */
  lemma FilterBySearchCounts(data: seq<Recipe>, search: Option<string>)
    ensures forall x :: multiset(FilterBySearch(data, search))[x] ==
              if search.None? || search.value == "" || SearchMatch(search.value)(x) then multiset(data)[x] else 0
  {
    if search.Some? && search.value != "" {
      FilterCounts(data, SearchMatch(search.value));
    }
  }

  /** A blank search term is not a no-op: " " drops a recipe whose texts contain no space. */
  lemma BlankSearchFilters(r: Recipe)
    requires r.dietType == "vegan" && r.recipeName == "Tofu"
    ensures FilterBySearch([r], Some(" ")) == []
  {
    var t := Lower(" ");
    assert t == " ";
    assert !Contains(r.dietType, t) by {
      forall i | 0 <= i <= |r.dietType| - 1 ensures !OccursAt(r.dietType, t, i) {
        assert r.dietType[i..i + 1][0] == r.dietType[i];
      }
    }
    var name := Lower(r.recipeName);
    assert !Contains(name, t) by {
      forall i | 0 <= i <= |name| - 1 ensures !OccursAt(name, t, i) {
        assert name[i..i + 1][0] == name[i] == LowerChar(r.recipeName[i]);
      }
    }
    assert !SearchMatch(" ")(r);
  }
}
