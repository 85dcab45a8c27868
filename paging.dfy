/**
 * The recipes endpoint of backend/server.js: the diet filter, a stable sort by
 * protein content (largest first), and one page of the sorted list.
 */
module RecipePages {
  import opened Seqs
  import opened Recipes

  /** Non-increasing protein content from left to right. */
  predicate SortedByProteinDesc(s: seq<Recipe>)
  {
    forall i, j :: 0 <= i < j < |s| ==> s[i].proteinG >= s[j].proteinG
  }

  /**
   * Insert x into s after every element whose protein is at least that of x
   * (scanning from the right, as a stable insertion sort does).
   */
  function InsertDesc(s: seq<Recipe>, x: Recipe): seq<Recipe>
  {
    if s == [] then [x]
    else if Last(s).proteinG >= x.proteinG then s + [x]
    else InsertDesc(Init(s), x) + [Last(s)]
  }

  /**
   * The order `filteredData.sort((a, b) => b.protein_g - a.protein_g)` leaves:
   * the stable sort by descending protein.
   */
  function SortByProteinDesc(s: seq<Recipe>): seq<Recipe>
  {
    if s == [] then [] else InsertDesc(SortByProteinDesc(Init(s)), Last(s))
  }

  lemma {:induction false} InsertDescPermutes(s: seq<Recipe>, x: Recipe)
    ensures multiset(InsertDesc(s, x)) == multiset(s) + multiset{x}
    decreases |s|
  {
    if s != [] && Last(s).proteinG < x.proteinG {
      InsertDescPermutes(Init(s), x);
      assert s == Init(s) + [Last(s)];
    }
  }

  lemma {:induction false} InsertDescSorted(s: seq<Recipe>, x: Recipe)
    requires SortedByProteinDesc(s)
    ensures SortedByProteinDesc(InsertDesc(s, x))
    decreases |s|
  {
    if s != [] && Last(s).proteinG < x.proteinG {
      var prefix, y := Init(s), Last(s);
      InsertDescSorted(prefix, x);
      InsertDescPermutes(prefix, x);
      var t := InsertDesc(prefix, x);
      forall i | 0 <= i < |t| ensures t[i].proteinG >= y.proteinG {
        assert t[i] in multiset(t);
        if t[i] != x {
          assert t[i] in multiset(prefix);
          var k :| 0 <= k < |prefix| && prefix[k] == t[i];
          assert s[k] == t[i];
        }
      }
    }
  }

  lemma ConcatSwap(a: seq<Recipe>, b: seq<Recipe>, c: seq<Recipe>)
    requires b == [] || c == []
    ensures a + b + c == a + c + b
  {
  }

  /**
   * Inserting x changes the run of recipes with protein p only by appending
   * x to it when x has protein p.
   */
  lemma {:induction false} InsertDescStable(s: seq<Recipe>, x: Recipe, p: real)
    ensures Filter(InsertDesc(s, x), KeyIs(Protein, p)) ==
      Filter(s, KeyIs(Protein, p)) + (if x.proteinG == p then [x] else [])
    decreases |s|
  {
    var same := KeyIs(Protein, p);
    KeyIsApply(Protein, p, x);
    if s == [] {
      FilterSnoc([], x, same);
    } else if Last(s).proteinG >= x.proteinG {
      FilterSnoc(s, x, same);
    } else {
      var prefix, y := Init(s), Last(s);
      InsertDescStable(prefix, x, p);
      var t := InsertDesc(prefix, x);
      FilterSnoc(t, y, same);
      var fx := if x.proteinG == p then [x] else [];
      var fy := if same(y) then [y] else [];
      var a := Filter(prefix, same);
      assert Filter(s, same) == a + fy;
      assert Filter(InsertDesc(s, x), same) == a + fx + fy;
      KeyIsApply(Protein, p, y);
      ConcatSwap(a, fx, fy);
    }
  }

  /** The sort puts protein in non-increasing order. */
  lemma {:induction false} SortIsSorted(s: seq<Recipe>)
    ensures SortedByProteinDesc(SortByProteinDesc(s))
    decreases |s|
  {
    if s != [] {
      SortIsSorted(Init(s));
      InsertDescSorted(SortByProteinDesc(Init(s)), Last(s));
    }
  }

  /** The sort rearranges its input and nothing else. */
  lemma {:induction false} SortIsPermutation(s: seq<Recipe>)
    ensures multiset(SortByProteinDesc(s)) == multiset(s)
    decreases |s|
  {
    if s != [] {
      var prefix, x := Init(s), Last(s);
      var sorted := SortByProteinDesc(prefix);
      SortIsPermutation(prefix);
      InsertDescPermutes(sorted, x);
      assert SortByProteinDesc(s) == InsertDesc(sorted, x);
      assert s == prefix + [x];
      assert multiset(s) == multiset(prefix) + multiset{x};
    }
  }

  /** The sort is stable: recipes with equal protein keep their input order. */
  lemma {:induction false} SortIsStable(s: seq<Recipe>, p: real)
    ensures Filter(SortByProteinDesc(s), KeyIs(Protein, p)) == Filter(s, KeyIs(Protein, p))
    decreases |s|
  {
    if s != [] {
      var prefix, x := Init(s), Last(s);
      var sorted := SortByProteinDesc(prefix);
      var same := KeyIs(Protein, p);
      var fx := if x.proteinG == p then [x] else [];
      KeyIsApply(Protein, p, x);
      calc {
        Filter(SortByProteinDesc(s), same);
        Filter(InsertDesc(sorted, x), same);
        { InsertDescStable(sorted, x, p); }
        Filter(sorted, same) + fx;
        { SortIsStable(prefix, p); }
        Filter(prefix, same) + fx;
        { FilterSnoc(prefix, x, same); }
        Filter(prefix + [x], same);
        { assert prefix + [x] == s; }
        Filter(s, same);
      }
    }
  }

  /**
   * Where x lands: when everything from position j on has less protein than
   * x and the element before j (if any) has at least as much, x goes at j.
   */
  lemma {:induction false} InsertDescAt(s: seq<Recipe>, j: int, x: Recipe)
    requires 0 <= j <= |s| && (j == 0 || s[j - 1].proteinG >= x.proteinG)
    requires forall k :: j <= k < |s| ==> s[k].proteinG < x.proteinG
    ensures InsertDesc(s, x) == s[..j] + [x] + s[j..]
    decreases |s|
  {
    if |s| == j {
      assert s[..j] == s && s[j..] == [];
    } else {
      var prefix := Init(s);
      assert prefix[..j] == s[..j];
      InsertDescAt(prefix, j, x);
      assert s[j..] == prefix[j..] + [Last(s)];
    }
  }

  /** The array contents when the shifting loop stops at `j` and `x` is written there. */
  lemma InsertedAt(sorted: seq<Recipe>, j: int, x: Recipe, b: seq<Recipe>)
    requires 0 <= j <= |sorted| && |b| == |sorted| + 1 && b[j] == x
    requires forall k :: 0 <= k < j ==> b[k] == sorted[k]
    requires forall k :: j < k < |b| ==> b[k] == sorted[k - 1]
    ensures b == sorted[..j] + [x] + sorted[j..]
  {
    ghost var inserted := sorted[..j] + [x] + sorted[j..];
    forall k | 0 <= k < |b|
      ensures b[k] == inserted[k]
    {
      if k > j {
        assert inserted[k] == sorted[k - 1];
      }
    }
  }

  /**
   * One step of the insertion sort: shift the elements of `a[..i]` with less
   * protein than `a[i]` one place right and put `a[i]` in the gap.
   */
  method InsertInPlace(a: array<Recipe>, i: int)
    requires 0 <= i < a.Length
    modifies a
    ensures a[..i + 1] == InsertDesc(old(a[..i]), old(a[i]))
    ensures forall k :: i < k < a.Length ==> a[k] == old(a[k])
  {
    ghost var sorted := a[..i];
    var x := a[i];
    var j := i;
    while j > 0 && a[j - 1].proteinG < x.proteinG
      invariant 0 <= j <= i
      invariant forall k :: 0 <= k < j ==> a[k] == sorted[k]
      invariant forall k :: j < k <= i ==> a[k] == sorted[k - 1]
      invariant forall k :: i < k < a.Length ==> a[k] == old(a[k])
      invariant forall k :: j <= k < i ==> sorted[k].proteinG < x.proteinG
    {
      a[j] := a[j - 1];
      j := j - 1;
    }
    a[j] := x;
    InsertDescAt(sorted, j, x);
    InsertedAt(sorted, j, x, a[..i + 1]);
  }

  lemma SortSnoc(s: seq<Recipe>, x: Recipe)
    ensures SortByProteinDesc(s + [x]) == InsertDesc(SortByProteinDesc(s), x)
  {
    InitOfSnoc(s, x);
  }

  /** `filteredData.sort(...)`, in place, as an insertion sort. */
  method SortByProteinInPlace(a: array<Recipe>)
    modifies a
    ensures a[..] == SortByProteinDesc(old(a[..]))
  {
    ghost var input := a[..];
    for i := 0 to a.Length
      invariant a[..i] == SortByProteinDesc(input[..i])
      invariant forall k :: i <= k < a.Length ==> a[k] == input[k]
    {
      InsertInPlace(a, i);
      assert input[..i + 1] == input[..i] + [input[i]];
      SortSnoc(input[..i], input[i]);
    }
    assert input[..a.Length] == input;
  }

  /**
   * `array.slice(start, end)` for non-negative bounds: the elements from
   * `start` up to but excluding `end`, both clamped to the length.
   */
  function Slice(s: seq<Recipe>, start: int, end: int): (r: seq<Recipe>)
    requires 0 <= start && 0 <= end
    ensures |r| == if end <= start || |s| <= start then 0 else Min(end, |s|) - start
    ensures forall k :: 0 <= k < |r| ==> r[k] == s[start + k]
  {
    if end <= start || |s| <= start then [] else s[start..Min(end, |s|)]
  }

  /** The first index of a page. */
  function PageStart(page: int, limit: int): int
  {
    (page - 1) * limit
  }

  /** `filteredData.slice(startIndex, startIndex + limit)` with `startIndex = (page - 1) * limit`. */
  function PageSlice(s: seq<Recipe>, page: int, limit: int): seq<Recipe>
    requires page >= 1 && limit >= 1
  {
    Slice(s, PageStart(page, limit), PageStart(page, limit) + limit)
  }

  /** A page holds at most `limit` recipes, and is the run of the list starting at its first index. */
  lemma PageBounds(s: seq<Recipe>, page: int, limit: int)
    requires page >= 1 && limit >= 1
    ensures |PageSlice(s, page, limit)| <= limit
    ensures forall k :: 0 <= k < |PageSlice(s, page, limit)| ==>
      PageStart(page, limit) + k < |s| && PageSlice(s, page, limit)[k] == s[PageStart(page, limit) + k]
  {
  }

  /** `Math.ceil(total / limit)` for a non-negative total and a positive limit. */
  function TotalPages(total: nat, limit: int): (n: nat)
    requires limit >= 1
    ensures (n - 1) * limit < total <= n * limit || (total == 0 && n == 0)
  {
    (total + limit - 1) / limit
  }

  lemma MulPred(k: int, limit: int)
    ensures k * limit == (k - 1) * limit + limit
  {
  }

  lemma MulMonotone(a: int, b: int, c: int)
    requires a <= b && c >= 0
    ensures a * c <= b * c
  {
  }

  /** A page is empty exactly when it lies beyond `total_pages`. */
  lemma {:induction false} PageNonEmptyIffInRange(s: seq<Recipe>, page: int, limit: int)
    requires page >= 1 && limit >= 1
    ensures PageSlice(s, page, limit) != [] <==> page <= TotalPages(|s|, limit)
  {
    var n := TotalPages(|s|, limit);
    if page <= n {
      MulMonotone(page - 1, n - 1, limit);
    } else {
      MulMonotone(n, page - 1, limit);
    }
  }

  /** The concatenation of pages 1 to k. */
  function FirstPages(s: seq<Recipe>, k: nat, limit: int): seq<Recipe>
    requires limit >= 1
  {
    if k == 0 then [] else FirstPages(s, k - 1, limit) + PageSlice(s, k, limit)
  }

  /**
   * Consecutive pages are disjoint and contiguous: the first k pages together
   * are exactly the first k * limit recipes (or all of them).
   */
  lemma {:induction false} FirstPagesArePrefix(s: seq<Recipe>, k: nat, limit: int)
    requires limit >= 1
    ensures FirstPages(s, k, limit) == s[..Min(k * limit, |s|)]
  {
    if k > 0 {
      FirstPagesArePrefix(s, k - 1, limit);
      FirstPagesStep(s, k, limit);
      PrefixExtend(s, (k - 1) * limit, k * limit);
    }
  }

  /** Page k runs from index `(k - 1) * limit` up to `k * limit`, clamped to the length. */
  lemma FirstPagesStep(s: seq<Recipe>, k: int, limit: int)
    requires k >= 1 && limit >= 1
    ensures 0 <= (k - 1) * limit <= k * limit
    ensures FirstPages(s, k, limit) == FirstPages(s, k - 1, limit) +
      if |s| <= (k - 1) * limit then [] else s[(k - 1) * limit..Min(k * limit, |s|)]
  {
    MulPred(k, limit);
    MulMonotone(0, k - 1, limit);
  }

  /** Extending a clamped prefix by the clamped run that follows it. */
  lemma PrefixExtend(s: seq<Recipe>, lo: int, hi: int)
    requires 0 <= lo <= hi
    ensures s[..Min(lo, |s|)] + (if |s| <= lo then [] else s[lo..Min(hi, |s|)]) == s[..Min(hi, |s|)]
  {
    if lo < |s| {
      assert s[..lo] + s[lo..Min(hi, |s|)] == s[..Min(hi, |s|)];
    }
  }

  /**
   * Recipes with 10, 30 and 20 g of protein, two per page: the first page
   * holds the 30 g and the 20 g recipe, and there are two pages.
   */
  lemma FirstPageExample(a: Recipe, b: Recipe, c: Recipe)
    requires a.proteinG == 10.0 && b.proteinG == 30.0 && c.proteinG == 20.0
    ensures PageSlice(SortByProteinDesc([a, b, c]), 1, 2) == [b, c]
    ensures TotalPages(3, 2) == 2
  {
    assert Init([a, b, c]) == [a, b] && Init([a, b]) == [a] && Init([a]) == [];
    assert SortByProteinDesc([a]) == [a];
    assert InsertDesc(Init([a]), b) == [b];
    assert SortByProteinDesc([a, b]) == [b, a];
    assert Init([b, a]) == [b];
    assert InsertDesc([b], c) == [b, c];
    assert SortByProteinDesc([a, b, c]) == [b, c, a];
  }

  /** The JSON body of `GET /api/recipes`. */
  datatype RecipesResponse = RecipesResponse(
    page: int,
    limit: int,
    total: nat,
    totalPages: nat,
    recipes: seq<Recipe>)

  /**
   * `GET /api/recipes` for integer `page` and `limit` of at least one (the
   * handler does not check them).
   */
  method GetRecipes(dietData: seq<Recipe>, dietType: Option<string>, page: int, limit: int)
    returns (resp: RecipesResponse)
    requires page >= 1 && limit >= 1
    ensures var filtered := FilterByDiet(dietData, dietType);
      && resp.page == page && resp.limit == limit
      && resp.total == |filtered|
      && resp.totalPages == TotalPages(|filtered|, limit)
      && resp.recipes == PageSlice(SortByProteinDesc(filtered), page, limit)
  {
    var filteredData := FilterByDiet(dietData, dietType);
    var a := new Recipe[|filteredData|](i requires 0 <= i < |filteredData| => filteredData[i]);
    assert a[..] == filteredData;
    SortByProteinInPlace(a);
    var startIndex := (page - 1) * limit;
    var endIndex := startIndex + limit;
    var paginatedData := Slice(a[..], startIndex, endIndex);
    resp := RecipesResponse(page, limit, |filteredData|, TotalPages(|filteredData|, limit), paginatedData);
  }
}
