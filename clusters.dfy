/**
 * The clusters endpoint of backend/server.js: a two-level grouping of the
 * filtered recipes by diet type and then cuisine type, an average per leaf,
 * and the number of leaves.
 */
module Clusters {
  import opened Seqs
  import opened Recipes
  import opened Aggregates

  /** A leaf while the first pass runs: its count and the recipes pushed into it. */
  datatype Bucket = Bucket(count: nat, recipes: seq<Recipe>)

  /**
   * A leaf as the response holds it, after its averages are written and its
   * `recipes` member is deleted: the type has no field for the recipes.
   */
  datatype Cluster = Cluster(count: nat, avgProtein: real, avgCarbs: real, avgFat: real)

  /** The JSON body of `GET /api/clusters`, without its timestamp. */
  datatype ClustersResponse = ClustersResponse(
    clusters: map<string, map<string, Cluster>>,
    totalClusters: nat)

  /** The two-level key of a recipe. */
  function DietCuisine(r: Recipe): (string, string)
  {
    (r.dietType, r.cuisineType)
  }

  /** The recipes of one (diet, cuisine) leaf, in input order. */
  function LeafGroup(data: seq<Recipe>, d: string, c: string): seq<Recipe>
  {
    Filter(data, KeyIs(DietCuisine, (d, c)))
  }

  /** One step of the first `forEach`: create the row and leaf on demand, count and push the recipe. */
  function AddToGrouping(clusters: map<string, map<string, Bucket>>, recipe: Recipe): map<string, map<string, Bucket>>
  {
    var diet, cuisine := recipe.dietType, recipe.cuisineType;
    var row := if diet in clusters then clusters[diet] else map[];
    var leaf := if cuisine in row then row[cuisine] else Bucket(0, []);
    clusters[diet := row[cuisine := Bucket(leaf.count + 1, leaf.recipes + [recipe])]]
  }

  /** The nested `clusters` dictionary after the first `forEach` over `data`. */
  function Grouping(data: seq<Recipe>): map<string, map<string, Bucket>>
  {
    if data == [] then map[] else AddToGrouping(Grouping(Init(data)), Last(data))
  }

  lemma GroupingSnoc(s: seq<Recipe>, x: Recipe)
    ensures Grouping(s + [x]) == AddToGrouping(Grouping(s), x)
  {
    InitOfSnoc(s, x);
  }

  /** A diet has a row exactly when some recipe has that diet. */
  lemma {:induction false} GroupingDiets(data: seq<Recipe>, d: string)
    ensures d in Grouping(data) <==> DietGroup(data, d) != []
    decreases |data|
  {
    if data != [] {
      var prefix, x := Init(data), Last(data);
      assert data == prefix + [x];
      GroupingDiets(prefix, d);
      FilterSnoc(prefix, x, KeyIs(Diet, d));
    }
  }

  /** A (diet, cuisine) pair has a leaf exactly when some recipe has both. */
  lemma {:induction false} GroupingLeafKeys(data: seq<Recipe>, d: string, c: string)
    ensures (d in Grouping(data) && c in Grouping(data)[d]) <==> LeafGroup(data, d, c) != []
    decreases |data|
  {
    if data != [] {
      var prefix, x := Init(data), Last(data);
      assert data == prefix + [x];
      GroupingLeafKeys(prefix, d, c);
      FilterSnoc(prefix, x, KeyIs(DietCuisine, (d, c)));
    }
  }

  /** Each leaf counts and lists exactly the recipes of its (diet, cuisine) pair, in order. */
  lemma {:induction false} GroupingLeafValues(data: seq<Recipe>, d: string, c: string)
    requires d in Grouping(data) && c in Grouping(data)[d]
    ensures Grouping(data)[d][c] == Bucket(|LeafGroup(data, d, c)|, LeafGroup(data, d, c))
    decreases |data|
  {
    var prefix, x := Init(data), Last(data);
    var before := Grouping(prefix);
    assert data == prefix + [x];
    FilterSnoc(prefix, x, KeyIs(DietCuisine, (d, c)));
    var g := LeafGroup(prefix, d, c);
    if (d, c) == DietCuisine(x) {
      assert LeafGroup(data, d, c) == g + [x];
      if d in before && c in before[d] {
        GroupingLeafValues(prefix, d, c);
      } else {
        GroupingLeafKeys(prefix, d, c);
        assert g == [];
      }
    } else {
      assert LeafGroup(data, d, c) == g;
      GroupingLeafValues(prefix, d, c);
    }
  }

  /** The leaves of the first pass are never empty. */
  lemma LeavesNonEmpty(data: seq<Recipe>)
    ensures forall d, c :: d in Grouping(data) && c in Grouping(data)[d] ==>
      |Grouping(data)[d][c].recipes| >= 1
  {
    forall d, c | d in Grouping(data) && c in Grouping(data)[d]
      ensures |Grouping(data)[d][c].recipes| >= 1
    {
      GroupingLeafKeys(data, d, c);
      GroupingLeafValues(data, d, c);
    }
  }

  /** Every leaf of the bucket map holds at least one recipe. */
  ghost predicate NonEmptyLeaves(buckets: map<string, map<string, Bucket>>)
  {
    forall d, c :: d in buckets && c in buckets[d] ==> |buckets[d][c].recipes| >= 1
  }

  /**
   * The second pass over one leaf: its count is kept, its averages are the
   * sums of its recipes divided by their number, and its recipes are dropped.
   */
  function Summarize(b: Bucket): (r: Cluster)
    requires |b.recipes| >= 1
    ensures r.count == b.count
    ensures r.avgProtein * |b.recipes| as real == Sum(b.recipes, Protein)
    ensures r.avgCarbs * |b.recipes| as real == Sum(b.recipes, Carbs)
    ensures r.avgFat * |b.recipes| as real == Sum(b.recipes, Fat)
  {
    var n := |b.recipes| as real;
    Cluster(b.count, Sum(b.recipes, Protein) / n, Sum(b.recipes, Carbs) / n, Sum(b.recipes, Fat) / n)
  }

  /** Every leaf summarised, the nesting kept. */
  function Summaries(buckets: map<string, map<string, Bucket>>): map<string, map<string, Cluster>>
    requires NonEmptyLeaves(buckets)
  {
    map d | d in buckets :: map c | c in buckets[d] :: Summarize(buckets[d][c])
  }

  /** The `clusters` member of the response for the filtered recipes `data`. */
  function ClusterMap(data: seq<Recipe>): map<string, map<string, Cluster>>
  {
    LeavesNonEmpty(data);
    Summaries(Grouping(data))
  }

  /** The first `forEach`: create rows and leaves on demand, count and push each recipe. */
  method BuildBuckets(data: seq<Recipe>) returns (clusters: map<string, map<string, Bucket>>)
    ensures clusters == Grouping(data)
  {
    clusters := map[];
    for i := 0 to |data|
      invariant clusters == Grouping(data[..i])
    {
      var recipe := data[i];
      var diet := recipe.dietType;
      var cuisine := recipe.cuisineType;
      var row := if diet in clusters then clusters[diet] else map[];
      var leaf := if cuisine in row then row[cuisine] else Bucket(0, []);
      ghost var before := clusters;
      clusters := clusters[diet := row[cuisine := Bucket(leaf.count + 1, leaf.recipes + [recipe])]];
      assert clusters == AddToGrouping(before, recipe);
      GroupingSnoc(data[..i], recipe);
      assert data[..i + 1] == data[..i] + [recipe];
    }
    assert data[..|data|] == data;
  }

  /** The inner `forEach` of the second pass, over the cuisines of one diet. */
  method SummarizeRow(row: map<string, Bucket>) returns (out: map<string, Cluster>)
    requires forall c :: c in row ==> |row[c].recipes| >= 1
    ensures out.Keys == row.Keys
    ensures forall c :: c in out ==> out[c] == Summarize(row[c])
  {
    out := map[];
    var pending := row.Keys;
    while pending != {}
      invariant pending <= row.Keys
      invariant out.Keys == row.Keys - pending
      invariant forall c :: c in out ==> out[c] == Summarize(row[c])
      decreases pending
    {
      var cuisine :| cuisine in pending;
      out := out[cuisine := Summarize(row[cuisine])];
      pending := pending - {cuisine};
    }
  }

  /** The second pass: averages written and member lists deleted in every leaf. */
  method SummarizeBuckets(buckets: map<string, map<string, Bucket>>) returns (clusters: map<string, map<string, Cluster>>)
    requires NonEmptyLeaves(buckets)
    ensures clusters == Summaries(buckets)
  {
    clusters := map[];
    var pending := buckets.Keys;
    while pending != {}
      invariant pending <= buckets.Keys
      invariant clusters.Keys == buckets.Keys - pending
      invariant forall d :: d in clusters ==> clusters[d] == Summaries(buckets)[d]
      decreases pending
    {
      var diet :| diet in pending;
      var row := SummarizeRow(buckets[diet]);
      clusters := clusters[diet := row];
      pending := pending - {diet};
    }
  }

  /** `Object.values(clusters).reduce((sum, diet) => sum + Object.keys(diet).length, 0)`, visiting the diets in `keys` order. */
  function TotalClusters(keys: seq<string>, clusters: map<string, map<string, Cluster>>): nat
    requires forall i :: 0 <= i < |keys| ==> keys[i] in clusters
  {
    if keys == [] then 0 else TotalClusters(Init(keys), clusters) + |clusters[Last(keys)].Keys|
  }

  /** The set of (diet, cuisine) leaves of a nested map. */
  function Leaves(clusters: map<string, map<string, Cluster>>): set<(string, string)>
  {
    set d, c | d in clusters && c in clusters[d] :: (d, c)
  }

  /** The leaves under the diets listed in `keys`. */
  function LeavesUnder(keys: seq<string>, clusters: map<string, map<string, Cluster>>): set<(string, string)>
  {
    set d, c | d in keys && d in clusters && c in clusters[d] :: (d, c)
  }

  /** The leaves of one row: as many as the row has keys. */
  lemma {:induction false} RowLeavesCard(d: string, cuisines: set<string>)
    ensures |set c | c in cuisines :: (d, c)| == |cuisines|
    decreases cuisines
  {
    if cuisines != {} {
      var c0 :| c0 in cuisines;
      var rest := cuisines - {c0};
      RowLeavesCard(d, rest);
      assert (set c | c in cuisines :: (d, c)) == (set c | c in rest :: (d, c)) + {(d, c0)};
      assert (d, c0) !in (set c | c in rest :: (d, c));
    }
  }

  /**
   * Summing the row sizes over distinct diets counts the leaves under them
   * once each.
   */
  lemma {:induction false} TotalClustersCountsLeaves(keys: seq<string>, clusters: map<string, map<string, Cluster>>)
    requires NoDup(keys)
    requires forall i :: 0 <= i < |keys| ==> keys[i] in clusters
    ensures TotalClusters(keys, clusters) == |LeavesUnder(keys, clusters)|
    decreases |keys|
  {
    if keys != [] {
      var prefix, d := Init(keys), Last(keys);
      assert keys == prefix + [d];
      TotalClustersCountsLeaves(prefix, clusters);
      var row := set c | c in clusters[d] :: (d, c);
      RowLeavesCard(d, clusters[d].Keys);
      assert LeavesUnder(keys, clusters) == LeavesUnder(prefix, clusters) + row;
      assert d !in prefix;
      assert LeavesUnder(prefix, clusters) !! row;
    }
  }

  /** `total_clusters` is the number of leaves when every diet is visited once. */
  lemma TotalClustersIsLeafCount(keys: seq<string>, clusters: map<string, map<string, Cluster>>)
    requires NoDup(keys)
    requires forall d :: d in clusters <==> d in keys
    ensures (forall i :: 0 <= i < |keys| ==> keys[i] in clusters)
      && TotalClusters(keys, clusters) == |Leaves(clusters)|
  {
    assert forall i :: 0 <= i < |keys| ==> keys[i] in keys;
    TotalClustersCountsLeaves(keys, clusters);
    assert LeavesUnder(keys, clusters) == Leaves(clusters);
  }

  /**
   * The shape of the response: a row per diet that occurs, a leaf per
   * (diet, cuisine) pair that occurs, and in each leaf the size of that pair's
   * group, at least one, and the mean grams of its recipes.
   */
  lemma ClusterMapShape(data: seq<Recipe>, d: string, c: string)
    ensures d in ClusterMap(data) <==> exists r :: r in data && r.dietType == d
    ensures (d in ClusterMap(data) && c in ClusterMap(data)[d]) <==>
      exists r :: r in data && r.dietType == d && r.cuisineType == c
    ensures d in ClusterMap(data) && c in ClusterMap(data)[d] ==>
      var g := LeafGroup(data, d, c);
      && |g| >= 1
      && ClusterMap(data)[d][c] == Cluster(|g|, Sum(g, Protein) / |g| as real, Sum(g, Carbs) / |g| as real, Sum(g, Fat) / |g| as real)
  {
    GroupingDiets(data, d);
    var dg := DietGroup(data, d);
    var isDiet := KeyIs(Diet, d);
    forall r ensures isDiet(r) <==> r.dietType == d {
      KeyIsApply(Diet, d, r);
    }
    if dg != [] {
      assert dg[0] in dg;
    }
    GroupingLeafKeys(data, d, c);
    var g := LeafGroup(data, d, c);
    var isPair := KeyIs(DietCuisine, (d, c));
    forall r ensures isPair(r) <==> r.dietType == d && r.cuisineType == c {
      KeyIsApply(DietCuisine, (d, c), r);
    }
    assert forall r :: r in g <==> r in data && r.dietType == d && r.cuisineType == c;
    if g != [] {
      assert g[0] in g;
      GroupingLeafValues(data, d, c);
    }
  }

  /** Leaf counts summed over the leaves, each pair in first-occurrence order. */
  function LeafCountSum(pairs: seq<(string, string)>, clusters: map<string, map<string, Cluster>>): int
    requires forall i :: 0 <= i < |pairs| ==> pairs[i].0 in clusters && pairs[i].1 in clusters[pairs[i].0]
  {
    if pairs == [] then 0
    else LeafCountSum(Init(pairs), clusters) + clusters[Last(pairs).0][Last(pairs).1].count
  }

  lemma {:induction false} LeafCountSumIsGroupSizes(pairs: seq<(string, string)>, data: seq<Recipe>)
    requires forall i :: 0 <= i < |pairs| ==> pairs[i] in DistinctKeys(data, DietCuisine)
    ensures forall i :: 0 <= i < |pairs| ==> pairs[i].0 in ClusterMap(data) && pairs[i].1 in ClusterMap(data)[pairs[i].0]
    ensures LeafCountSum(pairs, ClusterMap(data)) == GroupSizes(pairs, data, DietCuisine)
    decreases |pairs|
  {
    forall i | 0 <= i < |pairs|
      ensures pairs[i].0 in ClusterMap(data) && pairs[i].1 in ClusterMap(data)[pairs[i].0]
    {
      var r :| r in data && DietCuisine(r) == pairs[i];
      ClusterMapShape(data, pairs[i].0, pairs[i].1);
    }
    if pairs != [] {
      LeafCountSumIsGroupSizes(Init(pairs), data);
      var p := Last(pairs);
      ClusterMapShape(data, p.0, p.1);
    }
  }

  /**
   * Every recipe lands in exactly one leaf: summed over the distinct
   * (diet, cuisine) pairs, the leaf counts give the number of recipes.
   */
  lemma LeafCountsSumToLength(data: seq<Recipe>)
    ensures var pairs := DistinctKeys(data, DietCuisine);
      (forall i :: 0 <= i < |pairs| ==> pairs[i].0 in ClusterMap(data) && pairs[i].1 in ClusterMap(data)[pairs[i].0])
      && LeafCountSum(pairs, ClusterMap(data)) == |data|
  {
    var pairs := DistinctKeys(data, DietCuisine);
    assert forall i :: 0 <= i < |pairs| ==> pairs[i] in pairs;
    LeafCountSumIsGroupSizes(pairs, data);
    forall i | 0 <= i < |data| ensures DietCuisine(data[i]) in pairs {
      assert data[i] in data;
    }
    GroupSizesPartition(pairs, data, DietCuisine);
  }

  /** The leaves are exactly the distinct (diet, cuisine) pairs of the recipes. */
  lemma LeavesAreDistinctPairs(data: seq<Recipe>)
    ensures Leaves(ClusterMap(data)) == Elements(DistinctKeys(data, DietCuisine))
    ensures |Leaves(ClusterMap(data))| == |DistinctKeys(data, DietCuisine)|
  {
    var pairs := DistinctKeys(data, DietCuisine);
    forall p ensures p in Leaves(ClusterMap(data)) <==> p in Elements(pairs) {
      ClusterMapShape(data, p.0, p.1);
    }
    NoDupCard(pairs);
  }

  /** `GET /api/clusters`. */
  method GetClusters(dietData: seq<Recipe>, dietType: Option<string>) returns (resp: ClustersResponse)
    ensures resp.clusters == ClusterMap(FilterByDiet(dietData, dietType))
    ensures resp.totalClusters == |Leaves(resp.clusters)|
    ensures resp.totalClusters == |DistinctKeys(FilterByDiet(dietData, dietType), DietCuisine)|
  {
    var filteredData := FilterByDiet(dietData, dietType);
    var buckets := BuildBuckets(filteredData);
    LeavesNonEmpty(filteredData);
    var clusters := SummarizeBuckets(buckets);
    var diets := DistinctKeys(filteredData, Diet);
    forall d ensures d in clusters <==> d in diets {
      ClusterMapShape(filteredData, d, "");
    }
    TotalClustersIsLeafCount(diets, clusters);
    resp := ClustersResponse(clusters, TotalClusters(diets, clusters));
    LeavesAreDistinctPairs(filteredData);
  }
}
