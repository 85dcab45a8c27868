# Nutritional Insights: a verified model of the recipe query engine

This project is a Dafny model of the Nutritional Insights demo. The demo has
an Express backend that serves a recipe dataset loaded from a CSV file and a
React dashboard that charts it.

The core of the model is the backend's query engine (`backend/server.js`):

- turning CSV rows into recipe records;
- the diet-type and search filters;
- the per-diet averages of the insights endpoint;
- the protein sort and paging of the recipes endpoint;
- the two-level diet/cuisine grouping of the clusters endpoint.

The model also covers these smaller pieces:

- the dashboard's client-side filter, 2FA code input and chart rows;
- the in-memory two-factor secret store;
- the Azure cleanup service and its routes;
- the OAuth profile mapping and the token claims.

One Dafny module stands for each source file:

| module | file | source |
|---|---|---|
| `Seqs` | seqs.dfy | sequence helpers: order-preserving filter, subsequence, first-occurrence de-duplication, group sizes |
| `Text` | text.dfy | `toLowerCase`, `includes`, `trim`, capitalisation |
| `Recipes` | recipes.dfy | backend/server.js: records, loading, health, diet and search filters |
| `Aggregates` | aggregates.dfy | backend/server.js: `calculateAverageMacros` and the insights endpoint |
| `RecipePages` | paging.dfy | backend/server.js: the recipes endpoint (sort and page) |
| `Clusters` | clusters.dfy | backend/server.js: the clusters endpoint |
| `Dashboard` | dashboard.dfy | frontend/src/App.js |
| `TwoFactor` | two_factor.dfy | backend/routes/2fa.js |
| `AzureCleanup` | azure_cleanup.dfy | backend/services/azure-cleanup.js |
| `AzureRoutes` | azure_routes.dfy | backend/routes/azure.js |
| `GoogleAuth` | google_auth.dfy | backend/auth/google.js |

The model follows the source's form:

- The loops that build dictionaries or lists are methods with loops. This
  covers the `grouped` sums and counts, the nested `clusters` map, the
  unused-resource list and the cleanup results.
- `GroupByDiet`, `BuildBuckets` and `IdentifyUnusedResources` are each proved
  equal to a specification function. That function is defined by recursion
  on the last element, so it grows the same way the loop does. `Cleanup` is
  specified index by index: each result is the entry for the id at that
  index.
- The protein sort is an insertion sort on an array, done in place.
- The module-level collections that the source updates are class fields:
  `dietData` and `user2FASecrets`.
- Values that the code gets from libraries, the network or the clock are
  parameters. This covers `parseFloat`, the TOTP check, the generated secret,
  the QR image, the Azure listing and deletion outcomes, the environment and
  the current time.

Points where the code's behaviour is easy to misread:

- The `diet_type` sentinel `all` is compared case-sensitively. `"All"` filters
  for a diet called "all" (`Recipes.CapitalisedAllFilters`).
- The backend tests only whether `search` is truthy. A whitespace-only term
  is not a no-op (`Recipes.BlankSearchFilters`).
- The backend does not validate `page` and `limit`. The model requires both
  to be at least 1 instead of inventing a rejection.
- A failed CSV load is fatal to start-up. The server only starts listening
  once the load has resolved, and a rejected load exits the process
  (backend/server.js:311-327). `LoadCsvData` models only the load's own
  effect: it reports the failure and leaves the collection unchanged.

## Model

| member | source | states |
|---|---|---|
| Recipes.CoerceRow | backend/server.js:66-74 | the diet type is lower-cased; names are copied; a macro whose parse is NaN becomes 0 and any other parsed number (negative too) is kept |
| Recipes.CoerceRows | backend/server.js:61-75 | one record per CSV row, in order, each the coercion of its row, all diet types lower-case |
| Recipes.RecipeStore.constructor | backend/server.js:53 | the collection starts empty |
| Recipes.RecipeStore.LoadCsvData | backend/server.js:56-86 | on success the collection becomes the coerced rows, in order; on a stream error it is left unchanged |
| Recipes.Health | backend/server.js:122-131 | `data_loaded` holds exactly when the collection is non-empty; `total_recipes` is its length |
| Recipes.FilterByDiet | backend/server.js:143-147 | an absent or empty `diet_type`, or exactly `all`, keeps everything; otherwise a recipe is kept iff its diet type equals the lower-cased parameter |
| Recipes.FilterByDietIsSubsequence | backend/server.js:186-190 | the diet filter's result is an order-preserving subsequence of its input |
| Recipes.CapitalisedAllFilters | backend/server.js:143 | the sentinel comparison is case-sensitive: `All` drops a vegan recipe |
| Recipes.FilterBySearch | backend/server.js:150-155 | an absent or empty term keeps everything; otherwise a recipe is kept iff the lower-cased term occurs in its diet type or lower-cased name |
| Recipes.FilterBySearchIsSubsequence | backend/server.js:150-155 | the search filter's result is an order-preserving subsequence of its input |
| Recipes.FilterByDietCounts | backend/server.js:143-147 | the diet filter keeps every copy of a matching recipe (duplicate CSV rows included) and no copy of any other |
| Recipes.FilterBySearchCounts | backend/server.js:150-155 | the search filter keeps every copy of a matching recipe and no copy of any other |
| Recipes.BlankSearchFilters | backend/server.js:150 | a blank term is not a no-op: `" "` drops a recipe whose texts contain no space |
| Text.TrimEmptyIffBlank | frontend/src/App.js:135 | `trim()` is empty exactly when the string is all white space |
| Text.Capitalize | frontend/src/App.js:162 | the label keeps its length, upper-cases the first character and keeps the rest |
| Seqs.DistinctKeys | backend/server.js:159 | `[...new Set(...)]` has no duplicates and holds exactly the diet types that occur |
| Aggregates.GroupTotalsKeys | backend/server.js:92-101 | after the first pass a diet has an entry exactly when its group is non-empty |
| Aggregates.GroupTotalsValues | backend/server.js:102-105 | each entry holds its group's protein, carbs and fat sums and its size |
| Aggregates.GroupTotalsAreGroupSums | backend/server.js:89-106 | the entries are exactly the diets that occur; each count is the group size, at least 1 |
| Aggregates.GroupByDiet | backend/server.js:90-106 | the `forEach` loop builds exactly the per-diet sums and counts |
| Aggregates.AverageEach | backend/server.js:108-116 | every grouped diet gets the mean of its sums, and no other key appears |
| Aggregates.CalculateAverageMacros | backend/server.js:89-119 | the keys are exactly the diets that occur; each value is the group sums divided by the group count, which is at least 1 |
| Aggregates.AveragesExample | backend/server.js:89-119 | keto recipes with 10 g and 30 g of protein form the keto group and average 20 g |
| Aggregates.GroupCountsSumToLength | backend/server.js:109 | summed over the diets in key order, the group counts give the number of input recipes |
| Aggregates.NutritionalInsights | backend/server.js:136-167 | `total_recipes` is the filtered length; `diet_types` has no duplicates and the same elements as the filtered diets; the averages are keyed by exactly those diets |
| Aggregates.InsightsRecipesAreSubsequence | backend/server.js:140-155 | diet filter then search filter keep an order-preserving subsequence of the collection |
| RecipePages.SortIsSorted | backend/server.js:193 | after the sort, protein is non-increasing |
| RecipePages.SortIsPermutation | backend/server.js:193 | the sort is a permutation of its input |
| RecipePages.SortIsStable | backend/server.js:193 | recipes with equal protein keep their input order |
| RecipePages.InsertDescStable | backend/server.js:193 | one insertion step appends the inserted recipe to its equal-protein run and leaves other runs alone |
| RecipePages.InsertInPlace | backend/server.js:193 | the in-place shifting step inserts `a[i]` into the sorted prefix and leaves the rest of the array alone |
| RecipePages.SortByProteinInPlace | backend/server.js:193 | the in-place sort leaves the array equal to the stable descending-protein order of its old contents |
| RecipePages.Slice | backend/server.js:198 | `slice` clamps both bounds to the length and returns the run between them |
| RecipePages.PageBounds | backend/server.js:196-198 | a page has at most `limit` recipes: those at positions `(page-1)*limit` onwards |
| RecipePages.TotalPages | backend/server.js:205 | `total_pages` is the ceiling of `total / limit` |
| RecipePages.PageNonEmptyIffInRange | backend/server.js:196-205 | a page is non-empty exactly when `page <= total_pages` |
| RecipePages.FirstPagesArePrefix | backend/server.js:196-198 | pages 1 to k together are exactly the first `k*limit` recipes: pages are disjoint and contiguous |
| RecipePages.FirstPageExample | backend/server.js:193-205 | recipes with 10, 30 and 20 g of protein: page 1 of size 2 is the 30 g and 20 g recipes, and there are 2 pages |
| RecipePages.GetRecipes | backend/server.js:179-207 | the response echoes `page` and `limit`, reports the filtered total and its page count, and holds that page of the sorted filtered list |
| Clusters.GroupingDiets | backend/server.js:235-241 | the first pass has a row for a diet exactly when some recipe has it |
| Clusters.GroupingLeafKeys | backend/server.js:243-251 | it has a leaf for (diet, cuisine) exactly when some recipe has both |
| Clusters.GroupingLeafValues | backend/server.js:253-254 | a leaf counts and lists exactly its pair's recipes, in input order |
| Clusters.LeavesNonEmpty | backend/server.js:243-254 | every leaf holds at least one recipe, so the averages never divide by zero |
| Clusters.BuildBuckets | backend/server.js:233-255 | the `forEach` loop builds exactly the nested grouping |
| Clusters.Summarize | backend/server.js:260-271 | a leaf keeps its count; each average times the number of recipes is their sum; the recipe list is gone |
| Clusters.SummarizeRow | backend/server.js:259-272 | every cuisine of a diet is summarised and no key is added |
| Clusters.SummarizeBuckets | backend/server.js:258-273 | every leaf of every diet is summarised and the nesting is kept |
| Clusters.TotalClustersCountsLeaves | backend/server.js:278-280 | summing the row sizes over distinct diets counts each leaf once |
| Clusters.TotalClustersIsLeafCount | backend/server.js:278-280 | `total_clusters` is the number of (diet, cuisine) leaves |
| Clusters.ClusterMapShape | backend/server.js:233-273 | the rows and leaves are the diets and (diet, cuisine) pairs that occur; each leaf holds its group size, at least 1, and the mean grams of its group |
| Clusters.LeafCountsSumToLength | backend/server.js:253 | summed over all leaves, the leaf counts give the number of filtered recipes |
| Clusters.LeavesAreDistinctPairs | backend/server.js:275-280 | the leaves are exactly the distinct (diet, cuisine) pairs, so there are as many leaves as pairs |
| Clusters.GetClusters | backend/server.js:219-282 | the response's clusters are the summarised grouping of the diet-filtered recipes; `total_clusters` is the number of leaves and of distinct pairs |
| Dashboard.FilterRecipes | frontend/src/App.js:127-143 | "All Diet Types" and a blank term keep everything; otherwise a recipe is kept iff its diet equals the lower-cased selection and the lower-cased untrimmed term occurs in its name, cuisine or diet |
| Dashboard.FilterRecipesIsSubsequence | frontend/src/App.js:127-143 | the client-side filter keeps an order-preserving subsequence |
| Dashboard.FilterRecipesCounts | frontend/src/App.js:127-141 | the client-side filter keeps every copy of a recipe that passes both tests and no copy of any other |
| Dashboard.PaddedTermMisses | frontend/src/App.js:135-140 | a blank term is ignored, but a padded term is matched untrimmed: `"tofu "` misses "Tofu" |
| Dashboard.FilterEffect | frontend/src/App.js:125-144 | without loaded recipes the filtered list is unchanged; otherwise it is set to the client-side filter of them, a subsequence of them |
| Dashboard.DisplayedCards | frontend/src/App.js:372 | at most 12 cards, the first ones of the filtered list |
| Dashboard.SanitizeCode | frontend/src/App.js:700 | the code is the first min(6, number of digits) digits of the input, in order: only digits, at most 6, a subsequence of the input |
| Dashboard.SanitizeCodeIdempotent | frontend/src/App.js:700 | sanitising twice equals sanitising once |
| Dashboard.Verify2FARequest | frontend/src/App.js:71-86 | a request is sent iff the code has length 6; it carries user `user-oauth` and the code |
| Dashboard.SanitizedCodeSendsIffSixDigits | frontend/src/App.js:72 | through the input field, a request is sent iff the input had at least six digits |
| Dashboard.PrepareBarChartData | frontend/src/App.js:159-167 | one bar per average entry, in order, with a capitalised label and the entry's grams |
| Dashboard.PrepareHeatmapData | frontend/src/App.js:187-195 | one row per bar, with the same label and grams |
| Dashboard.PreparePieData | frontend/src/App.js:178-185 | one slice per diet key, value 1, labelled like the bars |
| Dashboard.PrepareScatterData | frontend/src/App.js:169-176 | one point per recipe; a missing amount is plotted at 0 |
| TwoFactor.VerifyOutcome | backend/routes/2fa.js:39-86 | 400 iff user id or token is falsy; otherwise 404 iff no non-empty secret is stored; otherwise 200 iff the TOTP check with window 2 accepts, else 401 |
| TwoFactor.MissingFieldsIgnoresStore | backend/routes/2fa.js:43-48 | a request without user id or token is refused before the store is consulted |
| TwoFactor.VerifyAfterGenerate | backend/routes/2fa.js:50-77 | after a secret is stored for a user, that user's codes are accepted exactly when the TOTP check accepts them for that secret |
| TwoFactor.GenerateLeavesOthers | backend/routes/2fa.js:19 | storing one user's secret changes no other user's verification |
| TwoFactor.SecretStore.constructor | backend/routes/2fa.js:7 | the store starts empty |
| TwoFactor.SecretStore.Generate | backend/routes/2fa.js:10-36 | the user's entry is set to the new secret, overwriting and touching nothing else; the reply returns the stored secret; a QR failure gives 500 with the secret already stored |
| TwoFactor.SecretStore.Verify | backend/routes/2fa.js:39-86 | the answer is the verification outcome for the current store, which is not modified |
| AzureCleanup.MockResources | backend/services/azure-cleanup.js:41-65 | three mock resources, each with an environment tag |
| AzureCleanup.MockResourcesAllTagged | backend/services/azure-cleanup.js:41-65 | each mock resource is tagged test, development or temp |
| AzureCleanup.AzureCleanupService.constructor | backend/services/azure-cleanup.js:5-15 | mock mode is on iff the subscription id is unset or empty or the client could not be built |
| AzureCleanup.AzureCleanupService.GetAllResources | backend/services/azure-cleanup.js:18-39 | mock mode or a failed listing gives the mock list; otherwise the live listing |
| AzureCleanup.AzureCleanupService.IdentifyUnusedResources | backend/services/azure-cleanup.js:68-88 | exactly the resources tagged test, temp or development, in input order, every copy kept; untagged ones never; never longer than the input |
| AzureCleanup.AzureCleanupService.DeleteResource | backend/services/azure-cleanup.js:91-111 | mock mode always succeeds and echoes the id; live mode succeeds iff the deletion raised no error |
| AzureCleanup.MockModeAllUnused | backend/services/azure-cleanup.js:73-81 | all three mock resources are classified unused |
| AzureCleanup.EstimateCostSavings | backend/services/azure-cleanup.js:114-123 | the count is the number of resources, savings are 50 per resource, the currency is USD |
| AzureRoutes.ListResources | backend/routes/azure.js:8-24 | `count` equals the length of the returned list |
| AzureRoutes.ListUnused | backend/routes/azure.js:27-44 | the cost estimate is computed from the list returned, so its count is that list's length |
| AzureRoutes.EntryFor | backend/routes/azure.js:60-71 | each result carries its id and is a success iff the deletion succeeded |
| AzureRoutes.Cleanup | backend/routes/azure.js:47-87 | a missing or non-array body is 400; otherwise one result per id, in order, a failure not stopping the rest; the counts partition the results; in mock mode all succeed |
| GoogleAuth.GoogleUser | backend/auth/google.js:20-33 | a profile with an e-mail and a photo maps to id, first e-mail, display name, first photo and provider google; otherwise the callback fails |
| GoogleAuth.GitHubUser | backend/auth/google.js:47-61 | the e-mail falls back to `username@github.com`, the name to the username, the picture to the avatar URL; the provider is github |
| GoogleAuth.CallbacksAgreeOnCompleteProfiles | backend/auth/google.js:20-61 | on a complete profile both callbacks build the same user up to the provider |
| GoogleAuth.GitHubFallbackEmail | backend/auth/google.js:51 | a GitHub user without a listed e-mail gets `octocat@github.com` from username `octocat` |
| GoogleAuth.SigningKey | backend/auth/google.js:80 | the key is the configured secret, or exactly `default-secret-key` when it is unset or empty |
| GoogleAuth.GenerateToken | backend/auth/google.js:72-83 | the claims are id, email, name and provider copied from the user, the token is issued at the given clock time and expires 24 hours (86400 s) later |
| GoogleAuth.TokenIgnoresPicture | backend/auth/google.js:73-78 | the picture does not reach the token |

## Left out

- CSV streaming and the `csv-parser` library are not modelled: file I/O and a foreign parser. The rows arrive as a sequence, or `None` for a stream error. A row always has every column.
- `parseFloat` is a parameter returning `None` for NaN. Grams are exact reals. The model makes no IEEE-754 claims: rounding, infinities and `toFixed` display are not covered.
- Case mapping covers the ASCII letters only. JavaScript's full Unicode case mapping is not modelled.
- JavaScript objects are modelled as maps. Keys that name `Object.prototype` members (a diet called `constructor`) and the `Object.keys` rule that puts integer-like keys first are not modelled. Where the model sums over keys (`CountSum`, `TotalClusters`) it uses first-occurrence order; the key order of the response objects is not modelled.
- Query parameters are strings when present. Repeated parameters, which Express turns into arrays, are not modelled.
- RecipePages.GetRecipes: the handler's defaults `page = 1` and `limit = 20` for absent parameters are not modelled; both arrive as numbers.
- JSON body members are typed as strings: `userId` and `token` of the 2FA routes, and the elements of `resourceIds` in the cleanup route. Non-string values are not modelled. A numeric `userId` would be a different `Map` key from its string form, and `0` or `false` would be falsy.
- Start-up is not modelled: the server listening only after the CSV load resolves, the process exiting on a failed load, and a read-stream error that has no listener. Only `loadCSVData`'s effect on `dietData` is.
- RecipePages.GetRecipes: requires `page >= 1` and `limit >= 1` because the handler does not validate them. The string-to-number coercions of `page` and `limit` are not modelled.
- `Array.prototype.sort` is modelled by an in-place insertion sort with the same stable result. The engine's own algorithm is not modelled. The comparator is assumed consistent, which IEEE special values could break.
- Timestamps, Express wiring, middleware, sessions, passport registration and serialisation, and the 404/500 handlers are not modelled. The handlers' `catch` branches are unreachable in the model.
- Handlers take the collection as a parameter. They do not read it from the store object.
- 2FA: the `speakeasy` secret generation, the label built from `userEmail` and the TOTP algorithm are not modelled. The secret and the TOTP check are parameters. A failure inside secret generation is not modelled; only a failing QR image is.
- Azure: the SDK listing, the deletion call and credentials are parameters (the listing result, a per-call error). An exception rethrown from `identifyUnusedResources` cannot happen in the model.
- Google auth: the OAuth exchange and `jwt.sign` are not modelled. Only the sign call's inputs are modelled: claims, key, issue time and expiry in seconds.
- Dashboard: React rendering, hooks, `fetch`, `localStorage`, notifications, the reply handling after `verify2FA` and the QR data-URL conversion are not modelled.
- backend/routes/auth.js and backend/routes/gdpr.js are not part of this model. They hold redirect plumbing and static policy text.
