/**
 * The Azure routes (backend/routes/azure.js): listing, the unused report
 * with its cost estimate, and the cleanup loop that deletes the requested
 * resources one by one.
 */
module AzureRoutes {
  import opened Seqs
  import opened AzureCleanup

  /** The body of `GET /api/azure/resources`. */
  datatype ResourcesResponse = ResourcesResponse(count: nat, resources: seq<Resource>)

  /** The body of `GET /api/azure/unused`. */
  datatype UnusedResponse = UnusedResponse(unusedResources: seq<Resource>, costSavings: CostEstimate)

  /** One entry of the cleanup `results`. */
  datatype CleanupEntry =
    | Succeeded(resourceId: string, message: string)
    | Failed(resourceId: string, error: string)

  /** The reply of `POST /api/azure/cleanup`. */
  datatype CleanupResponse =
    | BadRequest   // 400: `resourceIds` missing or not an array
    | CleanupDone(results: seq<CleanupEntry>, successCount: nat, failureCount: nat)

  /** `r.success`. */
  predicate IsSuccess(e: CleanupEntry)
  {
    e.Succeeded?
  }

  /** `GET /resources`: the list and its length. */
  function ListResources(service: AzureCleanupService, listing: Option<seq<Resource>>): (resp: ResourcesResponse)
    ensures resp.resources == service.GetAllResources(listing)
    ensures resp.count == |resp.resources|
  {
    var resources := service.GetAllResources(listing);
    ResourcesResponse(|resources|, resources)
  }

  /** `GET /unused`: the estimate is computed from the very list that is returned. */
  method ListUnused(service: AzureCleanupService, listing: Option<seq<Resource>>) returns (resp: UnusedResponse)
    ensures resp.unusedResources == Filter(service.GetAllResources(listing), HasTestTag)
    ensures resp.costSavings.resourceCount == |resp.unusedResources|
    ensures resp.costSavings.estimatedMonthlySavings == MonthlyPerResource * |resp.unusedResources|
  {
    var unusedResources := service.IdentifyUnusedResources(listing);
    var costEstimate := EstimateCostSavings(unusedResources);
    resp := UnusedResponse(unusedResources, costEstimate);
  }

  /** The entry pushed for one id, given what the deletion call did. */
  function EntryFor(service: AzureCleanupService, resourceId: string, liveError: Option<string>): (e: CleanupEntry)
    ensures e.resourceId == resourceId
    ensures e.Succeeded? <==> service.DeleteResource(resourceId, liveError).Deleted?
  {
    match service.DeleteResource(resourceId, liveError)
    case Deleted(id, message) => Succeeded(id, message)
    case DeleteError(error) => Failed(resourceId, error)
  }

  /**
   * `POST /cleanup`: `resourceIds` is `None` when the member is missing or
   * not an array; `liveError(i, id)` is the error the i-th deletion raised in
   * live mode, if any.
   */
  method Cleanup(service: AzureCleanupService, resourceIds: Option<seq<string>>,
                 liveError: (nat, string) -> Option<string>) returns (resp: CleanupResponse)
    ensures resp.BadRequest? <==> resourceIds.None?
    ensures resp.CleanupDone? ==>
      && |resp.results| == |resourceIds.value|
      && (forall i :: 0 <= i < |resp.results| ==>
            resp.results[i] == EntryFor(service, resourceIds.value[i], liveError(i, resourceIds.value[i])))
      && resp.successCount == |Filter(resp.results, IsSuccess)|
      && resp.failureCount == |Filter(resp.results, Not(IsSuccess))|
      && resp.successCount + resp.failureCount == |resp.results|
    ensures resp.CleanupDone? && service.mockMode ==>
      resp.successCount == |resourceIds.value| && resp.failureCount == 0
  {
    if resourceIds.None? {
      return BadRequest;
    }
    var ids := resourceIds.value;
    var results: seq<CleanupEntry> := [];
    for i := 0 to |ids|
      invariant |results| == i
      invariant forall k :: 0 <= k < i ==> results[k] == EntryFor(service, ids[k], liveError(k, ids[k]))
    {
      var resourceId := ids[i];
      results := results + [EntryFor(service, resourceId, liveError(i, resourceId))];
    }
    FilterSplit(results, IsSuccess);
    if service.mockMode {
      FilterAll(results, IsSuccess);
    }
    resp := CleanupDone(results, |Filter(results, IsSuccess)|, |Filter(results, Not(IsSuccess))|);
  }
}
