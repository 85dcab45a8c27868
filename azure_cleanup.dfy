/**
 * The cleanup service (backend/services/azure-cleanup.js): resources tagged
 * as test, temporary or development are "unused", each is priced at a flat
 * monthly amount, and without a configured subscription everything runs
 * against a fixed list of three mock resources.
 */
module AzureCleanup {
  import opened Seqs

  /** A resource as the service reports it; `tags` is `None` when the resource has none. */
  datatype Resource = Resource(
    id: string,
    name: string,
    resourceType: string,
    location: string,
    tags: Option<map<string, string>>)

  /** The reply of `deleteResource`, or the message of the error it throws. */
  datatype DeleteResult =
    | Deleted(resourceId: string, message: string)
    | DeleteError(errorMessage: string)

  /** The result of `estimateCostSavings`. */
  datatype CostEstimate = CostEstimate(resourceCount: nat, estimatedMonthlySavings: int, currency: string)

  const MonthlyPerResource: int := 50

  /** The mock storage account, tagged as a test resource. */
  const MockStorage: Resource :=
    Resource("/subscriptions/mock/resourceGroups/test-rg/providers/Microsoft.Storage/storageAccounts/teststorage",
             "teststorage", "Microsoft.Storage/storageAccounts", "eastus", Some(map["environment" := "test"]))

  /** The mock virtual machine, tagged as a development resource. */
  const MockVm: Resource :=
    Resource("/subscriptions/mock/resourceGroups/dev-rg/providers/Microsoft.Compute/virtualMachines/devvm",
             "devvm", "Microsoft.Compute/virtualMachines", "westus", Some(map["environment" := "development"]))

  /** The mock web app, tagged as a temporary resource. */
  const MockWebApp: Resource :=
    Resource("/subscriptions/mock/resourceGroups/temp-rg/providers/Microsoft.Web/sites/tempapp",
             "tempapp", "Microsoft.Web/sites", "eastus2", Some(map["environment" := "temp"]))

  /** The three resources of mock mode. */
  function MockResources(): (r: seq<Resource>)
    ensures |r| == 3
    ensures forall i :: 0 <= i < 3 ==> r[i].tags.Some? && "environment" in r[i].tags.value
  {
    [MockStorage, MockVm, MockWebApp]
  }

  /** `resource.tags?.environment` is "test", "temp" or "development". */
  predicate HasTestTag(r: Resource)
  {
    && r.tags.Some?
    && "environment" in r.tags.value
    && r.tags.value["environment"] in {"test", "temp", "development"}
  }

  /** Every mock resource carries a test tag. */
  lemma MockResourcesAllTagged()
    ensures forall i :: 0 <= i < |MockResources()| ==> HasTestTag(MockResources()[i])
  {
    var m := MockResources();
    assert m[0].tags.value["environment"] == "test";
    assert m[1].tags.value["environment"] == "development";
    assert m[2].tags.value["environment"] == "temp";
  }

  /** The service; `mockMode` is fixed when it is constructed. */
  class AzureCleanupService {
    const mockMode: bool

    /**
     * `subscriptionId` is the environment's `AZURE_SUBSCRIPTION_ID`;
     * `clientCreated` says whether building the credential and the client
     * succeeded. Mock mode is on when either is missing.
     */
    constructor (subscriptionId: Option<string>, clientCreated: bool)
      ensures mockMode <==> !clientCreated || subscriptionId.None? || subscriptionId.value == ""
    {
      if clientCreated {
        mockMode := subscriptionId.None? || subscriptionId.value == "";
      } else {
        mockMode := true;
      }
    }

    /**
     * `getAllResources`: `listing` is what the live listing yielded, or `None`
     * when it failed. Mock mode and a failed listing both give the mock list.
     */
    function GetAllResources(listing: Option<seq<Resource>>): (r: seq<Resource>)
      ensures mockMode || listing.None? ==> r == MockResources()
      ensures !mockMode && listing.Some? ==> r == listing.value
    {
      if mockMode || listing.None? then MockResources() else listing.value
    }

    /** `identifyUnusedResources`: the loop that pushes every tagged resource. */
    method IdentifyUnusedResources(listing: Option<seq<Resource>>) returns (unusedResources: seq<Resource>)
      ensures unusedResources == Filter(GetAllResources(listing), HasTestTag)
      ensures forall x :: x in unusedResources <==> x in GetAllResources(listing) && HasTestTag(x)
      ensures forall x :: x in unusedResources ==> x.tags.Some?
      ensures |unusedResources| <= |GetAllResources(listing)|
      ensures forall x :: multiset(unusedResources)[x] ==
                if HasTestTag(x) then multiset(GetAllResources(listing))[x] else 0
    {
      var allResources := GetAllResources(listing);
      unusedResources := [];
      for i := 0 to |allResources|
        invariant unusedResources == Filter(allResources[..i], HasTestTag)
      {
        var resource := allResources[i];
        FilterSnoc(allResources[..i], resource, HasTestTag);
        assert allResources[..i + 1] == allResources[..i] + [resource];
        if HasTestTag(resource) {
          unusedResources := unusedResources + [resource];
        }
      }
      assert allResources[..|allResources|] == allResources;
      FilterCounts(allResources, HasTestTag);
    }

    /**
     * `deleteResource`: in mock mode it always succeeds; otherwise
     * `liveError` is the error the deletion call raised, if any.
     */
    function DeleteResource(resourceId: string, liveError: Option<string>): (r: DeleteResult)
      ensures mockMode ==> r == Deleted(resourceId, "Resource deleted successfully (mock)")
      ensures !mockMode ==> (r.Deleted? <==> liveError.None?)
      ensures r.Deleted? ==> r.resourceId == resourceId
      ensures r.DeleteError? ==> r.errorMessage == liveError.value
    {
      if mockMode then Deleted(resourceId, "Resource deleted successfully (mock)")
      else if liveError.None? then Deleted(resourceId, "Resource deleted successfully")
      else DeleteError(liveError.value)
    }
  }

  /** In mock mode every resource is reported unused. */
  lemma MockModeAllUnused()
    ensures Filter(MockResources(), HasTestTag) == MockResources()
  {
    MockResourcesAllTagged();
    FilterAll(MockResources(), HasTestTag);
  }

  /** `estimateCostSavings`: a flat amount per resource, in US dollars. */
  function EstimateCostSavings(resources: seq<Resource>): (e: CostEstimate)
    ensures e.resourceCount == |resources|
    ensures e.estimatedMonthlySavings == MonthlyPerResource * |resources|
    ensures e.currency == "USD"
  {
    CostEstimate(|resources|, |resources| * MonthlyPerResource, "USD")
  }
}
