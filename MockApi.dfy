/** The mock backend (src/mocks/api.ts): lookups into the fixtures behind a
    module-wide error-simulation flag. The simulated network delay is not
    modelled; a rejected promise is a `Failure` carrying its message. */
module MockApi {
  import opened Wrappers
  import opened Types
  import opened MockData

  const FetchAppsError := "Failed to fetch apps"
  const FetchGraphError := "Failed to fetch graph data"
  const GraphNotFound := "Graph not found"

  /** Holds the module-level `shouldSimulateError` flag. */
  class Backend {
    var shouldSimulateError: bool

    constructor ()
      ensures !shouldSimulateError
    {
      shouldSimulateError := false;
    }

    /** The fixture app list, unless errors are being simulated. */
    function FetchApps(): (r: Result<seq<App>, string>)
      reads this
      ensures r.Success? <==> !shouldSimulateError
      ensures r.Success? ==> r.value == mockApps
      ensures r.Failure? ==> r.error == FetchAppsError
    {
      if shouldSimulateError then Failure(FetchAppsError) else Success(mockApps)
    }

    /** The graph stored under `appId`. The error flag is checked before the
        lookup, so it wins over "not found". */
    function FetchAppGraph(appId: string): (r: Result<GraphData, string>)
      reads this
      ensures shouldSimulateError ==> r == Failure(FetchGraphError)
      ensures !shouldSimulateError && appId !in mockGraphs ==> r == Failure(GraphNotFound)
      ensures !shouldSimulateError && appId in mockGraphs ==> r == Success(mockGraphs[appId])
      ensures r.Success? ==> appId in mockGraphs && r.value == mockGraphs[appId]
    {
      if shouldSimulateError then Failure(FetchGraphError)
      else if appId !in mockGraphs then Failure(GraphNotFound)
      else Success(mockGraphs[appId])
    }

    /** Flips the flag and returns its new value. */
    method ToggleErrorSimulation() returns (enabled: bool)
      modifies this
      ensures enabled == !old(shouldSimulateError)
      ensures shouldSimulateError == enabled
    {
      shouldSimulateError := !shouldSimulateError;
      enabled := shouldSimulateError;
    }
  }

  /** A graph fetch succeeds exactly when errors are off and the id is one of
      the listed apps; what it returns is then well formed and has as many
      nodes as that app advertises. */
  lemma FetchAppGraphSucceedsForListedApps(b: Backend, appId: string)
    ensures b.FetchAppGraph(appId).Success? <==> !b.shouldSimulateError && appId in AppIds(mockApps)
    ensures b.FetchAppGraph(appId).Success? ==>
              && WellFormedGraph(b.FetchAppGraph(appId).value)
              && FindApp(mockApps, appId).Some?
              && FindApp(mockApps, appId).value.nodeCount == |b.FetchAppGraph(appId).value.nodes|
  {
    GraphKeysAreAppIds();
    FixturesWellFormed();
    NodeCountsMatch();
  }

  /** Two toggles restore the flag. */
  method ToggleTwiceRestores(b: Backend)
    modifies b
    ensures b.shouldSimulateError == old(b.shouldSimulateError)
  {
    var _ := b.ToggleErrorSimulation();
    var _ := b.ToggleErrorSimulation();
  }
}
