/** The in-memory fixtures behind the mock backend (src/mocks/data.ts): three
    apps and one architecture graph per app, with the well-formedness facts
    the canvas relies on proved about them. */
module MockData {
  import opened Wrappers
  import opened Types

  const mockApps: seq<App> := [
    App("app-1", "E-Commerce Platform", "Main shopping application", 4),
    App("app-2", "Payment Gateway", "Payment processing service", 3),
    App("app-3", "Analytics Dashboard", "Data visualization app", 5)
  ]

  function ServiceAt(id: string, x: int, y: int, text: string, description: string,
                   status: NodeStatus, configValue: int): Node
  {
    Node(id, ServiceNodeView, Position(x, y),
         ServiceNodeData(text, Some(description), status, Service, configValue))
  }

  function DatabaseAt(id: string, x: int, y: int, text: string, description: string,
                        status: NodeStatus, configValue: int): Node
  {
    Node(id, DatabaseNodeView, Position(x, y),
         ServiceNodeData(text, Some(description), status, Database, configValue))
  }

  function Link(id: string, source: string, target: string, animated: bool): Edge
  {
    Edge(id, source, target, animated, false)
  }

  const ecommerceGraph := GraphData(
    [
      ServiceAt("node-1", 100, 100, "API Gateway", "Main entry point for all requests", Healthy, 75),
      ServiceAt("node-2", 350, 50, "Product Service", "Handles product catalog", Healthy, 50),
      ServiceAt("node-3", 350, 200, "Order Service", "Manages customer orders", Degraded, 30),
      DatabaseAt("node-4", 600, 125, "PostgreSQL", "Primary database", Healthy, 85)
    ],
    [
      Link("e1-2", "node-1", "node-2", true),
      Link("e1-3", "node-1", "node-3", true),
      Link("e2-4", "node-2", "node-4", false),
      Link("e3-4", "node-3", "node-4", false)
    ])

  const paymentGraph := GraphData(
    [
      ServiceAt("node-1", 100, 150, "Payment API", "Payment processing endpoint", Healthy, 90),
      ServiceAt("node-2", 350, 100, "Stripe Integration", "Stripe payment gateway", Healthy, 65),
      DatabaseAt("node-3", 350, 250, "Transaction DB", "Transaction records", Down, 0)
    ],
    [
      Link("e1-2", "node-1", "node-2", true),
      Link("e1-3", "node-1", "node-3", false)
    ])

  const analyticsGraph := GraphData(
    [
      ServiceAt("node-1", 100, 150, "Data Ingestion", "Collects analytics data", Healthy, 80),
      ServiceAt("node-2", 300, 50, "Processing Engine", "Transforms raw data", Degraded, 45),
      ServiceAt("node-3", 300, 250, "Aggregation Service", "Aggregates metrics", Healthy, 70),
      DatabaseAt("node-4", 500, 150, "TimescaleDB", "Time-series database", Healthy, 95),
      ServiceAt("node-5", 700, 150, "Visualization API", "Chart generation service", Healthy, 60)
    ],
    [
      Link("e1-2", "node-1", "node-2", true),
      Link("e1-3", "node-1", "node-3", true),
      Link("e2-4", "node-2", "node-4", false),
      Link("e3-4", "node-3", "node-4", false),
      Link("e4-5", "node-4", "node-5", true)
    ])

  const mockGraphs: map<string, GraphData> :=
    map["app-1" := ecommerceGraph, "app-2" := paymentGraph, "app-3" := analyticsGraph]

  function AppIds(apps: seq<App>): set<string>
  {
    set a | a in apps :: a.id
  }

  /** A graph the canvas can show as it is: unique node and edge ids, no
      dangling edge, every resource value in 0..100, and the view type
      `databaseNode` exactly for database nodes. */
  ghost predicate WellFormedGraph(g: GraphData)
  {
    && UniqueNodeIds(g.nodes)
    && UniqueEdgeIds(g.edges)
    && EdgesClosed(g.nodes, g.edges)
    && (forall n :: n in g.nodes ==> 0 <= n.data.configValue <= 100)
    && (forall n :: n in g.nodes ==> (n.viewType == DatabaseNodeView <==> n.data.nodeType == Database))
  }

  /** `apps.find((app) => app.id === id)`: the first app with that id. */
  function FindApp(apps: seq<App>, id: string): (r: Option<App>)
    ensures r.None? <==> id !in AppIds(apps)
    ensures r.Some? ==> r.value in apps && r.value.id == id
    ensures r.Some? ==> exists k :: 0 <= k < |apps| && apps[k] == r.value
                                    && forall j :: 0 <= j < k ==> apps[j].id != id
  {
    if apps == [] then None
    else if apps[0].id == id then Some(apps[0])
    else
      var r := FindApp(apps[1..], id);
      assert AppIds(apps) == {apps[0].id} + AppIds(apps[1..]);
      if r.Some? then
        var k :| 0 <= k < |apps[1..]| && apps[1..][k] == r.value
                 && forall j :: 0 <= j < k ==> apps[1..][j].id != id;
        assert apps[k + 1] == r.value;
        r
      else r
  }

  /** The graph table has exactly one entry per app. */
  lemma GraphKeysAreAppIds()
    ensures mockGraphs.Keys == AppIds(mockApps)
  {
    assert mockApps[0].id == "app-1" && mockApps[1].id == "app-2" && mockApps[2].id == "app-3";
  }

  /** Each app's advertised node count is the size of its graph. */
  lemma NodeCountsMatch()
    ensures forall a :: a in mockApps ==> a.id in mockGraphs && a.nodeCount == |mockGraphs[a.id].nodes|
  {
  }

  lemma EcommerceGraphWellFormed()
    ensures WellFormedGraph(ecommerceGraph)
  {
    var ns := ecommerceGraph.nodes;
    assert ns[0].id == "node-1" && ns[1].id == "node-2" && ns[2].id == "node-3" && ns[3].id == "node-4";
    assert NodeIds(ns) == {"node-1", "node-2", "node-3", "node-4"};
  }

  lemma PaymentGraphWellFormed()
    ensures WellFormedGraph(paymentGraph)
  {
    var ns := paymentGraph.nodes;
    assert ns[0].id == "node-1" && ns[1].id == "node-2" && ns[2].id == "node-3";
    assert NodeIds(ns) == {"node-1", "node-2", "node-3"};
  }

  lemma AnalyticsGraphWellFormed()
    ensures WellFormedGraph(analyticsGraph)
  {
    var ns := analyticsGraph.nodes;
    assert ns[0].id == "node-1" && ns[1].id == "node-2" && ns[2].id == "node-3"
        && ns[3].id == "node-4" && ns[4].id == "node-5";
    assert NodeIds(ns) == {"node-1", "node-2", "node-3", "node-4", "node-5"};
  }

  /** Every fixture graph is well formed. */
  lemma FixturesWellFormed()
    ensures forall id :: id in mockGraphs ==> WellFormedGraph(mockGraphs[id])
  {
    EcommerceGraphWellFormed();
    PaymentGraphWellFormed();
    AnalyticsGraphWellFormed();
  }
}
