/**
 * Graph construction: RouteCalculator.build_graph in
 * logistics/services/graph_engine.py. Active locations become vertices and
 * their display metadata goes into node_data; every route that is not closed
 * becomes an arc, and networkx's add_edge also adds its two endpoints as
 * (bare) vertices, whether or not those locations are active.
 */
module GraphBuild {
  import opened Records
  import opened Graphs

  /** What node_data keeps for a vertex: name, category and coordinates. */
  datatype NodeInfo = NodeInfo(name: string, nodeType: NodeType, latitude: real, longitude: real)

  function InfoOf(l: Location): NodeInfo {
    NodeInfo(l.name, l.nodeType, l.latitude, l.longitude)
  }

  /**
   * The arc added for a route that is not closed: time is the travel time,
   * with a 50% penalty when the route is slow; cost is cost_per_km times
   * distance_km.
   */
  function ArcOf(r: RouteRecord): (a: Arc)
    ensures TimeMinutes(a) == if r.status == Slow then 1.5 * r.travelTimeMinutes as real else r.travelTimeMinutes as real
    ensures a.distanceKm == r.distanceKm && a.cost == r.costPerKm * r.distanceKm
    ensures a.status == r.status && a.routeId == r.id
  {
    var half := if r.status == Slow then 3 * r.travelTimeMinutes else 2 * r.travelTimeMinutes;
    Arc(half, r.distanceKm, r.costPerKm * r.distanceKm, r.status, r.id)
  }

  /** The ids the active-location query yields, added as vertices. */
  function ActiveIds(locations: seq<Location>): set<int>
    decreases |locations|
  {
    if locations == [] then {}
    else
      var last := locations[|locations| - 1];
      ActiveIds(locations[..|locations| - 1]) + if last.isActive then {last.id} else {}
  }

  /** The endpoints of the routes that are not closed, which add_edge makes vertices. */
  function ArcEndpoints(routes: seq<RouteRecord>): set<int>
    decreases |routes|
  {
    if routes == [] then {}
    else
      var last := routes[|routes| - 1];
      ArcEndpoints(routes[..|routes| - 1]) + if last.status == Closed then {} else {last.sourceId, last.destinationId}
  }

  /** The arcs after adding the routes in order; a later arc on the same pair replaces an earlier one. */
  function ArcsOf(routes: seq<RouteRecord>): map<(int, int), Arc>
    decreases |routes|
  {
    if routes == [] then map[]
    else
      var last := routes[|routes| - 1];
      var before := ArcsOf(routes[..|routes| - 1]);
      if last.status == Closed then before else before[(last.sourceId, last.destinationId) := ArcOf(last)]
  }

  /** node_data after a build: earlier entries stay, each active location's entry is (re)written. */
  function NodeDataOf(known: map<int, NodeInfo>, locations: seq<Location>): map<int, NodeInfo>
    decreases |locations|
  {
    if locations == [] then known
    else
      var last := locations[|locations| - 1];
      var before := NodeDataOf(known, locations[..|locations| - 1]);
      if last.isActive then before[last.id := InfoOf(last)] else before
  }

  /** The graph a build produces from the given records. */
  function GraphOf(locations: seq<Location>, routes: seq<RouteRecord>): Graph {
    Graph(ActiveIds(locations) + ArcEndpoints(routes), ArcsOf(routes))
  }

  /** build_graph's two loops: vertices and node_data from the locations, then arcs from the routes. */
  method Build(known: map<int, NodeInfo>, locations: seq<Location>, routes: seq<RouteRecord>)
    returns (g: Graph, nodeData: map<int, NodeInfo>)
    ensures g == GraphOf(locations, routes)
    ensures nodeData == NodeDataOf(known, locations)
  {
    var vertices: set<int> := {};
    nodeData := known;
    for i := 0 to |locations|
      invariant vertices == ActiveIds(locations[..i])
      invariant nodeData == NodeDataOf(known, locations[..i])
    {
      assert locations[..i + 1][..i] == locations[..i];
      if locations[i].isActive {
        vertices := vertices + {locations[i].id};
        nodeData := nodeData[locations[i].id := InfoOf(locations[i])];
      }
    }
    assert locations[..|locations|] == locations;
    var arcs: map<(int, int), Arc> := map[];
    var ends: set<int> := {};
    for i := 0 to |routes|
      invariant arcs == ArcsOf(routes[..i])
      invariant ends == ArcEndpoints(routes[..i])
    {
      assert routes[..i + 1][..i] == routes[..i];
      var r := routes[i];
      if r.status != Closed {
        arcs := arcs[(r.sourceId, r.destinationId) := ArcOf(r)];
        ends := ends + {r.sourceId, r.destinationId};
      }
    }
    assert routes[..|routes|] == routes;
    g := Graph(vertices + ends, arcs);
  }

  /** An ordered pair carries an arc exactly when some route on it is not closed. */
  lemma {:induction false} ArcsOfDomain(routes: seq<RouteRecord>, u: int, v: int)
    ensures (u, v) in ArcsOf(routes) <==>
      exists i :: 0 <= i < |routes| && routes[i].status != Closed && routes[i].sourceId == u && routes[i].destinationId == v
    decreases |routes|
  {
    if routes != [] {
      var n := |routes| - 1;
      var before := routes[..n];
      ArcsOfDomain(before, u, v);
      assert forall i :: 0 <= i < n ==> before[i] == routes[i];
    }
  }

  /** Under one route per ordered pair, a route that is not closed gives its pair exactly its own arc. */
  lemma {:induction false} ArcsOfValue(routes: seq<RouteRecord>, k: int)
    requires UniquePairs(routes) && 0 <= k < |routes| && routes[k].status != Closed
    ensures (routes[k].sourceId, routes[k].destinationId) in ArcsOf(routes)
    ensures ArcsOf(routes)[(routes[k].sourceId, routes[k].destinationId)] == ArcOf(routes[k])
    decreases |routes|
  {
    var n := |routes| - 1;
    var before := routes[..n];
    if k < n {
      assert forall i, j :: 0 <= i < n && 0 <= j < n ==> before[i] == routes[i] && before[j] == routes[j];
      ArcsOfValue(before, k);
      assert (routes[n].sourceId, routes[n].destinationId) != (routes[k].sourceId, routes[k].destinationId);
    }
  }

  /** Under one route per ordered pair, a closed route never becomes an arc. */
  lemma ClosedHasNoArc(routes: seq<RouteRecord>, k: int)
    requires UniquePairs(routes) && 0 <= k < |routes| && routes[k].status == Closed
    ensures (routes[k].sourceId, routes[k].destinationId) !in ArcsOf(routes)
  {
    ArcsOfDomain(routes, routes[k].sourceId, routes[k].destinationId);
  }

  /** Every arc's endpoints are endpoints of a route that is not closed. */
  lemma {:induction false} ArcsOfEndpoints(routes: seq<RouteRecord>)
    ensures forall e :: e in ArcsOf(routes) ==> e.0 in ArcEndpoints(routes) && e.1 in ArcEndpoints(routes)
    decreases |routes|
  {
    if routes != [] {
      ArcsOfEndpoints(routes[..|routes| - 1]);
    }
  }

  /** Arcs built from valid routes have non-negative distance and cost. */
  lemma {:induction false} ArcsOfNonNegative(routes: seq<RouteRecord>)
    requires ValidRoutes(routes)
    ensures forall e :: e in ArcsOf(routes) ==> ArcsOf(routes)[e].distanceKm >= 0.0 && ArcsOf(routes)[e].cost >= 0.0
    decreases |routes|
  {
    if routes != [] {
      var n := |routes| - 1;
      assert ValidRoutes(routes[..n]) by {
        assert forall i :: 0 <= i < n ==> routes[..n][i] == routes[i];
      }
      ArcsOfNonNegative(routes[..n]);
      assert ValidRoute(routes[n]);
    }
  }

  /** A built graph is well formed, and its weights are non-negative when the routes are valid. */
  lemma GraphOfWellFormed(locations: seq<Location>, routes: seq<RouteRecord>)
    ensures WellFormed(GraphOf(locations, routes))
    ensures ValidRoutes(routes) ==> NonNegative(GraphOf(locations, routes))
  {
    ArcsOfEndpoints(routes);
    if ValidRoutes(routes) {
      ArcsOfNonNegative(routes);
    }
  }

  /** A vertex is an active location or an endpoint of a route that is not closed. */
  lemma {:induction false} VertexOrigin(locations: seq<Location>, routes: seq<RouteRecord>, v: int)
    ensures v in GraphOf(locations, routes).vertices <==>
      (exists i :: 0 <= i < |locations| && locations[i].isActive && locations[i].id == v) ||
      (exists j :: 0 <= j < |routes| && routes[j].status != Closed && (routes[j].sourceId == v || routes[j].destinationId == v))
  {
    ActiveIdsMember(locations, v);
    ArcEndpointsMember(routes, v);
  }

  lemma {:induction false} ActiveIdsMember(locations: seq<Location>, v: int)
    ensures v in ActiveIds(locations) <==> exists i :: 0 <= i < |locations| && locations[i].isActive && locations[i].id == v
    decreases |locations|
  {
    if locations != [] {
      var n := |locations| - 1;
      ActiveIdsMember(locations[..n], v);
      assert forall i :: 0 <= i < n ==> locations[..n][i] == locations[i];
    }
  }

  lemma {:induction false} ArcEndpointsMember(routes: seq<RouteRecord>, v: int)
    ensures v in ArcEndpoints(routes) <==>
      exists j :: 0 <= j < |routes| && routes[j].status != Closed && (routes[j].sourceId == v || routes[j].destinationId == v)
    decreases |routes|
  {
    if routes != [] {
      var n := |routes| - 1;
      ArcEndpointsMember(routes[..n], v);
      assert forall j :: 0 <= j < n ==> routes[..n][j] == routes[j];
    }
  }

  /**
   * node_data after a build holds the earlier keys and every active id, and no
   * other key; with unique location ids, an active location's entry is its own
   * metadata.
   */
  lemma {:induction false} NodeDataOfKeys(known: map<int, NodeInfo>, locations: seq<Location>)
    ensures NodeDataOf(known, locations).Keys == known.Keys + ActiveIds(locations)
    decreases |locations|
  {
    if locations != [] {
      NodeDataOfKeys(known, locations[..|locations| - 1]);
    }
  }

  predicate UniqueIds(locations: seq<Location>) {
    forall i, j :: 0 <= i < |locations| && 0 <= j < |locations| && i != j ==> locations[i].id != locations[j].id
  }

  lemma {:induction false} NodeDataOfValue(known: map<int, NodeInfo>, locations: seq<Location>, k: int)
    requires UniqueIds(locations) && 0 <= k < |locations| && locations[k].isActive
    ensures locations[k].id in NodeDataOf(known, locations)
    ensures NodeDataOf(known, locations)[locations[k].id] == InfoOf(locations[k])
    decreases |locations|
  {
    var n := |locations| - 1;
    var before := locations[..n];
    if k < n {
      assert forall i, j :: 0 <= i < n && 0 <= j < n ==> before[i] == locations[i] && before[j] == locations[j];
      NodeDataOfValue(known, before, k);
      assert locations[n].id != locations[k].id;
    }
  }
}
