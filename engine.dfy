/**
 * RouteCalculator (logistics/services/graph_engine.py): the cached graph, the
 * shortest route between two locations under a chosen metric, and the
 * locations reachable from one location. The database queries of the source
 * are the record sequences passed in; the search networkx performs is the
 * verified search of module Dijkstra.
 */
module GraphEngine {
  import opened Wrappers
  import opened Records
  import opened Graphs
  import opened GraphBuild
  import opened Dijkstra

  /** The metrics a route can be optimised by. */
  datatype Metric = Time | Distance | Cost

  /** The weight attribute for an optimize_by string: unknown strings fall back to time. */
  function SelectMetric(optimizeBy: string): (m: Metric)
    ensures m == Distance <==> optimizeBy == "distance"
    ensures m == Cost <==> optimizeBy == "cost"
    ensures m == Time <==> optimizeBy != "distance" && optimizeBy != "cost"
  {
    if optimizeBy == "time" then Time
    else if optimizeBy == "distance" then Distance
    else if optimizeBy == "cost" then Cost
    else Time
  }

  function WeightingOf(m: Metric): Weighting {
    match m
    case Time => ByTime
    case Distance => ByDistance
    case Cost => ByCost
  }

  /** A segment endpoint: id, name and coordinates. */
  datatype Place = Place(id: int, name: string, latitude: real, longitude: real)

  /** An entry of the route's node list. */
  datatype RouteNode = RouteNode(id: int, name: string, nodeType: NodeType, latitude: real, longitude: real)

  /** One traversed arc; the values are unrounded. */
  datatype Segment = Segment(from: Place, to: Place, distanceKm: real, timeMinutes: real, cost: real, status: RouteStatus)

  datatype Summary = Summary(totalDistanceKm: real, totalTimeMinutes: real, totalCost: real, stops: int, optimizedBy: string)

  datatype Route = Route(nodes: seq<RouteNode>, segments: seq<Segment>, summary: Summary)

  /**
   * The errors of calculate_shortest_path: an endpoint that is not a vertex,
   * no route, and the failure the catch-all reports when a vertex on the route
   * has no node_data entry.
   */
  datatype RouteError = SourceNotFound(sourceId: int) | DestinationNotFound(destinationId: int) | NoRoute | CalculationFailed(missingId: int)

  function PlaceOf(id: int, info: NodeInfo): Place {
    Place(id, info.name, info.latitude, info.longitude)
  }

  function RouteNodeOf(id: int, info: NodeInfo): RouteNode {
    RouteNode(id, info.name, info.nodeType, info.latitude, info.longitude)
  }

  /** The segment for the arc u→v: the arc's own time, distance, cost and status. */
  function SegmentOf(g: Graph, nodeData: map<int, NodeInfo>, u: int, v: int): Segment
    requires (u, v) in g.arcs && u in nodeData && v in nodeData
  {
    var a := g.arcs[(u, v)];
    Segment(PlaceOf(u, nodeData[u]), PlaceOf(v, nodeData[v]), a.distanceKm, TimeMinutes(a), a.cost, a.status)
  }

  function TotalDistance(segments: seq<Segment>): real
    decreases |segments|
  {
    if segments == [] then 0.0 else TotalDistance(segments[..|segments| - 1]) + segments[|segments| - 1].distanceKm
  }

  function TotalTime(segments: seq<Segment>): real
    decreases |segments|
  {
    if segments == [] then 0.0 else TotalTime(segments[..|segments| - 1]) + segments[|segments| - 1].timeMinutes
  }

  function TotalCost(segments: seq<Segment>): real
    decreases |segments|
  {
    if segments == [] then 0.0 else TotalCost(segments[..|segments| - 1]) + segments[|segments| - 1].cost
  }

  function Ids(nodes: seq<RouteNode>): (p: seq<int>)
    ensures |p| == |nodes| && forall i :: 0 <= i < |p| ==> p[i] == nodes[i].id
  {
    seq(|nodes|, i requires 0 <= i < |nodes| => nodes[i].id)
  }

  /**
   * A successful result: the node ids form a least-weight path from source to
   * destination under the selected metric, with no vertex repeated; node i and segment i describe
   * vertex i and the arc from vertex i to vertex i + 1; the totals are the
   * sums over the segments and the path's weights; stops is the path length
   * minus 2; optimizedBy echoes the caller's string.
   */
  ghost predicate RouteFits(g: Graph, nodeData: map<int, NodeInfo>, source: int, destination: int,
                            optimizeBy: string, route: Route) {
    var p := Ids(route.nodes);
    var segs := route.segments;
    IsShortest(g, WeightingOf(SelectMetric(optimizeBy)), p, source, destination) && NoRepeats(p) &&
    (forall i :: 0 <= i < |p| ==> p[i] in nodeData && route.nodes[i] == RouteNodeOf(p[i], nodeData[p[i]])) &&
    |segs| == |p| - 1 &&
    (forall i :: 0 <= i < |segs| ==> segs[i] == SegmentOf(g, nodeData, p[i], p[i + 1])) &&
    route.summary.totalDistanceKm == TotalDistance(segs) == PathWeight(g, ByDistance, p) &&
    route.summary.totalTimeMinutes == TotalTime(segs) == PathWeight(g, ByTime, p) &&
    route.summary.totalCost == TotalCost(segs) == PathWeight(g, ByCost, p) &&
    route.summary.stops == |p| - 2 &&
    route.summary.optimizedBy == optimizeBy
  }

  /** x is the first vertex along p that has no node_data entry. */
  ghost predicate FirstMissing(p: seq<int>, nodeData: map<int, NodeInfo>, x: int) {
    exists k :: 0 <= k < |p| && p[k] == x && x !in nodeData && forall j :: 0 <= j < k ==> p[j] in nodeData
  }

  /** Everything calculate_shortest_path promises about its result r. */
  ghost predicate PathOutcome(g: Graph, nodeData: map<int, NodeInfo>, source: int, destination: int,
                              optimizeBy: string, r: Result<Route, RouteError>) {
    // the source is checked first, then the destination; neither check runs a search
    (source !in g.vertices ==> r == Err(SourceNotFound(source))) &&
    (source in g.vertices && destination !in g.vertices ==> r == Err(DestinationNotFound(destination))) &&
    // and these two errors arise in no other case
    (r.Err? && r.error.SourceNotFound? ==> source !in g.vertices) &&
    (r.Err? && r.error.DestinationNotFound? ==> source in g.vertices && destination !in g.vertices) &&
    // both exist: "no route" exactly when no directed path joins them
    (source in g.vertices && destination in g.vertices ==>
      (r == Err(NoRoute) <==> !Reachable(g, source, destination))) &&
    (r.Ok? ==> RouteFits(g, nodeData, source, destination, optimizeBy, r.value)) &&
    (r.Err? && r.error.CalculationFailed? ==>
      exists p :: IsShortest(g, WeightingOf(SelectMetric(optimizeBy)), p, source, destination) && NoRepeats(p) &&
                  FirstMissing(p, nodeData, r.error.missingId)) &&
    // when every vertex has node_data, a reachable destination always yields a route
    (source in g.vertices && g.vertices <= nodeData.Keys && Reachable(g, source, destination) ==> r.Ok?)
  }

  /**
   * After i rounds of the segments loop: one segment per arc of path[..i + 1],
   * all from node_data, with totals equal to that prefix's weights.
   */
  ghost predicate SegmentsSoFar(g: Graph, nodeData: map<int, NodeInfo>, path: seq<int>, i: int, segments: seq<Segment>)
    requires IsWalk(g, path) && 0 <= i < |path|
  {
    |segments| == i &&
    (i > 0 ==> forall j :: 0 <= j <= i ==> path[j] in nodeData) &&
    (forall j :: 0 <= j < i ==> segments[j] == SegmentOf(g, nodeData, path[j], path[j + 1])) &&
    IsWalk(g, path[..i + 1]) &&
    TotalDistance(segments) == PathWeight(g, ByDistance, path[..i + 1]) &&
    TotalTime(segments) == PathWeight(g, ByTime, path[..i + 1]) &&
    TotalCost(segments) == PathWeight(g, ByCost, path[..i + 1])
  }

  /** One more segment extends the totals by the weights of the next arc of the path. */
  lemma StepTotals(g: Graph, nodeData: map<int, NodeInfo>, path: seq<int>, i: int, segments: seq<Segment>)
    requires IsWalk(g, path) && 0 <= i < |path| - 1 && path[i] in nodeData && path[i + 1] in nodeData
    requires IsWalk(g, path[..i + 1])
    requires TotalDistance(segments) == PathWeight(g, ByDistance, path[..i + 1])
    requires TotalTime(segments) == PathWeight(g, ByTime, path[..i + 1])
    requires TotalCost(segments) == PathWeight(g, ByCost, path[..i + 1])
    ensures IsWalk(g, path[..i + 2])
    ensures TotalDistance(segments + [SegmentOf(g, nodeData, path[i], path[i + 1])]) == PathWeight(g, ByDistance, path[..i + 2])
    ensures TotalTime(segments + [SegmentOf(g, nodeData, path[i], path[i + 1])]) == PathWeight(g, ByTime, path[..i + 2])
    ensures TotalCost(segments + [SegmentOf(g, nodeData, path[i], path[i + 1])]) == PathWeight(g, ByCost, path[..i + 2])
  {
    var u, v := path[i], path[i + 1];
    var next := segments + [SegmentOf(g, nodeData, u, v)];
    assert next[..|next| - 1] == segments;
    ExtendPath(g, ByDistance, path[..i + 1], path[0], u, v);
    ExtendPath(g, ByTime, path[..i + 1], path[0], u, v);
    ExtendPath(g, ByCost, path[..i + 1], path[0], u, v);
    assert path[..i + 1] + [v] == path[..i + 2];
  }

  /** One more round of the segments loop. */
  lemma StepSegments(g: Graph, nodeData: map<int, NodeInfo>, path: seq<int>, i: int, segments: seq<Segment>)
    requires IsWalk(g, path) && 0 <= i < |path| - 1 && path[i] in nodeData && path[i + 1] in nodeData
    requires SegmentsSoFar(g, nodeData, path, i, segments)
    ensures SegmentsSoFar(g, nodeData, path, i + 1, segments + [SegmentOf(g, nodeData, path[i], path[i + 1])])
  {
    var next := segments + [SegmentOf(g, nodeData, path[i], path[i + 1])];
    StepTotals(g, nodeData, path, i, segments);
    assert forall j :: 0 <= j <= i + 1 ==> path[j] in nodeData by {
      if i > 0 {
        assert forall j :: 0 <= j <= i ==> path[j] in nodeData;
      }
    }
    assert forall j :: 0 <= j < i + 1 ==> next[j] == SegmentOf(g, nodeData, path[j], path[j + 1]) by {
      assert forall j :: 0 <= j < i ==> next[j] == segments[j];
    }
  }

  /** The segments loop: one segment per arc of the path, with the running totals. */
  method BuildSegments(g: Graph, nodeData: map<int, NodeInfo>, path: seq<int>)
    returns (r: Result<seq<Segment>, RouteError>, totalDistance: real, totalTime: real, totalCost: real)
    requires IsWalk(g, path) && |path| > 0
    ensures r.Ok? ==> |r.value| == |path| - 1
    ensures r.Ok? && |path| > 1 ==> forall i :: 0 <= i < |path| ==> path[i] in nodeData
    ensures r.Ok? ==> forall i :: 0 <= i < |r.value| ==> r.value[i] == SegmentOf(g, nodeData, path[i], path[i + 1])
    ensures r.Ok? ==> totalDistance == TotalDistance(r.value) == PathWeight(g, ByDistance, path)
    ensures r.Ok? ==> totalTime == TotalTime(r.value) == PathWeight(g, ByTime, path)
    ensures r.Ok? ==> totalCost == TotalCost(r.value) == PathWeight(g, ByCost, path)
    ensures r.Err? ==> r.error.CalculationFailed? && FirstMissing(path, nodeData, r.error.missingId)
  {
    totalDistance, totalTime, totalCost := 0.0, 0.0, 0.0;
    var segments: seq<Segment> := [];
    assert path[..1] == [path[0]];
    for i := 0 to |path| - 1
      invariant SegmentsSoFar(g, nodeData, path, i, segments)
      invariant totalDistance == TotalDistance(segments)
      invariant totalTime == TotalTime(segments)
      invariant totalCost == TotalCost(segments)
    {
      var u, v := path[i], path[i + 1];
      var a := g.arcs[(u, v)];
      totalTime := totalTime + TimeMinutes(a);
      totalDistance := totalDistance + a.distanceKm;
      totalCost := totalCost + a.cost;
      if u !in nodeData {
        assert i == 0;
        return Err(CalculationFailed(u)), totalDistance, totalTime, totalCost;
      }
      if v !in nodeData {
        return Err(CalculationFailed(v)), totalDistance, totalTime, totalCost;
      }
      StepSegments(g, nodeData, path, i, segments);
      var segment := SegmentOf(g, nodeData, u, v);
      assert TotalDistance(segments + [segment]) == TotalDistance(segments) + a.distanceKm;
      assert TotalTime(segments + [segment]) == TotalTime(segments) + TimeMinutes(a);
      assert TotalCost(segments + [segment]) == TotalCost(segments) + a.cost;
      segments := segments + [segment];
    }
    assert path[..|path|] == path;
    r := Ok(segments);
  }

  /** The nodes loop: one entry per vertex of the path, from its node_data. */
  method BuildNodes(nodeData: map<int, NodeInfo>, path: seq<int>) returns (r: Result<seq<RouteNode>, RouteError>)
    ensures r.Ok? ==> |r.value| == |path| && forall i :: 0 <= i < |path| ==>
      path[i] in nodeData && r.value[i] == RouteNodeOf(path[i], nodeData[path[i]])
    ensures r.Err? ==> r.error.CalculationFailed? && FirstMissing(path, nodeData, r.error.missingId)
  {
    var nodes: seq<RouteNode> := [];
    for i := 0 to |path|
      invariant |nodes| == i
      invariant forall j :: 0 <= j < i ==> path[j] in nodeData && nodes[j] == RouteNodeOf(path[j], nodeData[path[j]])
    {
      if path[i] !in nodeData {
        return Err(CalculationFailed(path[i]));
      }
      nodes := nodes + [RouteNodeOf(path[i], nodeData[path[i]])];
    }
    r := Ok(nodes);
  }

  /** Formats a found path into segments, nodes and totals (the loops after the search). */
  method FormatRoute(g: Graph, nodeData: map<int, NodeInfo>, path: seq<int>, optimizeBy: string)
    returns (r: Result<Route, RouteError>)
    requires IsWalk(g, path) && |path| > 0
    ensures r.Ok? ==> Ids(r.value.nodes) == path
    ensures r.Ok? ==> forall i :: 0 <= i < |path| ==> path[i] in nodeData && r.value.nodes[i] == RouteNodeOf(path[i], nodeData[path[i]])
    ensures r.Ok? ==> |r.value.segments| == |path| - 1
    ensures r.Ok? ==> forall i :: 0 <= i < |r.value.segments| ==> r.value.segments[i] == SegmentOf(g, nodeData, path[i], path[i + 1])
    ensures r.Ok? ==> r.value.summary == Summary(PathWeight(g, ByDistance, path), PathWeight(g, ByTime, path),
                                                 PathWeight(g, ByCost, path), |path| - 2, optimizeBy)
    ensures r.Ok? ==> TotalDistance(r.value.segments) == PathWeight(g, ByDistance, path) &&
                      TotalTime(r.value.segments) == PathWeight(g, ByTime, path) &&
                      TotalCost(r.value.segments) == PathWeight(g, ByCost, path)
    ensures r.Ok? <==> forall i :: 0 <= i < |path| ==> path[i] in nodeData
    ensures r.Err? ==> r.error.CalculationFailed? && FirstMissing(path, nodeData, r.error.missingId)
  {
    var segments, totalDistance, totalTime, totalCost := BuildSegments(g, nodeData, path);
    if segments.Err? {
      return Err(segments.error);
    }
    var nodes := BuildNodes(nodeData, path);
    if nodes.Err? {
      return Err(nodes.error);
    }
    assert Ids(nodes.value) == path;
    r := Ok(Route(nodes.value, segments.value, Summary(totalDistance, totalTime, totalCost, |path| - 2, optimizeBy)));
  }

  /** The route reported for a shortest path that the search found. */
  method RouteAlong(g: Graph, nodeData: map<int, NodeInfo>, source: int, destination: int,
                    path: seq<int>, optimizeBy: string)
    returns (r: Result<Route, RouteError>)
    requires IsShortest(g, WeightingOf(SelectMetric(optimizeBy)), path, source, destination) && NoRepeats(path)
    requires source == destination ==> path == [source]
    ensures r.Ok? ==> RouteFits(g, nodeData, source, destination, optimizeBy, r.value)
    ensures r.Ok? <==> forall i :: 0 <= i < |path| ==> path[i] in nodeData
    ensures r.Err? ==> r.error.CalculationFailed? && FirstMissing(path, nodeData, r.error.missingId)
    ensures source == destination && source in nodeData ==>
      r == Ok(Route([RouteNodeOf(source, nodeData[source])], [], Summary(0.0, 0.0, 0.0, -1, optimizeBy)))
  {
    r := FormatRoute(g, nodeData, path, optimizeBy);
    if r.Ok? && source == destination {
      assert |r.value.nodes| == 1 && r.value.nodes[0] == RouteNodeOf(source, nodeData[source]);
      assert r.value.nodes == [RouteNodeOf(source, nodeData[source])];
    }
  }

  /** calculate_shortest_path on a given graph and node_data. */
  method ShortestPathOn(g: Graph, nodeData: map<int, NodeInfo>, source: int, destination: int, optimizeBy: string)
    returns (r: Result<Route, RouteError>)
    requires WellFormed(g) && NonNegative(g)
    ensures PathOutcome(g, nodeData, source, destination, optimizeBy, r)
    ensures source == destination && source in g.vertices && source in nodeData ==>
      r == Ok(Route([RouteNodeOf(source, nodeData[source])], [], Summary(0.0, 0.0, 0.0, -1, optimizeBy)))
  {
    if source !in g.vertices {
      return Err(SourceNotFound(source));
    }
    if destination !in g.vertices {
      if Reachable(g, source, destination) {
        ReachableIsVertex(g, source, destination);
      }
      return Err(DestinationNotFound(destination));
    }
    var w := WeightingOf(SelectMetric(optimizeBy));
    var dist, paths := ShortestPaths(g, w, source);
    if destination !in dist {
      return Err(NoRoute);
    }
    var path := paths[destination];
    assert source == destination ==> path == [source];
    PathInGraph(g, path, source, destination);
    r := RouteAlong(g, nodeData, source, destination, path, optimizeBy);
  }

  /** An entry of the reachable-destinations list. */
  datatype Destination = Destination(id: int, name: string, nodeType: NodeType, estimatedTimeMinutes: real)

  datatype Reachability = Reachability(sourceId: int, sourceName: string, destinations: seq<Destination>, count: int)

  /**
   * "Location not found", the lookup failure of a vertex with no node_data
   * entry, or the rejection of the weight keyword by the length query.
   */
  datatype ReachError = LocationNotFound | MissingNodeData(id: int) | WeightKeywordRejected

  /**
   * Everything get_all_routes_from_location promises about its result r when
   * distances are the least path weights under w.
   */
  ghost predicate ReachOutcome(g: Graph, nodeData: map<int, NodeInfo>, location: int, w: Weighting,
                               r: Result<Reachability, ReachError>) {
    (location !in g.vertices ==> r == Err(LocationNotFound)) &&
    // the only errors: "location not found", exactly for an unknown location, and a missing node_data entry
    (r.Err? ==> r.error == LocationNotFound || r.error.MissingNodeData?) &&
    (r == Err(LocationNotFound) ==> location !in g.vertices) &&
    (r.Ok? ==>
      var d := r.value.destinations;
      r.value.sourceId == location && location in nodeData && r.value.sourceName == nodeData[location].name &&
      // each entry is a distinct vertex other than the source, reachable from it, at its least distance
      (forall i :: 0 <= i < |d| ==>
        d[i].id != location && d[i].id in nodeData &&
        d[i].name == nodeData[d[i].id].name && d[i].nodeType == nodeData[d[i].id].nodeType &&
        IsDistance(g, w, location, d[i].id, d[i].estimatedTimeMinutes)) &&
      (forall i, j :: 0 <= i < j < |d| ==> d[i].id != d[j].id) &&
      // and every vertex reachable from the source, other than itself, has an entry
      (forall v :: v != location && Reachable(g, location, v) ==> exists i :: 0 <= i < |d| && d[i].id == v) &&
      r.value.count == |d|) &&
    (r.Err? && r.error.MissingNodeData? ==>
      r.error.id !in nodeData && (r.error.id == location || Reachable(g, location, r.error.id))) &&
    (location in g.vertices && g.vertices <= nodeData.Keys ==> r.Ok?)
  }

  /** The loop over the sweep's distances: every vertex but the source, with its node_data. */
  method ListDestinations(nodeData: map<int, NodeInfo>, location: int, dist: map<int, real>)
    returns (r: Result<seq<Destination>, ReachError>)
    ensures r.Ok? ==> forall i :: 0 <= i < |r.value| ==>
      r.value[i].id in dist && r.value[i].id != location &&
      r.value[i].id in nodeData && r.value[i].name == nodeData[r.value[i].id].name &&
      r.value[i].nodeType == nodeData[r.value[i].id].nodeType &&
      r.value[i].estimatedTimeMinutes == dist[r.value[i].id]
    ensures r.Ok? ==> forall i, j :: 0 <= i < j < |r.value| ==> r.value[i].id != r.value[j].id
    ensures r.Ok? ==> forall v :: v in dist && v != location ==> exists i :: 0 <= i < |r.value| && r.value[i].id == v
    ensures r.Err? ==> r.error.MissingNodeData? && r.error.id in dist && r.error.id != location && r.error.id !in nodeData
    ensures dist.Keys - {location} <= nodeData.Keys ==> r.Ok?
  {
    var destinations: seq<Destination> := [];
    var pending := dist.Keys;
    while pending != {}
      invariant pending <= dist.Keys
      invariant forall i :: 0 <= i < |destinations| ==>
        destinations[i].id in dist && destinations[i].id !in pending && destinations[i].id != location &&
        destinations[i].id in nodeData && destinations[i].name == nodeData[destinations[i].id].name &&
        destinations[i].nodeType == nodeData[destinations[i].id].nodeType &&
        destinations[i].estimatedTimeMinutes == dist[destinations[i].id]
      invariant forall i, j :: 0 <= i < j < |destinations| ==> destinations[i].id != destinations[j].id
      invariant forall v :: v in dist && v !in pending && v != location ==>
        exists i :: 0 <= i < |destinations| && destinations[i].id == v
      decreases pending
    {
      NonEmptyHasElement(pending);
      var v :| v in pending;
      if v != location {
        if v !in nodeData {
          return Err(MissingNodeData(v));
        }
        ghost var before := destinations;
        destinations := destinations + [Destination(v, nodeData[v].name, nodeData[v].nodeType, dist[v])];
        assert forall i :: 0 <= i < |before| ==> destinations[i] == before[i];
        assert destinations[|before|].id == v;
      }
      pending := pending - {v};
    }
    r := Ok(destinations);
  }

  /** The sweep of get_all_routes_from_location, with distances under the weighting w. */
  method CollectReachable(g: Graph, nodeData: map<int, NodeInfo>, location: int, w: Weighting)
    returns (r: Result<Reachability, ReachError>)
    requires WellFormed(g) && NonNegativeUnder(g, w)
    ensures ReachOutcome(g, nodeData, location, w, r)
  {
    if location !in g.vertices {
      return Err(LocationNotFound);
    }
    var dist, paths := ShortestPaths(g, w, location);
    var listed := ListDestinations(nodeData, location, dist);
    if listed.Err? {
      return Err(listed.error);
    }
    var destinations := listed.value;
    if location !in nodeData {
      return Err(MissingNodeData(location));
    }
    forall i | 0 <= i < |destinations|
      ensures IsDistance(g, w, location, destinations[i].id, destinations[i].estimatedTimeMinutes)
    {
      var v := destinations[i].id;
      assert IsShortest(g, w, paths[v], location, v) && PathWeight(g, w, paths[v]) == dist[v];
    }
    r := Ok(Reachability(location, nodeData[location].name, destinations, |destinations|));
  }

  /** get_all_routes_from_location as intended: destinations at their least travel time. */
  method ReachableFrom(g: Graph, nodeData: map<int, NodeInfo>, location: int)
    returns (r: Result<Reachability, ReachError>)
    requires WellFormed(g)
    ensures ReachOutcome(g, nodeData, location, ByTime, r)
  {
    r := CollectReachable(g, nodeData, location, ByTime);
  }

  /**
   * get_all_routes_from_location as written, under the documented signature
   * single_source_shortest_path_length(G, source, cutoff=None): the call with
   * weight= is rejected for every known location, and nothing catches that.
   */
  function ReachableFromAsWritten(g: Graph, location: int): (r: Result<Reachability, ReachError>)
    ensures r.Err?
    ensures r.error == LocationNotFound <==> location !in g.vertices
    ensures location in g.vertices ==> r.error == WeightKeywordRejected
  {
    if location !in g.vertices then Err(LocationNotFound) else Err(WeightKeywordRejected)
  }

  /**
   * For a known location the as-written call never yields the intended result,
   * not even when every vertex has node_data.
   */
  lemma AsWrittenMissesIntent(g: Graph, nodeData: map<int, NodeInfo>, location: int, w: Weighting)
    requires location in g.vertices
    ensures !ReachOutcome(g, nodeData, location, w, ReachableFromAsWritten(g, location))
  {
    assert ReachableFromAsWritten(g, location) == Err(WeightKeywordRejected);
  }

  /**
   * get_all_routes_from_location if the weight keyword were accepted and
   * ignored: single_source_shortest_path_length counts arcs (hops).
   */
  method ReachableFromByHops(g: Graph, nodeData: map<int, NodeInfo>, location: int)
    returns (r: Result<Reachability, ReachError>)
    requires WellFormed(g)
    ensures ReachOutcome(g, nodeData, location, ByHops, r)
  {
    r := CollectReachable(g, nodeData, location, ByHops);
  }

  /** One 10-minute arc from location 1 to location 2. */
  function OneArcGraph(): Graph {
    Graph({1, 2}, map[(1, 2) := Arc(20, 10.0, 0.0, Active, 1)])
  }

  /**
   * On one 10-minute arc the hop-counting sweep reports 1 (one hop) as the
   * estimated time where the intended time distance is 10 minutes.
   */
  lemma HopCountIsNotTravelTime()
    ensures IsDistance(OneArcGraph(), ByHops, 1, 2, 1.0)
    ensures IsDistance(OneArcGraph(), ByTime, 1, 2, 10.0)
    ensures forall d :: IsDistance(OneArcGraph(), ByTime, 1, 2, d) ==> d == 10.0
  {
    var g := OneArcGraph();
    var p := [1, 2];
    assert IsPath(g, p, 1, 2);
    assert PathWeight(g, ByHops, p) == 1.0 by {
      assert p[..1] == [1];
    }
    assert PathWeight(g, ByTime, p) == 10.0 by {
      assert p[..1] == [1];
    }
    forall q | IsPath(g, q, 1, 2) ensures q == p {
      OnlyPath(q);
    }
  }

  lemma OnlyPath(q: seq<int>)
    requires IsPath(OneArcGraph(), q, 1, 2)
    ensures q == [1, 2]
  {
    var g := OneArcGraph();
    assert |q| >= 2;
    assert (q[0], q[1]) in g.arcs;
    forall i | 0 <= i < |q| - 1 ensures q[i] == 1 {
      assert (q[i], q[i + 1]) in g.arcs;
    }
    assert q[1] == 2;
    assert |q| == 2;
  }

  /** The engine's cached state: the last graph built, and node_data, never cleared. */
  class RouteCalculator {
    var graph: Option<Graph>
    var nodeData: map<int, NodeInfo>

    ghost predicate Valid()
      reads this
    {
      graph.Some? ==> WellFormed(graph.value) && NonNegative(graph.value)
    }

    constructor ()
      ensures Valid() && graph == None && nodeData == map[]
    {
      graph := None;
      nodeData := map[];
    }

    /**
     * build_graph: returns the cached graph unless there is none or a rebuild
     * is forced; a rebuild replaces the graph wholesale and adds to node_data.
     */
    method BuildGraph(forceRebuild: bool, locations: seq<Location>, routes: seq<RouteRecord>) returns (g: Graph)
      requires Valid() && ValidRoutes(routes)
      modifies this
      ensures Valid()
      ensures old(graph).Some? && !forceRebuild ==>
        g == old(graph).value && graph == old(graph) && nodeData == old(nodeData)
      ensures old(graph).None? || forceRebuild ==>
        g == GraphOf(locations, routes) && graph == Some(g) && nodeData == NodeDataOf(old(nodeData), locations)
    {
      if graph.Some? && !forceRebuild {
        return graph.value;
      }
      var data;
      g, data := Build(nodeData, locations, routes);
      GraphOfWellFormed(locations, routes);
      nodeData := data;
      graph := Some(g);
    }

    /** calculate_shortest_path: builds the graph if there is none, then searches it. */
    method CalculateShortestPath(source: int, destination: int, optimizeBy: string,
                                 locations: seq<Location>, routes: seq<RouteRecord>)
      returns (r: Result<Route, RouteError>)
      requires Valid() && ValidRoutes(routes)
      modifies this
      ensures Valid() && graph.Some?
      ensures old(graph).Some? ==> graph == old(graph) && nodeData == old(nodeData)
      ensures old(graph).None? ==>
        graph == Some(GraphOf(locations, routes)) && nodeData == NodeDataOf(old(nodeData), locations)
      ensures PathOutcome(graph.value, nodeData, source, destination, optimizeBy, r)
    {
      if graph.None? {
        var _ := BuildGraph(false, locations, routes);
      }
      r := ShortestPathOn(graph.value, nodeData, source, destination, optimizeBy);
    }

    /** get_all_routes_from_location: builds the graph if there is none, then sweeps it by time. */
    method GetAllRoutesFromLocation(location: int, locations: seq<Location>, routes: seq<RouteRecord>)
      returns (r: Result<Reachability, ReachError>)
      requires Valid() && ValidRoutes(routes)
      modifies this
      ensures Valid() && graph.Some?
      ensures old(graph).Some? ==> graph == old(graph) && nodeData == old(nodeData)
      ensures old(graph).None? ==>
        graph == Some(GraphOf(locations, routes)) && nodeData == NodeDataOf(old(nodeData), locations)
      ensures ReachOutcome(graph.value, nodeData, location, ByTime, r)
    {
      if graph.None? {
        var _ := BuildGraph(false, locations, routes);
      }
      r := ReachableFrom(graph.value, nodeData, location);
    }
  }
}
