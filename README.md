# LogiRoute routing core and package lifecycle in Dafny

This project models two parts of LogiRoute, a logistics back end. The first is
`RouteCalculator` in `logistics/services/graph_engine.py`. It builds a directed
graph of locations and routes, finds the least-time, least-distance or
least-cost route between two locations, and lists every location reachable
from one location. The second is the `Package` state machine in
`logistics/models.py`, with five states, five guarded transitions and a
tracking id that is assigned once.

Modules, one concern each:

- `Wrappers` (wrappers.dfy): `Option` and `Result`.
- `Records` (records.dfy): the `LocationNode` and `RouteEdge` rows the engine reads, as plain values.
- `Graphs` (graph.dfy): the graph, the weight of each arc under each metric, paths, path weights, reachability and least-weight paths.
- `GraphBuild` (build.dfy): `build_graph`. It is a method with two loops, proved equal to recursive specification functions, and the lemmas about those functions say which arcs and vertices a build yields.
- `Dijkstra` (dijkstra.dfy): the single-source search the source delegates to networkx. It is a loop over mutable distance and path maps. It is proved to reach exactly the reachable vertices and to give each one a path that no other path undercuts.
- `GraphEngine` (engine.dfy): the route and reachability results, the formatting loops, and the `RouteCalculator` class with its cached `graph` and `node_data` fields.
- `Packages` (package.dfy): the transition table, lemmas about runs of attempted transitions, the tracking-id format, and the `Package` class.

Modelling choices:

- Database queries are sequences of records passed in. `LocationNode.objects.filter(is_active=True)` is the active rows of the location sequence, and `RouteEdge.objects` is the route sequence, in order.
- As in networkx, `add_edge` adds both endpoints as vertices, even when a location is inactive. Such a vertex has no `node_data` entry unless an earlier build stored one while the location was active; then the old entry is used and the lookups succeed. Without an entry, in `calculate_shortest_path`, the `KeyError` this causes on a route through it ends in the catch-all, modelled as `CalculationFailed(id)`. In `get_all_routes_from_location` nothing catches it, and the model returns `MissingNodeData(id)`. So an inactive location can be in the graph as a bare endpoint.
- `node_data` is merged on every rebuild and never cleared, as the code does.
- Arc time is kept as a whole number of half-minutes: twice the travel time, or three times it on a slow route. Reported times are reals (half-minutes divided by 2).
- Location categories are the code's `warehouse`, `city` and `customer`.
- For source == destination the route is `[source]` with no segments, zero totals and `stops` = -1, as `len(path) - 2` gives.
- Package transitions return `ok`. `false` stands for django-fsm's `TransitionNotAllowed`, and that outcome leaves every field unchanged. The current time for `delivered_at` and the uuid4 hex string for the tracking id are parameters.

## Model

| member | source | states |
|---|---|---|
| Graphs.PathWeight | logistics/services/graph_engine.py:135-142 | the weight of a path is the sum of its arcs' weights; it is not negative when no arc weight is |
| Graphs.ExtendPath | logistics/services/graph_engine.py:135-142 | appending an arc to a path from s gives a path from s whose weight grows by exactly the arc's weight |
| GraphBuild.ArcOf | logistics/services/graph_engine.py:53-74 | a route's arc: time is the travel time, times 1.5 when slow; distance is distance_km; cost is cost_per_km × distance_km; status and route id are kept |
| GraphBuild.Build | logistics/services/graph_engine.py:29-74 | the two loops yield exactly the specified graph (active ids plus endpoints of routes that are not closed, with the arcs of those routes) and node_data (earlier entries plus one per active location) |
| GraphBuild.ArcsOfDomain | logistics/services/graph_engine.py:53-74 | an ordered pair carries an arc exactly when some route on it is not closed |
| GraphBuild.ArcsOfValue | logistics/services/graph_engine.py:53-74 | with one route per ordered pair, the arc on a pair is that route's arc |
| GraphBuild.ClosedHasNoArc | logistics/services/graph_engine.py:57-59 | with one route per ordered pair, a closed route never becomes an arc |
| GraphBuild.ArcsOfEndpoints | logistics/services/graph_engine.py:66-74 | both endpoints of every arc are endpoints of a route that is not closed |
| GraphBuild.ArcsOfNonNegative | logistics/services/graph_engine.py:66-74 | arcs built from routes with non-negative distance and cost per km have non-negative distance and cost |
| GraphBuild.GraphOfWellFormed | logistics/services/graph_engine.py:29-77 | a built graph's arcs join vertices, and its weights are non-negative when the routes are valid |
| GraphBuild.VertexOrigin | logistics/services/graph_engine.py:32-74 | a vertex is exactly an active location id or an endpoint of a route that is not closed |
| GraphBuild.ActiveIdsMember | logistics/services/graph_engine.py:32-41 | the vertices added by the first loop are exactly the ids of active locations |
| GraphBuild.ArcEndpointsMember | logistics/services/graph_engine.py:53-74 | the vertices add_edge adds are exactly the endpoints of routes that are not closed |
| GraphBuild.NodeDataOfKeys | logistics/services/graph_engine.py:43-48 | node_data after a build has the earlier keys and the active ids, and no other key |
| GraphBuild.NodeDataOfValue | logistics/services/graph_engine.py:43-48 | with unique location ids, an active location's node_data entry is its own name, type and coordinates |
| Dijkstra.ShortestPaths | logistics/services/graph_engine.py:122-127 | over non-negative weights: a vertex gets a distance exactly when it is reachable from the source; its path runs from the source to it, repeats no vertex, weighs its distance, and no other path weighs less |
| GraphEngine.SelectMetric | logistics/services/graph_engine.py:114-118 | "distance" selects distance, "cost" selects cost, and every other string selects time |
| GraphEngine.BuildSegments | logistics/services/graph_engine.py:130-165 | one segment per arc of the path, segment i from the arc path[i]→path[i+1]; the running totals equal the path's time, distance and cost weights; a vertex without node_data stops it, naming the first such vertex |
| GraphEngine.BuildNodes | logistics/services/graph_engine.py:167-178 | one node entry per path vertex from its node_data; a vertex without node_data stops it, naming the first such vertex |
| GraphEngine.FormatRoute | logistics/services/graph_engine.py:129-193 | the route has one node and one segment per vertex and arc of the path; segment i is the arc path[i]→path[i+1] with its own time, distance and cost whatever the metric; totals are the path's weights; stops is len(path) - 2; it fails exactly when a path vertex has no node_data, naming the first such vertex |
| GraphEngine.ShortestPathOn | logistics/services/graph_engine.py:100-204 | an unknown source is reported first and an unknown destination next, and these two errors arise only for unknown ids; between two vertices, "no route" is reported exactly when no directed path exists; a success is a least-weight path under the selected metric that repeats no vertex, formatted as above; a failure names the first vertex on a least-weight path without node_data; with node_data for every vertex a reachable destination always succeeds; source == destination gives the one-node route with stops -1 |
| GraphEngine.ListDestinations | logistics/services/graph_engine.py:232-240 | one entry per distance other than the source's, no repeats, each with its node_data name and type and its distance; it fails only on a vertex without node_data |
| GraphEngine.CollectReachable | logistics/services/graph_engine.py:219-250 | "location not found" is returned exactly for an unknown location; otherwise the destinations are exactly the vertices reachable from the source, minus the source, each at its least distance; count is their number; it fails only on a missing node_data entry, and never when every vertex has one |
| GraphEngine.ReachableFrom | logistics/services/graph_engine.py:206-250 | all of CollectReachable, with distances measured in travel time |
| GraphEngine.ReachableFromAsWritten | logistics/services/graph_engine.py:219-230 | the call as written, under the documented signature that takes no weight keyword: "location not found" exactly for an unknown location, and a rejected call for every known one |
| GraphEngine.AsWrittenMissesIntent | logistics/services/graph_engine.py:216-250 | for a known location the as-written result never meets the intended reachability outcome |
| GraphEngine.ReachableFromByHops | logistics/services/graph_engine.py:226-230 | if the weight keyword were accepted and ignored: all of CollectReachable, with distances counted in arcs |
| GraphEngine.HopCountIsNotTravelTime | logistics/services/graph_engine.py:226-239 | on one 10-minute arc the hop distance is 1 while the only time distance is 10 |
| GraphEngine.RouteCalculator.constructor | logistics/services/graph_engine.py:12-14 | no graph and empty node_data |
| GraphEngine.RouteCalculator.BuildGraph | logistics/services/graph_engine.py:16-77 | with a cached graph and no forced rebuild, returns it and changes nothing; otherwise builds the graph of the records, replaces the cached graph wholesale and merges into node_data |
| GraphEngine.RouteCalculator.CalculateShortestPath | logistics/services/graph_engine.py:79-204 | builds the graph only when none is cached, then gives the outcome ShortestPathOn states, on the cached graph |
| GraphEngine.RouteCalculator.GetAllRoutesFromLocation | logistics/services/graph_engine.py:206-250 | builds the graph only when none is cached, then gives the outcome ReachableFrom states, on the cached graph |
| Packages.TerminalHasNoTransition | logistics/models.py:171-195 | a state has no allowed transition exactly when it is delivered or cancelled |
| Packages.CancelSources | logistics/models.py:192-195 | cancelling is allowed exactly from pending and in transit, and leads to cancelled |
| Packages.TerminalAbsorbs | logistics/models.py:171-195 | from delivered or cancelled, any sequence of attempted transitions leaves the state as it is |
| Packages.DeliveredNeedsCompletion | logistics/models.py:186-190 | a package that was not delivered becomes delivered only through a complete_delivery |
| Packages.NeverBackwards | logistics/models.py:140-195 | no sequence of attempted transitions moves a package back along pending, in transit, out for delivery, delivered or cancelled |
| Packages.ToUpper | logistics/models.py:167 | upper-casing maps each of a-f to its own capital A-F, keeps decimal digits, and so yields an upper-case hex digit |
| Packages.TrackingId | logistics/models.py:167 | the id is "PKG-" followed by 12 upper-case hex digits, the upper-cased first 12 characters of the uuid hex string |
| Packages.Package.constructor | logistics/models.py:140-154 | a new package is pending, has no tracking id and no delivery time, and keeps the given locations, weight and description |
| Packages.Package.Save | logistics/models.py:164-168 | assigns the tracking id only when it is empty; an existing id never changes; no other field changes |
| Packages.Package.StartTransit | logistics/models.py:171-174 | allowed exactly from pending; moves to in transit; nothing else changes, and a rejected call changes nothing |
| Packages.Package.MoveToLocation | logistics/models.py:176-179 | allowed exactly in transit; stays in transit with the new current location; nothing else changes, and a rejected call changes nothing |
| Packages.Package.StartDelivery | logistics/models.py:181-184 | allowed exactly from in transit; moves to out for delivery; nothing else changes, and a rejected call changes nothing |
| Packages.Package.CompleteDelivery | logistics/models.py:186-190 | allowed exactly from out for delivery; moves to delivered and records the delivery time; nothing else changes, and a rejected call changes nothing |
| Packages.Package.CancelPackage | logistics/models.py:192-195 | allowed exactly from pending or in transit; moves to cancelled; nothing else changes, and a rejected call changes nothing |

## Left out

- Database access: the `LocationNode` and `RouteEdge` queries and `Package`'s `super().save()` are replaced by values passed in. Ordering follows the given sequences.
- networkx: its data structures, its early stop at the target, and its choice among equally light paths. The model's search sweeps every reachable vertex and leaves ties open. Its contract fixes only what minimality fixes. Paths are kept per vertex, not as a predecessor map.
- Presentation rounding (`round(..., 2)`, `round(..., 0)`, which is half-even on floats) and the `float(...)` conversions: results carry the exact values.
- Floating point: weights, coordinates and costs are exact reals, so sums carry no rounding error.
- The catch-all `except Exception` is modelled only for the failure it absorbs in this code, a missing `node_data` entry. Other library errors are not modelled.
- Error messages: errors are tagged variants carrying the ids the messages name, not strings.
- The vertex attributes `name`, `node_type`, `latitude`, `longitude` and `address` that `build_graph` puts on networkx nodes: `Graph.vertices` is a plain set of ids. The first four are carried by `node_data`, which is what the core reads; `address` is read nowhere.
- GraphEngine.RouteCalculator.CalculateShortestPath: requires non-negative distance and cost per km on every route. `distance_km` has a minimum-value validator, but `cost_per_km` has none. Shortest-path search over negative costs is outside this model.
- GraphEngine.RouteCalculator.BuildGraph: requires the same non-negative routes, so that the cached graph always admits the search.
- GraphEngine.RouteCalculator.GetAllRoutesFromLocation: requires the same non-negative routes, although a search by time alone would not need them. It sweeps by travel time as intended, not with the rejected call as written (see Findings). The order of `reachable_destinations`, which networkx fixes through the order of its result dictionary, is not modelled: the destinations are picked in an unspecified order.
- `uuid.uuid4()` randomness and `timezone.now()`: the hex string and the time are parameters. The uniqueness of tracking ids across packages is not modelled.
- The `weight_kg` minimum-value validator, `created_at` and `updated_at`: no transition reads or writes them.
- HTTP views, URL routing, serializers, admin, WebSocket consumers and the Celery tasks: they wrap the core and are not part of this model.

## Findings

| source | as written | input that shows it | evidently intended | confidence | as-written member | corrected member |
|---|---|---|---|---|---|---|
| logistics/services/graph_engine.py:226-230 | the reachable destinations are computed with `nx.single_source_shortest_path_length(..., weight='weight')`. That function counts arcs: with the keyword accepted, `estimated_time_minutes` is a hop count. Under the documented signature, which takes no `weight`, the call raises a `TypeError` that nothing catches | any known location: the call is rejected before any destination is listed. If the keyword were accepted, one active route 1→2 with travel time 10 would give 1 as the distance to 2, while the travel time is 10 | each destination's estimated time is its least total travel time (a weighted shortest-path length) | not executed | GraphEngine.ReachableFromAsWritten, GraphEngine.AsWrittenMissesIntent, GraphEngine.ReachableFromByHops, GraphEngine.HopCountIsNotTravelTime | GraphEngine.ReachableFrom |
