/**
 * The location and route records the engine reads (LocationNode and RouteEdge
 * in logistics/models.py). They are plain values here: the data store that owns
 * them is outside the model, and a query is a sequence of records.
 */
module Records {

  /** The three location categories of LocationNode.NODE_TYPES. */
  datatype NodeType = Warehouse | City | Customer

  /** The three route states of RouteEdge.STATUS_CHOICES. */
  datatype RouteStatus = Active | Closed | Slow

  /** A LocationNode row; coordinates and address are opaque metadata. */
  datatype Location = Location(
    id: int,
    name: string,
    nodeType: NodeType,
    latitude: real,
    longitude: real,
    address: string,
    isActive: bool)

  /**
   * A RouteEdge row. travel_time_minutes is an integer field validated to be
   * at least 0, hence a nat.
   */
  datatype RouteRecord = RouteRecord(
    id: int,
    sourceId: int,
    destinationId: int,
    distanceKm: real,
    travelTimeMinutes: nat,
    status: RouteStatus,
    costPerKm: real)

  /**
   * The field constraints a stored route satisfies: distance_km carries a
   * minimum-value validator of 0; cost_per_km carries none, but every search
   * over cost assumes it is not negative.
   */
  predicate ValidRoute(r: RouteRecord) {
    r.distanceKm >= 0.0 && r.costPerKm >= 0.0
  }

  predicate ValidRoutes(routes: seq<RouteRecord>) {
    forall i :: 0 <= i < |routes| ==> ValidRoute(routes[i])
  }

  /** unique_together on (source, destination): at most one route per ordered pair. */
  predicate UniquePairs(routes: seq<RouteRecord>) {
    forall i, j :: 0 <= i < |routes| && 0 <= j < |routes| && i != j ==>
      (routes[i].sourceId, routes[i].destinationId) != (routes[j].sourceId, routes[j].destinationId)
  }
}
