/**
 * The directed weighted graph that build_graph produces
 * (logistics/services/graph_engine.py), and the paths in it.
 */
module Graphs {
  import opened Records

  /**
   * The attributes build_graph puts on an arc: the time weight, kept as a whole
   * number of half-minutes so that the slow-route penalty of 1.5 stays exact,
   * the distance, the cost, and the route's status and id.
   */
  datatype Arc = Arc(timeHalfMinutes: nat, distanceKm: real, cost: real, status: RouteStatus, routeId: int)

  /** A DiGraph: its vertex ids and at most one arc per ordered pair. */
  datatype Graph = Graph(vertices: set<int>, arcs: map<(int, int), Arc>)

  /**
   * The arc attribute a search is steered by: the three metrics of
   * calculate_shortest_path, and the unit weight of an unweighted (hop) search.
   */
  datatype Weighting = ByTime | ByDistance | ByCost | ByHops

  /** The time weight of an arc, in minutes. */
  function TimeMinutes(a: Arc): (r: real)
    ensures r >= 0.0
    ensures 2.0 * r == a.timeHalfMinutes as real
  {
    a.timeHalfMinutes as real / 2.0
  }

  function Weight(a: Arc, w: Weighting): real {
    match w
    case ByTime => TimeMinutes(a)
    case ByDistance => a.distanceKm
    case ByCost => a.cost
    case ByHops => 1.0
  }

  /** Every arc joins two vertices of the graph. */
  predicate WellFormed(g: Graph) {
    forall e :: e in g.arcs ==> e.0 in g.vertices && e.1 in g.vertices
  }

  /** No arc has a negative distance or cost (time is a nat anyway). */
  predicate NonNegative(g: Graph) {
    forall e :: e in g.arcs ==> g.arcs[e].distanceKm >= 0.0 && g.arcs[e].cost >= 0.0
  }

  predicate NonNegativeUnder(g: Graph, w: Weighting) {
    forall e :: e in g.arcs ==> Weight(g.arcs[e], w) >= 0.0
  }

  /** The vertices that an arc out of u leads to. */
  function Successors(g: Graph, u: int): (r: set<int>)
    ensures forall v :: v in r <==> (u, v) in g.arcs
  {
    set e | e in g.arcs && e.0 == u :: e.1
  }

  /** A non-empty set has an element (stated so that a choice `x :| x in s` can be made). */
  lemma NonEmptyHasElement(s: set<int>)
    requires s != {}
    ensures exists x :: x in s
  {
    if forall x :: x !in s {
      assert false;
    }
  }

  /** Every consecutive pair of p is an arc. */
  predicate IsWalk(g: Graph, p: seq<int>) {
    forall i :: 0 <= i < |p| - 1 ==> (p[i], p[i + 1]) in g.arcs
  }

  /** p is a directed path (vertices may repeat) from s to t. */
  predicate IsPath(g: Graph, p: seq<int>, s: int, t: int) {
    |p| > 0 && p[0] == s && p[|p| - 1] == t && IsWalk(g, p)
  }

  /** No vertex occurs twice in p. */
  predicate NoRepeats(p: seq<int>) {
    forall i, j :: 0 <= i < j < |p| ==> p[i] != p[j]
  }

  /** The sum of the selected weight over the arcs of a walk. */
  function PathWeight(g: Graph, w: Weighting, p: seq<int>): (r: real)
    requires IsWalk(g, p)
    ensures NonNegativeUnder(g, w) ==> r >= 0.0
    decreases |p|
  {
    if |p| <= 1 then 0.0
    else
      var q := p[..|p| - 1];
      assert IsWalk(g, q) by {
        forall i | 0 <= i < |q| - 1 ensures (q[i], q[i + 1]) in g.arcs {
          assert q[i] == p[i] && q[i + 1] == p[i + 1];
        }
      }
      PathWeight(g, w, q) + Weight(g.arcs[(p[|p| - 2], p[|p| - 1])], w)
  }

  ghost predicate Reachable(g: Graph, s: int, t: int) {
    exists p :: IsPath(g, p, s, t)
  }

  /** p is a path from s to t and no path from s to t weighs less. */
  ghost predicate IsShortest(g: Graph, w: Weighting, p: seq<int>, s: int, t: int) {
    IsPath(g, p, s, t) && forall q :: IsPath(g, q, s, t) ==> PathWeight(g, w, p) <= PathWeight(g, w, q)
  }

  /** d is the least weight of a path from s to t. */
  ghost predicate IsDistance(g: Graph, w: Weighting, s: int, t: int, d: real) {
    (exists p :: IsShortest(g, w, p, s, t) && PathWeight(g, w, p) == d)
  }

  /** In a well-formed graph only vertices are reachable from a vertex. */
  lemma ReachableIsVertex(g: Graph, s: int, t: int)
    requires WellFormed(g) && s in g.vertices && Reachable(g, s, t)
    ensures t in g.vertices
  {
    var p :| IsPath(g, p, s, t);
    if |p| > 1 {
      assert (p[|p| - 2], p[|p| - 1]) in g.arcs;
    }
  }

  /** In a well-formed graph every vertex along a path from a vertex is a vertex. */
  lemma PathInGraph(g: Graph, p: seq<int>, s: int, t: int)
    requires WellFormed(g) && s in g.vertices && IsPath(g, p, s, t)
    ensures forall i :: 0 <= i < |p| ==> p[i] in g.vertices
  {
    forall i | 0 <= i < |p| ensures p[i] in g.vertices {
      if i > 0 {
        assert (p[i - 1], p[i]) in g.arcs;
      }
    }
  }

  /** A path followed by one more arc is a path, and weighs that arc more. */
  lemma ExtendPath(g: Graph, w: Weighting, p: seq<int>, s: int, u: int, v: int)
    requires IsPath(g, p, s, u) && (u, v) in g.arcs
    ensures IsPath(g, p + [v], s, v)
    ensures PathWeight(g, w, p + [v]) == PathWeight(g, w, p) + Weight(g.arcs[(u, v)], w)
  {
    var q := p + [v];
    assert q[..|q| - 1] == p;
    assert forall i :: 0 <= i < |q| - 1 ==> (q[i], q[i + 1]) in g.arcs by {
      forall i | 0 <= i < |q| - 1 ensures (q[i], q[i + 1]) in g.arcs {
        if i < |p| - 1 { assert q[i] == p[i] && q[i + 1] == p[i + 1]; }
      }
    }
  }

  /** A path of two or more vertices is a shorter path followed by its last arc. */
  lemma DropLast(g: Graph, w: Weighting, q: seq<int>, s: int, v: int)
    requires IsPath(g, q, s, v) && |q| > 1
    ensures IsPath(g, q[..|q| - 1], s, q[|q| - 2])
    ensures (q[|q| - 2], v) in g.arcs
    ensures PathWeight(g, w, q) == PathWeight(g, w, q[..|q| - 1]) + Weight(g.arcs[(q[|q| - 2], v)], w)
  {
    var p := q[..|q| - 1];
  }
}
