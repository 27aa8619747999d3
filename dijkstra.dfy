/**
 * A single-source shortest-path search over non-negative arc weights. The
 * engine hands its searches to networkx (nx.dijkstra_path in
 * logistics/services/graph_engine.py); this module supplies that search,
 * specified by minimality over all paths. Which of several equally light paths
 * is returned is left open, as it is in the engine.
 */
module Dijkstra {
  import opened Graphs

  /** Every settled vertex carries the least weight of any path to it from s. */
  ghost predicate SettledMinimal(g: Graph, w: Weighting, s: int, done: set<int>, dist: map<int, real>) {
    forall v, q :: v in done && v in dist && IsPath(g, q, s, v) ==> dist[v] <= PathWeight(g, w, q)
  }

  /** Every arc out of a settled vertex has been relaxed. */
  ghost predicate Relaxed(g: Graph, w: Weighting, done: set<int>, dist: map<int, real>) {
    forall e :: e in g.arcs && e.0 in done && e.0 in dist ==>
      e.1 in dist && dist[e.1] <= dist[e.0] + Weight(g.arcs[e], w)
  }

  /** Each tentative distance is the weight of the recorded path, which starts at s. */
  ghost predicate PathsAgree(g: Graph, w: Weighting, s: int, dist: map<int, real>, paths: map<int, seq<int>>) {
    dist.Keys == paths.Keys &&
    forall v :: v in paths ==> IsPath(g, paths[v], s, v) && PathWeight(g, w, paths[v]) == dist[v]
  }

  /** p repeats no vertex, and every vertex on it but the last is settled. */
  ghost predicate SettledPath(done: set<int>, p: seq<int>) {
    NoRepeats(p) && forall i :: 0 <= i < |p| - 1 ==> p[i] in done
  }

  /** Every recorded path is a settled path. */
  ghost predicate PathsSettled(done: set<int>, paths: map<int, seq<int>>) {
    forall v :: v in paths ==> SettledPath(done, paths[v])
  }

  /** Extending a settled path to an unsettled vertex keeps it free of repeats. */
  lemma ExtendSettled(done: set<int>, p: seq<int>, u: int, v: int)
    requires |p| > 0 && p[|p| - 1] == u && u in done && v !in done
    requires SettledPath(done, p)
    ensures SettledPath(done, p + [v])
  {
    var q := p + [v];
    forall i | 0 <= i < |p| ensures p[i] in done {
      if i == |p| - 1 {
        assert p[i] == u;
      }
    }
    forall i, j | 0 <= i < j < |q| ensures q[i] != q[j] {
      assert q[i] == p[i];
      if j == |q| - 1 {
        assert q[j] == v;
      } else {
        assert q[j] == p[j];
      }
    }
  }

  /**
   * Any path from s to an unsettled vertex passes through a frontier vertex
   * (tentative but unsettled) whose tentative distance is at most the path's
   * weight.
   */
  lemma {:induction false} FirstExit(g: Graph, w: Weighting, s: int, done: set<int>, dist: map<int, real>,
                                     q: seq<int>, v: int) returns (y: int)
    requires NonNegativeUnder(g, w)
    requires s in dist && dist[s] == 0.0 && done <= dist.Keys
    requires SettledMinimal(g, w, s, done, dist) && Relaxed(g, w, done, dist)
    requires IsPath(g, q, s, v) && v !in done
    ensures y in dist && y !in done && dist[y] <= PathWeight(g, w, q)
    decreases |q|
  {
    if |q| == 1 {
      y := s;
    } else {
      var p, x := q[..|q| - 1], q[|q| - 2];
      DropLast(g, w, q, s, v);
      if x in done {
        y := v;
      } else {
        y := FirstExit(g, w, s, done, dist, p, x);
      }
    }
  }

  /** A frontier vertex of least tentative distance may be settled. */
  lemma SettleClosest(g: Graph, w: Weighting, s: int, done: set<int>, dist: map<int, real>, u: int)
    requires NonNegativeUnder(g, w)
    requires s in dist && dist[s] == 0.0 && done <= dist.Keys
    requires SettledMinimal(g, w, s, done, dist) && Relaxed(g, w, done, dist)
    requires u in dist && u !in done
    requires forall x :: x in dist.Keys - done ==> dist[u] <= dist[x]
    ensures SettledMinimal(g, w, s, done + {u}, dist)
  {
    forall q | IsPath(g, q, s, u) ensures dist[u] <= PathWeight(g, w, q) {
      var y := FirstExit(g, w, s, done, dist, q, u);
    }
  }

  /** Once no vertex is left unsettled, every vertex reachable from s is settled. */
  lemma ReachableSettled(g: Graph, w: Weighting, s: int, done: set<int>, dist: map<int, real>, v: int)
    requires NonNegativeUnder(g, w)
    requires s in dist && dist[s] == 0.0 && done == dist.Keys
    requires SettledMinimal(g, w, s, done, dist) && Relaxed(g, w, done, dist)
    requires Reachable(g, s, v)
    ensures v in dist
  {
    var q :| IsPath(g, q, s, v);
    if v !in done {
      var y := FirstExit(g, w, s, done, dist, q, v);
    }
  }

  /** A frontier vertex with the least tentative distance (the heap pop). */
  method PickClosest(dist: map<int, real>, frontier: set<int>) returns (u: int)
    requires frontier != {} && frontier <= dist.Keys
    ensures u in frontier
    ensures forall x :: x in frontier ==> dist[u] <= dist[x]
  {
    NonEmptyHasElement(frontier);
    u :| u in frontier;
    var rest := frontier - {u};
    while rest != {}
      invariant rest <= frontier && u in frontier
      invariant forall x :: x in frontier - rest ==> dist[u] <= dist[x]
      decreases rest
    {
      NonEmptyHasElement(rest);
      var x :| x in rest;
      if dist[x] < dist[u] {
        u := x;
      }
      rest := rest - {x};
    }
  }

  /** Tentative distances that only shrink, and keep settled values, stay relaxed. */
  lemma RelaxedKept(g: Graph, w: Weighting, done: set<int>, dist0: map<int, real>, dist: map<int, real>)
    requires Relaxed(g, w, done, dist0) && done <= dist0.Keys
    requires forall x :: x in dist0 ==> x in dist && dist[x] <= dist0[x]
    requires forall x :: x in done && x in dist0 ==> dist[x] == dist0[x]
    ensures Relaxed(g, w, done, dist)
  {
    forall e | e in g.arcs && e.0 in done && e.0 in dist
      ensures e.1 in dist && dist[e.1] <= dist[e.0] + Weight(g.arcs[e], w)
    {
      var x: int, v: int := e.0, e.1;
      assert x in dist0 && v in dist0 && dist0[v] <= dist0[x] + Weight(g.arcs[e], w);
    }
  }

  /** Recording the path through the settled vertex u to the unsettled vertex v keeps both path invariants. */
  lemma RecordPath(g: Graph, w: Weighting, s: int, done: set<int>, u: int, v: int,
                   dist: map<int, real>, paths: map<int, seq<int>>)
    requires (u, v) in g.arcs && u in done && v !in done && done <= dist.Keys
    requires PathsAgree(g, w, s, dist, paths) && PathsSettled(done, paths)
    ensures PathsAgree(g, w, s, dist[v := dist[u] + Weight(g.arcs[(u, v)], w)], paths[v := paths[u] + [v]])
    ensures PathsSettled(done, paths[v := paths[u] + [v]])
    ensures forall x :: x in done ==> x in paths && x != v
  {
    ExtendPath(g, w, paths[u], s, u, v);
    ExtendSettled(done, paths[u], u, v);
  }

  /** A settled vertex v is never undercut through the arc u→v. */
  lemma SettledNotUndercut(g: Graph, w: Weighting, s: int, done: set<int>, u: int, v: int,
                           dist: map<int, real>, paths: map<int, seq<int>>)
    requires (u, v) in g.arcs && u in done && v in done && done <= dist.Keys
    requires PathsAgree(g, w, s, dist, paths) && SettledMinimal(g, w, s, done, dist)
    ensures dist[v] <= dist[u] + Weight(g.arcs[(u, v)], w)
  {
    ExtendPath(g, w, paths[u], s, u, v);
    assert dist[v] <= PathWeight(g, w, paths[u] + [v]);
  }

  /** Relaxes the arc u→v out of the settled vertex u. */
  method RelaxArc(g: Graph, w: Weighting, s: int, done: set<int>, u: int, v: int,
                  dist0: map<int, real>, paths0: map<int, seq<int>>)
    returns (dist: map<int, real>, paths: map<int, seq<int>>)
    requires WellFormed(g) && (u, v) in g.arcs
    requires u in done && done <= dist0.Keys <= g.vertices
    requires PathsAgree(g, w, s, dist0, paths0) && PathsSettled(done, paths0)
    requires v in done ==> dist0[v] <= dist0[u] + Weight(g.arcs[(u, v)], w)
    ensures dist0.Keys <= dist.Keys <= g.vertices
    ensures forall x :: x in dist0 ==> dist[x] <= dist0[x]
    ensures forall x :: x in done ==> x in paths && dist[x] == dist0[x] && paths[x] == paths0[x]
    ensures PathsAgree(g, w, s, dist, paths) && PathsSettled(done, paths)
    ensures v in dist && dist[v] <= dist[u] + Weight(g.arcs[(u, v)], w)
  {
    var d := dist0[u] + Weight(g.arcs[(u, v)], w);
    if v in done || (v in dist0 && dist0[v] <= d) {
      return dist0, paths0;
    }
    RecordPath(g, w, s, done, u, v, dist0, paths0);
    dist, paths := dist0[v := d], paths0[v := paths0[u] + [v]];
  }

  /** The loop over the successors of u: each arc out of u relaxed in turn. */
  method RelaxAll(g: Graph, w: Weighting, s: int, done: set<int>, u: int,
                  dist0: map<int, real>, paths0: map<int, seq<int>>)
    returns (dist: map<int, real>, paths: map<int, seq<int>>)
    requires WellFormed(g)
    requires u in done && done <= dist0.Keys <= g.vertices
    requires PathsAgree(g, w, s, dist0, paths0) && PathsSettled(done, paths0)
    requires forall v :: v in Successors(g, u) && v in done ==> dist0[v] <= dist0[u] + Weight(g.arcs[(u, v)], w)
    ensures dist0.Keys <= dist.Keys <= g.vertices
    ensures forall x :: x in dist0 ==> dist[x] <= dist0[x]
    ensures forall x :: x in done ==> x in paths && dist[x] == dist0[x] && paths[x] == paths0[x]
    ensures PathsAgree(g, w, s, dist, paths) && PathsSettled(done, paths)
    ensures forall v :: v in Successors(g, u) ==> v in dist && dist[v] <= dist[u] + Weight(g.arcs[(u, v)], w)
  {
    dist, paths := dist0, paths0;
    var succ := Successors(g, u);
    var todo := succ;
    while todo != {}
      invariant todo <= succ
      invariant dist0.Keys <= dist.Keys <= g.vertices
      invariant forall x :: x in dist0 ==> dist[x] <= dist0[x]
      invariant forall x :: x in done ==> x in paths && dist[x] == dist0[x] && paths[x] == paths0[x]
      invariant PathsAgree(g, w, s, dist, paths) && PathsSettled(done, paths)
      invariant forall v :: v in succ && v !in todo ==> v in dist && dist[v] <= dist[u] + Weight(g.arcs[(u, v)], w)
      decreases todo
    {
      NonEmptyHasElement(todo);
      var v :| v in todo;
      dist, paths := RelaxArc(g, w, s, done, u, v, dist, paths);
      todo := todo - {v};
    }
  }

  /** Relaxes every arc out of the newly settled vertex u. */
  method Relax(g: Graph, w: Weighting, s: int, done: set<int>, u: int,
               dist0: map<int, real>, paths0: map<int, seq<int>>)
    returns (dist: map<int, real>, paths: map<int, seq<int>>)
    requires WellFormed(g) && NonNegativeUnder(g, w)
    requires u in done && done <= dist0.Keys <= g.vertices
    requires PathsAgree(g, w, s, dist0, paths0) && PathsSettled(done, paths0)
    requires SettledMinimal(g, w, s, done, dist0)
    requires Relaxed(g, w, done - {u}, dist0)
    ensures dist0.Keys <= dist.Keys <= g.vertices
    ensures forall x :: x in done ==> x in paths && dist[x] == dist0[x] && paths[x] == paths0[x]
    ensures PathsAgree(g, w, s, dist, paths) && PathsSettled(done, paths)
    ensures SettledMinimal(g, w, s, done, dist)
    ensures Relaxed(g, w, done, dist)
  {
    forall v | v in Successors(g, u) && v in done
      ensures dist0[v] <= dist0[u] + Weight(g.arcs[(u, v)], w)
    {
      SettledNotUndercut(g, w, s, done, u, v, dist0, paths0);
    }
    dist, paths := RelaxAll(g, w, s, done, u, dist0, paths0);
    RelaxDone(g, w, s, done, u, dist0, dist);
  }

  /**
   * After all arcs out of u are relaxed, settled vertices keep their minimal
   * distances, and every arc out of a settled vertex is relaxed.
   */
  lemma RelaxDone(g: Graph, w: Weighting, s: int, done: set<int>, u: int, dist0: map<int, real>, dist: map<int, real>)
    requires u in done && done <= dist0.Keys
    requires SettledMinimal(g, w, s, done, dist0) && Relaxed(g, w, done - {u}, dist0)
    requires forall x :: x in dist0 ==> x in dist && dist[x] <= dist0[x]
    requires forall x :: x in done ==> dist[x] == dist0[x]
    requires forall v :: v in Successors(g, u) ==> v in dist && dist[v] <= dist[u] + Weight(g.arcs[(u, v)], w)
    ensures SettledMinimal(g, w, s, done, dist)
    ensures Relaxed(g, w, done, dist)
  {
    RelaxedKept(g, w, done - {u}, dist0, dist);
    forall e | e in g.arcs && e.0 in done && e.0 in dist
      ensures e.1 in dist && dist[e.1] <= dist[e.0] + Weight(g.arcs[e], w)
    {
      var v: int := e.1;
      if e.0 == u {
        assert e == (u, v) && v in Successors(g, u);
      } else {
        assert e.0 in done - {u};
      }
    }
  }

  /**
   * Once every tentative vertex is settled, the tentative vertices are exactly
   * the reachable ones, and each recorded path is a least-weight path.
   */
  lemma SweepComplete(g: Graph, w: Weighting, s: int, done: set<int>, dist: map<int, real>, paths: map<int, seq<int>>)
    requires NonNegativeUnder(g, w)
    requires s in dist && dist[s] == 0.0 && done == dist.Keys
    requires PathsAgree(g, w, s, dist, paths)
    requires SettledMinimal(g, w, s, done, dist) && Relaxed(g, w, done, dist)
    ensures forall v :: v in dist <==> Reachable(g, s, v)
    ensures forall v :: v in dist ==> v in paths && IsShortest(g, w, paths[v], s, v)
  {
    forall v | Reachable(g, s, v) ensures v in dist {
      ReachableSettled(g, w, s, done, dist, v);
    }
    forall v | v in dist ensures IsShortest(g, w, paths[v], s, v) {
      assert v in done && IsPath(g, paths[v], s, v);
    }
  }

  /** The state between two rounds of the sweep. */
  ghost predicate SweepState(g: Graph, w: Weighting, s: int, done: set<int>,
                             dist: map<int, real>, paths: map<int, seq<int>>) {
    done <= dist.Keys <= g.vertices &&
    s in dist && s in paths && dist[s] == 0.0 && paths[s] == [s] &&
    (done == {} ==> dist.Keys == {s}) &&
    (done == {} || s in done) &&
    PathsAgree(g, w, s, dist, paths) &&
    PathsSettled(done, paths) &&
    SettledMinimal(g, w, s, done, dist) &&
    Relaxed(g, w, done, dist)
  }

  lemma SweepStart(g: Graph, w: Weighting, s: int)
    requires s in g.vertices
    ensures SweepState(g, w, s, {}, map[s := 0.0], map[s := [s]])
  {
    assert IsPath(g, [s], s, s) && PathWeight(g, w, [s]) == 0.0;
  }

  /** One round: settle a closest tentative vertex and relax its arcs. */
  method SettleNext(g: Graph, w: Weighting, s: int, done0: set<int>,
                    dist0: map<int, real>, paths0: map<int, seq<int>>)
    returns (done: set<int>, dist: map<int, real>, paths: map<int, seq<int>>)
    requires WellFormed(g) && NonNegativeUnder(g, w)
    requires SweepState(g, w, s, done0, dist0, paths0) && dist0.Keys - done0 != {}
    ensures SweepState(g, w, s, done, dist, paths)
    ensures g.vertices - done < g.vertices - done0
  {
    var u := PickClosest(dist0, dist0.Keys - done0);
    SettleClosest(g, w, s, done0, dist0, u);
    done := done0 + {u};
    assert s in done;
    dist, paths := Relax(g, w, s, done, u, dist0, paths0);
  }

  /**
   * Single-source shortest paths: exactly the vertices reachable from s get a
   * distance, and each gets a path from s that repeats no vertex and that no
   * other path undercuts.
   */
  method ShortestPaths(g: Graph, w: Weighting, s: int) returns (dist: map<int, real>, paths: map<int, seq<int>>)
    requires WellFormed(g) && NonNegativeUnder(g, w) && s in g.vertices
    ensures s in dist && s in paths && paths[s] == [s]
    ensures PathsAgree(g, w, s, dist, paths)
    ensures forall v :: v in dist <==> Reachable(g, s, v)
    ensures forall v :: v in dist ==> IsShortest(g, w, paths[v], s, v) && NoRepeats(paths[v])
  {
    dist, paths := map[s := 0.0], map[s := [s]];
    var done: set<int> := {};
    SweepStart(g, w, s);
    while dist.Keys - done != {}
      invariant SweepState(g, w, s, done, dist, paths)
      decreases g.vertices - done
    {
      done, dist, paths := SettleNext(g, w, s, done, dist, paths);
    }
    assert done == dist.Keys by {
      assert done <= dist.Keys;
      forall x | x in dist ensures x in done {
        assert x !in dist.Keys - done;
      }
    }
    SweepComplete(g, w, s, done, dist, paths);
  }
}
