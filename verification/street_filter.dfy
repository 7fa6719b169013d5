/**
 `grafo_manhattan()` in app.py: the subgraph of the road network that keeps
 only the edges `es_recta` accepts with its default tolerances.

 The filter is written for any edge test `keep` on the two end positions;
 `ManhattanGraph` instantiates it with `es_recta`. The filter's lemmas need
 only that the test is symmetric, which `es_recta` is.
 */
module StreetFilter {
  import opened Geometry
  import opened RoadGraph

  /** The default `tolerancia_angulo` of `es_recta`, in degrees. */
  const AngleTolerance: real := 9.0
  /** The default `tolerancia_dist` of `es_recta`, in the units of the node coordinates (degrees). */
  const DistanceTolerance: real := 9.0

  /** A test on the two end positions of an edge. */
  type EdgeTest = (Coord, Coord) -> bool

  /** The test gives the same answer for both orientations of an edge. */
  ghost predicate IsSymmetric(keep: EdgeTest) {
    forall p: Coord, q: Coord :: keep(p, q) == keep(q, p)
  }

  /** `es_recta(u, v)` with its default tolerances, as a test on end positions. */
  function StreetTest(f: Atan2): EdgeTest {
    (p: Coord, q: Coord) => EsRecta(f, p, q, AngleTolerance, DistanceTolerance)
  }

  /** The street test is symmetric whenever `f` behaves like `atan2`. */
  lemma StreetTestSymmetric(f: Atan2)
    requires IsAtan2Degrees(f)
    ensures IsSymmetric(StreetTest(f))
  {
    forall p: Coord, q: Coord
      ensures StreetTest(f)(p, q) == StreetTest(f)(q, p)
    {
      EsRectaSymmetric(f, p, q, AngleTolerance, DistanceTolerance);
    }
  }

  /** The test applied to the positions of two nodes of `g`. */
  predicate Passes(g: Graph, keep: EdgeTest, u: Node, v: Node)
    requires WellFormed(g) && u in g.nodes && v in g.nodes
  {
    keep(g.coords[u], g.coords[v])
  }

  /** `n` is an end of some edge in `edges`. */
  predicate IsEndpoint(edges: set<Edge>, n: Node) {
    exists e | e in edges :: e.u == n || e.v == n
  }

  /** The edges of `g` that pass the test, in the orientation `g` stores them. */
  function KeptEdges(g: Graph, keep: EdgeTest): (kept: set<Edge>)
    requires WellFormed(g)
    ensures kept <= g.edges
    ensures forall e | e in g.edges :: e in kept <==> Passes(g, keep, e.u, e.v)
  {
    set e | e in g.edges && Passes(g, keep, e.u, e.v)
  }

  /** The nodes that `H.add_edge` creates for a set of edges: both ends of each. */
  function Ends(edges: set<Edge>): (ns: set<Node>)
    ensures forall e | e in edges :: e.u in ns && e.v in ns
  {
    (set e | e in edges :: e.u) + (set e | e in edges :: e.v)
  }

  /** `Ends` creates no node that is not an end of some edge. */
  lemma EndsAreEndpoints(edges: set<Edge>, n: Node)
    requires n in Ends(edges)
    ensures IsEndpoint(edges, n)
  {
    var e :| e in edges && (e.u == n || e.v == n);
  }

  /** A set that holds both ends of every edge holds all of `Ends`. */
  lemma EndsWithin(edges: set<Edge>, s: set<Node>)
    requires forall e | e in edges :: e.u in s && e.v in s
    ensures Ends(edges) <= s
  {
    forall n | n in Ends(edges)
      ensures n in s
    {
      EndsAreEndpoints(edges, n);
      var e :| e in edges && (e.u == n || e.v == n);
    }
  }

  /**
   The loop of `grafo_manhattan()`: a fresh graph to which every edge of `g`
   that passes the test is added with its attributes. Adding an edge adds
   its two ends, so the nodes are the ends of kept edges (see
   `FilterNodesAreEndpoints` for the converse). Positions and lengths are
   still looked up in `g`'s tables, as `ruta` does.
   */
  function Filter(g: Graph, keep: EdgeTest): (h: Graph)
    requires WellFormed(g)
    ensures WellFormed(h)
    ensures h.edges <= g.edges && h.nodes <= g.nodes
    ensures forall e | e in g.edges :: e in h.edges <==> Passes(g, keep, e.u, e.v)
    ensures h.coords == g.coords && h.length == g.length
  {
    var kept := KeptEdges(g, keep);
    EndsWithin(kept, g.nodes);
    Graph(Ends(kept), g.coords, kept, g.length)
  }

  /** A node is in the filtered graph exactly when it is an end of a kept edge. */
  lemma FilterNodesAreEndpoints(g: Graph, keep: EdgeTest, n: Node)
    requires WellFormed(g)
    ensures n in Filter(g, keep).nodes <==> IsEndpoint(Filter(g, keep).edges, n)
  {
    var h := Filter(g, keep);
    if n in h.nodes {
      EndsAreEndpoints(h.edges, n);
    }
  }

  /** `grafo_manhattan()`: the road graph restricted to straight streets. */
  function ManhattanGraph(g: Graph, f: Atan2): (h: Graph)
    requires WellFormed(g)
    ensures WellFormed(h)
    ensures h.edges <= g.edges && h.nodes <= g.nodes
    ensures forall e | e in g.edges ::
      e in h.edges <==> EsRecta(f, g.coords[e.u], g.coords[e.v], AngleTolerance, DistanceTolerance)
    ensures h.coords == g.coords && h.length == g.length
  {
    Filter(g, StreetTest(f))
  }

  /**
   Two nodes are adjacent in the filtered graph exactly when they are
   adjacent in `g` and pass the test. With a symmetric test this does not
   depend on the orientation in which `g` stores the edge.
   */
  lemma AdjacentInFilter(g: Graph, keep: EdgeTest, u: Node, v: Node)
    requires WellFormed(g) && IsSymmetric(keep)
    requires u in g.nodes && v in g.nodes
    ensures Adjacent(Filter(g, keep), u, v) <==> Adjacent(g, u, v) && Passes(g, keep, u, v)
  {
    assert keep(g.coords[u], g.coords[v]) == keep(g.coords[v], g.coords[u]);
  }

  /** An edge kept by the filter has the same length in the filtered graph as in `g`. */
  lemma EdgeLengthInFilter(g: Graph, keep: EdgeTest, u: Node, v: Node)
    requires WellFormed(g) && IsSymmetric(keep)
    requires Adjacent(Filter(g, keep), u, v)
    ensures Adjacent(g, u, v)
    ensures EdgeLength(Filter(g, keep), u, v) == EdgeLength(g, u, v)
  {
    var h := Filter(g, keep);
    var e := if Edge(u, v) in h.edges then Edge(u, v) else Edge(v, u);
    assert e in h.edges;
    assert keep(g.coords[u], g.coords[v]) == keep(g.coords[v], g.coords[u]);
  }

  /**
   Every path of the filtered graph is a path of `g` whose every edge passes
   the test, and it has the same length in both graphs.
   */
  lemma {:induction false} FilterPathIsRoadPath(g: Graph, keep: EdgeTest, p: seq<Node>)
    requires WellFormed(g) && IsSymmetric(keep)
    requires IsPath(Filter(g, keep), p)
    ensures IsPath(g, p)
    ensures forall i | 0 <= i < |p| - 1 :: Passes(g, keep, p[i], p[i + 1])
    ensures PathLength(Filter(g, keep), p) == PathLength(g, p)
    decreases |p|
  {
    var h := Filter(g, keep);
    forall i | 0 <= i < |p| - 1
      ensures Adjacent(g, p[i], p[i + 1]) && Passes(g, keep, p[i], p[i + 1])
    {
      AdjacentInFilter(g, keep, p[i], p[i + 1]);
    }
    if |p| > 1 {
      PathSuffix(h, p);
      FilterPathIsRoadPath(g, keep, p[1..]);
      EdgeLengthInFilter(g, keep, p[0], p[1]);
    }
  }

  /** A path of `g` with at least one edge, every edge passing the test, is a path of the filtered graph. */
  lemma PassingRoadPathInFilter(g: Graph, keep: EdgeTest, p: seq<Node>)
    requires WellFormed(g) && IsSymmetric(keep)
    requires IsPath(g, p) && |p| > 1
    requires forall i | 0 <= i < |p| - 1 :: Passes(g, keep, p[i], p[i + 1])
    ensures IsPath(Filter(g, keep), p)
  {
    var h := Filter(g, keep);
    forall i | 0 <= i < |p| - 1
      ensures Adjacent(h, p[i], p[i + 1])
    {
      AdjacentInFilter(g, keep, p[i], p[i + 1]);
    }
    forall i | 0 <= i < |p|
      ensures p[i] in h.nodes
    {
      var j := if i < |p| - 1 then i else i - 1;
      AdjacentInFilter(g, keep, p[j], p[j + 1]);
      var e := if Edge(p[j], p[j + 1]) in h.edges then Edge(p[j], p[j + 1]) else Edge(p[j + 1], p[j]);
      assert e in h.edges && (e.u == p[i] || e.v == p[i]);
    }
  }
}
