/**
 The road network as app.py uses it after `G.to_undirected()`: a node set,
 node positions, a set of edges, and each edge's `length` in metres. An
 edge is stored once, in whichever orientation the graph lists it;
 adjacency and edge lengths look at both orientations, as an undirected
 graph does.
 */
module RoadGraph {
  import opened Geometry

  /** An OpenStreetMap node id. */
  type Node = int

  /** One edge, in the orientation `G.edges()` yields it. */
  datatype Edge = Edge(u: Node, v: Node)

  /**
   `nodes` is the node set; `coords` maps (at least) every node to its
   `x`/`y` attributes; `edges` and `length` hold the undirected edges and
   their `length` attributes.
   */
  datatype Graph = Graph(nodes: set<Node>, coords: map<Node, Coord>, edges: set<Edge>, length: map<Edge, real>)

  /**
   Every node has a position; every edge joins two nodes and has a
   non-negative length; and no node pair is stored in both orientations,
   because `G[u][v]` and `G[v][u]` are the same edge of an undirected graph.
   */
  predicate WellFormed(g: Graph) {
    && g.nodes <= g.coords.Keys
    && (forall e | e in g.edges :: e.u in g.nodes && e.v in g.nodes && e in g.length && g.length[e] >= 0.0)
    && (forall e | e in g.edges :: Edge(e.v, e.u) in g.edges ==> e.u == e.v)
  }

  /** `u` and `v` are joined by an edge in either orientation. */
  predicate Adjacent(g: Graph, u: Node, v: Node) {
    Edge(u, v) in g.edges || Edge(v, u) in g.edges
  }

  /** `G[u][v]['length']`: the length of the edge between `u` and `v`. */
  function EdgeLength(g: Graph, u: Node, v: Node): (r: real)
    requires WellFormed(g) && Adjacent(g, u, v)
    ensures r >= 0.0
    ensures Edge(u, v) in g.edges ==> r == g.length[Edge(u, v)]
    ensures Edge(v, u) in g.edges ==> r == g.length[Edge(v, u)]
  {
    if Edge(u, v) in g.edges then g.length[Edge(u, v)] else g.length[Edge(v, u)]
  }

  /** The length of an edge does not depend on the direction it is walked in. */
  lemma EdgeLengthSymmetric(g: Graph, u: Node, v: Node)
    requires WellFormed(g) && Adjacent(g, u, v)
    ensures EdgeLength(g, u, v) == EdgeLength(g, v, u)
  {
  }

  /** A non-empty node sequence of the graph in which consecutive nodes are adjacent. */
  predicate IsPath(g: Graph, p: seq<Node>) {
    && |p| > 0
    && (forall i | 0 <= i < |p| :: p[i] in g.nodes)
    && (forall i | 0 <= i < |p| - 1 :: Adjacent(g, p[i], p[i + 1]))
  }

  /** A path that starts at `s` and ends at `t`, as `nx.shortest_path(g, s, t)` returns. */
  predicate IsPathBetween(g: Graph, p: seq<Node>, s: Node, t: Node) {
    IsPath(g, p) && p[0] == s && p[|p| - 1] == t
  }

  lemma PathSuffix(g: Graph, p: seq<Node>)
    requires IsPath(g, p) && |p| > 1
    ensures IsPath(g, p[1..])
  {
    forall i | 0 <= i < |p| - 2
      ensures Adjacent(g, p[1..][i], p[1..][i + 1])
    {
      assert p[1..][i] == p[i + 1] && p[1..][i + 1] == p[i + 2];
    }
  }

  lemma PathPrefix(g: Graph, p: seq<Node>, k: nat)
    requires IsPath(g, p) && 0 < k <= |p|
    ensures IsPath(g, p[..k])
  {
  }

  /** The sum of the lengths of the edges between consecutive nodes of `p`. */
  function PathLength(g: Graph, p: seq<Node>): (r: real)
    requires WellFormed(g) && IsPath(g, p)
    ensures r >= 0.0
    ensures |p| == 1 ==> r == 0.0
    decreases |p|
  {
    if |p| == 1 then 0.0
    else
      PathSuffix(g, p);
      EdgeLength(g, p[0], p[1]) + PathLength(g, p[1..])
  }

  /** Extending a path by one node adds exactly the length of the new edge. */
  lemma {:induction false} PathLengthSnoc(g: Graph, p: seq<Node>)
    requires WellFormed(g) && IsPath(g, p) && |p| > 1
    ensures IsPath(g, p[..|p| - 1])
    ensures PathLength(g, p) == PathLength(g, p[..|p| - 1]) + EdgeLength(g, p[|p| - 2], p[|p| - 1])
    decreases |p|
  {
    PathPrefix(g, p, |p| - 1);
    if |p| > 2 {
      PathSuffix(g, p);
      var tail := p[1..];
      PathLengthSnoc(g, tail);
      assert tail[..|tail| - 1] == p[..|p| - 1][1..];
      PathSuffix(g, p[..|p| - 1]);
    }
  }

  /**
   `sum(G[u][v][0]['length'] for u, v in zip(p[:-1], p[1:]))`: the edge
   lengths added up front to back.
   */
  method SumLengths(g: Graph, p: seq<Node>) returns (total: real)
    requires WellFormed(g) && IsPath(g, p)
    ensures total == PathLength(g, p)
  {
    total := 0.0;
    var i := 0;
    while i < |p| - 1
      invariant 0 <= i <= |p| - 1
      invariant IsPath(g, p[..i + 1])
      invariant total == PathLength(g, p[..i + 1])
    {
      var prefix := p[..i + 2];
      PathPrefix(g, p, i + 2);
      PathLengthSnoc(g, prefix);
      assert prefix[..|prefix| - 1] == p[..i + 1];
      total := total + EdgeLength(g, p[i], p[i + 1]);
      i := i + 1;
    }
    assert p[..|p|] == p;
  }
}
