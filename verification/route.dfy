/**
 The `/ruta` handler of app.py once the request has been parsed: the plain
 shortest path on the whole road graph, its coordinates and total length,
 and the attempt to find a path that uses straight streets only.

 `ox.distance.nearest_nodes` is not modelled: its two answers are the
 parameters `s` and `t`. `nx.shortest_path` is the parameter `sp`, an
 oracle about which the lemmas assume only what they state.
 */
module Route {
  import opened Wrappers
  import opened Geometry
  import opened RoadGraph
  import opened StreetFilter

  /** `nx.shortest_path(graph, source, target, weight='length')`; `None` stands for `NetworkXNoPath`. */
  type PathOracle = (Graph, Node, Node) -> Option<seq<Node>>

  /** Whatever the oracle returns is a path of the graph it was given, between the nodes asked for. */
  ghost predicate ReturnsPaths(sp: PathOracle) {
    forall g: Graph, s: Node, t: Node :: sp(g, s, t).Some? ==> IsPathBetween(g, sp(g, s, t).value, s, t)
  }

  /** The oracle fails only when no path exists. */
  ghost predicate FindsPaths(sp: PathOracle) {
    forall g: Graph, s: Node, t: Node, p: seq<Node> :: IsPathBetween(g, p, s, t) ==> sp(g, s, t).Some?
  }

  /** A latitude/longitude pair as the JSON reply carries it: `(y, x)`. */
  type LatLngPair = (real, real)

  /** The message when an end node touches no straight street. */
  const NotConnectedMessage: string := "No se pudo calcular la ruta Manhattan: nodos no conectados en calles ortogonales."
  /** The message when both end nodes touch straight streets but no straight-only path joins them. */
  const NoConnectionMessage: string := "No se pudo calcular la ruta Manhattan: no hay conexión solo por calles ortogonales."

  /** `[(G.nodes[n]['y'], G.nodes[n]['x']) for n in p]`. */
  function RouteCoords(g: Graph, p: seq<Node>): (cs: seq<LatLngPair>)
    requires WellFormed(g) && forall i | 0 <= i < |p| :: p[i] in g.nodes
    ensures |cs| == |p|
    ensures forall i | 0 <= i < |p| :: cs[i] == (g.coords[p[i]].y, g.coords[p[i]].x)
  {
    seq(|p|, i requires 0 <= i < |p| => (g.coords[p[i]].y, g.coords[p[i]].x))
  }

  /** `q` runs from `s` to `t` in `g` along streets `es_recta` accepts, every one of them. */
  ghost predicate IsStraightPath(g: Graph, f: Atan2, q: seq<Node>, s: Node, t: Node) {
    && WellFormed(g)
    && IsPathBetween(g, q, s, t)
    && forall i | 0 <= i < |q| - 1 :: Passes(g, StreetTest(f), q[i], q[i + 1])
  }

  /** The Manhattan half of the reply: `ruta_manhattan` and `mensaje_manhattan`. */
  datatype ManhattanPart = ManhattanPart(coords: seq<LatLngPair>, message: Option<string>)

  /**
   The `try` block of `ruta`: build the straight-street graph; if both end
   nodes are in it, ask the oracle for a path there and report its
   coordinates; otherwise, or if the oracle finds none, leave the
   coordinates empty and explain why.
   */
  function ManhattanAttempt(g: Graph, f: Atan2, sp: PathOracle, s: Node, t: Node): (r: ManhattanPart)
    requires WellFormed(g) && IsAtan2Degrees(f) && ReturnsPaths(sp)
    ensures r.message.None? <==> |r.coords| > 0
    ensures var h := ManhattanGraph(g, f);
      r.message.None? <==> s in h.nodes && t in h.nodes && sp(h, s, t).Some?
    ensures r.message.Some? ==> r.message.value in {NotConnectedMessage, NoConnectionMessage}
    ensures var h := ManhattanGraph(g, f);
      r.message == Some(NotConnectedMessage) <==> !(s in h.nodes && t in h.nodes)
    ensures var h := ManhattanGraph(g, f);
      r.message == Some(NoConnectionMessage) <==> s in h.nodes && t in h.nodes && sp(h, s, t).None?
    ensures r.message.None? ==>
      var q := sp(ManhattanGraph(g, f), s, t).value;
      IsStraightPath(g, f, q, s, t) && r.coords == RouteCoords(g, q)
  {
    var h := ManhattanGraph(g, f);
    if s in h.nodes && t in h.nodes then
      match sp(h, s, t)
      case Some(q) =>
        StreetTestSymmetric(f);
        FilterPathIsRoadPath(g, StreetTest(f), q);
        ManhattanPart(RouteCoords(g, q), None)
      case None => ManhattanPart([], Some(NoConnectionMessage))
    else
      ManhattanPart([], Some(NotConnectedMessage))
  }

  /** The JSON reply of `/ruta` (lengths are not rounded here). */
  datatype Reply = Reply(
    ruta: seq<LatLngPair>,
    distanciaMetros: real,
    rutaManhattan: seq<LatLngPair>,
    mensajeManhattan: Option<string>)

  /** The plain `nx.shortest_path` call sits outside the `try`, so its failure ends the request with an error. */
  datatype RouteError = NoPlainPath

  /** `ruta()` for end nodes `s` and `t` of the road graph `g`. */
  method Ruta(g: Graph, f: Atan2, sp: PathOracle, s: Node, t: Node) returns (r: Result<Reply, RouteError>)
    requires WellFormed(g) && IsAtan2Degrees(f) && ReturnsPaths(sp)
    requires s in g.nodes && t in g.nodes
    ensures r.Err? <==> sp(g, s, t).None?
    ensures r.Ok? ==>
      var p := sp(g, s, t).value;
      && IsPathBetween(g, p, s, t)
      && r.value.ruta == RouteCoords(g, p)
      && r.value.distanciaMetros == PathLength(g, p)
      && r.value.ruta[0] == (g.coords[s].y, g.coords[s].x)
      && r.value.ruta[|r.value.ruta| - 1] == (g.coords[t].y, g.coords[t].x)
    ensures r.Ok? ==>
      ManhattanPart(r.value.rutaManhattan, r.value.mensajeManhattan) == ManhattanAttempt(g, f, sp, s, t)
  {
    var plain := sp(g, s, t);
    if plain.None? {
      return Err(NoPlainPath);
    }
    var p := plain.value;
    var distance := SumLengths(g, p);
    var manhattan := ManhattanAttempt(g, f, sp, s, t);
    return Ok(Reply(RouteCoords(g, p), distance, manhattan.coords, manhattan.message));
  }

  /**
   For two distinct end nodes, and an oracle that finds a path whenever one
   exists, the Manhattan message is set exactly when no path joins them
   along straight streets only.
   */
  lemma MessageIffNoStraightPath(g: Graph, f: Atan2, sp: PathOracle, s: Node, t: Node)
    requires WellFormed(g) && IsAtan2Degrees(f) && ReturnsPaths(sp) && FindsPaths(sp)
    requires s != t
    ensures ManhattanAttempt(g, f, sp, s, t).message.Some? <==> !exists q :: IsStraightPath(g, f, q, s, t)
  {
    var h := ManhattanGraph(g, f);
    if q :| IsStraightPath(g, f, q, s, t) {
      StreetTestSymmetric(f);
      PassingRoadPathInFilter(g, StreetTest(f), q);
      assert IsPathBetween(h, q, s, t);
      assert q[0] in h.nodes && q[|q| - 1] in h.nodes;
    }
  }

  /**
   When both end nodes are the same node and no straight street touches it,
   the reply still carries the "not connected" message, although the
   one-node path trivially uses straight streets only: the filtered graph
   has no such node.
   */
  lemma SameNodeOffGrid(g: Graph, f: Atan2, sp: PathOracle, s: Node)
    requires WellFormed(g) && IsAtan2Degrees(f) && ReturnsPaths(sp)
    requires s in g.nodes
    requires forall e | e in g.edges && (e.u == s || e.v == s) ::
      !EsRecta(f, g.coords[e.u], g.coords[e.v], AngleTolerance, DistanceTolerance)
    ensures IsStraightPath(g, f, [s], s, s)
    ensures ManhattanAttempt(g, f, sp, s, s).message == Some(NotConnectedMessage)
  {
    var h := ManhattanGraph(g, f);
    FilterNodesAreEndpoints(g, StreetTest(f), s);
  }

  /**
   When the plain route is a shortest path of the road graph, the
   Manhattan route is never shorter: it is a path of the road graph too,
   with the same edge lengths.
   */
  lemma ManhattanNotShorter(g: Graph, f: Atan2, sp: PathOracle, s: Node, t: Node)
    requires WellFormed(g) && IsAtan2Degrees(f) && ReturnsPaths(sp)
    requires sp(g, s, t).Some? && IsPathBetween(g, sp(g, s, t).value, s, t)
    requires forall q | IsPathBetween(g, q, s, t) :: PathLength(g, sp(g, s, t).value) <= PathLength(g, q)
    requires ManhattanAttempt(g, f, sp, s, t).message.None?
    ensures var q := sp(ManhattanGraph(g, f), s, t).value;
      IsPath(g, q) && PathLength(g, sp(g, s, t).value) <= PathLength(g, q)
  {
    var q := sp(ManhattanGraph(g, f), s, t).value;
    assert IsStraightPath(g, f, q, s, t);
  }
}
