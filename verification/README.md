# Orthogonal-street routing: a Dafny model

This project models the two pieces of decision logic in a small Flask +
Leaflet web application that draws a route on a map of Mexico City:

* **The server's "Manhattan" route (`app.py`).** The road graph is filtered
  down to the streets that run almost exactly east-west or north-south
  (`angulo`, `es_recta`, `grafo_manhattan`). The `/ruta` handler then
  returns the plain shortest path, with its coordinates and total length,
  together with either the coordinates of a shortest path on the filtered
  graph or a message explaining why there is none.
* **The client page (`static/script.js`).** The page is a state machine over
  (transport mode, pending Origin/Destination selection, two point slots,
  button states, drawn lines, summary box). Events drive it: mode change, the
  two buttons, map clicks, search results, route replies and reset. The unit
  arithmetic that turns a route length into minutes, km/h and litres of fuel
  is modelled too.

Files (one module each):

| file | module | models |
|---|---|---|
| `wrappers.dfy` | `Wrappers` | `Option` (None/null) and `Result` |
| `geometry.dfy` | `Geometry` | Python's `% 180`, `angulo`, `es_recta`, the assumptions on `atan2` |
| `road_graph.dfy` | `RoadGraph` | the undirected road graph, paths, path length, the distance sum |
| `street_filter.dfy` | `StreetFilter` | `grafo_manhattan` as a filter over a symmetric edge test |
| `route.dfy` | `Route` | the `/ruta` handler with `nx.shortest_path` as an oracle |
| `travel.dfy` | `Travel` | speed table, km/h, minutes, fuel |
| `client_page.dfy` | `ClientPage` | page state, event handlers, the route request |

Abstractions:

* `math.degrees(math.atan2(dy, dx))` is a parameter `f`. The predicate
  `IsAtan2Degrees(f)` states what the model assumes about it. Its values lie
  in (-180, 180]. It gives 0 for the zero vector and due east, 180 due west,
  90 due north and -90 due south. Reversing the vector turns the bearing by
  180 degrees. `CoarseIsAtan2Degrees` exhibits a function with all of these
  properties, so the assumptions are consistent.
* `nx.shortest_path` is a parameter `sp` that returns `Some(path)` or `None`.
  `None` stands for `NetworkXNoPath`. Lemmas assume only what they name:
  `ReturnsPaths` (any answer is a path between the requested nodes) and
  `FindsPaths` (it fails only when no path exists). `ManhattanNotShorter`
  assumes, for its one call, that the plain route is a shortest path.
* `ox.distance.nearest_nodes` is not modelled. Its two answers are the
  parameters `s` and `t` of `Ruta`.
* Numbers are exact reals. Coordinates are `x` (longitude) and `y`
  (latitude), as osmnx stores them.
* A graph keeps each undirected edge once, in the orientation it is listed.
  Adjacency and edge length look at both orientations. The filtered graph
  reuses the road graph's position and length tables, because `ruta` reads
  positions from `G`.

Observations the proofs make precise:

* `es_recta` is symmetric (`EsRectaSymmetric`). That is why the filtered
  graph does not depend on the orientation in which `G.edges()` lists an edge
  (`AdjacentInFilter`, `EdgeLengthInFilter`).
* The default distance tolerance is 9, measured in degrees of latitude or
  longitude, which is roughly 1000 km. For any real street edge only the
  bearing decides (`ShortStreetsAngleOnly`).
* Suppose both clicks snap to the same node and no straight street touches
  it. The reply then still says "nodos no conectados", although the one-node
  route trivially uses only straight streets (`SameNodeOffGrid`). For two
  distinct end nodes the message appears exactly when no straight-only path
  exists (`MessageIffNoStraightPath`).
* The route request always sends `modo: 'manhattan'`, whatever transport
  mode was chosen (`RouteRequest`, `SentAreManhattan`). The mode only
  affects the time, speed and fuel figures.

## Model

| member | source | states |
|---|---|---|
| Geometry.Mod180 | app.py:25 | Python's `% 180` on a float lands in [0, 180) and differs from its argument by whole multiples of 180 |
| Geometry.Mod180Unique | app.py:25 | the remainder is the only value in [0, 180) that differs from the argument by whole multiples of 180 |
| Geometry.Mod180Shift | app.py:25 | adding or subtracting 180 degrees leaves the remainder unchanged |
| Geometry.Angle | app.py:20-26 | the folded bearing of a node pair lies in [0, 180) and differs from `degrees(atan2(dy, dx))` by whole multiples of 180 |
| Geometry.AngleSymmetric | app.py:20-26 | reversing the pair leaves the folded bearing unchanged, because the raw bearing turns by 180 |
| Geometry.EsRecta | app.py:29-42 | an accepted edge lies within the angle tolerance of 0, 90 or 180 degrees, and one of its coordinate spreads is within the distance tolerance |
| Geometry.EsRectaSymmetric | app.py:29-42 | `es_recta(u, v) == es_recta(v, u)` for all tolerances |
| Geometry.EsRectaMonotone | app.py:29-42 | loosening either tolerance never rejects an edge that was accepted |
| Geometry.EastWestStreetAccepted | app.py:32-35 | an edge with equal latitudes (including a zero-length edge) is always accepted, for any non-negative tolerances |
| Geometry.NorthSouthStreetAccepted | app.py:37-40 | an edge with equal longitudes and distinct latitudes is always accepted, for any non-negative tolerances |
| Geometry.EastWestBand | app.py:32-35 | in the 0/180 band, away from 90, the edge is kept exactly when its latitude spread is within the distance tolerance |
| Geometry.NorthSouthBand | app.py:37-40 | in the 90 band, away from 0 and 180, the edge is kept exactly when its longitude spread is within the distance tolerance |
| Geometry.ShortStreetsAngleOnly | app.py:29-42 | when both spreads are within the distance tolerance, the edge is kept exactly when its bearing is within the angle tolerance of an axis |
| Geometry.DiagonalRejected | app.py:29-42 | with the default tolerances, a 45-degree edge is rejected |
| Geometry.DiagonalBearingRejected | app.py:20-42 | with the default tolerances, an edge whose raw bearing is 45 or -135 degrees is rejected |
| Geometry.CoarseIsAtan2Degrees | app.py:25 | some function satisfies every assumption made about `atan2` in degrees |
| RoadGraph.EdgeLength | app.py:67 | `G[u][v][0]['length']`: the non-negative length stored for the edge, whichever orientation the graph lists it in |
| RoadGraph.EdgeLengthSymmetric | app.py:67 | `G[u][v]` and `G[v][u]` give the same length |
| RoadGraph.PathLength | app.py:67 | the length of a path is non-negative and zero for a one-node path |
| RoadGraph.PathLengthSnoc | app.py:67 | extending a path by one node adds exactly that edge's length |
| RoadGraph.SumLengths | app.py:67 | the front-to-back sum over consecutive node pairs equals the path length |
| StreetFilter.StreetTestSymmetric | app.py:29-42 | `es_recta` with its default tolerances is a symmetric test on the two end positions |
| StreetFilter.KeptEdges | app.py:47-48 | the kept edges are exactly the edges of G that pass the test |
| StreetFilter.Ends | app.py:49 | adding an edge adds both of its ends as nodes |
| StreetFilter.EndsAreEndpoints | app.py:49 | every node created this way is an end of some added edge |
| StreetFilter.Filter | app.py:45-50 | the filtered graph is well formed, and its edges and nodes are subsets of G's; an edge of G is in it exactly when it passes; it uses G's positions and lengths |
| StreetFilter.FilterNodesAreEndpoints | app.py:45-50 | a node is in H exactly when it is an end of a kept edge |
| StreetFilter.ManhattanGraph | app.py:45-50 | H is well formed, its edges and nodes are subsets of G's, an edge of G is in H exactly when `es_recta(u, v)` accepts it with tolerances 9 and 9, and H uses G's positions and lengths |
| StreetFilter.AdjacentInFilter | app.py:45-50 | two nodes are adjacent in H exactly when they are adjacent in G and the street between them passes, whichever orientation G lists |
| StreetFilter.EdgeLengthInFilter | app.py:49 | an edge of H has the same length in H as in G |
| StreetFilter.FilterPathIsRoadPath | app.py:72-75 | every path of H is a path of G along passing streets only, with the same total length |
| StreetFilter.PassingRoadPathInFilter | app.py:45-50 | a path of G with at least one edge, all of whose streets pass, is a path of H |
| Route.RouteCoords | app.py:66 | the coordinate list has one (latitude, longitude) entry per path node, in path order |
| Route.ManhattanAttempt | app.py:69-79 | the message is absent exactly when coordinates are produced, which happens exactly when both end nodes are in H and the shortest-path call on H returns a path; the message is one of the two fixed strings; the "not connected" message appears exactly when an end node is missing from H; the "no connection" message appears exactly when both are in H but the shortest-path call fails; produced coordinates belong to a straight-only path of G from s to t |
| Route.Ruta | app.py:57-86 | the handler fails exactly when the plain shortest path fails; otherwise `ruta` holds the path's coordinates from s to t, `distancia_metros` is its length, and the Manhattan fields are those of the `try` block |
| Route.MessageIffNoStraightPath | app.py:69-79 | for distinct end nodes and an oracle that finds existing paths, the message is set exactly when no straight-only path joins them |
| Route.SameNodeOffGrid | app.py:73-77 | when both end nodes are the same node and no straight street touches it, the "not connected" message appears although the one-node path is straight-only |
| Route.ManhattanNotShorter | app.py:65-75 | when the plain route is a shortest path from s to t, the Manhattan path is a path of G and is no shorter than it |
| Travel.SpeedFor | static/script.js:257 | the speed is positive and is one of 500, 250 or 67 m/min: 250 exactly for 'bici', 67 exactly for 'peaton', otherwise the car's 500 |
| Travel.KmPerHour | static/script.js:261 | km/h times 1000 equals m/min times 60 |
| Travel.MetresPerMinute | static/script.js:38-40 | converting km/h to m/min: m/min times 60 equals km/h times 1000 |
| Travel.CommentedSpeeds | static/script.js:38-40 | the km/h figures in the speed table's comments match its entries: 30 km/h is 500 m/min, 15 km/h is 250 m/min, and 4 km/h is within 1 m/min of 67 |
| Travel.SpeedConversionsInverse | static/script.js:38-40 | the two speed conversions undo each other |
| Travel.ShownSpeeds | static/script.js:257-261 | the km/h values before `toFixed(1)`: 30 for auto and when no mode is set, 15 for bici, and 4.02 for peaton, which rounds to the "4.0" shown |
| Travel.Minutes | static/script.js:258 | minutes times speed gives back the distance |
| Travel.MinutesMonotone | static/script.js:258 | a longer route never takes fewer minutes at the same speed |
| Travel.FuelLitres | static/script.js:265-266 | litres times 10000 gives back the distance in metres, i.e. 10 km per litre |
| ClientPage.SlotIndex | static/script.js:136 | the slot is 0 exactly for 'origen' and 1 otherwise |
| ClientPage.Initialize | static/script.js:54-62 | no mode, empty dropdown, both buttons disabled, the choose-a-mode prompt; nothing else changes |
| ClientPage.Reset | static/script.js:97-125 | both points, the mode and the selection are cleared; both buttons are disabled; no lines, search marker or summary remain; the dropdown is emptied and the choose-a-mode prompt is back |
| ClientPage.ResetRestoresLoaded | static/script.js:97-125 | after a reset the page equals the page as first loaded, whatever the HTML defaults were |
| ClientPage.ResetIdempotent | static/script.js:97-125 | resetting twice equals resetting once |
| ClientPage.OnModeChange | static/script.js:66-75 | both buttons become enabled exactly when the new mode is non-empty; the selection is cleared; the points, lines and summary are untouched |
| ClientPage.OnPick | static/script.js:78-94 | a disabled button changes nothing; an enabled one sets the selection, the prompt and removes the search marker, and changes nothing else |
| ClientPage.RouteRequest | static/script.js:201-218 | a request is sent exactly when both points and a mode are set; it carries slot 0 as origin and slot 1 as destination, and always `modo: 'manhattan'` |
| ClientPage.AddPoint | static/script.js:135-158 | the selected slot gets the point, the other slot is unchanged, nothing else changes, and the request is the one `calcularRuta` would send |
| ClientPage.OnMapClick | static/script.js:300-318 | with no mode or no selection nothing changes and nothing is sent; otherwise the selected slot is written, the other kept, the selection and search marker cleared, the prompt set and nothing else changed, and the request sent if both points are set |
| ClientPage.MakeSummary | static/script.js:257-277 | the distance in km, the minutes and the km/h agree with the mode's speed; fuel is shown exactly for 'auto', at 10 km per litre; the Manhattan note is shown exactly when the message is non-empty, and it is that message |
| ClientPage.OnReply | static/script.js:221-246 | an error reply clears both lines; a route reply draws the plain line and sets the summary computed from the current mode, the reply's distance and its message; the Manhattan line exists exactly when a route reply has a non-empty `ruta_manhattan`; nothing but the two lines and the summary changes |
| ClientPage.Step | static/script.js:66-374 | each event runs its own handler: the dropdown runs `OnModeChange`, the buttons run `OnPick`, a map click runs `OnMapClick` and a reply runs `OnReply`; a search result only places the search marker, and a popup close only removes it; the reset button lives in the summary box, so it resets the page when a summary is shown and does nothing otherwise; only a map click sends a request, and it is always for 'manhattan' |
| ClientPage.LoadedConsistent | static/script.js:54-62 | the freshly loaded page satisfies the page invariant |
| ClientPage.StepConsistent | static/script.js:66-374 | every event preserves the invariant: buttons are enabled iff a mode is set, a pending selection implies a mode, and a Manhattan line is non-empty and drawn only beside a plain line |
| ClientPage.RunConsistent | static/script.js:66-374 | every page reached by any sequence of events from a consistent page is consistent |
| ClientPage.SentAreManhattan | static/script.js:217 | every request sent over any sequence of events asks for 'manhattan' |
| ClientPage.ClickWithSelectionPlaces | static/script.js:300-316 | on a consistent page, a click with a pending selection always places the point |
| ClientPage.TypicalSession | static/script.js:135-158 | choosing 'auto', Origin, a click, Destination and a click sends exactly one request, from the first click to the second |

## Left out

- Graph download, `G.to_undirected()` and `descarga.py`: file and network I/O. The model starts from an already built road graph.
- Merging of parallel edges between the same two nodes (the multigraph's key `0`, and `H.add_edge` overwriting attributes): this is networkx behaviour that these files do not show. Each node pair has one edge here, stored in one orientation only.
- `ox.distance.nearest_nodes` and the search inside `nx.shortest_path`: library calls. They become parameters and an oracle.
- Python's `% 180` can return 180.0 through float rounding for tiny negative bearings, and `atan2` of signed zeros can give -180: floating-point detail. Reals are used throughout.
- `round(distancia, 2)`, `toFixed(1)` and `toFixed(2)`: display rounding.
- Flask routing, `request.json`, the HTTP 500 page for a missing field or an unhandled `NetworkXNoPath` (modelled only as `Err(NoPlainPath)`), `favicon` and `app.run`: HTTP plumbing.
- Leaflet tile layers, markers, `fitBounds`, `setView` and the GeoSearch control: UI. Only the search marker's position and the two route lines are kept. The markers of the two points always mirror the point slots, so they are not stored separately.
- The Nominatim reverse-geocoding `fetch` in `obtenerInfoLugar` and the HTML it builds: network I/O that changes no modelled state.
- The `alert(...)` and `console.warn`/`console.error` calls (static/script.js:203, 207, 223, 295, 302, 306): they only report to the user or the console and change no modelled state.
- The `fetch` failure branch (`.catch`): it shows an alert and changes no modelled state, so a lost reply is simply an event that never arrives.
- A reply whose `error` field is present but empty: it is falsy in JavaScript and would fall through to the route branch. Error replies are assumed to carry a message.
- Mode strings that name inherited JavaScript object properties (`constructor`, `__proto__`): the speed lookup would return a non-number. The dropdown never offers them.
- Geometry.EsRecta: its contract states only the necessary conditions for acceptance. When the angle tolerance is below 45 degrees, the bands are disjoint, and `EastWestBand`, `NorthSouthBand` and `ShortStreetsAngleOnly` decide every case. For a tolerance of 45 degrees or more the bands overlap, and no lemma decides the overlap.
- The L-shaped corner search and the external routing-provider client: these do not appear in this code, so there is nothing here to model.
