/**
 The page logic of static/script.js as a state machine. The page state is
 the script's variables plus the few DOM properties its handlers set (the
 dropdown's value, the two buttons' `disabled` flags, the prompt line and
 the route summary box). Each event handler is a function from the state
 before to the state after, together with the route request it sends, if
 any. Leaflet layers, markers and the map view are reduced to what they
 show: the search marker's position and the two route lines.
 */
module ClientPage {
  import opened Wrappers
  import opened Travel

  /** A Leaflet `latlng`. */
  datatype LatLng = LatLng(lat: real, lng: real)

  /** The non-null values of `modoSeleccion`: `'origen'` and `'destino'`. */
  datatype Selection = PickOrigin | PickDestination

  /** The text of the info paragraph. */
  datatype Prompt =
    | ChooseMode          // "Selecciona un modo de transporte antes de elegir puntos."
    | ChoosePoint         // "Ahora puedes seleccionar origen o destino. ..."
    | ClickForOrigin      // "Haz clic en el mapa para seleccionar el origen."
    | ClickForDestination // "Haz clic en el mapa para seleccionar el destino."
    | PointsChosen        // "Puntos seleccionados. ..."

  /** `puntos`: slot 0 is the origin, slot 1 the destination. */
  type Slots = s: seq<Option<LatLng>> | |s| == 2 witness [None, None]

  /** The figures of the `info-tiempo` box. */
  datatype Summary = Summary(
    distanceKm: real,
    minutes: real,
    speedKmh: real,
    fuelLitres: Option<real>,
    manhattanNote: Option<string>)

  datatype Page = Page(
    selectValue: string,            // selectTransporte.value
    mode: Option<string>,           // modoTransporte (None is null)
    selection: Option<Selection>,   // modoSeleccion (None is null)
    points: Slots,                  // puntos
    originDisabled: bool,           // btnOrigen.disabled
    destinationDisabled: bool,      // btnDestino.disabled
    searchMarker: Option<LatLng>,   // marcadorBusqueda
    plainLine: Option<seq<LatLng>>, // rutaLine
    manhattanLine: Option<seq<LatLng>>, // rutaManhattanLine
    summary: Option<Summary>,       // the info-tiempo box, which holds the reset button
    prompt: Prompt)

  /** The JSON body of the `POST /ruta` request. */
  datatype Request = Request(origen: LatLng, destino: LatLng, modo: string)

  /** A reply of `/ruta`: one with an `error` field, or the route fields. */
  datatype Reply =
    | ErrorReply(error: string)
    | RouteReply(ruta: seq<LatLng>, distanciaMetros: real, rutaManhattan: seq<LatLng>, mensajeManhattan: Option<string>)

  /** What the user (or the network) can do to the page. */
  datatype Event =
    | ChangeMode(value: string)   // the transport dropdown fires `change`
    | PressOrigin                 // click on btnOrigen
    | PressDestination            // click on btnDestino
    | ClickMap(at: LatLng)        // click on the map
    | SearchFound(at: LatLng)     // GeoSearch reports a location
    | ClosePopup                  // the search marker's popup is closed
    | Receive(reply: Reply)       // the `/ruta` reply arrives
    | PressReset                  // click on "Nueva búsqueda"

  /** JavaScript truthiness of `modoTransporte`: neither null nor the empty string. */
  predicate HasMode(mode: Option<string>) {
    mode.Some? && mode.value != ""
  }

  /** `(tipo === 'origen') ? 0 : 1`. */
  function SlotIndex(sel: Selection): (i: nat)
    ensures i < 2
    ensures i == 0 <==> sel == PickOrigin
  {
    if sel == PickOrigin then 0 else 1
  }

  /** The variables as declared, before `initializeApp` runs; the dropdown and buttons are as the HTML left them. */
  function Declared(htmlSelect: string, htmlDisabled: bool): Page {
    Page(htmlSelect, None, None, [None, None], htmlDisabled, htmlDisabled, None, None, None, None, ChooseMode)
  }

  /** `initializeApp()`: no mode, both buttons disabled, the "choose a mode" prompt. */
  function Initialize(p: Page): (q: Page)
    ensures q.mode.None? && q.selectValue == "" && q.originDisabled && q.destinationDisabled
    ensures q.prompt == ChooseMode
    ensures q.points == p.points && q.selection == p.selection && q.summary == p.summary
    ensures q.plainLine == p.plainLine && q.manhattanLine == p.manhattanLine && q.searchMarker == p.searchMarker
  {
    p.(selectValue := "", mode := None, originDisabled := true, destinationDisabled := true, prompt := ChooseMode)
  }

  /** The page once the DOM is loaded. */
  function Loaded(htmlSelect: string, htmlDisabled: bool): Page {
    Initialize(Declared(htmlSelect, htmlDisabled))
  }

  /** `limpiarTodo()`: drop points, lines, markers and the summary, and go back to "choose a mode". */
  function Reset(p: Page): (q: Page)
    ensures q.points == [None, None] && q.mode.None? && q.selection.None?
    ensures q.selectValue == "" && q.prompt == ChooseMode
    ensures q.originDisabled && q.destinationDisabled
    ensures q.plainLine.None? && q.manhattanLine.None? && q.searchMarker.None? && q.summary.None?
  {
    Page("", None, None, [None, None], true, true, None, None, None, None, ChooseMode)
  }

  /** Reset brings back exactly the page as first loaded, whatever the HTML defaults were. */
  lemma ResetRestoresLoaded(p: Page, htmlSelect: string, htmlDisabled: bool)
    ensures Reset(p) == Loaded(htmlSelect, htmlDisabled)
  {
  }

  /** Resetting twice is resetting once. */
  lemma ResetIdempotent(p: Page)
    ensures Reset(Reset(p)) == Reset(p)
  {
  }

  /**
   The mode dropdown's `change` handler: store the new mode, enable both
   buttons exactly when it is non-empty, and forget any pending selection.
   */
  function OnModeChange(p: Page, value: string): (q: Page)
    ensures q.mode == Some(value) && q.selectValue == value
    ensures !q.originDisabled <==> value != ""
    ensures !q.destinationDisabled <==> value != ""
    ensures q.selection.None?
    ensures q.prompt == (if value != "" then ChoosePoint else ChooseMode)
    ensures q.points == p.points && q.plainLine == p.plainLine && q.manhattanLine == p.manhattanLine
    ensures q.searchMarker == p.searchMarker && q.summary == p.summary
  {
    p.(selectValue := value, mode := Some(value), originDisabled := value == "",
       destinationDisabled := value == "", prompt := if value != "" then ChoosePoint else ChooseMode,
       selection := None)
  }

  /**
   A click on the Origin or Destination button. A disabled button fires no
   click, so nothing changes; otherwise the selection is set and the search
   marker removed.
   */
  function OnPick(p: Page, sel: Selection): (q: Page)
    ensures (if sel == PickOrigin then p.originDisabled else p.destinationDisabled) ==> q == p
    ensures !(if sel == PickOrigin then p.originDisabled else p.destinationDisabled) ==>
      q.selection == Some(sel) && q.searchMarker.None?
      && q.prompt == (if sel == PickOrigin then ClickForOrigin else ClickForDestination)
      && q == p.(selection := q.selection, searchMarker := None, prompt := q.prompt)
    ensures q.points == p.points && q.mode == p.mode && q.plainLine == p.plainLine
    ensures q.manhattanLine == p.manhattanLine && q.summary == p.summary
  {
    var disabled := if sel == PickOrigin then p.originDisabled else p.destinationDisabled;
    if disabled then p
    else p.(selection := Some(sel), searchMarker := None,
            prompt := if sel == PickOrigin then ClickForOrigin else ClickForDestination)
  }

  /**
   `calcularRuta()`'s guards and request: nothing is sent unless both
   points and a mode are set, and the request always asks for the
   `'manhattan'` mode, whichever transport mode was chosen.
   */
  function RouteRequest(p: Page): (r: Option<Request>)
    ensures r.Some? <==> p.points[0].Some? && p.points[1].Some? && HasMode(p.mode)
    ensures r.Some? ==> r.value.modo == "manhattan"
    ensures r.Some? ==> Some(r.value.origen) == p.points[0] && Some(r.value.destino) == p.points[1]
  {
    if p.points[0].None? || p.points[1].None? then None
    else if !HasMode(p.mode) then None
    else Some(Request(p.points[0].value, p.points[1].value, "manhattan"))
  }

  /**
   `agregarPunto(latlng, tipo)`: write the slot the selection names, then
   ask for a route when both points and a mode are set.
   */
  function AddPoint(p: Page, at: LatLng, sel: Selection): (r: (Page, Option<Request>))
    ensures r.0.points[SlotIndex(sel)] == Some(at)
    ensures r.0.points[1 - SlotIndex(sel)] == p.points[1 - SlotIndex(sel)]
    ensures r.0 == p.(points := r.0.points)
    ensures r.1 == RouteRequest(r.0)
  {
    var q := p.(points := p.points[SlotIndex(sel) := Some(at)]);
    if q.points[0].Some? && q.points[1].Some? && HasMode(q.mode) then (q, RouteRequest(q)) else (q, None)
  }

  /**
   The map's `click` handler. Without a mode, or without a pending
   selection, only an alert is shown. Otherwise the search marker goes,
   the point is added (possibly sending a request) and the selection is
   cleared.
   */
  function OnMapClick(p: Page, at: LatLng): (r: (Page, Option<Request>))
    ensures !HasMode(p.mode) || p.selection.None? ==> r == (p, None)
    ensures HasMode(p.mode) && p.selection.Some? ==>
      var i := SlotIndex(p.selection.value);
      && r.0.points[i] == Some(at)
      && r.0.points[1 - i] == p.points[1 - i]
      && r.0.selection.None? && r.0.searchMarker.None? && r.0.prompt == PointsChosen
      && r.0 == p.(points := r.0.points, selection := None, searchMarker := None, prompt := PointsChosen)
      && r.1 == RouteRequest(r.0)
  {
    if !HasMode(p.mode) then (p, None)
    else if p.selection.None? then (p, None)
    else
      var (q, request) := AddPoint(p.(searchMarker := None), at, p.selection.value);
      (q.(selection := None, prompt := PointsChosen), request)
  }

  /** The `info-tiempo` figures for a route of `metres` in the current mode. */
  function MakeSummary(mode: Option<string>, metres: real, note: Option<string>): (s: Summary)
    ensures s.distanceKm * 1000.0 == metres
    ensures s.minutes * SpeedFor(mode) == metres
    ensures s.speedKmh * 1000.0 == SpeedFor(mode) * 60.0
    ensures s.fuelLitres.Some? <==> mode == Some("auto")
    ensures s.fuelLitres.Some? ==> s.fuelLitres.value * 10000.0 == metres
    ensures s.manhattanNote.Some? <==> note.Some? && note.value != ""
    ensures s.manhattanNote.Some? ==> s.manhattanNote == note
  {
    var speed := SpeedFor(mode);
    Summary(
      metres / 1000.0,
      Minutes(metres, speed),
      KmPerHour(speed),
      if mode == Some("auto") then Some(FuelLitres(metres)) else None,
      if note.Some? && note.value != "" then note else None)
  }

  /**
   The `.then` of the `/ruta` fetch. An error reply clears both lines; a
   route reply draws the plain line, draws the Manhattan line only when it
   has points, and fills the summary for the mode selected now.
   */
  function OnReply(p: Page, reply: Reply): (q: Page)
    ensures reply.ErrorReply? ==> q == p.(plainLine := None, manhattanLine := None)
    ensures reply.RouteReply? ==> q.plainLine == Some(reply.ruta)
    ensures reply.RouteReply? ==> q.summary == Some(MakeSummary(p.mode, reply.distanciaMetros, reply.mensajeManhattan))
    ensures q == p.(plainLine := q.plainLine, manhattanLine := q.manhattanLine, summary := q.summary)
    ensures q.manhattanLine.Some? <==> reply.RouteReply? && |reply.rutaManhattan| > 0
    ensures q.manhattanLine.Some? ==> q.manhattanLine.value == reply.rutaManhattan
    ensures q.points == p.points && q.mode == p.mode && q.selection == p.selection
  {
    match reply
    case ErrorReply(_) => p.(plainLine := None, manhattanLine := None)
    case RouteReply(ruta, metres, rutaManhattan, note) =>
      p.(plainLine := Some(ruta),
         manhattanLine := if |rutaManhattan| > 0 then Some(rutaManhattan) else None,
         summary := Some(MakeSummary(p.mode, metres, note)))
  }

  /** One event applied to the page, with the request it sends. */
  function Step(p: Page, e: Event): (r: (Page, Option<Request>))
    ensures r.1.Some? ==> e.ClickMap?
    ensures r.1.Some? ==> r.1.value.modo == "manhattan"
    ensures e.SearchFound? ==> r.0 == p.(searchMarker := Some(e.at))
    ensures e.ClosePopup? ==> r.0 == p.(searchMarker := None)
    ensures e.ChangeMode? ==> r == (OnModeChange(p, e.value), None)
    ensures e.PressOrigin? ==> r == (OnPick(p, PickOrigin), None)
    ensures e.PressDestination? ==> r == (OnPick(p, PickDestination), None)
    ensures e.ClickMap? ==> r == OnMapClick(p, e.at)
    ensures e.Receive? ==> r == (OnReply(p, e.reply), None)
    ensures e.PressReset? ==> r == (if p.summary.Some? then Reset(p) else p, None)
  {
    match e
    case ChangeMode(value) => (OnModeChange(p, value), None)
    case PressOrigin => (OnPick(p, PickOrigin), None)
    case PressDestination => (OnPick(p, PickDestination), None)
    case ClickMap(at) => OnMapClick(p, at)
    case SearchFound(at) => (p.(searchMarker := Some(at)), None)
    case ClosePopup => (p.(searchMarker := None), None)
    case Receive(reply) => (OnReply(p, reply), None)
    case PressReset => (if p.summary.Some? then Reset(p) else p, None)
  }

  /**
   What holds on every page the user can reach: both buttons are enabled
   exactly when a mode is set, a pending selection implies a mode, and a
   Manhattan line is only drawn, non-empty, beside a plain line.
   */
  predicate Consistent(p: Page) {
    && p.originDisabled == !HasMode(p.mode)
    && p.destinationDisabled == !HasMode(p.mode)
    && (p.selection.Some? ==> HasMode(p.mode))
    && (p.manhattanLine.Some? ==> p.plainLine.Some? && |p.manhattanLine.value| > 0)
  }

  lemma LoadedConsistent(htmlSelect: string, htmlDisabled: bool)
    ensures Consistent(Loaded(htmlSelect, htmlDisabled))
  {
  }

  /** Every event keeps the page consistent. */
  lemma StepConsistent(p: Page, e: Event)
    requires Consistent(p)
    ensures Consistent(Step(p, e).0)
  {
    match e
    case ClickMap(at) =>
      if HasMode(p.mode) && p.selection.Some? {
        var q := Step(p, e).0;
        assert q.mode == p.mode && q.selection.None?;
        assert q == p.(searchMarker := None, points := q.points, selection := None, prompt := PointsChosen);
      }
    case _ =>
  }

  /** The page after a sequence of events. */
  function Run(p: Page, events: seq<Event>): Page
    decreases |events|
  {
    if |events| == 0 then p else Run(Step(p, events[0]).0, events[1..])
  }

  /** The requests a sequence of events sends, in order. */
  function Sent(p: Page, events: seq<Event>): seq<Request>
    decreases |events|
  {
    if |events| == 0 then []
    else
      var (q, request) := Step(p, events[0]);
      (if request.Some? then [request.value] else []) + Sent(q, events[1..])
  }

  /** Any page reached from a consistent one is consistent. */
  lemma {:induction false} RunConsistent(p: Page, events: seq<Event>)
    requires Consistent(p)
    ensures Consistent(Run(p, events))
    decreases |events|
  {
    if |events| > 0 {
      StepConsistent(p, events[0]);
      RunConsistent(Step(p, events[0]).0, events[1..]);
    }
  }

  /** Every request the page ever sends asks for the `'manhattan'` mode. */
  lemma {:induction false} SentAreManhattan(p: Page, events: seq<Event>)
    ensures forall i | 0 <= i < |Sent(p, events)| :: Sent(p, events)[i].modo == "manhattan"
    decreases |events|
  {
    if |events| > 0 {
      SentAreManhattan(Step(p, events[0]).0, events[1..]);
    }
  }

  /**
   On a consistent page the mode check of the click handler is redundant:
   a click with a pending selection always places the point.
   */
  lemma ClickWithSelectionPlaces(p: Page, at: LatLng)
    requires Consistent(p) && p.selection.Some?
    ensures OnMapClick(p, at).0.points[SlotIndex(p.selection.value)] == Some(at)
  {
  }

  /**
   The usual session: choose "auto", pick the origin, click `a`, pick the
   destination, click `b`. The second click sends exactly one request, from
   `a` to `b` in the `'manhattan'` mode.
   */
  lemma TypicalSession(a: LatLng, b: LatLng)
    ensures var events := [ChangeMode("auto"), PressOrigin, ClickMap(a), PressDestination, ClickMap(b)];
      Sent(Loaded("", true), events) == [Request(a, b, "manhattan")]
  {
    var events := [ChangeMode("auto"), PressOrigin, ClickMap(a), PressDestination, ClickMap(b)];
    var p0 := Loaded("", true);
    var p1 := Step(p0, ChangeMode("auto")).0;
    var p2 := Step(p1, PressOrigin).0;
    var p3 := Step(p2, ClickMap(a)).0;
    var p4 := Step(p3, PressDestination).0;
    var p5 := Step(p4, ClickMap(b)).0;
    assert p3.points == [Some(a), None];
    assert Step(p4, ClickMap(b)).1 == Some(Request(a, b, "manhattan"));
    assert Sent(p5, []) == [];
    assert Sent(p4, [ClickMap(b)]) == [Request(a, b, "manhattan")] by {
      assert [ClickMap(b)][1..] == [];
    }
    assert Sent(p3, [PressDestination, ClickMap(b)]) == [Request(a, b, "manhattan")] by {
      assert [PressDestination, ClickMap(b)][1..] == [ClickMap(b)];
    }
    assert Sent(p2, [ClickMap(a), PressDestination, ClickMap(b)]) == [Request(a, b, "manhattan")] by {
      assert Step(p2, ClickMap(a)).1.None?;
      assert [ClickMap(a), PressDestination, ClickMap(b)][1..] == [PressDestination, ClickMap(b)];
    }
    assert Sent(p1, events[1..]) == [Request(a, b, "manhattan")] by {
      assert events[1..] == [PressOrigin, ClickMap(a), PressDestination, ClickMap(b)];
      assert events[1..][1..] == [ClickMap(a), PressDestination, ClickMap(b)];
    }
  }
}
