/** The browser side of a session: the user's marker, the station markers,
    the one route drawn on the map and the previous GPS fix, held by one
    object and changed only by the page's event handlers. Drawing is reduced
    to a set of layer handles on the map; the socket and HTTP traffic to
    logs of what was sent. */
module MapClient {
  import opened Values

  /** A position as Leaflet holds it. Coordinates are opaque reals. */
  datatype LatLng = LatLng(lat: real, lng: real)

  /** An object drawn on the map: a marker or a routing control. Handles
      are never reused, so a new object's handle differs from every other. */
  type Handle = nat

  /** The routing control on the map and its two waypoints, in order. */
  datatype Route = Route(control: Handle, from: LatLng, to: LatLng)

  /** One station of an `ev_stations` push. */
  datatype StationMsg = StationMsg(name: string, lat: real, lon: real, distance: real, comment: string)

  /** What the page sends over the socket. */
  datatype Emit = LocationUpdate(lat: real, lon: real)

  /** What the page posts over HTTP. */
  datatype Request =
    | AiInsight(stations: seq<StationMsg>)
    | PredictTime(vehicleType: string, distanceKm: real)

  /** The speed shown for a fix: the metres between the previous and the
      current fix and the milliseconds between them; the page shows
      metres / (ms / 1000) * 3.6 km/h, to two decimals. */
  datatype SpeedReading = SpeedReading(metres: real, elapsedMs: int)

  /** The text in a station's optimisation panel. */
  datatype Panel =
    | Predicting
    | Prediction(vehicle: string, distanceKm: real)
    | PredictionFailed
    | ServerError

  /** How a `/predict_time` request ends: rejected (network failure or a
      body that is not JSON) or answered with a decoded body. */
  datatype PredictOutcome = Rejected | Answered(body: Value)

  /** What the response handler of one `/predict_time` request knows: the
      panel it writes to, the push whose station card holds that panel, and
      the values it shows. */
  datatype PendingPrediction = PendingPrediction(index: nat, push: nat, vehicleType: string, distanceKm: real)

  /** Vehicle type when the selector is missing or empty. */
  const DefaultVehicle := "Car"
  /** Zoom of the map before the first fix. */
  const StartZoom := 15
  /** Zoom the map is set to on every fix. */
  const FollowZoom := 14

  /** The vehicle type a prediction asks about: the selector's value when
      the selector exists and has a non-empty value, "Car" otherwise. */
  function VehicleType(selector: Option<string>): (v: string)
    ensures v != ""
    ensures v == DefaultVehicle || selector == Some(v)
    ensures selector.Some? && selector.value != "" ==> v == selector.value
  {
    if selector.Some? && selector.value != "" then selector.value else DefaultVehicle
  }

  /** JavaScript's `body.predicted_time_min` on a decoded body that is not
      null: None stands for `undefined`. */
  function PredictedTime(body: Value): Option<Value> {
    if body.Obj? && "predicted_time_min" in body.fields then Some(body.fields["predicted_time_min"]) else None
  }

  /** The panel text the response handler of a `/predict_time` request
      leaves. A null body makes the property read throw, which the `catch`
      turns into the server-error text; a falsy `predicted_time_min`,
      including 0, gives the failure text. */
  function PredictionText(p: PendingPrediction, outcome: PredictOutcome): (panel: Panel)
    ensures panel != Predicting
    ensures panel.Prediction? <==> outcome.Answered? && outcome.body.Obj?
                                   && "predicted_time_min" in outcome.body.fields
                                   && JsTruthy(Some(outcome.body.fields["predicted_time_min"]))
    ensures panel.Prediction? ==> panel == Prediction(p.vehicleType, p.distanceKm)
    ensures panel == ServerError <==> outcome == Rejected || outcome == Answered(Null)
  {
    match outcome
    case Rejected => ServerError
    case Answered(body) =>
      if body == Null then ServerError
      else if JsTruthy(PredictedTime(body)) then Prediction(p.vehicleType, p.distanceKm)
      else PredictionFailed
  }

  /** The handles a sequence holds. */
  function Elements(s: seq<Handle>): set<Handle> {
    set m | m in s
  }

  class Client {
    /** The user's marker, created on the first fix. */
    var userMarker: Option<Handle>
    /** One marker per station of the last push, in list order. */
    var evMarkers: seq<Handle>
    /** The routing control, once a route has been drawn. */
    var routeControl: Option<Route>
    /** The previous fix and its time in milliseconds. */
    var prevLatLng: Option<LatLng>
    var prevTimestamp: Option<int>

    /** Handles of the objects currently on the map. */
    var layers: set<Handle>
    /** Where each marker ever created stands. */
    var position: map<Handle, LatLng>
    /** The handle the next created object gets. */
    var nextHandle: nat
    /** Centre and zoom of the map view. */
    var view: LatLng
    var zoom: int
    /** What the speed display shows; None while it shows nothing. */
    var speedDisplay: Option<SpeedReading>
    /** The optimisation panel of each station card of the last push, by
        station index. */
    var panels: map<nat, Panel>
    /** How many `ev_stations` pushes have arrived; each one replaces every
        station card, panels included. */
    var pushes: nat
    /** Socket events sent, oldest first. */
    var emitted: seq<Emit>
    /** HTTP requests posted, oldest first. */
    var requests: seq<Request>
    /** The station list of the last push. */
    ghost var shown: seq<StationMsg>

    function RouteLayer(): set<Handle>
      reads this
    {
      if routeControl.Some? then {routeControl.value.control} else {}
    }

    function UserLayer(): set<Handle>
      reads this
    {
      if userMarker.Some? then {userMarker.value} else {}
    }

    /** The objects the session owns: the user marker, the station markers
        and the routing control. */
    function Owned(): set<Handle>
      reads this
    {
      UserLayer() + Elements(evMarkers) + RouteLayer()
    }

    /** Objects on the map that are not markers: routing controls. */
    function Overlays(): set<Handle>
      reads this
    {
      set h | h in layers && h !in position
    }

    /** The map shows exactly the objects the session owns, so no earlier
        marker or route is left behind; the station markers are distinct
        and stand at the coordinates of the last pushed list; no handle is
        at or beyond `nextHandle`. */
    ghost predicate Valid()
      reads this
    {
      && (forall h :: h in position ==> h < nextHandle)
      && (userMarker.Some? ==> userMarker.value in position && userMarker.value !in evMarkers)
      && |evMarkers| == |shown|
      && (forall i :: 0 <= i < |evMarkers| ==>
            evMarkers[i] in position && position[evMarkers[i]] == LatLng(shown[i].lat, shown[i].lon))
      && (forall i, j :: 0 <= i < j < |evMarkers| ==> evMarkers[i] != evMarkers[j])
      && (routeControl.Some? ==> routeControl.value.control < nextHandle && routeControl.value.control !in position)
      && layers == Owned()
    }

    /** The state the script sets up on load: an empty map viewing (0, 0). */
    constructor ()
      ensures Valid()
      ensures userMarker.None? && evMarkers == [] && routeControl.None?
      ensures prevLatLng.None? && prevTimestamp.None?
      ensures layers == {} && view == LatLng(0.0, 0.0) && zoom == StartZoom
      ensures speedDisplay.None? && panels == map[] && pushes == 0 && emitted == [] && requests == []
    {
      userMarker, evMarkers, routeControl := None, [], None;
      prevLatLng, prevTimestamp := None, None;
      layers, position, nextHandle := {}, map[], 0;
      view, zoom := LatLng(0.0, 0.0), StartZoom;
      speedDisplay, panels, pushes := None, map[], 0;
      emitted, requests := [], [];
      shown := [];
    }

    /** A previous fix exists and its timestamp is truthy (not 0). */
    predicate HasPreviousFix()
      reads this
    {
      prevLatLng.Some? && prevTimestamp.Some? && prevTimestamp.value != 0
    }

    /** Replace the route: the previous routing control, if any, comes off
        the map before a new one from `from` to `to` goes on, so exactly one
        routing control is on the map afterwards. */
    method DrawRouteToStation(from: LatLng, to: LatLng)
      requires Valid()
      modifies this`routeControl, this`layers, this`nextHandle
      ensures Valid()
      ensures routeControl == Some(Route(old(nextHandle), from, to))
      ensures Overlays() == {old(nextHandle)}
      ensures old(routeControl).Some? ==> old(routeControl).value.control !in layers
      ensures layers == old(layers) - old(RouteLayer()) + {old(nextHandle)}
      ensures nextHandle == old(nextHandle) + 1
    {
      if routeControl.Some? {
        layers := layers - {routeControl.value.control};
      }
      var control := nextHandle;
      nextHandle := nextHandle + 1;
      routeControl := Some(Route(control, from, to));
      layers := layers + {control};
      assert control !in position;
      assert Overlays() == {control};
    }

    /** Show the user at (lat, lon): create the marker on the first call,
        move the same marker afterwards; centre the view there and send one
        `location_update` with the coordinates. */
    method UpdateMap(lat: real, lon: real)
      requires Valid()
      modifies this`userMarker, this`position, this`layers, this`nextHandle, this`view, this`zoom, this`emitted
      ensures Valid()
      ensures old(userMarker).None? ==>
        && userMarker == Some(old(nextHandle))
        && layers == old(layers) + {old(nextHandle)}
        && nextHandle == old(nextHandle) + 1
      ensures old(userMarker).Some? ==>
        && userMarker == old(userMarker)
        && layers == old(layers)
        && nextHandle == old(nextHandle)
      ensures userMarker.Some? && position == old(position)[userMarker.value := LatLng(lat, lon)]
      ensures view == LatLng(lat, lon) && zoom == FollowZoom
      ensures emitted == old(emitted) + [LocationUpdate(lat, lon)]
    {
      if userMarker.None? {
        var marker := nextHandle;
        nextHandle := nextHandle + 1;
        position := position[marker := LatLng(lat, lon)];
        userMarker := Some(marker);
        layers := layers + {marker};
      } else {
        position := position[userMarker.value := LatLng(lat, lon)];
      }
      view, zoom := LatLng(lat, lon), FollowZoom;
      emitted := emitted + [LocationUpdate(lat, lon)];
    }

    /** An `ev_stations` push: take every station marker off the map, put
        one new marker per pushed station on it in list order, post one
        `/ai_insight` request per station (each carrying the whole list),
        and route from the user to the first station when both exist. The
        old station cards go with their markers, so every optimisation
        panel starts empty again. */
    method OnEvStations(stations: seq<StationMsg>)
      requires Valid()
      modifies this`evMarkers, this`position, this`layers, this`nextHandle, this`requests, this`routeControl,
               this`shown, this`panels, this`pushes
      ensures Valid()
      ensures panels == map[] && pushes == old(pushes) + 1
      ensures shown == stations && |evMarkers| == |stations|
      ensures forall i :: 0 <= i < |stations| ==>
        position[evMarkers[i]] == LatLng(stations[i].lat, stations[i].lon) && old(nextHandle) <= evMarkers[i]
      ensures forall m :: m in old(evMarkers) ==> m !in layers
      ensures forall h :: h in old(position) ==> h in position && position[h] == old(position)[h]
      ensures requests == old(requests) + seq(|stations|, _ => AiInsight(stations))
      ensures if |stations| > 0 && userMarker.Some?
              then routeControl.Some? && routeControl.value.control == old(nextHandle) + |stations|
                   && Overlays() == {routeControl.value.control}
                   && routeControl.value.from == position[userMarker.value]
                   && routeControl.value.to == LatLng(stations[0].lat, stations[0].lon)
              else routeControl == old(routeControl)
    {
      ghost var oldMarkers := evMarkers;
      ClearStationMarkers();
      panels, pushes := map[], pushes + 1;
      AddStationMarkers(stations);
      if |stations| > 0 && userMarker.Some? {
        var userLatLng := position[userMarker.value];
        DrawRouteToStation(userLatLng, LatLng(stations[0].lat, stations[0].lon));
      }
      forall m | m in oldMarkers ensures m !in layers {
        assert m in old(position);
      }
    }

    /** The first half of a push: every station marker comes off the map
        and the list of them is emptied. */
    method ClearStationMarkers()
      requires Valid()
      modifies this`layers, this`evMarkers, this`shown
      ensures Valid()
      ensures evMarkers == [] && shown == []
      ensures layers == old(layers) - Elements(old(evMarkers))
    {
      var k := 0;
      while k < |evMarkers|
        invariant 0 <= k <= |evMarkers|
        invariant layers == old(layers) - Elements(evMarkers[..k])
        modifies this`layers
      {
        assert evMarkers[..k + 1] == evMarkers[..k] + [evMarkers[k]];
        layers := layers - {evMarkers[k]};
        k := k + 1;
      }
      assert evMarkers[..k] == evMarkers;
      evMarkers := [];
      shown := [];
    }

    /** The second half of a push: for each station in order, a new marker
        at its coordinates goes on the map and into the list, and one
        `/ai_insight` request carrying the whole list goes out. */
    method AddStationMarkers(stations: seq<StationMsg>)
      requires Valid() && evMarkers == []
      modifies this`evMarkers, this`position, this`layers, this`nextHandle, this`requests, this`shown
      ensures Valid()
      ensures shown == stations && |evMarkers| == |stations|
      ensures nextHandle == old(nextHandle) + |stations|
      ensures forall j :: 0 <= j < |stations| ==> evMarkers[j] == old(nextHandle) + j
      ensures forall h :: h in old(position) ==> h in position && position[h] == old(position)[h]
      ensures requests == old(requests) + seq(|stations|, _ => AiInsight(stations))
    {
      var i := 0;
      while i < |stations|
        invariant 0 <= i <= |stations|
        invariant Valid()
        invariant shown == stations[..i]
        invariant nextHandle == old(nextHandle) + i
        invariant forall j :: 0 <= j < i ==> evMarkers[j] == old(nextHandle) + j
        invariant forall h :: h in old(position) ==> h in position && position[h] == old(position)[h]
        invariant requests == old(requests) + seq(i, _ => AiInsight(stations))
      {
        PlaceStationMarker(stations[i]);
        requests := requests + [AiInsight(stations)];
        i := i + 1;
        assert shown == stations[..i];
      }
      assert stations[..i] == stations;
    }

    /** One station's marker: created at the station's coordinates, added
        to the list and put on the map. */
    method PlaceStationMarker(station: StationMsg)
      requires Valid()
      modifies this`evMarkers, this`position, this`layers, this`nextHandle, this`shown
      ensures Valid()
      ensures nextHandle == old(nextHandle) + 1
      ensures evMarkers == old(evMarkers) + [old(nextHandle)] && shown == old(shown) + [station]
      ensures position == old(position)[old(nextHandle) := LatLng(station.lat, station.lon)]
      ensures layers == old(layers) + {old(nextHandle)}
    {
      var marker := nextHandle;
      nextHandle := nextHandle + 1;
      position := position[marker := LatLng(station.lat, station.lon)];
      evMarkers := evMarkers + [marker];
      shown := shown + [station];
      layers := layers + {marker};
      assert Elements(evMarkers) == Elements(old(evMarkers)) + {marker};
    }

    /** "Route to here": route from the user to (lat, lon); nothing at all
        happens while the user has no marker. */
    method SelectStation(lat: real, lon: real)
      requires Valid()
      modifies this`routeControl, this`layers, this`nextHandle
      ensures Valid()
      ensures userMarker.None? ==>
        routeControl == old(routeControl) && layers == old(layers) && nextHandle == old(nextHandle)
      ensures userMarker.Some? ==>
        && routeControl == Some(Route(old(nextHandle), position[userMarker.value], LatLng(lat, lon)))
        && Overlays() == {old(nextHandle)}
    {
      if userMarker.Some? {
        var userLatLng := position[userMarker.value];
        DrawRouteToStation(userLatLng, LatLng(lat, lon));
      }
    }

    /** "Smart Optimize" on station `index`: the panel shows the loading
        text first; then, with a user marker, one `/predict_time` request
        goes out with the vehicle type and the client-side distance, and
        the returned context is what its response handler uses. Without a
        card for `index`, looking up its panel throws before anything is
        written. Without a user marker, reading its position throws: the
        panel keeps the loading text and nothing is sent. */
    method OptimizeStation(lat: real, lon: real, index: nat, selector: Option<string>,
                           haversineKm: (LatLng, LatLng) -> real)
      returns (pending: Option<PendingPrediction>)
      requires Valid()
      modifies this`panels, this`requests
      ensures Valid()
      ensures index >= |shown| ==> pending.None? && panels == old(panels) && requests == old(requests)
      ensures index < |shown| ==> panels == old(panels)[index := Predicting]
      ensures index < |shown| && userMarker.None? ==> pending.None? && requests == old(requests)
      ensures index < |shown| && userMarker.Some? ==>
        var distanceKm := haversineKm(position[userMarker.value], LatLng(lat, lon));
        && pending == Some(PendingPrediction(index, pushes, VehicleType(selector), distanceKm))
        && requests == old(requests) + [PredictTime(VehicleType(selector), distanceKm)]
    {
      if index >= |evMarkers| {
        return None;
      }
      panels := panels[index := Predicting];
      var vehicleType := VehicleType(selector);
      if userMarker.None? {
        return None;
      }
      var user := position[userMarker.value];
      var distanceKm := haversineKm(user, LatLng(lat, lon));
      requests := requests + [PredictTime(vehicleType, distanceKm)];
      pending := Some(PendingPrediction(index, pushes, vehicleType, distanceKm));
    }

    /** The response handler of a `/predict_time` request: it writes the
        panel it captured at the click, and no other. Once a later push has
        replaced the station cards, that panel is off the page and the
        write shows nowhere. */
    method PredictionSettled(p: PendingPrediction, outcome: PredictOutcome)
      requires Valid()
      modifies this`panels
      ensures Valid()
      ensures panels == if p.push == pushes then old(panels)[p.index := PredictionText(p, outcome)]
                        else old(panels)
    {
      if p.push == pushes {
        panels := panels[p.index := PredictionText(p, outcome)];
      }
    }

    /** A GPS fix at (lat, lon) taken at `now` ms: show a speed only when a
        previous fix exists, always make this fix the previous one, then
        update the map once. `metres` is the map's distance between two
        positions. */
    method OnPosition(lat: real, lon: real, now: int, metres: (LatLng, LatLng) -> real)
      requires Valid()
      modifies this`speedDisplay, this`prevLatLng, this`prevTimestamp, this`userMarker, this`position,
               this`layers, this`nextHandle, this`view, this`zoom, this`emitted
      ensures Valid()
      ensures speedDisplay ==
        if old(HasPreviousFix())
        then Some(SpeedReading(metres(old(prevLatLng).value, LatLng(lat, lon)), now - old(prevTimestamp).value))
        else old(speedDisplay)
      ensures prevLatLng == Some(LatLng(lat, lon)) && prevTimestamp == Some(now)
      ensures old(userMarker).None? ==>
        userMarker == Some(old(nextHandle)) && layers == old(layers) + {old(nextHandle)}
      ensures old(userMarker).Some? ==> userMarker == old(userMarker) && layers == old(layers)
      ensures userMarker.Some? && position == old(position)[userMarker.value := LatLng(lat, lon)]
      ensures view == LatLng(lat, lon) && zoom == FollowZoom
      ensures emitted == old(emitted) + [LocationUpdate(lat, lon)]
    {
      if HasPreviousFix() {
        var distance := metres(prevLatLng.value, LatLng(lat, lon));
        var elapsedMs := now - prevTimestamp.value;
        speedDisplay := Some(SpeedReading(distance, elapsedMs));
      }
      prevLatLng := Some(LatLng(lat, lon));
      prevTimestamp := Some(now);
      UpdateMap(lat, lon);
    }
  }

  /** A session as the page runs it: two fixes ten seconds apart, then a
      push of one station. The first fix shows no speed, the second does;
      the push leaves one station marker and routes to that station. */
  method ExampleSession(metres: (LatLng, LatLng) -> real)
  {
    var c := new Client();
    c.OnPosition(0.0, 0.0, 1000, metres);
    assert c.speedDisplay.None?;
    c.OnPosition(0.001, 0.0, 11000, metres);
    assert c.speedDisplay == Some(SpeedReading(metres(LatLng(0.0, 0.0), LatLng(0.001, 0.0)), 10000));
    assert |c.emitted| == 2;
    var a := StationMsg("A", 1.0, 1.0, 0.5, "ok");
    c.OnEvStations([a]);
    assert |c.evMarkers| == 1;
    assert c.routeControl.Some? && c.routeControl.value.to == LatLng(1.0, 1.0);
    assert c.routeControl.value.from == LatLng(0.001, 0.0);
    c.SelectStation(2.0, 2.0);
    assert c.Overlays() == {c.routeControl.value.control};
  }

  /** A prediction whose response arrives after the next push shows
      nowhere: the push has replaced the card that held its panel. */
  method ExampleStalePrediction(metres: (LatLng, LatLng) -> real, haversineKm: (LatLng, LatLng) -> real)
  {
    var c := new Client();
    c.OnPosition(0.0, 0.0, 1000, metres);
    c.OnEvStations([StationMsg("A", 1.0, 1.0, 0.5, "ok")]);
    var pending := c.OptimizeStation(1.0, 1.0, 0, Some("Bike"), haversineKm);
    assert pending.Some? && c.panels[0] == Predicting;
    c.OnEvStations([StationMsg("B", 2.0, 2.0, 0.7, "ok")]);
    c.PredictionSettled(pending.value, Answered(Obj(map["predicted_time_min" := Num(30.0)])));
    assert c.panels == map[];
  }
}
