# infoEv — live position, nearby charging stations and the route between them

infoEv shows a driver's live position on a map, the charging stations near it
and a route to one of them. The browser page samples GPS fixes. It shows a
speed derived from consecutive fixes and moves the user's marker. It sends
every position to the server over a socket. The server asks a charging-point
directory for stations around that position. It filters and orders them and
pushes the nearest ten back as an `ev_stations` event. The page then replaces
its station markers and routes from the user to the first station. The user
can route to any station ("Route to here") or ask for a charging-time
prediction ("Smart Optimize").

This project models the two pieces of sequential logic under that plumbing:

- `values.dfy` — module `Values`: decoded JSON values, and Python's and
  JavaScript's truth tests, which the two halves use in their conditions.
- `station_feed.dfy` — module `StationFeed`: the server's `location_update`
  handler after the directory has answered. It covers the filtering loop, the
  default name and comment, the stable sort by distance, the ten-station cut
  and the empty fallback on any exception. `HandleLocation` runs the loop as
  the handler does and is proved equal to the specification `Payload`. The
  lemmas prove what the payload promises: it has at most ten stations, is
  sorted, keeps the nearest, keeps ties in directory order, builds every
  entry from a record, and is empty on error. `StableSortUnique` shows that
  any stable sort by distance gives the same list as `SortByDistance`, so the
  model agrees with Python's `sorted`.
- `map_client.dfy` — module `MapClient`: the page's session state as class
  `Client`. Its fields are the user marker, the station markers, the route
  control and the previous fix. The map is a set of layer handles. The socket
  and HTTP traffic are logs of what was sent. `Client.Valid()` says that the
  map shows exactly the user marker, the current station markers and at most
  one route control. So no earlier marker or route is ever left on the map,
  and the station markers match the last pushed list one for one. Each event
  handler keeps `Valid()`. Its `modifies` clause names the only fields it may
  change.

Opaque computations are passed in as functions: the geodesic distance on the
server, the map's metre distance and the haversine distance on the client.
The clock value `Date.now()` and the vehicle selector's value are parameters.
So is the directory's decoded answer. It is `None` when parsing the reported
position, the HTTP request or the JSON decoding raised. It is also `None` when
the body is not a JSON array. Iterating such a body raises in the loop,
except for an empty string or an empty object, which iterate nothing; both
paths emit an empty list.

In these details the model follows the code:
- A fix whose previous fix is less than 1 ms old is not treated as a no-op.
  The code divides by the elapsed time without a guard, so the model records
  the reading whatever the elapsed time.
- `updateMap` recentres the view (zoom 14) on every fix, not only when it
  creates the marker.
- The prediction request goes to `/predict_time`. A falsy
  `predicted_time_min`, 0 included, shows the failure text. A `null` body
  shows the server-error text, because reading a property of `null` throws
  into the `catch`.
- A previous timestamp of 0 is falsy in JavaScript, so a fix after one taken
  at time 0 shows no speed.
- The server sorts the list it sends. The client does not check the order and
  routes to index 0.

## Model

| member | source | states |
|---|---|---|
| `StationFeed.Visit` | backend/app.py:40-52 | a kept station has truthy latitude and longitude and carries the geodesic distance to them; a record is skipped exactly when it is well formed (an object whose `AddressInfo` is an object) and its latitude or longitude is falsy or missing; it raises exactly when it is not well formed, or both coordinates are truthy and the distance cannot be computed; so it is kept exactly when it is well formed, both coordinates are truthy and the distance is computable |
| `StationFeed.Collect` | backend/app.py:38-52 | when the loop completes, it has kept at most one station per record, each with truthy coordinates |
| `StationFeed.KeptStationFields` | backend/app.py:40-52 | a kept station carries its record's own latitude and longitude, both truthy, and the geodesic distance to them; `name` is `Title` if that key exists, else "Unknown Station"; `comment` is `AccessComments` if that key exists, else "No comment available" |
| `StationFeed.FalsyCoordinateSkipped` | backend/app.py:41-44 | a well-formed record whose latitude or longitude is missing, null or zero is skipped, neither kept nor an error |
| `StationFeed.RaisesSnoc` | backend/app.py:39-52 | the loop over a list raises exactly when it raises on the front part or on the last record |
| `StationFeed.CollectIsKept` | backend/app.py:38-52 | the appending loop fails exactly when some record raises; otherwise it yields the kept stations in record order (front-to-back reference definition) |
| `StationFeed.KeptMembers` | backend/app.py:39-52 | a station is among the kept ones exactly when some record yields it |
| `StationFeed.Insert` | backend/app.py:55 | inserting into a distance-sorted list keeps it sorted and adds exactly that station (multiset) |
| `StationFeed.InsertAtDistance` | backend/app.py:55 | the inserted station comes before every station already there at the same distance |
| `StationFeed.SortByDistance` | backend/app.py:55 | the result is sorted by ascending distance and is a permutation of the input |
| `StationFeed.SortStable` | backend/app.py:55 | the sort is stable: at every distance, the stations keep their input order |
| `StationFeed.StableSortUnique` | backend/app.py:55 | two lists that are both sorted and keep every equal-distance group in the same order are equal, so any stable sort (Python's `sorted` included) gives `SortByDistance`'s result |
| `StationFeed.Nearest` | backend/app.py:55 | `sorted(...)[:10]` sends at most ten stations, sorted by ascending distance, each one of the candidates |
| `StationFeed.NearestLength` | backend/app.py:55 | `[:10]` keeps all stations when there are at most ten, and exactly ten otherwise |
| `StationFeed.NearestKeepsNearest` | backend/app.py:55 | the stations sent are a sub-multiset of the candidates, and no candidate left out is nearer than any station sent |
| `StationFeed.NearestStable` | backend/app.py:55 | at every distance, the stations sent are a prefix of the candidates at that distance, in candidate order |
| `StationFeed.HandleLocation` | backend/app.py:14-61 | the handler emits exactly one `ev_stations` event, and its list is the specified payload on the normal path and on every exception path |
| `StationFeed.PayloadIsNearestKept` | backend/app.py:38-56 | when no record raises, the payload is the ten nearest of the kept stations |
| `StationFeed.Payload` | backend/app.py:55-61 | the event's list never has more than ten stations, is sorted by ascending distance, and every station in it has truthy coordinates, on every path |
| `StationFeed.PayloadOnError` | backend/app.py:59-61 | an exception before the loop or in any record gives an empty payload |
| `StationFeed.PayloadFromRecords` | backend/app.py:39-56 | every station sent is built from one of the records and has truthy coordinates |
| `MapClient.VehicleType` | backend/static/script.js:115-119 | the vehicle type is never empty; it is the selector's value whenever the selector exists with a non-empty value, and "Car" otherwise |
| `MapClient.PredictionText` | backend/static/script.js:143-158 | the result is never the loading text; it is the prediction (with the request's vehicle and distance) exactly when the body has a truthy `predicted_time_min`, 0 excluded; it is the server-error text exactly when the request was rejected or the body is `null` |
| `MapClient.Client.constructor` | backend/static/script.js:3-12 | the session starts valid, with no user marker, station markers, route or previous fix, an empty map viewing (0, 0) at zoom 15, and nothing sent |
| `MapClient.Client.DrawRouteToStation` | backend/static/script.js:15-34 | any previous route control leaves the map before a fresh one with waypoints `[from, to]` is added; afterwards exactly one route control is on the map, and nothing else changes |
| `MapClient.Client.UpdateMap` | backend/static/script.js:36-50 | the user marker is created only when none exists, otherwise the same marker is moved; the view is centred on the fix at zoom 14; exactly one `location_update` with the coordinates is sent |
| `MapClient.Client.OnEvStations` | backend/static/script.js:53-99 | no earlier station marker remains on the map; there is one fresh marker per pushed station, in list order, at its coordinates; one `/ai_insight` request per station carries the whole list; with a non-empty list and a user marker, one route goes from the user's position to station 0 as a fresh control (the handle after the new markers), otherwise the route is unchanged; every station panel starts empty for the new list |
| `MapClient.Client.ClearStationMarkers` | backend/static/script.js:54-55 | every station marker is removed from the map and the marker list is emptied |
| `MapClient.Client.AddStationMarkers` | backend/static/script.js:57-91 | markers are created in station order with fresh handles, and one `/ai_insight` request per station is appended |
| `MapClient.Client.PlaceStationMarker` | backend/static/script.js:58-73 | one fresh marker at the station's coordinates is appended to the list and put on the map |
| `MapClient.Client.SelectStation` | backend/static/script.js:102-107 | without a user marker nothing changes; with one, a single route goes from the user's position to the chosen coordinates |
| `MapClient.Client.OptimizeStation` | backend/static/script.js:110-141 | without a card for the index, looking up its panel throws and nothing changes; otherwise the station's panel shows the loading text first; with a user marker, exactly one `/predict_time` request is sent with the vehicle type and the haversine distance; without one, the handler throws after setting the loading text and sends nothing |
| `MapClient.Client.PredictionSettled` | backend/static/script.js:142-158 | a response writes only its own station's panel, with `PredictionText`, and only if no newer station list has been pushed since the click; a late response for an older list changes nothing |
| `MapClient.Client.OnPosition` | backend/static/script.js:165-181 | a speed reading is shown only when a previous fix with a truthy timestamp exists; on the first fix a fresh user marker is created and put on the map; the previous fix and timestamp are always replaced by this one; the map is updated once, so exactly one `location_update` is sent |

## Left out

- Leaflet rendering is left out: tiles, icons, popups and the HTML of each station card (script.js:3-6, 38-43, 60-71). The map is a set of handles, and the tile layer is not among them.
- Socket.IO and HTTP transport are left out. Emits and requests are appended to logs. The `/ai_insight` response and the insight panel it fills (script.js:79-89) are not modelled.
- PredictionSettled: closing and reopening a popup re-renders its card from the HTML string, which clears its panel; the model keeps a panel for as long as the station list it belongs to.
- Response ordering is left out. `PredictionSettled` can run at any time for any pending request, as a late response can.
- Routing-service errors only log to the console (script.js:31-33), so they are left out.
- Floating point is left out: the client's haversine (script.js:125-132), the map's metre distance (script.js:171), geopy's geodesic distance (app.py:45) and `toFixed`. They are function parameters, and coordinates are opaque reals.
- OnPosition: records the speed as its inputs (the metres and the elapsed milliseconds), not as the rounded km/h text the page shows, because that arithmetic is floating point.
- Geolocation permission and capability errors only raise an `alert` (script.js:182-187), so they are left out.
- The theme, navigation, vehicle-popup and fullscreen handlers (script.js:190-298) are page chrome with no session state, so they are left out.
- The server's position parsing, the directory query and its parameters, and the logging (app.py:16-36, 57, 60) are left out. Their outcome is the directory answer passed to `HandleLocation`.
- Flask routing and `render_template` (app.py:9-11) are left out.
- OptimizeStation: a card that exists is taken to have its panel on the page. On the page the panel exists only while the card's popup is open, which is also the only time its button can be clicked. The `name` argument is unused by the page and is omitted.
