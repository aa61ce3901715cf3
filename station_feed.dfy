/** The server's answer to a `location_update`: from the charging-point
    records the station directory returned, keep those with usable
    coordinates, fill in a default name and comment, attach the distance from
    the reported position, order them by distance (ties in directory order)
    and send the ten nearest back as one `ev_stations` event; if anything
    raises, send an empty list instead. */
module StationFeed {
  import opened Values

  /** How many stations one `ev_stations` event carries at most. */
  const MaxStations: nat := 10
  /** `name` when a record has no `Title` key. */
  const UnknownName: Value := Str("Unknown Station")
  /** `comment` when a record has no `AccessComments` key. */
  const NoComment: Value := Str("No comment available")

  /** One entry of an `ev_stations` payload. `name`, `lat`, `lon` and
      `comment` are copied from the record as they are; `distance` is in
      kilometres. */
  datatype Station = Station(name: Value, lat: Value, lon: Value, comment: Value, distance: real)

  /** The geodesic distance in kilometres from the reported position to the
      given latitude and longitude, or None where the geodesic computation
      raises on those values. */
  type Geodesic = (Value, Value) -> Option<real>

  /** What one pass of the loop body does with one record. */
  datatype Step = Raise | Skip | Keep(station: Station)

  /** The event the handler emits. */
  datatype Emit = EvStations(stations: seq<Station>)

  /** One pass of the loop body. Indexing `AddressInfo` raises unless the
      record is an object that has that key; `.get` raises unless the
      address is an object; a record whose latitude or longitude is missing,
      null or zero is skipped. */
  function Visit(record: Value, geodesic: Geodesic): (step: Step)
    ensures step.Keep? ==>
      && PyTruthy(step.station.lat) && PyTruthy(step.station.lon)
      && geodesic(step.station.lat, step.station.lon) == Some(step.station.distance)
    ensures step.Skip? <==>
      && record.Obj? && "AddressInfo" in record.fields && record.fields["AddressInfo"].Obj?
      && var info := record.fields["AddressInfo"].fields;
         !(PyTruthy(PyGet(info, "Latitude", Null)) && PyTruthy(PyGet(info, "Longitude", Null)))
    ensures step.Raise? <==>
      || !(record.Obj? && "AddressInfo" in record.fields && record.fields["AddressInfo"].Obj?)
      || var info := record.fields["AddressInfo"].fields;
         var lat, lon := PyGet(info, "Latitude", Null), PyGet(info, "Longitude", Null);
         PyTruthy(lat) && PyTruthy(lon) && geodesic(lat, lon).None?
  {
    if !record.Obj? || "AddressInfo" !in record.fields then Raise
    else
      var info := record.fields["AddressInfo"];
      if !info.Obj? then Raise
      else
        var lat := PyGet(info.fields, "Latitude", Null);
        var lon := PyGet(info.fields, "Longitude", Null);
        if !(PyTruthy(lat) && PyTruthy(lon)) then Skip
        else
          match geodesic(lat, lon)
          case None => Raise
          case Some(d) =>
            Keep(Station(PyGet(info.fields, "Title", UnknownName), lat, lon,
                         PyGet(info.fields, "AccessComments", NoComment), d))
  }

  /** A kept station carries its record's own coordinates, both truthy, and
      takes the default name or comment exactly when the key is absent. */
  lemma KeptStationFields(record: Value, geodesic: Geodesic, st: Station)
    requires Visit(record, geodesic) == Keep(st)
    ensures record.Obj? && "AddressInfo" in record.fields && record.fields["AddressInfo"].Obj?
    ensures var info := record.fields["AddressInfo"].fields;
      && "Latitude" in info && st.lat == info["Latitude"] && PyTruthy(st.lat)
      && "Longitude" in info && st.lon == info["Longitude"] && PyTruthy(st.lon)
      && geodesic(st.lat, st.lon) == Some(st.distance)
      && st.name == (if "Title" in info then info["Title"] else UnknownName)
      && st.comment == (if "AccessComments" in info then info["AccessComments"] else NoComment)
  {
  }

  /** A record with usable structure whose latitude or longitude is zero,
      null or missing is skipped, never kept and never an error. */
  lemma FalsyCoordinateSkipped(record: Value, geodesic: Geodesic)
    requires record.Obj? && "AddressInfo" in record.fields && record.fields["AddressInfo"].Obj?
    requires var info := record.fields["AddressInfo"].fields;
      !PyTruthy(PyGet(info, "Latitude", Null)) || !PyTruthy(PyGet(info, "Longitude", Null))
    ensures Visit(record, geodesic) == Skip
  {
  }

  // ---------------------------------------------------------------------
  // The filtering loop

  /** What the loop has built after running over `records`: None once any
      record raised, otherwise the kept stations in record order. Defined
      from the last record, as the loop appends. */
  function Collect(records: seq<Value>, geodesic: Geodesic): (r: Option<seq<Station>>)
    ensures r.Some? ==> |r.value| <= |records|
    ensures r.Some? ==> forall k :: 0 <= k < |r.value| ==> PyTruthy(r.value[k].lat) && PyTruthy(r.value[k].lon)
  {
    if records == [] then Some([])
    else
      match Collect(records[..|records| - 1], geodesic)
      case None => None
      case Some(acc) =>
        match Visit(records[|records| - 1], geodesic)
        case Raise => None
        case Skip => Some(acc)
        case Keep(st) => Some(acc + [st])
  }

  /** Some record raises. */
  predicate Raises(records: seq<Value>, geodesic: Geodesic) {
    exists j :: 0 <= j < |records| && Visit(records[j], geodesic).Raise?
  }

  /** The kept stations of `records`, in order, ignoring errors. */
  function Kept(records: seq<Value>, geodesic: Geodesic): seq<Station> {
    if records == [] then []
    else
      (match Visit(records[0], geodesic)
       case Keep(st) => [st]
       case _ => [])
      + Kept(records[1..], geodesic)
  }

  lemma {:induction false} KeptAppend(records: seq<Value>, last: Value, geodesic: Geodesic)
    ensures Kept(records + [last], geodesic)
         == Kept(records, geodesic) + (match Visit(last, geodesic) case Keep(st) => [st] case _ => [])
  {
    if records != [] {
      assert (records + [last])[1..] == records[1..] + [last];
      KeptAppend(records[1..], last, geodesic);
    }
  }

  /** A list raises exactly when its front part or its last record does. */
  lemma RaisesSnoc(init: seq<Value>, last: Value, geodesic: Geodesic)
    ensures Raises(init + [last], geodesic) <==> Raises(init, geodesic) || Visit(last, geodesic).Raise?
  {
    var records := init + [last];
    if Raises(init, geodesic) {
      var j :| 0 <= j < |init| && Visit(init[j], geodesic).Raise?;
      assert records[j] == init[j];
    }
    if Visit(last, geodesic).Raise? {
      assert records[|init|] == last;
    }
    if Raises(records, geodesic) {
      var j :| 0 <= j < |records| && Visit(records[j], geodesic).Raise?;
      if j < |init| {
        assert records[j] == init[j];
      }
    }
  }

  /** The loop raises exactly when some record raises, and otherwise yields
      the kept stations in record order. */
  lemma {:induction false} CollectIsKept(records: seq<Value>, geodesic: Geodesic)
    ensures Collect(records, geodesic) == if Raises(records, geodesic) then None else Some(Kept(records, geodesic))
  {
    if records != [] {
      var n := |records| - 1;
      var init := records[..n];
      CollectIsKept(init, geodesic);
      KeptAppend(init, records[n], geodesic);
      assert init + [records[n]] == records;
      RaisesSnoc(init, records[n], geodesic);
      if !Raises(records, geodesic) {
        match Visit(records[n], geodesic) {
          case Skip =>
            assert Kept(init, geodesic) + [] == Kept(init, geodesic);
            assert Collect(records, geodesic) == Some(Kept(init, geodesic));
          case Keep(st) =>
            assert Collect(records, geodesic) == Some(Kept(init, geodesic) + [st]);
        }
      }
    }
  }

  /** A station is kept exactly when some record yields it. */
  lemma {:induction false} KeptMembers(records: seq<Value>, geodesic: Geodesic, st: Station)
    ensures st in Kept(records, geodesic) <==> exists j :: 0 <= j < |records| && Visit(records[j], geodesic) == Keep(st)
  {
    if records != [] {
      KeptMembers(records[1..], geodesic, st);
      if exists j :: 0 <= j < |records[1..]| && Visit(records[1..][j], geodesic) == Keep(st) {
        var j :| 0 <= j < |records[1..]| && Visit(records[1..][j], geodesic) == Keep(st);
        assert Visit(records[j + 1], geodesic) == Keep(st);
      }
      if exists j :: 0 <= j < |records| && Visit(records[j], geodesic) == Keep(st) {
        var j :| 0 <= j < |records| && Visit(records[j], geodesic) == Keep(st);
        if j > 0 { assert records[1..][j - 1] == records[j]; }
      }
    }
  }

  // ---------------------------------------------------------------------
  // Ordering by distance

  predicate SortedByDistance(s: seq<Station>) {
    forall i, j :: 0 <= i < j < |s| ==> s[i].distance <= s[j].distance
  }

  /** The stations of `s` at distance `d`, in their order in `s`. A sort is
      stable when it keeps every such subsequence as it was. */
  function AtDistance(s: seq<Station>, d: real): seq<Station> {
    if s == [] then []
    else (if s[0].distance == d then [s[0]] else []) + AtDistance(s[1..], d)
  }

  lemma {:induction false} AtDistanceAppend(a: seq<Station>, b: seq<Station>, d: real)
    ensures AtDistance(a + b, d) == AtDistance(a, d) + AtDistance(b, d)
  {
    if a == [] {
      assert a + b == b;
    } else {
      var head := if a[0].distance == d then [a[0]] else [];
      assert (a + b)[0] == a[0] && (a + b)[1..] == a[1..] + b;
      assert AtDistance(a + b, d) == head + AtDistance(a[1..] + b, d);
      AtDistanceAppend(a[1..], b, d);
      assert AtDistance(a, d) == head + AtDistance(a[1..], d);
      assert head + (AtDistance(a[1..], d) + AtDistance(b, d)) == (head + AtDistance(a[1..], d)) + AtDistance(b, d);
    }
  }

  lemma {:induction false} AtDistanceMembers(s: seq<Station>, d: real, x: Station)
    ensures x in AtDistance(s, d) <==> x in s && x.distance == d
  {
    if s != [] {
      AtDistanceMembers(s[1..], d, x);
      assert s == [s[0]] + s[1..];
    }
  }

  /** Insert `x` before the first station that is at least as far, so that
      `x` precedes every station of equal distance already in `t`. */
  function Insert(x: Station, t: seq<Station>): (r: seq<Station>)
    requires SortedByDistance(t)
    ensures SortedByDistance(r)
    ensures multiset(r) == multiset(t) + multiset{x}
    ensures r[0] == x || (t != [] && r[0] == t[0])
  {
    if t == [] then [x]
    else if x.distance <= t[0].distance then [x] + t
    else
      var rest := Insert(x, t[1..]);
      assert t == [t[0]] + t[1..];
      assert t[0].distance <= rest[0].distance;
      [t[0]] + rest
  }

  /** Among the stations at any one distance, the inserted one comes first. */
  lemma {:induction false} InsertAtDistance(x: Station, t: seq<Station>, d: real)
    requires SortedByDistance(t)
    ensures AtDistance(Insert(x, t), d) == (if x.distance == d then [x] else []) + AtDistance(t, d)
  {
    if t == [] {
      AtDistanceCons(x, [], d);
    } else if x.distance <= t[0].distance {
      AtDistanceCons(x, t, d);
    } else {
      var rest := Insert(x, t[1..]);
      assert Insert(x, t) == [t[0]] + rest;
      AtDistanceCons(t[0], rest, d);
      InsertAtDistance(x, t[1..], d);
      AtDistanceCons(t[0], t[1..], d);
      assert [t[0]] + t[1..] == t;
    }
  }

  lemma AtDistanceCons(y: Station, s: seq<Station>, d: real)
    ensures AtDistance([y] + s, d) == (if y.distance == d then [y] else []) + AtDistance(s, d)
  {
    assert ([y] + s)[0] == y && ([y] + s)[1..] == s;
  }

  /** A stable sort by distance, as Python's `sorted` with a key is. */
  function SortByDistance(s: seq<Station>): (r: seq<Station>)
    ensures SortedByDistance(r)
    ensures multiset(r) == multiset(s)
  {
    if s == [] then []
    else
      assert s == [s[0]] + s[1..];
      Insert(s[0], SortByDistance(s[1..]))
  }

  /** The sort is stable: the stations at any one distance keep the order
      they had. */
  lemma {:induction false} SortStable(s: seq<Station>, d: real)
    ensures AtDistance(SortByDistance(s), d) == AtDistance(s, d)
  {
    if s != [] {
      SortStable(s[1..], d);
      InsertAtDistance(s[0], SortByDistance(s[1..]), d);
    }
  }

  /** The first station is the first of those at its own distance. */
  lemma AtOwnDistance(s: seq<Station>)
    requires s != []
    ensures AtDistance(s, s[0].distance) == [s[0]] + AtDistance(s[1..], s[0].distance)
  {
  }

  /** Sortedness and stability fix the result: any two orderings of the same
      stations that are both sorted by distance and both keep equal-distance
      stations in the same relative order are equal. So SortByDistance is
      the one result a stable sort can give. */
  lemma {:induction false} StableSortUnique(a: seq<Station>, b: seq<Station>)
    requires SortedByDistance(a) && SortedByDistance(b)
    requires forall d :: AtDistance(a, d) == AtDistance(b, d)
    ensures a == b
  {
    if a != [] { AtOwnDistance(a); }
    if b != [] { AtOwnDistance(b); }
    if a == [] || b == [] {
    } else {
      var da, db := a[0].distance, b[0].distance;
      // b[0] occurs in a, so a[0] is no farther; and the other way round
      AtDistanceMembers(b, db, b[0]);
      AtDistanceMembers(a, db, b[0]);
      AtDistanceMembers(a, da, a[0]);
      AtDistanceMembers(b, da, a[0]);
      assert da == db;
      assert a[0] == AtDistance(a, da)[0] == AtDistance(b, da)[0] == b[0];
      forall d ensures AtDistance(a[1..], d) == AtDistance(b[1..], d) {
        if d == da {
          assert AtDistance(a[1..], d) == AtDistance(a, d)[1..];
          assert AtDistance(b[1..], d) == AtDistance(b, d)[1..];
        } else {
          assert AtDistance(a[1..], d) == AtDistance(a, d);
          assert AtDistance(b[1..], d) == AtDistance(b, d);
        }
      }
      StableSortUnique(a[1..], b[1..]);
      assert a == [a[0]] + a[1..] && b == [b[0]] + b[1..];
    }
  }

  // ---------------------------------------------------------------------
  // The handler

  /** `sorted(ev_data, key=distance)[:10]`. */
  function Nearest(stations: seq<Station>): (sent: seq<Station>)
    ensures |sent| <= MaxStations
    ensures SortedByDistance(sent)
    ensures forall k :: 0 <= k < |sent| ==> sent[k] in stations
  {
    var sorted := SortByDistance(stations);
    assert forall k :: 0 <= k < |sorted| ==> sorted[k] in multiset(stations);
    if |sorted| <= MaxStations then sorted else sorted[..MaxStations]
  }

  /** The list the one `ev_stations` event carries. `records` is the
      directory's decoded answer, or None when parsing the reported position,
      the request or the decoding raised. */
  function Payload(records: Option<seq<Value>>, geodesic: Geodesic): (sent: seq<Station>)
    ensures |sent| <= MaxStations
    ensures SortedByDistance(sent)
    ensures forall k :: 0 <= k < |sent| ==> PyTruthy(sent[k].lat) && PyTruthy(sent[k].lon)
  {
    match records
    case None => []
    case Some(rs) =>
      match Collect(rs, geodesic)
      case None => []
      case Some(evData) => Nearest(evData)
  }

  /** The handler after the directory has answered: the filtering loop, the
      sort and slice, and the fallback on any exception. */
  method HandleLocation(records: Option<seq<Value>>, geodesic: Geodesic) returns (emits: seq<Emit>)
    ensures emits == [EvStations(Payload(records, geodesic))]
  {
    if records.None? {
      return [EvStations([])];
    }
    var rs := records.value;
    var evData: seq<Station> := [];
    var i := 0;
    while i < |rs|
      invariant 0 <= i <= |rs|
      invariant Collect(rs[..i], geodesic) == Some(evData)
    {
      assert rs[..i + 1][..i] == rs[..i];
      match Visit(rs[i], geodesic) {
        case Raise =>
          CollectIsKept(rs, geodesic);
          return [EvStations([])];
        case Skip =>
        case Keep(st) =>
          evData := evData + [st];
      }
      i := i + 1;
    }
    assert rs[..i] == rs;
    evData := Nearest(evData);
    emits := [EvStations(evData)];
  }

  // ---------------------------------------------------------------------
  // What the payload promises

  /** At most ten stations, and exactly ten whenever ten or more are
      candidates. */
  lemma NearestLength(stations: seq<Station>)
    ensures |Nearest(stations)| == if |stations| <= MaxStations then |stations| else MaxStations
  {
    assert |SortByDistance(stations)| == |multiset(stations)| == |stations|;
  }

  /** Any exception, before or inside the loop, yields an empty payload. */
  lemma PayloadOnError(records: Option<seq<Value>>, geodesic: Geodesic)
    ensures records.None? || Raises(records.value, geodesic) ==> Payload(records, geodesic) == []
  {
    if records.Some? {
      CollectIsKept(records.value, geodesic);
    }
  }

  /** Without an exception the payload is the nearest of the kept stations. */
  lemma PayloadIsNearestKept(rs: seq<Value>, geodesic: Geodesic)
    ensures !Raises(rs, geodesic) ==> Payload(Some(rs), geodesic) == Nearest(Kept(rs, geodesic))
  {
    CollectIsKept(rs, geodesic);
  }

  /** Truncation keeps the nearest: the stations sent are drawn from the
      candidates, and no candidate left out is nearer than one sent. */
  lemma NearestKeepsNearest(stations: seq<Station>)
    ensures var sent := Nearest(stations);
      && multiset(sent) <= multiset(stations)
      && forall x, y :: x in multiset(sent) && y in multiset(stations) - multiset(sent) ==> x.distance <= y.distance
  {
    var sorted := SortByDistance(stations);
    if |sorted| > MaxStations {
      var sent, dropped := sorted[..MaxStations], sorted[MaxStations..];
      assert sorted == sent + dropped;
      assert multiset(stations) == multiset(sent) + multiset(dropped);
      forall x: Station, y: Station | x in multiset(sent) && y in multiset(stations) - multiset(sent)
        ensures x.distance <= y.distance
      {
        assert y in multiset(dropped);
        var i :| 0 <= i < |sent| && sent[i] == x;
        var j :| 0 <= j < |dropped| && dropped[j] == y;
        assert sorted[i] == x && sorted[MaxStations + j] == y;
      }
    }
  }

  /** Ties keep the candidates' order: among stations at one distance, the
      ones sent are a prefix of the candidates at that distance, in order. */
  lemma NearestStable(stations: seq<Station>, d: real)
    ensures AtDistance(Nearest(stations), d) <= AtDistance(stations, d)
  {
    var sorted := SortByDistance(stations);
    SortStable(stations, d);
    if |sorted| > MaxStations {
      var sent, dropped := sorted[..MaxStations], sorted[MaxStations..];
      assert Nearest(stations) == sent;
      assert sorted == sent + dropped;
      AtDistanceAppend(sent, dropped, d);
      var p, q := AtDistance(sent, d), AtDistance(dropped, d);
      assert p <= p + q;
    } else {
      assert Nearest(stations) == sorted;
    }
  }

  /** Every station sent was built from one of the records: its own truthy
      coordinates and its distance, with defaults only for absent keys. */
  lemma PayloadFromRecords(rs: seq<Value>, geodesic: Geodesic, st: Station)
    requires st in Payload(Some(rs), geodesic)
    ensures exists j :: 0 <= j < |rs| && Visit(rs[j], geodesic) == Keep(st)
    ensures PyTruthy(st.lat) && PyTruthy(st.lon)
  {
    CollectIsKept(rs, geodesic);
    var kept := Kept(rs, geodesic);
    var sorted := SortByDistance(kept);
    assert st in multiset(sorted);
    KeptMembers(rs, geodesic, st);
    var j :| 0 <= j < |rs| && Visit(rs[j], geodesic) == Keep(st);
    KeptStationFields(rs[j], geodesic, st);
  }
}
