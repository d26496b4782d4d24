/**
 * The telemetry views (src/dashboard/simulation/views.py): `telemetry_ingest`
 * validates a pushed position and upserts the one telemetry record of its
 * satellite; `telemetry_recent` lists the record of every active satellite
 * that has one. The `Satellite` table is a sequence in primary-key order and
 * the `Telemetry` table a map keyed by satellite id, its primary key.
 */
module TelemetryViews {
  import opened Prelude
  import opened Json
  import opened DashboardModels
  import opened Replies

  /** A validated telemetry push. */
  datatype Reading = Reading(
    satellite: string, timestamp: string, latitude: real, longitude: real,
    altitude: Option<real>, extra: Option<Json>)

  const BadCoordinates: string := "Invalid or missing 'latitude'/'longitude'"

  /** `float(payload[key])`, with a missing key failing like a bad value. */
  function Coordinate(fields: map<string, Json>, key: string, parsers: Parsers): Option<real> {
    if key in fields then PyFloat(fields[key], parsers) else None
  }

  /** `telemetry_ingest` up to `get_or_create`: the reading to store, or the refusal. */
  function ValidateTelemetry(body: Option<Json>, parsers: Parsers): (r: Checked<Reading>)
    ensures r.Refused? ==> r.reply.status == 400 || r.reply == Crash
    ensures r.Accepted? ==> body.Some? && body.value.JObj?
  {
    match body
    case None => Refused(Error("Invalid JSON payload", 400))
    case Some(payload) =>
      if !payload.JObj? then Refused(Crash)
      else
        var fields := payload.fields;
        var name := Get(fields, "satellite");
        var stamp := Get(fields, "timestamp");
        if !Truthy(name) then Refused(Error("Missing 'satellite' field", 400))
        else if !Truthy(stamp) then Refused(Error("Missing 'timestamp' field", 400))
        else if !stamp.JStr? then Refused(Crash)
        else if parsers.parseDatetime(stamp.s).None? then
          Refused(Error("Invalid 'timestamp' format, expected ISO-8601", 400))
        else
          var lat := Coordinate(fields, "latitude", parsers);
          var lon := Coordinate(fields, "longitude", parsers);
          if lat.None? || lon.None? then Refused(Error(BadCoordinates, 400))
          else
            var altitude := Get(fields, "altitude");
            var alt := if altitude.JNull? then Some(None) else
              match PyFloat(altitude, parsers) case Some(a) => Some(Some(a)) case None => None;
            if alt.None? then Refused(Error("Invalid 'altitude'", 400))
            else
              var extra := Get(fields, "extra");
              Accepted(Reading(
                if name.JStr? then name.s else parsers.display(name),
                parsers.parseDatetime(stamp.s).value,
                lat.value, lon.value, alt.value,
                if Truthy(extra) then Some(extra) else None))
  }

  /** An accepted push names a satellite, carries a parsable timestamp and numeric coordinates. */
  lemma AcceptedTelemetry(body: Option<Json>, parsers: Parsers)
    requires ValidateTelemetry(body, parsers).Accepted?
    ensures var r := ValidateTelemetry(body, parsers).value;
      && body.Some? && body.value.JObj?
      && var fields := body.value.fields;
      && Truthy(Get(fields, "satellite"))
      && Get(fields, "timestamp").JStr? && parsers.parseDatetime(Get(fields, "timestamp").s) == Some(r.timestamp)
      && "latitude" in fields && PyFloat(fields["latitude"], parsers) == Some(r.latitude)
      && "longitude" in fields && PyFloat(fields["longitude"], parsers) == Some(r.longitude)
      && (r.altitude.None? <==> Get(fields, "altitude").JNull?)
      && (r.altitude.Some? ==> PyFloat(fields["altitude"], parsers) == r.altitude)
      && (r.extra.Some? <==> Truthy(Get(fields, "extra")))
  {
  }

  /** Each field the view checks refuses the push with 400 when it is missing or malformed. */
  lemma RefusedTelemetry(body: Option<Json>, parsers: Parsers)
    requires body.Some? && body.value.JObj?
    ensures var fields := body.value.fields;
      && (!Truthy(Get(fields, "satellite")) ==>
            ValidateTelemetry(body, parsers) == Refused(Error("Missing 'satellite' field", 400)))
      && (Truthy(Get(fields, "satellite")) && !Truthy(Get(fields, "timestamp")) ==>
            ValidateTelemetry(body, parsers) == Refused(Error("Missing 'timestamp' field", 400)))
      && (Truthy(Get(fields, "satellite")) && Truthy(Get(fields, "timestamp")) && !Get(fields, "timestamp").JStr? ==>
            ValidateTelemetry(body, parsers) == Refused(Crash))
      && (Truthy(Get(fields, "satellite")) && Truthy(Get(fields, "timestamp")) && Get(fields, "timestamp").JStr?
          && parsers.parseDatetime(Get(fields, "timestamp").s).None? ==>
            ValidateTelemetry(body, parsers) == Refused(Error("Invalid 'timestamp' format, expected ISO-8601", 400)))
      && (Truthy(Get(fields, "satellite")) && Truthy(Get(fields, "timestamp")) && Get(fields, "timestamp").JStr?
          && parsers.parseDatetime(Get(fields, "timestamp").s).Some? ==>
            && (Coordinate(fields, "latitude", parsers).None? || Coordinate(fields, "longitude", parsers).None? ==>
                  ValidateTelemetry(body, parsers) == Refused(Error(BadCoordinates, 400)))
            && (Coordinate(fields, "latitude", parsers).Some? && Coordinate(fields, "longitude", parsers).Some?
                && !Get(fields, "altitude").JNull? && PyFloat(Get(fields, "altitude"), parsers).None? ==>
                  ValidateTelemetry(body, parsers) == Refused(Error("Invalid 'altitude'", 400))))
  {
  }

  /** The table constraints: primary keys 1, 2, ... in order, and unique names. */
  ghost predicate SatelliteTable(sats: seq<Satellite>) {
    && (forall i :: 0 <= i < |sats| ==> sats[i].id == i + 1)
    && (forall i, j :: 0 <= i < j < |sats| ==> sats[i].name != sats[j].name)
  }

  /** The satellite with the given name, if any. */
  function Lookup(sats: seq<Satellite>, name: string): (r: Option<Satellite>)
    ensures r.Some? ==> r.value in sats && r.value.name == name
    ensures r.None? ==> forall s :: s in sats ==> s.name != name
    decreases |sats|
  {
    if sats == [] then None
    else if sats[0].name == name then Some(sats[0])
    else Lookup(sats[1..], name)
  }

  /** A point of the `telemetry_recent` answer. */
  datatype Point = Point(
    satellite: string, timestamp: string, latitude: real, longitude: real,
    altitude: Option<real>, extra: Option<Json>)

  function PointOf(s: Satellite, t: TelemetryRecord): Point {
    Point(s.name, t.timestamp, t.latitude, t.longitude, t.altitude, t.extra)
  }

  /** The loop of `telemetry_recent`, over the active satellites in table order. */
  function Recent(sats: seq<Satellite>, telemetry: map<nat, TelemetryRecord>): (r: seq<Point>)
    ensures |r| <= |sats|
    decreases |sats|
  {
    if sats == [] then []
    else
      var s := sats[|sats| - 1];
      Recent(sats[..|sats| - 1], telemetry)
        + (if s.active && s.id in telemetry then [PointOf(s, telemetry[s.id])] else [])
  }

  /** `telemetry_recent` lists exactly the active satellites that have a telemetry record. */
  lemma {:induction false} RecentExactly(sats: seq<Satellite>, telemetry: map<nat, TelemetryRecord>)
    ensures forall p :: p in Recent(sats, telemetry) <==>
      exists s :: s in sats && s.active && s.id in telemetry && p == PointOf(s, telemetry[s.id])
    decreases |sats|
  {
    if sats != [] {
      var init := sats[..|sats| - 1];
      RecentExactly(init, telemetry);
      assert forall s :: s in sats <==> s in init || s == sats[|sats| - 1];
    }
  }

  /** With unique names, each satellite appears at most once in the answer. */
  lemma {:induction false} RecentOncePerSatellite(sats: seq<Satellite>, telemetry: map<nat, TelemetryRecord>)
    requires SatelliteTable(sats)
    ensures forall i, j :: 0 <= i < j < |Recent(sats, telemetry)| ==>
      Recent(sats, telemetry)[i].satellite != Recent(sats, telemetry)[j].satellite
    decreases |sats|
  {
    if sats != [] {
      var init := sats[..|sats| - 1];
      var last := sats[|sats| - 1];
      RecentOncePerSatellite(init, telemetry);
      RecentExactly(init, telemetry);
      var r := Recent(init, telemetry);
      forall i | 0 <= i < |r|
        ensures r[i].satellite != last.name
      {
        assert r[i] in r;
        var s :| s in init && s.active && s.id in telemetry && r[i] == PointOf(s, telemetry[s.id]);
        var k :| 0 <= k < |init| && init[k] == s;
        assert sats[k] == s;
      }
    }
  }

  function PointJson(p: Point): Json {
    JObj(map["satellite" := JStr(p.satellite), "timestamp" := JStr(p.timestamp),
             "latitude" := JNum(p.latitude), "longitude" := JNum(p.longitude),
             "altitude" := (if p.altitude.Some? then JNum(p.altitude.value) else JNull),
             "extra" := p.extra.GetOr(JNull)])
  }

  function PointsJson(ps: seq<Point>): (r: seq<Json>)
    ensures |r| == |ps|
    ensures forall i :: 0 <= i < |ps| ==> r[i] == PointJson(ps[i])
    decreases |ps|
  {
    if ps == [] then [] else PointsJson(ps[..|ps| - 1]) + [PointJson(ps[|ps| - 1])]
  }

  /** The `Satellite` and `Telemetry` tables. */
  class TelemetryStore {
    var satellites: seq<Satellite>
    var telemetry: map<nat, TelemetryRecord>

    /** The table constraints, and every telemetry record belongs to a satellite. */
    ghost predicate Valid()
      reads this
    {
      && SatelliteTable(satellites)
      && forall id :: id in telemetry ==> 1 <= id <= |satellites|
    }

    /** Tables holding the given satellites and no telemetry yet. */
    constructor(sats: seq<Satellite>)
      requires SatelliteTable(sats)
      ensures satellites == sats && telemetry == map[] && Valid()
    {
      satellites := sats;
      telemetry := map[];
    }

    /** `Satellite.objects.get_or_create(name=...)`: the named satellite, created active if new. */
    method GetOrCreate(name: string) returns (sat: Satellite)
      requires Valid()
      modifies this
      ensures Valid() && telemetry == old(telemetry)
      ensures sat in satellites && sat.name == name
      ensures Lookup(old(satellites), name).Some? ==>
        satellites == old(satellites) && sat == Lookup(old(satellites), name).value
      ensures Lookup(old(satellites), name).None? ==>
        sat == NewSatellite(|old(satellites)| + 1, name) && satellites == old(satellites) + [sat]
    {
      var i := 0;
      while i < |satellites|
        invariant 0 <= i <= |satellites|
        invariant Lookup(satellites, name) == Lookup(satellites[i..], name)
      {
        if satellites[i].name == name {
          return satellites[i];
        }
        assert satellites[i..][1..] == satellites[i + 1..];
        i := i + 1;
      }
      sat := NewSatellite(|satellites| + 1, name);
      satellites := satellites + [sat];
    }

    /** `telemetry_ingest`'s POST branch: validate, then replace the satellite's one telemetry record. */
    method Ingest(body: Option<Json>, parsers: Parsers, now: real) returns (reply: Reply)
      requires Valid()
      modifies this
      ensures Valid()
      ensures ValidateTelemetry(body, parsers).Refused? ==>
        reply == ValidateTelemetry(body, parsers).reply
        && satellites == old(satellites) && telemetry == old(telemetry)
      ensures ValidateTelemetry(body, parsers).Accepted? ==>
        var r := ValidateTelemetry(body, parsers).value;
        (satellites == old(satellites)
         || (Lookup(old(satellites), r.satellite).None?
             && satellites == old(satellites) + [NewSatellite(|old(satellites)| + 1, r.satellite)]))
        && (exists sat :: sat in satellites && sat.name == r.satellite
             && telemetry == old(telemetry)[sat.id := TelemetryRecord(r.timestamp, r.latitude, r.longitude, r.altitude, r.extra, now)]
             && reply.status == (if sat.id in old(telemetry) then 200 else 201))
    {
      var checked := ValidateTelemetry(body, parsers);
      if checked.Refused? {
        return checked.reply;
      }
      var r := checked.value;
      var sat := GetOrCreate(r.satellite);
      var created := sat.id !in telemetry;
      telemetry := telemetry[sat.id := TelemetryRecord(r.timestamp, r.latitude, r.longitude, r.altitude, r.extra, now)];
      reply := Reply(
        if created then 201 else 200,
        JObj(map["id" := JNum(sat.id as real), "satellite" := JStr(sat.name),
                 "timestamp" := JStr(r.timestamp), "updated_at" := JStr(parsers.formatInstant(now))]));
    }

    /** `telemetry_recent`'s GET branch: one point per active satellite that has telemetry. */
    method ListRecent() returns (reply: Reply)
      ensures reply == Reply(200, JObj(map["telemetry" := JArr(PointsJson(Recent(satellites, telemetry)))]))
    {
      var points: seq<Point> := [];
      for i := 0 to |satellites|
        invariant points == Recent(satellites[..i], telemetry)
      {
        assert satellites[..i + 1][..i] == satellites[..i];
        var s := satellites[i];
        if s.active && s.id in telemetry {
          points := points + [PointOf(s, telemetry[s.id])];
        }
      }
      assert satellites[..|satellites|] == satellites;
      reply := Reply(200, JObj(map["telemetry" := JArr(PointsJson(points))]));
    }

    /** The two telemetry routes: anything but POST to ingest, or GET to recent, is refused with 405. */
    method Handle(request: Request, recent: bool, parsers: Parsers, now: real) returns (reply: Reply)
      requires Valid()
      modifies this
      ensures Valid()
      ensures (if recent then request.verb != "GET" else request.verb != "POST") ==>
        reply == Error(NotAllowed, 405) && satellites == old(satellites) && telemetry == old(telemetry)
      ensures !recent && request.verb == "POST" ==>
        (ValidateTelemetry(request.body, parsers).Refused? ==>
          reply == ValidateTelemetry(request.body, parsers).reply
          && satellites == old(satellites) && telemetry == old(telemetry))
        && (ValidateTelemetry(request.body, parsers).Accepted? ==>
          var r := ValidateTelemetry(request.body, parsers).value;
          (satellites == old(satellites)
           || (Lookup(old(satellites), r.satellite).None?
               && satellites == old(satellites) + [NewSatellite(|old(satellites)| + 1, r.satellite)]))
          && (exists sat :: sat in satellites && sat.name == r.satellite
               && telemetry == old(telemetry)[sat.id := TelemetryRecord(r.timestamp, r.latitude, r.longitude, r.altitude, r.extra, now)]
               && reply.status == (if sat.id in old(telemetry) then 200 else 201)))
      ensures recent && request.verb == "GET" ==>
        reply == Reply(200, JObj(map["telemetry" := JArr(PointsJson(Recent(satellites, telemetry)))]))
        && satellites == old(satellites) && telemetry == old(telemetry)
    {
      if recent {
        if request.verb != "GET" {
          return Error(NotAllowed, 405);
        }
        reply := ListRecent();
      } else {
        if request.verb != "POST" {
          return Error(NotAllowed, 405);
        }
        reply := Ingest(request.body, parsers, now);
      }
    }
  }
}
