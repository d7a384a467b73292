/** mergeIncidentResults (query.go): a left join of the exported incident
    records against the map coordinates on the incident ID. Coordinates are
    first collected in a map, so a later coordinate for the same ID replaces
    an earlier one. */
module Fusion {
  import opened Outcomes
  import opened Coordinates

  /** One row of the exported CSV, as gocsv decodes it. */
  datatype IncidentRecord = IncidentRecord(
    incidentId: string, incidentDate: string, state: string, cityOrCounty: string,
    address: string, killed: int, injured: int, operations: string)

  /** An incident as the client returns it. The date is the Unix time in
      seconds that strtotime gives for the record's date text; latitude and
      longitude are absent when the map has no coordinate for the incident. */
  datatype Incident = Incident(
    incidentId: string, incidentDate: int, state: string, cityOrCounty: string,
    address: string, killed: int, injured: int, operations: string,
    longitude: Option<string>, latitude: Option<string>)

  /** The coordinate map after inserting `cs` in order. */
  function CoordinateIndex(cs: seq<Coordinate>): map<string, Coordinate>
  {
    if cs == [] then map[]
    else CoordinateIndex(cs[..|cs| - 1])[cs[|cs| - 1].incidentId := cs[|cs| - 1]]
  }

  /** Reference definition: the last coordinate in `cs` for `id`, if any. */
  function LastCoordinate(cs: seq<Coordinate>, id: string): Option<Coordinate>
  {
    if cs == [] then None
    else if cs[|cs| - 1].incidentId == id then Some(cs[|cs| - 1])
    else LastCoordinate(cs[..|cs| - 1], id)
  }

  function Lookup(index: map<string, Coordinate>, id: string): Option<Coordinate>
  {
    if id in index then Some(index[id]) else None
  }

  /** The map holds, for every ID, the last coordinate given for it. */
  lemma {:induction false} IndexHoldsLast(cs: seq<Coordinate>, id: string)
    ensures Lookup(CoordinateIndex(cs), id) == LastCoordinate(cs, id)
    decreases |cs|
  {
    if cs != [] {
      IndexHoldsLast(cs[..|cs| - 1], id);
    }
  }

  /** There is a last coordinate for `id` exactly when some coordinate has
      that ID, and it is one carrying that ID after which no other does. */
  lemma {:induction false} LastCoordinateWins(cs: seq<Coordinate>, id: string)
    ensures LastCoordinate(cs, id).Some? <==> exists k :: 0 <= k < |cs| && cs[k].incidentId == id
    ensures LastCoordinate(cs, id).Some? ==>
      exists k :: (0 <= k < |cs| && cs[k] == LastCoordinate(cs, id).value && cs[k].incidentId == id
                   && forall j :: k < j < |cs| ==> cs[j].incidentId != id)
    decreases |cs|
  {
    if cs != [] {
      var init := cs[..|cs| - 1];
      LastCoordinateWins(init, id);
      var n := |cs| - 1;
      if cs[n].incidentId == id {
        assert cs[n] == LastCoordinate(cs, id).value;
      } else {
        assert forall k :: 0 <= k < n ==> init[k] == cs[k];
        if LastCoordinate(cs, id).Some? {
          var k :| 0 <= k < n && init[k] == LastCoordinate(init, id).value && init[k].incidentId == id
            && forall j :: k < j < n ==> init[j].incidentId != id;
          assert cs[k] == LastCoordinate(cs, id).value;
        }
      }
    }
  }

  /** One output of the join. */
  function Fuse(rec: IncidentRecord, coord: Option<Coordinate>, dateSeconds: string -> int): Incident
  {
    Incident(rec.incidentId, dateSeconds(rec.incidentDate), rec.state, rec.cityOrCounty,
             rec.address, rec.killed, rec.injured, rec.operations,
             if coord.Some? then Some(coord.value.longitude) else None,
             if coord.Some? then Some(coord.value.latitude) else None)
  }

  /** Record `rec` carried into an incident: every field copied, the date
      converted. */
  predicate CopiesRecord(r: Incident, rec: IncidentRecord, dateSeconds: string -> int)
  {
    && r.incidentId == rec.incidentId && r.incidentDate == dateSeconds(rec.incidentDate)
    && r.state == rec.state && r.cityOrCounty == rec.cityOrCounty && r.address == rec.address
    && r.killed == rec.killed && r.injured == rec.injured && r.operations == rec.operations
  }

  /** A fused incident copies its record and has coordinates exactly when the
      map has some coordinate for its ID; they are the last one given. */
  lemma FusedIncident(rec: IncidentRecord, cs: seq<Coordinate>, dateSeconds: string -> int)
    ensures var r := Fuse(rec, LastCoordinate(cs, rec.incidentId), dateSeconds);
      && CopiesRecord(r, rec, dateSeconds)
      && (r.latitude.Some? <==> exists k :: 0 <= k < |cs| && cs[k].incidentId == rec.incidentId)
      && r.longitude.Some? == r.latitude.Some?
      && (r.latitude.Some? ==>
            exists k :: (0 <= k < |cs| && cs[k].incidentId == rec.incidentId
                         && cs[k].latitude == r.latitude.value && cs[k].longitude == r.longitude.value
                         && forall j :: k < j < |cs| ==> cs[j].incidentId != rec.incidentId))
  {
    LastCoordinateWins(cs, rec.incidentId);
  }

  /** mergeIncidentResults: one incident per record, in record order, each
      joined with the last coordinate for its ID. */
  method MergeIncidentResults(incidents: seq<IncidentRecord>, coordinates: seq<Coordinate>, dateSeconds: string -> int)
    returns (results: seq<Incident>)
    ensures |results| == |incidents|
    ensures forall i :: 0 <= i < |incidents| ==>
      results[i] == Fuse(incidents[i], LastCoordinate(coordinates, incidents[i].incidentId), dateSeconds)
  {
    var coordMap: map<string, Coordinate> := map[];
    var i := 0;
    while i < |coordinates|
      invariant 0 <= i <= |coordinates|
      invariant coordMap == CoordinateIndex(coordinates[..i])
    {
      assert coordinates[..i + 1][..i] == coordinates[..i];
      coordMap := coordMap[coordinates[i].incidentId := coordinates[i]];
      i := i + 1;
    }
    assert coordinates[..i] == coordinates;

    results := [];
    var j := 0;
    while j < |incidents|
      invariant 0 <= j <= |incidents| && |results| == j
      invariant forall k :: 0 <= k < j ==>
        results[k] == Fuse(incidents[k], Lookup(coordMap, incidents[k].incidentId), dateSeconds)
    {
      var incident := incidents[j];
      var coord := if incident.incidentId in coordMap then Some(coordMap[incident.incidentId]) else None;
      results := results + [Fuse(incident, coord, dateSeconds)];
      j := j + 1;
    }
    forall k | 0 <= k < |incidents|
      ensures results[k] == Fuse(incidents[k], LastCoordinate(coordinates, incidents[k].incidentId), dateSeconds)
    {
      IndexHoldsLast(coordinates, incidents[k].incidentId);
    }
  }
}
