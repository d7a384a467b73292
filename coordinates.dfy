/** The coordinate table of a query's map page (getIncidentCoordinates,
    query.go): records separated by "||", each record "lat|lon|id". The
    coordinates stay text; a field is accepted where strconv.ParseFloat
    accepts it among the characters the map pattern captures. */
module Coordinates {
  import opened Outcomes
  import opened Text
  import DateFormat

  datatype Coordinate = Coordinate(incidentId: string, longitude: string, latitude: string)

  const RecordSeparator := "||"
  const FieldSeparator := "|"

  /** `s` without its leading sign, if it has one. */
  function Unsigned(s: string): string
  {
    if |s| > 0 && (s[0] == '+' || s[0] == '-') then s[1..] else s
  }

  /** Over the characters the map pattern captures (digits, '+', '-', '.'
      and '|'), strconv.ParseFloat accepts exactly an
      optional sign followed by digits with at most one '.', at least one of
      them a digit: "12", "-1.5", "3.", "+.5". */
  predicate IsDecimal(s: string)
  {
    var u := Unsigned(s);
    && (forall i :: 0 <= i < |u| ==> DateFormat.IsDigit(u[i]) || u[i] == '.')
    && (exists i :: 0 <= i < |u| && DateFormat.IsDigit(u[i]))
    && (forall i, j :: 0 <= i < j < |u| && u[i] == '.' ==> u[j] != '.')
  }

  /** The error text strconv.ParseFloat gives for a malformed field. */
  function SyntaxError(field: string): string
  {
    "strconv.ParseFloat: parsing \"" + field + "\": invalid syntax"
  }

  /** One record: fields 0, 1 and 2 are latitude, longitude and incident ID;
      further fields are ignored. The longitude is checked before the
      latitude. A record with fewer than three fields makes the indexing panic. */
  function DecodeRecord(line: string): (r: Outcome<Coordinate>)
    ensures !r.Unterminated?
    ensures r.Panic? <==> |Split(line, FieldSeparator)| < 3
    ensures r.Ok? <==> var parts := Split(line, FieldSeparator);
      |parts| >= 3 && IsDecimal(parts[1]) && IsDecimal(parts[0])
    ensures r.Ok? ==> var parts := Split(line, FieldSeparator);
      r.value == Coordinate(parts[2], parts[1], parts[0])
    ensures r.Err? ==> var parts := Split(line, FieldSeparator);
      if !IsDecimal(parts[1])
      then r.trail == ["failed to parse longitude for incident " + parts[2], SyntaxError(parts[1])]
      else !IsDecimal(parts[0]) && r.trail == ["failed to parse latitude for incident " + parts[2], SyntaxError(parts[0])]
  {
    var parts := Split(line, FieldSeparator);
    if |parts| < 3 then Panic("index out of range")
    else
      var lat, lon, id := parts[0], parts[1], parts[2];
      if !IsDecimal(lon) then Err(["failed to parse longitude for incident " + id, SyntaxError(lon)])
      else if !IsDecimal(lat) then Err(["failed to parse latitude for incident " + id, SyntaxError(lat)])
      else Ok(Coordinate(id, lon, lat))
  }

  /** The records decoded in order, stopping at the first that fails. */
  function DecodeRecords(lines: seq<string>): Outcome<seq<Coordinate>>
  {
    if lines == [] then Ok([])
    else
      var head := DecodeRecord(lines[0]);
      if !head.Ok? then Propagate(head)
      else
        var tail := DecodeRecords(lines[1..]);
        if tail.Ok? then Ok([head.value] + tail.value) else tail
  }

  /** The records decode to one coordinate each, in order, exactly when every
      record decodes. */
  lemma {:induction false} DecodeRecordsOk(lines: seq<string>)
    ensures DecodeRecords(lines).Ok? <==> forall k :: 0 <= k < |lines| ==> DecodeRecord(lines[k]).Ok?
    ensures DecodeRecords(lines).Ok? ==>
      |DecodeRecords(lines).value| == |lines|
      && forall k :: 0 <= k < |lines| ==> DecodeRecords(lines).value[k] == DecodeRecord(lines[k]).value
    decreases |lines|
  {
    if lines != [] {
      DecodeRecordsOk(lines[1..]);
      if DecodeRecord(lines[0]).Ok? && DecodeRecords(lines[1..]).Ok? {
        var vs := DecodeRecords(lines).value;
        assert vs == [DecodeRecord(lines[0]).value] + DecodeRecords(lines[1..]).value;
        forall k | 0 <= k < |lines| ensures vs[k] == DecodeRecord(lines[k]).value {
          if k > 0 {
            assert lines[k] == lines[1..][k - 1];
          }
        }
      }
      forall k | 1 <= k < |lines| ensures lines[k] == lines[1..][k - 1] {
      }
    }
  }

  /** When decoding fails, it fails with the failure of the first record that
      does not decode. */
  lemma {:induction false} DecodeRecordsFirstFailure(lines: seq<string>, k: nat)
    requires k < |lines| && !DecodeRecord(lines[k]).Ok?
    requires forall j :: 0 <= j < k ==> DecodeRecord(lines[j]).Ok?
    ensures DecodeRecords(lines) == Propagate(DecodeRecord(lines[k]))
    decreases k
  {
    if k > 0 {
      forall j | 0 <= j < k - 1 ensures DecodeRecord(lines[1..][j]).Ok? {
        assert lines[1..][j] == lines[j + 1];
      }
      DecodeRecordsFirstFailure(lines[1..], k - 1);
    }
  }

  /** The loop of getIncidentCoordinates over the records of a captured table. */
  method DecodeTable(raw: string) returns (r: Outcome<seq<Coordinate>>)
    ensures r == DecodeRecords(Split(raw, RecordSeparator))
  {
    var lines := Split(raw, RecordSeparator);
    var coordinates: seq<Coordinate> := [];
    var i := 0;
    while i < |lines|
      invariant 0 <= i <= |lines| && |coordinates| == i
      invariant forall k :: 0 <= k < i ==> DecodeRecord(lines[k]).Ok? && coordinates[k] == DecodeRecord(lines[k]).value
    {
      var record := DecodeRecord(lines[i]);
      if !record.Ok? {
        DecodeRecordsFirstFailure(lines, i);
        return Propagate(record);
      }
      coordinates := coordinates + [record.value];
      i := i + 1;
    }
    DecodeRecordsOk(lines);
    assert coordinates == DecodeRecords(lines).value;
    return Ok(coordinates);
  }

  /** A coordinate the map page can carry: decimal latitude and longitude and
      a non-empty ID without '|'. */
  predicate Renderable(c: Coordinate)
  {
    IsDecimal(c.latitude) && IsDecimal(c.longitude) && c.incidentId != "" && '|' !in c.incidentId
  }

  /** The table text the server writes for a list of coordinates. */
  function RenderRecord(c: Coordinate): string
  {
    c.latitude + FieldSeparator + c.longitude + FieldSeparator + c.incidentId
  }

  function RenderRecords(cs: seq<Coordinate>): (r: seq<string>)
    ensures |r| == |cs| && forall k :: 0 <= k < |cs| ==> r[k] == RenderRecord(cs[k])
  {
    if cs == [] then [] else [RenderRecord(cs[0])] + RenderRecords(cs[1..])
  }

  function RenderTable(cs: seq<Coordinate>): string
  {
    Join(RenderRecords(cs), RecordSeparator)
  }

  /** A decimal never contains '|'. */
  lemma DecimalHasNoBar(s: string)
    requires IsDecimal(s)
    ensures '|' !in s && |s| > 0
  {
    var u := Unsigned(s);
    var signed := |s| > 0 && (s[0] == '+' || s[0] == '-');
    forall i | 0 <= i < |s| ensures s[i] != '|' {
      if signed && i > 0 {
        assert s[i] == u[i - 1];
      } else if !signed {
        assert s[i] == u[i];
      }
    }
  }

  /** A record splits back into its three fields. */
  lemma RecordFields(c: Coordinate)
    requires Renderable(c)
    ensures Split(RenderRecord(c), FieldSeparator) == [c.latitude, c.longitude, c.incidentId]
  {
    var parts := [c.latitude, c.longitude, c.incidentId];
    DecimalHasNoBar(c.latitude);
    DecimalHasNoBar(c.longitude);
    SeparableWithoutLead(c.latitude, FieldSeparator);
    SeparableWithoutLead(c.longitude, FieldSeparator);
    SeparableWithoutLead(c.incidentId, FieldSeparator);
    assert parts[1..][1..] == [c.incidentId];
    assert Join(parts[1..], FieldSeparator) == c.longitude + FieldSeparator + c.incidentId;
    assert Join(parts, FieldSeparator) == RenderRecord(c);
    SplitJoin(parts, FieldSeparator);
  }

  /** A text that does not end in '|' and has no two '|' in a row can stand
      before a record separator. */
  lemma SeparableRecord(p: string)
    requires |p| > 0 && p[|p| - 1] != '|'
    requires forall j :: 0 <= j < |p| - 1 ==> !(p[j] == '|' && p[j + 1] == '|')
    ensures Separable(p, RecordSeparator)
  {
    var s := p + RecordSeparator;
    assert s[|p|..|p| + 2] == RecordSeparator;
    forall j | 0 <= j < |p| ensures !OccursAt(s, RecordSeparator, j) {
      if j + 1 < |p| {
        assert s[j] == p[j] && s[j + 1] == p[j + 1];
      } else {
        assert s[j] == p[j];
      }
      assert j + 2 <= |s| ==> s[j..j + 2][0] == s[j] && s[j..j + 2][1] == s[j + 1];
    }
    IndexIsFirst(s, RecordSeparator, |p|);
  }

  lemma RecordSeparable(c: Coordinate)
    requires Renderable(c)
    ensures Separable(RenderRecord(c), RecordSeparator)
  {
    var p := RenderRecord(c);
    DecimalHasNoBar(c.latitude);
    DecimalHasNoBar(c.longitude);
    var a, b := |c.latitude|, |c.latitude| + 1 + |c.longitude|;
    forall j | 0 <= j < |p| - 1 ensures !(p[j] == '|' && p[j + 1] == '|') {
      if j < a {
        assert p[j] == c.latitude[j];
      } else if j == a {
        assert p[j + 1] == c.longitude[0];
      } else if j < b {
        assert p[j] == c.longitude[j - a - 1];
      } else if j == b {
        assert p[j + 1] == c.incidentId[0];
      } else {
        assert p[j] == c.incidentId[j - b - 1];
      }
    }
    assert p[|p| - 1] == c.incidentId[|c.incidentId| - 1];
    SeparableRecord(p);
  }

  /** Rendering a non-empty list of coordinates and decoding the table gives
      the list back. */
  lemma TableRoundTrip(cs: seq<Coordinate>)
    requires |cs| > 0 && forall k :: 0 <= k < |cs| ==> Renderable(cs[k])
    ensures DecodeRecords(Split(RenderTable(cs), RecordSeparator)) == Ok(cs)
  {
    var records := RenderRecords(cs);
    forall k | 0 <= k < |records| ensures Separable(records[k], RecordSeparator) {
      RecordSeparable(cs[k]);
    }
    SplitJoin(records, RecordSeparator);
    forall k | 0 <= k < |records| ensures DecodeRecord(records[k]) == Ok(cs[k]) {
      RecordRoundTrip(cs[k]);
    }
    DecodeRecordsOk(records);
    assert DecodeRecords(records).value == cs;
  }

  /** One rendered record decodes back to its coordinate. */
  lemma RecordRoundTrip(c: Coordinate)
    requires Renderable(c)
    ensures DecodeRecord(RenderRecord(c)) == Ok(c)
  {
    RecordFields(c);
  }
}
