/** The request sequence of QueryClient (query.go): register a query, export
    its records to CSV through the batch process, read the coordinate table
    of its map, and join the two. The server's replies are inputs, and every
    method also returns the requests it issued, in order. */
module Workflow {
  import opened Outcomes
  import opened FormValues
  import opened Urls
  import opened Coordinates
  import opened Fusion
  import Options

  /** A reply to one request: the status code and the result of url.Parse on
      its Location header, or the transport error of the http.Client. */
  datatype Response = Response(status: int, location: ParsedUrl) | TransportFailure(reason: string)

  /** The JSON the batch process answers a progress request with. */
  datatype Progress = Progress(status: bool, percentage: int, message: string)

  /** One progress request: its decoded reply, a transport error or a JSON
      decoding error. */
  datatype PollReply = Posted(progress: Progress) | PostFailed(reason: string) | Undecodable(reason: string)

  /** gocsv.Unmarshal on the downloaded CSV. */
  datatype CsvDecoding = Decoded(records: seq<IncidentRecord>) | Malformed(reason: string)

  datatype Request = Get(url: Url) | Post(url: Url, form: Values)

  /** How the server answers the client's requests, in the order they are made.
      `captures` is the capture group of every match of the map pattern in
      the map page; `mapReadFailure` is the error of reading that page, if any. */
  datatype Server = Server(
    queryReply: Response, exportReply: Response, batchReply: Response, polls: seq<PollReply>,
    finishReply: Response, downloadReply: Response, csv: CsvDecoding,
    mapReply: Response, mapReadFailure: Option<string>, captures: seq<string>)

  /** An outcome and the requests issued on the way to it. */
  datatype Run<T> = Run(outcome: Outcome<T>, requests: seq<Request>)

  const OpParam := "op"
  const CompletePercentage := 100

  function QueryUrl(root: Url): Url
  {
    root.(path := JoinPath(root.path, ["query"]))
  }

  function ExportUrl(root: Url, queryId: string): Url
  {
    root.(path := JoinPath(root.path, ["query", queryId, "export-csv"]))
  }

  function MapUrl(root: Url, queryId: string): Url
  {
    root.(path := JoinPath(root.path, ["query", queryId, "map"]))
  }

  /** The root with path "export-finished/download" joined on and the raw
      query of the export result URL. */
  function DownloadUrl(root: Url, final: Url): Url
  {
    root.(path := JoinPath(root.path, ["export-finished", "download"]), query := final.query)
  }

  /** A reply that ends the poll: a failure, or progress at 100 percent. */
  predicate Stops(reply: PollReply)
  {
    !reply.Posted? || reply.progress.percentage == CompletePercentage
  }

  // ---------------------------------------------------------------- query()

  /** query(): post the form of the options to root/query. A status other
      than 302 ends in an empty query ID; since the error wrapped there is
      nil, that is not an error. */
  function QueryRun(root: ParsedUrl, queryId: string, opts: seq<Options.QueryOption>, reply: Response): Run<string>
  {
    if root.BadUrl? then Run(Err(["failed to parse root URL", root.reason]), [])
    else
      var requests := [Post(QueryUrl(root.url), Options.BuildForm(queryId, opts))];
      match reply
      case TransportFailure(e) => Run(Err(["failed to post query", e]), requests)
      case Response(status, _) => Run(Ok(if status != 302 then "" else queryId), requests)
  }

  method Query(root: ParsedUrl, queryId: string, opts: seq<Options.QueryOption>, reply: Response)
    returns (r: Outcome<string>, requests: seq<Request>)
    ensures Run(r, requests) == QueryRun(root, queryId, opts, reply)
  {
    var options := new Options.QueryOptions(queryId);
    var i := 0;
    while i < |opts|
      invariant 0 <= i <= |opts|
      invariant options.queryData == Options.ApplyOptions(Options.BaseForm(queryId), opts[..i])
    {
      assert opts[..i + 1][..i] == opts[..i];
      options.Apply(opts[i]);
      i := i + 1;
    }
    assert opts[..i] == opts;
    if root.BadUrl? {
      return Err(["failed to parse root URL", root.reason]), [];
    }
    var queryUrl := QueryUrl(root.url);
    requests := [Post(queryUrl, options.queryData)];
    if reply.TransportFailure? {
      return Err(["failed to post query", reply.reason]), requests;
    }
    if reply.status != 302 {
      return Ok(""), requests;
    }
    return Ok(queryId), requests;
  }

  /** When the root parses, query() posts exactly one form to root/query:
      the base fields, then what the options add in order. */
  lemma QueryPostsForm(root: Url, queryId: string, opts: seq<Options.QueryOption>, reply: Response)
    ensures var run := QueryRun(Parsed(root), queryId, opts, reply);
      && run.requests == [Post(QueryUrl(root), Options.BuildForm(queryId, opts))]
      && QueryUrl(root).path == root.path + ["query"]
      && QueryUrl(root).query == root.query
      && (reply.Response? ==> run.outcome.Ok?)
  {
    assert ["query"][1..] == [];
  }

  /** A reply with any status but 302 yields the empty query ID and no error. */
  lemma UnexpectedStatusIsNotAnError(root: Url, queryId: string, opts: seq<Options.QueryOption>, status: int, location: ParsedUrl)
    requires status != 302
    ensures QueryRun(Parsed(root), queryId, opts, Response(status, location)).outcome == Ok("")
  {
  }

  // ---------------------------------------------------------- progress poll

  /** The progress loop of getRecords over the replies the server gives:
      post to the poll URL until a reply says 100 percent or a request or
      its decoding fails. Replies that run out first leave it unterminated. */
  function PollRun(pollUrl: Url, polls: seq<PollReply>): Run<Progress>
    decreases |polls|
  {
    if polls == [] then Run(Unterminated, [])
    else
      var request := Post(pollUrl, map[]);
      match polls[0]
      case PostFailed(e) => Run(Err([e]), [request])
      case Undecodable(e) => Run(Err([e]), [request])
      case Posted(p) =>
        if p.percentage == CompletePercentage then Run(Ok(p), [request])
        else
          var rest := PollRun(pollUrl, polls[1..]);
          Run(rest.outcome, [request] + rest.requests)
  }

  /** `n` progress requests to the poll URL. */
  function Posts(pollUrl: Url, n: nat): (r: seq<Request>)
    ensures |r| == n && forall k :: 0 <= k < n ==> r[k] == Post(pollUrl, map[])
  {
    if n == 0 then [] else Posts(pollUrl, n - 1) + [Post(pollUrl, map[])]
  }

  /** The poll ends at the first reply that stops it, after exactly one
      request per reply up to and including that one: with that progress if
      it reached 100 percent, with its error otherwise. */
  lemma {:induction false} PollStopsAtFirstStop(pollUrl: Url, polls: seq<PollReply>, k: nat)
    requires k < |polls| && Stops(polls[k])
    requires forall j :: 0 <= j < k ==> !Stops(polls[j])
    ensures PollRun(pollUrl, polls).requests == Posts(pollUrl, k + 1)
    ensures PollRun(pollUrl, polls).outcome == match polls[k]
      case Posted(p) => Ok(p)
      case PostFailed(e) => Err([e])
      case Undecodable(e) => Err([e])
    decreases k
  {
    if k > 0 {
      forall j | 0 <= j < k - 1 ensures !Stops(polls[1..][j]) {
        assert polls[1..][j] == polls[j + 1];
      }
      PollStopsAtFirstStop(pollUrl, polls[1..], k - 1);
      assert !Stops(polls[0]);
      PostsCons(pollUrl, k);
    }
  }

  /** Replies that never stop the poll leave it unterminated after one
      request each. */
  lemma {:induction false} PollExhausted(pollUrl: Url, polls: seq<PollReply>)
    requires forall j :: 0 <= j < |polls| ==> !Stops(polls[j])
    ensures PollRun(pollUrl, polls) == Run(Unterminated, Posts(pollUrl, |polls|))
    decreases |polls|
  {
    if polls != [] {
      forall j | 0 <= j < |polls| - 1 ensures !Stops(polls[1..][j]) {
        assert polls[1..][j] == polls[j + 1];
      }
      PollExhausted(pollUrl, polls[1..]);
      assert !Stops(polls[0]);
      PostsCons(pollUrl, |polls| - 1);
    }
  }

  lemma PostsCons(pollUrl: Url, n: nat)
    ensures [Post(pollUrl, map[])] + Posts(pollUrl, n) == Posts(pollUrl, n + 1)
  {
    var a, b := [Post(pollUrl, map[])] + Posts(pollUrl, n), Posts(pollUrl, n + 1);
    assert |a| == |b|;
    forall k | 0 <= k < |a| ensures a[k] == b[k] {
    }
  }

  /** Progress 10, 50, 100 ends the poll after exactly three requests; a
      fourth reply is never asked for. */
  lemma PollThreeSteps(pollUrl: Url, late: PollReply)
    ensures var polls := [Posted(Progress(true, 10, "")), Posted(Progress(true, 50, "")), Posted(Progress(true, 100, "")), late];
      PollRun(pollUrl, polls) == Run(Ok(Progress(true, 100, "")), Posts(pollUrl, 3))
  {
    var polls := [Posted(Progress(true, 10, "")), Posted(Progress(true, 50, "")), Posted(Progress(true, 100, "")), late];
    PollStopsAtFirstStop(pollUrl, polls, 2);
  }

  /** The progress loop. */
  method PollProgress(pollUrl: Url, polls: seq<PollReply>) returns (r: Outcome<Progress>, requests: seq<Request>)
    ensures Run(r, requests) == PollRun(pollUrl, polls)
  {
    requests := [];
    var i := 0;
    while i < |polls|
      invariant 0 <= i <= |polls|
      invariant forall j :: 0 <= j < i ==> !Stops(polls[j])
      invariant requests == Posts(pollUrl, i)
    {
      requests := requests + [Post(pollUrl, map[])];
      match polls[i]
      case PostFailed(e) =>
        PollStopsAtFirstStop(pollUrl, polls, i);
        return Err([e]), requests;
      case Undecodable(e) =>
        PollStopsAtFirstStop(pollUrl, polls, i);
        return Err([e]), requests;
      case Posted(p) =>
        if p.percentage == CompletePercentage {
          PollStopsAtFirstStop(pollUrl, polls, i);
          return Ok(p), requests;
        }
      i := i + 1;
    }
    PollExhausted(pollUrl, polls);
    return Unterminated, requests;
  }

  // ------------------------------------------------------------ getRecords()

  /** getRecords(): start the CSV export, follow its Location to the batch
      URL, poll it with op=do, finish it with op=finished, and request the
      download URL built from the root and the finish reply's Location. The
      status codes of these replies are never looked at. */
  function ExportRun(root: ParsedUrl, queryId: string, s: Server): Run<Response>
  {
    if root.BadUrl? then Run(Err(["failed to parse root URL", root.reason]), [])
    else
      var r0 := [Get(ExportUrl(root.url, queryId))];
      match s.exportReply
      case TransportFailure(e) => Run(Err(["failed to export query", e]), r0)
      case Response(_, batchLocation) =>
        match batchLocation
        case BadUrl(e) => Run(Err(["failed to parse batch URL", e]), r0)
        case Parsed(batch) =>
          var r1 := r0 + [Get(batch)];
          if s.batchReply.TransportFailure? then Run(Err(["failed to start export batch", s.batchReply.reason]), r1)
          else
            var pollUrl := SetParam(batch, OpParam, "do");
            var poll := PollRun(pollUrl, s.polls);
            var r2 := r1 + poll.requests;
            if !poll.outcome.Ok? then Run(Wrap("failed to get status on export batch", poll.outcome), r2)
            else
              var r3 := r2 + [Get(SetParam(pollUrl, OpParam, "finished"))];
              match s.finishReply
              case TransportFailure(e) => Run(Err(["failed to finish export batch", e]), r3)
              case Response(_, finalLocation) =>
                match finalLocation
                case BadUrl(e) => Run(Err(["failed to parse export result URL", e]), r3)
                case Parsed(final) =>
                  var r4 := r3 + [Get(DownloadUrl(root.url, final))];
                  if s.downloadReply.TransportFailure? then Run(Err(["failed to finish export batch", s.downloadReply.reason]), r4)
                  else Run(Ok(s.downloadReply), r4)
  }

  method GetRecords(root: ParsedUrl, queryId: string, s: Server) returns (r: Outcome<Response>, requests: seq<Request>)
    ensures Run(r, requests) == ExportRun(root, queryId, s)
  {
    if root.BadUrl? {
      return Err(["failed to parse root URL", root.reason]), [];
    }
    requests := [Get(ExportUrl(root.url, queryId))];
    if s.exportReply.TransportFailure? {
      return Err(["failed to export query", s.exportReply.reason]), requests;
    }
    if s.exportReply.location.BadUrl? {
      return Err(["failed to parse batch URL", s.exportReply.location.reason]), requests;
    }
    var batchUrl := s.exportReply.location.url;
    requests := requests + [Get(batchUrl)];
    if s.batchReply.TransportFailure? {
      return Err(["failed to start export batch", s.batchReply.reason]), requests;
    }
    batchUrl := SetParam(batchUrl, OpParam, "do");
    var progress, polled := PollProgress(batchUrl, s.polls);
    requests := requests + polled;
    if !progress.Ok? {
      return Wrap("failed to get status on export batch", progress), requests;
    }
    batchUrl := SetParam(batchUrl, OpParam, "finished");
    requests := requests + [Get(batchUrl)];
    if s.finishReply.TransportFailure? {
      return Err(["failed to finish export batch", s.finishReply.reason]), requests;
    }
    if s.finishReply.location.BadUrl? {
      return Err(["failed to parse export result URL", s.finishReply.location.reason]), requests;
    }
    var downloadUrl := DownloadUrl(root.url, s.finishReply.location.url);
    requests := requests + [Get(downloadUrl)];
    if s.downloadReply.TransportFailure? {
      return Err(["failed to finish export batch", s.downloadReply.reason]), requests;
    }
    return Ok(s.downloadReply), requests;
  }

  /** Two replies that differ at most in their status code. */
  predicate SameButStatus(a: Response, b: Response)
  {
    if a.TransportFailure? then b == a else b.Response? && b.location == a.location
  }

  /** The export never depends on the status codes of its replies. */
  lemma ExportIgnoresStatuses(root: ParsedUrl, queryId: string, s: Server, t: Server)
    requires SameButStatus(s.exportReply, t.exportReply) && SameButStatus(s.batchReply, t.batchReply)
    requires SameButStatus(s.finishReply, t.finishReply) && s.polls == t.polls
    requires s.downloadReply.TransportFailure? <==> t.downloadReply.TransportFailure?
    requires s.downloadReply.TransportFailure? ==> s.downloadReply == t.downloadReply
    ensures ExportRun(root, queryId, s).requests == ExportRun(root, queryId, t).requests
    ensures ExportRun(root, queryId, s).outcome.Ok? <==> ExportRun(root, queryId, t).outcome.Ok?
    ensures !ExportRun(root, queryId, s).outcome.Ok? ==> ExportRun(root, queryId, s) == ExportRun(root, queryId, t)
  {
  }

  /** The requests of an export that gets through its poll: the export URL,
      the batch URL, one progress post per reply up to the first at 100
      percent, all to the batch URL with op set to "do", the batch URL with op
      set to "finished", and the download URL, whose path is the root's with
      "export-finished/download" joined on and whose query is the finish
      reply's Location's. */
  lemma ExportRequests(root: Url, queryId: string, s: Server, batch: Url, final: Url, k: nat)
    requires s.exportReply.Response? && s.exportReply.location == Parsed(batch) && s.batchReply.Response?
    requires k < |s.polls| && s.polls[k].Posted? && s.polls[k].progress.percentage == CompletePercentage
    requires forall j :: 0 <= j < k ==> !Stops(s.polls[j])
    requires s.finishReply.Response? && s.finishReply.location == Parsed(final)
    ensures var run := ExportRun(Parsed(root), queryId, s);
      && run.requests == [Get(ExportUrl(root, queryId)), Get(batch)]
                         + Posts(SetParam(batch, OpParam, "do"), k + 1)
                         + [Get(SetParam(batch, OpParam, "finished")), Get(DownloadUrl(root, final))]
      && run.outcome == (if s.downloadReply.TransportFailure? then Err(["failed to finish export batch", s.downloadReply.reason])
                         else Ok(s.downloadReply))
    ensures DownloadUrl(root, final).path == root.path + ["export-finished", "download"]
    ensures DownloadUrl(root, final).query == final.query && DownloadUrl(root, final).origin == root.origin
  {
    PollStopsAtFirstStop(SetParam(batch, OpParam, "do"), s.polls, k);
    SetParamTwice(batch, OpParam, "do", "finished");
    assert ["export-finished", "download"][1..] == ["download"];
    assert ["download"][1..] == [];
  }

  // ------------------------------------------------- getIncidentCoordinates()

  /** getIncidentCoordinates(): fetch root/query/<id>/map, take the capture
      of the first match of the map pattern and decode it as a coordinate
      table. No match makes the indexing panic. */
  function CoordinatesRun(root: ParsedUrl, queryId: string, s: Server): Run<seq<Coordinate>>
  {
    if root.BadUrl? then Run(Err(["failed to parse root URL", root.reason]), [])
    else
      var requests := [Get(MapUrl(root.url, queryId))];
      if s.mapReply.TransportFailure? then Run(Err(["failed to get map", s.mapReply.reason]), requests)
      else if s.mapReadFailure.Some? then Run(Err(["failed to read body", s.mapReadFailure.value]), requests)
      else if s.captures == [] then Run(Panic("index out of range"), requests)
      else Run(DecodeRecords(Text.Split(s.captures[0], RecordSeparator)), requests)
  }

  method GetIncidentCoordinates(root: ParsedUrl, queryId: string, s: Server)
    returns (r: Outcome<seq<Coordinate>>, requests: seq<Request>)
    ensures Run(r, requests) == CoordinatesRun(root, queryId, s)
  {
    if root.BadUrl? {
      return Err(["failed to parse root URL", root.reason]), [];
    }
    requests := [Get(MapUrl(root.url, queryId))];
    if s.mapReply.TransportFailure? {
      return Err(["failed to get map", s.mapReply.reason]), requests;
    }
    if s.mapReadFailure.Some? {
      return Err(["failed to read body", s.mapReadFailure.value]), requests;
    }
    if s.captures == [] {
      return Panic("index out of range"), requests;
    }
    r := DecodeTable(s.captures[0]);
  }

  /** A map page whose first capture is a rendered table of coordinates
      yields exactly those coordinates. */
  lemma CoordinatesOfRenderedTable(root: Url, queryId: string, s: Server, cs: seq<Coordinate>)
    requires s.mapReply.Response? && s.mapReadFailure.None?
    requires |s.captures| > 0 && s.captures[0] == RenderTable(cs)
    requires |cs| > 0 && forall k :: 0 <= k < |cs| ==> Renderable(cs[k])
    ensures CoordinatesRun(Parsed(root), queryId, s) == Run(Ok(cs), [Get(MapUrl(root, queryId))])
  {
    TableRoundTrip(cs);
  }

  // ---------------------------------------------------------- QueryIncidents

  /** parseIncidentRecords: the decoded rows, or the decoder's error under
      "failed to unmarshal incidents". */
  function ParseIncidentRecords(csv: CsvDecoding): (r: Outcome<seq<IncidentRecord>>)
    ensures r.Ok? <==> csv.Decoded?
    ensures r.Ok? ==> r.value == csv.records
    ensures !r.Ok? ==> r == Err(["failed to unmarshal incidents", csv.reason])
  {
    match csv
    case Decoded(records) => Ok(records)
    case Malformed(e) => Err(["failed to unmarshal incidents", e])
  }

  /** mergeIncidentResults as a value. */
  function Merge(incidents: seq<IncidentRecord>, coordinates: seq<Coordinate>, dateSeconds: string -> int): seq<Incident>
  {
    seq(|incidents|, i requires 0 <= i < |incidents| =>
      Fuse(incidents[i], LastCoordinate(coordinates, incidents[i].incidentId), dateSeconds))
  }

  /** Everything QueryIncidents does after query() returned `queryId`. */
  function IncidentsAfterQuery(root: ParsedUrl, queryId: string, s: Server, dateSeconds: string -> int): Run<seq<Incident>>
  {
    var exported := ExportRun(root, queryId, s);
    if !exported.outcome.Ok? then Run(Wrap("failed to get records", exported.outcome), exported.requests)
    else
      var parsed := ParseIncidentRecords(s.csv);
      if !parsed.Ok? then Run(Wrap("failed to parse incidents", parsed), exported.requests)
      else
        var coords := CoordinatesRun(root, queryId, s);
        var requests := exported.requests + coords.requests;
        if !coords.outcome.Ok? then Run(Wrap("failed to get coordinates", coords.outcome), requests)
        else Run(Ok(Merge(parsed.value, coords.outcome.value, dateSeconds)), requests)
  }

  /** QueryIncidents: the caller's options with the incidents results type
      appended go to query(); its ID, whatever it is, drives the rest. */
  function IncidentsRun(root: ParsedUrl, queryId: string, opts: seq<Options.QueryOption>, s: Server, dateSeconds: string -> int): Run<seq<Incident>>
  {
    var query := QueryRun(root, queryId, Options.IncidentQueryOptions(opts), s.queryReply);
    if !query.outcome.Ok? then Run(Wrap("failed to start query", query.outcome), query.requests)
    else
      var rest := IncidentsAfterQuery(root, query.outcome.value, s, dateSeconds);
      Run(rest.outcome, query.requests + rest.requests)
  }

  method QueryIncidents(root: ParsedUrl, queryId: string, opts: seq<Options.QueryOption>, s: Server, dateSeconds: string -> int)
    returns (r: Outcome<seq<Incident>>, requests: seq<Request>)
    ensures Run(r, requests) == IncidentsRun(root, queryId, opts, s, dateSeconds)
  {
    var id, queried := Query(root, queryId, Options.IncidentQueryOptions(opts), s.queryReply);
    requests := queried;
    if !id.Ok? {
      return Wrap("failed to start query", id), requests;
    }
    var reader, exported := GetRecords(root, id.value, s);
    requests := requests + exported;
    if !reader.Ok? {
      return Wrap("failed to get records", reader), requests;
    }
    var incidents := ParseIncidentRecords(s.csv);
    if !incidents.Ok? {
      return Wrap("failed to parse incidents", incidents), requests;
    }
    var coordinates, mapped := GetIncidentCoordinates(root, id.value, s);
    requests := requests + mapped;
    if !coordinates.Ok? {
      return Wrap("failed to get coordinates", coordinates), requests;
    }
    var merged := MergeIncidentResults(incidents.value, coordinates.value, dateSeconds);
    assert merged == Merge(incidents.value, coordinates.value, dateSeconds);
    return Ok(merged), requests;
  }

  /** The first request of QueryIncidents posts the caller's options with
      "incidents" as the last results type. */
  lemma IncidentsQueryForm(root: Url, queryId: string, opts: seq<Options.QueryOption>, s: Server, dateSeconds: string -> int)
    ensures var run := IncidentsRun(Parsed(root), queryId, opts, s, dateSeconds);
      && |run.requests| >= 1
      && run.requests[0] == Post(QueryUrl(root), Options.BuildForm(queryId, Options.IncidentQueryOptions(opts)))
      && var vs := ValuesOf(run.requests[0].form, Options.ResultsTypeKey);
         |vs| >= 1 && vs[|vs| - 1] == "incidents"
  {
    Options.IncidentQueryResultsType(queryId, opts);
  }

  /** A query answered with a status other than 302 does not stop
      QueryIncidents: it goes on with the empty query ID, exporting from
      root/query/export-csv. */
  lemma IncidentsAfterUnexpectedStatus(root: Url, queryId: string, opts: seq<Options.QueryOption>, s: Server, dateSeconds: string -> int)
    requires s.queryReply.Response? && s.queryReply.status != 302
    ensures var run := IncidentsRun(Parsed(root), queryId, opts, s, dateSeconds);
      && run.outcome == IncidentsAfterQuery(Parsed(root), "", s, dateSeconds).outcome
      && |run.requests| >= 2
      && run.requests[1] == Get(root.(path := root.path + ["query", "export-csv"]))
  {
    var query := QueryRun(Parsed(root), queryId, Options.IncidentQueryOptions(opts), s.queryReply);
    assert query.outcome == Ok("") && |query.requests| == 1;
    AfterQueryStartsWithExport(root, "", s, dateSeconds);
    Urls.JoinThree(root.path, "query", "", "export-csv");
  }

  /** Whatever follows query(), its first request is the export of the query. */
  lemma AfterQueryStartsWithExport(root: Url, queryId: string, s: Server, dateSeconds: string -> int)
    ensures var rest := IncidentsAfterQuery(Parsed(root), queryId, s, dateSeconds);
      |rest.requests| >= 1 && rest.requests[0] == Get(ExportUrl(root, queryId))
  {
    var exported := ExportRun(Parsed(root), queryId, s);
    assert |exported.requests| >= 1 && exported.requests[0] == Get(ExportUrl(root, queryId));
  }

  /** A successful QueryIncidents returns one incident per exported record,
      in order, each copying its record. */
  lemma IncidentsMatchRecords(root: ParsedUrl, queryId: string, opts: seq<Options.QueryOption>, s: Server, dateSeconds: string -> int)
    requires IncidentsRun(root, queryId, opts, s, dateSeconds).outcome.Ok?
    ensures var incidents := IncidentsRun(root, queryId, opts, s, dateSeconds).outcome.value;
      && s.csv.Decoded? && |incidents| == |s.csv.records|
      && forall i :: 0 <= i < |incidents| ==> CopiesRecord(incidents[i], s.csv.records[i], dateSeconds)
  {
    var query := QueryRun(root, queryId, Options.IncidentQueryOptions(opts), s.queryReply);
    var coords := CoordinatesRun(root, query.outcome.value, s);
    var incidents := IncidentsRun(root, queryId, opts, s, dateSeconds).outcome.value;
    forall i | 0 <= i < |incidents| ensures CopiesRecord(incidents[i], s.csv.records[i], dateSeconds) {
      FusedIncident(s.csv.records[i], coords.outcome.value, dateSeconds);
    }
  }
}
