# gvaclient in Dafny

This is a model of the Gun Violence Archive client `gvaclient`. The client works in four steps:

- It registers a search by posting a form that it builds from an ordered list of query options.
- It exports the results to CSV through the archive's batch process: start, poll progress until 100 percent, finish, download.
- It reads the incidents' coordinates from the table embedded in the query's map page.
- It joins incidents and coordinates on the incident ID.

The model also covers the command line's comparator flag, which accepts only the four comparator constants.

Modules, one per concern of the source:

| file | module | models |
|---|---|---|
| `outcomes.dfy` | `Outcomes` | Go's `(value, error)` results, `errors.Wrap` contexts, index panics, and a poll that has not finished |
| `text.dfy` | `Text` | `strings.Index`, `strings.Split` and `strings.Join` for a non-empty separator, with the round trips between them |
| `form_values.dfy` | `FormValues` | `url.Values` as `map<string, seq<string>>`; `Add` appends |
| `date_format.dfy` | `DateFormat` | `time.Time.Format("01/02/2006")`, the way the date criterion writes its bounds |
| `query_options.dfy` | `Options` | the `QueryOptions` form as a class whose methods are the option closures; the specification functions and their lemmas |
| `urls.dfy` | `Urls` | URLs with a segment path and a decoded query; `path.Join`; `url.Values.Set` |
| `coordinates.dfy` | `Coordinates` | decoding the coordinate table (records split by two bars, fields by one) |
| `fusion.dfy` | `Fusion` | `mergeIncidentResults` |
| `workflow.dfy` | `Workflow` | `query`, the progress poll, `getRecords`, `getIncidentCoordinates` and `QueryIncidents` |
| `value_comparator.dfy` | `ValueComparator` | the `comparator` flag |

Where the source changes state in place, the model does too:

- The form is a class field that the option methods reassign.
- The progress poll, the coordinate-table loop and the two loops of `mergeIncidentResults` are `while` loops.
- The comparator flag is a class.

Each method is proved against a specification function. The properties the source promises are proved as lemmas about those functions.

The server is an input, the `Workflow.Server` datatype. It holds:

- the reply to each request in the order the client makes them
- the capture groups the map-page pattern matches
- what the CSV decoder makes of the download

Every workflow method returns both its outcome and the list of requests it issued.

A few behaviours of the client worth knowing, all modelled as the code has them:

- The progress requests set the batch URL's `op` parameter to `"do"` (package/gvaclient/query.go:182).
- Only the query registration looks at a status code (the 302 check). The replies to the export, batch start, finish and download requests are used whatever their status; see `Workflow.ExportIgnoresStatuses`.
- A record of the coordinate table is read as latitude, longitude, ID (package/gvaclient/query.go:268), as the code has it.
- A registration answered with a status other than 302 is not an error. `errors.Wrap` of the nil `err` is nil, so `query` returns the empty query ID with no error, and `QueryIncidents` continues with that empty ID.

## Model

| member | source | states |
|---|---|---|
| `FormValues.AddValues` | package/gvaclient/queryOptions.go:29 | `url.Values.Add` appends the value to the key's list, adds the key if it was missing, and leaves every other key unchanged |
| `FormValues.ApplyEntriesAppend` | package/gvaclient/query.go:126-128 | adding two lists of pairs one after the other gives the same form as adding their concatenation |
| `Options.QueryOptions.constructor` | package/gvaclient/query.go:119-125 | the form starts as exactly `query[query_id]`=ID, `form_id`=`gva_entry_query`, `op`=`Search` |
| `Options.QueryOptions.WithAllCriteriaMatching` | package/gvaclient/queryOptions.go:23-31 | the closure changes the form exactly as applying the option's entries |
| `Options.QueryOptions.WithResultType` | package/gvaclient/queryOptions.go:41-45 | the closure changes the form exactly as applying the option's entries |
| `Options.QueryOptions.WithIncidentLocation` | package/gvaclient/queryOptions.go:48-64 | the three fixed `Add`s and the three guarded ones change the form exactly as applying the location entries |
| `Options.QueryOptions.WithIncidentDate` | package/gvaclient/queryOptions.go:77-86 | the five `Add`s change the form exactly as applying the date entries |
| `Options.QueryOptions.Apply` | package/gvaclient/query.go:126-128 | running one option's closure on the form is `ApplyOption` |
| `Options.AllCriteriaMatchingAppends` | package/gvaclient/queryOptions.go:23-31 | `And` is appended for all and `Or` otherwise under `query[base_group][base_group_select]`; no other key changes |
| `Options.ResultTypeAppends` | package/gvaclient/queryOptions.go:41-45 | exactly one value, the type's name, is appended under `query[results_type][select]`; no other key changes |
| `Options.LocationAppends` | package/gvaclient/queryOptions.go:48-64 | the type `IncidentLocation`, weight `0.001` and comparator `is in` are always appended; state, city and county each appear under their own key iff non-empty; there are 3 entries plus one per non-empty argument; every other key is unchanged |
| `Options.LocationFieldAppends` | package/gvaclient/queryOptions.go:48-64 | under each of its own field keys a location criterion appends exactly that field's value (none for an empty state, city or county) |
| `Options.DateAppends` | package/gvaclient/queryOptions.go:77-86 | exactly five entries: type `IncidentDate`, weight `0.001`, the comparator verbatim, and the two formatted dates under date-from and date-to; every other key is unchanged |
| `Options.OptionOnlyAppends` | package/gvaclient/queryOptions.go:23-86 | after any option, every old key is still present and its old value list is a prefix of the new one |
| `Options.OptionsOnlyAppend` | package/gvaclient/query.go:126-128 | the same holds for a whole list of options |
| `Options.ApplyOptionsValues` | package/gvaclient/query.go:126-128 | options apply in list order: each key's values are the old ones followed by every option's values for that key, option after option |
| `Options.CriterionKeyId` | package/gvaclient/queryOptions.go:50-51 | the criterion ID reads back from any key built as `query[filters][<id>]…` |
| `Options.CriterionKeysCarryId` | package/gvaclient/queryOptions.go:50-84 | every key a location or date criterion adds names that criterion's own ID |
| `Options.CriterionKeysDisjoint` | package/gvaclient/queryOptions.go:50-84 | two criteria with different IDs add disjoint key sets |
| `Options.OptionAvoidsSeedKeys` | package/gvaclient/query.go:119-128 | no option adds to the three seeded fields |
| `Options.BuildFormSeeds` | package/gvaclient/query.go:117-128 | the posted form keeps exactly the three seed values under the seed keys, whatever the options |
| `Options.IncidentQueryOptions` | package/gvaclient/query.go:69 | the caller's options come first, then `withResultType("incidents")` as the last option |
| `Options.IncidentQueryResultsType` | package/gvaclient/query.go:69 | the form `QueryIncidents` posts has `incidents` as the last results-type value |
| `DateFormat.AppendIntFits` | package/gvaclient/queryOptions.go:83-84 | a value below 10^width is written as exactly width digits that read back as the value |
| `DateFormat.FormatRoundTrip` | package/gvaclient/queryOptions.go:83-84 | a date with a four-digit year is written as ten characters `MM/DD/YYYY` that parse back to the same date |
| `Text.JoinSplit` | package/gvaclient/query.go:266-267 | joining the pieces of `strings.Split` with the separator gives back the original text |
| `Text.SplitPiecesFree` | package/gvaclient/query.go:266-267 | no piece of a split contains the separator |
| `Text.SplitJoin` | package/gvaclient/query.go:266-267 | splitting a join of separable pieces gives back the pieces |
| `Coordinates.DecodeRecord` | package/gvaclient/query.go:267-284 | a record never fails to terminate; it panics iff it has fewer than three fields; it decodes iff it has three fields and both the longitude and the latitude parse; field 0 becomes the latitude, field 1 the longitude and field 2 the ID; the longitude is checked first; each bad field gives its own error naming the incident |
| `Coordinates.DecodeRecordsOk` | package/gvaclient/query.go:265-287 | the table decodes iff every record does, and then to one coordinate per record, in order |
| `Coordinates.DecodeRecordsFirstFailure` | package/gvaclient/query.go:266-278 | a failing table fails with the failure of its first bad record |
| `Coordinates.DecodeTable` | package/gvaclient/query.go:265-287 | the loop over the records, separated by two bars, computes `DecodeRecords` |
| `Coordinates.TableRoundTrip` | package/gvaclient/query.go:266-268 | rendering a non-empty list of well-formed coordinates as bar-separated lat, lon, id records joined by double bars decodes back to the list |
| `Coordinates.RecordRoundTrip` | package/gvaclient/query.go:267-284 | a well-formed coordinate rendered as lat, lon and id separated by bars decodes back to the same coordinate |
| `Fusion.IndexHoldsLast` | package/gvaclient/query.go:303-306 | the coordinate map holds, for each ID, the last coordinate given for it |
| `Fusion.LastCoordinateWins` | package/gvaclient/query.go:303-306 | an ID has a coordinate iff some input coordinate has it; the chosen one carries the ID and no later coordinate does |
| `Fusion.FusedIncident` | package/gvaclient/query.go:309-325 | an output copies ID, state, city/county, address, killed, injured and operations and converts the date; latitude and longitude are both set iff a coordinate with the ID exists, from the last such coordinate |
| `Fusion.MergeIncidentResults` | package/gvaclient/query.go:302-331 | one output per record, in record order, each joined with the last coordinate for its ID |
| `Urls.JoinPathKeeps` | package/gvaclient/query.go:135 | `path.Join` keeps the base path, then appends every non-empty element as often as it occurs and drops the empty ones |
| `Urls.JoinPathSnoc` | package/gvaclient/query.go:135 | the appended elements keep their order: one more element is appended at the end when it is not empty and changes nothing when it is |
| `Urls.NonEmptyAppend` | package/gvaclient/query.go:135 | dropping the empty elements of two lists one after the other is dropping them from the concatenation |
| `Urls.NonEmptyCounts` | package/gvaclient/query.go:135 | every non-empty element is kept exactly as often as it occurs and no empty element is kept |
| `Urls.JoinThree` | package/gvaclient/query.go:161 | `query/<id>/…` loses the ID segment when the ID is empty |
| `Urls.SetParamEffect` | package/gvaclient/query.go:181-183 | `Set` leaves the key with exactly the new value; every other parameter, the origin and the path are unchanged |
| `Urls.SetParamTwice` | package/gvaclient/query.go:215-217 | setting `op` again overrides the earlier value, so the finish URL is the batch URL with `op=finished` |
| `Workflow.Query` | package/gvaclient/query.go:117-152 | the loop applies the options through the form object and the method computes `QueryRun` |
| `Workflow.QueryPostsForm` | package/gvaclient/query.go:130-141 | with a parseable root, exactly one request is made: a post of `BuildForm` to the root path plus `query`, keeping the root's query |
| `Workflow.UnexpectedStatusIsNotAnError` | package/gvaclient/query.go:147-151 | a status other than 302 yields the empty query ID and no error |
| `Workflow.PollStopsAtFirstStop` | package/gvaclient/query.go:187-207 | the poll ends at the first reply that is at 100 percent or fails, after exactly (its index + 1) posts to the poll URL; the result is that progress or that error |
| `Workflow.PollExhausted` | package/gvaclient/query.go:187-207 | replies that never stop the poll leave it unfinished after one post each |
| `Workflow.PollThreeSteps` | package/gvaclient/query.go:187-207 | progress 10, 50, 100 stops after three requests |
| `Workflow.PollProgress` | package/gvaclient/query.go:187-207 | the poll loop computes `PollRun` |
| `Workflow.GetRecords` | package/gvaclient/query.go:155-242 | the export sequence computes `ExportRun`, with the error context of each step |
| `Workflow.ExportIgnoresStatuses` | package/gvaclient/query.go:163-241 | replies that differ only in status code give the same requests and the same success or failure |
| `Workflow.ExportRequests` | package/gvaclient/query.go:161-237 | requests go, in order, to: the export URL; the batch URL; (first 100 % index + 1) posts to the batch URL with `op=do`; the batch URL with `op=finished`; and the download URL at root path plus `export-finished/download`, carrying the finish Location's query |
| `Workflow.GetIncidentCoordinates` | package/gvaclient/query.go:245-288 | the map request computes `CoordinatesRun`; no pattern match panics |
| `Workflow.CoordinatesOfRenderedTable` | package/gvaclient/query.go:262-287 | a map page whose first capture renders a list of coordinates yields exactly that list from one request |
| `Workflow.QueryIncidents` | package/gvaclient/query.go:68-91 | the whole workflow computes `IncidentsRun`, wrapping each step's error with its context |
| `Workflow.ParseIncidentRecords` | package/gvaclient/query.go:290-299 | succeeds iff the CSV decodes, with exactly the decoded rows; otherwise fails with the decoder's error under `failed to unmarshal incidents` |
| `Workflow.IncidentsQueryForm` | package/gvaclient/query.go:69 | the first request posts the caller's options with `incidents` as the last results type |
| `Workflow.IncidentsAfterUnexpectedStatus` | package/gvaclient/query.go:69-85 | after a non-302 registration, `QueryIncidents` goes on with the empty ID; its second request fetches `root/query/export-csv` |
| `Workflow.AfterQueryStartsWithExport` | package/gvaclient/query.go:74-85 | once a query ID is known, the first request made is the export of `root/query/<id>/export-csv` |
| `Workflow.IncidentsMatchRecords` | package/gvaclient/query.go:80-90 | a successful run returns one incident per decoded CSV record, in order, each copying its record |
| `ValueComparator.Comparator.constructor` | package/cmd/cli/value_comparator.go:10-12 | a fresh flag holds the empty comparator |
| `ValueComparator.Comparator.Set` | package/cmd/cli/value_comparator.go:22-41 | returns no error iff the text is one of the four constants; then stores it, and `Value()` and `String()` return it; otherwise keeps the stored value and returns the refusal message |
| `ValueComparator.Comparator.Value` | package/cmd/cli/value_comparator.go:14-16 | returns the stored comparator |
| `ValueComparator.Comparator.String` | package/cmd/cli/value_comparator.go:18-20 | returns the same text as `Value` |
| `ValueComparator.Comparator.Type` | package/cmd/cli/value_comparator.go:43-45 | always `Comparator` |
| `ValueComparator.SetOnAccepts` | package/cmd/cli/value_comparator.go:22-41 | accepted iff among the four constants; the refusal text is `comparator must be one of: ` and the constants joined by `, ` in the order equal, greater, less, not-equal |
| `ValueComparator.RefusalMessageText` | package/cmd/cli/value_comparator.go:32-39 | the joined message spelled out constant by constant |
| `ValueComparator.SetOnIdempotent` | package/cmd/cli/value_comparator.go:22-30 | setting the same text twice gives the same value and error as setting it once |

## Left out

- HTTP transport is not modelled: the cookie jar, the no-redirect policy, `NewQueryClient` (package/gvaclient/query.go:48-65) and the actual requests. Replies are inputs, and requests are recorded as values.
- Response bodies are never closed, because there is no I/O.
- zap logging is left out.
- `uuid.New` is randomness. The query ID and each criterion's ID are parameters. A criterion ID is assumed to contain no `]`, as a UUID never does.
- `strtotime.Parse` depends on a foreign library and on the current time. It is the parameter `dateSeconds`, and its ignored error is not modelled. `time.Unix(…).UTC()` is kept as the number of seconds.
- `time.Time` is reduced to its calendar fields (`DateFormat.Date`), without location or clock.
- `strconv.ParseFloat` is floating point, so coordinates stay text. A field is accepted when it is an optional sign followed by digits with at most one `.` and at least one digit. Over the characters the map pattern can capture (digits, `+`, `-`, `.` and the bar), this is exactly the set ParseFloat accepts. Two things are not modelled: the range error for values beyond float64, and the exponent, hexadecimal and `Inf` forms, which the pattern cannot capture.
- The map pattern (regexp) is not modelled. Its capture groups, one per match in order, are an input.
- The index panic is reported as `index out of range`, without Go's runtime wording.
- `gocsv.Unmarshal` is a foreign library. Its result (`CsvDecoding`) is an input, and so is the JSON decoding of a progress reply (`PollReply`).
- The `errgroup` goroutine adds nothing, so the poll is modelled as a sequential loop.
- The poll has no bound in the source. The model polls over a finite list of replies, and when the list runs out first, the outcome is `Unterminated`.
- The second parse of the root URL in `getRecords` (package/gvaclient/query.go:229-232) parses the same string as the first, so it cannot fail differently. The model parses the root once.
- URL encoding is not modelled: query strings are their decoded `url.Values`, so percent-encoding and the key order that `Encode` produces are not. `path.Join`'s cleaning of `.`, `..` and slashes inside elements is not modelled either; path elements are plain segments.
- DateFormat.FormatRoundTrip: only dates with years 0 to 9999 are proved to read back. Other years are formatted as the time package does: a year above 9999 as five or more digits with no sign, a year from -9999 to -1 as `-` and exactly four digits, and a year below -9999 as `-` and five or more digits; none of these fit the four-character year field.
- The text of the four comparator constants is defined in a gvaclient file that is not part of this model. They are unnamed string constants here. Their distinctness is not assumed, and no property needs it.
- `Killed`, `Injured` and `Percentage` are unbounded integers; 64-bit overflow is not modelled.
- `package/cmd/cli/query.go`, `main.go` and `version.go`, and `internal/cobraDocs.go`, are command-line and documentation scaffolding and are not part of this model. Their form building repeats what `Options` models.
