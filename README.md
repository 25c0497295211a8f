# goeonet in Dafny

A model of goeonet, a Go client for NASA's Earth Observatory Natural Event
Tracker (EONET) API, version 3. It covers the parts of the library that
compute something:

- **Typed events endpoints (events.go).** `createEventsApiUrl` and
  `createGeoJsonEventsApiUrl` build the request URL from
  `EventsQueryParameters`. They send a filter only when it is given: a
  non-empty string, or a positive count rendered with `fmt.Sprint`. `end` is
  sent only together with `start`. `GetEvents` and `GetGeoJsonEvents` pass
  the response body or the transport error through.
- **Legacy builders (goeonet.go).** The older `createEventsApiUrl` sets
  eight filters even when they are empty. It sets the `start`/`end` pair only
  when `start` is non-empty. `createCategoriesApiUrl` puts the category id
  in the path.
- **Requests (goeonet.go).** `queryEventsApi` fetches and decodes, and
  returns either a collection or an error. `GetEventsByDate` checks its
  dates before it builds any request.
- **Coordinate decoder (goeonet.go).** `Coordinates.UnmarshalJSON` does not
  parse JSON. It rewrites the text: it deletes spaces, `],`, `]` and `[[`,
  drops the first character, splits on `[` and then on `,`, and keeps the
  first two fields of each piece as a row of two numbers.

Modules:

- `Wrappers`: Option and Result.
- `Fmt`: `fmt.Sprint` of an unsigned count, and its decimal inverse.
- `NetUrl`: `url.URL` and `url.Values` with `Set`. A builder's run is a
  sequence of conditional `Set` steps, and `Apply` folds them into a query.
- `GoStrings`: `strings.Replace(s, old, "", -1)` and `strings.Split` on one
  character.
- `Transport`: the HTTP GET as a function parameter returning a body and an
  error, as Go's `([]byte, error)` pair does.
- `Endpoints`: the host, paths and filter key sets.
- `Events`: events.go.
- `Goeonet`: the builders, the records and the requests of goeonet.go.
- `CoordinatesJson`: the coordinate decoder.

The query builders are methods. They assign the map step by step, as the
Go code calls `q.Set`. Each is proved equal to `Apply` of its step table.
The lemmas about `Apply` then state which keys are sent, and with what
value. The decoder is a class whose method loops over the pieces and
assigns the receiver's field. It is proved equal to the function `Rows`,
and the shape lemmas are stated on `Rows`.

A reader might expect `[[10.5, 20.1]]` to decode to `[[10.5, 20.1]]`.
The code decodes it to `[[0.5, 20.1]]`: deleting `[[` removes both
brackets, so dropping the first character removes the `1`. The model
follows the code (`NestedRows`, `NestedExample`).

## Model

| member | source | states |
|---|---|---|
| NetUrl.Set | events.go:48-50 | `q.Set(key, v)` leaves `key` with the single value `v`; every other key keeps its presence and its values |
| NetUrl.ApplySent | events.go:47-77 | `Apply` folds a builder's chain of conditional `q.Set` calls into its query. After a run of conditional `Set` steps on distinct keys, a key is present exactly when its step fired, and then holds exactly that step's value |
| NetUrl.ApplyShape | events.go:47-77 | every key of a built query comes from a step that fired, and holds exactly one value |
| Fmt.Sprint | events.go:55 | `fmt.Sprint` of a count is a non-empty string of decimal digits, starting with `0` only for zero |
| Fmt.SprintRoundTrip | events.go:54-59 | reading back the decimal digits `fmt.Sprint` wrote gives the count again |
| Fmt.SprintInjective | events.go:54-59 | different counts are sent as different strings |
| Events.CreateEventsApiUrl | events.go:41-80 | the URL is https, eonet.sci.gsfc.nasa.gov, `/api/v3/events`, and the query built by the ten conditional sets in source order |
| Events.CreateGeoJsonEventsApiUrl | events.go:94-133 | the same on `/api/v3/events/geojson` |
| Events.GetEvents | events.go:30-39 | a transport error is returned unchanged with no bytes; otherwise the body is returned untouched with no error |
| Events.GetGeoJsonEvents | events.go:83-92 | the same pass-through for the GeoJSON URL |
| Events.FiltersDistinct | events.go:47-77 | the ten steps set ten different keys |
| Events.StringFiltersSent | events.go:48-77 | each string filter (source, status, magID, magMin, magMax, bbox) is sent if and only if it is non-empty, with its value verbatim |
| Events.CountFiltersSent | events.go:54-59 | `limit` and `days` are sent if and only if they are positive, as their decimal notation, which reads back to the count |
| Events.DateRangeSent | events.go:60-65 | `start` is sent if and only if it is non-empty; `end` if and only if both `start` and `end` are non-empty |
| Events.OmitEmptyQueryShape | events.go:47-77 | only the ten filter keys can occur, each with one value |
| Events.NoParametersNoQuery | events.go:41-80 | with no filter given, the URL has an empty query on the events path |
| Events.GeoJsonSameQuery | events.go:94-133 | the GeoJSON URL carries the same query as the events URL; only the path differs |
| Goeonet.CreateEventsApiUrl | goeonet.go:188-209 | the legacy URL is https, the host, `/api/v3/events`, and the query of its ten steps in source order |
| Goeonet.LegacyStepsDistinct | goeonet.go:194-206 | the legacy builder's ten steps set ten different keys |
| Goeonet.LegacyAlwaysSent | goeonet.go:194-206 | source, status, limit, days, magID, magMin, magMax and bbox are always sent, with their value even when it is empty |
| Goeonet.LegacyDateRange | goeonet.go:199-202 | `start` and `end` are both sent exactly when `start` is non-empty; `end` is then sent even when empty |
| Goeonet.LegacyShape | goeonet.go:193-207 | only the ten filter keys can occur, each with one value |
| Goeonet.LegacyLimitFive | goeonet.go:188-209 | a query holding only a limit of 5 still sends the seven other non-date filters, empty |
| Goeonet.BuildersDiffer | goeonet.go:194-195 | with nothing given (`NoQuery`), the legacy builder sends `source` while the omit-empty builder of events.go sends nothing |
| Goeonet.CreateCategoriesApiUrl | goeonet.go:270-283 | the URL is https, the host, `/api/v3/categories/` followed by the category id, and a query of the four filters |
| Goeonet.CategoriesShape | goeonet.go:270-283 | the path ends in the category id, the query keys are exactly source, status, limit and days, each with its value, and the query does not depend on the category |
| Goeonet.QueryEventsApi | goeonet.go:173-186 | either a collection and no error, or an error and no collection. A transport error or decode error is returned as is. A successful fetch and decode returns exactly the decoded collection with no error, and any collection returned is that decoding |
| Goeonet.GetEventsByDate | goeonet.go:134-151 | an invalid start date fails with "the starting date is invalid"; otherwise a non-empty invalid end date fails with "the ending date is invalid"; otherwise the result is the request for the legacy query of just the two dates |
| Goeonet.InvalidDatesSendNothing | goeonet.go:135-141 | when a date check fails, no collection comes back and the result does not depend on the transport or the decoder, so no request is made |
| Goeonet.DateRangeRequest | goeonet.go:143 | the date request sends `start` and `end` (even an empty end), and every other filter it sends is empty |
| Goeonet.TransportErrorPassesThrough | goeonet.go:145-148 | once the dates pass, a transport error reaches the caller unchanged |
| CoordinatesJson.ParseOrZero | goeonet.go:57-58 | a token that `ParseFloat` rejects counts as 0; otherwise its value is kept |
| CoordinatesJson.Row | goeonet.go:55-61 | each piece gives a row of exactly two numbers, the first from the field before the first comma and the second from the field after it |
| CoordinatesJson.Rows | goeonet.go:53-63 | one row per `[`-separated piece, each of two numbers |
| CoordinatesJson.Coordinates.UnmarshalJSON | goeonet.go:48-65 | the error is always nil, and the receiver's rows become exactly the rows of the rewritten text |
| CoordinatesJson.PointRows | goeonet.go:48-65 | a point `[x,y]` decodes to the single row `[x, y]` |
| CoordinatesJson.PolygonRows | goeonet.go:48-65 | a one-ring polygon `[[[x1,y1],...,[xn,yn]]]` decodes to its n pairs as rows, in textual order |
| CoordinatesJson.NestedRows | goeonet.go:49-54 | a list of pairs `[[x1,y1],...]` decodes to its pairs, except that `x1` loses its first character |
| CoordinatesJson.NestedExample | goeonet.go:49-54 | `[[10.5,20.1]]` decodes to the row `[0.5, 20.1]` |
| CoordinatesJson.SpacesIgnored | goeonet.go:49 | deleting the spaces beforehand changes nothing: the rewritten text, the decodable inputs and the rows are the same |
| GoStrings.RemoveAllAbsent | goeonet.go:49-52 | `RemoveAll`, which models `strings.Replace(s, pat, "", -1)`, leaves text without the pattern's first character unchanged |
| GoStrings.RemoveAllConcat | goeonet.go:49-52 | deleting a one- or two-character pattern with `RemoveAll` works piece by piece over a concatenation when no occurrence spans the seam |
| GoStrings.RemoveCharGone | goeonet.go:49 | after `RemoveAll` of a single character, none of that character remains |
| GoStrings.RemoveAllChars | goeonet.go:49-52 | `RemoveAll` never brings in a character the text did not hold |
| GoStrings.SplitFirst | goeonet.go:54 | `Split`, which models `strings.Split` on one character, cuts at the first separator and goes on with the rest |
| GoStrings.SplitPresent | goeonet.go:56 | a text holding the separator splits into at least two pieces, so both comma fields exist |
| GoStrings.SplitJoin | goeonet.go:54 | splitting pieces that hold no separator, once joined, gives back those pieces |
| CoordinatesJson.NormaliseChars | goeonet.go:49-52 | `Normalise`, the four deletions in source order, leaves no space and no closing bracket |
| CoordinatesJson.RingNormalise | goeonet.go:49-52 | `Normalise` of a ring of pairs between opening and closing brackets is the open pairs after the opening brackets, with only the `[[` deletion left to apply |
| GoStrings.JoinSplit | goeonet.go:54 | splitting on a character and joining the pieces back gives the text again, and no piece holds the separator |
| GoStrings.RemoveCharIdempotent | goeonet.go:49 | deleting a character twice is the same as deleting it once |

## Left out

- HTTP transport: `sendRequestToEonetApi` (client.go), `sendRequest` (goeonet.go:300-316), the shared client and its 5-second timeout. The GET is a function parameter returning a body and an optional error.
- JSON decoding of `Collection` in `queryEventsApi`: a function parameter returning a collection or an error. The pass-through is stated: an error with no collection, or the decoded collection with no error.
- `isValidDate` (`time.Parse` against the layout 2006-01-02): a predicate parameter, so the lemmas hold for any date check.
- `strconv.ParseFloat`: a function parameter returning a real or nothing. `float64` rounding and the ±Inf returned on a range error are not modelled.
- `url.Values.Encode`, `RawQuery` and `URL.String` (escaping and key ordering in the rendered text): the URL keeps the query as a map.
- `GetRecentOpenEvents`, `GetEventsBySourceID` and `GetEventsByCategoryID`: each calls a modelled builder and then a fetch-and-decode step, with nothing further to state; they are not part of this model.
- `querySourcesApi`, `queryCategoriesApi` and `queryLayersApi` (goeonet.go:220-233, 255-268, 285-298): each is its own copy of `sendRequest` followed by `json.Unmarshal`, the same shape as `QueryEventsApi` on other URLs. `GetSources` and `GetCategories` only call these. None of them is part of this model.
- layers_test.go: exercises the live API over the network and is not part of this model.
- CoordinatesJson.Coordinates.UnmarshalJSON: the Go code panics on an input whose rewritten text is empty or has a piece without a comma; the model requires `Decodable` instead of modelling the panic.
- CoordinatesJson.Coordinates.UnmarshalJSON: reads the bytes as characters one for one, so multi-byte UTF-8 input is not modelled.
- CoordinatesJson.NestedExample: states the example without the space; `SpacesIgnored` carries it over to `[[10.5, 20.1]]`.
- Events.GetEvents, Events.GetGeoJsonEvents: Go returns a nil slice on error; the model returns the empty sequence.
- Goeonet.QueryEventsApi: Go returns a pointer to the collection; the model returns the value.
