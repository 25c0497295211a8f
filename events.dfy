/** The events endpoints with typed parameters (events.go): the omit-empty
    query builders for the JSON and GeoJSON endpoints, and the request
    functions that return the raw body. */
module Events {
  import opened Wrappers
  import opened NetUrl
  import opened Transport
  import opened Endpoints
  import Fmt

  /** `EventsQueryParameters`: every filter is optional; the empty string and
      the count 0 mean "not given". */
  datatype EventsQueryParameters = EventsQueryParameters(
    source: string,
    status: string,
    limit: Fmt.Uint,
    days: Fmt.Uint,
    start: string,
    end: string,
    magID: string,
    magMin: string,
    magMax: string,
    bbox: string)

  /** The record with no filter given. */
  const NoParameters := EventsQueryParameters("", "", 0, 0, "", "", "", "", "", "")

  /** The ten steps of the omit-empty builders, in their order: a string filter
      is set when non-empty, a count when positive (in decimal), and the end of
      the date range only together with its start. */
  function Filters(p: EventsQueryParameters): seq<SetStep> {
    [ SetStep("source", p.source != "", p.source),
      SetStep("status", p.status != "", p.status),
      SetStep("limit", p.limit > 0, Fmt.Sprint(p.limit)),
      SetStep("days", p.days > 0, Fmt.Sprint(p.days)),
      SetStep("start", p.start != "", p.start),
      SetStep("end", p.start != "" && p.end != "", p.end),
      SetStep("magID", p.magID != "", p.magID),
      SetStep("magMin", p.magMin != "", p.magMin),
      SetStep("magMax", p.magMax != "", p.magMax),
      SetStep("bbox", p.bbox != "", p.bbox) ]
  }

  /** The query both omit-empty builders produce. */
  function OmitEmptyQuery(p: EventsQueryParameters): Query {
    Apply(Filters(p))
  }

  function EventsUrl(p: EventsQueryParameters): Url {
    Url(Scheme, Host, EventsPath, OmitEmptyQuery(p))
  }

  function GeoJsonEventsUrl(p: EventsQueryParameters): Url {
    Url(Scheme, Host, GeoJsonEventsPath, OmitEmptyQuery(p))
  }

  /** The step the omit-empty builders repeat for each filter:
      `if <filter given> { q.Set(key, value) }`. */
  method SetIfGiven(q: Query, given: bool, key: string, value: string) returns (q': Query)
    ensures q' == SetIf(q, SetStep(key, given, value))
  {
    q' := q;
    if given {
      q' := Set(q', key, value);
    }
  }

  /** `createEventsApiUrl` of events.go: the events path, with only the filters given. */
  method CreateEventsApiUrl(query: EventsQueryParameters) returns (u: Url)
    ensures u == EventsUrl(query)
  {
    ghost var steps := Filters(query);
    var q: Query := map[];
    q := SetIfGiven(q, query.source != "", "source", query.source);
    q := SetIfGiven(q, query.status != "", "status", query.status);
    q := SetIfGiven(q, query.limit > 0, "limit", Fmt.Sprint(query.limit));
    q := SetIfGiven(q, query.days > 0, "days", Fmt.Sprint(query.days));
    q := SetIfGiven(q, query.start != "", "start", query.start);
    q := SetIfGiven(q, query.start != "" && query.end != "", "end", query.end);
    q := SetIfGiven(q, query.magID != "", "magID", query.magID);
    q := SetIfGiven(q, query.magMin != "", "magMin", query.magMin);
    q := SetIfGiven(q, query.magMax != "", "magMax", query.magMax);
    q := SetIfGiven(q, query.bbox != "", "bbox", query.bbox);
    ApplyTen(steps);
    u := Url(Scheme, Host, EventsPath, q);
  }

  /** `createGeoJsonEventsApiUrl` of events.go: the same filters on the GeoJSON path. */
  method CreateGeoJsonEventsApiUrl(query: EventsQueryParameters) returns (u: Url)
    ensures u == GeoJsonEventsUrl(query)
  {
    ghost var steps := Filters(query);
    var q: Query := map[];
    q := SetIfGiven(q, query.source != "", "source", query.source);
    q := SetIfGiven(q, query.status != "", "status", query.status);
    q := SetIfGiven(q, query.limit > 0, "limit", Fmt.Sprint(query.limit));
    q := SetIfGiven(q, query.days > 0, "days", Fmt.Sprint(query.days));
    q := SetIfGiven(q, query.start != "", "start", query.start);
    q := SetIfGiven(q, query.start != "" && query.end != "", "end", query.end);
    q := SetIfGiven(q, query.magID != "", "magID", query.magID);
    q := SetIfGiven(q, query.magMin != "", "magMin", query.magMin);
    q := SetIfGiven(q, query.magMax != "", "magMax", query.magMax);
    q := SetIfGiven(q, query.bbox != "", "bbox", query.bbox);
    ApplyTen(steps);
    u := Url(Scheme, Host, GeoJsonEventsPath, q);
  }

  /** `GetEvents`: requests the events URL; a transport error comes back
      unchanged with no bytes, otherwise the body comes back untouched. */
  method GetEvents(query: EventsQueryParameters, fetch: Fetch) returns (data: seq<byte>, err: Option<Error>)
    ensures fetch(EventsUrl(query)).err.Some? ==> data == [] && err == fetch(EventsUrl(query)).err
    ensures fetch(EventsUrl(query)).err.None? ==> data == fetch(EventsUrl(query)).body && err == None
  {
    var url := CreateEventsApiUrl(query);
    var response := fetch(url);
    if response.err.Some? {
      return [], response.err;
    }
    return response.body, None;
  }

  /** `GetGeoJsonEvents`: the same pass-through on the GeoJSON URL. */
  method GetGeoJsonEvents(query: EventsQueryParameters, fetch: Fetch) returns (data: seq<byte>, err: Option<Error>)
    ensures fetch(GeoJsonEventsUrl(query)).err.Some? ==> data == [] && err == fetch(GeoJsonEventsUrl(query)).err
    ensures fetch(GeoJsonEventsUrl(query)).err.None? ==> data == fetch(GeoJsonEventsUrl(query)).body && err == None
  {
    var url := CreateGeoJsonEventsApiUrl(query);
    var response := fetch(url);
    if response.err.Some? {
      return [], response.err;
    }
    return response.body, None;
  }

  // ---------------------------------------------------------------------
  // What the omit-empty query promises

  /** The ten filters set ten different keys, so no step overwrites another. */
  lemma FiltersDistinct(p: EventsQueryParameters)
    ensures DistinctKeys(Filters(p))
  {
  }

  /** A string filter is sent exactly when it is non-empty, verbatim. */
  lemma StringFiltersSent(p: EventsQueryParameters)
    ensures SentIff(OmitEmptyQuery(p), "source", p.source != "", p.source)
    ensures SentIff(OmitEmptyQuery(p), "status", p.status != "", p.status)
    ensures SentIff(OmitEmptyQuery(p), "magID", p.magID != "", p.magID)
    ensures SentIff(OmitEmptyQuery(p), "magMin", p.magMin != "", p.magMin)
    ensures SentIff(OmitEmptyQuery(p), "magMax", p.magMax != "", p.magMax)
    ensures SentIff(OmitEmptyQuery(p), "bbox", p.bbox != "", p.bbox)
  {
    FiltersDistinct(p);
    ApplySent(Filters(p), 0);
    ApplySent(Filters(p), 1);
    ApplySent(Filters(p), 6);
    ApplySent(Filters(p), 7);
    ApplySent(Filters(p), 8);
    ApplySent(Filters(p), 9);
  }

  /** A count is sent exactly when it is positive, as its decimal notation. */
  lemma CountFiltersSent(p: EventsQueryParameters)
    ensures SentIff(OmitEmptyQuery(p), "limit", p.limit > 0, Fmt.Sprint(p.limit))
    ensures SentIff(OmitEmptyQuery(p), "days", p.days > 0, Fmt.Sprint(p.days))
    ensures "limit" in OmitEmptyQuery(p) ==> Fmt.ParseDecimal(OmitEmptyQuery(p)["limit"][0]) == p.limit
    ensures "days" in OmitEmptyQuery(p) ==> Fmt.ParseDecimal(OmitEmptyQuery(p)["days"][0]) == p.days
  {
    FiltersDistinct(p);
    ApplySent(Filters(p), 2);
    ApplySent(Filters(p), 3);
    Fmt.SprintRoundTrip(p.limit);
    Fmt.SprintRoundTrip(p.days);
  }

  /** `start` is sent exactly when given; `end` only when both ends are given,
      so an end without a start is dropped. */
  lemma DateRangeSent(p: EventsQueryParameters)
    ensures SentIff(OmitEmptyQuery(p), "start", p.start != "", p.start)
    ensures SentIff(OmitEmptyQuery(p), "end", p.start != "" && p.end != "", p.end)
  {
    FiltersDistinct(p);
    ApplySent(Filters(p), 4);
    ApplySent(Filters(p), 5);
  }

  /** Only the ten filter keys occur, each with exactly one value. */
  lemma OmitEmptyQueryShape(p: EventsQueryParameters)
    ensures OmitEmptyQuery(p).Keys <= EventsKeys
    ensures SingleValued(OmitEmptyQuery(p))
  {
    ApplyShape(Filters(p));
  }

  /** With no filter given the query is empty, on the plain events path. */
  lemma NoParametersNoQuery()
    ensures EventsUrl(NoParameters) == Url("https", "eonet.sci.gsfc.nasa.gov", "/api/v3/events", map[])
  {
    ApplyShape(Filters(NoParameters));
  }

  /** The GeoJSON URL carries the same query as the events URL; only the path differs. */
  lemma GeoJsonSameQuery(p: EventsQueryParameters)
    ensures GeoJsonEventsUrl(p).query == EventsUrl(p).query
    ensures GeoJsonEventsUrl(p).path == "/api/v3/events/geojson" && EventsUrl(p).path == "/api/v3/events"
  {
  }
}
