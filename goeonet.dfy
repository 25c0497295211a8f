/** The simplified API functions of goeonet.go: the legacy events and
    categories query builders, the shared request-and-decode step, and the
    date-checking `GetEventsByDate`. */
module Goeonet {
  import opened Wrappers
  import opened NetUrl
  import opened Transport
  import opened Endpoints
  import Events

  // ---------------------------------------------------------------------
  // The decoded records

  datatype Category = Category(id: string, title: string, link: string, description: string, layers: string)

  datatype Source = Source(id: string, title: string, source: string, link: string)

  /** Mirrors the package's `Sources` type; no modelled function returns it. */
  datatype Sources = Sources(title: string, description: string, link: string, sources: seq<Source>)

  datatype EventSource = EventSource(id: string, url: string)

  /** A geometry; its coordinates are the rows `Coordinates.UnmarshalJSON` produces. */
  datatype Geometry = Geometry(
    magnitudeValue: real,
    magnitudeUnit: string,
    date: string,
    kind: string,
    coordinates: seq<seq<real>>)

  datatype Event = Event(
    id: string,
    title: string,
    description: string,
    link: string,
    closed: string,
    categories: seq<Category>,
    sources: seq<EventSource>,
    geometrics: seq<Geometry>)

  /** The response envelope; which list is filled depends on the endpoint. */
  datatype Collection = Collection(
    title: string,
    description: string,
    link: string,
    events: seq<Event>,
    categories: seq<Category>,
    sources: seq<Source>)

  /** JSON decoding of a response body into a Collection, or its error. */
  type Decode = seq<byte> -> Result<Collection, Error>

  /** Go's `(*Collection, error)`: a collection, or nil and an error. */
  datatype CollectionResponse = CollectionResponse(collection: Option<Collection>, err: Option<Error>)

  function Failed(e: Error): CollectionResponse {
    CollectionResponse(None, Some(e))
  }

  // ---------------------------------------------------------------------
  // The legacy query records and builders

  /** `eventsQuery`: every field is a string and the builder sends it as is. */
  datatype EventsQuery = EventsQuery(
    source: string,
    status: string,
    limit: string,
    days: string,
    start: string,
    end: string,
    magID: string,
    magMin: string,
    magMax: string,
    bbox: string)

  /** `categoriesQuery`: the category id goes into the path, the rest into the query. */
  datatype CategoriesQuery = CategoriesQuery(
    category: string,
    source: string,
    status: string,
    limit: string,
    days: string)

  /** The legacy query with no filter given. */
  const NoQuery := EventsQuery("", "", "", "", "", "", "", "", "", "")

  /** The ten steps of the legacy events builder, in its order: every filter is
      set even when empty, except that the date range is set, both ends
      together, only when the start is non-empty. */
  function LegacySteps(q: EventsQuery): seq<SetStep> {
    [ SetStep("source", true, q.source),
      SetStep("status", true, q.status),
      SetStep("limit", true, q.limit),
      SetStep("days", true, q.days),
      SetStep("start", q.start != "", q.start),
      SetStep("end", q.start != "", q.end),
      SetStep("magID", true, q.magID),
      SetStep("magMin", true, q.magMin),
      SetStep("magMax", true, q.magMax),
      SetStep("bbox", true, q.bbox) ]
  }

  function LegacyEventsQuery(q: EventsQuery): Query {
    Apply(LegacySteps(q))
  }

  function LegacyEventsUrl(q: EventsQuery): Url {
    Url(Scheme, Host, EventsPath, LegacyEventsQuery(q))
  }

  /** `createEventsApiUrl` of goeonet.go (a different function from the
      omit-empty builder of the same name in events.go). */
  method CreateEventsApiUrl(query: EventsQuery) returns (u: Url)
    ensures u == LegacyEventsUrl(query)
  {
    var q: Query := map[];
    q := Set(q, "source", query.source);
    q := Set(q, "status", query.status);
    q := Set(q, "limit", query.limit);
    q := Set(q, "days", query.days);
    if query.start != "" {
      q := Set(q, "start", query.start);
      q := Set(q, "end", query.end);
    }
    q := Set(q, "magID", query.magID);
    q := Set(q, "magMin", query.magMin);
    q := Set(q, "magMax", query.magMax);
    q := Set(q, "bbox", query.bbox);
    ApplyTen(LegacySteps(query));
    u := Url(Scheme, Host, EventsPath, q);
  }

  function CategoriesSteps(q: CategoriesQuery): seq<SetStep> {
    [ SetStep("source", true, q.source),
      SetStep("status", true, q.status),
      SetStep("limit", true, q.limit),
      SetStep("days", true, q.days) ]
  }

  function CategoriesUrl(q: CategoriesQuery): Url {
    Url(Scheme, Host, CategoriesPathPrefix + q.category, Apply(CategoriesSteps(q)))
  }

  /** `createCategoriesApiUrl`: the category id is appended to the path. */
  method CreateCategoriesApiUrl(query: CategoriesQuery) returns (u: Url)
    ensures u == CategoriesUrl(query)
  {
    ghost var steps := CategoriesSteps(query);
    var q: Query := map[];
    q := Set(q, "source", query.source);
    q := Set(q, "status", query.status);
    q := Set(q, "limit", query.limit);
    q := Set(q, "days", query.days);
    assert steps[..0] == [];
    ApplyPrefix(steps, 0);
    ApplyPrefix(steps, 1);
    ApplyPrefix(steps, 2);
    ApplyPrefix(steps, 3);
    assert steps[..4] == steps;
    u := Url(Scheme, Host, CategoriesPathPrefix + query.category, q);
  }

  // ---------------------------------------------------------------------
  // Requests

  /** `queryEventsApi`: GET the URL and decode the body. A transport or decode
      error is returned with no collection; otherwise the decoded collection
      with no error. */
  function QueryEventsApi(url: Url, fetch: Fetch, decode: Decode): (r: CollectionResponse)
    ensures r.collection.Some? <==> r.err.None?
    ensures fetch(url).err.Some? ==> r.err == fetch(url).err
    ensures fetch(url).err.None? && decode(fetch(url).body).Err? ==>
      r.err == Some(decode(fetch(url).body).error)
    ensures r.collection.Some? ==>
      fetch(url).err.None? && decode(fetch(url).body) == Ok(r.collection.value)
    ensures fetch(url).err.None? && decode(fetch(url).body).Ok? ==>
      r == CollectionResponse(Some(decode(fetch(url).body).value), None)
  {
    var response := fetch(url);
    if response.err.Some? then Failed(response.err.value)
    else
      match decode(response.body)
      case Err(e) => Failed(e)
      case Ok(c) => CollectionResponse(Some(c), None)
  }

  const StartingDateInvalid := Error("the starting date is invalid")
  const EndingDateInvalid := Error("the ending date is invalid")

  /** The query `GetEventsByDate` sends: the two dates and nothing else. */
  function DateRange(startDate: string, endDate: string): EventsQuery {
    EventsQuery("", "", "", "", startDate, endDate, "", "", "", "")
  }

  /** `GetEventsByDate`, with `isValidDate` (a `time.Parse` against the
      layout 2006-01-02) left abstract. The start date is checked first; an
      empty end date is not checked at all; a failed check returns its error
      before any URL is built or request sent. */
  function GetEventsByDate(startDate: string, endDate: string, isValidDate: string -> bool,
                           fetch: Fetch, decode: Decode): (r: CollectionResponse)
    ensures !isValidDate(startDate) ==> r == Failed(StartingDateInvalid)
    ensures isValidDate(startDate) && endDate != "" && !isValidDate(endDate) ==>
      r == Failed(EndingDateInvalid)
    ensures isValidDate(startDate) && (endDate == "" || isValidDate(endDate)) ==>
      r == QueryEventsApi(LegacyEventsUrl(DateRange(startDate, endDate)), fetch, decode)
  {
    if !isValidDate(startDate) then
      Failed(StartingDateInvalid)
    else if endDate != "" && !isValidDate(endDate) then
      Failed(EndingDateInvalid)
    else
      QueryEventsApi(LegacyEventsUrl(DateRange(startDate, endDate)), fetch, decode)
  }

  // ---------------------------------------------------------------------
  // What the legacy builders promise

  lemma LegacyStepsDistinct(q: EventsQuery)
    ensures DistinctKeys(LegacySteps(q))
  {
  }

  /** Every filter outside the date range is always sent, with its value even when empty. */
  lemma {:induction false} LegacyAlwaysSent(q: EventsQuery)
    ensures SentIff(LegacyEventsQuery(q), "source", true, q.source)
    ensures SentIff(LegacyEventsQuery(q), "status", true, q.status)
    ensures SentIff(LegacyEventsQuery(q), "limit", true, q.limit)
    ensures SentIff(LegacyEventsQuery(q), "days", true, q.days)
    ensures SentIff(LegacyEventsQuery(q), "magID", true, q.magID)
    ensures SentIff(LegacyEventsQuery(q), "magMin", true, q.magMin)
    ensures SentIff(LegacyEventsQuery(q), "magMax", true, q.magMax)
    ensures SentIff(LegacyEventsQuery(q), "bbox", true, q.bbox)
  {
    LegacyStepsDistinct(q);
    ApplySent(LegacySteps(q), 0);
    ApplySent(LegacySteps(q), 1);
    ApplySent(LegacySteps(q), 2);
    ApplySent(LegacySteps(q), 3);
    ApplySent(LegacySteps(q), 6);
    ApplySent(LegacySteps(q), 7);
    ApplySent(LegacySteps(q), 8);
    ApplySent(LegacySteps(q), 9);
  }

  /** `start` and `end` are both sent exactly when the start is non-empty,
      and then `end` is sent even when it is empty. */
  lemma {:induction false} LegacyDateRange(q: EventsQuery)
    ensures SentIff(LegacyEventsQuery(q), "start", q.start != "", q.start)
    ensures SentIff(LegacyEventsQuery(q), "end", q.start != "", q.end)
  {
    LegacyStepsDistinct(q);
    ApplySent(LegacySteps(q), 4);
    ApplySent(LegacySteps(q), 5);
  }

  /** Only the ten filter keys occur, each with exactly one value. */
  lemma {:induction false} LegacyShape(q: EventsQuery)
    ensures LegacyEventsQuery(q).Keys <= EventsKeys
    ensures SingleValued(LegacyEventsQuery(q))
  {
    ApplyShape(LegacySteps(q));
  }

  /** With only a limit of 5, the legacy query still names the other seven
      filters, each with an empty value. */
  lemma {:induction false} LegacyLimitFive()
    ensures LegacyEventsQuery(EventsQuery("", "", "5", "", "", "", "", "", "", "")) ==
      map["source" := [""], "status" := [""], "limit" := ["5"], "days" := [""],
          "magID" := [""], "magMin" := [""], "magMax" := [""], "bbox" := [""]]
  {
    ApplyTen(LegacySteps(EventsQuery("", "", "5", "", "", "", "", "", "", "")));
  }

  /** The two builders named `createEventsApiUrl` differ: with nothing given,
      the legacy one still sends `source` (empty) while the omit-empty one
      sends nothing. */
  lemma {:induction false} BuildersDiffer()
    ensures "source" in LegacyEventsQuery(NoQuery)
    ensures Events.OmitEmptyQuery(Events.NoParameters) == map[]
  {
    LegacyAlwaysSent(NoQuery);
    Events.NoParametersNoQuery();
  }

  /** The category id forms the path after `/api/v3/categories/` and never
      reaches the query, which always holds the four filters. */
  lemma {:induction false} CategoriesShape(q: CategoriesQuery, other: string)
    ensures CategoriesUrl(q).path == "/api/v3/categories/" + q.category
    ensures CategoriesUrl(q).query.Keys == CategoriesKeys
    ensures SentIff(CategoriesUrl(q).query, "source", true, q.source)
    ensures SentIff(CategoriesUrl(q).query, "status", true, q.status)
    ensures SentIff(CategoriesUrl(q).query, "limit", true, q.limit)
    ensures SentIff(CategoriesUrl(q).query, "days", true, q.days)
    ensures CategoriesUrl(q.(category := other)).query == CategoriesUrl(q).query
  {
    var steps := CategoriesSteps(q);
    assert DistinctKeys(steps);
    ApplySent(steps, 0);
    ApplySent(steps, 1);
    ApplySent(steps, 2);
    ApplySent(steps, 3);
    ApplyShape(steps);
    assert CategoriesSteps(q.(category := other)) == steps;
  }

  // ---------------------------------------------------------------------
  // What GetEventsByDate promises

  /** A date that fails the check stops the call before any request: the
      result is the same whatever the transport and the decoder do. */
  lemma InvalidDatesSendNothing(startDate: string, endDate: string, isValidDate: string -> bool,
                                fetch1: Fetch, decode1: Decode, fetch2: Fetch, decode2: Decode)
    requires !isValidDate(startDate) || (endDate != "" && !isValidDate(endDate))
    ensures GetEventsByDate(startDate, endDate, isValidDate, fetch1, decode1)
         == GetEventsByDate(startDate, endDate, isValidDate, fetch2, decode2)
    ensures GetEventsByDate(startDate, endDate, isValidDate, fetch1, decode1).collection == None
  {
  }

  /** With a valid non-empty start the request carries `start` and `end`
      (the latter possibly empty), and every other filter empty. */
  lemma {:induction false} DateRangeRequest(startDate: string, endDate: string)
    requires startDate != ""
    ensures SentIff(LegacyEventsQuery(DateRange(startDate, endDate)), "start", true, startDate)
    ensures SentIff(LegacyEventsQuery(DateRange(startDate, endDate)), "end", true, endDate)
    ensures forall k :: k in LegacyEventsQuery(DateRange(startDate, endDate)) && k !in DateKeys ==>
      LegacyEventsQuery(DateRange(startDate, endDate))[k] == [""]
  {
    var q := DateRange(startDate, endDate);
    LegacyDateRange(q);
    LegacyAlwaysSent(q);
    LegacyShape(q);
  }

  /** A transport error reaches the caller of GetEventsByDate unchanged. */
  lemma TransportErrorPassesThrough(startDate: string, endDate: string, isValidDate: string -> bool,
                                    fetch: Fetch, decode: Decode)
    requires isValidDate(startDate) && (endDate == "" || isValidDate(endDate))
    requires fetch(LegacyEventsUrl(DateRange(startDate, endDate))).err.Some?
    ensures GetEventsByDate(startDate, endDate, isValidDate, fetch, decode)
         == Failed(fetch(LegacyEventsUrl(DateRange(startDate, endDate))).err.value)
  {
  }
}
