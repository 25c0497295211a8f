/** The fixed parts of the EONET URLs the query builders produce. */
module Endpoints {

  const Scheme := "https"
  const Host := "eonet.sci.gsfc.nasa.gov"
  const EventsPath := "/api/v3/events"
  const GeoJsonEventsPath := "/api/v3/events/geojson"
  /** Category-scoped requests append the category id to this path. */
  const CategoriesPathPrefix := "/api/v3/categories/"

  /** The query keys the events endpoints accept. */
  const EventsKeys: set<string> :=
    {"source", "status", "limit", "days", "start", "end", "magID", "magMin", "magMax", "bbox"}

  /** The two keys of the date range. */
  const DateKeys: set<string> := {"start", "end"}

  /** The query keys the category-scoped builder sets. */
  const CategoriesKeys: set<string> := {"source", "status", "limit", "days"}
}
