/**
 * A routes.txt record (class Route) and its export. The nine public
 * attributes have no initialiser, so PHP starts each at null. route_type is
 * not checked against the codes 0..7 and the colours get no default.
 */
module RouteModel {
  import opened Wrappers
  import opened Rows

  datatype Route = Route(
    route_id: Option<string>,
    agency_id: Option<string>,
    route_short_name: Option<string>,
    route_long_name: Option<string>,
    route_desc: Option<string>,
    route_type: Option<string>,
    route_url: Option<string>,
    route_color: Option<string>,
    route_text_color: Option<string>)

  /** The routes.txt columns in the order the export emits them. */
  const RouteColumns: seq<string> := [
    "route_id", "agency_id", "route_short_name", "route_long_name", "route_desc",
    "route_type", "route_url", "route_color", "route_text_color"]

  /** `new Route()`: every field starts as null. */
  function NewRoute(): (r: Route)
    ensures AllUnset(ToArray(r))
    ensures r == FromRow([])
  {
    Route(None, None, None, None, None, None, None, None, None)
  }

  /** __toArray(): one entry per field, in the fixed routes.txt column order. */
  function ToArray(r: Route): (row: Row)
    ensures |row| == 9
    ensures Keys(row) == RouteColumns
  {
    [ ("route_id", r.route_id),
      ("agency_id", r.agency_id),
      ("route_short_name", r.route_short_name),
      ("route_long_name", r.route_long_name),
      ("route_desc", r.route_desc),
      ("route_type", r.route_type),
      ("route_url", r.route_url),
      ("route_color", r.route_color),
      ("route_text_color", r.route_text_color) ]
  }

  /**
   * Rebuilds a Route from an exported row by reading each column by name;
   * a missing column reads as unset.
   */
  function FromRow(row: Row): (r: Route) {
    Route(
      FieldOf(row, "route_id"),
      FieldOf(row, "agency_id"),
      FieldOf(row, "route_short_name"),
      FieldOf(row, "route_long_name"),
      FieldOf(row, "route_desc"),
      FieldOf(row, "route_type"),
      FieldOf(row, "route_url"),
      FieldOf(row, "route_color"),
      FieldOf(row, "route_text_color"))
  }

  /** The export's column names are pairwise distinct. */
  lemma RouteColumnsDistinct()
    ensures Distinct(RouteColumns)
  {
  }

  /** Reading any column of the export by name gives exactly that field, unset included. */
  lemma ExportedFields(r: Route)
    ensures var row := ToArray(r);
      FieldOf(row, "route_id") == r.route_id &&
      FieldOf(row, "agency_id") == r.agency_id &&
      FieldOf(row, "route_short_name") == r.route_short_name &&
      FieldOf(row, "route_long_name") == r.route_long_name &&
      FieldOf(row, "route_desc") == r.route_desc &&
      FieldOf(row, "route_type") == r.route_type &&
      FieldOf(row, "route_url") == r.route_url &&
      FieldOf(row, "route_color") == r.route_color &&
      FieldOf(row, "route_text_color") == r.route_text_color
  {
    var row := ToArray(r);
    RouteColumnsDistinct();
    LookupAt(row, 0); LookupAt(row, 1); LookupAt(row, 2);
    LookupAt(row, 3); LookupAt(row, 4); LookupAt(row, 5);
    LookupAt(row, 6); LookupAt(row, 7); LookupAt(row, 8);
  }

  /** Rebuilding a Route from its export gives back the original. */
  lemma RouteRoundTrip(r: Route)
    ensures FromRow(ToArray(r)) == r
  {
    ExportedFields(r);
  }

  /** Export loses no information: equal exports come from equal Routes. */
  lemma RouteExportInjective(a: Route, b: Route)
    requires ToArray(a) == ToArray(b)
    ensures a == b
  {
    RouteRoundTrip(a);
    RouteRoundTrip(b);
  }

  /** No validation: any route_type, in 0..7 or not, is exported as stored. */
  lemma RouteTypeUnvalidated(r: Route, routeType: string)
    ensures FieldOf(ToArray(r.(route_type := Some(routeType))), "route_type") == Some(routeType)
  {
    ExportedFields(r.(route_type := Some(routeType)));
  }
}
