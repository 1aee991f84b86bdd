/**
 * A stops.txt record (class Stop) and its export. PHP keeps every field as a
 * public attribute that starts as null; here each is an Option<string>. No
 * field is validated: location_type, wheelchair_boarding, stop_lat and
 * stop_lon are opaque strings like the rest.
 */
module StopModel {
  import opened Wrappers
  import opened Rows

  datatype Stop = Stop(
    stop_id: Option<string>,
    stop_code: Option<string>,
    stop_name: Option<string>,
    stop_desc: Option<string>,
    stop_lat: Option<string>,
    stop_lon: Option<string>,
    zone_id: Option<string>,
    stop_url: Option<string>,
    location_type: Option<string>,
    parent_station: Option<string>,
    stop_timezone: Option<string>,
    wheelchair_boarding: Option<string>,
    level_id: Option<string>,
    platform_code: Option<string>)

  /** The stops.txt columns in the order the export emits them. */
  const StopColumns: seq<string> := [
    "stop_id", "stop_code", "stop_name", "stop_desc", "stop_lat", "stop_lon",
    "zone_id", "stop_url", "location_type", "parent_station", "stop_timezone",
    "wheelchair_boarding", "level_id", "platform_code"]

  /** `new Stop()`: every field is declared with the initialiser null. */
  function NewStop(): (s: Stop)
    ensures AllUnset(ToArray(s))
    ensures s == FromRow([])
  {
    Stop(None, None, None, None, None, None, None, None, None, None, None, None, None, None)
  }

  /** __toArray(): one entry per field, in the fixed stops.txt column order. */
  function ToArray(s: Stop): (r: Row)
    ensures |r| == 14
    ensures Keys(r) == StopColumns
  {
    [ ("stop_id", s.stop_id),
      ("stop_code", s.stop_code),
      ("stop_name", s.stop_name),
      ("stop_desc", s.stop_desc),
      ("stop_lat", s.stop_lat),
      ("stop_lon", s.stop_lon),
      ("zone_id", s.zone_id),
      ("stop_url", s.stop_url),
      ("location_type", s.location_type),
      ("parent_station", s.parent_station),
      ("stop_timezone", s.stop_timezone),
      ("wheelchair_boarding", s.wheelchair_boarding),
      ("level_id", s.level_id),
      ("platform_code", s.platform_code) ]
  }

  /**
   * Rebuilds a Stop from an exported row by reading each column by name;
   * a missing column reads as unset.
   */
  function FromRow(row: Row): (s: Stop) {
    Stop(
      FieldOf(row, "stop_id"),
      FieldOf(row, "stop_code"),
      FieldOf(row, "stop_name"),
      FieldOf(row, "stop_desc"),
      FieldOf(row, "stop_lat"),
      FieldOf(row, "stop_lon"),
      FieldOf(row, "zone_id"),
      FieldOf(row, "stop_url"),
      FieldOf(row, "location_type"),
      FieldOf(row, "parent_station"),
      FieldOf(row, "stop_timezone"),
      FieldOf(row, "wheelchair_boarding"),
      FieldOf(row, "level_id"),
      FieldOf(row, "platform_code"))
  }

  /** The export's column names are pairwise distinct. */
  lemma StopColumnsDistinct()
    ensures Distinct(StopColumns)
  {
  }

  /** Reading any column of the export by name gives exactly that field, unset included. */
  lemma ExportedFields(s: Stop)
    ensures var r := ToArray(s);
      FieldOf(r, "stop_id") == s.stop_id &&
      FieldOf(r, "stop_code") == s.stop_code &&
      FieldOf(r, "stop_name") == s.stop_name &&
      FieldOf(r, "stop_desc") == s.stop_desc &&
      FieldOf(r, "stop_lat") == s.stop_lat &&
      FieldOf(r, "stop_lon") == s.stop_lon &&
      FieldOf(r, "zone_id") == s.zone_id &&
      FieldOf(r, "stop_url") == s.stop_url &&
      FieldOf(r, "location_type") == s.location_type &&
      FieldOf(r, "parent_station") == s.parent_station &&
      FieldOf(r, "stop_timezone") == s.stop_timezone &&
      FieldOf(r, "wheelchair_boarding") == s.wheelchair_boarding &&
      FieldOf(r, "level_id") == s.level_id &&
      FieldOf(r, "platform_code") == s.platform_code
  {
    var r := ToArray(s);
    StopColumnsDistinct();
    LookupAt(r, 0); LookupAt(r, 1); LookupAt(r, 2); LookupAt(r, 3);
    LookupAt(r, 4); LookupAt(r, 5); LookupAt(r, 6); LookupAt(r, 7);
    LookupAt(r, 8); LookupAt(r, 9); LookupAt(r, 10); LookupAt(r, 11);
    LookupAt(r, 12); LookupAt(r, 13);
  }

  /** Rebuilding a Stop from its export gives back the original. */
  lemma StopRoundTrip(s: Stop)
    ensures FromRow(ToArray(s)) == s
  {
    ExportedFields(s);
  }

  /** Export loses no information: equal exports come from equal Stops. */
  lemma StopExportInjective(a: Stop, b: Stop)
    requires ToArray(a) == ToArray(b)
    ensures a == b
  {
    StopRoundTrip(a);
    StopRoundTrip(b);
  }

  /**
   * No validation: an out-of-range location_type or wheelchair_boarding and
   * a missing stop_name are exported as stored.
   */
  lemma StopExportUnvalidated(s: Stop, locationType: string, wheelchair: string)
    ensures var t := s.(location_type := Some(locationType),
                        wheelchair_boarding := Some(wheelchair),
                        stop_name := None);
      var r := ToArray(t);
      FieldOf(r, "location_type") == Some(locationType) &&
      FieldOf(r, "wheelchair_boarding") == Some(wheelchair) &&
      FieldOf(r, "stop_name") == None
  {
    ExportedFields(s.(location_type := Some(locationType),
                      wheelchair_boarding := Some(wheelchair),
                      stop_name := None));
  }
}
