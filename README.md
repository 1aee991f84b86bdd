# GTFS Schedule records and the shapes lookup, in Dafny

This project models two parts of a PHP library that loads GTFS Schedule
feeds. The library turns the rows of a feed into typed records and keeps them
in collections.

- **Record export.** `Stop` (stops.txt), `Route` (routes.txt) and
  `CalendarDate` (calendar_dates.txt) are flat bags of public fields. Each field is
  either unset (PHP `null`) or holds a value. `__toArray()` turns a record into
  an ordered key => value list with that file's fixed column order. Here each
  record is a datatype whose fields are `Option<string>`, where `None` means unset.
  `ToArray` returns a `Row`, a `seq<(string, Option<string>)>`.
  None of the modelled files defines an inverse of `__toArray()`. Filling a
  record from a row belongs to the loader, which is I/O and left out. The
  model adds `FromRow`, which rebuilds a record by reading each column by
  name. It is used to prove that export loses no information.
- **Shape existence.** The `Shapes` collection holds shape points in
  insertion order. `existsByID` scans them and returns true at the first point whose
  `shape_id` equals the argument. Here it is the class `ShapesCollection.Shapes`
  with a field `items: seq<ShapePoint>` and the method `ExistsById`, a
  `while` loop with an early return. It is proved equal to the predicate `HasShape`.

Files: `wrappers.dfy` (Option), `rows.dfy` (exported rows: `Keys`, `Lookup`,
`FieldOf`, `Distinct`, and the lemma `LookupAt`: in a row with distinct keys,
reading a column by name gives the value stored there), `stop.dfy`,
`route.dfy`, `calendar_date.dfy`, `shapes.dfy`.

## Model

| member | source | states |
|---|---|---|
| StopModel.NewStop | src/model/Stop.php:11-177 | a new Stop exports every one of its columns as unset, and equals the Stop rebuilt from an empty row |
| StopModel.ToArray | src/model/Stop.php:179-196 | the export has exactly 14 entries, and its keys are stop_id, stop_code, stop_name, stop_desc, stop_lat, stop_lon, zone_id, stop_url, location_type, parent_station, stop_timezone, wheelchair_boarding, level_id, platform_code, in that order |
| StopModel.StopColumnsDistinct | src/model/Stop.php:181-194 | the 14 export keys are pairwise distinct |
| StopModel.ExportedFields | src/model/Stop.php:181-194 | reading each column of the export by name gives exactly the matching field, unset included, untransformed |
| StopModel.StopRoundTrip | src/model/Stop.php:179-196 | rebuilding a Stop from its export gives back the original Stop |
| StopModel.StopExportInjective | src/model/Stop.php:179-196 | two Stops with equal exports are equal |
| StopModel.StopExportUnvalidated | src/model/Stop.php:105-192 | any location_type and wheelchair_boarding value (for example 7) and a missing stop_name are exported as stored, with no validation |
| RouteModel.NewRoute | src/model/Route.php:9-68 | a new Route (fields with no initialiser) exports all 9 columns as unset, and equals the Route rebuilt from an empty row |
| RouteModel.ToArray | src/model/Route.php:70-82 | the export has exactly 9 entries with keys route_id, agency_id, route_short_name, route_long_name, route_desc, route_type, route_url, route_color, route_text_color, in that order |
| RouteModel.RouteColumnsDistinct | src/model/Route.php:72-80 | the 9 export keys are pairwise distinct |
| RouteModel.ExportedFields | src/model/Route.php:72-80 | reading each column of the export by name gives exactly the matching field |
| RouteModel.RouteRoundTrip | src/model/Route.php:70-82 | rebuilding a Route from its export gives back the original Route |
| RouteModel.RouteExportInjective | src/model/Route.php:70-82 | two Routes with equal exports are equal |
| RouteModel.RouteTypeUnvalidated | src/model/Route.php:37-77 | any route_type, inside 0..7 or not, is exported as stored |
| CalendarDateModel.NewCalendarDate | src/model/CalendarDate.php:9-25 | a new CalendarDate exports service_id, date and exception_type as unset, and equals the one rebuilt from an empty row |
| CalendarDateModel.ToArray | src/model/CalendarDate.php:27-33 | the export has exactly 3 entries with keys service_id, date, exception_type, in that order |
| CalendarDateModel.CalendarDateColumnsDistinct | src/model/CalendarDate.php:29-31 | the 3 export keys are pairwise distinct |
| CalendarDateModel.ExportedFields | src/model/CalendarDate.php:29-31 | reading each column of the export by name gives exactly the matching field |
| CalendarDateModel.CalendarDateRoundTrip | src/model/CalendarDate.php:27-34 | rebuilding a CalendarDate from its export gives back the original |
| CalendarDateModel.CalendarDateExportInjective | src/model/CalendarDate.php:27-34 | two CalendarDates with equal exports are equal |
| CalendarDateModel.ExceptionTypeUnvalidated | src/model/CalendarDate.php:20-31 | an exception_type outside {1, 2}, such as 0 or 3, is exported as stored and not rejected |
| ShapesCollection.Shapes.constructor | src/gtfs/Shapes.php:4 | the collection holds exactly the given points, in order |
| ShapesCollection.Shapes.ExistsById | src/gtfs/Shapes.php:12-19 | the result is true iff some point's shape_id equals the id, that is, iff the shape has one or more points. On true, the scan stopped at the first match: that point matches and every earlier one differs. On a miss it returns false after scanning every point, with no precondition and no failure. It changes nothing |
| ShapesCollection.EmptyHasNoShape | src/gtfs/Shapes.php:13-18 | on an empty collection no id has a shape, so the lookup is false for every id |
| ShapesCollection.HasShapeMonotonic | src/gtfs/Shapes.php:13-16 | a shape present in a collection stays present when more points are appended |

## Left out

- The `Collection` base class of `Shapes` is not part of this model. So there is no add, iteration or export-all. The constructor only takes the initial points.
- PHP's loose `==` in `existsByID` is not modelled. For example, `"12" == "12.0"` is true in PHP. Here shape ids are strings compared with plain equality.
- ShapePoint keeps only `shape_id`. The class of the points is not part of this model, and no other column takes part in the lookup.
- `stop_lat` and `stop_lon` stay opaque strings. The model does no numeric or geographic reasoning.
- Every field is an opaque `Option<string>`. PHP fields are untyped; a value such as the integer 3 is stored here as the string "3".
- Rules that appear only in doc comments are not implemented by the code, so no contract states them:
  - stop_name, stop_lat and stop_lon being required depending on location_type;
  - parent_station referring to a station;
  - at least one of the two route names;
  - the default colours FFFFFF and 000000;
  - (service_id, date) being unique;
  - the YYYYMMDD date format.
- The `FILENAME` constant and every file, CSV or zip reader are I/O and are left out. This includes the loader step that fills a record from one row of a file; `FromRow` stands in for it only in the round-trip lemmas.
- The namespace roots of Stop (`cookieguru`) and of Route and CalendarDate (`smartilabs`) differ. This has no behavioural effect.
- PHP code sets fields by assigning to public attributes. The model has no setter; a caller writes a datatype update such as `s.(location_type := Some("7"))`. `__toArray()` does not change its record. Here that holds by construction, because `ToArray` is a function on a value.
