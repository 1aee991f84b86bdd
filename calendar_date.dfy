/**
 * A calendar_dates.txt record (class CalendarDate) and its export. The
 * three public attributes start as null; exception_type is not checked
 * against the codes 1 (added) and 2 (removed) and date is not checked to be
 * YYYYMMDD.
 */
module CalendarDateModel {
  import opened Wrappers
  import opened Rows

  datatype CalendarDate = CalendarDate(
    service_id: Option<string>,
    date: Option<string>,
    exception_type: Option<string>)

  /** The calendar_dates.txt columns in the order the export emits them. */
  const CalendarDateColumns: seq<string> := ["service_id", "date", "exception_type"]

  /** `new CalendarDate()`: every field starts as null. */
  function NewCalendarDate(): (c: CalendarDate)
    ensures AllUnset(ToArray(c))
    ensures c == FromRow([])
  {
    CalendarDate(None, None, None)
  }

  /** __toArray(): one entry per field, in the fixed calendar_dates.txt column order. */
  function ToArray(c: CalendarDate): (row: Row)
    ensures |row| == 3
    ensures Keys(row) == CalendarDateColumns
  {
    [ ("service_id", c.service_id),
      ("date", c.date),
      ("exception_type", c.exception_type) ]
  }

  /**
   * Rebuilds a CalendarDate from an exported row by reading each column by
   * name; a missing column reads as unset.
   */
  function FromRow(row: Row): (c: CalendarDate) {
    CalendarDate(
      FieldOf(row, "service_id"),
      FieldOf(row, "date"),
      FieldOf(row, "exception_type"))
  }

  /** The export's column names are pairwise distinct. */
  lemma CalendarDateColumnsDistinct()
    ensures Distinct(CalendarDateColumns)
  {
  }

  /** Reading any column of the export by name gives exactly that field, unset included. */
  lemma ExportedFields(c: CalendarDate)
    ensures var row := ToArray(c);
      FieldOf(row, "service_id") == c.service_id &&
      FieldOf(row, "date") == c.date &&
      FieldOf(row, "exception_type") == c.exception_type
  {
    var row := ToArray(c);
    CalendarDateColumnsDistinct();
    LookupAt(row, 0); LookupAt(row, 1); LookupAt(row, 2);
  }

  /** Rebuilding a CalendarDate from its export gives back the original. */
  lemma CalendarDateRoundTrip(c: CalendarDate)
    ensures FromRow(ToArray(c)) == c
  {
    ExportedFields(c);
  }

  /** Export loses no information: equal exports come from equal CalendarDates. */
  lemma CalendarDateExportInjective(a: CalendarDate, b: CalendarDate)
    requires ToArray(a) == ToArray(b)
    ensures a == b
  {
    CalendarDateRoundTrip(a);
    CalendarDateRoundTrip(b);
  }

  /** No validation: an exception_type outside {1, 2}, such as 0 or 3, is exported as stored. */
  lemma ExceptionTypeUnvalidated(c: CalendarDate, exceptionType: string)
    ensures FieldOf(ToArray(c.(exception_type := Some(exceptionType))), "exception_type")
      == Some(exceptionType)
  {
    ExportedFields(c.(exception_type := Some(exceptionType)));
  }
}
