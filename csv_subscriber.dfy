/**
 * The CSV response subscriber of custom_csv_export: it registers the `csv`
 * request format and, on responses of CSV views, names the download through
 * the Content-Disposition header.
 *
 * Loading the view and its display is represented by the display options the
 * lookup yields (none when there is no such display); the current date is a
 * parameter, already formatted as Y-m-d.
 */
module CsvSubscriber {
  import opened Php

  /** The current route: its name (e.g. "view.customers.customers_export"). */
  datatype RouteMatch = RouteMatch(routeName: string)

  /** The parts of a views display's options that are consulted. */
  datatype DisplayOptions = DisplayOptions(
    styleType: Option<string>,   // display_options.style.type
    csvFormat: Option<string>)   // display_options.style.options.formats.csv

  /** Only routes named `view.<...>` are views routes. */
  predicate IsViewsRoute(route: RouteMatch)
  {
    Split(route.routeName, '.')[0] == "view"
  }

  /**
   * `routeIsCsvExport`: a views route whose display is rendered by the
   * serializer style with the csv format enabled.
   */
  predicate RouteIsCsvExport(route: Option<RouteMatch>, display: Option<DisplayOptions>)
  {
    route.Some? && IsViewsRoute(route.value) &&
    display.Some? && display.value.styleType == Some("serializer") && display.value.csvFormat == Some("csv")
  }

  /** Without a current route nothing is a CSV export. */
  lemma NoRouteIsNotCsv(display: Option<DisplayOptions>)
    ensures !RouteIsCsvExport(None, display)
  {
  }

  /** A route name whose first "."-segment is not "view" is never a CSV export, whatever the display says. */
  lemma OtherRoutesAreNotCsv(first: string, rest: string, display: Option<DisplayOptions>)
    requires '.' !in first && first != "view"
    ensures !RouteIsCsvExport(Some(RouteMatch(first + "." + rest)), display)
  {
    assert first + "." + rest == first + ['.'] + rest;
    SplitFirstPiece(first, '.', rest);
  }

  /** On a views route the answer is exactly: style serializer and csv format csv, both present. */
  lemma ViewsRouteCsvIff(rest: string, display: Option<DisplayOptions>)
    ensures RouteIsCsvExport(Some(RouteMatch("view." + rest)), display) <==>
            display.Some? && display.value.styleType == Some("serializer") && display.value.csvFormat == Some("csv")
  {
    assert "view." + rest == "view" + ['.'] + rest;
    SplitFirstPiece("view", '.', rest);
  }

  /**
   * The download name for a request path: every "/export/" removed,
   * "unknown" when what is left is empty (in PHP's sense), then "-", the
   * date and ".csv".
   */
  function Filename(path: string, today: string): (name: string)
    ensures |name| >= 4 && name[|name| - 4..] == ".csv"
    ensures IsEmptyString(RemoveAll(path, "/export/")) ==> name == "unknown-" + today + ".csv"
    ensures !IsEmptyString(RemoveAll(path, "/export/")) ==> name == RemoveAll(path, "/export/") + "-" + today + ".csv"
  {
    var stripped := RemoveAll(path, "/export/");
    var base := if IsEmptyString(stripped) then "unknown" else stripped;
    base + "-" + today + ".csv"
  }

  /** "/export/customers" downloads as "customers-<date>.csv". */
  lemma FilenameOfExportPath(name: string, today: string)
    requires !OccursIn("/export/", name) && !IsEmptyString(name)
    ensures Filename("/export/" + name, today) == name + "-" + today + ".csv"
  {
    RemoveAllLeading("/export/", name);
    RemoveAllAbsent(name, "/export/");
  }

  /** A path with nothing left after the removal, and a path that leaves "0", both download as "unknown". */
  lemma FilenameUnknown(today: string)
    ensures Filename("/export/", today) == "unknown-" + today + ".csv"
    ensures Filename("/export/0", today) == "unknown-" + today + ".csv"
  {
    RemoveAllLeading("/export/", "");
    assert "/export/" + "" == "/export/";
    RemoveAllLeading("/export/", "0");
  }

  /** The Content-Disposition value for a download name. */
  function ContentDisposition(filename: string): string
  {
    "attachment; filename=\"" + filename + "\""
  }

  /**
   * `onRespond`: the response's headers after the subscriber has run. Only
   * CSV exports get a Content-Disposition header; other responses keep
   * their headers.
   */
  function OnRespond(route: Option<RouteMatch>, display: Option<DisplayOptions>, pathInfo: string, today: string,
                     headers: map<string, string>): (result: map<string, string>)
    ensures RouteIsCsvExport(route, display) ==>
              "Content-Disposition" in result && result["Content-Disposition"] == ContentDisposition(Filename(pathInfo, today))
    ensures !RouteIsCsvExport(route, display) ==> result == headers
    ensures forall h :: h in headers && h != "Content-Disposition" ==> h in result && result[h] == headers[h]
    ensures result.Keys <= headers.Keys + {"Content-Disposition"}
  {
    if RouteIsCsvExport(route, display) then
      headers["Content-Disposition" := ContentDisposition(Filename(pathInfo, today))]
    else headers
  }

  /** `onKernelRequest`: every request knows the `csv` format as text/csv, and its other formats stay. */
  function OnKernelRequest(formats: map<string, seq<string>>): (result: map<string, seq<string>>)
    ensures "csv" in result && result["csv"] == ["text/csv"]
    ensures forall f :: f in formats && f != "csv" ==> f in result && result[f] == formats[f]
    ensures result.Keys == formats.Keys + {"csv"}
  {
    formats["csv" := ["text/csv"]]
  }
}
