/**
 * The confirmation form in front of every CSV export (custom_csv_export's
 * `ExportForm`): the cancel link, the parsing of the route into the listing
 * type and the archive flag, the tables from listing to export type, route,
 * view and display, and the rewrite of a display id into its archive twin.
 *
 * Entity storage (the node type's label), route resolution and the view's
 * row count are inputs; drupal_set_message, the redirect response and the
 * batch API are represented by the values the form hands them.
 */
module ExportForm {
  import opened Php
  import CsvExport

  /** An internal URL with its query arguments. */
  datatype Url = Url(uri: string, query: seq<(string, string)>)

  /** The path of the listing behind an export page: every "/export" removed. */
  function CancelPath(currentPath: string): string
  {
    RemoveAll(currentPath, "/export")
  }

  /** `getCancelUrl`: back to the listing, with the current query arguments. */
  function CancelUrl(currentPath: string, query: seq<(string, string)>): (u: Url)
    ensures u.query == query
    ensures "internal:" <= u.uri && u.uri[|"internal:"|..] == RemoveAll(currentPath, "/export")
  {
    Url("internal:" + CancelPath(currentPath), query)
  }

  /** The export page of a listing cancels back to that listing. */
  lemma CancelReturnsToListing(listing: string)
    requires forall i :: 0 <= i < |listing| ==> !("/export" <= (listing + "/export")[i..])
    ensures CancelPath(listing + "/export") == listing
  {
    RemoveAllKeepsPrefix(listing, "/export", "/export");
    RemoveAllLeading("/export", "");
    assert "/export" + "" == "/export";
  }

  /** The listing type (`$type1`) and the archive flag read from the route name. */
  datatype RouteInfo = RouteInfo(type1: Option<string>, archive: bool)

  /**
   * `$type1` is the second "."-segment of the route name (NULL when there is
   * none); the route is an archive when `strpos($type1, "archive")` is truthy,
   * and then `$type1` is cut at its first "_".
   */
  function ParseRoute(routeName: string): RouteInfo
  {
    var chunks := Split(routeName, '.');
    if |chunks| < 2 then RouteInfo(None, false)
    else if StrposTruthy(chunks[1], "archive") then RouteInfo(Some(Split(chunks[1], '_')[0]), true)
    else RouteInfo(Some(chunks[1]), false)
  }

  /** The route `<prefix>.<segment>...` is read from its type segment alone. */
  lemma ParseRouteSegment(prefix: string, segment: string, rest: seq<string>)
    requires '.' !in prefix && '.' !in segment
    requires forall k :: 0 <= k < |rest| ==> '.' !in rest[k]
    ensures ParseRoute(Join([prefix, segment] + rest, '.')) ==
            if StrposTruthy(segment, "archive") then RouteInfo(Some(Split(segment, '_')[0]), true)
            else RouteInfo(Some(segment), false)
  {
    var parts := [prefix, segment] + rest;
    forall k | 0 <= k < |parts|
      ensures '.' !in parts[k]
    {
      if k >= 2 { assert parts[k] == rest[k - 2]; }
    }
    SplitJoin(parts, '.');
  }

  /** A route whose type segment never mentions "archive" is a plain listing of that type. */
  lemma ParseRoutePlain(prefix: string, segment: string, rest: seq<string>)
    requires '.' !in prefix && '.' !in segment
    requires forall k :: 0 <= k < |rest| ==> '.' !in rest[k]
    requires !OccursIn("archive", segment)
    ensures ParseRoute(Join([prefix, segment] + rest, '.')) == RouteInfo(Some(segment), false)
  {
    ParseRouteSegment(prefix, segment, rest);
  }

  /** An occurrence at some index is an occurrence. */
  lemma {:induction false} OccursAt(pat: string, s: string, i: nat)
    requires i + |pat| <= |s| && pat <= s[i..]
    ensures OccursIn(pat, s)
    decreases i
  {
    if i > 0 {
      assert s[1..][i - 1..] == s[i..];
      OccursAt(pat, s[1..], i - 1);
    } else {
      assert s[0..] == s;
    }
  }

  /** "archive" does not open `<base>_...` when it does not open `<base>`. */
  lemma NotArchivePrefix(base: string, tail: string)
    requires '_' !in base && !("archive" <= base)
    ensures !("archive" <= base + "_" + tail)
  {
    var segment := base + "_" + tail;
    assert segment[|base|] == '_';
    if |base| < 7 {
      assert "archive"[|base|] != segment[|base|];
    } else {
      assert segment[..7] == base[..7];
    }
  }

  /** A segment `<base>_archive...` makes strpos truthy, and its first "_"-piece is `<base>`. */
  lemma ArchiveSegment(base: string, tail: string)
    requires base != [] && '_' !in base && !("archive" <= base)
    ensures StrposTruthy(base + "_archive" + tail, "archive")
    ensures Split(base + "_archive" + tail, '_')[0] == base
  {
    var segment := base + "_archive" + tail;
    assert segment == base + "_" + ("archive" + tail);
    assert segment[|base| + 1..][..7] == "archive";
    OccursAt("archive", segment, |base| + 1);
    NotArchivePrefix(base, "archive" + tail);
    assert base + "_" + ("archive" + tail) == base + ['_'] + ("archive" + tail);
    SplitFirstPiece(base, '_', "archive" + tail);
  }

  /**
   * A route whose type segment is `<base>_archive...` is the archive of
   * `<base>`, provided "archive" does not open the segment (strpos would
   * then answer 0, which PHP reads as false).
   */
  lemma ParseRouteArchive(prefix: string, base: string, tail: string, rest: seq<string>)
    requires '.' !in prefix && '.' !in base && '.' !in tail
    requires forall k :: 0 <= k < |rest| ==> '.' !in rest[k]
    requires base != [] && '_' !in base && !("archive" <= base)
    ensures ParseRoute(Join([prefix, base + "_archive" + tail] + rest, '.')) == RouteInfo(Some(base), true)
  {
    var segment := base + "_archive" + tail;
    assert '.' !in segment;
    ParseRouteSegment(prefix, segment, rest);
    ArchiveSegment(base, tail);
  }

  /** The "archive" at the very start of the type segment is not seen. */
  lemma ArchiveAtStartIsIgnored(prefix: string, tail: string)
    requires '.' !in prefix && '.' !in tail
    ensures ParseRoute(Join([prefix, "archive" + tail], '.')).archive == false
  {
    SplitJoin([prefix, "archive" + tail], '.');
    assert ("archive" + tail)[..7] == "archive";
  }

  /**
   * The export type of a listing and the view display behind its non-batch
   * export, whose route is `view.<view>.<display>`.
   */
  datatype Target = Target(exportType: string, viewId: string, displayId: string)
  {
    function RouteName(): string
    {
      "view." + viewId + "." + displayId
    }
  }

  /** The (`$type1`, `$node_type`) table of `buildForm`; shipping and inventory ignore the node type. */
  function ExportTarget(type1: string, nodeType: Option<string>): Option<Target>
  {
    if type1 == "sales" then
      if nodeType == Some("contracts") then Some(Target("sales_contract", "sales_contracts", "sales_contracts_export"))
      else if nodeType == Some("notes") then Some(Target("memo", "debit_credit_notes", "sales_notes_export"))
      else if nodeType == Some("releases") then Some(Target("release", "releases", "releases_export"))
      else if nodeType == Some("invoicing") then Some(Target("invoice", "invoices", "invoices_export"))
      else if nodeType == Some("customers") then Some(Target("customer", "customers", "customers_export"))
      else if nodeType == Some("truckers") then Some(Target("trucker", "truckers", "truckers_export"))
      else None
    else if type1 == "purchasing" then
      if nodeType == Some("contracts") then Some(Target("purchase_contract", "purchase_contracts", "purchase_contracts_export"))
      else if nodeType == Some("notes") then Some(Target("memo", "debit_credit_notes", "purchasing_notes_export"))
      else if nodeType == Some("suppliers") then Some(Target("supplier", "suppliers", "suppliers_export"))
      else None
    else if type1 == "shipping" then Some(Target("shipment", "shipments", "shipments_export"))
    else if type1 == "inventory" then Some(Target("container", "inventory", "containers_export"))
    else None
  }

  /** The (export type, `$type1`) table of `submitForm`: the view and display the batch exports. */
  function ViewDisplay(exportType: string, type1: string): Option<(string, string)>
  {
    if exportType == "purchase_contract" then Some(("purchase_contracts", "purchase_contracts_export"))
    else if exportType == "supplier" then Some(("suppliers", "suppliers_export"))
    else if exportType == "shipment" then Some(("shipments", "shipments_export"))
    else if exportType == "container" then Some(("inventory", "containers_export"))
    else if exportType == "sales_contract" then Some(("sales_contracts", "sales_contracts_export"))
    else if exportType == "release" then Some(("releases", "releases_export"))
    else if exportType == "invoice" then Some(("invoices", "invoices_export"))
    else if exportType == "customer" then Some(("customers", "customers_export"))
    else if exportType == "trucker" then Some(("truckers", "truckers_export"))
    else if exportType == "memo" then
      if type1 == "purchasing" then Some(("debit_credit_notes", "purchasing_notes_export"))
      else if type1 == "sales" then Some(("debit_credit_notes", "sales_notes_export"))
      else None
    else None
  }

  /** Shipping and inventory listings export the same way whatever the node type. */
  lemma NodeTypeIgnoredForShippingAndInventory(n1: Option<string>, n2: Option<string>)
    ensures ExportTarget("shipping", n1) == ExportTarget("shipping", n2) == Some(Target("shipment", "shipments", "shipments_export"))
    ensures ExportTarget("inventory", n1) == ExportTarget("inventory", n2) == Some(Target("container", "inventory", "containers_export"))
  {
  }

  /**
   * The two tables agree: the route of the plain export is
   * `view.<view>.<display>` for exactly the view and display the archive
   * batch starts from.
   */
  lemma TablesAgree(type1: string, nodeType: Option<string>)
    requires ExportTarget(type1, nodeType).Some?
    ensures var t := ExportTarget(type1, nodeType).value;
            ViewDisplay(t.exportType, type1) == Some((t.viewId, t.displayId))
  {
  }

  /** The human name of the export type: memos get the listing type in front, archives " Archive" behind. */
  function TypeName(exportType: string, type1: string, typeLabel: string, archive: bool): (name: string)
    ensures exportType != "memo" && !archive ==> name == typeLabel
    ensures archive <==> |name| >= |" Archive"| && name[|name| - |" Archive"|..] == " Archive" &&
                         name[..|name| - |" Archive"|] == TypeName(exportType, type1, typeLabel, false)
    ensures exportType == "memo" ==> Ucfirst(type1) + " " + typeLabel <= name
    ensures exportType == "memo" && !archive ==> name == Ucfirst(type1) + " " + typeLabel
  {
    var memoName := if exportType == "memo" then Ucfirst(type1) + " " + typeLabel else typeLabel;
    var name := if archive then memoName + " Archive" else memoName;
    assert archive ==> name[..|name| - |" Archive"|] == memoName;
    name
  }

  /**
   * The URL of the plain (non-batch) export: the route's URL, with "?" and the
   * query string only when the query string is truthy; none for an archive.
   */
  function ActiveExportUrl(archive: bool, routeUrl: string, queryString: string): (url: Option<string>)
    ensures archive <==> url.None?
    ensures !archive && IsEmptyString(queryString) ==> url == Some(routeUrl)
    ensures !archive && !IsEmptyString(queryString) ==> url == Some(routeUrl + "?" + queryString)
  {
    if archive then None
    else if !IsEmptyString(queryString) then Some(routeUrl + "?" + queryString)
    else Some(routeUrl)
  }

  /** The hidden values the form carries to its submit handler. */
  datatype FormValues = FormValues(
    exportType: string,
    exportTypeName: string,
    type1: string,
    archive: bool,
    redirect: string,
    activeExportUrl: Option<string>,
    title: string)

  /** Where `buildForm` would stop with a PHP error. */
  datatype FormError = NoExportType | NoLabel(exportType: string) | NoRoute(routeName: string)

  datatype BuildResult = Built(values: FormValues) | BuildFailed(error: FormError)

  /**
   * `buildForm`: `redirect` is the cancel URL as a string, `queryString` the
   * built query, `labels` the node types' labels, `routeUrls` the URLs the
   * routes resolve to.
   */
  function BuildForm(routeName: string, nodeType: Option<string>, redirect: string, queryString: string,
                     labels: map<string, string>, routeUrls: map<string, string>): (r: BuildResult)
    ensures r.Built? ==> ParseRoute(routeName).type1 == Some(r.values.type1) &&
                         r.values.archive == ParseRoute(routeName).archive &&
                         ExportTarget(r.values.type1, nodeType).Some? &&
                         r.values.exportType == ExportTarget(r.values.type1, nodeType).value.exportType &&
                         r.values.redirect == redirect &&
                         r.values.title == "Export " + r.values.exportTypeName + "s"
    ensures r.Built? ==> r.values.exportType in labels &&
                         r.values.exportTypeName ==
                           TypeName(r.values.exportType, r.values.type1, labels[r.values.exportType], r.values.archive)
    ensures r.Built? && r.values.archive ==> r.values.activeExportUrl.None?
    ensures r.Built? && !r.values.archive ==>
              var route := ExportTarget(r.values.type1, nodeType).value.RouteName();
              route in routeUrls && r.values.activeExportUrl == ActiveExportUrl(false, routeUrls[route], queryString)
    ensures r.BuildFailed? && r.error == NoExportType <==>
              ParseRoute(routeName).type1.None? || ExportTarget(ParseRoute(routeName).type1.value, nodeType).None?
    ensures var route := ParseRoute(routeName);
            r.BuildFailed? && r.error.NoLabel? <==>
              route.type1.Some? && ExportTarget(route.type1.value, nodeType).Some? &&
              ExportTarget(route.type1.value, nodeType).value.exportType !in labels
    ensures var route := ParseRoute(routeName);
            r.BuildFailed? && r.error.NoRoute? <==>
              route.type1.Some? && ExportTarget(route.type1.value, nodeType).Some? &&
              ExportTarget(route.type1.value, nodeType).value.exportType in labels && !route.archive &&
              ExportTarget(route.type1.value, nodeType).value.RouteName() !in routeUrls
  {
    var route := ParseRoute(routeName);
    if route.type1.None? then BuildFailed(NoExportType)
    else
      var type1 := route.type1.value;
      match ExportTarget(type1, nodeType)
      case None => BuildFailed(NoExportType)
      case Some(target) =>
        if target.exportType !in labels then BuildFailed(NoLabel(target.exportType))
        else
          var name := TypeName(target.exportType, type1, labels[target.exportType], route.archive);
          if !route.archive && target.RouteName() !in routeUrls then BuildFailed(NoRoute(target.RouteName()))
          else
            var url := ActiveExportUrl(route.archive, if route.archive then "" else routeUrls[target.RouteName()], queryString);
            Built(FormValues(target.exportType, name, type1, route.archive, redirect, url, "Export " + name + "s"))
  }

  /** Leading "_" characters removed. */
  function TrimUnderscores(s: string): (r: string)
    ensures |r| <= |s| && (r == [] || r[0] != '_')
    ensures s != [] && s[0] != '_' ==> r == s
    decreases |s|
  {
    if s != [] && s[0] == '_' then TrimUnderscores(s[1..]) else s
  }

  /** What is left is a suffix of the display id. */
  lemma {:induction false} TrimIsSuffix(s: string)
    ensures TrimUnderscores(s) == s[|s| - |TrimUnderscores(s)|..]
    decreases |s|
  {
    if s != [] && s[0] == '_' {
      TrimIsSuffix(s[1..]);
      assert s[1..][|s| - 1 - |TrimUnderscores(s)|..] == s[|s| - |TrimUnderscores(s)|..];
    }
  }

  /** Only "_" characters are trimmed. */
  lemma {:induction false} TrimRemovesUnderscores(s: string, k: nat)
    requires k < |s| - |TrimUnderscores(s)|
    ensures s[k] == '_'
    decreases |s|
  {
    if k > 0 {
      TrimRemovesUnderscores(s[1..], k - 1);
    }
  }

  /**
   * The archive twin of a display id: "archive" spliced in before the last
   * "_"-piece. The pieces before it are joined by a loop that drops leading
   * empty pieces, so leading "_" characters vanish; a display id without "_"
   * gets "_archive_" in front.
   */
  function ArchiveDisplayId(displayId: string): string
  {
    if '_' !in displayId then "_archive_" + displayId
    else
      var k := LastIndex(displayId, '_');
      TrimUnderscores(displayId[..k]) + "_archive_" + displayId[k + 1..]
  }

  /** Trimming a concatenation: the right part is trimmed only if the left part trims to nothing. */
  lemma {:induction false} TrimConcat(a: string, b: string)
    ensures TrimUnderscores(a + b) == if TrimUnderscores(a) == "" then TrimUnderscores(b) else TrimUnderscores(a) + b
    decreases |a|
  {
    if a != [] && a[0] == '_' {
      assert (a + b)[1..] == a[1..] + b;
      TrimConcat(a[1..], b);
    } else if a != [] {
      assert (a + b)[0] == a[0];
    } else {
      assert a + b == b;
    }
  }

  /** A piece without "_" has nothing to trim. */
  lemma TrimPiece(x: string)
    requires '_' !in x
    ensures TrimUnderscores(x) == x
  {
    if x != [] {
      assert x[0] in x;
    }
  }

  /** Trimming `<j>_<x>`: the "_" survives unless `j` trims to nothing. */
  lemma TrimAfterSeparator(j: string, x: string)
    requires '_' !in x
    ensures var before := TrimUnderscores(j);
            TrimUnderscores(j + ['_'] + x) == if before == "" then x else before + "_" + x
  {
    var t := "_" + x;
    assert j + ['_'] + x == j + t;
    TrimConcat(j, t);
    assert t[1..] == x;
    TrimPiece(x);
  }

  /** One more piece joined by the loop. */
  lemma TrimJoinSnoc(parts: seq<string>, x: string)
    requires '_' !in x
    ensures var before := TrimUnderscores(Join(parts, '_'));
            TrimUnderscores(Join(parts + [x], '_')) == if before == "" then x else before + "_" + x
  {
    JoinSnoc(parts, x, '_');
    if parts == [] {
      TrimPiece(x);
    } else {
      TrimAfterSeparator(Join(parts, '_'), x);
    }
  }

  /** The same, for the prefixes of a sequence of pieces. */
  lemma TrimJoinStep(parts: seq<string>, i: nat)
    requires i < |parts| && '_' !in parts[i]
    ensures var before := TrimUnderscores(Join(parts[..i], '_'));
            TrimUnderscores(Join(parts[..i + 1], '_')) == if before == "" then parts[i] else before + "_" + parts[i]
  {
    assert parts[..i + 1] == parts[..i] + [parts[i]];
    TrimJoinSnoc(parts[..i], parts[i]);
  }

  /** The archive twin in terms of the "_"-pieces: all but the last joined and trimmed, then "_archive_" and the last. */
  lemma ArchiveDisplayIdOfPieces(displayId: string)
    ensures var chunks := Split(displayId, '_');
            ArchiveDisplayId(displayId) == TrimUnderscores(Join(chunks[..|chunks| - 1], '_')) + "_archive_" + chunks[|chunks| - 1]
  {
    var chunks := Split(displayId, '_');
    var front, last := chunks[..|chunks| - 1], chunks[|chunks| - 1];
    if '_' in displayId {
      var k := LastIndex(displayId, '_');
      SplitAtLast(displayId, '_');
      assert front == Split(displayId[..k], '_') && last == displayId[k + 1..];
      JoinSplit(displayId[..k], '_');
      assert ArchiveDisplayId(displayId) == TrimUnderscores(displayId[..k]) + "_archive_" + displayId[k + 1..];
    } else {
      assert chunks == [displayId];
      assert front == [];
      assert TrimUnderscores(Join(front, '_')) == "";
      assert ArchiveDisplayId(displayId) == "" + "_archive_" + last;
    }
  }

  /** The archive rewrite of `submitForm`: split on "_", pop the last piece, join the rest, add "_archive_" and the last piece. */
  method RewriteArchiveDisplayId(displayId: string) returns (rewritten: string)
    ensures rewritten == ArchiveDisplayId(displayId)
  {
    var chunks := Split(displayId, '_');
    var last := chunks[|chunks| - 1];
    chunks := chunks[..|chunks| - 1];
    rewritten := "";
    for i := 0 to |chunks|
      invariant rewritten == TrimUnderscores(Join(chunks[..i], '_'))
    {
      TrimJoinStep(chunks, i);
      if rewritten == "" {
        rewritten := chunks[i];
      } else {
        rewritten := rewritten + "_" + chunks[i];
      }
    }
    assert chunks[..|chunks|] == chunks;
    ghost var joined := rewritten;
    rewritten := rewritten + "_archive";
    rewritten := rewritten + "_" + last;
    assert rewritten == joined + "_archive_" + last;
    ArchiveDisplayIdOfPieces(displayId);
  }

  /** For a display id that does not begin with "_", "archive" goes in right before the last "_". */
  lemma ArchiveSplicesBeforeLastPiece(prefix: string, last: string)
    requires prefix != [] && prefix[0] != '_' && '_' !in last
    ensures ArchiveDisplayId(prefix + "_" + last) == prefix + "_archive_" + last
  {
    var d := prefix + "_" + last;
    assert d == prefix + ['_'] + last;
    LastIndexSnoc(prefix, last, '_');
    assert d[..|prefix|] == prefix;
    assert d[|prefix| + 1..] == last;
  }

  /** A display id `<prefix>_export` has the archive twin `<prefix>_archive_export`. */
  lemma ArchiveOfExportDisplay(prefix: string)
    requires prefix != [] && prefix[0] != '_'
    ensures ArchiveDisplayId(prefix + "_export") == prefix + "_archive_export"
  {
    assert prefix + "_export" == prefix + "_" + "export";
    ArchiveSplicesBeforeLastPiece(prefix, "export");
    assert prefix + "_archive_" + "export" == prefix + "_archive_export";
  }

  /** The archive of the purchasing notes display is the one the export names "purchase_notes_archive". */
  lemma ArchivePurchasingNotesTitle()
    ensures ArchiveDisplayId("purchasing_notes_export") == "purchasing_notes_archive_export"
    ensures CsvExport.FileTitle("debit_credit_notes", ArchiveDisplayId("purchasing_notes_export"), true) == "purchase_notes_archive"
  {
    assert "purchasing_notes" + "_export" == "purchasing_notes_export";
    assert "purchasing_notes" + "_archive_export" == "purchasing_notes_archive_export";
    ArchiveOfExportDisplay("purchasing_notes");
  }

  /** The archive of the sales notes display is the one the export names "sales_notes_archive". */
  lemma ArchiveSalesNotesTitle()
    ensures ArchiveDisplayId("sales_notes_export") == "sales_notes_archive_export"
    ensures CsvExport.FileTitle("debit_credit_notes", ArchiveDisplayId("sales_notes_export"), true) == "sales_notes_archive"
  {
    assert "sales_notes" + "_export" == "sales_notes_export";
    assert "sales_notes" + "_archive_export" == "sales_notes_archive_export";
    ArchiveOfExportDisplay("sales_notes");
  }

  /** What the batch API is given for an archive export. */
  datatype BatchDefinition = BatchDefinition(
    title: string,
    viewId: string,
    displayId: string,
    totalRows: nat,
    archive: bool,
    redirect: string)

  datatype SubmitOutcome =
    | Redirected(downloadUrl: Option<string>, target: string)  // plain export: message with the download, redirect, no batch
    | BatchScheduled(batch: BatchDefinition)                  // archive export
    | NoDisplay                                               // no display for this export type

  /** `submitForm`; `totalRows` is the view's row count for the chosen display. */
  method SubmitForm(values: FormValues, totalRows: nat) returns (outcome: SubmitOutcome)
    ensures !values.archive ==> outcome == Redirected(values.activeExportUrl, RemoveAll(values.redirect, "/export"))
    ensures values.archive ==> (outcome == NoDisplay <==> ViewDisplay(values.exportType, values.type1).None?)
    ensures values.archive && ViewDisplay(values.exportType, values.type1).Some? ==>
              var (viewId, displayId) := ViewDisplay(values.exportType, values.type1).value;
              outcome == BatchScheduled(BatchDefinition("Exporting " + values.exportTypeName + "s", viewId,
                                                        ArchiveDisplayId(displayId), totalRows, true, values.redirect))
  {
    if !values.archive {
      return Redirected(values.activeExportUrl, RemoveAll(values.redirect, "/export"));
    }
    var table := ViewDisplay(values.exportType, values.type1);
    if table.None? {
      return NoDisplay;
    }
    var (viewId, displayId) := table.value;
    displayId := RewriteArchiveDisplayId(displayId);
    outcome := BatchScheduled(BatchDefinition("Exporting " + values.exportTypeName + "s", viewId, displayId,
                                              totalRows, values.archive, values.redirect));
  }
}
