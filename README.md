# Drupal custom modules: CSV export, activity log, shipment advice

This project models, in Dafny, the core of three custom Drupal 8 modules of a
commodity-trading site and proves properties of that model.

- **custom_csv_export** has three parts.
  - The confirmation form `ExportForm` (export_form.dfy) parses the route into the listing type and an archive flag. It maps the listing to an export type and to a view display, and builds the cancel link. On submit it either redirects to the plain CSV export or schedules a batch on the view's archive display. The display id is rewritten to its `_archive_` twin.
  - The batch operation `Export::export` and its finish callback (csv_export.dfy) write the listing page by page to `private://csv_export/<title>-<date>.csv`. They keep the CSV header only on the first page and report progress. At the end they offer the file for download and redirect back to the listing.
  - The response subscriber `CustomCsvSubscriber` (csv_subscriber.dfy) registers the `csv` format. It names the download of CSV views through a Content-Disposition header.
- **custom_activity**: `ActivityServices` (activity.dfy) turns a system event on a node into a saved Activity node. The node carries a category, the company concerned and a one-line description. A field edit also carries one modification row per changed field.
- **custom_shipment_advice**: `ShipmentAdviceNotification` (shipment_advice.dfy) collects the EX/DOCK containers of shipments whose ETA falls within the configured window and that were not advised yet. It groups them by customer and then by shipment. It mails each customer one table per shipment and flags as advised the shipments of every customer for whom the mail manager's `mail()` call returned a truthy value.
- **PHP semantics** (php_strings.dfy) are written out in the `Php` module.
  - Functions: `str_replace` with an empty replacement (`RemoveAll`), `explode`/`implode` on one character (`Split`/`Join`), `strpos` and its truthiness (`IndexOf`, `StrposTruthy`), `empty()` on a string, ASCII `strtolower` and `ucfirst`, and integer interpolation (`NatToString`).
  - Lemmas connect them: `Split` and `Join` are inverse both ways, and the decimal text of a number reads back as that number.

State that the source changes in place is modelled imperatively.

- The batch `$context` and the private file system are the classes `BatchContext` and `PrivateFiles`. `Export` is proved against the function `Step`, which describes one call. A whole run over a sequence of pages is `Run`, and lemmas about it show what the file holds after every call.
- The activity service is a class whose `saved` sequence receives each new Activity node.
- The notification plugin is a class holding the advice-sent flags of the shipments and the outbox of mails handed to the mail manager. Its loops are methods proved against the functions `Group`, `Messages` and `FlagsAfter`.

Inputs and abstractions:

- Views, the CSV encoder and `json_decode` are not modelled. The CSV text of a page is an input, `None` when the view's JSON decodes to nothing.
- Whether creating and appending to the output file succeed are boolean inputs.
- The answers of `hook_file_download` are a sequence of `Grant`/`Deny`.
- The current date is a parameter: a Y-m-d string for the export, a day number for the shipment window. The ETA's display text is carried alongside the day number.
- The table renderer, `token_replace` and the mail manager's answer are function parameters. The answer, `accepts`, is the truthiness of what `mail()` returns. Drupal core's mail manager returns the message array, which is never empty, so with it every customer's shipments are flagged, even when sending fails; the model allows any answer.
- Nodes are records. An entity reference is its target id and rendered link, and a missing reference is `None`. A PHP fatal error (a method called on NULL) is a result value (`Fatal`, `FatalError`), and so is the batch's exception on a failed write (`WriteFailed`).

Where the comments and the code differ, the model follows the code:

- A release's location is the vessel when a warehouse is given and nothing otherwise, as ActivityServices.php:264-265 compute it (`ReleaseLocation`).
- Stripping the CSV header on later pages removes the first line's characters but keeps its line break (Export.php:112), so each later page begins with "\n" (`StripHeaderLine`).
- `strpos` returns 0 for a route segment that begins with "archive", which is falsy, so such a segment is not an archive (`ArchiveAtStartIsIgnored`).
- `str_replace("/export", "", ...)` can create a new occurrence (`RemoveAllCanCreateOccurrence`).

## Model

| member | source | states |
|---|---|---|
| Php.RemoveAll | modules/custom_csv_export/src/Form/ExportForm.php:26 | `str_replace(pat, "", s)`: the result is never longer than the subject, and a subject shorter than the pattern comes back unchanged |
| Php.RemoveAllAbsent | modules/custom_csv_export/src/Form/ExportForm.php:26 | a subject without the pattern is returned unchanged |
| Php.RemoveAllLeading | modules/custom_csv_export/src/EventSubscriber/CustomCsvSubscriber.php:56 | a leading occurrence of the pattern is removed and the rest is processed as if alone |
| Php.RemoveAllKeepsPrefix | modules/custom_csv_export/src/Form/ExportForm.php:26 | a prefix in which no occurrence starts is kept as it is |
| Php.RemoveAllCanCreateOccurrence | modules/custom_csv_export/src/Export.php:175 | one left-to-right pass can leave "/export" in the result: "/ex/exportport" becomes "/export" |
| Php.FirstIndex | modules/custom_csv_export/src/Form/ExportForm.php:65 | the position of the first occurrence of a character that occurs |
| Php.LastIndex | modules/custom_csv_export/src/Form/ExportForm.php:282-283 | the position of the last occurrence of a character that occurs |
| Php.Split | modules/custom_csv_export/src/Form/ExportForm.php:65 | `explode` on one character gives at least one piece, and no piece contains the delimiter |
| Php.JoinSplit | modules/custom_csv_export/src/Form/ExportForm.php:282-293 | `implode(c, explode(c, s)) == s` for every string |
| Php.SplitJoin | modules/custom_csv_export/src/EventSubscriber/CustomCsvSubscriber.php:84 | `explode(c, implode(c, parts)) == parts` for a non-empty list of delimiter-free pieces |
| Php.SplitAfterFirstPiece | modules/custom_csv_export/src/Form/ExportForm.php:71 | a delimiter-free first piece is split off as the first element |
| Php.SplitFirstPiece | modules/custom_csv_export/src/EventSubscriber/CustomCsvSubscriber.php:84-85 | element 0 of `explode` is the text before the first delimiter |
| Php.JoinSnoc | modules/custom_csv_export/src/Form/ExportForm.php:285-291 | appending a piece adds the delimiter and the piece, except to an empty list |
| Php.SplitSnoc | modules/custom_csv_export/src/Form/ExportForm.php:282-283 | text after the last delimiter is the last piece of `explode` |
| Php.SplitAtLast | modules/custom_csv_export/src/Form/ExportForm.php:282-283 | `array_pop` on `explode`: the pieces are those of the text before the last delimiter, then the text after it |
| Php.LastIndexSnoc | modules/custom_csv_export/src/Form/ExportForm.php:282-283 | the last delimiter of `a + c + b` with `b` delimiter-free is at the length of `a` |
| Php.IndexOf | modules/custom_csv_export/src/Form/ExportForm.php:69 | `strpos` finds a position where the needle occurs, and finds one exactly when the needle occurs |
| Php.IndexOfIsFirst | modules/custom_csv_export/src/Form/ExportForm.php:69 | no occurrence starts before the position `strpos` returns |
| Php.Lower | modules/custom_activity/src/ActivityServices.php:45 | `strtolower` keeps the length and lower-cases every character |
| Php.Ucfirst | modules/custom_csv_export/src/Form/ExportForm.php:135 | `ucfirst` upper-cases a leading lower-case ASCII letter, keeps the rest, and returns any other string unchanged |
| Php.NatToString | modules/custom_activity/src/ActivityServices.php:142 | the decimal text of a count is non-empty, all digits, and has no leading zero unless it is "0" |
| Php.NatToStringRoundTrip | modules/custom_activity/src/ActivityServices.php:142 | the interpolated count reads back as the count |
| CsvExport.FileTitle | modules/custom_csv_export/src/Export.php:19-35 | notes displays are titled purchase_notes or sales_notes, inventory becomes containers, any other view keeps its id, and an archive gets "_archive" |
| CsvExport.HeaderTextLength | modules/custom_csv_export/src/Export.php:112 | the length of the first line, which stops at the first line break or at the end |
| CsvExport.StripHeaderLine | modules/custom_csv_export/src/Export.php:111-113 | stripping a page that starts with a header line leaves "\n" followed by the rows |
| CsvExport.Chunk | modules/custom_csv_export/src/Export.php:96-113 | the first call writes the whole page, later calls write the page without its first line's text, and nothing rendered writes "" |
| CsvExport.PrivateFiles.constructor | modules/custom_csv_export/src/Export.php:72-75 | the private file system with the given files |
| CsvExport.BatchContext.constructor | modules/custom_csv_export/src/Export.php:53 | a fresh batch context with an empty sandbox |
| CsvExport.Export | modules/custom_csv_export/src/Export.php:11-150 | the new context, the new files and the outcome are those of `Step` on the old state |
| CsvExport.FirstCallStarts | modules/custom_csv_export/src/Export.php:53-89 | the first call stores the redirect and the dated output path; when the append succeeds, that file holds exactly the whole page and the progress is 50 |
| CsvExport.CreateFailureAborts | modules/custom_csv_export/src/Export.php:77-82 | when the file cannot be created, the sandbox is cleared, success is FALSE and no file changes |
| CsvExport.LaterCallAppends | modules/custom_csv_export/src/Export.php:111-128 | a later call appends the page without its header text to the sandbox's file and adds 50 to the progress |
| CsvExport.WriteFailureAborts | modules/custom_csv_export/src/Export.php:116-122 | a failed append on a later call throws, naming the file, and leaves the context and the files as they were |
| CsvExport.Step | modules/custom_csv_export/src/Export.php:53-149 | no contract of its own; stated by `FirstCallStarts`, `CreateFailureAborts`, `LaterCallAppends` and `WriteFailureAborts`, and `Export` is proved equal to it |
| CsvExport.FinishedBounds | modules/custom_csv_export/src/Export.php:133-138 | the progress fraction lies in (0, 1] and is 1 exactly when the progress has reached the total |
| CsvExport.FinishedMonotone | modules/custom_csv_export/src/Export.php:133-135 | the progress fraction never decreases as the progress grows |
| CsvExport.Finished | modules/custom_csv_export/src/Export.php:133-138 | no contract of its own; stated by `FinishedBounds` and `FinishedMonotone` |
| CsvExport.Run | modules/custom_csv_export/src/Export.php:53-149 | no contract of its own; a run of successful calls from a fresh context, stated by `FirstPage`, `NextPage` and `RunWritesHeaderOnce` |
| CsvExport.FirstPage | modules/custom_csv_export/src/Export.php:53-149 | after the first call of a run the file holds the first page, header included |
| CsvExport.NextPage | modules/custom_csv_export/src/Export.php:111-149 | each further call appends "\n" and that page's rows to what the file held |
| CsvExport.RunWritesHeaderOnce | modules/custom_csv_export/src/Export.php:110-113 | after n calls the file holds the header once, then the n pages' rows joined by line breaks, and the results are set exactly when 50·n reaches the total |
| CsvExport.FinishCallback | modules/custom_csv_export/src/Export.php:152-184 | the export fails unless it succeeded and its file exists; it completes exactly when some module grants access with at least one header and none denies it, offering the file and redirecting to the listing without "/export" |
| CsvExport.FinishedRunCompletes | modules/custom_csv_export/src/Export.php:144-175 | a run whose pages cover the total hands the callback its own file, so when access is granted it completes and redirects to the listing |
| CsvExport.EmptyGrantIsNoAccess | modules/custom_csv_export/src/Export.php:164-166 | answers that only grant with no headers merge to an empty array: no message and no redirect |
| CsvExport.AccessGranted | modules/custom_csv_export/src/Export.php:164-166 | no contract of its own; the merged answers are non-empty and hold no denial, as `FinishCallback` and `EmptyGrantIsNoAccess` state |
| ExportForm.CancelUrl | modules/custom_csv_export/src/Form/ExportForm.php:23-32 | the cancel URL is internal, is the current path without "/export", and keeps the query |
| ExportForm.CancelReturnsToListing | modules/custom_csv_export/src/Form/ExportForm.php:25-26 | the export page of a listing cancels back to that listing |
| ExportForm.ParseRouteSegment | modules/custom_csv_export/src/Form/ExportForm.php:64-66 | the listing type is the route name's second "."-segment |
| ExportForm.ParseRoutePlain | modules/custom_csv_export/src/Form/ExportForm.php:64-73 | a segment without "archive" is the listing type, not an archive |
| ExportForm.NotArchivePrefix | modules/custom_csv_export/src/Form/ExportForm.php:69 | "archive" does not start a segment whose first "_"-piece does not start with it |
| ExportForm.ArchiveSegment | modules/custom_csv_export/src/Form/ExportForm.php:69-72 | for `<base>_archive<tail>`, `strpos` is truthy and the first "_"-piece is the base |
| ExportForm.ParseRouteArchive | modules/custom_csv_export/src/Form/ExportForm.php:64-73 | a segment `<base>_archive<tail>` gives listing type `<base>` and the archive flag |
| ExportForm.ArchiveAtStartIsIgnored | modules/custom_csv_export/src/Form/ExportForm.php:69 | a segment that begins with "archive" does not set the archive flag, because `strpos` returns 0 |
| ExportForm.ParseRoute | modules/custom_csv_export/src/Form/ExportForm.php:64-73 | no contract of its own; stated by `ParseRouteSegment`, `ParseRoutePlain`, `ParseRouteArchive` and `ArchiveAtStartIsIgnored` |
| ExportForm.NodeTypeIgnoredForShippingAndInventory | modules/custom_csv_export/src/Form/ExportForm.php:122-130 | shipping and inventory export shipments and containers whatever the node type |
| ExportForm.TablesAgree | modules/custom_csv_export/src/Form/ExportForm.php:232-278 | for every listing `buildForm` knows, `submitForm`'s table gives the view and display of the plain export's route |
| ExportForm.ExportTarget | modules/custom_csv_export/src/Form/ExportForm.php:75-130 | no contract of its own; stated by `NodeTypeIgnoredForShippingAndInventory`, `TablesAgree` and `BuildForm` |
| ExportForm.ViewDisplay | modules/custom_csv_export/src/Form/ExportForm.php:232-278 | no contract of its own; stated by `TablesAgree` and `SubmitForm` |
| ExportForm.TypeName | modules/custom_csv_export/src/Form/ExportForm.php:132-140 | the name is the label for other types and exactly `ucfirst(type1) + " " + label` for memos, with " Archive" appended exactly for archives |
| ExportForm.ActiveExportUrl | modules/custom_csv_export/src/Form/ExportForm.php:144-151 | there is no plain URL exactly for archives; otherwise it is the route's URL, plus "?" and the query string when that string is truthy |
| ExportForm.BuildForm | modules/custom_csv_export/src/Form/ExportForm.php:57-204 | the values follow the parsed route and the type table; the name is `TypeName` of the label, the plain URL is `ActiveExportUrl` of the route's URL and the query string, the title is "Export <name>s"; it fails for want of an export type, a label or a route URL exactly when the table, the labels or the routes lack the entry |
| ExportForm.TrimUnderscores | modules/custom_csv_export/src/Form/ExportForm.php:285-291 | the result never starts with "_", and a string not starting with "_" is unchanged |
| ExportForm.TrimIsSuffix | modules/custom_csv_export/src/Form/ExportForm.php:285-291 | the result is a suffix of the input |
| ExportForm.TrimRemovesUnderscores | modules/custom_csv_export/src/Form/ExportForm.php:285-291 | everything removed is "_" |
| ExportForm.ArchiveDisplayIdOfPieces | modules/custom_csv_export/src/Form/ExportForm.php:281-294 | the rewrite is the rejoined front pieces, without the underscores that empty leading pieces leave, then "_archive_" and the last piece |
| ExportForm.ArchiveDisplayId | modules/custom_csv_export/src/Form/ExportForm.php:281-294 | no contract of its own; stated by `ArchiveDisplayIdOfPieces`, `ArchiveSplicesBeforeLastPiece` and `RewriteArchiveDisplayId` |
| ExportForm.RewriteArchiveDisplayId | modules/custom_csv_export/src/Form/ExportForm.php:281-294 | the loop over the pieces computes `ArchiveDisplayId` |
| ExportForm.ArchiveSplicesBeforeLastPiece | modules/custom_csv_export/src/Form/ExportForm.php:281-294 | `<prefix>_<last>` becomes `<prefix>_archive_<last>` |
| ExportForm.ArchiveOfExportDisplay | modules/custom_csv_export/src/Form/ExportForm.php:281-294 | `<prefix>_export` becomes `<prefix>_archive_export` |
| ExportForm.ArchivePurchasingNotesTitle | modules/custom_csv_export/src/Form/ExportForm.php:269-294 | the purchasing notes archive display is purchasing_notes_archive_export, and its file is titled purchase_notes_archive |
| ExportForm.ArchiveSalesNotesTitle | modules/custom_csv_export/src/Form/ExportForm.php:269-294 | the sales notes archive display is sales_notes_archive_export, and its file is titled sales_notes_archive |
| ExportForm.SubmitForm | modules/custom_csv_export/src/Form/ExportForm.php:209-329 | a plain export redirects to the listing with the download URL; an archive export schedules the batch on the table's view and the archive display id, titled "Exporting <name>s" |
| CsvSubscriber.NoRouteIsNotCsv | modules/custom_csv_export/src/EventSubscriber/CustomCsvSubscriber.php:81-83 | without a current route the response is not a CSV export |
| CsvSubscriber.OtherRoutesAreNotCsv | modules/custom_csv_export/src/EventSubscriber/CustomCsvSubscriber.php:84-87 | a route whose first segment is not "view" is never a CSV export |
| CsvSubscriber.ViewsRouteCsvIff | modules/custom_csv_export/src/EventSubscriber/CustomCsvSubscriber.php:96-106 | a views route is a CSV export exactly when its display's style is serializer and its csv format is csv |
| CsvSubscriber.RouteIsCsvExport | modules/custom_csv_export/src/EventSubscriber/CustomCsvSubscriber.php:79-107 | no contract of its own; stated by `NoRouteIsNotCsv`, `OtherRoutesAreNotCsv` and `ViewsRouteCsvIff` |
| CsvSubscriber.Filename | modules/custom_csv_export/src/EventSubscriber/CustomCsvSubscriber.php:55-59 | the download name is what is left after removing every "/export/", or "unknown" when that is empty or "0", then "-", the date and ".csv" |
| CsvSubscriber.FilenameOfExportPath | modules/custom_csv_export/src/EventSubscriber/CustomCsvSubscriber.php:54-59 | "/export/<name>" downloads as "<name>-<date>.csv" |
| CsvSubscriber.FilenameUnknown | modules/custom_csv_export/src/EventSubscriber/CustomCsvSubscriber.php:57 | a path that leaves "" or "0" downloads as "unknown-<date>.csv" |
| CsvSubscriber.OnRespond | modules/custom_csv_export/src/EventSubscriber/CustomCsvSubscriber.php:51-65 | CSV exports get the attachment Content-Disposition header; no other header changes, and other responses are untouched |
| CsvSubscriber.OnKernelRequest | modules/custom_csv_export/src/EventSubscriber/CustomCsvSubscriber.php:41-43 | the request knows `csv` as text/csv, and its other formats stay |
| Activity.Fcl | modules/custom_activity/src/ActivityServices.php:142 | "FCL" exactly for a count of 1, "FCLs" otherwise |
| Activity.MemoCategory | modules/custom_activity/src/ActivityServices.php:43-51 | a memo is a Purchasing D/C Note exactly when its counter party is "purchasing" in any case, and a Sales D/C Note otherwise |
| Activity.Category | modules/custom_activity/src/ActivityServices.php:39-62 | no contract of its own; the category table, with the memo prefix stated by `MemoCategory` |
| Activity.SelectCompany | modules/custom_activity/src/ActivityServices.php:67-81 | the supplier if set, else the customer if set, else the node itself, and the type word says which |
| Activity.ReleaseLocationIsVesselOrNothing | modules/custom_activity/src/ActivityServices.php:263-265 | with a warehouse the release is said to come from the vessel, and without one from nothing |
| Activity.ReleaseLocation | modules/custom_activity/src/ActivityServices.php:263-265 | no contract of its own; stated by `ReleaseLocationIsVesselOrNothing` |
| Activity.Say | modules/custom_activity/src/ActivityServices.php:92 | every description opens with the user's link and a space and ends with a full stop |
| Activity.DescribeFieldEdit | modules/custom_activity/src/ActivityServices.php:86-130 | a field edit is always logged as FieldEdit, under the category of the node's content type and the node's selected company, and is fatal exactly for a file that no node holds |
| Activity.DescribeCounted | modules/custom_activity/src/ActivityServices.php:132-297 | the counting events are logged under their own type; each is fatal exactly when its template dereferences a missing supplier, destination, customer or contract customer; the entry's category and company are those of the event's table row |
| Activity.DescribeMemo | modules/custom_activity/src/ActivityServices.php:146-169 | a memo is logged as `<memo type>MemoCreated`; it is fatal exactly when its counter party (the supplier for a purchasing memo, else the customer) is missing; otherwise its category is the memo row of the category table, it is filed under the counter party and says the memo was issued to it |
| Activity.DescribeStatus | modules/custom_activity/src/ActivityServices.php:299-329 | status changes are logged under their own type, with the category of the node's content type, filed under the node's company, and say "<verb> <link>" |
| Activity.DescribeInventory | modules/custom_activity/src/ActivityServices.php:199-210 | ContainerAddedToInventory is fatal exactly when the container has no supplier; otherwise it is a Container entry filed under the supplier, naming the container and the supplier |
| Activity.Describe | modules/custom_activity/src/ActivityServices.php:85-331 | nothing is logged exactly for an unknown activity type, and every entry is said by the user; each known type is handed to its template (`DescribeFieldEdit`, `DescribeMemo`, `DescribeCounted`, `DescribeInventory`, `DescribeStatus`), whose entries the `...Template`, `...Description` and `StatusEntries` lemmas state through `Describe` |
| Activity.MemoCreatedTypeRewrite | modules/custom_activity/src/ActivityServices.php:146-153 | only MemoCreated is filed under another type, its memo type followed by "MemoCreated" |
| Activity.OnlyFieldEditsRecordChanges | modules/custom_activity/src/ActivityServices.php:357 | an entry is a field edit, which carries the changed fields, exactly when the event is one |
| Activity.CountedDescriptionsUsePluralRule | modules/custom_activity/src/ActivityServices.php:142 | a count is "1 FCL" or "<n> FCLs" |
| Activity.PcCreatedDescription | modules/custom_activity/src/ActivityServices.php:132-144 | PcCreated is filed as a Purchase Contract under the supplier, naming the contract, the count and the supplier |
| Activity.ReleaseDescribedFromVessel | modules/custom_activity/src/ActivityServices.php:253-269 | a release with a warehouse names the vessel and the contract's customer, under whom it is filed |
| Activity.CompanyEditTemplate | modules/custom_activity/src/ActivityServices.php:117-122 | a field edit of a customer, supplier or trucker names the content type and the company |
| Activity.ContainerEditTemplate | modules/custom_activity/src/ActivityServices.php:90-93 | a field edit of a container is a Container entry naming the container and the type and link of the company it references, filed under that company |
| Activity.FileEditTemplate | modules/custom_activity/src/ActivityServices.php:94-115 | a field edit of a file is a File entry naming the file's title, the last node found holding it and that node's company; it is filed under the file's own company |
| Activity.ReferencingEditTemplate | modules/custom_activity/src/ActivityServices.php:123-127 | a field edit of any other content type names the node and the company it references, under the table's category (none for types outside the table) |
| Activity.StatusEntries | modules/custom_activity/src/ActivityServices.php:299-329 | Cancel, Uncancel, Close and Re-open say "canceled", "uncanceled", "closed" and "re-opened" the node, under its category and company |
| Activity.OldValueOf | modules/custom_activity/src/ActivityServices.php:362-372 | an empty old value is recorded as "NONE" |
| Activity.NewValueOf | modules/custom_activity/src/ActivityServices.php:374-380 | an empty new value is recorded as it is |
| Activity.OldNewAgree | modules/custom_activity/src/ActivityServices.php:362-380 | old and new values are read alike, the first item's value and then its target id, except that only an empty old value becomes "NONE" |
| Activity.ActivityService.constructor | modules/custom_activity/src/ActivityServices.php:20-26 | the service of the given user, with nothing saved |
| Activity.ActivityService.BuildModifications | modules/custom_activity/src/ActivityServices.php:360-390 | one modification row per changed field, in order |
| Activity.ActivityService.CreateActivityNode | modules/custom_activity/src/ActivityServices.php:340-394 | exactly one Activity node is saved, with the affected node, category, company and description, and modification rows only for a field edit; SAVED_NEW is returned |
| Activity.ActivityService.LogActivity | modules/custom_activity/src/ActivityServices.php:29-334 | nothing is saved in maintenance mode, for an unknown type or on a fatal error; otherwise the described entry is saved and its status returned |
| ShipmentAdvice.Due | modules/custom_shipment_advice/src/Plugin/CodigoVision/Notification/ShipmentAdviceNotification.php:200-211 | the selection holds only unflagged shipments with ETA from today to today plus the window, and every such shipment |
| ShipmentAdvice.TableRow | modules/custom_shipment_advice/src/Plugin/CodigoVision/Notification/ShipmentAdviceNotification.php:273-281 | a row has the seven header columns, and the TS # is "N/A" for an empty seal number |
| ShipmentAdvice.ShipmentRowsAreExDock | modules/custom_shipment_advice/src/Plugin/CodigoVision/Notification/ShipmentAdviceNotification.php:244-247 | a shipment contributes at most one row per container, and every row comes from one of its EX/DOCK containers |
| ShipmentAdvice.ShipmentRowsSnoc | modules/custom_shipment_advice/src/Plugin/CodigoVision/Notification/ShipmentAdviceNotification.php:231-282 | one more container adds its row when EX/DOCK and nothing otherwise |
| ShipmentAdvice.AllRowsSnoc | modules/custom_shipment_advice/src/Plugin/CodigoVision/Notification/ShipmentAdviceNotification.php:215-283 | one more shipment appends its rows |
| ShipmentAdvice.Assoc.Put | modules/custom_shipment_advice/src/Plugin/CodigoVision/Notification/ShipmentAdviceNotification.php:255-271 | assigning into a PHP array sets the value and appends the key only when it is new |
| ShipmentAdvice.Empty | modules/custom_shipment_advice/src/Plugin/CodigoVision/Notification/ShipmentAdviceNotification.php:213 | the empty array is well formed and has no keys |
| ShipmentAdvice.PutValid | modules/custom_shipment_advice/src/Plugin/CodigoVision/Notification/ShipmentAdviceNotification.php:255-271 | assignment keeps each key listed once |
| ShipmentAdvice.GroupSnoc | modules/custom_shipment_advice/src/Plugin/CodigoVision/Notification/ShipmentAdviceNotification.php:255-281 | one more row is inserted into the data built so far |
| ShipmentAdvice.Insert | modules/custom_shipment_advice/src/Plugin/CodigoVision/Notification/ShipmentAdviceNotification.php:255-281 | no contract of its own; stated by `InsertWellFormed`, `GroupSnoc` and `AddRow` |
| ShipmentAdvice.Group | modules/custom_shipment_advice/src/Plugin/CodigoVision/Notification/ShipmentAdviceNotification.php:213-285 | no contract of its own; stated by `GroupWellFormed`, `GroupCustomers`, `GroupCells`, `GroupFirstSeenCustomer` and `GroupFirstSeenShipment` |
| ShipmentAdvice.InsertWellFormed | modules/custom_shipment_advice/src/Plugin/CodigoVision/Notification/ShipmentAdviceNotification.php:255-281 | inserting a row keeps customer and shipment keys unique |
| ShipmentAdvice.GroupWellFormed | modules/custom_shipment_advice/src/Plugin/CodigoVision/Notification/ShipmentAdviceNotification.php:213-285 | the notification data is well formed |
| ShipmentAdvice.GroupCustomers | modules/custom_shipment_advice/src/Plugin/CodigoVision/Notification/ShipmentAdviceNotification.php:255-261 | the customers notified are exactly the customers of the rows |
| ShipmentAdvice.GroupCells | modules/custom_shipment_advice/src/Plugin/CodigoVision/Notification/ShipmentAdviceNotification.php:263-281 | a customer has an entry for a shipment exactly when some row is for the pair, and the entry's table rows are the pair's rows in order |
| ShipmentAdvice.GroupFirstSeenCustomer | modules/custom_shipment_advice/src/Plugin/CodigoVision/Notification/ShipmentAdviceNotification.php:255-261 | a customer's name and email come from its first row |
| ShipmentAdvice.GroupFirstSeenShipment | modules/custom_shipment_advice/src/Plugin/CodigoVision/Notification/ShipmentAdviceNotification.php:263-271 | a shipment entry's quantity, id and ETA come from the pair's first row |
| ShipmentAdvice.NoCellsWithoutRow | modules/custom_shipment_advice/src/Plugin/CodigoVision/Notification/ShipmentAdviceNotification.php:263-281 | a pair with no row has no table rows |
| ShipmentAdvice.MessageFor | modules/custom_shipment_advice/src/Plugin/CodigoVision/Notification/ShipmentAdviceNotification.php:137-173 | the mail goes to the recipient, its subject replaces only [customer_name], and its body also replaces [shipment_data] with the rendered tables |
| ShipmentAdvice.SubjectHasNoShipmentData | modules/custom_shipment_advice/src/Plugin/CodigoVision/Notification/ShipmentAdviceNotification.php:124-151 | the subject depends on the customer's name only, not on the shipments |
| ShipmentAdvice.Messages | modules/custom_shipment_advice/src/Plugin/CodigoVision/Notification/ShipmentAdviceNotification.php:136-193 | one mail per customer |
| ShipmentAdvice.MessagesInOrder | modules/custom_shipment_advice/src/Plugin/CodigoVision/Notification/ShipmentAdviceNotification.php:136-175 | the i-th mail is the i-th customer's |
| ShipmentAdvice.Recipients | modules/custom_shipment_advice/src/Plugin/CodigoVision/Notification/ShipmentAdviceNotification.php:145 | in dev mode every mail goes to the developer's address, otherwise to the customer's email |
| ShipmentAdvice.FlagAllEffect | modules/custom_shipment_advice/src/Plugin/CodigoVision/Notification/ShipmentAdviceNotification.php:187-192 | the listed shipments are flagged with today's date and other flags are unchanged |
| ShipmentAdvice.FlagsAfterStep | modules/custom_shipment_advice/src/Plugin/CodigoVision/Notification/ShipmentAdviceNotification.php:177-192 | one more customer adds its shipments to the flags exactly when its mail was accepted |
| ShipmentAdvice.FlagsAfter | modules/custom_shipment_advice/src/Plugin/CodigoVision/Notification/ShipmentAdviceNotification.php:136-192 | no contract of its own; stated by `FlagsAfterStep` and `FlaggedIffAccepted` |
| ShipmentAdvice.FlaggedIffAccepted | modules/custom_shipment_advice/src/Plugin/CodigoVision/Notification/ShipmentAdviceNotification.php:177-192 | a shipment is flagged after the loop exactly when it was flagged before or belongs to a customer whose mail was accepted |
| ShipmentAdvice.FlaggedNotDue | modules/custom_shipment_advice/src/Plugin/CodigoVision/Notification/ShipmentAdviceNotification.php:210 | a flagged shipment is never selected again |
| ShipmentAdvice.ShipmentAdviceNotification.constructor | modules/custom_shipment_advice/src/Plugin/CodigoVision/Notification/ShipmentAdviceNotification.php:94-104 | the plugin with its configuration and the existing flags, nothing sent |
| ShipmentAdvice.ShipmentAdviceNotification.AddRow | modules/custom_shipment_advice/src/Plugin/CodigoVision/Notification/ShipmentAdviceNotification.php:255-281 | the loop body inserts one row |
| ShipmentAdvice.ShipmentAdviceNotification.AddShipment | modules/custom_shipment_advice/src/Plugin/CodigoVision/Notification/ShipmentAdviceNotification.php:231-282 | the container loop inserts the shipment's EX/DOCK rows |
| ShipmentAdvice.ShipmentAdviceNotification.GetShipmentsForNotification | modules/custom_shipment_advice/src/Plugin/CodigoVision/Notification/ShipmentAdviceNotification.php:200-287 | the result is the due shipments' rows grouped by customer and shipment, and is well formed |
| ShipmentAdvice.ShipmentAdviceNotification.RenderTables | modules/custom_shipment_advice/src/Plugin/CodigoVision/Notification/ShipmentAdviceNotification.php:153-167 | the tables of all the customer's shipments, and the list of those shipments in order |
| ShipmentAdvice.ShipmentAdviceNotification.FlagShipments | modules/custom_shipment_advice/src/Plugin/CodigoVision/Notification/ShipmentAdviceNotification.php:187-192 | the listed shipments are flagged with today's date and nothing is mailed |
| ShipmentAdvice.ShipmentAdviceNotification.Notify | modules/custom_shipment_advice/src/Plugin/CodigoVision/Notification/ShipmentAdviceNotification.php:137-192 | one mail is sent, and the customer's shipments are flagged exactly when it is accepted |
| ShipmentAdvice.ShipmentAdviceNotification.SendAdvice | modules/custom_shipment_advice/src/Plugin/CodigoVision/Notification/ShipmentAdviceNotification.php:136-193 | the outbox gains one mail per customer in order, and the flags are those after every accepted mail |
| ShipmentAdvice.ShipmentAdviceNotification.Execute | modules/custom_shipment_advice/src/Plugin/CodigoVision/Notification/ShipmentAdviceNotification.php:92-195 | a disabled plugin does nothing; otherwise every due customer is mailed once in order and exactly the shipments of accepted mails are flagged |

## Left out

- The inline-edit modal form and its controller, the shipment advice settings form and the CSV export service provider are not part of this model.
- Views building, rendering and counting, the CSV encoder and `json_decode` are left out: the CSV text of a page and the total row count are inputs.
- File creation, appending, `file_exists` and `file_create_url` are left out. Their outcomes are inputs, and the download URL is the file's URI.
- The mail manager, the logger, `drupal_set_message`, the redirect response and `batch_set` are left out. They are represented by the values handed to them (`Message`, `FinishOutcome`, `SubmitOutcome`, `BatchDefinition`).
- Clocks and date formatting are parameters: the Y-m-d date, the ETA's 'M d, Y' text, and the day numbers of the window.
- The table renderer and `token_replace` are function parameters, not modelled.
- Message headers, language and the HTML flag are not modelled. Only the recipient, subject, body, reply-to and from are.
- The container query's filter on a sales contract being present is assumed. A shipment's containers are given with their sales contract's data.
- The order in which entity queries return nodes is an input (sequence order).
- `routeIsCsvExport` when the route names a view that does not exist is not modelled: the code calls `getDisplay` on NULL, a fatal error. A missing display is not an error in the code (`getDisplay` yields NULL and the answer is false), and the model matches that with no display options.
- `SubmitForm` uses the display id from its table rather than the view's `current_display`, which Views may replace with its default when the display does not exist.
- `NoDisplay` in `SubmitForm` stands for an export type missing from the table. In the code this is an undefined `$display_id` passed on.
- A field that is missing and a field that is empty are the same `None` in a node record.
- A reference to a deleted node, a dangling reference, is not modelled.
- An unknown content type's category is `None`. The undefined-index notice is not modelled.
- `BuildForm` returns only the values the submit handler reads. The form's other render-array keys (question markup, buttons, cancel link) are left out.
- Activity.DescribeCounted: its contract does not state the wording of the descriptions, in particular the "<n> FCL(s)" count phrase. The full text is stated only for PcCreated and ContainersAddedToRelease, by the lemmas `PcCreatedDescription` and `ReleaseDescribedFromVessel`; the plural rule itself is stated by `CountedDescriptionsUsePluralRule`.
- Php.RemoveAll: its contract bounds the length. What it removes is stated by `RemoveAllAbsent`, `RemoveAllLeading` and `RemoveAllKeepsPrefix`.
- ShipmentAdvice.Messages: its contract gives the count. The content of each mail is stated by `MessagesInOrder` and `Recipients`.
- ShipmentAdvice.ShipmentAdviceNotification.GetShipmentsForNotification: the fatal errors of the loading loop are not modelled. A shipment without a supplier, a container without an origin, color or grade term, or a sales contract without a customer stops the whole run before any mail is sent (ShipmentAdviceNotification.php:220, 232-234, 251-252). Here those values are always present.
- CsvSubscriber.OnRespond: response header names are case-insensitive in Symfony's header bag, but the model's header map is case-sensitive.
