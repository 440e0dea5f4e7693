/**
 * The batch operation that writes an archive listing to a CSV file
 * (custom_csv_export's `Export::export`) and the callback that reports the
 * end of the batch (`Export::exportFinishedCallback`).
 *
 * The batch API calls `Export` once per page and keeps `$context['sandbox']`
 * between the calls; the sandbox is the `BatchContext` object here and the
 * private file system is the `PrivateFiles` object. The view, its rendering
 * and the CSV encoder are not modelled: the CSV text of the current page is an
 * input (`None` when the view rendered nothing that decodes to a non-empty
 * array), and so are the outcomes of creating and of appending to the file.
 */
module CsvExport {
  import opened Php

  /** Rows fetched per call (`$export_batch_size`). */
  const BatchSize: nat := 50

  /** Where the export files are written. */
  const Directory: string := "private://csv_export/"

  /** The base of the export file name: the view, renamed for containers and notes, marked for archives. */
  function FileTitle(viewId: string, displayId: string, archive: bool): (title: string)
    ensures displayId in {"purchasing_notes_export", "purchasing_notes_archive_export"} ==>
      title == if archive then "purchase_notes_archive" else "purchase_notes"
    ensures displayId in {"sales_notes_export", "sales_notes_archive_export"} ==>
      title == if archive then "sales_notes_archive" else "sales_notes"
    ensures displayId !in {"purchasing_notes_export", "purchasing_notes_archive_export",
                           "sales_notes_export", "sales_notes_archive_export"} ==>
      title == (if viewId == "inventory" then "containers" else viewId) + (if archive then "_archive" else "")
  {
    var byView := if viewId == "inventory" then "containers" else viewId;
    var byPurchasing :=
      if displayId == "purchasing_notes_export" || displayId == "purchasing_notes_archive_export"
      then "purchase_notes" else byView;
    var bySales :=
      if displayId == "sales_notes_export" || displayId == "sales_notes_archive_export"
      then "sales_notes" else byPurchasing;
    if archive then bySales + "_archive" else bySales
  }

  /** The file the first call creates: `private://csv_export/<title>-<Y-m-d>.csv`. */
  function OutputPath(title: string, today: string): string
  {
    Directory + title + "-" + today + ".csv"
  }

  /** Length of the leading run of characters other than a newline. */
  function HeaderTextLength(s: string): (n: nat)
    ensures n <= |s|
    ensures forall k :: 0 <= k < n ==> s[k] != '\n'
    ensures n == |s| || s[n] == '\n'
  {
    if s == [] || s[0] == '\n' then 0 else 1 + HeaderTextLength(s[1..])
  }

  /**
   * `preg_replace('/^[^\n]+/', '', s)`: deletes the text of the first line and
   * keeps its newline.
   */
  function StripHeader(s: string): string
  {
    s[HeaderTextLength(s)..]
  }

  /** The header's text goes, its newline and everything after it stay. */
  lemma StripHeaderLine(header: string, body: string)
    requires '\n' !in header
    ensures StripHeader(header + "\n" + body) == "\n" + body
  {
    var s := header + "\n" + body;
    assert s[..|header|] == header;
    assert s[|header|] == '\n';
    assert HeaderTextLength(s) == |header|;
    assert s[|header|..] == "\n" + body;
  }

  /** The CSV text appended for one page: the encoder's output, header line text removed after the first page. */
  function Chunk(rendered: Option<string>, progress: nat): (chunk: string)
    ensures progress == 0 ==> chunk == (if rendered.Some? then rendered.value else "")
    ensures progress != 0 && rendered.Some? ==> rendered.value == rendered.value[..HeaderTextLength(rendered.value)] + chunk
    ensures rendered.None? ==> chunk == ""
  {
    var csv := if rendered.Some? then rendered.value else "";
    if progress != 0 then StripHeader(csv) else csv
  }

  /** The progress fraction reported to the batch API. */
  function Finished(progress: nat, totalRows: nat): real
  {
    if progress < totalRows then progress as real / totalRows as real else 1.0
  }

  /** The persistent part of `$context['sandbox']`. */
  datatype Sandbox = Sandbox(redirect: string, progress: nat, file: string)

  /** What the last call leaves in `$context['results']`. */
  datatype ExportResults = ExportResults(file: string, redirect: string)

  /** How a call ends: normally, by giving up on a file that cannot be created, or by an exception on a failed write. */
  datatype StepOutcome = Continued | CreateFailed | WriteFailed(file: string)

  /** The batch context and the private files as one value. */
  datatype Job = Job(
    sandbox: Option<Sandbox>,
    success: Option<bool>,
    finished: real,
    results: Option<ExportResults>,
    files: map<string, string>)

  datatype StepResult = StepResult(job: Job, outcome: StepOutcome)

  /** The text of a file; appending to a file that is not there starts from nothing. */
  function Contents(files: map<string, string>, path: string): string
  {
    if path in files then files[path] else ""
  }

  /** One call of the batch operation, as a function of the state before it. */
  function Step(job: Job, title: string, totalRows: nat, redirect: string, today: string,
                rendered: Option<string>, canCreate: bool, canAppend: bool): StepResult
  {
    if job.sandbox.None? && !canCreate then
      StepResult(job.(sandbox := None, success := Some(false)), CreateFailed)
    else
      var started :=
        if job.sandbox.None?
        then job.(sandbox := Some(Sandbox(redirect, 0, OutputPath(title, today))),
                  files := job.files[OutputPath(title, today) := ""])
        else job;
      var sb := started.sandbox.value;
      if !canAppend then StepResult(started, WriteFailed(sb.file))
      else
        var progress := sb.progress + BatchSize;
        var written := started.(
          sandbox := Some(sb.(progress := progress)),
          files := started.files[sb.file := Contents(started.files, sb.file) + Chunk(rendered, sb.progress)],
          finished := Finished(progress, totalRows));
        if progress < totalRows then StepResult(written, Continued)
        else StepResult(written.(results := Some(ExportResults(sb.file, sb.redirect))), Continued)
  }

  /** The private file system (`private://`), path to contents. */
  class PrivateFiles {
    var contents: map<string, string>

    constructor (contents: map<string, string>)
      ensures this.contents == contents
    {
      this.contents := contents;
    }
  }

  /** The batch API's `$context` for the export operation. */
  class BatchContext {
    var sandbox: Option<Sandbox>
    var success: Option<bool>
    var finished: real
    var results: Option<ExportResults>

    /** A fresh context: empty sandbox, nothing reported. */
    constructor ()
      ensures sandbox == None && success == None && finished == 1.0 && results == None
    {
      sandbox, success, finished, results := None, None, 1.0, None;
    }
  }

  /** The context and the files as a `Job` value. */
  function Snapshot(ctx: BatchContext, files: PrivateFiles): Job
    reads ctx, files
  {
    Job(ctx.sandbox, ctx.success, ctx.finished, ctx.results, files.contents)
  }

  /**
   * One call of `Export::export`. `rendered` is the CSV encoder's output for
   * the page at offset `progress` (None when the view's JSON decoded to
   * nothing), `canCreate` and `canAppend` say whether creating and appending
   * to the output file succeed.
   */
  method Export(viewId: string, displayId: string, totalRows: nat, archive: bool, redirect: string,
                today: string, rendered: Option<string>, canCreate: bool, canAppend: bool,
                ctx: BatchContext, files: PrivateFiles)
    returns (outcome: StepOutcome)
    modifies ctx, files
    ensures var r := Step(old(Snapshot(ctx, files)), FileTitle(viewId, displayId, archive),
                          totalRows, redirect, today, rendered, canCreate, canAppend);
            Snapshot(ctx, files) == r.job && outcome == r.outcome
  {
    var fileTitle := FileTitle(viewId, displayId, archive);
    var exportBatchSize := BatchSize;

    // First time through: remember the redirect, start counting, create the file.
    if ctx.sandbox.None? {
      var destination := Directory + fileTitle + "-" + today + ".csv";
      if !canCreate {
        ctx.sandbox := None;
        ctx.success := Some(false);
        return CreateFailed;
      }
      files.contents := files.contents[destination := ""];
      ctx.sandbox := Some(Sandbox(redirect, 0, destination));
    }

    var csv := if rendered.Some? then rendered.value else "";
    var sandbox := ctx.sandbox.value;
    if sandbox.progress != 0 {
      csv := StripHeader(csv);
    }

    if !canAppend {
      return WriteFailed(sandbox.file);
    }
    files.contents := files.contents[sandbox.file := Contents(files.contents, sandbox.file) + csv];

    sandbox := sandbox.(progress := sandbox.progress + exportBatchSize);
    ctx.sandbox := Some(sandbox);
    if sandbox.progress < totalRows {
      ctx.finished := sandbox.progress as real / totalRows as real;
    } else {
      ctx.finished := 1.0;
      ctx.results := Some(ExportResults(sandbox.file, sandbox.redirect));
    }
    outcome := Continued;
  }

  /** The first call creates (or empties) the output file and starts counting at zero. */
  lemma FirstCallStarts(job: Job, title: string, totalRows: nat, redirect: string, today: string,
                        rendered: Option<string>, canAppend: bool)
    requires job.sandbox.None?
    ensures var r := Step(job, title, totalRows, redirect, today, rendered, true, canAppend);
            r.job.sandbox.Some? &&
            r.job.sandbox.value.redirect == redirect &&
            r.job.sandbox.value.file == OutputPath(title, today) &&
            (canAppend ==> r.job.sandbox.value.progress == BatchSize &&
                           r.job.files[OutputPath(title, today)] == Chunk(rendered, 0))
  {
  }

  /** When the file cannot be created, the sandbox is cleared, success is false and no file changes. */
  lemma CreateFailureAborts(job: Job, title: string, totalRows: nat, redirect: string, today: string,
                            rendered: Option<string>, canAppend: bool)
    requires job.sandbox.None?
    ensures var r := Step(job, title, totalRows, redirect, today, rendered, false, canAppend);
            r.outcome == CreateFailed && r.job.sandbox.None? && r.job.success == Some(false) &&
            r.job.files == job.files && r.job.results == job.results
  {
  }

  /**
   * A later call appends exactly the chunk to the sandbox's file, advances
   * the progress by exactly 50, and reports the fraction; the other files
   * do not change.
   */
  lemma LaterCallAppends(job: Job, title: string, totalRows: nat, redirect: string, today: string,
                         rendered: Option<string>, canCreate: bool)
    requires job.sandbox.Some?
    ensures var sb := job.sandbox.value;
            var r := Step(job, title, totalRows, redirect, today, rendered, canCreate, true);
            r.outcome == Continued &&
            r.job.sandbox == Some(sb.(progress := sb.progress + 50)) &&
            r.job.files == job.files[sb.file := Contents(job.files, sb.file) + Chunk(rendered, sb.progress)] &&
            r.job.finished == Finished(sb.progress + 50, totalRows) &&
            (sb.progress + 50 < totalRows ==> r.job.results == job.results) &&
            (sb.progress + 50 >= totalRows ==> r.job.results == Some(ExportResults(sb.file, sb.redirect)))
  {
  }

  /** A failed append raises an error and changes neither the progress nor the file. */
  lemma WriteFailureAborts(job: Job, title: string, totalRows: nat, redirect: string, today: string,
                           rendered: Option<string>)
    requires job.sandbox.Some?
    ensures var r := Step(job, title, totalRows, redirect, today, rendered, true, false);
            r.outcome == WriteFailed(job.sandbox.value.file) && r.job == job
  {
  }

  /** The reported fraction lies in (0, 1] and is 1 exactly when every row is covered. */
  lemma FinishedBounds(progress: nat, totalRows: nat)
    requires progress > 0
    ensures 0.0 < Finished(progress, totalRows) <= 1.0
    ensures Finished(progress, totalRows) == 1.0 <==> progress >= totalRows
  {
    if progress < totalRows {
      var f := progress as real / totalRows as real;
      assert f * totalRows as real == progress as real;
      assert f < 1.0;
    }
  }

  /** The reported fraction never goes down as progress grows. */
  lemma FinishedMonotone(p: nat, q: nat, totalRows: nat)
    requires 0 < p <= q
    ensures Finished(p, totalRows) <= Finished(q, totalRows)
  {
    FinishedBounds(p, totalRows);
    if q < totalRows {
      var t := totalRows as real;
      assert (p as real / t) * t == p as real;
      assert (q as real / t) * t == q as real;
    }
  }

  /** The batch run from a fresh context, every call succeeding, over the given pages. */
  function Run(files0: map<string, string>, title: string, totalRows: nat, redirect: string,
               today: string, pages: seq<Option<string>>): Job
  {
    if pages == [] then Job(None, None, 1.0, None, files0)
    else Step(Run(files0, title, totalRows, redirect, today, pages[..|pages| - 1]),
              title, totalRows, redirect, today, pages[|pages| - 1], true, true).job
  }

  /** The CSV text the encoder gives for a page: the header line, then the rows. */
  function Page(header: string, body: string): Option<string>
  {
    Some(header + "\n" + body)
  }

  /**
   * The state of a run after the calls so far: the sandbox holds the first
   * call's redirect, the progress and the output file, the file holds `text`,
   * and the results are set exactly when the progress has reached the total.
   */
  ghost predicate Written(job: Job, path: string, redirect: string, totalRows: nat, progress: nat, text: string)
  {
    && job.sandbox == Some(Sandbox(redirect, progress, path))
    && path in job.files && job.files[path] == text
    && job.finished == Finished(progress, totalRows)
    && (job.results.Some? <==> progress >= totalRows)
    && (job.results.Some? ==> job.results.value == ExportResults(path, redirect))
  }

  /** The first call of a run over a page that begins with the header line. */
  lemma FirstPage(files0: map<string, string>, title: string, totalRows: nat, redirect: string,
                  today: string, header: string, body: string)
    ensures Written(Step(Job(None, None, 1.0, None, files0), title, totalRows, redirect, today,
                         Page(header, body), true, true).job,
                    OutputPath(title, today), redirect, totalRows, 50, header + "\n" + body)
  {
  }

  /** A later call of a run over a page that begins with the header line. */
  lemma NextPage(job: Job, title: string, totalRows: nat, redirect: string, today: string,
                 header: string, body: string, progress: nat, text: string)
    requires '\n' !in header && progress > 0
    requires Written(job, OutputPath(title, today), redirect, totalRows, progress, text)
    ensures Written(Step(job, title, totalRows, redirect, today, Page(header, body), true, true).job,
                    OutputPath(title, today), redirect, totalRows, progress + 50, text + "\n" + body)
  {
    StripHeaderLine(header, body);
  }

  /** The text after one more page: the text so far, a newline and the page's body. */
  lemma TextAfterPage(header: string, bodies: seq<string>)
    requires |bodies| >= 2
    ensures header + "\n" + Join(bodies[..|bodies| - 1], '\n') + "\n" + bodies[|bodies| - 1] ==
            header + "\n" + Join(bodies, '\n')
  {
    var n := |bodies|;
    var front, last := bodies[..n - 1], bodies[n - 1];
    JoinSnoc(front, last, '\n');
    assert front + [last] == bodies;
    var j := Join(front, '\n');
    assert Join(bodies, '\n') == j + ['\n'] + last;
    assert header + "\n" + j + "\n" + last == header + "\n" + (j + ['\n'] + last);
  }

  /**
   * After k calls over pages that each begin with the same header line, the
   * file holds the header once, followed by the bodies of the pages, each
   * after the first preceded by the newline the header strip leaves behind;
   * whatever the file held before the job is gone. The progress is 50k, the
   * fraction is Finished(50k, total), and the results (file and the first
   * call's redirect) are set exactly when 50k reaches the total.
   */
  lemma {:induction false} RunWritesHeaderOnce(files0: map<string, string>, title: string,
                                                totalRows: nat, redirect: string, today: string,
                                                header: string, bodies: seq<string>,
                                                pages: seq<Option<string>>)
    requires '\n' !in header
    requires |pages| == |bodies| >= 1
    requires forall k :: 0 <= k < |pages| ==> pages[k] == Page(header, bodies[k])
    ensures Written(Run(files0, title, totalRows, redirect, today, pages), OutputPath(title, today),
                    redirect, totalRows, 50 * |pages|, header + "\n" + Join(bodies, '\n'))
    decreases |pages|
  {
    var n := |pages|;
    var start := Job(None, None, 1.0, None, files0);
    if n == 1 {
      assert pages[..0] == [];
      assert Run(files0, title, totalRows, redirect, today, pages) ==
             Step(start, title, totalRows, redirect, today, Page(header, bodies[0]), true, true).job;
      FirstPage(files0, title, totalRows, redirect, today, header, bodies[0]);
      assert Join(bodies, '\n') == bodies[0];
    } else {
      var init := pages[..n - 1];
      RunWritesHeaderOnce(files0, title, totalRows, redirect, today, header, bodies[..n - 1], init);
      var before := Run(files0, title, totalRows, redirect, today, init);
      assert Run(files0, title, totalRows, redirect, today, pages) ==
             Step(before, title, totalRows, redirect, today, Page(header, bodies[n - 1]), true, true).job;
      var text := header + "\n" + Join(bodies[..n - 1], '\n');
      assert Written(before, OutputPath(title, today), redirect, totalRows, 50 * |init|, text);
      NextPage(before, title, totalRows, redirect, today, header, bodies[n - 1], 50 * |init|, text);
      TextAfterPage(header, bodies);
      assert 50 * |init| + 50 == 50 * n;
    }
  }

  /** One module's answer to the file-download hook: a denial (-1), or the headers it grants access with. */
  datatype DownloadAnswer = Deny | Grant(headers: seq<(string, string)>)

  /**
   * Access is granted when the merged answers are not empty and hold no
   * denial: some module granted with at least one header, and none denied.
   * A module answering with no headers adds nothing to the merge.
   */
  predicate AccessGranted(answers: seq<DownloadAnswer>)
  {
    (exists k :: 0 <= k < |answers| && answers[k].Grant? && answers[k].headers != []) && Deny !in answers
  }

  /** What the user sees when the batch ends. */
  datatype FinishOutcome =
    | Failed                                          // "Export failed." error message
    | Completed(download: string, redirectTo: string) // "Export complete." with a download, then a redirect
    | NoMessage                                       // access not granted: nothing is said

  /**
   * `Export::exportFinishedCallback`: `existing` is the set of files that
   * exist, `answers` what the modules implementing the download hook say
   * about the file.
   */
  function FinishCallback(success: bool, results: Option<ExportResults>, existing: set<string>,
                          answers: seq<DownloadAnswer>): (o: FinishOutcome)
    ensures o.Failed? <==> !(success && results.Some? && results.value.file in existing)
    ensures o.Completed? <==> success && results.Some? && results.value.file in existing &&
                              (exists k :: 0 <= k < |answers| && answers[k].Grant? && answers[k].headers != []) &&
                              Deny !in answers
    ensures o.Completed? ==> o.download == results.value.file &&
                             o.redirectTo == RemoveAll(results.value.redirect, "/export")
  {
    if success && results.Some? && results.value.file in existing then
      if AccessGranted(answers) then
        Completed(results.value.file, RemoveAll(results.value.redirect, "/export"))
      else NoMessage
    else Failed
  }

  /** A module that answers with no headers grants nothing: the export ends without a message or a redirect. */
  lemma EmptyGrantIsNoAccess(results: ExportResults, existing: set<string>, answers: seq<DownloadAnswer>)
    requires results.file in existing
    requires forall k :: 0 <= k < |answers| ==> answers[k] == Grant([])
    ensures FinishCallback(true, Some(results), existing, answers) == NoMessage
  {
  }

  /**
   * A run that reaches the total hands the callback its own file, so, when
   * some module grants access with headers and none denies it, the export
   * completes and redirects back to the listing.
   */
  lemma FinishedRunCompletes(files0: map<string, string>, title: string, totalRows: nat,
                             redirect: string, today: string, header: string, bodies: seq<string>,
                             pages: seq<Option<string>>, answers: seq<DownloadAnswer>)
    requires '\n' !in header && |bodies| >= 1
    requires |pages| == |bodies| && forall k :: 0 <= k < |pages| ==> pages[k] == Page(header, bodies[k])
    requires 50 * |bodies| >= totalRows
    requires AccessGranted(answers)
    ensures var job := Run(files0, title, totalRows, redirect, today, pages);
            FinishCallback(true, job.results, job.files.Keys, answers) ==
              Completed(OutputPath(title, today), RemoveAll(redirect, "/export"))
  {
    RunWritesHeaderOnce(files0, title, totalRows, redirect, today, header, bodies, pages);
  }
}
