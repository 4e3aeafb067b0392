/** The image converter page: its target list, its limits, the admission
    of dropped or selected files, and the conversion run that hands every
    file to the image converter in turn. */
module ImagePage {
  import opened Wrappers
  import opened Text
  import opened Files
  import opened Slots
  import opened Polling
  import opened Submission
  import opened Batch
  import opened ImageSettings
  import opened ImageConverter

  const AvailableFormats: seq<string> :=
    ["jpg", "png", "webp", "gif", "bmp", "tiff", "ico", "heic", "avif", "pdf", "pbm", "ppm", "tga", "sgi"]
  const MaxFileBytes: nat := 200 * MiB
  const MaxFiles: nat := 10

  /** The settings every new file starts with; there is no pdf entry. */
  const DefaultSettings := ImageSettings(false, false, 100, map[
    "jpg" := ImageFormatParams(Some(true), None, None, None),
    "webp" := ImageFormatParams(Some(true), None, None, None),
    "bmp" := ImageFormatParams(None, Some(true), None, None),
    "tga" := ImageFormatParams(None, Some(true), None, None),
    "png" := ImageFormatParams(Some(true), None, None, None),
    "avif" := ImageFormatParams(None, None, Some(6), None)])

  /** `getAvailableFormats`: every target but the file's own extension, in
      the list's order; never empty. */
  function FormatsFor(file: FileRef): (r: seq<string>)
    ensures forall x :: x in r <==> x in AvailableFormats && x != Extension(file.name)
    ensures Subsequence(r, AvailableFormats)
    ensures |r| > 0
  {
    assert AvailableFormats[0] == "jpg" && AvailableFormats[1] == "png";
    WithoutHead(AvailableFormats, Extension(file.name));
    Without(AvailableFormats, Extension(file.name))
  }

  /** The target a new file starts with: jpg, or png for a jpg file. */
  lemma FirstTarget(file: FileRef)
    ensures FormatsFor(file)[0] == if Extension(file.name) == "jpg" then "png" else "jpg"
  {
    assert AvailableFormats[0] == "jpg" && AvailableFormats[1] == "png";
    WithoutHead(AvailableFormats, Extension(file.name));
  }

  /** A file whose extension is not a target is offered the whole list, in
      order. */
  lemma UnlistedExtensionKeepsAll(file: FileRef)
    requires Extension(file.name) !in AvailableFormats
    ensures FormatsFor(file) == AvailableFormats
  {
    FilterKeepsAll(AvailableFormats, (x: string) => x != Extension(file.name));
  }

  /** `isImageFile`. */
  predicate IsImage(file: FileRef)
  {
    StartsWith(file.mimeType, "image/")
  }

  /** The admission of `handleDrop` and `handleFileSelect`. */
  function ImageAdmission(existing: nat, incoming: seq<FileRef>): Admission
  {
    FilterAdmission(MaxFiles, existing, incoming, IsImage, MaxFileBytes)
  }

  /** More than ten files in all refuses the whole add; within the limit
      exactly the images of at most 200 MiB are taken, in the order of the
      drop, and the rejects are counted for type, then size. */
  lemma AdmissionRules(existing: nat, incoming: seq<FileRef>)
    ensures var a := ImageAdmission(existing, incoming);
      (existing + |incoming| > 10 ==> a.accepted == [] && a.notices == [TooManyFiles(10, existing)])
      && (existing + |incoming| <= 10 ==>
        (forall f :: f in a.accepted <==> f in incoming && IsImage(f) && f.size <= 200 * 1024 * 1024)
        && Subsequence(a.accepted, incoming))
  {
    FilterAdmissionMeaning(MaxFiles, existing, incoming, IsImage, MaxFileBytes);
  }

  /** The first target of each file. */
  function FirstTargets(fs: seq<FileRef>): (r: seq<string>)
    ensures |r| == |fs|
    ensures forall i :: 0 <= i < |fs| ==> r[i] == FormatsFor(fs[i])[0]
  {
    seq(|fs|, i requires 0 <= i < |fs| => FormatsFor(fs[i])[0])
  }

  /** `handleDrop` / `handleFileSelect`: the admission's notifications and
      the taken files appended with their first targets; then, since the
      number of files changed, the settings effect gives every file, old or
      new, a fresh copy of the defaults. */
  method AddFiles(page: Page<string, ImageSettings>, incoming: seq<FileRef>)
    modifies page
    ensures var a := ImageAdmission(|old(page.files)|, incoming);
      page.files == old(page.files) + a.accepted
      && page.selectedFormats == old(page.selectedFormats) + FirstTargets(a.accepted)
      && page.fileSettings == (if |a.accepted| > 0 then seq(|page.files|, _ => DefaultSettings)
                               else old(page.fileSettings))
      && page.notices == old(page.notices) + a.notices
      && page.filesAdded == (old(page.filesAdded) || |a.accepted| > 0)
    ensures page.isConverting == old(page.isConverting)
    ensures page.allConversionsComplete == old(page.allConversionsComplete)
    ensures old(page.Aligned()) ==> page.Aligned()
  {
    var a := ImageAdmission(|page.files|, incoming);
    page.Take(a, FirstTargets(a.accepted), seq(|a.accepted|, _ => DefaultSettings));
    if |a.accepted| > 0 {
      page.ResetSettings(DefaultSettings);
    }
  }

  /** The row file i ends a run with: its job, started from a queued row. */
  function RunRow(files: seq<FileRef>, formats: seq<string>, settings: seq<ImageSettings>,
                  replies: seq<SubmitReply>, ticks: seq<seq<Reply>>, i: nat): Slot
    requires i < |files| && i < |formats| && i < |settings| && i < |replies| && i < |ticks|
  {
    var form := ImageForm(files[i], formats[i], settings[i]);
    Job(Queued, files[i].name, formats[i], SharedHelper, form, replies[i], ticks[i]).0
  }

  /** `handleConvert`: once a run is complete, a press resets the page;
      otherwise every row is queued, the files are converted one after the
      other, and the run ends complete with `isConverting` still set.
      `replies[i]` and `ticks[i]` are what the server answers job i. */
  method HandleConvert(page: Page<string, ImageSettings>, replies: seq<SubmitReply>, ticks: seq<seq<Reply>>)
    requires page.Aligned() && |replies| == |page.files| && |ticks| == |page.files|
    modifies page, page.ui
    ensures old(page.allConversionsComplete) ==>
      page.files == [] && page.selectedFormats == [] && page.fileSettings == []
      && page.ui.statuses == [] && page.ui.progresses == [] && page.ui.results == []
      && !page.filesAdded && !page.isConverting && !page.allConversionsComplete
    ensures !old(page.allConversionsComplete) ==>
      page.allConversionsComplete && page.isConverting
      && page.files == old(page.files) && page.selectedFormats == old(page.selectedFormats)
      && page.fileSettings == old(page.fileSettings)
      && |page.ui.statuses| == |page.files| && |page.ui.progresses| == |page.files|
      && |page.ui.results| == |page.files|
      && forall i :: 0 <= i < |page.files| ==>
        page.ui.SlotAt(i) == RunRow(page.files, page.selectedFormats, page.fileSettings, replies, ticks, i)
    ensures page.notices == old(page.notices)
  {
    if page.allConversionsComplete {
      page.Reset();
      return;
    }
    page.BeginRun();
    RunJobs(page.ui, page.files, page.selectedFormats, page.fileSettings, replies, ticks);
    page.EndRun();
  }

  /** The loop of `handleConvert`: job i runs on row i, which it alone
      writes, starting from a queued row. */
  method RunJobs(ui: JobArrays, files: seq<FileRef>, formats: seq<string>, settings: seq<ImageSettings>,
                 replies: seq<SubmitReply>, ticks: seq<seq<Reply>>)
    requires |formats| == |files| && |settings| == |files| && |replies| == |files| && |ticks| == |files|
    requires |ui.statuses| == |files| && |ui.progresses| == |files| && |ui.results| == |files|
    requires forall j :: 0 <= j < |files| ==> ui.SlotAt(j) == Queued
    modifies ui
    ensures |ui.statuses| == |files| && |ui.progresses| == |files| && |ui.results| == |files|
    ensures forall i :: 0 <= i < |files| ==> ui.SlotAt(i) == RunRow(files, formats, settings, replies, ticks, i)
  {
    var n := |files|;
    var i := 0;
    forall j | 0 <= j < n
      ensures ui.statuses[j] == QueuedText && ui.progresses[j] == 0 && ui.results[j] == NoDownload
    {
      assert ui.SlotAt(j) == Queued;
    }
    while i < n
      invariant 0 <= i <= n
      invariant |ui.statuses| == n && |ui.progresses| == n && |ui.results| == n
      invariant forall j :: 0 <= j < i ==>
        Slot(ui.statuses[j], ui.progresses[j], ui.results[j]) == RunRow(files, formats, settings, replies, ticks, j)
      invariant forall j :: i <= j < n ==>
        ui.statuses[j] == QueuedText && ui.progresses[j] == 0 && ui.results[j] == NoDownload
    {
      var r, form := ConvertFile(ui, i, files[i], formats[i], settings[i], replies[i], ticks[i]);
      i := i + 1;
    }
  }

  /** With the default settings a pdf target has no entry to read, so its
      job ends in an error before anything is sent. */
  lemma DefaultPdfThrows(file: FileRef)
    ensures ImageForm(file, "pdf", DefaultSettings) == Failure(ReadOfUndefined("page_size"))
  {
    ToLowerFixesLowerCase("pdf");
    assert "pdf" !in DefaultSettings.formatSpecific by {
      assert DefaultSettings.formatSpecific.Keys == {"jpg", "webp", "bmp", "tga", "png", "avif"};
      assert "pdf"[0] != "jpg"[0] && "pdf"[0] != "webp"[0] && "pdf"[0] != "bmp"[0];
      assert "pdf"[0] != "tga"[0] && "pdf"[0] != "avif"[0] && "pdf"[1] != "png"[1];
    }
    assert Entry(DefaultSettings, "pdf") == None;
    assert CaseOf("pdf") == PdfCase;
  }
}
