/** The document converter page: the extensions it takes, the conversions
    each source format offers, its limits, and the conversion run that hands
    every file to the document converter in turn. */
module DocumentPage {
  import opened Wrappers
  import opened Text
  import opened Files
  import opened Slots
  import opened Polling
  import opened Submission
  import opened Batch
  import opened DocumentConverter

  const AllowedExtensions: seq<string> := ["pdf", "docx", "txt", "jpeg", "png", "tiff", "webp", "bmp"]
  const MaxFileBytes: nat := 100 * MiB
  const MaxFiles: nat := 15

  /** `DOC_CONVERT_MAP`: the targets of each source format that has any. */
  function Conversions(ext: string): Option<seq<string>>
  {
    if ext == "pdf" then Some(["txt", "docx", "jpeg", "png", "tiff", "webp", "bmp"])
    else if ext == "docx" then Some(["pdf", "txt"])
    else if ext == "txt" then Some(["pdf", "docx"])
    else None
  }

  /** `getAvailableFormats`: the conversions of the file's extension but
      the extension itself, in their order, or none. */
  function FormatsFor(file: FileRef): (r: seq<string>)
    ensures Conversions(Extension(file.name)).None? ==> r == []
    ensures Conversions(Extension(file.name)).Some? ==>
      (forall x :: x in r <==> x in Conversions(Extension(file.name)).value && x != Extension(file.name))
      && Subsequence(r, Conversions(Extension(file.name)).value)
  {
    var ext := Extension(file.name);
    match Conversions(ext)
    case Some(targets) => Without(targets, ext)
    case None => []
  }

  /** The target a new file starts with: `getAvailableFormats(file)[0]`,
      which is `undefined` when the list is empty. */
  function FirstTarget(file: FileRef): Option<string>
  {
    var r := FormatsFor(file);
    if |r| > 0 then Some(r[0]) else None
  }

  /** A pdf starts as txt, a docx or txt as pdf; any other file the page
      takes (an image extension without an image MIME type) starts with no
      target at all. */
  lemma FirstTargets(file: FileRef)
    ensures Extension(file.name) == "pdf" ==> FirstTarget(file) == Some("txt")
    ensures Extension(file.name) == "docx" || Extension(file.name) == "txt" ==> FirstTarget(file) == Some("pdf")
    ensures Conversions(Extension(file.name)).None? ==> FirstTarget(file) == None
  {
    var ext := Extension(file.name);
    if ext == "pdf" {
      var targets := ["txt", "docx", "jpeg", "png", "tiff", "webp", "bmp"];
      assert targets[0] == "txt" && targets[1] == "docx";
      WithoutHead(targets, ext);
    } else if ext == "docx" {
      WithoutHead(["pdf", "txt"], ext);
    } else if ext == "txt" {
      WithoutHead(["pdf", "docx"], ext);
    }
  }

  /** `isAllowedDocumentFile`: any file with an image MIME type is refused,
      whatever its extension; otherwise the extension decides. */
  predicate IsAllowed(file: FileRef)
  {
    !StartsWith(file.mimeType, "image/") && Extension(file.name) in AllowedExtensions
  }

  /** The admission of `handleDrop` and `handleFileSelect`. */
  function DocAdmission(existing: nat, incoming: seq<FileRef>): Admission
  {
    FilterAdmission(MaxFiles, existing, incoming, IsAllowed, MaxFileBytes)
  }

  /** More than fifteen files in all refuses the whole add; within the
      limit exactly the allowed files of at most 100 MiB are taken, in the
      order of the drop, and the rejects are counted for type, then size. */
  lemma AdmissionRules(existing: nat, incoming: seq<FileRef>)
    ensures var a := DocAdmission(existing, incoming);
      (existing + |incoming| > 15 ==> a.accepted == [] && a.notices == [TooManyFiles(15, existing)])
      && (existing + |incoming| <= 15 ==>
        (forall f :: f in a.accepted <==> f in incoming && IsAllowed(f) && f.size <= 100 * 1024 * 1024)
        && Subsequence(a.accepted, incoming))
  {
    FilterAdmissionMeaning(MaxFiles, existing, incoming, IsAllowed, MaxFileBytes);
  }

  /** The first target of each file. */
  function FirstTargetsOf(fs: seq<FileRef>): (r: seq<Option<string>>)
    ensures |r| == |fs|
    ensures forall i :: 0 <= i < |fs| ==> r[i] == FirstTarget(fs[i])
  {
    seq(|fs|, i requires 0 <= i < |fs| => FirstTarget(fs[i]))
  }

  /** The settings every file starts with: dpi and quality under "jpg" and
      "webp", dpi under "bmp" and "png"; there is no "jpeg" entry. */
  const DefaultSettings := DocSettings(map[
    "jpg" := DocFormatParams(Some(200), Some(100)),
    "webp" := DocFormatParams(Some(200), Some(100)),
    "bmp" := DocFormatParams(Some(300), None),
    "png" := DocFormatParams(Some(300), None)])

  /** `hasSettings`: only a pdf converted to an image format has a settings
      dialog. */
  predicate HasSettings(file: FileRef, target: string)
  {
    Extension(file.name) == "pdf" && target in ["jpeg", "png", "tiff", "webp", "bmp"]
  }

  /** A jpeg target with the default settings throws on the `quality`
      read: the defaults key that entry "jpg", which no target spells. */
  lemma DefaultJpegThrows(file: FileRef, format: string)
    requires ToLower(format) == "jpeg"
    ensures DocFormOf(file, Some(format), DefaultSettings) == Failure(ReadOfUndefined("quality"))
  {
    assert format !in DefaultSettings.formatSpecific by {
      assert |format| == |ToLower(format)| == 4;
      assert format[0] != 'w' && format[0] != 'b' && format[0] != 'p' by {
        assert ToLower(format)[0] == 'j';
      }
      assert format != "jpg";
    }
  }

  /** `handleDrop` / `handleFileSelect`: the admission's notifications and
      the taken files appended with their first targets; then, since the
      number of files changed, the settings effect gives every file a fresh
      copy of the defaults. */
  method AddFiles(page: Page<Option<string>, DocSettings>, incoming: seq<FileRef>)
    modifies page
    ensures var a := DocAdmission(|old(page.files)|, incoming);
      page.files == old(page.files) + a.accepted
      && page.selectedFormats == old(page.selectedFormats) + FirstTargetsOf(a.accepted)
      && page.fileSettings == (if |a.accepted| > 0 then seq(|page.files|, _ => DefaultSettings)
                               else old(page.fileSettings))
      && page.notices == old(page.notices) + a.notices
      && page.filesAdded == (old(page.filesAdded) || |a.accepted| > 0)
    ensures page.isConverting == old(page.isConverting)
    ensures page.allConversionsComplete == old(page.allConversionsComplete)
    ensures old(page.Aligned()) ==> page.Aligned()
  {
    var a := DocAdmission(|page.files|, incoming);
    page.Take(a, FirstTargetsOf(a.accepted), seq(|a.accepted|, _ => DefaultSettings));
    if |a.accepted| > 0 {
      page.ResetSettings(DefaultSettings);
    }
  }

  /** The row file i ends a run with: its job, started from a queued row. */
  function DocRow(files: seq<FileRef>, formats: seq<Option<string>>, settings: seq<DocSettings>,
                  replies: seq<SubmitReply>, ticks: seq<seq<Reply>>, i: nat): Slot
    requires i < |files| && i < |formats| && i < |settings| && i < |replies| && i < |ticks|
  {
    var form := DocFormOf(files[i], formats[i], settings[i]);
    Job(Queued, files[i].name, formats[i].GetOr("undefined"), Inlined, form, replies[i], ticks[i]).0
  }

  /** `handleConvert`: once a run is complete, a press resets the page;
      otherwise every row is queued, the files are converted one after the
      other, and the run ends complete with `isConverting` still set. */
  method HandleConvert(page: Page<Option<string>, DocSettings>, replies: seq<SubmitReply>, ticks: seq<seq<Reply>>)
    requires page.Aligned() && |replies| == |page.files| && |ticks| == |page.files|
    modifies page, page.ui
    ensures old(page.allConversionsComplete) ==>
      page.files == [] && page.selectedFormats == [] && page.fileSettings == []
      && page.ui.statuses == [] && page.ui.progresses == [] && page.ui.results == []
      && !page.filesAdded && !page.isConverting && !page.allConversionsComplete
    ensures !old(page.allConversionsComplete) ==>
      page.allConversionsComplete && page.isConverting
      && page.files == old(page.files) && page.selectedFormats == old(page.selectedFormats)
      && page.fileSettings == old(page.fileSettings)
      && |page.ui.statuses| == |page.files| && |page.ui.progresses| == |page.files|
      && |page.ui.results| == |page.files|
      && forall i :: 0 <= i < |page.files| ==>
        page.ui.SlotAt(i) == DocRow(page.files, page.selectedFormats, page.fileSettings, replies, ticks, i)
    ensures page.notices == old(page.notices)
  {
    if page.allConversionsComplete {
      page.Reset();
      return;
    }
    page.BeginRun();
    RunJobs(page.ui, page.files, page.selectedFormats, page.fileSettings, replies, ticks);
    page.EndRun();
  }

  /** The loop of `handleConvert`: job i runs on row i, which it alone
      writes, starting from a queued row. */
  method RunJobs(ui: JobArrays, files: seq<FileRef>, formats: seq<Option<string>>, settings: seq<DocSettings>,
                 replies: seq<SubmitReply>, ticks: seq<seq<Reply>>)
    requires |formats| == |files| && |settings| == |files| && |replies| == |files| && |ticks| == |files|
    requires |ui.statuses| == |files| && |ui.progresses| == |files| && |ui.results| == |files|
    requires forall j :: 0 <= j < |files| ==> ui.SlotAt(j) == Queued
    modifies ui
    ensures |ui.statuses| == |files| && |ui.progresses| == |files| && |ui.results| == |files|
    ensures forall i :: 0 <= i < |files| ==> ui.SlotAt(i) == DocRow(files, formats, settings, replies, ticks, i)
  {
    var n := |files|;
    var i := 0;
    forall j | 0 <= j < n
      ensures ui.statuses[j] == QueuedText && ui.progresses[j] == 0 && ui.results[j] == NoDownload
    {
      assert ui.SlotAt(j) == Queued;
    }
    while i < n
      invariant 0 <= i <= n
      invariant |ui.statuses| == n && |ui.progresses| == n && |ui.results| == n
      invariant forall j :: 0 <= j < i ==>
        Slot(ui.statuses[j], ui.progresses[j], ui.results[j]) == DocRow(files, formats, settings, replies, ticks, j)
      invariant forall j :: i <= j < n ==>
        ui.statuses[j] == QueuedText && ui.progresses[j] == 0 && ui.results[j] == NoDownload
    {
      var r, form := ConvertFile(ui, i, files[i], formats[i], settings[i], replies[i], ticks[i]);
      i := i + 1;
    }
  }
}
