/** What the image, media and document pages share: the parallel per-file
    arrays, the admission of a drop or a selection, deletion, the per-file
    target choice, and the start, end and reset of a conversion run. */
module Batch {
  import opened Files
  import opened Slots

  /** A notification a page raises while admitting files. */
  datatype Notice =
    | TooManyFiles(limit: nat, existing: nat)
    | RejectedForType(count: nat)
    | RejectedForSize(count: nat)
    | MixedMedia(current: string)
    | RejectedForOtherMedia(count: nat, accepted: string)

  /** The files an add accepts, in incoming order, and the notifications it
      raises, in order. */
  datatype Admission = Admission(accepted: seq<FileRef>, notices: seq<Notice>)

  /** The status every row shows while it waits for its turn. */
  const QueuedText := "In queue..."
  const Queued := Slot(QueuedText, 0, NoDownload)

  /** `if (n > 0) addNotification(...)`. */
  function CountNotice(n: nat, notice: Notice): seq<Notice>
  {
    if n > 0 then [notice] else []
  }

  /** The admission of the image and document pages: the whole add is
      refused past `limit` files, before any other test; otherwise the files
      of an accepted kind and at most `maxBytes` bytes are taken, and the
      others are counted in one notification per reason, type first. */
  function FilterAdmission(limit: nat, existing: nat, incoming: seq<FileRef>,
                           allowed: FileRef -> bool, maxBytes: nat): Admission
  {
    if existing + |incoming| > limit then Admission([], [TooManyFiles(limit, existing)])
    else
      var kinds := Filter(incoming, allowed);
      var fits := Filter(kinds, (f: FileRef) => f.size <= maxBytes);
      Admission(fits, CountNotice(|incoming| - |kinds|, RejectedForType(|incoming| - |kinds|))
                      + CountNotice(|kinds| - |fits|, RejectedForSize(|kinds| - |fits|)))
  }

  /** Past the limit nothing is taken; within it exactly the allowed files
      that fit are taken, in the order of the drop, and the notifications
      count the files of the wrong kind and the allowed files that are too
      large. */
  lemma FilterAdmissionMeaning(limit: nat, existing: nat, incoming: seq<FileRef>,
                               allowed: FileRef -> bool, maxBytes: nat)
    ensures var a := FilterAdmission(limit, existing, incoming, allowed, maxBytes);
      (existing + |incoming| > limit ==> a.accepted == [] && a.notices == [TooManyFiles(limit, existing)])
      && (existing + |incoming| <= limit ==>
        (forall f :: f in a.accepted <==> f in incoming && allowed(f) && f.size <= maxBytes)
        && Subsequence(a.accepted, incoming)
        && var wrongKind := |Filter(incoming, (f: FileRef) => !allowed(f))|;
           var tooLarge := |Filter(Filter(incoming, allowed), (f: FileRef) => f.size > maxBytes)|;
           a.notices == CountNotice(wrongKind, RejectedForType(wrongKind))
                        + CountNotice(tooLarge, RejectedForSize(tooLarge))
           && |a.accepted| + wrongKind + tooLarge == |incoming|)
  {
    var kinds := Filter(incoming, allowed);
    FilterPartition(incoming, allowed, (f: FileRef) => !allowed(f));
    FilterPartition(kinds, (f: FileRef) => f.size <= maxBytes, (f: FileRef) => f.size > maxBytes);
    FilterKeepsOrder(incoming, allowed);
    FilterKeepsOrder(kinds, (f: FileRef) => f.size <= maxBytes);
    SubsequenceTrans(Filter(kinds, (f: FileRef) => f.size <= maxBytes), kinds, incoming);
  }

  /** The state a converter page keeps: the chosen files, their targets
      (`F`, the type of one target choice) and settings (`S`), which the page
      keeps parallel, the three conversion arrays in `ui`, the two flags of
      a conversion run, and the notifications raised so far. */
  class Page<F, S> {
    var files: seq<FileRef>
    var filesAdded: bool
    var selectedFormats: seq<F>
    var fileSettings: seq<S>
    var isConverting: bool
    var allConversionsComplete: bool
    var notices: seq<Notice>
    const ui: JobArrays

    /** Files, targets and settings line up. */
    predicate Aligned()
      reads this
    {
      |selectedFormats| == |files| && |fileSettings| == |files|
    }

    constructor ()
      ensures files == [] && selectedFormats == [] && fileSettings == [] && notices == []
      ensures !filesAdded && !isConverting && !allConversionsComplete
      ensures fresh(ui) && ui.statuses == [] && ui.progresses == [] && ui.results == []
      ensures Aligned()
    {
      files, selectedFormats, fileSettings, notices := [], [], [], [];
      filesAdded, isConverting, allConversionsComplete := false, false, false;
      ui := new JobArrays();
    }

    /** The effect of an admission: its notifications, then, when it took
        any file, the files with their first targets and default settings
        appended in order. */
    method Take(a: Admission, formats: seq<F>, settings: seq<S>)
      requires |formats| == |a.accepted| && |settings| == |a.accepted|
      modifies this
      ensures notices == old(notices) + a.notices
      ensures files == old(files) + a.accepted
      ensures selectedFormats == old(selectedFormats) + formats
      ensures fileSettings == old(fileSettings) + settings
      ensures filesAdded == (old(filesAdded) || |a.accepted| > 0)
      ensures isConverting == old(isConverting) && allConversionsComplete == old(allConversionsComplete)
      ensures old(Aligned()) ==> Aligned()
    {
      notices := notices + a.notices;
      if |a.accepted| > 0 {
        files := files + a.accepted;
        selectedFormats := selectedFormats + formats;
        fileSettings := fileSettings + settings;
        filesAdded := true;
      }
    }

    /** `handleDeleteFile`: file k leaves the files, targets, settings and
        statuses; progress and results keep their length. The "files added"
        look is dropped when the list held one file, and set again by the
        page's effect on `files` while any file is left. */
    method Delete(k: nat)
      modifies this, ui
      ensures files == RemoveAt(old(files), k)
      ensures selectedFormats == RemoveAt(old(selectedFormats), k)
      ensures fileSettings == RemoveAt(old(fileSettings), k)
      ensures ui.statuses == RemoveAt(old(ui.statuses), k)
      ensures ui.progresses == old(ui.progresses) && ui.results == old(ui.results)
      ensures filesAdded == (|files| > 0 || (old(filesAdded) && |old(files)| != 1))
      ensures notices == old(notices)
      ensures isConverting == old(isConverting) && allConversionsComplete == old(allConversionsComplete)
      ensures old(Aligned()) ==> Aligned()
    {
      var wasSingle := |files| == 1;
      files := RemoveAt(files, k);
      selectedFormats := RemoveAt(selectedFormats, k);
      ui.RemoveStatusAt(k);
      fileSettings := RemoveAt(fileSettings, k);
      if wasSingle {
        filesAdded := false;
      }
      if |files| > 0 {
        filesAdded := true;
      }
    }

    /** The page's effect on the number of files: every file's settings
        become a fresh copy of `d`, whatever was applied to them before. */
    method ResetSettings(d: S)
      modifies this
      ensures fileSettings == seq(|files|, _ => d)
      ensures files == old(files) && selectedFormats == old(selectedFormats) && notices == old(notices)
      ensures filesAdded == old(filesAdded)
      ensures isConverting == old(isConverting) && allConversionsComplete == old(allConversionsComplete)
      ensures Aligned() <==> |selectedFormats| == |files|
    {
      fileSettings := seq(|files|, _ => d);
    }

    /** `handleDeleteFile` on the image and document pages: the deletion,
        then, when it changed the number of files, the settings effect. */
    method DeleteThenReset(k: nat, d: S)
      modifies this, ui
      ensures files == RemoveAt(old(files), k)
      ensures selectedFormats == RemoveAt(old(selectedFormats), k)
      ensures fileSettings == if k < |old(files)| then seq(|files|, _ => d) else RemoveAt(old(fileSettings), k)
      ensures ui.statuses == RemoveAt(old(ui.statuses), k)
      ensures ui.progresses == old(ui.progresses) && ui.results == old(ui.results)
      ensures filesAdded == (|files| > 0 || (old(filesAdded) && |old(files)| != 1))
      ensures notices == old(notices)
      ensures isConverting == old(isConverting) && allConversionsComplete == old(allConversionsComplete)
      ensures old(Aligned()) ==> Aligned()
    {
      var before := |files|;
      Delete(k);
      if k < before {
        ResetSettings(d);
      }
    }

    /** `handleFormatChange`: only the target of file i changes. */
    method ChangeFormat(i: nat, format: F)
      requires i < |selectedFormats|
      modifies this
      ensures selectedFormats == old(selectedFormats)[i := format]
      ensures files == old(files) && fileSettings == old(fileSettings) && notices == old(notices)
      ensures filesAdded == old(filesAdded)
      ensures isConverting == old(isConverting) && allConversionsComplete == old(allConversionsComplete)
      ensures old(Aligned()) ==> Aligned()
    {
      selectedFormats := selectedFormats[i := format];
    }

    /** `handleClearFiles`: the files, their targets, settings and statuses
        are dropped; progress and results are left as they were. */
    method Clear()
      modifies this, ui
      ensures files == [] && selectedFormats == [] && fileSettings == [] && ui.statuses == []
      ensures ui.progresses == old(ui.progresses) && ui.results == old(ui.results)
      ensures !filesAdded && notices == old(notices)
      ensures isConverting == old(isConverting) && allConversionsComplete == old(allConversionsComplete)
      ensures Aligned()
    {
      files, selectedFormats, fileSettings := [], [], [];
      ui.ClearStatuses();
      filesAdded := false;
    }

    /** The reset a convert press performs once a run is complete. */
    method Reset()
      modifies this, ui
      ensures files == [] && selectedFormats == [] && fileSettings == []
      ensures ui.statuses == [] && ui.progresses == [] && ui.results == []
      ensures !filesAdded && !isConverting && !allConversionsComplete
      ensures notices == old(notices)
      ensures Aligned()
    {
      files, selectedFormats, fileSettings := [], [], [];
      ui.ClearAll();
      filesAdded, isConverting, allConversionsComplete := false, false, false;
    }

    /** The start of a run: the flags, and every row "In queue...", 0 and
        an empty result. */
    method BeginRun()
      modifies this, ui
      ensures isConverting && !allConversionsComplete
      ensures |ui.statuses| == |files| && |ui.progresses| == |files| && |ui.results| == |files|
      ensures forall i :: 0 <= i < |files| ==> ui.SlotAt(i) == Queued
      ensures files == old(files) && selectedFormats == old(selectedFormats)
      ensures fileSettings == old(fileSettings) && notices == old(notices) && filesAdded == old(filesAdded)
    {
      isConverting := true;
      allConversionsComplete := false;
      ui.Fill(|files|, QueuedText, 0, NoDownload);
    }

    /** The end of a run; `isConverting` is left as it was. */
    method EndRun()
      modifies this
      ensures allConversionsComplete
      ensures isConverting == old(isConverting) && files == old(files)
      ensures selectedFormats == old(selectedFormats) && fileSettings == old(fileSettings)
      ensures notices == old(notices) && filesAdded == old(filesAdded)
    {
      allConversionsComplete := true;
    }
  }
}
