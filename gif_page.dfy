/** The video-to-GIF page: one video at a time, checked for type, size and
    length before it is taken; one status row; and the convert press that
    hands the video, the settings and the trim selection to the GIF
    converter, or resets the page once a conversion has completed. */
module GifPage {
  import opened Wrappers
  import opened Text
  import opened Files
  import opened Slots
  import opened Polling
  import opened Submission
  import opened GifConverter
  import GifTrim

  const MaxFileMb: nat := 250
  const MaxFileBytes: nat := MaxFileMb * MiB
  const MaxVideoSeconds: nat := 60

  /** The settings a newly taken video starts with. */
  const DefaultSettings := GifSettings(false, 85, 15, None, None, true, true, true, None, None)

  /** The status the page shows as a conversion starts. */
  const PageStartingText := "Starting conversion..."

  /** The notifications of `validateAndAddFile`. */
  datatype GifNotice =
    | NotAVideo
    | TooLarge(limitMb: nat)
    | TooLong(limitSeconds: nat)
    | ValidationFailed

  predicate IsVideo(file: FileRef)
  {
    StartsWith(file.mimeType, "video/")
  }

  /** The checks of `validateAndAddFile`, in order: type, size, then the
      duration the metadata probe reports (`None` when the probe fails).
      `None` means the file is taken. */
  function Check(file: FileRef, duration: Option<real>): Option<GifNotice>
  {
    if !IsVideo(file) then Some(NotAVideo)
    else if file.size > MaxFileBytes then Some(TooLarge(MaxFileMb))
    else if duration.None? then Some(ValidationFailed)
    else if duration.value > MaxVideoSeconds as real then Some(TooLong(MaxVideoSeconds))
    else None
  }

  /** A file is taken exactly when it is a video of at most 250 MiB whose
      probed length is at most 60 seconds; otherwise the first failing
      check names the notification: the type before the size, the size
      before the probe. */
  lemma CheckRules(file: FileRef, duration: Option<real>)
    ensures Check(file, duration).None? <==>
      IsVideo(file) && file.size <= 250 * 1024 * 1024 && duration.Some? && duration.value <= 60.0
    ensures !IsVideo(file) ==> Check(file, duration) == Some(NotAVideo)
    ensures IsVideo(file) && file.size > 250 * 1024 * 1024 ==> Check(file, duration) == Some(TooLarge(250))
    ensures IsVideo(file) && file.size <= 250 * 1024 * 1024 && duration.None? ==>
      Check(file, duration) == Some(ValidationFailed)
  {
  }

  /** The notifications a check raises: none, or the one it names. */
  function NoticesOf(c: Option<GifNotice>): seq<GifNotice>
  {
    if c.Some? then [c.value] else []
  }

  /** The probe stores the duration it reads whether or not the video is
      then taken; it only runs once type and size have passed. */
  function ProbedDuration(file: FileRef, duration: Option<real>, before: real): real
  {
    if IsVideo(file) && file.size <= MaxFileBytes && duration.Some? then duration.value else before
  }

  /** The state of the GIF page. `ui` holds one row: status, progress, and
      the result, whose `null` is the empty descriptor. */
  class GifPage {
    var file: Option<FileRef>
    var filesAdded: bool
    var settings: GifSettings
    var videoDuration: real
    var trimStart: real
    var trimEnd: real
    var isConverting: bool
    var allConversionsComplete: bool
    var notices: seq<GifNotice>
    const ui: JobArrays

    /** The page's arrays are exactly one row. */
    predicate Valid()
      reads this, ui
    {
      |ui.statuses| == 1 && |ui.progresses| == 1 && |ui.results| == 1
    }

    /** The page's one row. */
    function Row(): Slot
      reads this, ui
      requires Valid()
    {
      ui.SlotAt(0)
    }

    constructor ()
      ensures file == None && !filesAdded && settings == DefaultSettings
      ensures videoDuration == 0.0 && trimStart == 0.0 && trimEnd == 0.0
      ensures !isConverting && !allConversionsComplete && notices == []
      ensures fresh(ui) && Valid() && Row() == Slot("", 0, NoDownload)
    {
      file, filesAdded, settings := None, false, DefaultSettings;
      videoDuration, trimStart, trimEnd := 0.0, 0.0, 0.0;
      isConverting, allConversionsComplete, notices := false, false, [];
      ui := new JobArrays();
      new;
      ui.Fill(1, "", 0, NoDownload);
    }

    /** `validateAndAddFile`: the first failing check raises its
        notification and leaves the file as it was; a file that passes
        replaces the current one with fresh default settings. */
    method ValidateAndAdd(f: FileRef, duration: Option<real>)
      modifies this
      ensures notices == old(notices) + NoticesOf(Check(f, duration))
      ensures file == if Check(f, duration).None? then Some(f) else old(file)
      ensures settings == if Check(f, duration).None? then DefaultSettings else old(settings)
      ensures filesAdded == (old(filesAdded) || Check(f, duration).None?)
      ensures videoDuration == ProbedDuration(f, duration, old(videoDuration))
      ensures trimStart == old(trimStart) && trimEnd == old(trimEnd)
      ensures isConverting == old(isConverting) && allConversionsComplete == old(allConversionsComplete)
      ensures old(Valid()) ==> Valid() && Row() == old(Row())
    {
      if !StartsWith(f.mimeType, "video/") {
        notices := notices + [NotAVideo];
        return;
      }
      if f.size > MaxFileBytes {
        notices := notices + [TooLarge(MaxFileMb)];
        return;
      }
      if duration.None? {
        notices := notices + [ValidationFailed];
        return;
      }
      videoDuration := duration.value;
      if duration.value > MaxVideoSeconds as real {
        notices := notices + [TooLong(MaxVideoSeconds)];
        return;
      }
      file := Some(f);
      settings := DefaultSettings;
      filesAdded := true;
    }

    /** `handleClearFile` (and `handleDeleteFile`, which is the same): no
        file, an empty row, default settings and no duration; the trim
        values and both run flags are left as they were. */
    method ClearFile()
      modifies this, ui
      ensures file == None && !filesAdded && settings == DefaultSettings && videoDuration == 0.0
      ensures Valid() && Row() == Slot("", 0, NoDownload)
      ensures trimStart == old(trimStart) && trimEnd == old(trimEnd) && notices == old(notices)
      ensures isConverting == old(isConverting) && allConversionsComplete == old(allConversionsComplete)
    {
      file, filesAdded := None, false;
      ui.Fill(1, "", 0, NoDownload);
      settings := DefaultSettings;
      videoDuration := 0.0;
    }

    /** `handleTrimChange`: the trim bar's latest selection. */
    method HandleTrimChange(start: real, end: real)
      modifies this
      ensures trimStart == start && trimEnd == end
      ensures file == old(file) && filesAdded == old(filesAdded) && settings == old(settings)
      ensures videoDuration == old(videoDuration) && notices == old(notices)
      ensures isConverting == old(isConverting) && allConversionsComplete == old(allConversionsComplete)
    {
      trimStart, trimEnd := start, end;
    }

    /** `handleConvert`: nothing without a file; once a conversion has
        completed, a press clears the file and leaves the completion flag
        set; otherwise the row restarts and the converter runs with the
        settings plus the trim times, the arguments taking precedence over
        the stored values. The form sent is that of the settings alone, so
        the trim selection never reaches the server. Whatever the job
        reports, the conversion ends complete and no longer converting.
        `handed` is the settings object passed to the converter. */
    method HandleConvert(start: Option<real>, end: Option<real>, reply: SubmitReply, ticks: seq<Reply>)
      returns (handed: Option<GifSettings>)
      requires Valid()
      modifies this, ui
      ensures Valid()
      ensures old(file).None? ==>
        handed == None && file == None && filesAdded == old(filesAdded) && settings == old(settings)
        && videoDuration == old(videoDuration) && Row() == old(Row())
        && isConverting == old(isConverting) && allConversionsComplete == old(allConversionsComplete)
      ensures old(file).Some? && old(allConversionsComplete) ==>
        handed == None && file == None && !filesAdded && settings == DefaultSettings && videoDuration == 0.0
        && Row() == Slot("", 0, NoDownload)
        && allConversionsComplete && isConverting == old(isConverting)
      ensures old(file).Some? && !old(allConversionsComplete) ==>
        handed == Some(old(settings).(startTime := Some(start.GetOr(old(trimStart))),
                                      endTime := Some(end.GetOr(old(trimEnd)))))
        && file == old(file) && filesAdded == old(filesAdded) && settings == old(settings)
        && videoDuration == old(videoDuration)
        && Row() == GifRow(old(file).value, old(settings), reply, ticks)
        && allConversionsComplete && !isConverting
      ensures trimStart == old(trimStart) && trimEnd == old(trimEnd) && notices == old(notices)
    {
      if file.None? {
        return None;
      }
      if allConversionsComplete {
        ClearFile();
        return None;
      }
      handed := Convert(start, end, reply, ticks);
    }

    /** The conversion branch of `handleConvert`, with a file present and
        no completed conversion. */
    method Convert(start: Option<real>, end: Option<real>, reply: SubmitReply, ticks: seq<Reply>)
      returns (handed: Option<GifSettings>)
      requires file.Some?
      modifies this, ui
      ensures Valid()
      ensures handed == Some(old(settings).(startTime := Some(start.GetOr(old(trimStart))),
                                            endTime := Some(end.GetOr(old(trimEnd)))))
      ensures file == old(file) && filesAdded == old(filesAdded) && settings == old(settings)
      ensures videoDuration == old(videoDuration)
      ensures Row() == GifRow(file.value, settings, reply, ticks)
      ensures allConversionsComplete && !isConverting
      ensures trimStart == old(trimStart) && trimEnd == old(trimEnd) && notices == old(notices)
    {
      var actualStart := if start.Some? then start.value else trimStart;
      var actualEnd := if end.Some? then end.value else trimEnd;
      isConverting := true;
      allConversionsComplete := false;
      var s := settings.(startTime := Some(actualStart), endTime := Some(actualEnd));
      RunJob(ui, file.value, settings, s, reply, ticks);
      allConversionsComplete := true;
      isConverting := false;
      handed := Some(s);
    }
  }

  /** The row a conversion leaves: the job of the video converted to "gif"
      from the page's starting row, sending the form of `s`. */
  function GifRow(file: FileRef, s: GifSettings, reply: SubmitReply, ticks: seq<Reply>): Slot
  {
    Job(Slot(PageStartingText, 0, NoDownload), file.name, "gif", SharedHelper,
        Success(GifForm(file, "gif", s)), reply, ticks).0
  }

  /** The page's row restarted, then `gifConvertFile` at index 0 with
      `handed`, the settings `s` plus trim times: the row the adapters keep
      is the one the converter writes, and it is the row of `s` alone. */
  method RunJob(ui: JobArrays, file: FileRef, s: GifSettings, handed: GifSettings, reply: SubmitReply, ticks: seq<Reply>)
    requires handed == s.(startTime := handed.startTime, endTime := handed.endTime)
    modifies ui
    ensures |ui.statuses| == 1 && |ui.progresses| == 1 && |ui.results| == 1
    ensures ui.SlotAt(0) == GifRow(file, s, reply, ticks)
  {
    ui.Fill(1, PageStartingText, 0, NoDownload);
    var r, form := ConvertFile(ui, 0, file, "gif", handed, reply, ticks);
    TrimTimesNotSent(file, "gif", s, handed.startTime, handed.endTime);
  }

  /** The trim bar reporting its selection to the page (the debounced
      `onTrimChange` effect, once it fires). */
  method ReportTrim(page: GifPage, bar: GifTrim.TrimBar)
    modifies page
    ensures page.trimStart == bar.startTime && page.trimEnd == bar.endTime
    ensures page.file == old(page.file) && page.settings == old(page.settings)
    ensures page.allConversionsComplete == old(page.allConversionsComplete)
  {
    page.HandleTrimChange(bar.startTime, bar.endTime);
  }

  /** `handleConvertClick`: the bar's own selection is the argument, so it
      takes precedence over whatever the page last stored. */
  method ConvertClick(page: GifPage, bar: GifTrim.TrimBar, reply: SubmitReply, ticks: seq<Reply>)
    returns (handed: Option<GifSettings>)
    requires page.Valid()
    modifies page, page.ui
    ensures page.Valid()
    ensures handed.Some? ==>
      handed.value.startTime == Some(bar.startTime) && handed.value.endTime == Some(bar.endTime)
    ensures handed.Some? <==> old(page.file).Some? && !old(page.allConversionsComplete)
  {
    handed := page.HandleConvert(Some(bar.startTime), Some(bar.endTime), reply, ticks);
  }

  /** Nothing clears the completion flag: once a conversion has completed,
      a newly taken video is dropped by the next press instead of being
      converted. */
  method NextVideoAfterCompletion(page: GifPage, f: FileRef, duration: Option<real>,
                                  start: Option<real>, end: Option<real>, reply: SubmitReply, ticks: seq<Reply>)
    requires page.Valid() && page.allConversionsComplete && Check(f, duration).None?
    modifies page, page.ui
    ensures page.file == None && page.allConversionsComplete
    ensures page.Valid() && page.Row() == Slot("", 0, NoDownload)
  {
    page.ValidateAndAdd(f, duration);
    assert page.file == Some(f);
    var handed := page.HandleConvert(start, end, reply, ticks);
  }
}
