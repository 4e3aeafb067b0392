/** The media converter page: one media kind per page (all video or all
    audio), the admission that keeps it so, the settings effect that gives
    every file the defaults of that kind, and the run that hands each file
    to the video or the audio converter. */
module MediaPage {
  import opened Wrappers
  import opened Text
  import opened Files
  import opened Form
  import opened Slots
  import opened Polling
  import opened Submission
  import opened Batch
  import AudioSettings
  import VideoSettings
  import AudioConverter
  import VideoConverter

  const VideoFormats: seq<string> := ["mp4", "webm", "mkv", "mov", "avi", "wmv", "flv", "ts", "mts"]
  const AudioFormats: seq<string> :=
    ["mp3", "ogg", "opus", "aac", "m4a", "flac", "alac", "wav", "aiff", "wma", "amr", "ac3"]
  /** The size test applies the video limit to every file, audio included. */
  const MaxFileBytes: nat := 1024 * MiB
  const MaxFiles: nat := 5

  /** `getMediaType`: by the MIME type's prefix. */
  datatype MediaType = VideoMedia | AudioMedia | NoMedia

  function MediaTypeOf(file: FileRef): MediaType
  {
    if StartsWith(file.mimeType, "video/") then VideoMedia
    else if StartsWith(file.mimeType, "audio/") then AudioMedia
    else NoMedia
  }

  /** The text `getMediaType` returns. */
  function MediaName(t: MediaType): string
  {
    match t
    case VideoMedia => "video"
    case AudioMedia => "audio"
    case NoMedia => ""
  }

  /** The page's `mediaType`: that of its first file. */
  function PageMedia(files: seq<FileRef>): MediaType
  {
    if files == [] then NoMedia else MediaTypeOf(files[0])
  }

  /** Every file is audio or video, and all are of the kind of the first. */
  predicate SameMedia(files: seq<FileRef>)
  {
    forall i :: 0 <= i < |files| ==> MediaTypeOf(files[i]) != NoMedia && MediaTypeOf(files[i]) == MediaTypeOf(files[0])
  }

  /** `getAvailableFormats`: the targets of the file's kind but its own
      extension; none for a file that is neither. */
  function FormatsFor(file: FileRef): (r: seq<string>)
    ensures MediaTypeOf(file) == VideoMedia ==> forall x :: x in r <==> x in VideoFormats && x != Extension(file.name)
    ensures MediaTypeOf(file) == AudioMedia ==> forall x :: x in r <==> x in AudioFormats && x != Extension(file.name)
    ensures MediaTypeOf(file) == VideoMedia ==> Subsequence(r, VideoFormats)
    ensures MediaTypeOf(file) == AudioMedia ==> Subsequence(r, AudioFormats)
    ensures MediaTypeOf(file) == NoMedia ==> r == []
  {
    match MediaTypeOf(file)
    case VideoMedia => Without(VideoFormats, Extension(file.name))
    case AudioMedia => Without(AudioFormats, Extension(file.name))
    case NoMedia => []
  }

  /** The target a new file starts with: mp4 (webm for an mp4) for video,
      mp3 (ogg for an mp3) for audio. */
  lemma FirstTarget(file: FileRef)
    requires MediaTypeOf(file) != NoMedia
    ensures |FormatsFor(file)| > 0
    ensures MediaTypeOf(file) == VideoMedia ==>
      FormatsFor(file)[0] == if Extension(file.name) == "mp4" then "webm" else "mp4"
    ensures MediaTypeOf(file) == AudioMedia ==>
      FormatsFor(file)[0] == if Extension(file.name) == "mp3" then "ogg" else "mp3"
  {
    if MediaTypeOf(file) == VideoMedia {
      assert VideoFormats[0] == "mp4" && VideoFormats[1] == "webm";
      WithoutHead(VideoFormats, Extension(file.name));
    } else {
      assert AudioFormats[0] == "mp3" && AudioFormats[1] == "ogg";
      WithoutHead(AudioFormats, Extension(file.name));
    }
  }

  /** The dropped or selected files that are audio or video. */
  function ValidMedia(incoming: seq<FileRef>): seq<FileRef>
  {
    Filter(incoming, (f: FileRef) => MediaTypeOf(f) != NoMedia)
  }

  /** `uniqueDroppedTypes.some(type => type !== currentType)`. */
  predicate HasOtherType(valid: seq<FileRef>, t: MediaType)
  {
    exists i :: 0 <= i < |valid| && MediaTypeOf(valid[i]) != t
  }

  /** The kind an add takes: the page's, or that of the first audio or
      video file of the add when the page has none. */
  function AcceptedType(files: seq<FileRef>, valid: seq<FileRef>): MediaType
    requires valid != []
  {
    if PageMedia(files) != NoMedia then PageMedia(files) else MediaTypeOf(valid[0])
  }

  /** The admission of `handleDrop` and `handleFileSelect`, in the order of
      its tests: the count, the files that are neither audio nor video, an
      add with nothing left, an add that mixes kinds with the page's, and
      then the files of the other kind and the files too large, counted. */
  function MediaAdmission(files: seq<FileRef>, incoming: seq<FileRef>): Admission
  {
    if |files| + |incoming| > MaxFiles then Admission([], [TooManyFiles(MaxFiles, |files|)])
    else
      var valid := ValidMedia(incoming);
      var nonMedia := CountNotice(|incoming| - |valid|, RejectedForType(|incoming| - |valid|));
      var current := PageMedia(files);
      if valid == [] then Admission([], nonMedia)
      else if current != NoMedia && HasOtherType(valid, current) then
        Admission([], nonMedia + [MixedMedia(MediaName(current))])
      else
        var t := AcceptedType(files, valid);
        var media := Filter(valid, (f: FileRef) => MediaTypeOf(f) == t);
        var fits := Filter(media, (f: FileRef) => f.size <= MaxFileBytes);
        Admission(fits, nonMedia
                        + CountNotice(|valid| - |media|, RejectedForOtherMedia(|valid| - |media|, MediaName(t)))
                        + CountNotice(|media| - |fits|, RejectedForSize(|media| - |fits|)))
  }

  /** Whatever an add takes comes from the add, is audio or video, is of
      one kind, that of the page when it has one, and fits in 1 GiB. */
  lemma AcceptedOfOneKind(files: seq<FileRef>, incoming: seq<FileRef>)
    ensures var a := MediaAdmission(files, incoming);
      (|files| + |incoming| > MaxFiles ==> a.accepted == [] && a.notices == [TooManyFiles(MaxFiles, |files|)])
      && (a.accepted != [] ==>
        MediaTypeOf(a.accepted[0]) != NoMedia
        && (PageMedia(files) != NoMedia ==> MediaTypeOf(a.accepted[0]) == PageMedia(files))
        && forall f :: f in a.accepted ==>
             f in incoming && f.size <= MaxFileBytes && MediaTypeOf(f) == MediaTypeOf(a.accepted[0]))
  {
    var a := MediaAdmission(files, incoming);
    if |files| + |incoming| <= MaxFiles && a.accepted != [] {
      var valid := ValidMedia(incoming);
      var t := AcceptedType(files, valid);
      assert a.accepted[0] in a.accepted;
      assert t != NoMedia by {
        assert valid[0] in valid;
      }
    }
  }

  /** An add takes its files in the order of the drop. */
  lemma AcceptedInOrder(files: seq<FileRef>, incoming: seq<FileRef>)
    ensures Subsequence(MediaAdmission(files, incoming).accepted, incoming)
  {
    if |files| + |incoming| <= MaxFiles {
      var valid := ValidMedia(incoming);
      FilterKeepsOrder(incoming, (f: FileRef) => MediaTypeOf(f) != NoMedia);
      if valid != [] && !(PageMedia(files) != NoMedia && HasOtherType(valid, PageMedia(files))) {
        var t := AcceptedType(files, valid);
        var media := Filter(valid, (f: FileRef) => MediaTypeOf(f) == t);
        FilterKeepsOrder(valid, (f: FileRef) => MediaTypeOf(f) == t);
        FilterKeepsOrder(media, (f: FileRef) => f.size <= MaxFileBytes);
        SubsequenceTrans(media, valid, incoming);
        SubsequenceTrans(Filter(media, (f: FileRef) => f.size <= MaxFileBytes), media, incoming);
      }
    }
  }

  /** An add to a page that holds files of one kind takes exactly the files
      of that kind that fit, in the order of the drop, unless it brings
      audio or video of the other kind, which refuses it whole with a
      mixing notification. */
  lemma JoinsPageKind(files: seq<FileRef>, incoming: seq<FileRef>)
    requires |files| + |incoming| <= MaxFiles && PageMedia(files) != NoMedia
    ensures var a := MediaAdmission(files, incoming);
      var other := exists f :: f in incoming && MediaTypeOf(f) != NoMedia && MediaTypeOf(f) != PageMedia(files);
      (other ==> a.accepted == [] && a.notices[|a.notices| - 1] == MixedMedia(MediaName(PageMedia(files))))
      && (!other ==> forall f :: f in a.accepted <==>
            f in incoming && MediaTypeOf(f) == PageMedia(files) && f.size <= MaxFileBytes)
    ensures Subsequence(MediaAdmission(files, incoming).accepted, incoming)
  {
    AcceptedInOrder(files, incoming);
    var valid := ValidMedia(incoming);
    var current := PageMedia(files);
    var other := exists f :: f in incoming && MediaTypeOf(f) != NoMedia && MediaTypeOf(f) != current;
    if other {
      var f :| f in incoming && MediaTypeOf(f) != NoMedia && MediaTypeOf(f) != current;
      assert f in valid;
      var i :| 0 <= i < |valid| && valid[i] == f;
      assert HasOtherType(valid, current);
    } else {
      assert !HasOtherType(valid, current) by {
        forall i | 0 <= i < |valid|
          ensures MediaTypeOf(valid[i]) == current
        {
          assert valid[i] in valid;
        }
      }
    }
  }

  /** On an empty page the first audio or video file of the add sets the
      kind: exactly the files of its kind that fit are taken. */
  lemma FirstFileSetsKind(incoming: seq<FileRef>)
    requires |incoming| <= MaxFiles && ValidMedia(incoming) != []
    ensures var t := MediaTypeOf(ValidMedia(incoming)[0]);
      forall f :: f in MediaAdmission([], incoming).accepted <==>
        f in incoming && MediaTypeOf(f) == t && f.size <= MaxFileBytes
  {
    var valid := ValidMedia(incoming);
    assert valid[0] in valid;
  }

  /** The 512 MB audio limit the page declares is not applied: a 600 MiB
      audio file dropped on an empty page is taken. */
  lemma LargeAudioAccepted(file: FileRef)
    requires MediaTypeOf(file) == AudioMedia && file.size == 600 * MiB
    ensures MediaAdmission([], [file]).accepted == [file]
  {
    assert ValidMedia([file]) == [file];
    assert Filter([file], (f: FileRef) => MediaTypeOf(f) == AudioMedia) == [file];
  }

  /** An add keeps a page of one kind a page of one kind. */
  lemma AdmissionKeepsOneKind(files: seq<FileRef>, incoming: seq<FileRef>)
    requires SameMedia(files)
    ensures SameMedia(files + MediaAdmission(files, incoming).accepted)
  {
    var a := MediaAdmission(files, incoming);
    AcceptedOfOneKind(files, incoming);
    var all := files + a.accepted;
    forall i | 0 <= i < |all|
      ensures MediaTypeOf(all[i]) != NoMedia && MediaTypeOf(all[i]) == MediaTypeOf(all[0])
    {
      if i >= |files| {
        assert all[i] in a.accepted;
      }
    }
  }

  /** Deleting a file keeps a page of one kind a page of one kind. */
  lemma RemoveKeepsOneKind(files: seq<FileRef>, k: nat)
    requires SameMedia(files)
    ensures SameMedia(RemoveAt(files, k))
  {
  }

  /** The first target of each file; every file here is audio or video. */
  function FirstTargets(fs: seq<FileRef>): (r: seq<string>)
    requires forall f :: f in fs ==> MediaTypeOf(f) != NoMedia
    ensures |r| == |fs|
    ensures forall i :: 0 <= i < |fs| ==> r[i] == FormatsFor(fs[i])[0]
  {
    seq(|fs|, i requires 0 <= i < |fs| => FirstTarget(fs[i]); FormatsFor(fs[i])[0])
  }

  /** A file's settings: those of the audio or of the video dialog. */
  datatype MediaSettings =
    | AudioChoice(audio: AudioSettings.AudioSettings)
    | VideoChoice(video: VideoSettings.VideoSettings)

  /** The audio defaults: metadata kept, stereo, 44100 Hz, libmp3lame, and
      a bitrate and/or compression level for nine targets. */
  const AudioDefaults := AudioSettings.AudioSettings(false, Some(2), Some(44100), "libmp3lame", map[
    "mp3" := AudioSettings.AudioFormatParams(Some("192k"), Some(6), None, None),
    "ogg" := AudioSettings.AudioFormatParams(Some("192k"), Some(10), None, None),
    "opus" := AudioSettings.AudioFormatParams(Some("192k"), Some(10), None, None),
    "aac" := AudioSettings.AudioFormatParams(Some("192k"), None, None, None),
    "m4a" := AudioSettings.AudioFormatParams(Some("192k"), None, None, None),
    "flac" := AudioSettings.AudioFormatParams(None, Some(5), None, None),
    "wma" := AudioSettings.AudioFormatParams(Some("192k"), None, None, None),
    "amr" := AudioSettings.AudioFormatParams(Some("192k"), None, None, None),
    "ac3" := AudioSettings.AudioFormatParams(Some("192k"), None, None, None)])

  /** The H.264 entry the video defaults give mp4, mkv, mov, ts and mts:
      level and bitrate are the texts "4.0" and "8000". */
  const H264Defaults := VideoSettings.VideoFormatParams(Some("main"), Some(VideoSettings.LevelText("4.0")), Some(23),
                                                        Some("medium"), Some(VideoSettings.BitrateText("8000")))

  /** The video defaults: metadata kept, libx264, no frame rate. */
  const VideoDefaults := VideoSettings.VideoSettings(false, "libx264", None, map[
    "webm" := VideoSettings.VideoFormatParams(None, None, None, Some("good"), Some(VideoSettings.BitrateText("6000"))),
    "mkv" := H264Defaults,
    "mov" := H264Defaults,
    "ts" := H264Defaults,
    "mts" := H264Defaults,
    "mp4" := H264Defaults])

  /** `defaultSettings`: by the page's kind, audio when it has none. */
  function DefaultsFor(t: MediaType): MediaSettings
  {
    if t == VideoMedia then VideoChoice(VideoDefaults) else AudioChoice(AudioDefaults)
  }

  /** Every file of a page gets the defaults of the page's kind. */
  function KindDefaults(files: seq<FileRef>): (r: seq<MediaSettings>)
    ensures |r| == |files|
    ensures forall i :: 0 <= i < |r| ==> r[i] == DefaultsFor(PageMedia(files))
  {
    seq(|files|, _ => DefaultsFor(PageMedia(files)))
  }

  lemma H264Values()
    ensures var v := VideoConverter.EntryValues(Some(H264Defaults));
      VideoBitrate in v && v[VideoBitrate] == Text("8000M") && VideoLevel in v && v[VideoLevel] == Text("4.0")
  {
    assert VideoSettings.BitrateString(VideoSettings.BitrateText("8000")) == "8000M";
  }

  /** Any video settings whose entry for the target is the H.264 default
      send level "4.0" and bitrate "8000M". */
  lemma H264EntrySent(file: FileRef, format: string, s: VideoSettings.VideoSettings)
    requires VideoConverter.Entry(s, format) == Some(H264Defaults)
    ensures var form := VideoConverter.VideoForm(file, format, s);
      Get(form, VideoBitrate) == Some(Text("8000M")) && Get(form, VideoLevel) == Some(Text("4.0"))
  {
    VideoConverter.VideoFormMeaning(file, format, s);
    H264Values();
  }

  /** An mp4 job (in any casing) with the video defaults sends level "4.0"
      and the bitrate "8000M": the default bitrate text gets the unit
      appended. */
  lemma DefaultMp4Fields(file: FileRef, format: string)
    requires ToLower(format) == "mp4"
    ensures var form := VideoConverter.VideoForm(file, format, VideoDefaults);
      Get(form, VideoBitrate) == Some(Text("8000M")) && Get(form, VideoLevel) == Some(Text("4.0"))
  {
    assert VideoConverter.Entry(VideoDefaults, format) == Some(H264Defaults);
    H264EntrySent(file, format, VideoDefaults);
  }

  /** The settings a file has fit the page's kind; any fit an empty page. */
  predicate Fits(t: MediaType, s: MediaSettings)
  {
    match t
    case AudioMedia => s.AudioChoice?
    case VideoMedia => s.VideoChoice?
    case NoMedia => true
  }

  /** What the media page keeps true: its lists line up, its files are of
      one kind, and every file's settings are of that kind. */
  predicate MediaValid(page: Page<string, MediaSettings>)
    reads page
  {
    page.Aligned() && SameMedia(page.files)
    && forall i :: 0 <= i < |page.fileSettings| ==> Fits(PageMedia(page.files), page.fileSettings[i])
  }

  /** The settings effect: when the page has a kind, every file gets a
      fresh copy of that kind's defaults. */
  method SettingsEffect(page: Page<string, MediaSettings>)
    modifies page
    ensures PageMedia(page.files) != NoMedia ==> page.fileSettings == KindDefaults(page.files)
    ensures PageMedia(page.files) == NoMedia ==> page.fileSettings == old(page.fileSettings)
    ensures page.files == old(page.files) && page.selectedFormats == old(page.selectedFormats)
    ensures page.notices == old(page.notices) && page.filesAdded == old(page.filesAdded)
    ensures page.isConverting == old(page.isConverting)
    ensures page.allConversionsComplete == old(page.allConversionsComplete)
  {
    var t := PageMedia(page.files);
    if t != NoMedia {
      page.ResetSettings(DefaultsFor(t));
    }
  }

  /** `handleDrop` / `handleFileSelect`: the admission's notifications, the
      taken files appended with their first targets, and then, the number of
      files having changed, every file's settings reset to the defaults of
      the page's kind. The page stays of one kind. */
  method AddFiles(page: Page<string, MediaSettings>, incoming: seq<FileRef>)
    requires MediaValid(page)
    modifies page
    ensures var a := MediaAdmission(old(page.files), incoming);
      page.files == old(page.files) + a.accepted
      && page.notices == old(page.notices) + a.notices
      && page.filesAdded == (old(page.filesAdded) || |a.accepted| > 0)
      && (|a.accepted| > 0 ==>
            page.selectedFormats == old(page.selectedFormats) + FirstTargets(a.accepted)
            && page.fileSettings == KindDefaults(page.files))
      && (|a.accepted| == 0 ==>
            page.selectedFormats == old(page.selectedFormats) && page.fileSettings == old(page.fileSettings))
    ensures page.isConverting == old(page.isConverting)
    ensures page.allConversionsComplete == old(page.allConversionsComplete)
    ensures MediaValid(page)
  {
    var a := MediaAdmission(page.files, incoming);
    AcceptedOfOneKind(page.files, incoming);
    AdmissionKeepsOneKind(page.files, incoming);
    var oldType := PageMedia(page.files);
    page.Take(a, FirstTargets(a.accepted), seq(|a.accepted|, _ => DefaultsFor(oldType)));
    if |a.accepted| > 0 {
      assert page.files[0] in page.files;
      SettingsEffect(page);
    }
  }

  /** `handleDeleteFile`: file k leaves the page; when that changes the
      number of files and some remain, their settings are reset to the
      defaults of the page's kind. The page stays of one kind. */
  method DeleteFile(page: Page<string, MediaSettings>, k: nat)
    requires MediaValid(page)
    modifies page, page.ui
    ensures page.files == RemoveAt(old(page.files), k)
    ensures page.selectedFormats == RemoveAt(old(page.selectedFormats), k)
    ensures page.fileSettings ==
      if k < |old(page.files)| && page.files != [] then KindDefaults(page.files)
      else RemoveAt(old(page.fileSettings), k)
    ensures page.ui.statuses == RemoveAt(old(page.ui.statuses), k)
    ensures page.ui.progresses == old(page.ui.progresses) && page.ui.results == old(page.ui.results)
    ensures page.filesAdded == (|page.files| > 0 || (old(page.filesAdded) && |old(page.files)| != 1))
    ensures page.notices == old(page.notices)
    ensures MediaValid(page)
  {
    ghost var oldFiles := page.files;
    var before := |page.files|;
    page.Delete(k);
    RemoveKeepsOneKind(oldFiles, k);
    if k < before {
      if page.files != [] {
        assert page.files[0] in page.files;
      }
      SettingsEffect(page);
    }
  }

  /** The row file i ends a run with: the job of the converter of the
      page's kind, started from a queued row; an empty page runs none. */
  function MediaRow(t: MediaType, files: seq<FileRef>, formats: seq<string>, settings: seq<MediaSettings>,
                    replies: seq<SubmitReply>, ticks: seq<seq<Reply>>, i: nat): Slot
    requires i < |files| && i < |formats| && i < |settings| && i < |replies| && i < |ticks|
    requires Fits(t, settings[i])
  {
    match t
    case AudioMedia =>
      var form := AudioConverter.AudioForm(files[i], formats[i], settings[i].audio);
      Job(Queued, files[i].name, formats[i], Inlined, Success(form), replies[i], ticks[i]).0
    case VideoMedia =>
      var form := VideoConverter.VideoForm(files[i], formats[i], settings[i].video);
      Job(Queued, files[i].name, formats[i], SharedHelper, Success(form), replies[i], ticks[i]).0
    case NoMedia => Queued
  }

  /** `handleConvert`: once a run is complete, a press resets the page;
      otherwise every row is queued and each file is handed, in order, to
      the converter of the page's kind; the run ends complete with
      `isConverting` still set. */
  method HandleConvert(page: Page<string, MediaSettings>, replies: seq<SubmitReply>, ticks: seq<seq<Reply>>)
    requires MediaValid(page) && |replies| == |page.files| && |ticks| == |page.files|
    modifies page, page.ui
    ensures old(page.allConversionsComplete) ==>
      page.files == [] && page.selectedFormats == [] && page.fileSettings == []
      && page.ui.statuses == [] && page.ui.progresses == [] && page.ui.results == []
      && !page.filesAdded && !page.isConverting && !page.allConversionsComplete
    ensures !old(page.allConversionsComplete) ==>
      page.allConversionsComplete && page.isConverting
      && page.files == old(page.files) && page.selectedFormats == old(page.selectedFormats)
      && page.fileSettings == old(page.fileSettings)
      && |page.ui.statuses| == |page.files| && |page.ui.progresses| == |page.files|
      && |page.ui.results| == |page.files|
      && forall i :: 0 <= i < |page.files| ==>
        page.ui.SlotAt(i) == MediaRow(PageMedia(page.files), page.files, page.selectedFormats, page.fileSettings,
                                      replies, ticks, i)
    ensures page.notices == old(page.notices)
    ensures MediaValid(page)
  {
    if page.allConversionsComplete {
      page.Reset();
      return;
    }
    page.BeginRun();
    RunJobs(page.ui, PageMedia(page.files), page.files, page.selectedFormats, page.fileSettings, replies, ticks);
    page.EndRun();
  }

  /** The loop of `handleConvert`: job i runs on row i, which it alone
      writes, starting from a queued row. */
  method RunJobs(ui: JobArrays, t: MediaType, files: seq<FileRef>, formats: seq<string>,
                 settings: seq<MediaSettings>, replies: seq<SubmitReply>, ticks: seq<seq<Reply>>)
    requires |formats| == |files| && |settings| == |files| && |replies| == |files| && |ticks| == |files|
    requires forall j :: 0 <= j < |settings| ==> Fits(t, settings[j])
    requires |ui.statuses| == |files| && |ui.progresses| == |files| && |ui.results| == |files|
    requires forall j :: 0 <= j < |files| ==> ui.SlotAt(j) == Queued
    modifies ui
    ensures |ui.statuses| == |files| && |ui.progresses| == |files| && |ui.results| == |files|
    ensures forall i :: 0 <= i < |files| ==> ui.SlotAt(i) == MediaRow(t, files, formats, settings, replies, ticks, i)
  {
    var n := |files|;
    var i := 0;
    forall j | 0 <= j < n
      ensures ui.statuses[j] == QueuedText && ui.progresses[j] == 0 && ui.results[j] == NoDownload
    {
      assert ui.SlotAt(j) == Queued;
    }
    while i < n
      invariant 0 <= i <= n
      invariant |ui.statuses| == n && |ui.progresses| == n && |ui.results| == n
      invariant forall j :: 0 <= j < i ==>
        Slot(ui.statuses[j], ui.progresses[j], ui.results[j]) == MediaRow(t, files, formats, settings, replies, ticks, j)
      invariant forall j :: i <= j < n ==>
        ui.statuses[j] == QueuedText && ui.progresses[j] == 0 && ui.results[j] == NoDownload
    {
      match t {
        case AudioMedia =>
          var r, form := AudioConverter.ConvertFile(ui, i, files[i], formats[i], settings[i].audio, replies[i], ticks[i]);
        case VideoMedia =>
          var r, form := VideoConverter.ConvertFile(ui, i, files[i], formats[i], settings[i].video, replies[i], ticks[i]);
        case NoMedia =>
      }
      i := i + 1;
    }
  }
}
