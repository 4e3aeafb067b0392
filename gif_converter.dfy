/** `gifConvertFile`: the multipart form for a video-to-GIF job, the
    submission, and the hand-off to the shared poller. */
module GifConverter {
  import opened Wrappers
  import opened Text
  import opened Files
  import opened Form
  import opened Slots
  import opened Polling
  import opened Submission

  /** Where the form is posted. */
  const SubmitUrl := "https://utility.toridoesthings.xyz/convertifile/convert"

  /** The GIF settings; width and height are `null` when not chosen, and
      the trim times ride along only when the page adds them. */
  datatype GifSettings = GifSettings(
    removeMetadata: bool,
    quality: int,
    fps: int,
    width: Option<int>,
    height: Option<int>,
    maintainAspectRatio: bool,
    loop: bool,
    dither: bool,
    startTime: Option<real>,
    endTime: Option<real>)

  /** JavaScript truthiness of a nullable number: `null` and 0 are false. */
  predicate Set(n: Option<int>)
  {
    n.Some? && n.value != 0
  }

  /** The six fields every GIF form starts with. */
  function GifHead(file: FileRef, format: string, s: GifSettings): FormData
  {
    var f := Append(Empty, FileField, FilePart(file));
    var f := Append(f, ConvertTo, Text(format));
    var f := Append(f, VideoRemoveMetadata, Text(BoolToString(s.removeMetadata)));
    var f := Append(f, VideoCodec, Text("gif"));
    var f := Append(f, VideoFps, Text(IntToString(s.fps)));
    Append(f, GifQuality, Text(IntToString(s.quality)))
  }

  /** What `FormData.get` returns for the head's names. */
  function HeadValues(file: FileRef, format: string, s: GifSettings): map<FieldName, FormValue>
  {
    map[FileField := FilePart(file), ConvertTo := Text(format),
        VideoRemoveMetadata := Text(BoolToString(s.removeMetadata)),
        VideoCodec := Text("gif"),
        VideoFps := Text(IntToString(s.fps)),
        GifQuality := Text(IntToString(s.quality))]
  }

  /** The form `gifConvertFile` builds; it cannot throw. */
  function GifForm(file: FileRef, format: string, s: GifSettings): FormData
  {
    var f := AppendIf(GifHead(file, format, s), Set(s.width), GifWidth, Text(IntToString(s.width.GetOr(0))));
    var f := AppendIf(f, Set(s.height), GifHeight, Text(IntToString(s.height.GetOr(0))));
    var f := Append(f, GifMaintainAspectRatio, Text(BoolToString(s.maintainAspectRatio)));
    var f := Append(f, GifLoop, Text(BoolToString(s.loop)));
    Append(f, GifDither, Text(BoolToString(s.dither)))
  }

  /** The meaning of the GIF form: file, target, metadata flag, the codec
      "gif", frame rate and quality, then width and height when non-zero,
      then the three flags as "true"/"false"; every name once, so
      `FormData.get` returns each as the setting it came from. */
  predicate GifFormSpec(file: FileRef, format: string, s: GifSettings, r: FormData)
  {
    Names(r) == [FileField, ConvertTo, VideoRemoveMetadata, VideoCodec, VideoFps, GifQuality]
                + (if Set(s.width) then [GifWidth] else [])
                + (if Set(s.height) then [GifHeight] else [])
                + [GifMaintainAspectRatio, GifLoop, GifDither]
    && Sent(r) == HeadValues(file, format, s)
                  + Only(Set(s.width), GifWidth, Text(IntToString(s.width.GetOr(0))))
                  + Only(Set(s.height), GifHeight, Text(IntToString(s.height.GetOr(0))))
                  + map[GifMaintainAspectRatio := Text(BoolToString(s.maintainAspectRatio)),
                        GifLoop := Text(BoolToString(s.loop)),
                        GifDither := Text(BoolToString(s.dither))]
  }

  lemma GifHeadMeaning(file: FileRef, format: string, s: GifSettings)
    ensures Names(GifHead(file, format, s)) == [FileField, ConvertTo, VideoRemoveMetadata, VideoCodec, VideoFps, GifQuality]
    ensures Sent(GifHead(file, format, s)) == HeadValues(file, format, s)
  {
  }

  lemma GifFormMeaning(file: FileRef, format: string, s: GifSettings)
    ensures GifFormSpec(file, format, s, GifForm(file, format, s))
  {
    var f6 := GifHead(file, format, s);
    GifHeadMeaning(file, format, s);
    var f7 := AppendIf(f6, Set(s.width), GifWidth, Text(IntToString(s.width.GetOr(0))));
    var f8 := AppendIf(f7, Set(s.height), GifHeight, Text(IntToString(s.height.GetOr(0))));
    var w := if Set(s.width) then [GifWidth] else [];
    var h := if Set(s.height) then [GifHeight] else [];
    var ow := Only(Set(s.width), GifWidth, Text(IntToString(s.width.GetOr(0))));
    var oh := Only(Set(s.height), GifHeight, Text(IntToString(s.height.GetOr(0))));
    assert Names(f8) == Names(f6) + w + h;
    assert Sent(f8) == HeadValues(file, format, s) + ow + oh;
    assert GifMaintainAspectRatio !in Sent(f8) && GifLoop !in Sent(f8) && GifDither !in Sent(f8);
    AppendThreeMeaning(f8, GifMaintainAspectRatio, Text(BoolToString(s.maintainAspectRatio)),
                       GifLoop, Text(BoolToString(s.loop)), GifDither, Text(BoolToString(s.dither)));
  }

  /** The trim times never reach the form: two settings that differ only in
      them encode to the same form. */
  lemma TrimTimesNotSent(file: FileRef, format: string, s: GifSettings, start: Option<real>, end: Option<real>)
    ensures GifForm(file, format, s.(startTime := start, endTime := end)) == GifForm(file, format, s)
  {
  }

  /** The form building of `gifConvertFile`, one `append` at a time. */
  method EncodeGifForm(file: FileRef, format: string, s: GifSettings) returns (form: FormData)
    ensures form == GifForm(file, format, s)
    ensures GifFormSpec(file, format, s, form)
  {
    form := Empty;
    form := Append(form, FileField, FilePart(file));
    form := Append(form, ConvertTo, Text(format));
    form := Append(form, VideoRemoveMetadata, Text(BoolToString(s.removeMetadata)));
    form := Append(form, VideoCodec, Text("gif"));
    form := Append(form, VideoFps, Text(IntToString(s.fps)));
    form := Append(form, GifQuality, Text(IntToString(s.quality)));
    if Set(s.width) {
      form := Append(form, GifWidth, Text(IntToString(s.width.value)));
    }
    if Set(s.height) {
      form := Append(form, GifHeight, Text(IntToString(s.height.value)));
    }
    form := Append(form, GifMaintainAspectRatio, Text(BoolToString(s.maintainAspectRatio)));
    form := Append(form, GifLoop, Text(BoolToString(s.loop)));
    form := Append(form, GifDither, Text(BoolToString(s.dither)));
    GifFormMeaning(file, format, s);
  }

  /** `gifConvertFile`: "Starting conversion", the form, then submission
      and polling by the shared helper with its defaults, on row `index`
      only. */
  method ConvertFile(ui: JobArrays, index: nat, file: FileRef, format: string, s: GifSettings,
                     reply: SubmitReply, ticks: seq<Reply>)
    returns (r: JobResult, form: FormData)
    requires ui.HasSlot(index)
    modifies ui
    ensures form == GifForm(file, format, s)
    ensures ui.HasSlot(index) && ui.OnlyRowChanged(index)
    ensures (ui.SlotAt(index), r) == Job(old(ui.SlotAt(index)), file.name, format, SharedHelper, Success(form), reply, ticks)
  {
    ui.SetStatus(index, StartingText);
    form := EncodeGifForm(file, format, s);
    r := SendAndPoll(ui, index, file.name, format, SharedHelper, Success(form), reply, ticks);
  }
}
