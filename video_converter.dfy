/** `videoConvertFile`: the multipart form for a video target, the
    submission, and the hand-off to the shared poller. */
module VideoConverter {
  import opened Wrappers
  import opened Text
  import opened Files
  import opened Form
  import opened Slots
  import opened Polling
  import opened Submission
  import opened VideoSettings

  /** Where the form is posted. */
  const SubmitUrl := "http://localhost:8000/convertifileapp/convert"

  /** The settings entry of the lower-cased target, if there is one. */
  function Entry(s: VideoSettings, format: string): Option<VideoFormatParams>
  {
    var k := ToLower(format);
    if k in s.formatSpecific then Some(s.formatSpecific[k]) else None
  }

  /** The fields every video form starts with: the codec only when it is
      non-empty, the frame rate whenever it is set (0 included). */
  function VideoHead(file: FileRef, format: string, s: VideoSettings): FormData
  {
    var f := Append(Empty, FileField, FilePart(file));
    var f := Append(f, ConvertTo, Text(format));
    var f := Append(f, VideoRemoveMetadata, Text(BoolToString(s.removeMetadata)));
    var f := AppendIf(f, s.codec != "", VideoCodec, Text(s.codec));
    AppendIf(f, s.fps.Some?, VideoFps, Text(IntToString(s.fps.GetOr(0))))
  }

  /** The fields of the target's entry: profile, level, speed and bitrate
      when truthy, CRF whenever it is set (0 included). */
  function EntryFields(form: FormData, p: VideoFormatParams): FormData
  {
    var f := AppendIf(form, Truthy(p.profile), VideoProfile, Text(p.profile.GetOr("")));
    var f := AppendIf(f, LevelTruthy(p.level), VideoLevel, Text(LevelString(p.level.GetOr(LevelTenths(0)))));
    var f := AppendIf(f, p.crf.Some?, VideoCrf, Text(IntToString(p.crf.GetOr(0))));
    var f := AppendIf(f, Truthy(p.speed), VideoSpeed, Text(p.speed.GetOr("")));
    AppendIf(f, BitrateTruthy(p.bitrate), VideoBitrate, Text(BitrateString(p.bitrate.GetOr(Mbps(0)))))
  }

  /** The form `videoConvertFile` builds; it cannot throw. */
  function VideoForm(file: FileRef, format: string, s: VideoSettings): FormData
  {
    var e := Entry(s, format);
    if e.Some? then EntryFields(VideoHead(file, format, s), e.value) else VideoHead(file, format, s)
  }

  function HeadNames(s: VideoSettings): seq<FieldName>
  {
    [FileField, ConvertTo, VideoRemoveMetadata]
    + (if s.codec != "" then [VideoCodec] else [])
    + (if s.fps.Some? then [VideoFps] else [])
  }

  function HeadValues(file: FileRef, format: string, s: VideoSettings): map<FieldName, FormValue>
  {
    map[FileField := FilePart(file), ConvertTo := Text(format),
        VideoRemoveMetadata := Text(BoolToString(s.removeMetadata))]
    + Only(s.codec != "", VideoCodec, Text(s.codec))
    + Only(s.fps.Some?, VideoFps, Text(IntToString(s.fps.GetOr(0))))
  }

  function EntryNames(e: Option<VideoFormatParams>): seq<FieldName>
  {
    if e.None? then [] else
    var p := e.value;
    (if Truthy(p.profile) then [VideoProfile] else [])
    + (if LevelTruthy(p.level) then [VideoLevel] else [])
    + (if p.crf.Some? then [VideoCrf] else [])
    + (if Truthy(p.speed) then [VideoSpeed] else [])
    + (if BitrateTruthy(p.bitrate) then [VideoBitrate] else [])
  }

  /** The entry's fields as `FormData.get` returns them: the level as its
      `toString`, the bitrate with "M" appended. */
  function EntryValues(e: Option<VideoFormatParams>): map<FieldName, FormValue>
  {
    if e.None? then map[] else
    var p := e.value;
    Only(Truthy(p.profile), VideoProfile, Text(p.profile.GetOr("")))
    + Only(LevelTruthy(p.level), VideoLevel, Text(LevelString(p.level.GetOr(LevelTenths(0)))))
    + Only(p.crf.Some?, VideoCrf, Text(IntToString(p.crf.GetOr(0))))
    + Only(Truthy(p.speed), VideoSpeed, Text(p.speed.GetOr("")))
    + Only(BitrateTruthy(p.bitrate), VideoBitrate, Text(BitrateString(p.bitrate.GetOr(Mbps(0)))))
  }

  /** The meaning of the video form: file, target and metadata flag, then
      codec and frame rate when set, then the set fields of the lower-cased
      target's entry in the order profile, level, CRF, speed, bitrate; every
      name once, so `FormData.get` returns each as the setting it came from. */
  predicate VideoFormSpec(file: FileRef, format: string, s: VideoSettings, r: FormData)
  {
    Names(r) == HeadNames(s) + EntryNames(Entry(s, format))
    && Sent(r) == HeadValues(file, format, s) + EntryValues(Entry(s, format))
  }

  lemma VideoHeadMeaning(file: FileRef, format: string, s: VideoSettings)
    ensures Names(VideoHead(file, format, s)) == HeadNames(s)
    ensures Sent(VideoHead(file, format, s)) == HeadValues(file, format, s)
  {
  }

  lemma EntryFieldsMeaning(form: FormData, p: VideoFormatParams)
    requires VideoProfile !in Sent(form) && VideoLevel !in Sent(form) && VideoCrf !in Sent(form)
    requires VideoSpeed !in Sent(form) && VideoBitrate !in Sent(form)
    ensures Names(EntryFields(form, p)) == Names(form) + EntryNames(Some(p))
    ensures Sent(EntryFields(form, p)) == Sent(form) + EntryValues(Some(p))
  {
    var o1 := Only(Truthy(p.profile), VideoProfile, Text(p.profile.GetOr("")));
    var o2 := Only(LevelTruthy(p.level), VideoLevel, Text(LevelString(p.level.GetOr(LevelTenths(0)))));
    var o3 := Only(p.crf.Some?, VideoCrf, Text(IntToString(p.crf.GetOr(0))));
    var o4 := Only(Truthy(p.speed), VideoSpeed, Text(p.speed.GetOr("")));
    var o5 := Only(BitrateTruthy(p.bitrate), VideoBitrate, Text(BitrateString(p.bitrate.GetOr(Mbps(0)))));
    var f1 := AppendIf(form, Truthy(p.profile), VideoProfile, Text(p.profile.GetOr("")));
    var f2 := AppendIf(f1, LevelTruthy(p.level), VideoLevel, Text(LevelString(p.level.GetOr(LevelTenths(0)))));
    var f3 := AppendIf(f2, p.crf.Some?, VideoCrf, Text(IntToString(p.crf.GetOr(0))));
    var f4 := AppendIf(f3, Truthy(p.speed), VideoSpeed, Text(p.speed.GetOr("")));
    var n1 := if Truthy(p.profile) then [VideoProfile] else [];
    var n2 := if LevelTruthy(p.level) then [VideoLevel] else [];
    var n3 := if p.crf.Some? then [VideoCrf] else [];
    var n4 := if Truthy(p.speed) then [VideoSpeed] else [];
    var n5 := if BitrateTruthy(p.bitrate) then [VideoBitrate] else [];
    assert Names(f4) == Names(form) + n1 + n2 + n3 + n4;
    assert Sent(f4) == Sent(form) + o1 + o2 + o3 + o4;
    ConcatAssoc(Names(form), n1, n2);
    ConcatAssoc(Names(form), n1 + n2, n3);
    ConcatAssoc(Names(form), n1 + n2 + n3, n4);
    ConcatAssoc(Names(form), n1 + n2 + n3 + n4, n5);
    UnionAssoc(Sent(form), o1, o2);
    UnionAssoc(Sent(form), o1 + o2, o3);
    UnionAssoc(Sent(form), o1 + o2 + o3, o4);
    UnionAssoc(Sent(form), o1 + o2 + o3 + o4, o5);
  }

  /** The video form means what `VideoFormSpec` says. */
  lemma VideoFormMeaning(file: FileRef, format: string, s: VideoSettings)
    ensures VideoFormSpec(file, format, s, VideoForm(file, format, s))
  {
    VideoHeadMeaning(file, format, s);
    var e := Entry(s, format);
    if e.Some? {
      EntryFieldsMeaning(VideoHead(file, format, s), e.value);
    }
  }

  /** The format-specific block of `videoConvertFile`, one `append` at a
      time. */
  method AppendEntryFields(form: FormData, p: VideoFormatParams) returns (r: FormData)
    ensures r == EntryFields(form, p)
  {
    r := form;
    if Truthy(p.profile) {
      r := Append(r, VideoProfile, Text(p.profile.value));
    }
    ghost var f1 := r;
    if LevelTruthy(p.level) {
      r := Append(r, VideoLevel, Text(LevelString(p.level.value)));
    }
    assert r == AppendIf(f1, LevelTruthy(p.level), VideoLevel, Text(LevelString(p.level.GetOr(LevelTenths(0)))));
    ghost var f2 := r;
    if p.crf.Some? {
      r := Append(r, VideoCrf, Text(IntToString(p.crf.value)));
    }
    assert r == AppendIf(f2, p.crf.Some?, VideoCrf, Text(IntToString(p.crf.GetOr(0))));
    ghost var f3 := r;
    if Truthy(p.speed) {
      r := Append(r, VideoSpeed, Text(p.speed.value));
    }
    assert r == AppendIf(f3, Truthy(p.speed), VideoSpeed, Text(p.speed.GetOr("")));
    ghost var f4 := r;
    if BitrateTruthy(p.bitrate) {
      r := Append(r, VideoBitrate, Text(BitrateString(p.bitrate.value)));
    }
    assert r == AppendIf(f4, BitrateTruthy(p.bitrate), VideoBitrate, Text(BitrateString(p.bitrate.GetOr(Mbps(0)))));
  }

  /** The form building of `videoConvertFile`, one `append` at a time. */
  method EncodeVideoForm(file: FileRef, format: string, s: VideoSettings) returns (form: FormData)
    ensures form == VideoForm(file, format, s)
    ensures VideoFormSpec(file, format, s, form)
  {
    form := Empty;
    form := Append(form, FileField, FilePart(file));
    form := Append(form, ConvertTo, Text(format));
    form := Append(form, VideoRemoveMetadata, Text(BoolToString(s.removeMetadata)));
    if s.codec != "" {
      form := Append(form, VideoCodec, Text(s.codec));
    }
    if s.fps.Some? {
      form := Append(form, VideoFps, Text(IntToString(s.fps.value)));
    }
    assert form == VideoHead(file, format, s);
    var fmt := ToLower(format);
    if fmt in s.formatSpecific {
      form := AppendEntryFields(form, s.formatSpecific[fmt]);
    }
    VideoFormMeaning(file, format, s);
  }

  /** `videoConvertFile`: "Starting conversion", the form, then submission
      and polling by the shared helper with its defaults, on row `index`
      only. */
  method ConvertFile(ui: JobArrays, index: nat, file: FileRef, format: string, s: VideoSettings,
                     reply: SubmitReply, ticks: seq<Reply>)
    returns (r: JobResult, form: FormData)
    requires ui.HasSlot(index)
    modifies ui
    ensures form == VideoForm(file, format, s)
    ensures ui.HasSlot(index) && ui.OnlyRowChanged(index)
    ensures (ui.SlotAt(index), r) == Job(old(ui.SlotAt(index)), file.name, format, SharedHelper, Success(form), reply, ticks)
  {
    ui.SetStatus(index, StartingText);
    form := EncodeVideoForm(file, format, s);
    r := SendAndPoll(ui, index, file.name, format, SharedHelper, Success(form), reply, ticks);
  }
}
