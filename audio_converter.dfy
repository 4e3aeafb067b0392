/** `audioConvertFile`: the multipart form for an audio target, the
    submission, and its own inlined copy of the poller. */
module AudioConverter {
  import opened Wrappers
  import opened Text
  import opened Files
  import opened Form
  import opened Slots
  import opened Polling
  import opened Submission
  import opened AudioSettings

  /** Where the form is posted. */
  const SubmitUrl := "http://localhost:8000/convertifileapp/convert"

  /** The settings entry of the lower-cased target, if there is one. */
  function Entry(s: AudioSettings, format: string): Option<AudioFormatParams>
  {
    var k := ToLower(format);
    if k in s.formatSpecific then Some(s.formatSpecific[k]) else None
  }

  /** The fields every audio form starts with: the plain `remove_metadata`
      name, then channels and sample rate when they are set. */
  function AudioHead(file: FileRef, format: string, s: AudioSettings): FormData
  {
    var f := Append(Empty, FileField, FilePart(file));
    var f := Append(f, ConvertTo, Text(format));
    var f := Append(f, RemoveMetadata, Text(BoolToString(s.removeMetadata)));
    var f := AppendIf(f, s.channels.Some?, Channels, Text(IntToString(s.channels.GetOr(0))));
    AppendIf(f, s.sampleRate.Some?, SampleRate, Text(IntToString(s.sampleRate.GetOr(0))))
  }

  /** The fields of the target's entry: the bitrate text verbatim when
      non-empty, the compression level whenever it is set (0 included), the
      lossless flag and the entry's own sample rate when present. */
  function EntryFields(form: FormData, p: AudioFormatParams): FormData
  {
    var f := AppendIf(form, Truthy(p.bitrate), Bitrate, Text(p.bitrate.GetOr("")));
    var f := AppendIf(f, p.compressionLevel.Some?, CompressionLevel, Text(IntToString(p.compressionLevel.GetOr(0))));
    var f := AppendIf(f, p.lossless.Some?, Lossless, Text(BoolToString(p.lossless.GetOr(false))));
    AppendIf(f, p.sampleRate.Some?, SampleRate, Text(IntToString(p.sampleRate.GetOr(0))))
  }

  /** The form `audioConvertFile` builds; it cannot throw. */
  function AudioForm(file: FileRef, format: string, s: AudioSettings): FormData
  {
    var e := Entry(s, format);
    if e.Some? then EntryFields(AudioHead(file, format, s), e.value) else AudioHead(file, format, s)
  }

  function HeadNames(s: AudioSettings): seq<FieldName>
  {
    [FileField, ConvertTo, RemoveMetadata]
    + (if s.channels.Some? then [Channels] else [])
    + (if s.sampleRate.Some? then [SampleRate] else [])
  }

  function HeadValues(file: FileRef, format: string, s: AudioSettings): map<FieldName, FormValue>
  {
    map[FileField := FilePart(file), ConvertTo := Text(format),
        RemoveMetadata := Text(BoolToString(s.removeMetadata))]
    + Only(s.channels.Some?, Channels, Text(IntToString(s.channels.GetOr(0))))
    + Only(s.sampleRate.Some?, SampleRate, Text(IntToString(s.sampleRate.GetOr(0))))
  }

  function EntryNames(e: Option<AudioFormatParams>): seq<FieldName>
  {
    if e.None? then [] else
    var p := e.value;
    (if Truthy(p.bitrate) then [Bitrate] else [])
    + (if p.compressionLevel.Some? then [CompressionLevel] else [])
    + (if p.lossless.Some? then [Lossless] else [])
    + (if p.sampleRate.Some? then [SampleRate] else [])
  }

  /** The entry's fields as `FormData.get` returns them; the entry's sample rate
      only when no top-level rate was sent before it. */
  function EntryValues(e: Option<AudioFormatParams>, s: AudioSettings): map<FieldName, FormValue>
  {
    if e.None? then map[] else
    var p := e.value;
    Only(Truthy(p.bitrate), Bitrate, Text(p.bitrate.GetOr("")))
    + Only(p.compressionLevel.Some?, CompressionLevel, Text(IntToString(p.compressionLevel.GetOr(0))))
    + Only(p.lossless.Some?, Lossless, Text(BoolToString(p.lossless.GetOr(false))))
    + Only(p.sampleRate.Some? && s.sampleRate.None?, SampleRate, Text(IntToString(p.sampleRate.GetOr(0))))
  }

  /** The `sample_rate` parts the head sends: the top-level rate when set. */
  function HeadRates(s: AudioSettings): seq<FormValue>
  {
    if s.sampleRate.Some? then [Text(IntToString(s.sampleRate.value))] else []
  }

  /** The `sample_rate` parts the entry sends: its own rate when set. */
  function EntryRates(e: Option<AudioFormatParams>): seq<FormValue>
  {
    if e.Some? && e.value.sampleRate.Some? then [Text(IntToString(e.value.sampleRate.value))] else []
  }

  /** The meaning of the audio form: file, target and metadata flag, then
      channels and sample rate when set, then the set fields of the
      lower-cased target's entry in the order bitrate, compression level,
      lossless, sample rate. `sample_rate` is sent twice when both rates are
      set; `FormData.get` returns the first, and both values are given in
      order. */
  predicate AudioFormSpec(file: FileRef, format: string, s: AudioSettings, r: FormData)
  {
    AudioFormParts(file, format, s, r)
    && GetAll(r, SampleRate) == HeadRates(s) + EntryRates(Entry(s, format))
  }

  /** The part names of the audio form and the first value of each. */
  predicate AudioFormParts(file: FileRef, format: string, s: AudioSettings, r: FormData)
  {
    Names(r) == HeadNames(s) + EntryNames(Entry(s, format))
    && Sent(r) == HeadValues(file, format, s) + EntryValues(Entry(s, format), s)
  }

  lemma AudioHeadMeaning(file: FileRef, format: string, s: AudioSettings)
    ensures Names(AudioHead(file, format, s)) == HeadNames(s)
    ensures Sent(AudioHead(file, format, s)) == HeadValues(file, format, s)
  {
  }

  lemma EntryFieldsMeaning(form: FormData, p: AudioFormatParams, s: AudioSettings)
    requires Bitrate !in Sent(form) && CompressionLevel !in Sent(form) && Lossless !in Sent(form)
    requires SampleRate in Sent(form) <==> s.sampleRate.Some?
    ensures Names(EntryFields(form, p)) == Names(form) + EntryNames(Some(p))
    ensures Sent(EntryFields(form, p)) == Sent(form) + EntryValues(Some(p), s)
  {
    var o1 := Only(Truthy(p.bitrate), Bitrate, Text(p.bitrate.GetOr("")));
    var o2 := Only(p.compressionLevel.Some?, CompressionLevel, Text(IntToString(p.compressionLevel.GetOr(0))));
    var o3 := Only(p.lossless.Some?, Lossless, Text(BoolToString(p.lossless.GetOr(false))));
    var o4 := Only(p.sampleRate.Some? && s.sampleRate.None?, SampleRate, Text(IntToString(p.sampleRate.GetOr(0))));
    var f1 := AppendIf(form, Truthy(p.bitrate), Bitrate, Text(p.bitrate.GetOr("")));
    var f2 := AppendIf(f1, p.compressionLevel.Some?, CompressionLevel, Text(IntToString(p.compressionLevel.GetOr(0))));
    var f3 := AppendIf(f2, p.lossless.Some?, Lossless, Text(BoolToString(p.lossless.GetOr(false))));
    var f4 := AppendIf(f3, p.sampleRate.Some?, SampleRate, Text(IntToString(p.sampleRate.GetOr(0))));
    var n1 := if Truthy(p.bitrate) then [Bitrate] else [];
    var n2 := if p.compressionLevel.Some? then [CompressionLevel] else [];
    var n3 := if p.lossless.Some? then [Lossless] else [];
    var n4 := if p.sampleRate.Some? then [SampleRate] else [];
    assert Names(f3) == Names(form) + n1 + n2 + n3;
    assert Sent(f3) == Sent(form) + o1 + o2 + o3;
    assert SampleRate in Sent(f3) <==> s.sampleRate.Some?;
    assert Sent(f4) == Sent(f3) + o4;
    ConcatAssoc(Names(form), n1, n2);
    ConcatAssoc(Names(form), n1 + n2, n3);
    ConcatAssoc(Names(form), n1 + n2 + n3, n4);
    UnionAssoc(Sent(form), o1, o2);
    UnionAssoc(Sent(form), o1 + o2, o3);
    UnionAssoc(Sent(form), o1 + o2 + o3, o4);
  }

  /** The head's `sample_rate` parts: the top-level rate, when set. */
  lemma HeadRatesSent(file: FileRef, format: string, s: AudioSettings)
    ensures GetAll(AudioHead(file, format, s), SampleRate) == HeadRates(s)
  {
    var f1 := Append(Empty, FileField, FilePart(file));
    var f2 := Append(f1, ConvertTo, Text(format));
    var f := Append(f2, RemoveMetadata, Text(BoolToString(s.removeMetadata)));
    assert GetAll(f1, SampleRate) == [];
    assert GetAll(f2, SampleRate) == [];
    var g := AppendIf(f, s.channels.Some?, Channels, Text(IntToString(s.channels.GetOr(0))));
    GetAllAppendIf(f, s.channels.Some?, Channels, Text(IntToString(s.channels.GetOr(0))), SampleRate);
    GetAllAppendIf(g, s.sampleRate.Some?, SampleRate, Text(IntToString(s.sampleRate.GetOr(0))), SampleRate);
  }

  /** The entry block adds its own rate, when set, after the `sample_rate`
      parts already sent. */
  lemma EntryRatesSent(form: FormData, p: AudioFormatParams)
    ensures GetAll(EntryFields(form, p), SampleRate) == GetAll(form, SampleRate) + EntryRates(Some(p))
  {
    var f1 := AppendIf(form, Truthy(p.bitrate), Bitrate, Text(p.bitrate.GetOr("")));
    var f2 := AppendIf(f1, p.compressionLevel.Some?, CompressionLevel, Text(IntToString(p.compressionLevel.GetOr(0))));
    var f3 := AppendIf(f2, p.lossless.Some?, Lossless, Text(BoolToString(p.lossless.GetOr(false))));
    GetAllAppendIf(form, Truthy(p.bitrate), Bitrate, Text(p.bitrate.GetOr("")), SampleRate);
    GetAllAppendIf(f1, p.compressionLevel.Some?, CompressionLevel, Text(IntToString(p.compressionLevel.GetOr(0))), SampleRate);
    GetAllAppendIf(f2, p.lossless.Some?, Lossless, Text(BoolToString(p.lossless.GetOr(false))), SampleRate);
    GetAllAppendIf(f3, p.sampleRate.Some?, SampleRate, Text(IntToString(p.sampleRate.GetOr(0))), SampleRate);
  }

  /** The audio form's `sample_rate` parts: the top-level rate, then the
      entry's, each when set. */
  lemma AudioFormRates(file: FileRef, format: string, s: AudioSettings)
    ensures GetAll(AudioForm(file, format, s), SampleRate) == HeadRates(s) + EntryRates(Entry(s, format))
  {
    HeadRatesSent(file, format, s);
    var e := Entry(s, format);
    if e.Some? {
      EntryRatesSent(AudioHead(file, format, s), e.value);
    }
  }

  /** The audio form means what `AudioFormSpec` says. */
  lemma AudioFormMeaning(file: FileRef, format: string, s: AudioSettings)
    ensures AudioFormSpec(file, format, s, AudioForm(file, format, s))
  {
    AudioFormPartsMeaning(file, format, s);
    AudioFormRates(file, format, s);
  }

  /** The audio form's names and first values are what `AudioFormParts`
      says. */
  lemma AudioFormPartsMeaning(file: FileRef, format: string, s: AudioSettings)
    ensures AudioFormParts(file, format, s, AudioForm(file, format, s))
  {
    AudioHeadMeaning(file, format, s);
    var e := Entry(s, format);
    if e.Some? {
      EntryFieldsMeaning(AudioHead(file, format, s), e.value, s);
    }
  }

  /** The entry block adds one more `sample_rate` part when the entry has
      a rate. */
  lemma EntryRateAppended(form: FormData, p: AudioFormatParams)
    requires p.sampleRate.Some?
    ensures multiset(Names(EntryFields(form, p)))[SampleRate] == multiset(Names(form))[SampleRate] + 1
  {
    var f1 := AppendIf(form, Truthy(p.bitrate), Bitrate, Text(p.bitrate.GetOr("")));
    var f2 := AppendIf(f1, p.compressionLevel.Some?, CompressionLevel, Text(IntToString(p.compressionLevel.GetOr(0))));
    AppendIfOtherCount(form, Truthy(p.bitrate), Bitrate, Text(p.bitrate.GetOr("")), SampleRate);
    AppendIfOtherCount(f1, p.compressionLevel.Some?, CompressionLevel, Text(IntToString(p.compressionLevel.GetOr(0))), SampleRate);
    AppendIfOtherCount(f2, p.lossless.Some?, Lossless, Text(BoolToString(p.lossless.GetOr(false))), SampleRate);
  }

  /** The entry block never changes the value `FormData.get` already
      returns for `sample_rate`. */
  lemma EntryRateKept(form: FormData, p: AudioFormatParams)
    requires SampleRate in Sent(form)
    ensures Get(EntryFields(form, p), SampleRate) == Some(Sent(form)[SampleRate])
  {
    var f1 := AppendIf(form, Truthy(p.bitrate), Bitrate, Text(p.bitrate.GetOr("")));
    var f2 := AppendIf(f1, p.compressionLevel.Some?, CompressionLevel, Text(IntToString(p.compressionLevel.GetOr(0))));
    var f3 := AppendIf(f2, p.lossless.Some?, Lossless, Text(BoolToString(p.lossless.GetOr(false))));
    AppendIfKeeps(form, Truthy(p.bitrate), Bitrate, Text(p.bitrate.GetOr("")), SampleRate);
    AppendIfKeeps(f1, p.compressionLevel.Some?, CompressionLevel, Text(IntToString(p.compressionLevel.GetOr(0))), SampleRate);
    AppendIfKeeps(f2, p.lossless.Some?, Lossless, Text(BoolToString(p.lossless.GetOr(false))), SampleRate);
    AppendIfKeeps(f3, p.sampleRate.Some?, SampleRate, Text(IntToString(p.sampleRate.GetOr(0))), SampleRate);
  }

  /** A set top-level sample rate is one `sample_rate` part of the head. */
  lemma HeadRateOnce(file: FileRef, format: string, s: AudioSettings)
    requires s.sampleRate.Some?
    ensures multiset(Names(AudioHead(file, format, s)))[SampleRate] == 1
  {
    AudioHeadMeaning(file, format, s);
    var ch := if s.channels.Some? then [Channels] else [];
    assert HeadNames(s) == [FileField, ConvertTo, RemoveMetadata] + ch + [SampleRate];
  }

  /** With a top-level and an entry sample rate both set, `sample_rate` is
      sent twice: the top-level rate first, the entry's rate last. */
  lemma SampleRateSentTwice(file: FileRef, format: string, s: AudioSettings)
    requires s.sampleRate.Some? && Entry(s, format).Some? && Entry(s, format).value.sampleRate.Some?
    ensures multiset(Names(AudioForm(file, format, s)))[SampleRate] == 2
    ensures GetAll(AudioForm(file, format, s), SampleRate)
      == [Text(IntToString(s.sampleRate.value)), Text(IntToString(Entry(s, format).value.sampleRate.value))]
  {
    HeadRateOnce(file, format, s);
    EntryRateAppended(AudioHead(file, format, s), Entry(s, format).value);
    AudioFormRates(file, format, s);
  }

  /** A top-level sample rate is the one `FormData.get` returns, whatever
      the entry holds. */
  lemma TopLevelRateWins(file: FileRef, format: string, s: AudioSettings)
    requires s.sampleRate.Some?
    ensures Get(AudioForm(file, format, s), SampleRate) == Some(Text(IntToString(s.sampleRate.value)))
  {
    var head := AudioHead(file, format, s);
    AudioHeadMeaning(file, format, s);
    if Entry(s, format).Some? {
      EntryRateKept(head, Entry(s, format).value);
    }
  }

  /** The format-specific block of `audioConvertFile`, one `append` at a
      time. */
  method AppendEntryFields(form: FormData, p: AudioFormatParams) returns (r: FormData)
    ensures r == EntryFields(form, p)
  {
    r := form;
    if Truthy(p.bitrate) {
      r := Append(r, Bitrate, Text(p.bitrate.value));
    }
    ghost var f1 := r;
    if p.compressionLevel.Some? {
      r := Append(r, CompressionLevel, Text(IntToString(p.compressionLevel.value)));
    }
    assert r == AppendIf(f1, p.compressionLevel.Some?, CompressionLevel, Text(IntToString(p.compressionLevel.GetOr(0))));
    ghost var f2 := r;
    if p.lossless.Some? {
      r := Append(r, Lossless, Text(if p.lossless.value then "true" else "false"));
    }
    assert r == AppendIf(f2, p.lossless.Some?, Lossless, Text(BoolToString(p.lossless.GetOr(false))));
    ghost var f3 := r;
    if p.sampleRate.Some? {
      r := Append(r, SampleRate, Text(IntToString(p.sampleRate.value)));
    }
    assert r == AppendIf(f3, p.sampleRate.Some?, SampleRate, Text(IntToString(p.sampleRate.GetOr(0))));
  }

  /** The form building of `audioConvertFile`, one `append` at a time. */
  method EncodeAudioForm(file: FileRef, format: string, s: AudioSettings) returns (form: FormData)
    ensures form == AudioForm(file, format, s)
    ensures AudioFormSpec(file, format, s, form)
  {
    form := Empty;
    form := Append(form, FileField, FilePart(file));
    form := Append(form, ConvertTo, Text(format));
    form := Append(form, RemoveMetadata, Text(BoolToString(s.removeMetadata)));
    if s.channels.Some? {
      form := Append(form, Channels, Text(IntToString(s.channels.value)));
    }
    if s.sampleRate.Some? {
      form := Append(form, SampleRate, Text(IntToString(s.sampleRate.value)));
    }
    assert form == AudioHead(file, format, s);
    var fmt := ToLower(format);
    if fmt in s.formatSpecific {
      form := AppendEntryFields(form, s.formatSpecific[fmt]);
    }
    AudioFormMeaning(file, format, s);
  }

  /** `audioConvertFile`: "Starting conversion", the form, then submission
      and polling by its inlined poller (20 retries, 500 ms), on row
      `index` only. */
  method ConvertFile(ui: JobArrays, index: nat, file: FileRef, format: string, s: AudioSettings,
                     reply: SubmitReply, ticks: seq<Reply>)
    returns (r: JobResult, form: FormData)
    requires ui.HasSlot(index)
    modifies ui
    ensures form == AudioForm(file, format, s)
    ensures ui.HasSlot(index) && ui.OnlyRowChanged(index)
    ensures (ui.SlotAt(index), r) == Job(old(ui.SlotAt(index)), file.name, format, Inlined, Success(form), reply, ticks)
  {
    ui.SetStatus(index, StartingText);
    form := EncodeAudioForm(file, format, s);
    r := SendAndPoll(ui, index, file.name, format, Inlined, Success(form), reply, ticks);
  }
}
