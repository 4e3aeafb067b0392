/** `convertFile` for images: the multipart form, the submission, and the
    hand-off to the shared poller. */
module ImageConverter {
  import opened Wrappers
  import opened Text
  import opened Files
  import opened Form
  import opened Slots
  import opened Polling
  import opened Submission
  import opened ImageSettings

  /** Where the form is posted; the poller afterwards asks the local status
      and result endpoints (`Polling.ResultBase`), not this host. */
  const SubmitUrl := "https://utility.toridoesthings.xyz/convertifile/convert"

  /** The branches of the format switch. */
  datatype SwitchCase = OptimizeCase | BmpCase | TgaCase | AvifCase | PdfCase | DefaultCase

  /** Which branch a lower-cased target takes. */
  function CaseOf(k: string): SwitchCase
  {
    if k == "jpg" || k == "webp" || k == "png" then OptimizeCase
    else if k == "bmp" then BmpCase
    else if k == "tga" then TgaCase
    else if k == "avif" then AvifCase
    else if k == "pdf" then PdfCase
    else DefaultCase
  }

  /** The settings entry the switch reads, if there is one. */
  function Entry(s: ImageSettings, k: string): Option<ImageFormatParams>
  {
    if k in s.formatSpecific then Some(s.formatSpecific[k]) else None
  }

  /** The TypeError the switch throws when the entry it reads, or the field
      it calls `toString` on, is missing; the pdf branch calls nothing on its
      field. */
  function SwitchReadError(c: SwitchCase, e: Option<ImageFormatParams>): Option<EncodeError>
  {
    match c
    case OptimizeCase =>
      if e.None? then Some(ReadOfUndefined("optimize")) else if e.value.optimize.None? then Some(ReadOfUndefined("toString")) else None
    case BmpCase | TgaCase =>
      if e.None? then Some(ReadOfUndefined("compression")) else if e.value.compression.None? then Some(ReadOfUndefined("toString")) else None
    case AvifCase =>
      if e.None? then Some(ReadOfUndefined("speed")) else if e.value.speed.None? then Some(ReadOfUndefined("toString")) else None
    case PdfCase =>
      if e.None? then Some(ReadOfUndefined("page_size")) else None
    case DefaultCase => None
  }

  /** The fields every image form starts with. */
  function ImageHead(file: FileRef, format: string, s: ImageSettings): FormData
  {
    var f := Append(Empty, FileField, FilePart(file));
    var f := Append(f, ConvertTo, Text(format));
    var f := Append(f, RemoveMetadata, Text(BoolToString(s.removeMetadata)));
    var f := Append(f, Compression, Text(BoolToString(s.compression)));
    if s.compression then Append(f, Quality, Text(IntToString(s.quality))) else f
  }

  /** The switch, appending to `form`: one field for a target it names,
      five defaults for any other. A missing `page_size` is appended as the
      text "undefined", as `FormData` does. */
  function SwitchFields(form: FormData, c: SwitchCase, e: Option<ImageFormatParams>): Result<FormData, EncodeError>
  {
    if SwitchReadError(c, e).Some? then Failure(SwitchReadError(c, e).value)
    else
      match c
      case OptimizeCase => Success(Append(form, Optimize, Text(BoolToString(e.value.optimize.value))))
      case BmpCase => Success(Append(form, BmpCompression, Text(BoolToString(e.value.compression.value))))
      case TgaCase => Success(Append(form, TgaCompression, Text(BoolToString(e.value.compression.value))))
      case AvifCase => Success(Append(form, AvifSpeed, Text(IntToString(e.value.speed.value))))
      case PdfCase => Success(Append(form, PageSize, Text(e.value.pageSize.GetOr("undefined"))))
      case DefaultCase => Success(DefaultFields(form))
  }

  /** The switch's `default` branch. */
  function DefaultFields(form: FormData): FormData
  {
    var f := Append(form, Optimize, Text("false"));
    var f := Append(f, BmpCompression, Text("true"));
    var f := Append(f, TgaCompression, Text("true"));
    var f := Append(f, AvifSpeed, Text("6"));
    Append(f, PageSize, Text("A4"))
  }

  /** The form `convertFile` builds. */
  function ImageForm(file: FileRef, format: string, s: ImageSettings): Result<FormData, EncodeError>
  {
    var k := ToLower(format);
    SwitchFields(ImageHead(file, format, s), CaseOf(k), Entry(s, k))
  }

  /** The names a branch of the switch appends, in order. */
  function CaseNames(c: SwitchCase): seq<FieldName>
  {
    match c
    case OptimizeCase => [Optimize]
    case BmpCase => [BmpCompression]
    case TgaCase => [TgaCompression]
    case AvifCase => [AvifSpeed]
    case PdfCase => [PageSize]
    case DefaultCase => [Optimize, BmpCompression, TgaCompression, AvifSpeed, PageSize]
  }

  /** What `FormData.get` returns for the fields a branch sends: the target's
      own setting, or the defaults `false`, `true`, `true`, `6` and `A4`. */
  function CaseValues(c: SwitchCase, e: Option<ImageFormatParams>): map<FieldName, FormValue>
    requires SwitchReadError(c, e).None?
  {
    match c
    case OptimizeCase => map[Optimize := Text(BoolToString(e.value.optimize.value))]
    case BmpCase => map[BmpCompression := Text(BoolToString(e.value.compression.value))]
    case TgaCase => map[TgaCompression := Text(BoolToString(e.value.compression.value))]
    case AvifCase => map[AvifSpeed := Text(IntToString(e.value.speed.value))]
    case PdfCase => map[PageSize := Text(e.value.pageSize.GetOr("undefined"))]
    case DefaultCase =>
      map[Optimize := Text("false"), BmpCompression := Text("true"), TgaCompression := Text("true"),
          AvifSpeed := Text("6"), PageSize := Text("A4")]
  }

  /** What `FormData.get` returns for the head: the file, the target as given,
      both flags, and the quality iff compression is on. */
  function HeadValues(file: FileRef, format: string, s: ImageSettings): map<FieldName, FormValue>
  {
    map[FileField := FilePart(file), ConvertTo := Text(format),
        RemoveMetadata := Text(BoolToString(s.removeMetadata)),
        Compression := Text(BoolToString(s.compression))]
    + (if s.compression then map[Quality := Text(IntToString(s.quality))] else map[])
  }

  /** The meaning of the image form: file, target, metadata flag and
      compression flag in that order, quality right after them iff
      compression is on, then the fields of the lower-cased target's branch,
      every name once, so `FormData.get` returns each as the setting it came from.
      A missing entry or field makes the encoding throw instead. */
  predicate ImageFormSpec(file: FileRef, format: string, s: ImageSettings, r: Result<FormData, EncodeError>)
  {
    var k := ToLower(format);
    var c := CaseOf(k);
    var e := Entry(s, k);
    (r.Failure? <==> SwitchReadError(c, e).Some?)
    && (r.Failure? ==> r.error == SwitchReadError(c, e).value)
    && (r.Success? ==>
      Names(r.value) == [FileField, ConvertTo, RemoveMetadata, Compression]
                        + (if s.compression then [Quality] else []) + CaseNames(c)
      && Sent(r.value) == HeadValues(file, format, s) + CaseValues(c, e))
  }

  /** The head: its names in order, each read back as its setting. */
  lemma ImageHeadMeaning(file: FileRef, format: string, s: ImageSettings)
    ensures var f := ImageHead(file, format, s);
      Names(f) == [FileField, ConvertTo, RemoveMetadata, Compression] + (if s.compression then [Quality] else [])
      && Sent(f) == HeadValues(file, format, s)
  {
  }

  /** A branch that does not throw appends exactly its names, and
      `FormData.get` returns their values besides everything it returned before. */
  lemma SwitchFieldsMeaning(form: FormData, c: SwitchCase, e: Option<ImageFormatParams>)
    requires Optimize !in Sent(form) && BmpCompression !in Sent(form) && TgaCompression !in Sent(form)
    requires AvifSpeed !in Sent(form) && PageSize !in Sent(form)
    ensures var r := SwitchFields(form, c, e);
      (r.Failure? <==> SwitchReadError(c, e).Some?)
      && (r.Success? ==>
        Names(r.value) == Names(form) + CaseNames(c)
        && Sent(r.value) == Sent(form) + CaseValues(c, e))
  {
    if c == DefaultCase {
      DefaultsMeaning(form);
    }
  }

  /** The `default` branch sends its five names, in order, with their
      default values. */
  lemma DefaultsMeaning(form: FormData)
    requires Optimize !in Sent(form) && BmpCompression !in Sent(form) && TgaCompression !in Sent(form)
    requires AvifSpeed !in Sent(form) && PageSize !in Sent(form)
    ensures Names(DefaultFields(form)) == Names(form) + CaseNames(DefaultCase)
    ensures Sent(DefaultFields(form)) == Sent(form) + CaseValues(DefaultCase, None)
  {
    var f1 := Append(form, Optimize, Text("false"));
    var f2 := Append(f1, BmpCompression, Text("true"));
    var f3 := Append(f2, TgaCompression, Text("true"));
    var f4 := Append(f3, AvifSpeed, Text("6"));
    assert Names(f4) == Names(form) + [Optimize, BmpCompression, TgaCompression, AvifSpeed];
    assert Sent(f4) == Sent(form)[Optimize := Text("false")][BmpCompression := Text("true")]
      [TgaCompression := Text("true")][AvifSpeed := Text("6")];
  }

  /** The image form means what `ImageFormSpec` says. */
  lemma ImageFormMeaning(file: FileRef, format: string, s: ImageSettings)
    ensures ImageFormSpec(file, format, s, ImageForm(file, format, s))
  {
    var k := ToLower(format);
    ImageHeadMeaning(file, format, s);
    SwitchFieldsMeaning(ImageHead(file, format, s), CaseOf(k), Entry(s, k));
  }

  /** The format switch of `convertFile`, on the lower-cased target `k`:
      the branch is picked by `CaseOf`, the entry read is `formatSpecific[k]`. */
  method AppendSwitchFields(form: FormData, k: string, s: ImageSettings) returns (r: Result<FormData, EncodeError>)
    ensures r == SwitchFields(form, CaseOf(k), Entry(s, k))
  {
    var e := Entry(s, k);
    match CaseOf(k)
    case OptimizeCase =>
      if e.None? { return Failure(ReadOfUndefined("optimize")); }
      if e.value.optimize.None? { return Failure(ReadOfUndefined("toString")); }
      r := Success(Append(form, Optimize, Text(BoolToString(e.value.optimize.value))));
    case BmpCase =>
      if e.None? { return Failure(ReadOfUndefined("compression")); }
      if e.value.compression.None? { return Failure(ReadOfUndefined("toString")); }
      r := Success(Append(form, BmpCompression, Text(BoolToString(e.value.compression.value))));
    case TgaCase =>
      if e.None? { return Failure(ReadOfUndefined("compression")); }
      if e.value.compression.None? { return Failure(ReadOfUndefined("toString")); }
      r := Success(Append(form, TgaCompression, Text(BoolToString(e.value.compression.value))));
    case AvifCase =>
      if e.None? { return Failure(ReadOfUndefined("speed")); }
      if e.value.speed.None? { return Failure(ReadOfUndefined("toString")); }
      r := Success(Append(form, AvifSpeed, Text(IntToString(e.value.speed.value))));
    case PdfCase =>
      if e.None? { return Failure(ReadOfUndefined("page_size")); }
      r := Success(Append(form, PageSize, Text(e.value.pageSize.GetOr("undefined"))));
    case DefaultCase =>
      var f := form;
      f := Append(f, Optimize, Text("false"));
      f := Append(f, BmpCompression, Text("true"));
      f := Append(f, TgaCompression, Text("true"));
      f := Append(f, AvifSpeed, Text("6"));
      f := Append(f, PageSize, Text("A4"));
      r := Success(f);
  }

  /** The form building of `convertFile`, one `append` at a time. */
  method EncodeImageForm(file: FileRef, format: string, s: ImageSettings) returns (r: Result<FormData, EncodeError>)
    ensures r == ImageForm(file, format, s)
    ensures ImageFormSpec(file, format, s, r)
  {
    var form: FormData := Empty;
    form := Append(form, FileField, FilePart(file));
    form := Append(form, ConvertTo, Text(format));
    form := Append(form, RemoveMetadata, Text(BoolToString(s.removeMetadata)));
    form := Append(form, Compression, Text(BoolToString(s.compression)));
    if s.compression {
      form := Append(form, Quality, Text(IntToString(s.quality)));
    }
    r := AppendSwitchFields(form, ToLower(format), s);
    ImageFormMeaning(file, format, s);
  }

  /** `convertFile`: "Starting conversion", the form, then submission and
      polling by the shared helper with its defaults, on row `index` only. */
  method ConvertFile(ui: JobArrays, index: nat, file: FileRef, format: string, s: ImageSettings,
                     reply: SubmitReply, ticks: seq<Reply>)
    returns (r: JobResult, form: Result<FormData, EncodeError>)
    requires ui.HasSlot(index)
    modifies ui
    ensures form == ImageForm(file, format, s)
    ensures ui.HasSlot(index) && ui.OnlyRowChanged(index)
    ensures (ui.SlotAt(index), r) == Job(old(ui.SlotAt(index)), file.name, format, SharedHelper, form, reply, ticks)
  {
    ui.SetStatus(index, StartingText);
    form := EncodeImageForm(file, format, s);
    r := SendAndPoll(ui, index, file.name, format, SharedHelper, form, reply, ticks);
  }
}
