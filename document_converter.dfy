/** `convertFile` for documents: the multipart form, the submission, and
    its own inlined copy of the poller (the same as the audio converter's). */
module DocumentConverter {
  import opened Wrappers
  import opened Text
  import opened Files
  import opened Form
  import opened Slots
  import opened Polling
  import opened Submission

  /** Where the form is posted. */
  const SubmitUrl := "http://localhost:8000/convertifileapp/convert"

  /** One entry of `formatSpecific`; the page's defaults give every entry a
      dpi and the jpg and webp entries a quality, but nothing enforces it. */
  datatype DocFormatParams = DocFormatParams(dpi: Option<int>, quality: Option<int>)

  datatype DocSettings = DocSettings(formatSpecific: map<string, DocFormatParams>)

  /** The branches of the format switch. */
  datatype DocCase = DpiQualityCase | DpiCase | NoFieldsCase

  /** Which branch a lower-cased target takes. */
  function CaseOf(k: string): DocCase
  {
    if k == "jpeg" || k == "webp" then DpiQualityCase
    else if k == "png" || k == "bmp" then DpiCase
    else NoFieldsCase
  }

  /** The entry under the target exactly as given: the key test and the
      reads use the original casing, only the switch lower-cases. */
  function Entry(s: DocSettings, format: string): Option<DocFormatParams>
  {
    if format in s.formatSpecific then Some(s.formatSpecific[format]) else None
  }

  /** The TypeError the switch throws: `toString` of a missing dpi or
      quality, or `quality` of a missing entry, which the jpeg/webp branch
      reads whether or not the key is there. */
  function SwitchReadError(c: DocCase, e: Option<DocFormatParams>): Option<EncodeError>
  {
    match c
    case DpiQualityCase =>
      if e.None? then Some(ReadOfUndefined("quality"))
      else if e.value.dpi.None? || e.value.quality.None? then Some(ReadOfUndefined("toString"))
      else None
    case DpiCase =>
      if e.Some? && e.value.dpi.None? then Some(ReadOfUndefined("toString")) else None
    case NoFieldsCase => None
  }

  /** The two fields every document form starts with; there is no
      metadata flag. */
  function DocHead(file: FileRef, format: string): FormData
  {
    Append(Append(Empty, FileField, FilePart(file)), ConvertTo, Text(format))
  }

  /** The switch, appending to `form`. */
  function SwitchFields(form: FormData, c: DocCase, e: Option<DocFormatParams>): Result<FormData, EncodeError>
  {
    if SwitchReadError(c, e).Some? then Failure(SwitchReadError(c, e).value)
    else
      match c
      case DpiQualityCase =>
        Success(Append(Append(form, Dpi, Text(IntToString(e.value.dpi.value))), Quality, Text(IntToString(e.value.quality.value))))
      case DpiCase =>
        Success(AppendIf(form, e.Some?, Dpi, Text(IntToString(if e.Some? then e.value.dpi.GetOr(0) else 0))))
      case NoFieldsCase => Success(form)
  }

  /** The form `convertFile` builds, or the error it throws. */
  function DocForm(file: FileRef, format: string, s: DocSettings): Result<FormData, EncodeError>
  {
    SwitchFields(DocHead(file, format), CaseOf(ToLower(format)), Entry(s, format))
  }

  /** The names a branch appends: `dpi` iff the entry is there, then
      `quality` for jpeg and webp. */
  function CaseNames(c: DocCase, e: Option<DocFormatParams>): seq<FieldName>
  {
    match c
    case DpiQualityCase => [Dpi, Quality]
    case DpiCase => if e.Some? then [Dpi] else []
    case NoFieldsCase => []
  }

  /** What `FormData.get` returns for a branch that did not throw: the entry's
      own dpi and quality. */
  function CaseValues(c: DocCase, e: Option<DocFormatParams>): map<FieldName, FormValue>
    requires SwitchReadError(c, e).None?
  {
    match c
    case DpiQualityCase =>
      map[Dpi := Text(IntToString(e.value.dpi.value)), Quality := Text(IntToString(e.value.quality.value))]
    case DpiCase => if e.Some? then map[Dpi := Text(IntToString(e.value.dpi.value))] else map[]
    case NoFieldsCase => map[]
  }

  /** The meaning of the document form: `file` and `convert_to`, then the
      branch's names, each read back as the setting it came from; a missing
      entry or field makes the encoding throw instead. */
  predicate DocFormSpec(file: FileRef, format: string, s: DocSettings, r: Result<FormData, EncodeError>)
  {
    var c := CaseOf(ToLower(format));
    var e := Entry(s, format);
    (r.Failure? <==> SwitchReadError(c, e).Some?)
    && (r.Failure? ==> r.error == SwitchReadError(c, e).value)
    && (r.Success? ==>
      Names(r.value) == [FileField, ConvertTo] + CaseNames(c, e)
      && Sent(r.value) == map[FileField := FilePart(file), ConvertTo := Text(format)] + CaseValues(c, e))
  }

  /** The document form means what `DocFormSpec` says. */
  lemma DocFormMeaning(file: FileRef, format: string, s: DocSettings)
    ensures DocFormSpec(file, format, s, DocForm(file, format, s))
  {
    var head := DocHead(file, format);
    assert Names(head) == [FileField, ConvertTo];
    assert Sent(head) == map[FileField := FilePart(file), ConvertTo := Text(format)];
  }

  /** For a jpeg, webp, png or bmp target, a form that is built carries
      `dpi` exactly when the target, as given, is a key of the settings. */
  lemma DpiSentIffKey(file: FileRef, format: string, s: DocSettings)
    requires CaseOf(ToLower(format)) != NoFieldsCase
    requires DocForm(file, format, s).Success?
    ensures Dpi in Sent(DocForm(file, format, s).value) <==> format in s.formatSpecific
  {
    DocFormMeaning(file, format, s);
  }

  /** A jpeg or webp target without an entry under its own spelling throws
      on the `quality` read. */
  lemma MissingEntryThrows(file: FileRef, format: string, s: DocSettings)
    requires CaseOf(ToLower(format)) == DpiQualityCase && format !in s.formatSpecific
    ensures DocForm(file, format, s) == Failure(ReadOfUndefined("quality"))
  {
  }

  /** Any other target sends `file` and `convert_to` and nothing more. */
  lemma OtherTargetsSendHeadOnly(file: FileRef, format: string, s: DocSettings)
    requires CaseOf(ToLower(format)) == NoFieldsCase
    ensures DocForm(file, format, s).Success?
    ensures Names(DocForm(file, format, s).value) == [FileField, ConvertTo]
  {
    DocFormMeaning(file, format, s);
  }

  /** The switch lower-cases but the lookup does not: "JPEG" takes the
      jpeg branch and throws even with a complete "jpeg" entry. */
  lemma UpperCaseTargetThrows(file: FileRef)
    ensures DocForm(file, "JPEG", DocSettings(map["jpeg" := DocFormatParams(Some(300), Some(90))]))
            == Failure(ReadOfUndefined("quality"))
  {
    assert ToLower("JPEG") == "jpeg" by {
      assert ToLower("JPEG") == [LowerChar('J')] + ToLower("PEG");
      assert ToLower("PEG") == [LowerChar('P')] + ToLower("EG");
      assert ToLower("EG") == [LowerChar('E')] + ToLower("G");
      assert ToLower("G") == [LowerChar('G')] + ToLower("");
    }
    assert "JPEG" != "jpeg" by { assert "JPEG"[0] != "jpeg"[0]; }
  }

  /** The format switch of `convertFile`: the branch is picked by the
      lower-cased target, the entry read by the target as given. */
  method AppendSwitchFields(form: FormData, format: string, s: DocSettings) returns (r: Result<FormData, EncodeError>)
    ensures r == SwitchFields(form, CaseOf(ToLower(format)), Entry(s, format))
  {
    var f := form;
    match CaseOf(ToLower(format))
    case DpiQualityCase =>
      if format in s.formatSpecific {
        var dpi := s.formatSpecific[format].dpi;
        if dpi.None? { return Failure(ReadOfUndefined("toString")); }
        f := Append(f, Dpi, Text(IntToString(dpi.value)));
      }
      if format !in s.formatSpecific { return Failure(ReadOfUndefined("quality")); }
      var quality := s.formatSpecific[format].quality;
      if quality.None? { return Failure(ReadOfUndefined("toString")); }
      r := Success(Append(f, Quality, Text(IntToString(quality.value))));
    case DpiCase =>
      if format in s.formatSpecific {
        var dpi := s.formatSpecific[format].dpi;
        if dpi.None? { return Failure(ReadOfUndefined("toString")); }
        f := Append(f, Dpi, Text(IntToString(dpi.value)));
      }
      r := Success(f);
    case NoFieldsCase =>
      r := Success(f);
  }

  /** The form building of `convertFile`, one `append` at a time. */
  method EncodeDocForm(file: FileRef, format: string, s: DocSettings) returns (r: Result<FormData, EncodeError>)
    ensures r == DocForm(file, format, s)
    ensures DocFormSpec(file, format, s, r)
  {
    var form: FormData := Empty;
    form := Append(form, FileField, FilePart(file));
    form := Append(form, ConvertTo, Text(format));
    r := AppendSwitchFields(form, format, s);
    DocFormMeaning(file, format, s);
  }

  /** The form for a target the page may hold as `undefined` (a file whose
      extension has no conversions): `convert_to` is appended as the text
      "undefined", then `format.toLowerCase()` throws. */
  function DocFormOf(file: FileRef, format: Option<string>, s: DocSettings): Result<FormData, EncodeError>
  {
    if format.None? then Failure(ReadOfUndefined("toLowerCase")) else DocForm(file, format.value, s)
  }

  /** A job without a target ends on its row with the TypeError of the
      `toLowerCase` call, and reports failure. */
  lemma UndefinedTargetFails(slot: Slot, file: FileRef, s: DocSettings, reply: SubmitReply, ticks: seq<Reply>)
    ensures var (row, r) := Job(slot, file.name, "undefined", Inlined, DocFormOf(file, None, s), reply, ticks);
      row.status == ErrorText(ReadError("toLowerCase"))
      && r == Returned(false) && row.progress == slot.progress && row.result == slot.result
  {
  }

  /** `convertFile`: "Starting conversion", the form, then submission and
      polling by its inlined poller (20 retries, 500 ms), on row `index`
      only; an encoding error ends the job as "Error: <message>". */
  method ConvertFile(ui: JobArrays, index: nat, file: FileRef, format: Option<string>, s: DocSettings,
                     reply: SubmitReply, ticks: seq<Reply>)
    returns (r: JobResult, form: Result<FormData, EncodeError>)
    requires ui.HasSlot(index)
    modifies ui
    ensures form == DocFormOf(file, format, s)
    ensures ui.HasSlot(index) && ui.OnlyRowChanged(index)
    ensures (ui.SlotAt(index), r) == Job(old(ui.SlotAt(index)), file.name, format.GetOr("undefined"), Inlined, form, reply, ticks)
  {
    ui.SetStatus(index, StartingText);
    if format.None? {
      form := Failure(ReadOfUndefined("toLowerCase"));
    } else {
      form := EncodeDocForm(file, format.value, s);
    }
    r := SendAndPoll(ui, index, file.name, format.GetOr("undefined"), Inlined, form, reply, ticks);
  }
}
