/** The multipart body the converters send: an ordered list of named parts,
    built by `FormData.append` and read back the way `FormData.get`
    (first value) and `FormData.getAll` (every value) do. */
module Form {
  import opened Wrappers
  import opened Files

  /** Every part name the five converters send. */
  datatype FieldName =
    | FileField | ConvertTo | RemoveMetadata | Compression | Quality
    | Optimize | BmpCompression | TgaCompression | AvifSpeed | PageSize
    | VideoRemoveMetadata | VideoCodec | VideoFps | VideoProfile | VideoLevel
    | VideoCrf | VideoSpeed | VideoBitrate
    | GifQuality | GifWidth | GifHeight | GifMaintainAspectRatio | GifLoop | GifDither
    | Channels | SampleRate | Bitrate | CompressionLevel | Lossless | Dpi

  /** The name as it appears on the wire. */
  function WireName(n: FieldName): string
  {
    match n
    case FileField => "file"
    case ConvertTo => "convert_to"
    case RemoveMetadata => "remove_metadata"
    case Compression => "compression"
    case Quality => "quality"
    case Optimize => "optimize"
    case BmpCompression => "bmp_compression"
    case TgaCompression => "tga_compression"
    case AvifSpeed => "avif_speed"
    case PageSize => "page_size"
    case VideoRemoveMetadata => "video_remove_metadata"
    case VideoCodec => "video_codec"
    case VideoFps => "video_fps"
    case VideoProfile => "video_profile"
    case VideoLevel => "video_level"
    case VideoCrf => "video_crf"
    case VideoSpeed => "video_speed"
    case VideoBitrate => "video_bitrate"
    case GifQuality => "gif_quality"
    case GifWidth => "gif_width"
    case GifHeight => "gif_height"
    case GifMaintainAspectRatio => "gif_maintain_aspect_ratio"
    case GifLoop => "gif_loop"
    case GifDither => "gif_dither"
    case Channels => "channels"
    case SampleRate => "sample_rate"
    case Bitrate => "bitrate"
    case CompressionLevel => "compression_level"
    case Lossless => "lossless"
    case Dpi => "dpi"
  }

  /** A left inverse of `WireName`, used only as a proof device: it reads a
      wire name back by length first, then among the names of that length,
      so that `WireNamesDistinct` follows without comparing all thirty
      spellings pairwise. */
  function ParseFieldName(s: string): Option<FieldName>
  {
    match |s|
    case 3 => ParseOfLength3(s)
    case 4 => ParseOfLength4(s)
    case 7 => ParseOfLength7(s)
    case 8 => ParseOfLength8(s)
    case 9 => ParseOfLength9(s)
    case 10 => ParseOfLength10(s)
    case 11 => ParseOfLength11(s)
    case 13 => ParseOfLength13(s)
    case 15 => ParseOfLength15(s)
    case 17 => ParseOfLength17(s)
    case 21 => ParseOfLength21(s)
    case 25 => ParseOfLength25(s)
    case _ => None
  }

  function ParseOfLength3(s: string): Option<FieldName>
  {
    if s == "dpi" then Some(Dpi) else
    None
  }

  function ParseOfLength4(s: string): Option<FieldName>
  {
    if s == "file" then Some(FileField) else
    None
  }

  function ParseOfLength7(s: string): Option<FieldName>
  {
    if s == "quality" then Some(Quality) else
    if s == "bitrate" then Some(Bitrate) else
    None
  }

  function ParseOfLength8(s: string): Option<FieldName>
  {
    if s == "optimize" then Some(Optimize) else
    if s == "gif_loop" then Some(GifLoop) else
    if s == "channels" then Some(Channels) else
    if s == "lossless" then Some(Lossless) else
    None
  }

  function ParseOfLength9(s: string): Option<FieldName>
  {
    if s == "page_size" then Some(PageSize) else
    if s == "video_fps" then Some(VideoFps) else
    if s == "video_crf" then Some(VideoCrf) else
    if s == "gif_width" then Some(GifWidth) else
    None
  }

  function ParseOfLength10(s: string): Option<FieldName>
  {
    if s == "convert_to" then Some(ConvertTo) else
    if s == "avif_speed" then Some(AvifSpeed) else
    if s == "gif_height" then Some(GifHeight) else
    if s == "gif_dither" then Some(GifDither) else
    None
  }

  function ParseOfLength11(s: string): Option<FieldName>
  {
    if s == "compression" then Some(Compression) else
    if s == "video_codec" then Some(VideoCodec) else
    if s == "video_level" then Some(VideoLevel) else
    if s == "video_speed" then Some(VideoSpeed) else
    if s == "gif_quality" then Some(GifQuality) else
    if s == "sample_rate" then Some(SampleRate) else
    None
  }

  function ParseOfLength13(s: string): Option<FieldName>
  {
    if s == "video_profile" then Some(VideoProfile) else
    if s == "video_bitrate" then Some(VideoBitrate) else
    None
  }

  function ParseOfLength15(s: string): Option<FieldName>
  {
    if s == "remove_metadata" then Some(RemoveMetadata) else
    if s == "bmp_compression" then Some(BmpCompression) else
    if s == "tga_compression" then Some(TgaCompression) else
    None
  }

  function ParseOfLength17(s: string): Option<FieldName>
  {
    if s == "compression_level" then Some(CompressionLevel) else
    None
  }

  function ParseOfLength21(s: string): Option<FieldName>
  {
    if s == "video_remove_metadata" then Some(VideoRemoveMetadata) else
    None
  }

  function ParseOfLength25(s: string): Option<FieldName>
  {
    if s == "gif_maintain_aspect_ratio" then Some(GifMaintainAspectRatio) else
    None
  }

  /** Every name is read back as itself, so no two names share a wire
      spelling. */
  lemma WireNamesParse(n: FieldName)
    ensures ParseFieldName(WireName(n)) == Some(n)
  {
    if n.FileField? || n.ConvertTo? { NamesParse1(n); }
    else if n.RemoveMetadata? || n.Compression? || n.Quality? || n.Optimize? { NamesParse2(n); }
    else if n.BmpCompression? || n.TgaCompression? || n.AvifSpeed? || n.PageSize? { NamesParse3(n); }
    else if n.VideoRemoveMetadata? || n.VideoCodec? || n.VideoFps? || n.VideoProfile? { NamesParse4(n); }
    else if n.VideoLevel? || n.VideoCrf? || n.VideoSpeed? || n.VideoBitrate? { NamesParse5(n); }
    else if n.GifQuality? || n.GifWidth? || n.GifHeight? { NamesParse6(n); }
    else if n.GifMaintainAspectRatio? || n.GifLoop? || n.GifDither? { NamesParse7(n); }
    else if n.Channels? || n.SampleRate? || n.Bitrate? { NamesParse8(n); }
    else { NamesParse9(n); }
  }

  /** The round trip for the two every form starts with. */
  lemma NamesParse1(n: FieldName)
    requires n.FileField? || n.ConvertTo?
    ensures ParseFieldName(WireName(n)) == Some(n)
  {
  }

  /** The round trip for the image settings. */
  lemma NamesParse2(n: FieldName)
    requires n.RemoveMetadata? || n.Compression? || n.Quality? || n.Optimize?
    ensures ParseFieldName(WireName(n)) == Some(n)
  {
  }

  /** The round trip for the image format entries. */
  lemma NamesParse3(n: FieldName)
    requires n.BmpCompression? || n.TgaCompression? || n.AvifSpeed? || n.PageSize?
    ensures ParseFieldName(WireName(n)) == Some(n)
  {
  }

  /** The round trip for the video settings. */
  lemma NamesParse4(n: FieldName)
    requires n.VideoRemoveMetadata? || n.VideoCodec? || n.VideoFps? || n.VideoProfile?
    ensures ParseFieldName(WireName(n)) == Some(n)
  {
  }

  /** The round trip for the video encoder entries. */
  lemma NamesParse5(n: FieldName)
    requires n.VideoLevel? || n.VideoCrf? || n.VideoSpeed? || n.VideoBitrate?
    ensures ParseFieldName(WireName(n)) == Some(n)
  {
  }

  /** The round trip for the GIF sizes. */
  lemma NamesParse6(n: FieldName)
    requires n.GifQuality? || n.GifWidth? || n.GifHeight?
    ensures ParseFieldName(WireName(n)) == Some(n)
  {
  }

  /** The round trip for the GIF flags. */
  lemma NamesParse7(n: FieldName)
    requires n.GifMaintainAspectRatio? || n.GifLoop? || n.GifDither?
    ensures ParseFieldName(WireName(n)) == Some(n)
  {
  }

  /** The round trip for the audio settings. */
  lemma NamesParse8(n: FieldName)
    requires n.Channels? || n.SampleRate? || n.Bitrate?
    ensures ParseFieldName(WireName(n)) == Some(n)
  {
  }

  /** The round trip for the audio and document entries. */
  lemma NamesParse9(n: FieldName)
    requires n.CompressionLevel? || n.Lossless? || n.Dpi?
    ensures ParseFieldName(WireName(n)) == Some(n)
  {
  }

  lemma WireNamesDistinct(a: FieldName, b: FieldName)
    ensures WireName(a) == WireName(b) ==> a == b
  {
    WireNamesParse(a);
    WireNamesParse(b);
  }

  datatype FormValue = FilePart(file: FileRef) | Text(text: string)

  datatype Field = Field(name: FieldName, value: FormValue)

  /** A multipart body, as the list of parts appended so far, last part
      outermost. */
  datatype FormData = Empty | Snoc(init: FormData, last: Field)

  /** The part names, in the order they were appended. */
  function Names(form: FormData): seq<FieldName>
  {
    match form
    case Empty => []
    case Snoc(init, last) => Names(init) + [last.name]
  }

  /** `FormData.get`: for every name sent, the value of its first part. */
  function Sent(form: FormData): map<FieldName, FormValue>
  {
    match form
    case Empty => map[]
    case Snoc(init, last) =>
      var earlier := Sent(init);
      if last.name in earlier then earlier else earlier[last.name := last.value]
  }

  /** `FormData.get`. */
  function Get(form: FormData, name: FieldName): Option<FormValue>
  {
    if name in Sent(form) then Some(Sent(form)[name]) else None
  }

  /** `FormData.getAll`: the values of every part named `name`, in the
      order they were appended. */
  function GetAll(form: FormData, name: FieldName): seq<FormValue>
  {
    match form
    case Empty => []
    case Snoc(init, last) => GetAll(init, name) + (if last.name == name then [last.value] else [])
  }

  /** A conditional part adds its value to `getAll` of its own name only. */
  lemma GetAllAppendIf(form: FormData, cond: bool, name: FieldName, value: FormValue, n: FieldName)
    ensures GetAll(AppendIf(form, cond, name, value), n)
      == GetAll(form, n) + (if cond && name == n then [value] else [])
  {
    if cond {
      assert AppendIf(form, cond, name, value) == Snoc(form, Field(name, value));
    } else {
      assert AppendIf(form, cond, name, value) == form;
      assert GetAll(form, n) + [] == GetAll(form, n);
    }
  }

  /** `FormData.get` is the head of `FormData.getAll`: a name has a value
      exactly when it has a part, and its value is that of the first one;
      `getAll` holds one value per part of that name. */
  lemma {:induction false} GetIsFirstOfAll(form: FormData, name: FieldName)
    ensures |GetAll(form, name)| == multiset(Names(form))[name]
    ensures name in Sent(form) <==> |GetAll(form, name)| > 0
    ensures name in Sent(form) ==> Sent(form)[name] == GetAll(form, name)[0]
  {
    if form.Snoc? {
      GetIsFirstOfAll(form.init, name);
      assert Names(form) == Names(form.init) + [form.last.name];
    }
  }

  /** `FormData.get` finds a value for exactly the names that were sent. */
  lemma {:induction false} SentNames(form: FormData)
    ensures forall n :: n in Sent(form) <==> n in Names(form)
  {
    if form.Snoc? {
      SentNames(form.init);
    }
  }

  /** `FormData.append`: one more part at the end; the first value of every
      name that already had one stays the value `FormData.get` returns. */
  function Append(form: FormData, name: FieldName, value: FormValue): (r: FormData)
    ensures Names(r) == Names(form) + [name]
    ensures Sent(r) == if name in Sent(form) then Sent(form) else Sent(form)[name := value]
  {
    Snoc(form, Field(name, value))
  }

  /** `if (cond) formData.append(name, value)`. */
  function AppendIf(form: FormData, cond: bool, name: FieldName, value: FormValue): (r: FormData)
    ensures Names(r) == Names(form) + (if cond then [name] else [])
    ensures name !in Sent(form) ==> Sent(r) == Sent(form) + Only(cond, name, value)
  {
    if cond then Append(form, name, value) else form
  }

  /** The one value a conditional part contributes to what `FormData.get`
      returns. */
  function Only(cond: bool, name: FieldName, value: FormValue): map<FieldName, FormValue>
  {
    if cond then map[name := value] else map[]
  }

  lemma UnionAssoc<K, V>(a: map<K, V>, b: map<K, V>, c: map<K, V>)
    ensures a + b + c == a + (b + c)
  {
  }

  lemma ConcatAssoc<T>(a: seq<T>, b: seq<T>, c: seq<T>)
    ensures a + b + c == a + (b + c)
  {
  }

  /** Three parts with fresh, distinct names are read back as sent. */
  lemma AppendThreeMeaning(form: FormData, a: FieldName, va: FormValue, b: FieldName, vb: FormValue,
                           c: FieldName, vc: FormValue)
    requires a != b && a != c && b != c
    requires a !in Sent(form) && b !in Sent(form) && c !in Sent(form)
    ensures Names(Append(Append(Append(form, a, va), b, vb), c, vc)) == Names(form) + [a, b, c]
    ensures Sent(Append(Append(Append(form, a, va), b, vb), c, vc)) == Sent(form) + map[a := va, b := vb, c := vc]
  {
  }

  /** A value `FormData.get` already returns for a name stays the one it returns
      after another conditional part. */
  lemma AppendIfKeeps(form: FormData, cond: bool, name: FieldName, value: FormValue, n: FieldName)
    requires n in Sent(form)
    ensures n in Sent(AppendIf(form, cond, name, value))
    ensures Sent(AppendIf(form, cond, name, value))[n] == Sent(form)[n]
  {
  }

  /** A conditional part under another name leaves the number of parts
      named `n` as it was. */
  lemma AppendIfOtherCount(form: FormData, cond: bool, name: FieldName, value: FormValue, n: FieldName)
    requires name != n
    ensures multiset(Names(AppendIf(form, cond, name, value)))[n] == multiset(Names(form))[n]
  {
  }
}
