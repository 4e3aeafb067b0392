/** The image settings record and the rules of the image settings dialog:
    which controls a target format offers, the value a control shows when
    its field is missing, and edits that replace one format's entry. */
module ImageSettings {
  import opened Wrappers
  import opened Text

  /** One entry of `formatSpecific`; each field may be missing. */
  datatype ImageFormatParams = ImageFormatParams(
    optimize: Option<bool>,
    compression: Option<bool>,
    speed: Option<int>,
    pageSize: Option<string>)

  /** `{}`: what the dialog edits when the format has no entry yet. */
  const EmptyParams := ImageFormatParams(None, None, None, None)

  datatype ImageSettings = ImageSettings(
    removeMetadata: bool,
    compression: bool,
    quality: int,
    formatSpecific: map<string, ImageFormatParams>)

  const PageSizes: seq<string> := ["A3", "A4", "A5", "LETTER", "LEGAL", "TABLOID"]

  /** `supportsCompression`: the compression checkbox and quality slider are shown. */
  predicate SupportsCompression(selected: string)
  {
    ToLower(selected) in ["jpg", "webp", "png", "avif", "tiff", "heif", "heic"]
  }

  predicate HasOptimize(format: string) { format in ["jpg", "webp", "png"] }

  predicate HasCompression(format: string) { format in ["bmp", "tga"] }

  predicate HasSpeed(format: string) { format == "avif" }

  predicate HasPageSize(format: string) { format == "pdf" }

  /** The format-specific section is rendered at all. */
  predicate HasFormatSection(selected: string)
  {
    ToLower(selected) in ["jpg", "webp", "bmp", "tga", "png", "avif", "pdf"]
  }

  /** Each format with a section has exactly one format-specific control. */
  lemma OneControlPerFormat(selected: string)
    requires HasFormatSection(selected)
    ensures var f := ToLower(selected);
      (if HasOptimize(f) then 1 else 0) + (if HasCompression(f) then 1 else 0)
      + (if HasSpeed(f) then 1 else 0) + (if HasPageSize(f) then 1 else 0) == 1
  {
  }

  /** `settings.formatSpecific[format] || {}` */
  function Params(s: ImageSettings, format: string): ImageFormatParams
  {
    if format in s.formatSpecific then s.formatSpecific[format] else EmptyParams
  }

  /** The values the controls show: a missing field reads as optimize on,
      compression on, speed 0 and page size A4. */
  function ShownOptimize(s: ImageSettings, format: string): bool { Params(s, format).optimize.GetOr(true) }

  function ShownCompression(s: ImageSettings, format: string): bool { Params(s, format).compression.GetOr(true) }

  function ShownSpeed(s: ImageSettings, format: string): int { Params(s, format).speed.GetOr(0) }

  function ShownPageSize(s: ImageSettings, format: string): string { Params(s, format).pageSize.GetOr("A4") }

  /** `{...settings, formatSpecific: {...formatSpecific, [format]: entry}}`:
      only the entry under `format` differs. */
  predicate OnlyEntryChanged(s: ImageSettings, r: ImageSettings, format: string)
  {
    r.removeMetadata == s.removeMetadata && r.compression == s.compression && r.quality == s.quality
    && r.formatSpecific.Keys == s.formatSpecific.Keys + {format}
    && (forall k :: k in s.formatSpecific && k != format ==> r.formatSpecific[k] == s.formatSpecific[k])
  }

  function WithEntry(s: ImageSettings, format: string, entry: ImageFormatParams): (r: ImageSettings)
    ensures OnlyEntryChanged(s, r, format) && r.formatSpecific[format] == entry
  {
    s.(formatSpecific := s.formatSpecific[format := entry])
  }

  /** The optimize checkbox edit; the other fields of the entry are kept. */
  function SetOptimize(s: ImageSettings, format: string, v: bool): (r: ImageSettings)
    ensures OnlyEntryChanged(s, r, format)
    ensures ShownOptimize(r, format) == v
    ensures Params(r, format).(optimize := None) == Params(s, format).(optimize := None)
  {
    WithEntry(s, format, Params(s, format).(optimize := Some(v)))
  }

  /** The RLE compression checkbox edit (bmp, tga). */
  function SetFormatCompression(s: ImageSettings, format: string, v: bool): (r: ImageSettings)
    ensures OnlyEntryChanged(s, r, format)
    ensures ShownCompression(r, format) == v
    ensures Params(r, format).(compression := None) == Params(s, format).(compression := None)
  {
    WithEntry(s, format, Params(s, format).(compression := Some(v)))
  }

  /** The encoder speed slider edit (avif). */
  function SetSpeed(s: ImageSettings, format: string, v: int): (r: ImageSettings)
    ensures OnlyEntryChanged(s, r, format)
    ensures ShownSpeed(r, format) == v
    ensures Params(r, format).(speed := None) == Params(s, format).(speed := None)
  {
    WithEntry(s, format, Params(s, format).(speed := Some(v)))
  }

  /** The page size choice (pdf). */
  function SetPageSize(s: ImageSettings, format: string, size: string): (r: ImageSettings)
    requires size in PageSizes
    ensures OnlyEntryChanged(s, r, format)
    ensures ShownPageSize(r, format) == size
    ensures Params(r, format).(pageSize := None) == Params(s, format).(pageSize := None)
  {
    WithEntry(s, format, Params(s, format).(pageSize := Some(size)))
  }

  /** A slider as rendered: its bounds, value and whether it is disabled. */
  datatype Slider = Slider(min: int, max: int, value: int, disabled: bool)

  /** The quality slider: offered only where compression is supported,
      1..100, disabled whenever compression is off. */
  function QualitySlider(s: ImageSettings, selected: string): (r: Option<Slider>)
    ensures r.Some? <==> SupportsCompression(selected)
    ensures r.Some? ==> r.value.min == 1 && r.value.max == 100 && r.value.value == s.quality
    ensures r.Some? ==> (r.value.disabled <==> !s.compression)
  {
    if SupportsCompression(selected) then Some(Slider(1, 100, s.quality, !s.compression)) else None
  }
}
