/** The audio settings record and the rules of the audio settings dialog:
    the codec-default effect, which formats have a bitrate or a compression
    level, the slider ranges and shown values, and edits that replace one
    format's entry. */
module AudioSettings {
  import opened Wrappers
  import opened Text
  import opened Codecs

  /** One entry of `formatSpecific`; each field may be missing. The bitrate
      is text such as "192k". */
  datatype AudioFormatParams = AudioFormatParams(
    bitrate: Option<string>,
    compressionLevel: Option<int>,
    lossless: Option<bool>,
    sampleRate: Option<int>)

  /** `{}`: what an edit spreads when the format has no entry yet. */
  const EmptyParams := AudioFormatParams(None, None, None, None)

  datatype AudioSettings = AudioSettings(
    removeMetadata: bool,
    channels: Option<int>,
    sampleRate: Option<int>,
    codec: string,
    formatSpecific: map<string, AudioFormatParams>)

  /** `SUPPORTED_CODECS[format] || []`. */
  function SupportedCodecs(format: string): seq<string>
  {
    if format == "mp3" then ["libmp3lame"]
    else if format == "ogg" then ["libvorbis", "libopus"]
    else if format == "opus" then ["libopus"]
    else if format == "aac" || format == "m4a" then ["aac", "libfdk_aac"]
    else if format == "flac" then ["flac"]
    else if format == "alac" then ["alac"]
    else if format == "wav" || format == "aiff" then ["pcm_s16le", "pcm_s24le", "pcm_s32le"]
    else if format == "wma" then ["wmav2"]
    else if format == "amr" then ["libopencore_amrnb"]
    else if format == "ac3" then ["ac3"]
    else []
  }

  /** The codec-default effect: an empty or unsupported codec becomes the
      lower-cased target's first codec; nothing else changes, and nothing at
      all for a target without codecs or with a supported codec. */
  function CodecDefault(s: AudioSettings, selected: string): (r: AudioSettings)
    ensures r == s.(codec := r.codec)
    ensures var codecs := SupportedCodecs(ToLower(selected));
      (codecs == [] || (s.codec != "" && s.codec in codecs) ==> r == s)
      && (|codecs| > 0 ==> r.codec in codecs)
      && (|codecs| > 0 && s.codec !in codecs ==> r.codec == codecs[0])
  {
    s.(codec := Fallback(s.codec, SupportedCodecs(ToLower(selected))))
  }

  /** Running the effect a second time changes nothing. */
  lemma CodecDefaultIdempotent(s: AudioSettings, selected: string)
    ensures CodecDefault(CodecDefault(s, selected), selected) == CodecDefault(s, selected)
  {
  }

  /** The formats that have a format-specific section. */
  predicate HasSection(format: string)
  {
    format in ["mp3", "ogg", "opus", "aac", "m4a", "flac", "wma", "amr", "ac3"]
  }

  predicate HasBitrate(format: string)
  {
    format in ["mp3", "ogg", "opus", "aac", "m4a", "wma", "amr", "ac3"]
  }

  predicate HasCompression(format: string)
  {
    format in ["mp3", "ogg", "opus", "flac"]
  }

  /** Among the sectioned formats every one but flac has a bitrate, and
      compression belongs to exactly mp3, ogg, opus and flac. */
  lemma SectionControls(format: string)
    ensures HasSection(format) ==> (HasBitrate(format) <==> format != "flac")
    ensures HasCompression(format) <==> format == "mp3" || format == "ogg" || format == "opus" || format == "flac"
    ensures HasBitrate(format) || HasCompression(format) ==> HasSection(format)
  {
  }

  /** `settings.formatSpecific[format] || {}` */
  function Params(s: AudioSettings, format: string): AudioFormatParams
  {
    if format in s.formatSpecific then s.formatSpecific[format] else EmptyParams
  }

  /** `{...settings, formatSpecific: {...formatSpecific, [format]: entry}}`:
      only the entry under `format` differs. */
  predicate OnlyEntryChanged(s: AudioSettings, r: AudioSettings, format: string)
  {
    r.removeMetadata == s.removeMetadata && r.channels == s.channels
    && r.sampleRate == s.sampleRate && r.codec == s.codec
    && r.formatSpecific.Keys == s.formatSpecific.Keys + {format}
    && (forall k :: k in s.formatSpecific && k != format ==> r.formatSpecific[k] == s.formatSpecific[k])
  }

  function WithEntry(s: AudioSettings, format: string, entry: AudioFormatParams): (r: AudioSettings)
    ensures OnlyEntryChanged(s, r, format) && r.formatSpecific[format] == entry
  {
    s.(formatSpecific := s.formatSpecific[format := entry])
  }

  const BitrateMin := 64
  const BitrateMax := 320
  const BitrateStep := 8

  /** A position the bitrate slider can take. */
  predicate BitrateStop(val: int)
  {
    BitrateMin <= val <= BitrateMax && (val - BitrateMin) % BitrateStep == 0
  }

  /** The value the bitrate slider shows: `parseInt` of the stored text
      (`None` for `NaN`), or 192 when the text is empty or missing. */
  function ShownBitrate(p: AudioFormatParams): (v: Option<int>)
    ensures !Truthy(p.bitrate) ==> v == Some(192)
    ensures Truthy(p.bitrate) ==> v == ParseInt(p.bitrate.value)
  {
    if Truthy(p.bitrate) then ParseInt(p.bitrate.value) else Some(192)
  }

  /** The bitrate slider edit: stores "<val>k"; the entry's other fields
      are kept. */
  function SetBitrate(s: AudioSettings, format: string, val: int): (r: AudioSettings)
    requires BitrateStop(val)
    ensures OnlyEntryChanged(s, r, format)
    ensures Params(r, format).bitrate == Some(IntToString(val) + "k")
    ensures Params(r, format).(bitrate := None) == Params(s, format).(bitrate := None)
  {
    WithEntry(s, format, Params(s, format).(bitrate := Some(IntToString(val) + "k")))
  }

  /** After a bitrate edit the slider shows the value it was set to. */
  lemma BitrateRoundTrip(s: AudioSettings, format: string, val: int)
    requires BitrateStop(val)
    ensures ShownBitrate(Params(SetBitrate(s, format, val), format)) == Some(val)
  {
    ParseIntRoundTrip(val, "k");
  }

  /** The compression level a format starts from. */
  function DefaultCompression(format: string): int
  {
    if format == "flac" then 5 else if format == "mp3" then 6 else 10
  }

  /** The compression slider's maximum (its minimum is 0 everywhere). */
  function MaxCompression(format: string): int
  {
    if format == "flac" then 12 else if format == "mp3" then 9 else 10
  }

  /** Every default lies on its slider. */
  lemma DefaultCompressionInRange(format: string)
    ensures 0 <= DefaultCompression(format) <= MaxCompression(format)
  {
  }

  /** The level the compression slider shows: the stored one (0 included),
      or the format's default when it is missing. */
  function ShownCompression(p: AudioFormatParams, format: string): (v: int)
    ensures p.compressionLevel.Some? ==> v == p.compressionLevel.value
    ensures p.compressionLevel.None? ==> v == DefaultCompression(format)
  {
    p.compressionLevel.GetOr(DefaultCompression(format))
  }

  /** The compression slider edit; the entry's other fields are kept. */
  function SetCompression(s: AudioSettings, format: string, val: int): (r: AudioSettings)
    requires 0 <= val <= MaxCompression(format)
    ensures OnlyEntryChanged(s, r, format)
    ensures ShownCompression(Params(r, format), format) == val
    ensures Params(r, format).(compressionLevel := None) == Params(s, format).(compressionLevel := None)
  {
    WithEntry(s, format, Params(s, format).(compressionLevel := Some(val)))
  }

  /** The compression slider is drawn only for a compression format whose
      codec is one of flac, libmp3lame and libopus. */
  predicate ShowsCompression(format: string, codec: string)
  {
    HasCompression(format) && codec != "" && codec in ["flac", "libmp3lame", "libopus"]
  }

  /** For ogg the slider appears with libopus but not with the first
      listed codec, libvorbis, which the codec-default effect picks. */
  lemma OggCompressionNeedsOpus(s: AudioSettings)
    requires s.codec == "" || s.codec !in SupportedCodecs("ogg")
    ensures !ShowsCompression("ogg", CodecDefault(s, "ogg").codec)
    ensures ShowsCompression("ogg", "libopus")
  {
    ToLowerFixesLowerCase("ogg");
  }

  /** The sample rate dropdown: a rate replaces the setting; "Auto" emits
      an unchanged copy, so a chosen rate cannot be cleared. */
  function ChooseSampleRate(s: AudioSettings, choice: Option<int>): (r: AudioSettings)
    ensures choice.Some? ==> r == s.(sampleRate := choice)
    ensures choice.None? ==> r == s
  {
    if choice.Some? then s.(sampleRate := choice) else s
  }
}
