/** The video settings record and the rules of the video settings dialog:
    which codec is in effect for a target, the codec-default effect, level
    snapping, the values the sliders show for missing fields, the frame
    rate choice, and edits that replace one format's entry. */
module VideoSettings {
  import opened Wrappers
  import opened Text
  import opened Codecs

  /** A level as the settings hold it: a number (in tenths, so 4.1 is 41)
      once the slider has set it, or the text the defaults start with
      ("4.0"). */
  datatype Level = LevelTenths(tenths: nat) | LevelText(text: string)

  /** A bitrate as the settings hold it: a number of Mbps once the slider
      has set it, or the text the defaults start with ("8000"). */
  datatype Bitrate = Mbps(mbps: int) | BitrateText(text: string)

  /** One entry of `formatSpecific`; each field may be missing. */
  datatype VideoFormatParams = VideoFormatParams(
    profile: Option<string>,
    level: Option<Level>,
    crf: Option<int>,
    speed: Option<string>,
    bitrate: Option<Bitrate>)

  /** `{}`: what an edit spreads when the format has no entry yet. */
  const EmptyParams := VideoFormatParams(None, None, None, None, None)

  datatype VideoSettings = VideoSettings(
    removeMetadata: bool,
    codec: string,
    fps: Option<int>,
    formatSpecific: map<string, VideoFormatParams>)

  /** JavaScript truthiness of a level: 0 and "" are false. */
  predicate LevelTruthy(l: Option<Level>)
  {
    l.Some? && match l.value
      case LevelTenths(t) => t != 0
      case LevelText(s) => s != ""
  }

  /** `level.toString()`. */
  function LevelString(l: Level): string
  {
    match l
    case LevelTenths(t) => TenthsToString(t)
    case LevelText(s) => s
  }

  /** JavaScript truthiness of a bitrate: 0 and "" are false. */
  predicate BitrateTruthy(b: Option<Bitrate>)
  {
    b.Some? && match b.value
      case Mbps(n) => n != 0
      case BitrateText(s) => s != ""
  }

  /** `bitrate + 'M'`, the number written out first when it is one. */
  function BitrateString(b: Bitrate): string
  {
    match b
    case Mbps(n) => IntToString(n) + "M"
    case BitrateText(s) => s + "M"
  }

  /** `SUPPORTED_CODECS[format] || []`. */
  function SupportedCodecs(format: string): seq<string>
  {
    if format == "mp4" || format == "mkv" then ["libx264", "libx265", "libaom-av1"]
    else if format == "webm" then ["libvpx", "libvpx-vp9"]
    else if format == "mov" || format == "ts" || format == "mts" then ["libx264", "libx265"]
    else if format == "avi" then ["mpeg4"]
    else if format == "wmv" then ["wmv2"]
    else if format == "flv" then ["flv", "libx264", "libx265"]
    else []
  }

  /** `PROFILES[codec] || []`. */
  function Profiles(codec: string): seq<string>
  {
    if codec == "libx264" then ["baseline", "main", "high"]
    else if codec == "libx265" then ["main"]
    else []
  }

  /** `LEVELS[codec] || []`, in tenths. */
  function Levels(codec: string): seq<int>
  {
    if codec == "libx264" then [30, 31, 40, 41, 42, 50, 51, 52, 60]
    else if codec == "libx265" then [30, 40, 41, 50, 51, 52, 60]
    else []
  }

  /** The CRF slider's default for a codec of `CODEC_DEFAULTS`; `None` for a
      codec that table does not list, where no CRF slider is drawn. */
  function CrfDefault(codec: string): Option<int>
  {
    if codec == "libx264" then Some(23)
    else if codec == "libx265" then Some(28)
    else if codec == "libaom-av1" then Some(32)
    else if codec == "libvpx" then Some(10)
    else if codec == "wmv2" || codec == "mpeg4" || codec == "flv" then Some(23)
    else None
  }

  /** The codec the dialog works with: the chosen one when the target
      supports it, else the target's first codec, else none. */
  function EffectiveCodec(s: VideoSettings, selected: string): (c: string)
    ensures var codecs := SupportedCodecs(ToLower(selected));
      (s.codec in codecs ==> c == s.codec)
      && (s.codec !in codecs && |codecs| > 0 ==> c == codecs[0])
      && (codecs == [] <==> c == "")
  {
    var codecs := SupportedCodecs(ToLower(selected));
    if s.codec != "" && s.codec in codecs then s.codec
    else if |codecs| > 0 then codecs[0]
    else ""
  }

  /** The codec-default effect: an empty or unsupported codec becomes the
      target's first codec; nothing else changes, and nothing at all for a
      target without codecs or with a supported codec. */
  function CodecDefault(s: VideoSettings, selected: string): (r: VideoSettings)
    ensures r == s.(codec := r.codec)
    ensures var codecs := SupportedCodecs(ToLower(selected));
      (codecs == [] || (s.codec != "" && s.codec in codecs) ==> r == s)
      && (|codecs| > 0 ==> r.codec in codecs)
  {
    s.(codec := Fallback(s.codec, SupportedCodecs(ToLower(selected))))
  }

  /** After the effect has run, the dialog's codec is the stored one; and
      running the effect again changes nothing. */
  lemma CodecDefaultSettles(s: VideoSettings, selected: string)
    requires SupportedCodecs(ToLower(selected)) != []
    ensures EffectiveCodec(CodecDefault(s, selected), selected) == CodecDefault(s, selected).codec
    ensures EffectiveCodec(s, selected) == CodecDefault(s, selected).codec
    ensures CodecDefault(CodecDefault(s, selected), selected) == CodecDefault(s, selected)
  {
  }

  function Dist(a: int, b: int): nat
  {
    if a < b then b - a else a - b
  }

  /** The fold `levels.reduce((prev, curr) => |curr - val| < |prev - val| ? curr : prev)`
      from position `i` on, with `best` the index of the level kept so
      far: the kept level only changes to a strictly nearer one. */
  function ReduceNearest(levels: seq<int>, val: int, i: nat, best: nat): (k: nat)
    requires best < i <= |levels|
    requires forall j :: 0 <= j < i ==> Dist(levels[best], val) <= Dist(levels[j], val)
    requires forall j :: 0 <= j < best ==> Dist(levels[best], val) < Dist(levels[j], val)
    ensures k < |levels|
    ensures forall j :: 0 <= j < |levels| ==> Dist(levels[k], val) <= Dist(levels[j], val)
    ensures forall j :: 0 <= j < k ==> Dist(levels[k], val) < Dist(levels[j], val)
    decreases |levels| - i
  {
    if i == |levels| then best
    else if Dist(levels[i], val) < Dist(levels[best], val) then ReduceNearest(levels, val, i + 1, i)
    else ReduceNearest(levels, val, i + 1, best)
  }

  /** The level edit's snapping, with the slider value in tenths: the first
      of the levels nearest to the value. */
  function SnapLevel(levels: seq<int>, val: int): (r: int)
    requires |levels| > 0
    ensures r in levels
    ensures forall j :: 0 <= j < |levels| ==> Dist(r, val) <= Dist(levels[j], val)
    ensures exists k :: 0 <= k < |levels| && levels[k] == r
                        && (forall j :: 0 <= j < k ==> Dist(r, val) < Dist(levels[j], val))
  {
    var k := ReduceNearest(levels, val, 1, 0);
    levels[k]
  }

  /** A value that is itself a level snaps to that level. */
  lemma SnapLevelKeepsLevels(levels: seq<int>, val: int)
    requires val in levels
    ensures SnapLevel(levels, val) == val
  {
    var r := SnapLevel(levels, val);
    var j :| 0 <= j < |levels| && levels[j] == val;
    assert Dist(r, val) <= Dist(levels[j], val);
  }

  /** `settings.formatSpecific[format] || {}` */
  function Params(s: VideoSettings, format: string): VideoFormatParams
  {
    if format in s.formatSpecific then s.formatSpecific[format] else EmptyParams
  }

  /** `{...settings, formatSpecific: {...formatSpecific, [format]: entry}}`:
      only the entry under `format` differs. */
  predicate OnlyEntryChanged(s: VideoSettings, r: VideoSettings, format: string)
  {
    r.removeMetadata == s.removeMetadata && r.codec == s.codec && r.fps == s.fps
    && r.formatSpecific.Keys == s.formatSpecific.Keys + {format}
    && (forall k :: k in s.formatSpecific && k != format ==> r.formatSpecific[k] == s.formatSpecific[k])
  }

  function WithEntry(s: VideoSettings, format: string, entry: VideoFormatParams): (r: VideoSettings)
    ensures OnlyEntryChanged(s, r, format) && r.formatSpecific[format] == entry
  {
    s.(formatSpecific := s.formatSpecific[format := entry])
  }

  /** The level slider edit on the target's entry, with the levels of the
      codec in effect: the snapped level is stored as a number; the entry's
      other fields are kept. */
  function SetLevel(s: VideoSettings, format: string, levels: seq<int>, val: int): (r: VideoSettings)
    requires |levels| > 0 && forall j :: 0 <= j < |levels| ==> levels[j] >= 0
    ensures OnlyEntryChanged(s, r, format)
    ensures Params(r, format).level == Some(LevelTenths(SnapLevel(levels, val)))
    ensures Params(r, format).(level := None) == Params(s, format).(level := None)
  {
    WithEntry(s, format, Params(s, format).(level := Some(LevelTenths(SnapLevel(levels, val)))))
  }

  /** The bitrate slider edit (1..20 Mbps); the entry's other fields are kept. */
  function SetBitrate(s: VideoSettings, format: string, val: int): (r: VideoSettings)
    requires 1 <= val <= 20
    ensures OnlyEntryChanged(s, r, format)
    ensures Params(r, format).bitrate == Some(Mbps(val))
    ensures Params(r, format).(bitrate := None) == Params(s, format).(bitrate := None)
  {
    WithEntry(s, format, Params(s, format).(bitrate := Some(Mbps(val))))
  }

  /** The CRF slider edit; the entry's other fields are kept. */
  function SetCrf(s: VideoSettings, format: string, val: int): (r: VideoSettings)
    ensures OnlyEntryChanged(s, r, format)
    ensures Params(r, format).crf == Some(val)
    ensures Params(r, format).(crf := None) == Params(s, format).(crf := None)
  {
    WithEntry(s, format, Params(s, format).(crf := Some(val)))
  }

  /** The bitrate the slider shows: the stored one, or 8 when it is 0 or
      missing. */
  function ShownBitrate(p: VideoFormatParams): (b: Bitrate)
    ensures BitrateTruthy(Some(b))
    ensures BitrateTruthy(p.bitrate) ==> b == p.bitrate.value
  {
    if BitrateTruthy(p.bitrate) then p.bitrate.value else Mbps(8)
  }

  /** The CRF the slider shows: the stored one, or the codec's default when
      it is missing. */
  function ShownCrf(p: VideoFormatParams, codec: string): (v: int)
    requires CrfDefault(codec).Some?
    ensures p.crf.Some? ==> v == p.crf.value
    ensures p.crf.None? ==> v == CrfDefault(codec).value
  {
    p.crf.GetOr(CrfDefault(codec).value)
  }

  /** The CRF defaults of the three codecs with levels or AV1. */
  lemma CrfDefaults()
    ensures CrfDefault("libx264") == Some(23)
    ensures CrfDefault("libx265") == Some(28)
    ensures CrfDefault("libaom-av1") == Some(32)
  {
  }

  /** `hasProfile` and `hasCrf`: every sectioned format except webm. */
  predicate HasProfile(format: string) { format in ["mp4", "mkv", "mov", "ts", "mts"] }

  /** The format-specific section is rendered at all. */
  predicate HasFormatSection(selected: string)
  {
    ToLower(selected) in ["mp4", "webm", "mkv", "mov", "ts", "mts"]
  }

  /** Within the sectioned formats, only webm lacks profile, level and CRF
      controls. */
  lemma OnlyWebmLacksProfile(selected: string)
    requires HasFormatSection(selected)
    ensures !HasProfile(ToLower(selected)) <==> ToLower(selected) == "webm"
  {
  }

  /** A value the frame-rate dropdown hands back. */
  datatype Choice = NullChoice | NumberChoice(n: int) | TextChoice(text: string)

  /** The frame-rate edit: null stays null ("Auto"), a number stays that
      number, and anything else becomes `parseInt` of it, with `NaN` and 0
      read as null. */
  function FpsChoice(v: Choice): (r: Option<int>)
    ensures v.NullChoice? ==> r.None?
    ensures v.NumberChoice? ==> r == Some(v.n)
    ensures v.TextChoice? ==> (r.Some? <==> ParseInt(v.text).Some? && ParseInt(v.text).value != 0)
    ensures v.TextChoice? && r.Some? ==> r == ParseInt(v.text)
  {
    match v
    case NullChoice => None
    case NumberChoice(n) => Some(n)
    case TextChoice(t) => if ParseInt(t).Some? && ParseInt(t).value != 0 then ParseInt(t) else None
  }

  /** `FPS_OPTIONS`: "Auto" (null) and the six frame rates offered. */
  const FpsOptions: seq<Option<int>> := [None, Some(24), Some(25), Some(30), Some(48), Some(50), Some(60)]

  /** What a frame-rate option hands `onChange`: null for "Auto", else
      its number. */
  function OptionValue(fps: Option<int>): Choice
  {
    if fps.None? then NullChoice else NumberChoice(fps.value)
  }

  /** Picking any frame-rate option stores exactly that option's rate, or
      null for "Auto". */
  lemma FpsOptionStored(i: nat)
    requires i < |FpsOptions|
    ensures FpsChoice(OptionValue(FpsOptions[i])) == FpsOptions[i]
  {
  }

  /** The `value` the frame-rate dropdown compares its options with: the
      label text of the stored rate. */
  function ShownFps(fps: Option<int>): Choice
  {
    TextChoice(if fps.None? then "Auto" else IntToString(fps.value) + " fps")
  }

  /** `option.value === value` compares a number or null with text, so no
      frame-rate option is ever marked as selected. */
  lemma NoFpsOptionSelected(i: nat, fps: Option<int>)
    requires i < |FpsOptions|
    ensures OptionValue(FpsOptions[i]) != ShownFps(fps)
  {
  }
}
