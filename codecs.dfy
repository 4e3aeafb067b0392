/** The codec-default rule the audio and video dialogs share: a codec the
    target does not support is replaced by the target's first codec. */
module Codecs {
  /** `codecs.length > 0 && (!codec || !codecs.includes(codec)) ? codecs[0] : codec` */
  function Fallback(codec: string, codecs: seq<string>): (c: string)
    ensures codecs == [] || (codec != "" && codec in codecs) ==> c == codec
    ensures codecs != [] ==> c in codecs
    ensures codecs != [] && codec !in codecs ==> c == codecs[0]
  {
    if |codecs| > 0 && (codec == "" || codec !in codecs) then codecs[0] else codec
  }

  /** A codec the rule has chosen is kept by it. */
  lemma FallbackIdempotent(codec: string, codecs: seq<string>)
    ensures Fallback(Fallback(codec, codecs), codecs) == Fallback(codec, codecs)
  {
  }
}
