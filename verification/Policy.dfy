/** The hard-coded tables of the policy: copy lists, encode targets and the container rule. */
module Policy {
  import opened Wrappers
  import opened Media

  const H264_MAX_LEVEL_TENTHS := 42
  const LEVEL_REWRITE_MAX_WIDTH := 1920
  const LEVEL_REWRITE_MAX_HEIGHT := 1088
  const LEVEL_REWRITE_MAX_FPS := 60.0
  const LEVEL_REWRITE_MAX_REFS := 4
  const NO_ENCODE_DOLBY_PROFILE := 5

  predicate OnVideoCopyList(c: Codec) {
    c == H264 || c == Hevc
  }

  predicate OnProfileCopyList(c: Codec, p: Profile) {
    if c == H264 then p == ConstrainedBaseline || p == Baseline || p == Main || p == High
    else p == Main || p == Main10
  }

  predicate IsLegacyScanCodec(c: Codec) {
    c == Mpeg2Video || c == Vc1
  }

  predicate HardwareDecodable(c: Codec) {
    c == H264 || c == Hevc || c == Mpeg2Video || c == Vc1 || c == Vp9
  }

  function ContainerFor(ext: Extension): Container {
    if ext == DotMp4 || ext == DotM4v then MP4 else Matroska
  }

  /** The extension an output carries for a source path. */
  function OutputExtension(c: Container, source: Extension): Extension {
    match c
    case MP4 => if source == DotM4v || source == DotMp4 then source else DotMp4
    case Matroska => DotMkv
  }

  predicate OnAudioCopyList(c: Codec, channels: int) {
    if channels <= 2 then c == Aac || c == Ac3 || c == Eac3 || c == Mp3
    else c == Aac || c == Ac3 || c == Eac3
  }

  datatype AudioTarget = AudioTarget(encoder: EncoderName, bitrate: int, channels: int)

  function AudioEncodeTarget(c: Container, channels: int): AudioTarget {
    if channels <= 1 then AudioTarget(AacEncoder, 96_000, 1)
    else if channels == 2 then AudioTarget(AacEncoder, 160_000, 2)
    else
      var out := if channels > 6 then 6 else channels;
      if c == MP4 then AudioTarget(AacEncoder, 64_000 * out, out)
      else AudioTarget(Ac3Encoder, 640_000, out)
  }

  predicate IsTextSubtitle(c: Codec) {
    c == Subrip || c == Ass || c == Ssa || c == Webvtt || c == MovText
  }

  function SubtitleTarget(c: Container): Codec {
    if c == MP4 then MovText else Subrip
  }

  /** The encoder that writes the container's text codec; ffmpeg spells subrip's encoder "srt". */
  function SubtitleEncoder(c: Container): EncoderName {
    if c == MP4 then MovTextEncoder else SrtEncoder
  }

  function NormaliseFormatName(names: seq<FormatName>): FormatName {
    if names == [] then Foreign("unknown")
    else
      match FirstFamily(names)
      case Some(c) => Family(c)
      case None => names[0]
  }

  function FirstFamily(names: seq<FormatName>): Option<Container> {
    if names == [] then None
    else if names[0].Family? then Some(names[0].container)
    else FirstFamily(names[1..])
  }
}
