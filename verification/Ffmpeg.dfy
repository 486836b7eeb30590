/**
 What ffmpeg does with an option list: which settings reach which output stream, whether the frames can
 flow from decoder to encoder, and the file that comes out. The choices ffmpeg makes itself (the level and
 reference count of an encode) are a parameter.
 */
module Ffmpeg {
  import opened Wrappers
  import opened Media
  import opened Policy
  import opened Argv

  /** An encoder's target, with the peak and the buffer that bound it. */
  datatype Rate = Rate(target: int, peak: int, buffer: int)

  /** The settings one output stream ends up with. */
  datatype Settings = Settings(
    codec: Option<CodecArg>,
    filters: seq<Filter>,
    main10: Option<bool>,
    tenBit: Option<bool>,
    transfer: Option<Transfer>,
    tag: Option<VideoTag>,
    level42: bool,
    rate: Option<Rate>,
    bitrate: Option<int>,
    channels: Option<int>,
    language: Option<string>,
    title: Option<string>,
    flags: Option<Dispositions>)

  const UNSET := Settings(None, [], None, None, None, None, false, None, None, None, None, None, None)

  predicate Addresses(a: Address, kind: StreamType, pos: nat) {
    match a
    case Every(k) => k == kind
    case Nth(k, n) => k == kind && n == pos
  }

  /** Options for a stream take effect wherever they stand, and a later one replaces an earlier one. */
  function Apply(t: Token, kind: StreamType, pos: nat, s: Settings): Settings {
    match t
    case SetCodec(a, c) => if Addresses(a, kind, pos) then s.(codec := Some(c)) else s
    case VideoFilters(chain) => if kind == Video then s.(filters := chain) else s
    case VideoProfile(m) => if kind == Video then s.(main10 := Some(m)) else s
    case PixFmt(ten) => if kind == Video then s.(tenBit := Some(ten)) else s
    case ColorTransfer(x) => if kind == Video then s.(transfer := Some(x)) else s
    case TagVideo(tag) => if kind == Video then s.(tag := Some(tag)) else s
    case RewriteLevel42 => if kind == Video then s.(level42 := true) else s
    case RateControl(t, peak, buffer) => if kind == Video then s.(rate := Some(Rate(t, peak, buffer))) else s
    case SetBitrate(a, b) => if Addresses(a, kind, pos) then s.(bitrate := Some(b)) else s
    case SetChannels(a, c) => if Addresses(a, kind, pos) then s.(channels := Some(c)) else s
    case SetLanguage(a, l) => if Addresses(a, kind, pos) then s.(language := Some(l)) else s
    case SetTitle(a, x) => if Addresses(a, kind, pos) then s.(title := Some(x)) else s
    case SetDisposition(a, f) => if Addresses(a, kind, pos) then s.(flags := Some(f)) else s
    case _ => s
  }

  function Effective(args: seq<Token>, kind: StreamType, pos: nat, s: Settings): Settings {
    if args == [] then s else Effective(args[1..], kind, pos, Apply(args[0], kind, pos, s))
  }

  /** The settings of the whole invocation. */
  datatype Globals = Globals(
    device: Option<Backend>,
    accel: Option<Backend>,
    unofficial: bool,
    mapsMetadata: bool,
    keepsTags: bool,
    tags: map<TagKey, string>,
    output: Option<Extension>)

  const NO_GLOBALS := Globals(None, None, false, false, false, map[], None)

  function ApplyGlobal(t: Token, g: Globals): Globals {
    match t
    case InitHwDevice(b, _) => g.(device := Some(b))
    case HwAccelOutputFormat(b) => g.(accel := Some(b))
    case StrictUnofficial => g.(unofficial := true)
    case MapMetadata => g.(mapsMetadata := true)
    case UseMetadataTags => g.(keepsTags := true)
    case SetTag(k, v) => g.(tags := g.tags[k := v])
    case Output(e) => g.(output := Some(e))
    case _ => g
  }

  function GlobalsOf(args: seq<Token>, g: Globals): Globals {
    if args == [] then g else GlobalsOf(args[1..], ApplyGlobal(args[0], g))
  }

  /** The streams the output is made of, in the order of the -map options. */
  datatype Mapping = Mapping(kind: StreamType, source: nat)

  function Mappings(args: seq<Token>): seq<Mapping> {
    if args == [] then []
    else (if args[0].MapStream? then [Mapping(args[0].kind, args[0].source)] else []) + Mappings(args[1..])
  }

  function CountMapped(maps: seq<Mapping>, kind: StreamType): nat {
    if maps == [] then 0 else CountMapped(maps[..|maps|-1], kind) + if maps[|maps|-1].kind == kind then 1 else 0
  }

  // ---------- frames ----------

  /** Where the frames are, and whether they hold ten bits. */
  datatype Frames = OnCpu(tenBit: bool) | OnGpu(backend: Backend, tenBit: bool)

  /** The frames after a filter, or None when the filter cannot run on them. */
  function AfterFilter(f: Filter, at: Frames, device: Option<Backend>): Option<Frames> {
    match f
    case Bwdif => if at.OnCpu? then Some(at) else None
    case Format(tenBit) => if at.OnCpu? then Some(OnCpu(tenBit)) else None
    case HwUpload => if at.OnCpu? && device.Some? then Some(OnGpu(device.value, at.tenBit)) else None
    case Deinterlacer(b) => if at.OnGpu? && at.backend == b then Some(at) else None
  }

  function AfterFilters(chain: seq<Filter>, at: Frames, device: Option<Backend>): Option<Frames> {
    if chain == [] then Some(at)
    else
      match AfterFilter(chain[0], at, device)
      case None => None
      case Some(next) => AfterFilters(chain[1..], next, device)
  }

  predicate EncoderTakes(e: Encoder, at: Frames) {
    match e
    case Software => at.OnCpu?
    case Qsv => at.OnGpu? && at.backend == QsvBackend
    case Vaapi => at.OnGpu? && at.backend == VaapiBackend
  }

  /** Frames as decoded from a source of this depth: on the GPU exactly when a hardware decode keeps them there. */
  function Decoded(g: Globals, tenBit: bool): Frames {
    if g.accel.Some? then OnGpu(g.accel.value, tenBit) else OnCpu(tenBit)
  }

  /** The frames the encoder is given; a pixel format asked for converts them on the CPU. */
  function AtTheEncoder(g: Globals, s: Settings, tenBit: bool): Option<Frames> {
    match AfterFilters(s.filters, Decoded(g, tenBit), g.device)
    case None => None
    case Some(at) => Some(if at.OnCpu? && s.tenBit.Some? then OnCpu(s.tenBit.value) else at)
  }

  /** Frames of either depth reach the encoder where it takes them. */
  predicate FramesFlow(g: Globals, s: Settings, e: Encoder) {
    && (forall tenBit: bool ::
          AtTheEncoder(g, s, tenBit).Some? && EncoderTakes(e, AtTheEncoder(g, s, tenBit).value))
    && (e != Software ==> s.tenBit == None)
  }

  predicate Deinterlaces(chain: seq<Filter>) {
    exists f :: f in chain && (f.Bwdif? || f.Deinterlacer?)
  }

  /** The scan of the picture itself: a deinterlacer makes any progressive, whatever its fields are flagged as. */
  function PictureAfter(s: Settings, source: Scan): Scan {
    if s.codec.Some? && s.codec.value.VideoEncoder? && Deinterlaces(s.filters) then Progressive else source
  }

  // ---------- one stream ----------

  function MuxerOf(e: Extension): Container {
    if e == DotMp4 || e == DotM4v then MP4 else Matroska
  }

  predicate CanMux(c: Container, s: Stream) {
    s.kind == Subtitle ==> (if c == MP4 then s.codec == MovText else s.codec != MovText)
  }

  function Produces(e: EncoderName): Codec {
    match e
    case HevcEncoder => Hevc
    case AacEncoder => Aac
    case Ac3Encoder => Ac3
    case SrtEncoder => Subrip
    case MovTextEncoder => MovText
  }

  predicate CanConvert(e: EncoderName, src: Stream) {
    match e
    case HevcEncoder => src.kind == Video
    case AacEncoder => src.kind == Audio
    case Ac3Encoder => src.kind == Audio
    case SrtEncoder => src.kind == Subtitle && IsTextSubtitle(src.codec)
    case MovTextEncoder => src.kind == Subtitle && IsTextSubtitle(src.codec)
  }

  /** The MP4 muxer writes a Dolby Vision record only when told to, and an HEVC one only under dvh1. */
  function MuxedDolby(g: Globals, s: Settings, c: Container, src: Stream): Option<int> {
    if src.kind == Video && c == MP4 && !(g.unofficial && (src.codec == Hevc ==> s.tag == Some(Dvh1)))
    then None else src.dolby
  }

  /**
   What an encoder picks for itself: a video's level and reference count, and a sound track's or subtitle's profile.
   */
  datatype Freedom = Freedom(level: int, refs: int, profile: Profile)

  /** One choice for each output stream, by its type and its position among the streams of that type. */
  type Choices = (StreamType, nat) -> Freedom

  function Labelled(s: Settings, src: Stream): Stream {
    src.(
      language := if s.language.Some? then s.language.value else src.language,
      title := if s.title.Some? then s.title.value else src.title,
      flags := if s.flags.Some? then s.flags.value else src.flags,
      attachedPic := s.flags == None && src.attachedPic)
  }

  function EncodedVideo(s: Settings, e: Encoder, src: Stream, free: Freedom): Stream {
    src.(
      codec := Hevc,
      profile := if s.main10 == Some(true) then Main10 else if s.main10 == Some(false) then Main else NO_PROFILE,
      level := free.level,
      refs := free.refs,
      chroma := if e == Software && s.tenBit == None then src.chroma else Chroma420,
      fieldOrder :=
        if src.fieldOrder == FieldsInterlaced && !Deinterlaces(s.filters) then FieldsInterlaced
        else FieldsProgressive,
      transfer := if s.transfer.Some? then s.transfer.value else src.transfer,
      dolby := None)
  }

  /** The output stream, or None when ffmpeg would stop with an error. */
  function RunStream(g: Globals, s: Settings, c: Container, src: Stream, free: Freedom): Option<Stream> {
    match s.codec
    case None => None
    case Some(CopyStream) =>
      var out := Labelled(s, src.(level := if s.level42 then 42 else src.level, dolby := MuxedDolby(g, s, c, src)));
      if (s.level42 ==> src.codec == H264) && CanMux(c, out) then Some(out) else None
    case Some(VideoEncoder(e)) =>
      if src.kind == Video && e.Some? && s.rate.Some? && FramesFlow(g, s, e.value)
      then Some(Labelled(s, EncodedVideo(s, e.value, src, free))) else None
    case Some(StreamEncoder(name)) =>
      var out := Labelled(s, src.(
        codec := Produces(name),
        profile := free.profile,
        channels := if s.channels.Some? then s.channels.value else src.channels));
      if CanConvert(name, src) && CanMux(c, out) then Some(out) else None
  }

  // ---------- the whole run ----------

  function RunMapping(args: seq<Token>, input: Probe, free: Choices, maps: seq<Mapping>, i: nat): Option<Stream>
    requires i < |maps|
  {
    var sources := StreamsOfType(input.streams, maps[i].kind);
    var g := GlobalsOf(args, NO_GLOBALS);
    if maps[i].source < |sources| && g.output.Some? then
      var kind, pos := maps[i].kind, CountMapped(maps[..i], maps[i].kind);
      RunStream(g, Effective(args, kind, pos, UNSET), MuxerOf(g.output.value), sources[maps[i].source], free(kind, pos))
    else None
  }

  function FormatNamesOf(c: Container): seq<FormatName> {
    match c
    case Matroska => [Family(Matroska), Foreign("webm")]
    case MP4 => [Foreign("mov"), Family(MP4), Foreign("m4a"), Foreign("3gp"), Foreign("3g2"), Foreign("mj2")]
  }

  /** A global tag survives in Matroska, and in MP4 only when the muxer is told to keep it. */
  function OutputTags(g: Globals, input: Probe): map<TagKey, string> {
    if MuxerOf(if g.output.Some? then g.output.value else DotMkv) == MP4 && !g.keepsTags then map[]
    else (if g.mapsMetadata then input.tags else map[]) + g.tags
  }

  ghost predicate Runs(args: seq<Token>, input: Probe, free: Choices) {
    var maps := Mappings(args);
    && GlobalsOf(args, NO_GLOBALS).output.Some?
    && forall i :: 0 <= i < |maps| ==> RunMapping(args, input, free, maps, i).Some?
  }

  /** What ffprobe reports about the file the run writes. */
  ghost function OutputOf(args: seq<Token>, input: Probe, free: Choices): Probe
    requires Runs(args, input, free)
  {
    var maps := Mappings(args);
    var g := GlobalsOf(args, NO_GLOBALS);
    Probe(
      FormatNamesOf(MuxerOf(g.output.value)),
      OutputTags(g, input),
      seq(|maps|, i requires 0 <= i < |maps| => RunMapping(args, input, free, maps, i).value))
  }
}
