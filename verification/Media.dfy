/** What ffprobe reports about a file, and the plan the decision engine derives from it. */
module Media {
  import opened Wrappers

  datatype StreamType = Video | Audio | Subtitle | OtherType

  datatype Container = Matroska | MP4

  /** One entry of ffprobe's comma-separated demuxer list. */
  datatype FormatName = Family(container: Container) | Foreign(name: string)

  /** The extension of the library path, lower-cased. */
  datatype Extension = DotMkv | DotMp4 | DotM4v | OtherExtension(name: string)

  /** ffprobe's codec_name; NamedCodec("") is an absent name. */
  datatype Codec =
    | H264 | Hevc | Mpeg2Video | Vc1 | Vp9
    | Aac | Ac3 | Eac3 | Mp3
    | Subrip | Ass | Ssa | Webvtt | MovText
    | PgsSubtitle | DvdSubtitle | DvbSubtitle | DvbTeletext | Eia608
    | NamedCodec(name: string)

  datatype Profile = ConstrainedBaseline | Baseline | Main | High | Main10 | NamedProfile(name: string)

  const NO_PROFILE := NamedProfile("")

  datatype Chroma = Chroma420 | OtherChroma(name: string)

  datatype FieldOrder = FieldsUnknown | FieldsProgressive | FieldsInterlaced

  datatype Scan = Progressive | Interlaced

  datatype Transfer = Pq | Hlg | OtherTransfer(name: string)

  datatype Dispositions = Dispositions(isDefault: bool, forced: bool, comment: bool, visualImpaired: bool)

  /** One elementary stream. dolby is the profile of a Dolby Vision configuration record. */
  datatype Stream = Stream(
    kind: StreamType,
    codec: Codec,
    profile: Profile,
    level: int,
    width: int,
    height: int,
    chroma: Chroma,
    frameRate: real,
    refs: int,
    fieldOrder: FieldOrder,
    transfer: Transfer,
    dolby: Option<int>,
    channels: int,
    language: string,
    title: string,
    flags: Dispositions,
    attachedPic: bool)
  {
    /** The level in tenths, for the two codecs whose integer level has a meaning. */
    function LevelTenths(): Option<int> {
      if level <= 0 then None
      else if codec == H264 then Some(level)
      else if codec == Hevc then Some((level + 1) / 3)
      else None
    }

    predicate HasInterlacedFields() {
      fieldOrder == FieldsInterlaced
    }

    predicate IsHdr() {
      transfer == Pq || transfer == Hlg
    }

    function LanguageOrUnd(): string {
      if language == "" then "und" else language
    }
  }

  datatype TagKey = CodarrTag | CodarrVersion | CodarrPolicy | OtherTag(name: string)

  /** One ffprobe result; streams are in file order. */
  datatype Probe = Probe(formatNames: seq<FormatName>, tags: map<TagKey, string>, streams: seq<Stream>)

  function StreamsOfType(streams: seq<Stream>, kind: StreamType): (r: seq<Stream>)
    ensures forall s :: s in r ==> s.kind == kind
  {
    if streams == [] then []
    else if streams[0].kind == kind then [streams[0]] + StreamsOfType(streams[1..], kind)
    else StreamsOfType(streams[1..], kind)
  }

  lemma {:induction false} StreamsOfTypeConcat(a: seq<Stream>, b: seq<Stream>, kind: StreamType)
    ensures StreamsOfType(a + b, kind) == StreamsOfType(a, kind) + StreamsOfType(b, kind)
  {
    if a == [] {
      assert a + b == b;
    } else {
      assert (a + b)[1..] == a[1..] + b;
      StreamsOfTypeConcat(a[1..], b, kind);
    }
  }

  lemma {:induction false} StreamsAllOfType(a: seq<Stream>, kind: StreamType, wanted: StreamType)
    requires forall s :: s in a ==> s.kind == kind
    ensures StreamsOfType(a, wanted) == if kind == wanted then a else []
  {
    if a != [] {
      StreamsAllOfType(a[1..], kind, wanted);
    }
  }

  /** The first video stream that is not cover art, by its position among the video streams. */
  function PrimaryVideo(videos: seq<Stream>): (r: Option<nat>)
    ensures r.Some? ==> r.value < |videos| && !videos[r.value].attachedPic
  {
    if videos == [] then None
    else if !videos[0].attachedPic then Some(0)
    else
      match PrimaryVideo(videos[1..])
      case None => None
      case Some(i) => Some(i + 1)
  }

  datatype Decision = Copy | Encode | Convert | Drop

  /** An ffmpeg encoder name, as a plan's target. */
  datatype EncoderName = HevcEncoder | AacEncoder | Ac3Encoder | SrtEncoder | MovTextEncoder

  /** The decision for one source stream; source is its ordinal among the streams of its type. */
  datatype StreamPlan = StreamPlan(
    kind: StreamType,
    source: nat,
    output: Option<nat>,
    decision: Decision,
    target: Option<EncoderName>,
    bitrate: int,
    channels: int,
    language: string,
    title: string,
    flags: Dispositions)
  {
    predicate Kept() {
      decision != Drop
    }
  }

  /** The labels a plan carries; none of them means there is nothing to write. */
  datatype Kind = Kind(video: bool, audio: bool, subtitles: bool, remux: bool)
  {
    predicate Skip() {
      !video && !audio && !subtitles && !remux
    }
  }

  datatype Plan = Plan(
    kind: Kind,
    sourceContainer: FormatName,
    container: Container,
    streams: seq<StreamPlan>,
    levelRewrite: bool,
    deinterlace: bool,
    hdr: bool,
    hdrTransfer: Option<Transfer>,
    dolby: Option<int>,
    targetBitrate: int)

  /** The kept streams of one type, in plan order. */
  function KeptOf(streams: seq<StreamPlan>, kind: StreamType): seq<StreamPlan> {
    if streams == [] then []
    else if streams[0].kind == kind && streams[0].Kept() then [streams[0]] + KeptOf(streams[1..], kind)
    else KeptOf(streams[1..], kind)
  }

  lemma {:induction false} KeptOfMembers(streams: seq<StreamPlan>, kind: StreamType)
    ensures forall p :: p in KeptOf(streams, kind) <==> p in streams && p.kind == kind && p.Kept()
  {
    if streams != [] {
      KeptOfMembers(streams[1..], kind);
    }
  }

  lemma {:induction false} KeptOfConcat(a: seq<StreamPlan>, b: seq<StreamPlan>, kind: StreamType)
    ensures KeptOf(a + b, kind) == KeptOf(a, kind) + KeptOf(b, kind)
  {
    if a == [] {
      assert a + b == b;
    } else {
      assert (a + b)[1..] == a[1..] + b;
      KeptOfConcat(a[1..], b, kind);
    }
  }

  /** One more plan adds one to its type's count exactly when it is kept. */
  lemma {:induction false} KeptOfSnoc(plans: seq<StreamPlan>, i: nat, kind: StreamType)
    requires i < |plans|
    ensures KeptOf(plans[..i+1], kind)
         == KeptOf(plans[..i], kind) + if plans[i].kind == kind && plans[i].Kept() then [plans[i]] else []
  {
    assert plans[..i+1] == plans[..i] + [plans[i]];
    KeptOfConcat(plans[..i], [plans[i]], kind);
  }

  /** The plan of the primary video stream: the first kept video stream. */
  function VideoStream(streams: seq<StreamPlan>): (r: Option<StreamPlan>)
    ensures r == if KeptOf(streams, Video) == [] then None else Some(KeptOf(streams, Video)[0])
  {
    if streams == [] then None
    else if streams[0].kind == Video && streams[0].Kept() then Some(streams[0])
    else VideoStream(streams[1..])
  }
}
