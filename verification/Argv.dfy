/** The code generator: from a plan to ffmpeg's option list, one token per option with its value. */
module Argv {
  import opened Wrappers
  import opened Media
  import opened Policy

  datatype Encoder = Qsv | Vaapi | Software

  datatype Backend = QsvBackend | VaapiBackend

  datatype DecodePath = HardwareDecode | SoftwareDecode

  datatype Filter = Bwdif | Deinterlacer(backend: Backend) | Format(tenBit: bool) | HwUpload

  datatype VideoTag = Hvc1 | Dvh1

  /** -c:v addresses every video stream of the output; -c:a:N one stream, by its output position. */
  datatype Address = Every(kind: StreamType) | Nth(kind: StreamType, pos: nat)

  datatype CodecArg = CopyStream | VideoEncoder(encoder: Option<Encoder>) | StreamEncoder(name: EncoderName)

  datatype Token =
    | HideBanner | NoStdin | Overwrite | NoStats | ProgressPipe
    | InitHwDevice(backend: Backend, device: string) | FilterHwDevice
    | HwAccel(backend: Backend) | HwAccelOutputFormat(backend: Backend)
    | GenPts | Input(path: string)
    | MapStream(kind: StreamType, source: nat)
    | SetCodec(address: Address, codec: CodecArg)
    | VideoFilters(chain: seq<Filter>)
    | VideoProfile(main10: bool)
    | PixFmt(tenBit: bool)
    | ColorTransfer(transfer: Transfer)
    | TagVideo(tag: VideoTag) | StrictUnofficial
    | RewriteLevel42
    | RateControl(target: int, maxrate: int, bufsize: int)
    | SetBitrate(address: Address, bps: int)
    | SetChannels(address: Address, channels: int)
    | SetLanguage(address: Address, language: string)
    | SetTitle(address: Address, title: string)
    | SetDisposition(address: Address, flags: Dispositions)
    | MapMetadata | MapChapters | UseMetadataTags
    | SetTag(key: TagKey, value: string)
    | Output(ext: Extension)

  datatype BuildError =
    | NothingToDo | NoVideoMapped | NoAudioMapped | MissingCodec | MissingBitrate | MissingEncoder | MissingDevice

  /** sourceCodec is the codec of the primary video stream; output is the staging file's extension. */
  datatype Request = Request(
    plan: Plan,
    path: string,
    sourceCodec: Codec,
    legacyContainer: bool,
    output: Extension,
    version: string,
    policy: string,
    encoder: Option<Encoder>,
    device: string,
    forceSoftwareDecode: bool)

  datatype Command = Command(args: seq<Token>, decode: DecodePath)

  /** One kept stream at its output position among the streams of its type. */
  datatype OutStream = OutStream(plan: StreamPlan, pos: nat)

  function Numbered(kept: seq<StreamPlan>, first: nat): (r: seq<OutStream>)
    ensures |r| == |kept|
    ensures forall i :: 0 <= i < |kept| ==> r[i] == OutStream(kept[i], first + i)
  {
    if kept == [] then [] else [OutStream(kept[0], first)] + Numbered(kept[1..], first + 1)
  }

  /** All video, then all audio, then all subtitles. */
  function OutputStreams(streams: seq<StreamPlan>): seq<OutStream> {
    Numbered(KeptOf(streams, Video), 0) + Numbered(KeptOf(streams, Audio), 0) + Numbered(KeptOf(streams, Subtitle), 0)
  }

  lemma {:induction false} NumberedSnoc(kept: seq<StreamPlan>, p: StreamPlan, first: nat)
    ensures Numbered(kept + [p], first) == Numbered(kept, first) + [OutStream(p, first + |kept|)]
  {
  }

  /** The passes over the first groups, in order. */
  ghost function Groups(streams: seq<StreamPlan>, groups: seq<StreamType>): seq<OutStream> {
    if groups == [] then []
    else Groups(streams, groups[..|groups|-1]) + Numbered(KeptOf(streams, groups[|groups|-1]), 0)
  }

  lemma {:induction false} ThreeGroups(streams: seq<StreamPlan>)
    ensures Groups(streams, [Video, Audio, Subtitle]) == OutputStreams(streams)
  {
    assert [Video, Audio, Subtitle][..2] == [Video, Audio] && [Video, Audio][..1] == [Video] && [Video][..0] == [];
    assert Groups(streams, [Video]) == Numbered(KeptOf(streams, Video), 0);
    assert Groups(streams, [Video, Audio]) == Groups(streams, [Video]) + Numbered(KeptOf(streams, Audio), 0);
  }

  /** One more stream extends its group's list by itself, at the next position, exactly when it is kept. */
  lemma {:induction false} NumberedKeptSnoc(streams: seq<StreamPlan>, i: nat, kind: StreamType)
    requires i < |streams|
    ensures KeptOf(streams[..i+1], kind)
         == KeptOf(streams[..i], kind) + if streams[i].kind == kind && streams[i].Kept() then [streams[i]] else []
    ensures Numbered(KeptOf(streams[..i+1], kind), 0)
         == Numbered(KeptOf(streams[..i], kind), 0)
            + if streams[i].kind == kind && streams[i].Kept()
              then [OutStream(streams[i], |KeptOf(streams[..i], kind)|)] else []
  {
    KeptOfSnoc(streams, i, kind);
    NumberedSnoc(KeptOf(streams[..i], kind), streams[i], 0);
  }

  /** One pass over the plan: appends the kept streams of one type, numbered from zero. */
  method AppendGroup(outs: seq<OutStream>, streams: seq<StreamPlan>, kind: StreamType) returns (r: seq<OutStream>)
    ensures r == outs + Numbered(KeptOf(streams, kind), 0)
  {
    r := outs;
    var n := 0;
    for i := 0 to |streams|
      invariant n == |KeptOf(streams[..i], kind)|
      invariant r == outs + Numbered(KeptOf(streams[..i], kind), 0)
    {
      ghost var done := Numbered(KeptOf(streams[..i], kind), 0);
      NumberedKeptSnoc(streams, i, kind);
      if streams[i].kind == kind && streams[i].decision != Drop {
        var o := OutStream(streams[i], n);
        assert (outs + done) + [o] == outs + (done + [o]);
        r := r + [o];
        n := n + 1;
      } else {
        assert done + [] == done;
      }
    }
    assert streams[..|streams|] == streams;
  }

  /** Lists the kept streams in output order, one pass over the plan for each type. */
  method ListOutputStreams(streams: seq<StreamPlan>) returns (outs: seq<OutStream>)
    ensures outs == OutputStreams(streams)
  {
    outs := [];
    var groups := [Video, Audio, Subtitle];
    for g := 0 to |groups|
      invariant outs == Groups(streams, groups[..g])
    {
      outs := AppendGroup(outs, streams, groups[g]);
      assert groups[..g+1][..g] == groups[..g];
    }
    assert groups[..|groups|] == groups;
    ThreeGroups(streams);
  }

  ghost function CountKind(outs: seq<OutStream>, kind: StreamType): nat {
    if outs == [] then 0
    else CountKind(outs[..|outs|-1], kind) + if outs[|outs|-1].plan.kind == kind then 1 else 0
  }

  lemma {:induction false} CountKindConcat(a: seq<OutStream>, b: seq<OutStream>, kind: StreamType)
    ensures CountKind(a + b, kind) == CountKind(a, kind) + CountKind(b, kind)
  {
    if b == [] {
      assert a + b == a;
    } else {
      assert (a + b)[..|a + b|-1] == a + b[..|b|-1];
      CountKindConcat(a, b[..|b|-1], kind);
    }
  }

  lemma {:induction false} CountKindUniform(a: seq<OutStream>, of: StreamType, kind: StreamType)
    requires forall o :: o in a ==> o.plan.kind == of
    ensures CountKind(a, kind) == if of == kind then |a| else 0
  {
    if a != [] {
      assert a[|a|-1] in a;
      CountKindUniform(a[..|a|-1], of, kind);
    }
  }

  /** Counting by type over the output list gives the number of kept streams of that type. */
  lemma {:induction false} CountKindOutputs(streams: seq<StreamPlan>, kind: StreamType)
    requires kind != OtherType
    ensures CountKind(OutputStreams(streams), kind) == |KeptOf(streams, kind)|
  {
    var v, a := Numbered(KeptOf(streams, Video), 0), Numbered(KeptOf(streams, Audio), 0);
    var s := Numbered(KeptOf(streams, Subtitle), 0);
    CountKindConcat(v + a, s, kind);
    CountKindConcat(v, a, kind);
    KeptOfMembers(streams, Video);
    KeptOfMembers(streams, Audio);
    KeptOfMembers(streams, Subtitle);
    CountKindUniform(v, Video, kind);
    CountKindUniform(a, Audio, kind);
    CountKindUniform(s, Subtitle, kind);
  }

  predicate EncodesVideo(streams: seq<StreamPlan>) {
    var v := VideoStream(streams);
    v.Some? && v.value.decision == Encode
  }

  predicate LacksCodec(p: StreamPlan) {
    p.decision != Copy && p.target == None
  }

  function Validated(req: Request): Option<BuildError> {
    var streams := req.plan.streams;
    if exists o :: o in OutputStreams(streams) && LacksCodec(o.plan) then Some(MissingCodec)
    else if KeptOf(streams, Video) == [] then Some(NoVideoMapped)
    else if KeptOf(streams, Audio) == [] then Some(NoAudioMapped)
    else ValidateEncode(req)
  }

  lemma {:induction false} CountKindSnoc(outs: seq<OutStream>, i: nat, kind: StreamType)
    requires i < |outs|
    ensures CountKind(outs[..i+1], kind) == CountKind(outs[..i], kind) + if outs[i].plan.kind == kind then 1 else 0
  {
    assert outs[..i+1][..i] == outs[..i];
  }

  lemma {:induction false} CountsTell(streams: seq<StreamPlan>)
    ensures CountKind(OutputStreams(streams), Video) == 0 <==> KeptOf(streams, Video) == []
    ensures CountKind(OutputStreams(streams), Audio) == 0 <==> KeptOf(streams, Audio) == []
  {
    CountKindOutputs(streams, Video);
    CountKindOutputs(streams, Audio);
  }

  /** Counts the mapped video and audio streams, up to the first that lacks its codec. */
  method CountMappedStreams(outs: seq<OutStream>) returns (video: nat, audio: nat, lacking: bool)
    ensures lacking <==> exists o :: o in outs && LacksCodec(o.plan)
    ensures !lacking ==> video == CountKind(outs, Video) && audio == CountKind(outs, Audio)
  {
    video, audio := 0, 0;
    for i := 0 to |outs|
      invariant video == CountKind(outs[..i], Video)
      invariant audio == CountKind(outs[..i], Audio)
      invariant forall j :: 0 <= j < i ==> !LacksCodec(outs[j].plan)
    {
      CountKindSnoc(outs, i, Video);
      CountKindSnoc(outs, i, Audio);
      match outs[i].plan.kind {
        case Video => video := video + 1;
        case Audio => audio := audio + 1;
        case _ =>
      }
      if outs[i].plan.decision != Copy && outs[i].plan.target == None {
        assert outs[i] in outs;
        return video, audio, true;
      }
    }
    assert outs[..|outs|] == outs;
    lacking := false;
  }

  /** Returns the first reason not to build a command, if there is one. */
  method Validate(req: Request, outs: seq<OutStream>) returns (err: Option<BuildError>)
    requires outs == OutputStreams(req.plan.streams)
    ensures err == Validated(req)
  {
    var video, audio, lacking := CountMappedStreams(outs);
    if lacking { return Some(MissingCodec); }
    CountsTell(req.plan.streams);
    if video == 0 { return Some(NoVideoMapped); }
    if audio == 0 { return Some(NoAudioMapped); }
    err := ValidateEncode(req);
  }

  function ValidateEncode(req: Request): Option<BuildError> {
    if !EncodesVideo(req.plan.streams) then None
    else if req.encoder == None then Some(MissingEncoder)
    else if req.plan.targetBitrate <= 0 then Some(MissingBitrate)
    else if req.encoder != Some(Software) && req.device == "" then Some(MissingDevice)
    else None
  }

  /** Hardware decode only when the encode stays on the GPU and the silicon has a decoder for the source. */
  function DecodePathOf(req: Request): DecodePath {
    if !EncodesVideo(req.plan.streams) || req.forceSoftwareDecode || req.encoder == Some(Software)
       || !HardwareDecodable(req.sourceCodec)
    then SoftwareDecode else HardwareDecode
  }

  function BackendOf(e: Option<Encoder>): Backend {
    if e == Some(Vaapi) then VaapiBackend else QsvBackend
  }

  function VideoFilterChain(req: Request, decode: DecodePath): seq<Filter> {
    if decode == HardwareDecode then
      if req.plan.deinterlace then [Deinterlacer(BackendOf(req.encoder))] else []
    else
      (if req.plan.deinterlace then [Bwdif] else [])
      + (if req.encoder != Some(Software) then [Format(req.plan.hdr), HwUpload] else [])
  }

  function HdrTransfer(p: Plan): Transfer {
    if p.hdrTransfer == Some(Hlg) then Hlg else Pq
  }

  function Mp4HevcTags(p: Plan): seq<Token> {
    if p.dolby.Some? then [StrictUnofficial, TagVideo(Dvh1)] else [TagVideo(Hvc1)]
  }

  function CopiedVideoArgs(req: Request): seq<Token> {
    [SetCodec(Every(Video), CopyStream)]
    + (if req.plan.container == MP4 && req.sourceCodec == Hevc then Mp4HevcTags(req.plan) else [])
    + (if req.plan.levelRewrite then [RewriteLevel42] else [])
  }

  function EncoderArgs(req: Request, decode: DecodePath): seq<Token> {
    var chain := VideoFilterChain(req, decode);
    (if chain != [] then [VideoFilters(chain)] else [])
    + [SetCodec(Every(Video), VideoEncoder(req.encoder)), VideoProfile(req.plan.hdr)]
    + (if req.encoder == Some(Software) then [PixFmt(req.plan.hdr)] else [])
  }

  function ColourArgs(p: Plan): seq<Token> {
    (if p.hdr then [ColorTransfer(HdrTransfer(p))] else [])
    + (if p.container == MP4 then Mp4HevcTags(p) else [])
  }

  function EncodedVideoArgs(req: Request, decode: DecodePath): seq<Token> {
    var target := req.plan.targetBitrate;
    EncoderArgs(req, decode) + ColourArgs(req.plan) + [RateControl(target, target * 8 / 5, target * 2)]
  }

  function AudioArgs(o: OutStream): seq<Token>
    requires !LacksCodec(o.plan)
  {
    var at := Nth(Audio, o.pos);
    if o.plan.decision == Copy then [SetCodec(at, CopyStream)]
    else
      [SetCodec(at, StreamEncoder(o.plan.target.value))]
      + (if o.plan.bitrate > 0 then [SetBitrate(at, o.plan.bitrate)] else [])
      + (if o.plan.channels > 0 then [SetChannels(at, o.plan.channels)] else [])
  }

  function SubtitleArgs(o: OutStream): seq<Token>
    requires !LacksCodec(o.plan)
  {
    [SetCodec(Nth(Subtitle, o.pos), if o.plan.decision == Copy then CopyStream else StreamEncoder(o.plan.target.value))]
  }

  function MetadataArgs(o: OutStream): seq<Token> {
    var at := Nth(o.plan.kind, o.pos);
    (if o.plan.language != "" then [SetLanguage(at, o.plan.language)] else [])
    + (if o.plan.title != "" then [SetTitle(at, o.plan.title)] else [])
    + [SetDisposition(at, o.plan.flags)]
  }

  function CodecArgs(req: Request, o: OutStream, decode: DecodePath): seq<Token>
    requires !LacksCodec(o.plan)
  {
    match o.plan.kind
    case Video => if o.plan.decision == Encode then EncodedVideoArgs(req, decode) else CopiedVideoArgs(req)
    case Audio => AudioArgs(o)
    case Subtitle => SubtitleArgs(o)
    case OtherType => []
  }

  function StreamArgs(req: Request, o: OutStream, decode: DecodePath): seq<Token>
    requires !LacksCodec(o.plan)
  {
    [MapStream(o.plan.kind, o.plan.source)] + CodecArgs(req, o, decode) + MetadataArgs(o)
  }

  /** No stream lacks the codec it has to be converted to. */
  predicate Buildable(outs: seq<OutStream>) {
    forall o :: o in outs ==> !LacksCodec(o.plan)
  }

  function StreamsArgs(req: Request, outs: seq<OutStream>, decode: DecodePath): seq<Token>
    requires Buildable(outs)
  {
    if outs == [] then [] else StreamArgs(req, outs[0], decode) + StreamsArgs(req, outs[1..], decode)
  }

  function HwDeviceArgs(req: Request): seq<Token> {
    if EncodesVideo(req.plan.streams) && req.encoder != Some(Software)
    then [InitHwDevice(BackendOf(req.encoder), req.device), FilterHwDevice] else []
  }

  function HwAccelArgs(req: Request, decode: DecodePath): seq<Token> {
    if decode == HardwareDecode
    then [HwAccel(BackendOf(req.encoder)), HwAccelOutputFormat(BackendOf(req.encoder))] else []
  }

  function SourceArgs(req: Request): seq<Token> {
    (if req.legacyContainer then [GenPts] else []) + [Input(req.path)]
  }

  function InputArgs(req: Request, decode: DecodePath): seq<Token> {
    [HideBanner, NoStdin, Overwrite] + HwDeviceArgs(req) + HwAccelArgs(req, decode) + SourceArgs(req)
  }

  function MuxArgs(p: Plan): seq<Token> {
    [MapMetadata, MapChapters] + if p.container == MP4 then [UseMetadataTags] else []
  }

  function TagArgs(req: Request): seq<Token> {
    [SetTag(CodarrTag, "1"), SetTag(CodarrVersion, req.version), SetTag(CodarrPolicy, req.policy)]
  }

  function OutputArgs(req: Request): seq<Token> {
    MuxArgs(req.plan) + TagArgs(req) + [ProgressPipe, NoStats, Output(req.output)]
  }

  function Build(req: Request): Result<Command, BuildError>
  {
    if req.plan.kind.Skip() then Failure(NothingToDo)
    else
      match Validated(req)
      case Some(e) => Failure(e)
      case None =>
        var decode := DecodePathOf(req);
        Success(Command(
          InputArgs(req, decode) + StreamsArgs(req, OutputStreams(req.plan.streams), decode) + OutputArgs(req),
          decode))
  }

  // ---------- which requests are refused ----------

  /** What an encode needs besides the plan's streams. */
  predicate EncoderReady(req: Request) {
    EncodesVideo(req.plan.streams) ==>
      && req.encoder.Some? && req.plan.targetBitrate > 0
      && (req.encoder == Some(Software) || req.device != "")
  }

  predicate HasCodec(p: StreamPlan) {
    p.decision == Copy || p.target.Some?
  }

  lemma {:induction false} NumberedMembers(kept: seq<StreamPlan>, p: StreamPlan)
    ensures p in kept <==> exists o :: o in Numbered(kept, 0) && o.plan == p
  {
    if p in kept {
      var i :| 0 <= i < |kept| && kept[i] == p;
      assert Numbered(kept, 0)[i] in Numbered(kept, 0);
    }
  }

  lemma {:induction false} OutputMembers(streams: seq<StreamPlan>, p: StreamPlan)
    ensures (exists o :: o in OutputStreams(streams) && o.plan == p)
       <==> p in streams && p.Kept() && p.kind != OtherType
  {
    NumberedMembers(KeptOf(streams, Video), p);
    NumberedMembers(KeptOf(streams, Audio), p);
    NumberedMembers(KeptOf(streams, Subtitle), p);
    KeptOfMembers(streams, Video);
    KeptOfMembers(streams, Audio);
    KeptOfMembers(streams, Subtitle);
    var v, a := Numbered(KeptOf(streams, Video), 0), Numbered(KeptOf(streams, Audio), 0);
    var t := Numbered(KeptOf(streams, Subtitle), 0);
    assert forall o :: o in OutputStreams(streams) <==> o in v || o in a || o in t;
  }

  lemma {:induction false} LackingExactly(streams: seq<StreamPlan>)
    ensures (exists o :: o in OutputStreams(streams) && LacksCodec(o.plan)) <==>
            exists p :: p in streams && p.Kept() && p.kind != OtherType && !HasCodec(p)
  {
    forall o | o in OutputStreams(streams)
      ensures o.plan in streams && o.plan.Kept() && o.plan.kind != OtherType
    {
      OutputMembers(streams, o.plan);
    }
    forall p | p in streams && p.Kept() && p.kind != OtherType
      ensures exists o :: o in OutputStreams(streams) && o.plan == p
    {
      OutputMembers(streams, p);
    }
  }

  /**
   A command is built exactly for a plan with something to do, some picture and some sound kept, a codec for every
   stream kept, and what its encode needs; and the error of a refusal names a reason that holds.
   */
  lemma {:induction false} BuildsExactly(req: Request)
    ensures Build(req).Success? <==>
              && !req.plan.kind.Skip() && EncoderReady(req)
              && (forall p :: p in req.plan.streams && p.Kept() && p.kind != OtherType ==> HasCodec(p))
              && (exists p :: p in req.plan.streams && p.Kept() && p.kind == Video)
              && (exists p :: p in req.plan.streams && p.Kept() && p.kind == Audio)
    ensures match Build(req)
            case Success(_) => true
            case Failure(NothingToDo) => req.plan.kind.Skip()
            case Failure(MissingCodec) =>
              exists p :: p in req.plan.streams && p.Kept() && p.kind != OtherType && !HasCodec(p)
            case Failure(NoVideoMapped) => forall p :: p in req.plan.streams && p.kind == Video ==> !p.Kept()
            case Failure(NoAudioMapped) => forall p :: p in req.plan.streams && p.kind == Audio ==> !p.Kept()
            case Failure(MissingEncoder) => EncodesVideo(req.plan.streams) && req.encoder.None?
            case Failure(MissingBitrate) => EncodesVideo(req.plan.streams) && req.plan.targetBitrate <= 0
            case Failure(MissingDevice) =>
              EncodesVideo(req.plan.streams) && req.encoder != Some(Software) && req.device == ""
  {
    LackingExactly(req.plan.streams);
    SomeKept(req.plan.streams, Video);
    SomeKept(req.plan.streams, Audio);
  }

  lemma {:induction false} SomeKept(streams: seq<StreamPlan>, kind: StreamType)
    ensures KeptOf(streams, kind) == [] <==> forall p :: p in streams && p.kind == kind ==> !p.Kept()
  {
    KeptOfMembers(streams, kind);
    if KeptOf(streams, kind) != [] {
      assert KeptOf(streams, kind)[0] in KeptOf(streams, kind);
    }
  }
}
