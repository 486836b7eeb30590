/** The order of the option list: what concerns the input, the input, what concerns the output, the output. */
module CommandShape {
  import opened Wrappers
  import opened Media
  import opened Argv

  /** Options that ffmpeg reads for the invocation, or for the input that follows them. */
  predicate BeforeInput(t: Token) {
    || t.HideBanner? || t.NoStdin? || t.Overwrite? || t.InitHwDevice? || t.FilterHwDevice?
    || t.HwAccel? || t.HwAccelOutputFormat? || t.GenPts?
  }

  /** Options that it reads for the output that follows them. */
  predicate BeforeOutput(t: Token) {
    !BeforeInput(t) && !t.Input? && !t.Output?
  }

  ghost predicate AllBeforeInput(args: seq<Token>) {
    forall t :: t in args ==> BeforeInput(t)
  }

  ghost predicate AllBeforeOutput(args: seq<Token>) {
    forall t :: t in args ==> BeforeOutput(t)
  }

  lemma {:induction false} Joined(a: seq<Token>, b: seq<Token>, c: seq<Token>)
    requires AllBeforeOutput(a) && AllBeforeOutput(b) && AllBeforeOutput(c)
    ensures AllBeforeOutput(a + b + c)
  {
  }

  lemma {:induction false} EncoderBeforeOutput(req: Request, decode: DecodePath)
    ensures AllBeforeOutput(EncoderArgs(req, decode))
  {
    var chain := VideoFilterChain(req, decode);
    Joined(
      if chain != [] then [VideoFilters(chain)] else [],
      [SetCodec(Every(Video), VideoEncoder(req.encoder)), VideoProfile(req.plan.hdr)],
      if req.encoder == Some(Software) then [PixFmt(req.plan.hdr)] else []);
  }

  lemma {:induction false} ColourBeforeOutput(p: Plan)
    ensures AllBeforeOutput(ColourArgs(p))
  {
  }

  lemma {:induction false} EncodeBeforeOutput(req: Request, decode: DecodePath)
    ensures AllBeforeOutput(EncodedVideoArgs(req, decode))
  {
    var target := req.plan.targetBitrate;
    EncoderBeforeOutput(req, decode);
    ColourBeforeOutput(req.plan);
    Joined(EncoderArgs(req, decode), ColourArgs(req.plan), [RateControl(target, target * 8 / 5, target * 2)]);
  }

  lemma {:induction false} CopiedBeforeOutput(req: Request)
    ensures AllBeforeOutput(CopiedVideoArgs(req))
  {
    Joined(
      [SetCodec(Every(Video), CopyStream)],
      if req.plan.container == MP4 && req.sourceCodec == Hevc then Mp4HevcTags(req.plan) else [],
      if req.plan.levelRewrite then [RewriteLevel42] else []);
  }

  lemma {:induction false} AudioBeforeOutput(o: OutStream)
    requires !LacksCodec(o.plan)
    ensures AllBeforeOutput(AudioArgs(o))
  {
    if o.plan.decision != Copy {
      var at := Nth(Audio, o.pos);
      Joined(
        [SetCodec(at, StreamEncoder(o.plan.target.value))],
        if o.plan.bitrate > 0 then [SetBitrate(at, o.plan.bitrate)] else [],
        if o.plan.channels > 0 then [SetChannels(at, o.plan.channels)] else []);
    }
  }

  lemma {:induction false} CodecBeforeOutput(req: Request, o: OutStream, decode: DecodePath)
    requires !LacksCodec(o.plan)
    ensures AllBeforeOutput(CodecArgs(req, o, decode))
  {
    match o.plan.kind
    case Video =>
      EncodeBeforeOutput(req, decode);
      CopiedBeforeOutput(req);
    case Audio => AudioBeforeOutput(o);
    case Subtitle =>
    case OtherType =>
  }

  lemma {:induction false} StreamBeforeOutput(req: Request, o: OutStream, decode: DecodePath)
    requires !LacksCodec(o.plan)
    ensures AllBeforeOutput(StreamArgs(req, o, decode))
  {
    CodecBeforeOutput(req, o, decode);
    assert AllBeforeOutput(MetadataArgs(o));
    Joined([MapStream(o.plan.kind, o.plan.source)], CodecArgs(req, o, decode), MetadataArgs(o));
  }

  lemma {:induction false} StreamsBeforeOutput(req: Request, outs: seq<OutStream>, decode: DecodePath)
    requires Buildable(outs)
    ensures AllBeforeOutput(StreamsArgs(req, outs, decode))
  {
    if outs != [] {
      StreamBeforeOutput(req, outs[0], decode);
      StreamsBeforeOutput(req, outs[1..], decode);
    }
  }

  /** Before the input stand the device, the hardware decode, and new timestamps for an old container alone. */
  lemma {:induction false} InputEnds(req: Request, decode: DecodePath) returns (a: seq<Token>)
    ensures InputArgs(req, decode) == a + [Input(req.path)] && AllBeforeInput(a)
    ensures (GenPts in a <==> req.legacyContainer) && NoStdin in a && Overwrite in a
  {
    a := [HideBanner, NoStdin, Overwrite] + HwDeviceArgs(req) + HwAccelArgs(req, decode)
         + if req.legacyContainer then [GenPts] else [];
  }

  lemma {:induction false} OutputEnds(req: Request) returns (c: seq<Token>)
    ensures OutputArgs(req) == c + [Output(req.output)] && AllBeforeOutput(c)
    ensures MapMetadata in c && MapChapters in c && ProgressPipe in c
  {
    c := MuxArgs(req.plan) + TagArgs(req) + [ProgressPipe, NoStats];
  }

  lemma {:induction false} BuiltFrom(req: Request, cmd: Command)
    requires Build(req) == Success(cmd)
    ensures Buildable(OutputStreams(req.plan.streams))
    ensures cmd.args ==
            InputArgs(req, cmd.decode) + StreamsArgs(req, OutputStreams(req.plan.streams), cmd.decode) + OutputArgs(req)
  {
  }

  /** The input stands at i, with nothing but its own options before it, and the output last, with its own between. */
  ghost predicate InOrder(args: seq<Token>, i: nat, path: string, ext: Extension) {
    && i < |args| - 1 && args[i] == Input(path) && args[|args|-1] == Output(ext)
    && AllBeforeInput(args[..i]) && AllBeforeOutput(args[i+1..|args|-1])
  }

  /**
   Each option of a command stands where ffmpeg reads it for what it is meant for. Timestamps are made anew exactly for
   an old container, chapters and tags always come along, and the program never waits for an answer.
   */
  lemma {:induction false} ArgumentOrder(req: Request, cmd: Command) returns (i: nat)
    requires Build(req) == Success(cmd)
    ensures InOrder(cmd.args, i, req.path, req.output)
    ensures GenPts in cmd.args <==> req.legacyContainer
    ensures forall t :: t in [NoStdin, Overwrite, MapMetadata, MapChapters, ProgressPipe] ==> t in cmd.args
  {
    BuiltFrom(req, cmd);
    var a := InputEnds(req, cmd.decode);
    var c := OutputEnds(req);
    var b := StreamsArgs(req, OutputStreams(req.plan.streams), cmd.decode);
    StreamsBeforeOutput(req, OutputStreams(req.plan.streams), cmd.decode);
    Placed(cmd.args, a, req.path, b, c, req.output);
    i := |a|;
  }

  lemma {:induction false} Placed(
    args: seq<Token>, a: seq<Token>, path: string, b: seq<Token>, c: seq<Token>, ext: Extension)
    requires args == (a + [Input(path)]) + b + (c + [Output(ext)])
    requires AllBeforeInput(a) && AllBeforeOutput(b) && AllBeforeOutput(c)
    ensures InOrder(args, |a|, path, ext)
    ensures GenPts in args <==> GenPts in a
    ensures forall t :: t in a || t in c ==> t in args
  {
    assert args == a + [Input(path)] + (b + c) + [Output(ext)];
    assert args[..|a|] == a && args[|a|+1..|args|-1] == b + c;
  }
}
