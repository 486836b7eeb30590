/**
 The option list realises the plan: run through ffmpeg, it gives one output stream for each kept stream of
 the plan, in video, audio, subtitle order, each taken from its own source with its planned settings.
 */
module Realise {
  import opened Wrappers
  import opened Media
  import opened Policy
  import opened Argv
  import opened Ffmpeg

  // ---------- what the plan asks for ----------

  /** The Dolby Vision record a copied stream still carries in the output container. */
  function KeptDolby(p: Plan, src: Stream): Option<int> {
    if p.container == MP4 && !(p.dolby.Some? && src.codec == Hevc) then None else src.dolby
  }

  function RealisedVideo(p: Plan, d: Decision, src: Stream, free: Freedom): Stream {
    if d == Encode then
      src.(
        codec := Hevc,
        profile := if p.hdr then Main10 else Main,
        level := free.level,
        refs := free.refs,
        chroma := Chroma420,
        fieldOrder :=
          if p.deinterlace || src.fieldOrder != FieldsInterlaced then FieldsProgressive else FieldsInterlaced,
        transfer := if !p.hdr then src.transfer else if p.hdrTransfer == Some(Hlg) then Hlg else Pq,
        dolby := None)
    else
      src.(level := if p.levelRewrite then 42 else src.level, dolby := KeptDolby(p, src))
  }

  function RealisedContent(p: Plan, sp: StreamPlan, src: Stream, free: Freedom): Stream
    requires !LacksCodec(sp)
  {
    if sp.kind == Video then RealisedVideo(p, sp.decision, src, free)
    else if sp.decision == Copy then src
    else
      src.(
        codec := Produces(sp.target.value),
        profile := free.profile,
        channels := if sp.kind == Audio && sp.channels > 0 then sp.channels else src.channels)
  }

  function Realised(p: Plan, sp: StreamPlan, src: Stream, free: Freedom): Stream
    requires !LacksCodec(sp)
  {
    RealisedContent(p, sp, src, free).(
      language := if sp.language != "" then sp.language else src.language,
      title := if sp.title != "" then sp.title else src.title,
      flags := sp.flags,
      attachedPic := false)
  }

  // ---------- settings of one stream's own options ----------

  function VideoSettings(req: Request, d: Decision, decode: DecodePath): Settings {
    var tag := if req.plan.dolby.Some? then Dvh1 else Hvc1;
    if d == Encode then
      UNSET.(
        codec := Some(VideoEncoder(req.encoder)),
        filters := VideoFilterChain(req, decode),
        main10 := Some(req.plan.hdr),
        tenBit := if req.encoder == Some(Software) then Some(req.plan.hdr) else None,
        transfer :=
          if !req.plan.hdr then None else if req.plan.hdrTransfer == Some(Hlg) then Some(Hlg) else Some(Pq),
        tag := if req.plan.container == MP4 then Some(tag) else None,
        rate := Some(Rate(req.plan.targetBitrate, req.plan.targetBitrate * 8 / 5, 2 * req.plan.targetBitrate)))
    else
      UNSET.(
        codec := Some(CopyStream),
        tag := if req.plan.container == MP4 && req.sourceCodec == Hevc then Some(tag) else None,
        level42 := req.plan.levelRewrite)
  }

  function CodecSettings(req: Request, sp: StreamPlan, decode: DecodePath): Settings
    requires !LacksCodec(sp)
  {
    match sp.kind
    case Video => VideoSettings(req, sp.decision, decode)
    case OtherType => UNSET
    case _ =>
      if sp.decision == Copy then UNSET.(codec := Some(CopyStream))
      else
        UNSET.(
          codec := Some(StreamEncoder(sp.target.value)),
          bitrate := if sp.kind == Audio && sp.bitrate > 0 then Some(sp.bitrate) else None,
          channels := if sp.kind == Audio && sp.channels > 0 then Some(sp.channels) else None)
  }

  function StreamSettings(req: Request, sp: StreamPlan, decode: DecodePath): Settings
    requires !LacksCodec(sp)
  {
    CodecSettings(req, sp, decode).(
      language := if sp.language != "" then Some(sp.language) else None,
      title := if sp.title != "" then Some(sp.title) else None,
      flags := Some(sp.flags))
  }

  // ---------- folding over concatenated option lists ----------

  lemma {:induction false} EffectiveConcat(a: seq<Token>, b: seq<Token>, kind: StreamType, pos: nat, s: Settings)
    ensures Effective(a + b, kind, pos, s) == Effective(b, kind, pos, Effective(a, kind, pos, s))
  {
    if a == [] {
      assert a + b == b;
    } else {
      assert (a + b)[1..] == a[1..] + b;
      EffectiveConcat(a[1..], b, kind, pos, Apply(a[0], kind, pos, s));
    }
  }

  lemma {:induction false} GlobalsConcat(a: seq<Token>, b: seq<Token>, g: Globals)
    ensures GlobalsOf(a + b, g) == GlobalsOf(b, GlobalsOf(a, g))
  {
    if a == [] {
      assert a + b == b;
    } else {
      assert (a + b)[1..] == a[1..] + b;
      GlobalsConcat(a[1..], b, ApplyGlobal(a[0], g));
    }
  }

  lemma {:induction false} MappingsConcat(a: seq<Token>, b: seq<Token>)
    ensures Mappings(a + b) == Mappings(a) + Mappings(b)
  {
    if a == [] {
      assert a + b == b;
    } else {
      var t := a[1..] + b;
      assert (a + b)[1..] == t && (a + b)[0] == a[0];
      MappingsConcat(a[1..], b);
    }
  }

  /** Options that leave the settings of a stream alone. */
  ghost predicate Inert(args: seq<Token>, kind: StreamType, pos: nat) {
    forall t, s {:trigger Apply(t, kind, pos, s)} :: t in args ==> Apply(t, kind, pos, s) == s
  }

  lemma {:induction false} InertSkips(args: seq<Token>, kind: StreamType, pos: nat, s: Settings)
    requires Inert(args, kind, pos)
    ensures Effective(args, kind, pos, s) == s
  {
    if args != [] {
      assert Apply(args[0], kind, pos, s) == s;
      InertSkips(args[1..], kind, pos, s);
    }
  }

  lemma {:induction false} EffectivePair(a: Token, b: Token, kind: StreamType, pos: nat, s: Settings)
    ensures Effective([a, b], kind, pos, s) == Apply(b, kind, pos, Apply(a, kind, pos, s))
  {
    assert [a, b] == [a] + [b];
    EffectiveConcat([a], [b], kind, pos, s);
  }

  lemma {:induction false} ThreeBlocks(
    a: seq<Token>, b: seq<Token>, c: seq<Token>, kind: StreamType, pos: nat, s: Settings)
    ensures Effective(a + b + c, kind, pos, s)
         == Effective(c, kind, pos, Effective(b, kind, pos, Effective(a, kind, pos, s)))
  {
    EffectiveConcat(a + b, c, kind, pos, s);
    EffectiveConcat(a, b, kind, pos, s);
  }

  lemma {:induction false} InertConcat(a: seq<Token>, b: seq<Token>, kind: StreamType, pos: nat)
    requires Inert(a, kind, pos) && Inert(b, kind, pos)
    ensures Inert(a + b, kind, pos)
  {
  }

  // ---------- one block ----------

  lemma {:induction false} MetadataBlock(o: OutStream, s: Settings)
    ensures Effective(MetadataArgs(o), o.plan.kind, o.pos, s) == s.(
      language := if o.plan.language != "" then Some(o.plan.language) else s.language,
      title := if o.plan.title != "" then Some(o.plan.title) else s.title,
      flags := Some(o.plan.flags))
  {
    var at := Nth(o.plan.kind, o.pos);
    var l := if o.plan.language != "" then [SetLanguage(at, o.plan.language)] else [];
    var t := if o.plan.title != "" then [SetTitle(at, o.plan.title)] else [];
    var d := [SetDisposition(at, o.plan.flags)];
    ThreeBlocks(l, t, d, o.plan.kind, o.pos, s);
  }

  lemma {:induction false} TagBlock(p: Plan, pos: nat, s: Settings)
    ensures Effective(Mp4HevcTags(p), Video, pos, s) == s.(tag := Some(if p.dolby.Some? then Dvh1 else Hvc1))
  {
    if p.dolby.Some? {
      EffectivePair(StrictUnofficial, TagVideo(Dvh1), Video, pos, s);
    }
  }

  lemma {:induction false} CopiedVideoBlock(req: Request, pos: nat)
    ensures Effective(CopiedVideoArgs(req), Video, pos, UNSET) == VideoSettings(req, Copy, SoftwareDecode)
  {
    var c := [SetCodec(Every(Video), CopyStream)];
    var t := if req.plan.container == MP4 && req.sourceCodec == Hevc then Mp4HevcTags(req.plan) else [];
    var l := if req.plan.levelRewrite then [RewriteLevel42] else [];
    ThreeBlocks(c, t, l, Video, pos, UNSET);
    TagBlock(req.plan, pos, UNSET.(codec := Some(CopyStream)));
  }

  lemma {:induction false} EncoderBlock(req: Request, decode: DecodePath, pos: nat)
    ensures Effective(EncoderArgs(req, decode), Video, pos, UNSET) == UNSET.(
      codec := Some(VideoEncoder(req.encoder)),
      filters := VideoFilterChain(req, decode),
      main10 := Some(req.plan.hdr),
      tenBit := if req.encoder == Some(Software) then Some(req.plan.hdr) else None)
  {
    var chain := VideoFilterChain(req, decode);
    var f := if chain != [] then [VideoFilters(chain)] else [];
    var c := [SetCodec(Every(Video), VideoEncoder(req.encoder)), VideoProfile(req.plan.hdr)];
    var x := if req.encoder == Some(Software) then [PixFmt(req.plan.hdr)] else [];
    ThreeBlocks(f, c, x, Video, pos, UNSET);
    EffectivePair(c[0], c[1], Video, pos, UNSET.(filters := chain));
  }

  lemma {:induction false} ColourBlock(p: Plan, pos: nat, s: Settings)
    ensures Effective(ColourArgs(p), Video, pos, s) == s.(
      transfer := if p.hdr then Some(HdrTransfer(p)) else s.transfer,
      tag := if p.container == MP4 then Some(if p.dolby.Some? then Dvh1 else Hvc1) else s.tag)
  {
    var h := if p.hdr then [ColorTransfer(HdrTransfer(p))] else [];
    EffectiveConcat(h, if p.container == MP4 then Mp4HevcTags(p) else [], Video, pos, s);
    TagBlock(p, pos, Effective(h, Video, pos, s));
  }

  lemma {:induction false} EncodedVideoBlock(req: Request, decode: DecodePath, pos: nat)
    ensures Effective(EncodedVideoArgs(req, decode), Video, pos, UNSET) == VideoSettings(req, Encode, decode)
  {
    var e, c := EncoderArgs(req, decode), ColourArgs(req.plan);
    var target := req.plan.targetBitrate;
    ThreeBlocks(e, c, [RateControl(target, target * 8 / 5, target * 2)], Video, pos, UNSET);
    EncoderBlock(req, decode, pos);
    ColourBlock(req.plan, pos, Effective(e, Video, pos, UNSET));
  }

  lemma {:induction false} AudioBlock(o: OutStream)
    requires !LacksCodec(o.plan) && o.plan.kind == Audio
    ensures forall req, decode :: Effective(AudioArgs(o), Audio, o.pos, UNSET) == CodecSettings(req, o.plan, decode)
  {
    if o.plan.decision != Copy {
      var at := Nth(Audio, o.pos);
      var c := [SetCodec(at, StreamEncoder(o.plan.target.value))];
      var b := if o.plan.bitrate > 0 then [SetBitrate(at, o.plan.bitrate)] else [];
      var n := if o.plan.channels > 0 then [SetChannels(at, o.plan.channels)] else [];
      ThreeBlocks(c, b, n, Audio, o.pos, UNSET);
    }
  }

  /** A stream's own options give it exactly its planned settings. */
  lemma {:induction false} OwnBlock(req: Request, o: OutStream, decode: DecodePath)
    requires !LacksCodec(o.plan)
    ensures Effective(StreamArgs(req, o, decode), o.plan.kind, o.pos, UNSET) == StreamSettings(req, o.plan, decode)
  {
    var m := [MapStream(o.plan.kind, o.plan.source)];
    var c := CodecArgs(req, o, decode);
    ThreeBlocks(m, c, MetadataArgs(o), o.plan.kind, o.pos, UNSET);
    MetadataBlock(o, CodecSettings(req, o.plan, decode));
    match o.plan.kind {
      case Video =>
        CopiedVideoBlock(req, o.pos);
        EncodedVideoBlock(req, decode, o.pos);
      case Audio => AudioBlock(o);
      case _ =>
    }
  }

  lemma {:induction false} OtherMetadata(o: OutStream, kind: StreamType, pos: nat)
    requires o.plan.kind != kind || o.pos != pos
    ensures Inert(MetadataArgs(o), kind, pos)
  {
    var at := Nth(o.plan.kind, o.pos);
    var l := if o.plan.language != "" then [SetLanguage(at, o.plan.language)] else [];
    var t := if o.plan.title != "" then [SetTitle(at, o.plan.title)] else [];
    InertConcat(l, t, kind, pos);
    InertConcat(l + t, [SetDisposition(at, o.plan.flags)], kind, pos);
  }

  lemma {:induction false} OtherEncodedVideo(req: Request, decode: DecodePath, kind: StreamType, pos: nat)
    requires kind != Video
    ensures Inert(EncodedVideoArgs(req, decode), kind, pos)
  {
    var target := req.plan.targetBitrate;
    var r := [RateControl(target, target * 8 / 5, target * 2)];
    OtherEncoder(req, decode, kind, pos);
    OtherColour(req.plan, kind, pos);
    InertConcat(EncoderArgs(req, decode), ColourArgs(req.plan), kind, pos);
    InertConcat(EncoderArgs(req, decode) + ColourArgs(req.plan), r, kind, pos);
  }

  lemma {:induction false} OtherColour(p: Plan, kind: StreamType, pos: nat)
    requires kind != Video
    ensures Inert(ColourArgs(p), kind, pos)
  {
  }

  lemma {:induction false} OtherEncoder(req: Request, decode: DecodePath, kind: StreamType, pos: nat)
    requires kind != Video
    ensures Inert(EncoderArgs(req, decode), kind, pos)
  {
    var chain := VideoFilterChain(req, decode);
    var f := if chain != [] then [VideoFilters(chain)] else [];
    var c := [SetCodec(Every(Video), VideoEncoder(req.encoder)), VideoProfile(req.plan.hdr)];
    InertConcat(f, c, kind, pos);
    InertConcat(f + c, if req.encoder == Some(Software) then [PixFmt(req.plan.hdr)] else [], kind, pos);
  }

  lemma {:induction false} OtherCodec(req: Request, o: OutStream, decode: DecodePath, kind: StreamType, pos: nat)
    requires !LacksCodec(o.plan)
    requires o.plan.kind != kind || (kind != Video && o.pos != pos)
    ensures Inert(CodecArgs(req, o, decode), kind, pos)
  {
    match o.plan.kind {
      case Video =>
        if o.plan.decision == Encode {
          OtherEncodedVideo(req, decode, kind, pos);
        } else {
          var t := if req.plan.container == MP4 && req.sourceCodec == Hevc then Mp4HevcTags(req.plan) else [];
          InertConcat([SetCodec(Every(Video), CopyStream)], t, kind, pos);
        }
      case _ =>
    }
  }

  /** A stream's options are inert for every other stream. */
  lemma {:induction false} OtherBlock(req: Request, o: OutStream, decode: DecodePath, kind: StreamType, pos: nat)
    requires !LacksCodec(o.plan)
    requires o.plan.kind != kind || (kind != Video && o.pos != pos)
    ensures Inert(StreamArgs(req, o, decode), kind, pos)
  {
    var m := [MapStream(o.plan.kind, o.plan.source)];
    OtherCodec(req, o, decode, kind, pos);
    OtherMetadata(o, kind, pos);
    InertConcat(m, CodecArgs(req, o, decode), kind, pos);
    InertConcat(m + CodecArgs(req, o, decode), MetadataArgs(o), kind, pos);
  }

  // ---------- the whole option list ----------

  /** No other stream of the list shares options with stream j. */
  ghost predicate Apart(outs: seq<OutStream>, kind: StreamType, pos: nat) {
    forall o :: o in outs ==> o.plan.kind != kind || (kind != Video && o.pos != pos)
  }

  lemma {:induction false} ApartSkips(
    req: Request, outs: seq<OutStream>, decode: DecodePath, kind: StreamType, pos: nat, s: Settings)
    requires Buildable(outs) && Apart(outs, kind, pos)
    ensures Effective(StreamsArgs(req, outs, decode), kind, pos, s) == s
  {
    if outs != [] {
      var b := StreamArgs(req, outs[0], decode);
      OtherBlock(req, outs[0], decode, kind, pos);
      InertSkips(b, kind, pos, s);
      EffectiveConcat(b, StreamsArgs(req, outs[1..], decode), kind, pos, s);
      ApartSkips(req, outs[1..], decode, kind, pos, s);
    }
  }

  lemma {:induction false} ApartTail(outs: seq<OutStream>, j: nat, kind: StreamType, pos: nat)
    requires 0 < j < |outs| && Apart(outs[..j], kind, pos)
    ensures Apart(outs[1..][..j-1], kind, pos) && outs[1..][j..] == outs[j+1..]
  {
    assert outs[1..][..j-1] == outs[..j][1..];
  }

  lemma {:induction false} OwnFirst(req: Request, outs: seq<OutStream>, decode: DecodePath)
    requires Buildable(outs) && outs != [] && Apart(outs[1..], outs[0].plan.kind, outs[0].pos)
    ensures Effective(StreamsArgs(req, outs, decode), outs[0].plan.kind, outs[0].pos, UNSET)
         == StreamSettings(req, outs[0].plan, decode)
  {
    var kind, pos := outs[0].plan.kind, outs[0].pos;
    EffectiveConcat(StreamArgs(req, outs[0], decode), StreamsArgs(req, outs[1..], decode), kind, pos, UNSET);
    OwnBlock(req, outs[0], decode);
    ApartSkips(req, outs[1..], decode, kind, pos, StreamSettings(req, outs[0].plan, decode));
  }

  lemma {:induction false} OtherFirst(
    req: Request, outs: seq<OutStream>, decode: DecodePath, kind: StreamType, pos: nat)
    requires Buildable(outs) && outs != [] && Apart([outs[0]], kind, pos)
    ensures Effective(StreamsArgs(req, outs, decode), kind, pos, UNSET)
         == Effective(StreamsArgs(req, outs[1..], decode), kind, pos, UNSET)
  {
    var b := StreamArgs(req, outs[0], decode);
    EffectiveConcat(b, StreamsArgs(req, outs[1..], decode), kind, pos, UNSET);
    assert outs[0] in [outs[0]];
    OtherBlock(req, outs[0], decode, kind, pos);
    InertSkips(b, kind, pos, UNSET);
  }

  lemma {:induction false} OnlyOwnBlock(req: Request, outs: seq<OutStream>, decode: DecodePath, j: nat)
    requires Buildable(outs) && j < |outs|
    requires Apart(outs[..j], outs[j].plan.kind, outs[j].pos) && Apart(outs[j+1..], outs[j].plan.kind, outs[j].pos)
    ensures Effective(StreamsArgs(req, outs, decode), outs[j].plan.kind, outs[j].pos, UNSET)
         == StreamSettings(req, outs[j].plan, decode)
  {
    if j == 0 {
      OwnFirst(req, outs, decode);
    } else {
      assert outs[0] in outs[..j];
      OtherFirst(req, outs, decode, outs[j].plan.kind, outs[j].pos);
      ApartTail(outs, j, outs[j].plan.kind, outs[j].pos);
      OnlyOwnBlock(req, outs[1..], decode, j - 1);
    }
  }

  lemma {:induction false} InputInert(req: Request, decode: DecodePath, kind: StreamType, pos: nat)
    ensures Inert(InputArgs(req, decode), kind, pos)
  {
    var start := [HideBanner, NoStdin, Overwrite];
    InertConcat(start, HwDeviceArgs(req), kind, pos);
    InertConcat(start + HwDeviceArgs(req), HwAccelArgs(req, decode), kind, pos);
    InertConcat(start + HwDeviceArgs(req) + HwAccelArgs(req, decode), SourceArgs(req), kind, pos);
  }

  lemma {:induction false} OutputInert(req: Request, kind: StreamType, pos: nat)
    ensures Inert(OutputArgs(req), kind, pos)
  {
    InertConcat(MuxArgs(req.plan), TagArgs(req), kind, pos);
    InertConcat(MuxArgs(req.plan) + TagArgs(req), [ProgressPipe, NoStats, Output(req.output)], kind, pos);
  }

  lemma {:induction false} NoMappings(args: seq<Token>)
    requires forall t :: t in args ==> !t.MapStream?
    ensures Mappings(args) == []
  {
    if args != [] {
      NoMappings(args[1..]);
    }
  }

  ghost function MappingsOfStreams(outs: seq<OutStream>): seq<Mapping> {
    seq(|outs|, i requires 0 <= i < |outs| => Mapping(outs[i].plan.kind, outs[i].plan.source))
  }

  lemma {:induction false} StreamMaps(req: Request, o: OutStream, decode: DecodePath)
    requires !LacksCodec(o.plan)
    ensures Mappings(StreamArgs(req, o, decode)) == [Mapping(o.plan.kind, o.plan.source)]
  {
    var m := [MapStream(o.plan.kind, o.plan.source)];
    MappingsConcat(m + CodecArgs(req, o, decode), MetadataArgs(o));
    MappingsConcat(m, CodecArgs(req, o, decode));
    CodecMapsNothing(req, o, decode);
    NoMappings(MetadataArgs(o));
  }

  lemma {:induction false} StreamsMap(req: Request, outs: seq<OutStream>, decode: DecodePath)
    requires Buildable(outs)
    ensures Mappings(StreamsArgs(req, outs, decode)) == MappingsOfStreams(outs)
  {
    if outs != [] {
      MappingsConcat(StreamArgs(req, outs[0], decode), StreamsArgs(req, outs[1..], decode));
      StreamMaps(req, outs[0], decode);
      StreamsMap(req, outs[1..], decode);
      assert MappingsOfStreams(outs)
          == [Mapping(outs[0].plan.kind, outs[0].plan.source)] + MappingsOfStreams(outs[1..]);
    }
  }

  lemma {:induction false} EncodedMapsNothing(req: Request, decode: DecodePath)
    ensures Mappings(EncodedVideoArgs(req, decode)) == []
  {
    var e, c := EncoderArgs(req, decode), ColourArgs(req.plan);
    var target := req.plan.targetBitrate;
    MappingsConcat(e + c, [RateControl(target, target * 8 / 5, target * 2)]);
    MappingsConcat(e, c);
    NoMappings(e);
    NoMappings(c);
  }

  lemma {:induction false} CodecMapsNothing(req: Request, o: OutStream, decode: DecodePath)
    requires !LacksCodec(o.plan)
    ensures Mappings(CodecArgs(req, o, decode)) == []
  {
    if o.plan.kind == Video && o.plan.decision == Encode {
      EncodedMapsNothing(req, decode);
    } else {
      NoMappings(CodecArgs(req, o, decode));
    }
  }

  // ---------- global settings ----------

  ghost predicate WritesDolby(req: Request, o: OutStream) {
    && o.plan.kind == Video && req.plan.container == MP4 && req.plan.dolby.Some?
    && (o.plan.decision == Encode || req.sourceCodec == Hevc)
  }

  lemma {:induction false} GlobalsPair(a: Token, b: Token, g: Globals)
    ensures GlobalsOf([a, b], g) == ApplyGlobal(b, ApplyGlobal(a, g))
  {
    assert [a, b] == [a] + [b];
    GlobalsConcat([a], [b], g);
  }

  lemma {:induction false} ThreeGlobals(a: seq<Token>, b: seq<Token>, c: seq<Token>, g: Globals)
    ensures GlobalsOf(a + b + c, g) == GlobalsOf(c, GlobalsOf(b, GlobalsOf(a, g)))
  {
    GlobalsConcat(a + b, c, g);
    GlobalsConcat(a, b, g);
  }

  /** Options that leave the global settings alone. */
  ghost predicate Local(args: seq<Token>) {
    forall t, g {:trigger ApplyGlobal(t, g)} :: t in args ==> ApplyGlobal(t, g) == g
  }

  lemma {:induction false} LocalSkips(args: seq<Token>, g: Globals)
    requires Local(args)
    ensures GlobalsOf(args, g) == g
  {
    if args != [] {
      assert ApplyGlobal(args[0], g) == g;
      LocalSkips(args[1..], g);
    }
  }

  lemma {:induction false} TagGlobals(p: Plan, g: Globals)
    ensures GlobalsOf(Mp4HevcTags(p), g) == g.(unofficial := g.unofficial || p.dolby.Some?)
  {
    if p.dolby.Some? {
      GlobalsPair(StrictUnofficial, TagVideo(Dvh1), g);
    }
  }

  lemma {:induction false} EncodedGlobals(req: Request, decode: DecodePath, g: Globals)
    ensures GlobalsOf(EncodedVideoArgs(req, decode), g)
         == g.(unofficial := g.unofficial || (req.plan.container == MP4 && req.plan.dolby.Some?))
  {
    var e, c := EncoderArgs(req, decode), ColourArgs(req.plan);
    var target := req.plan.targetBitrate;
    var r := [RateControl(target, target * 8 / 5, target * 2)];
    ThreeGlobals(e, c, r, g);
    EncoderLocal(req, decode);
    LocalSkips(e, g);
    ColourGlobals(req.plan, g);
    LocalSkips(r, GlobalsOf(c, g));
  }

  lemma {:induction false} ColourGlobals(p: Plan, g: Globals)
    ensures GlobalsOf(ColourArgs(p), g) == g.(unofficial := g.unofficial || (p.container == MP4 && p.dolby.Some?))
  {
    var h := if p.hdr then [ColorTransfer(HdrTransfer(p))] else [];
    GlobalsConcat(h, if p.container == MP4 then Mp4HevcTags(p) else [], g);
    LocalSkips(h, g);
    TagGlobals(p, g);
  }

  lemma {:induction false} EncoderLocal(req: Request, decode: DecodePath)
    ensures Local(EncoderArgs(req, decode))
  {
  }

  lemma {:induction false} CopiedGlobals(req: Request, g: Globals)
    ensures GlobalsOf(CopiedVideoArgs(req), g)
         == g.(unofficial :=
                 g.unofficial || (req.plan.container == MP4 && req.sourceCodec == Hevc && req.plan.dolby.Some?))
  {
    var c := [SetCodec(Every(Video), CopyStream)];
    var t := if req.plan.container == MP4 && req.sourceCodec == Hevc then Mp4HevcTags(req.plan) else [];
    var l := if req.plan.levelRewrite then [RewriteLevel42] else [];
    ThreeGlobals(c, t, l, g);
    TagGlobals(req.plan, g);
    LocalSkips(l, GlobalsOf(c + t, g));
  }

  lemma {:induction false} CodecGlobals(req: Request, o: OutStream, decode: DecodePath, g: Globals)
    requires !LacksCodec(o.plan)
    ensures GlobalsOf(CodecArgs(req, o, decode), g) == g.(unofficial := g.unofficial || WritesDolby(req, o))
  {
    match o.plan.kind {
      case Video =>
        EncodedGlobals(req, decode, g);
        CopiedGlobals(req, g);
      case _ =>
        LocalSkips(CodecArgs(req, o, decode), g);
    }
  }

  lemma {:induction false} BlockGlobals(req: Request, o: OutStream, decode: DecodePath, g: Globals)
    requires !LacksCodec(o.plan)
    ensures GlobalsOf(StreamArgs(req, o, decode), g) == g.(unofficial := g.unofficial || WritesDolby(req, o))
  {
    var m := [MapStream(o.plan.kind, o.plan.source)];
    ThreeGlobals(m, CodecArgs(req, o, decode), MetadataArgs(o), g);
    CodecGlobals(req, o, decode, g);
    MetadataLocal(o);
    LocalSkips(MetadataArgs(o), g.(unofficial := g.unofficial || WritesDolby(req, o)));
  }

  lemma {:induction false} MetadataLocal(o: OutStream)
    ensures Local(MetadataArgs(o))
  {
  }

  /** Only the video block reaches a global setting: it may allow the Dolby Vision record. */
  lemma {:induction false} StreamsGlobals(req: Request, outs: seq<OutStream>, decode: DecodePath, g: Globals)
    requires Buildable(outs)
    ensures GlobalsOf(StreamsArgs(req, outs, decode), g)
         == g.(unofficial := g.unofficial || exists o :: o in outs && WritesDolby(req, o))
  {
    if outs != [] {
      var o, rest := outs[0], outs[1..];
      GlobalsConcat(StreamArgs(req, o, decode), StreamsArgs(req, rest, decode), g);
      BlockGlobals(req, o, decode, g);
      StreamsGlobals(req, rest, decode, g.(unofficial := g.unofficial || WritesDolby(req, o)));
      assert outs == [o] + rest;
    }
  }

  /** The device a hardware encode runs on. */
  function DeviceOf(req: Request): Option<Backend> {
    if EncodesVideo(req.plan.streams) && req.encoder != Some(Software) then Some(BackendOf(req.encoder)) else None
  }

  lemma {:induction false} InputGlobals(req: Request, decode: DecodePath)
    ensures GlobalsOf(InputArgs(req, decode), NO_GLOBALS) == NO_GLOBALS.(
      device := DeviceOf(req),
      accel := if decode == HardwareDecode then Some(BackendOf(req.encoder)) else None)
  {
    var b := BackendOf(req.encoder);
    var start := [HideBanner, NoStdin, Overwrite];
    var g := NO_GLOBALS;
    GlobalsConcat(start + HwDeviceArgs(req) + HwAccelArgs(req, decode), SourceArgs(req), g);
    GlobalsConcat(start + HwDeviceArgs(req), HwAccelArgs(req, decode), g);
    GlobalsConcat(start, HwDeviceArgs(req), g);
    LocalSkips(start, g);
    GlobalsPair(InitHwDevice(b, req.device), FilterHwDevice, g);
    var g1 := GlobalsOf(start + HwDeviceArgs(req), g);
    GlobalsPair(HwAccel(b), HwAccelOutputFormat(b), g1);
    LocalSkips(SourceArgs(req), GlobalsOf(start + HwDeviceArgs(req) + HwAccelArgs(req, decode), g));
  }

  ghost function OwnTags(req: Request): map<TagKey, string> {
    map[CodarrTag := "1", CodarrVersion := req.version, CodarrPolicy := req.policy]
  }

  lemma {:induction false} GlobalsTriple(a: Token, b: Token, c: Token, g: Globals)
    ensures GlobalsOf([a, b, c], g) == ApplyGlobal(c, ApplyGlobal(b, ApplyGlobal(a, g)))
  {
    assert [a, b, c] == [a] + [b, c];
    GlobalsConcat([a], [b, c], g);
    GlobalsPair(b, c, ApplyGlobal(a, g));
  }

  lemma {:induction false} MuxGlobals(p: Plan, g: Globals)
    ensures GlobalsOf(MuxArgs(p), g)
         == g.(mapsMetadata := true, keepsTags := g.keepsTags || p.container == MP4)
  {
    GlobalsConcat([MapMetadata, MapChapters], if p.container == MP4 then [UseMetadataTags] else [], g);
    GlobalsPair(MapMetadata, MapChapters, g);
  }

  lemma {:induction false} OutputGlobals(req: Request, g: Globals)
    requires g.tags == map[]
    ensures GlobalsOf(OutputArgs(req), g) == g.(
      mapsMetadata := true, keepsTags := g.keepsTags || req.plan.container == MP4,
      tags := OwnTags(req), output := Some(req.output))
  {
    var tail := [ProgressPipe, NoStats, Output(req.output)];
    ThreeGlobals(MuxArgs(req.plan), TagArgs(req), tail, g);
    MuxGlobals(req.plan, g);
    var g1 := GlobalsOf(MuxArgs(req.plan), g);
    GlobalsTriple(SetTag(CodarrTag, "1"), SetTag(CodarrVersion, req.version), SetTag(CodarrPolicy, req.policy), g1);
    assert map[][CodarrTag := "1"][CodarrVersion := req.version][CodarrPolicy := req.policy] == OwnTags(req);
    GlobalsTriple(ProgressPipe, NoStats, Output(req.output), g1.(tags := OwnTags(req)));
  }

  // ---------- the theorem ----------

  /** The plan's decision for a stream suits the source stream it names. */
  predicate Suits(p: Plan, sourceCodec: Codec, sp: StreamPlan, src: Stream) {
    match sp.kind
    case Video =>
      sp.decision != Encode ==> sourceCodec == src.codec && (p.levelRewrite ==> src.codec == H264)
    case Audio => sp.decision != Copy ==> sp.target == Some(AacEncoder) || sp.target == Some(Ac3Encoder)
    case Subtitle =>
      if sp.decision == Copy then (if p.container == MP4 then src.codec == MovText else src.codec != MovText)
      else sp.target == Some(SubtitleEncoder(p.container)) && IsTextSubtitle(src.codec)
    case OtherType => false
  }

  /** The plan was made for this probe: every kept stream names a source stream its decision suits. */
  ghost predicate Sourced(req: Request, probe: Probe) {
    && MuxerOf(req.output) == req.plan.container
    && |KeptOf(req.plan.streams, Video)| <= 1
    && forall p :: p in req.plan.streams && p.Kept() ==>
         p.source < |StreamsOfType(probe.streams, p.kind)|
         && Suits(req.plan, req.sourceCodec, p, StreamsOfType(probe.streams, p.kind)[p.source])
  }

  ghost function SourceOf(probe: Probe, sp: StreamPlan): Stream
    requires sp.source < |StreamsOfType(probe.streams, sp.kind)|
  {
    StreamsOfType(probe.streams, sp.kind)[sp.source]
  }

  /** The frames a request's encoder is given: where it works, and in ten bits for HDR unless they stayed on the GPU. */
  function WantedFrames(req: Request, decode: DecodePath, tenBit: bool): Frames {
    var depth := if decode == HardwareDecode then tenBit else req.plan.hdr;
    match req.encoder
    case Some(Qsv) => OnGpu(QsvBackend, depth)
    case Some(Vaapi) => OnGpu(VaapiBackend, depth)
    case _ => OnCpu(depth)
  }

  lemma {:induction false} UploadedFrames(hdr: bool, deinterlace: bool, at: Frames, device: Backend)
    requires at.OnCpu?
    ensures var up := [Format(hdr), HwUpload];
            AfterFilters((if deinterlace then [Bwdif] else []) + up, at, Some(device)) == Some(OnGpu(device, hdr))
  {
    var up := [Format(hdr), HwUpload];
    assert up[1..] == [HwUpload] && [HwUpload][1..] == [];
    assert AfterFilters([HwUpload], OnCpu(hdr), Some(device)) == Some(OnGpu(device, hdr));
    assert AfterFilters(up, at, Some(device)) == Some(OnGpu(device, hdr));
    if deinterlace {
      var chain := [Bwdif] + up;
      assert chain[0] == Bwdif && chain[1..] == up;
    } else {
      assert [] + up == up;
    }
  }

  /** Whatever their depth in the source, the frames reach the encoder where it works. */
  lemma {:induction false} FramesReachTheEncoder(req: Request, g: Globals, tenBit: bool)
    requires EncodesVideo(req.plan.streams) && req.encoder.Some?
    requires g.device == if req.encoder != Some(Software) then Some(BackendOf(req.encoder)) else None
    requires g.accel == if DecodePathOf(req) == HardwareDecode then Some(BackendOf(req.encoder)) else None
    ensures AtTheEncoder(g, VideoSettings(req, Encode, DecodePathOf(req)), tenBit)
         == Some(WantedFrames(req, DecodePathOf(req), tenBit))
  {
    var chain := VideoFilterChain(req, DecodePathOf(req));
    var start := Decoded(g, tenBit);
    if DecodePathOf(req) == HardwareDecode {
      assert AfterFilters(chain, start, g.device) == Some(start);
    } else if req.encoder == Some(Software) {
      assert AfterFilters(chain, start, g.device) == Some(start);
    } else {
      UploadedFrames(req.plan.hdr, req.plan.deinterlace, start, g.device.value);
    }
  }

  /** The invocation's frames start and are uploaded where the request's encoder needs them. */
  ghost predicate DeviceReady(req: Request, g: Globals) {
    && g.device == DeviceOf(req)
    && g.accel == (if DecodePathOf(req) == HardwareDecode then Some(BackendOf(req.encoder)) else None)
  }

  lemma {:induction false} OnlyVideoIsEncoded(req: Request, sp: StreamPlan)
    requires Validated(req) == None && |KeptOf(req.plan.streams, Video)| <= 1
    requires sp in req.plan.streams && sp.kind == Video && sp.decision == Encode
    ensures EncodesVideo(req.plan.streams) && req.encoder.Some?
  {
    KeptOfMembers(req.plan.streams, Video);
    assert sp in KeptOf(req.plan.streams, Video);
  }

  lemma {:induction false} EncodedAsPlanned(req: Request, sp: StreamPlan, src: Stream, free: Freedom)
    requires EncodesVideo(req.plan.streams) && req.encoder.Some?
    requires sp.kind == Video && sp.decision == Encode && !LacksCodec(sp)
    ensures EncodedVideo(StreamSettings(req, sp, DecodePathOf(req)), req.encoder.value, src, free)
         == RealisedVideo(req.plan, Encode, src, free)
  {
    DeinterlacingFilter(req);
  }

  lemma {:induction false} EncodedVideoComesOut(req: Request, g: Globals, sp: StreamPlan, src: Stream, free: Freedom)
    requires Validated(req) == None && DeviceReady(req, g)
    requires |KeptOf(req.plan.streams, Video)| <= 1
    requires sp in req.plan.streams && sp.kind == Video && sp.decision == Encode && src.kind == Video
    requires !LacksCodec(sp)
    ensures RunStream(g, StreamSettings(req, sp, DecodePathOf(req)), req.plan.container, src, free)
         == Some(Realised(req.plan, sp, src, free))
  {
    OnlyVideoIsEncoded(req, sp);
    var s := StreamSettings(req, sp, DecodePathOf(req));
    forall tenBit: bool
      ensures AtTheEncoder(g, s, tenBit) == Some(WantedFrames(req, DecodePathOf(req), tenBit))
    {
      FramesReachTheEncoder(req, g, tenBit);
    }
    EncodedAsPlanned(req, sp, src, free);
    assert FramesFlow(g, s, req.encoder.value);
  }

  lemma {:induction false} DeinterlacingFilter(req: Request)
    ensures Deinterlaces(VideoFilterChain(req, DecodePathOf(req))) <==> req.plan.deinterlace
  {
    var chain := VideoFilterChain(req, DecodePathOf(req));
    if req.plan.deinterlace {
      assert chain[0] in chain && (chain[0].Bwdif? || chain[0].Deinterlacer?);
    }
  }

  lemma {:induction false} CopiedVideoComesOut(req: Request, g: Globals, sp: StreamPlan, src: Stream, free: Freedom)
    requires sp.kind == Video && sp.decision != Encode && src.kind == Video && Suits(req.plan, req.sourceCodec, sp, src)
    requires g.unofficial == WritesDolby(req, OutStream(sp, 0))
    requires !LacksCodec(sp)
    ensures RunStream(g, StreamSettings(req, sp, DecodePathOf(req)), req.plan.container, src, free)
         == Some(Realised(req.plan, sp, src, free))
  {
  }

  lemma {:induction false} SoundComesOut(req: Request, g: Globals, sp: StreamPlan, src: Stream, free: Freedom)
    requires sp.kind == Audio && src.kind == Audio && !LacksCodec(sp) && Suits(req.plan, req.sourceCodec, sp, src)
    ensures RunStream(g, StreamSettings(req, sp, DecodePathOf(req)), req.plan.container, src, free)
         == Some(Realised(req.plan, sp, src, free))
  {
  }

  lemma {:induction false} SubtitleComesOut(req: Request, g: Globals, sp: StreamPlan, src: Stream, free: Freedom)
    requires sp.kind == Subtitle && src.kind == Subtitle && !LacksCodec(sp) && Suits(req.plan, req.sourceCodec, sp, src)
    ensures RunStream(g, StreamSettings(req, sp, DecodePathOf(req)), req.plan.container, src, free)
         == Some(Realised(req.plan, sp, src, free))
  {
  }

  /** With its planned settings and the invocation's global ones, a stream comes out as planned. */
  lemma {:induction false} StreamComesOut(req: Request, probe: Probe, g: Globals, sp: StreamPlan, free: Freedom)
    requires Validated(req) == None && Sourced(req, probe) && DeviceReady(req, g)
    requires sp in req.plan.streams && sp.Kept() && !LacksCodec(sp)
    requires sp.kind == Video ==> g.unofficial == WritesDolby(req, OutStream(sp, 0))
    ensures RunStream(g, StreamSettings(req, sp, DecodePathOf(req)), req.plan.container, SourceOf(probe, sp), free)
         == Some(Realised(req.plan, sp, SourceOf(probe, sp), free))
  {
    var src := SourceOf(probe, sp);
    match sp.kind {
      case Video =>
        if sp.decision == Encode {
          EncodedVideoComesOut(req, g, sp, src, free);
        } else {
          CopiedVideoComesOut(req, g, sp, src, free);
        }
      case Audio => SoundComesOut(req, g, sp, src, free);
      case Subtitle => SubtitleComesOut(req, g, sp, src, free);
      case OtherType =>
    }
  }

  /** Where each output stream of the list stands, and that no two share a position. */
  lemma {:induction false} OutputShape(streams: seq<StreamPlan>, i: nat)
    requires i < |OutputStreams(streams)|
    ensures var outs := OutputStreams(streams);
      var v, a := |KeptOf(streams, Video)|, |KeptOf(streams, Audio)|;
      && outs[i].plan in streams && outs[i].plan.Kept()
      && outs[i].plan.kind == (if i < v then Video else if i < v + a then Audio else Subtitle)
      && outs[i].pos == if i < v then i else if i < v + a then i - v else i - v - a
  {
    KeptOfMembers(streams, Video);
    KeptOfMembers(streams, Audio);
    KeptOfMembers(streams, Subtitle);
  }

  lemma {:induction false} OutputsApart(streams: seq<StreamPlan>, j: nat)
    requires j < |OutputStreams(streams)| && |KeptOf(streams, Video)| <= 1
    ensures var outs := OutputStreams(streams);
      Apart(outs[..j], outs[j].plan.kind, outs[j].pos) && Apart(outs[j+1..], outs[j].plan.kind, outs[j].pos)
  {
    var outs := OutputStreams(streams);
    OutputShape(streams, j);
    forall o | o in outs[..j] || o in outs[j+1..]
      ensures o.plan.kind != outs[j].plan.kind || (outs[j].plan.kind != Video && o.pos != outs[j].pos)
    {
      var i :| 0 <= i < |outs| && i != j && outs[i] == o;
      OutputShape(streams, i);
    }
  }

  lemma {:induction false} CountMappedSnoc(maps: seq<Mapping>, i: nat, kind: StreamType)
    requires i < |maps|
    ensures CountMapped(maps[..i+1], kind) == CountMapped(maps[..i], kind) + if maps[i].kind == kind then 1 else 0
  {
    assert maps[..i+1][..i] == maps[..i];
  }

  lemma {:induction false} MappedKind(streams: seq<StreamPlan>, i: nat)
    requires i < |OutputStreams(streams)|
    ensures var v, a := |KeptOf(streams, Video)|, |KeptOf(streams, Audio)|;
      MappingsOfStreams(OutputStreams(streams))[i].kind
      == if i < v then Video else if i < v + a then Audio else Subtitle
  {
    OutputShape(streams, i);
  }

  /** How many of the first i mapped streams are of one type: v video streams come first, then a audio streams. */
  function CountOf(kind: StreamType, v: nat, a: nat, i: nat): int {
    match kind
    case Video => if i < v then i else v
    case Audio => if i < v then 0 else if i < v + a then i - v else a
    case Subtitle => if i < v + a then 0 else i - v - a
    case OtherType => 0
  }

  lemma {:induction false} CountedBefore(streams: seq<StreamPlan>, i: nat, kind: StreamType)
    requires i <= |OutputStreams(streams)|
    ensures CountMapped(MappingsOfStreams(OutputStreams(streams))[..i], kind)
         == CountOf(kind, |KeptOf(streams, Video)|, |KeptOf(streams, Audio)|, i)
  {
    if i > 0 {
      CountedBefore(streams, i - 1, kind);
      MappedKind(streams, i - 1);
      CountMappedSnoc(MappingsOfStreams(OutputStreams(streams)), i - 1, kind);
    }
  }

  /** The global settings of a built invocation. */
  lemma {:induction false} BuiltGlobals(req: Request, cmd: Command)
    requires Build(req) == Success(cmd)
    ensures var g := GlobalsOf(cmd.args, NO_GLOBALS);
      && DeviceReady(req, g)
      && g.unofficial == (exists o :: o in OutputStreams(req.plan.streams) && WritesDolby(req, o))
      && g.mapsMetadata && g.keepsTags == (req.plan.container == MP4)
      && g.tags == OwnTags(req) && g.output == Some(req.output)
  {
    var decode, outs := DecodePathOf(req), OutputStreams(req.plan.streams);
    var i, s := InputArgs(req, decode), StreamsArgs(req, outs, decode);
    ThreeGlobals(i, s, OutputArgs(req), NO_GLOBALS);
    InputGlobals(req, decode);
    StreamsGlobals(req, outs, decode, GlobalsOf(i, NO_GLOBALS));
    OutputGlobals(req, GlobalsOf(s, GlobalsOf(i, NO_GLOBALS)));
  }

  lemma {:induction false} BuiltSettings(req: Request, cmd: Command, j: nat)
    requires Build(req) == Success(cmd)
    requires |KeptOf(req.plan.streams, Video)| <= 1
    requires j < |OutputStreams(req.plan.streams)|
    ensures var outs := OutputStreams(req.plan.streams);
      && Mappings(cmd.args) == MappingsOfStreams(outs)
      && !LacksCodec(outs[j].plan)
      && CountMapped(Mappings(cmd.args)[..j], outs[j].plan.kind) == outs[j].pos
      && Effective(cmd.args, outs[j].plan.kind, outs[j].pos, UNSET) == StreamSettings(req, outs[j].plan, cmd.decode)
  {
    var decode, outs := DecodePathOf(req), OutputStreams(req.plan.streams);
    var i, s, o := InputArgs(req, decode), StreamsArgs(req, outs, decode), OutputArgs(req);
    var kind, pos := outs[j].plan.kind, outs[j].pos;
    assert outs[j] in outs;
    BuiltCounts(req, cmd, j);
    ThreeBlocks(i, s, o, kind, pos, UNSET);
    InputInert(req, decode, kind, pos);
    InertSkips(i, kind, pos, UNSET);
    OutputsApart(req.plan.streams, j);
    OnlyOwnBlock(req, outs, decode, j);
    OutputInert(req, kind, pos);
    InertSkips(o, kind, pos, StreamSettings(req, outs[j].plan, decode));
  }

  lemma {:induction false} BuiltCounts(req: Request, cmd: Command, j: nat)
    requires Build(req) == Success(cmd) && j < |OutputStreams(req.plan.streams)|
    ensures var outs := OutputStreams(req.plan.streams);
      && Mappings(cmd.args) == MappingsOfStreams(outs)
      && CountMapped(Mappings(cmd.args)[..j], outs[j].plan.kind) == outs[j].pos
  {
    BuiltMappings(req, cmd);
    CountedBefore(req.plan.streams, j, OutputStreams(req.plan.streams)[j].plan.kind);
    OutputShape(req.plan.streams, j);
  }

  /**
   What the filters of an encode do to the frames: they are deinterlaced exactly as planned, and reach the encoder where
   it works; after a software decode in ten bits exactly for HDR, and otherwise in those of the source.
   */
  ghost predicate FiltersSuit(req: Request, g: Globals, decode: DecodePath, s: Settings) {
    && (Deinterlaces(s.filters) <==> req.plan.deinterlace)
    && forall tenBit: bool :: AtTheEncoder(g, s, tenBit) == Some(WantedFrames(req, decode, tenBit))
  }

  /**
   The mappings of a built invocation, and the settings each mapped stream ends up with; the filters of an encode by
   what they do.
   */
  lemma {:induction false} BuiltStreams(req: Request, cmd: Command, j: nat)
    requires Build(req) == Success(cmd)
    requires |KeptOf(req.plan.streams, Video)| <= 1
    requires j < |OutputStreams(req.plan.streams)|
    ensures var outs := OutputStreams(req.plan.streams);
      var s := Effective(cmd.args, outs[j].plan.kind, outs[j].pos, UNSET);
      && Mappings(cmd.args) == MappingsOfStreams(outs)
      && !LacksCodec(outs[j].plan)
      && CountMapped(Mappings(cmd.args)[..j], outs[j].plan.kind) == outs[j].pos
      && s.(filters := []) == StreamSettings(req, outs[j].plan, cmd.decode).(filters := [])
      && (if outs[j].plan.kind == Video && outs[j].plan.decision == Encode
          then FiltersSuit(req, GlobalsOf(cmd.args, NO_GLOBALS), cmd.decode, s) else s.filters == [])
  {
    var o := OutputStreams(req.plan.streams)[j];
    var s := StreamSettings(req, o.plan, cmd.decode);
    BuiltSettings(req, cmd, j);
    BuiltGlobals(req, cmd);
    OutputShape(req.plan.streams, j);
    if o.plan.kind == Video && o.plan.decision == Encode {
      FiltersOfEncode(req, GlobalsOf(cmd.args, NO_GLOBALS), o.plan);
    }
  }

  lemma {:induction false} FiltersOfEncode(req: Request, g: Globals, sp: StreamPlan)
    requires Validated(req) == None && |KeptOf(req.plan.streams, Video)| <= 1 && DeviceReady(req, g)
    requires sp in req.plan.streams && sp.kind == Video && sp.decision == Encode && !LacksCodec(sp)
    ensures FiltersSuit(req, g, DecodePathOf(req), StreamSettings(req, sp, DecodePathOf(req)))
  {
    var s := StreamSettings(req, sp, DecodePathOf(req));
    OnlyVideoIsEncoded(req, sp);
    DeinterlacingFilter(req);
    forall tenBit: bool
      ensures AtTheEncoder(g, s, tenBit) == Some(WantedFrames(req, DecodePathOf(req), tenBit))
    {
      FramesReachTheEncoder(req, g, tenBit);
    }
  }

  lemma {:induction false} BuiltMappings(req: Request, cmd: Command)
    requires Build(req) == Success(cmd)
    ensures Mappings(cmd.args) == MappingsOfStreams(OutputStreams(req.plan.streams))
  {
    var decode, outs := DecodePathOf(req), OutputStreams(req.plan.streams);
    var i, s, o := InputArgs(req, decode), StreamsArgs(req, outs, decode), OutputArgs(req);
    EndsMapNothing(req, decode);
    MapsBetween(i, s, o);
    StreamsMap(req, outs, decode);
  }

  lemma {:induction false} EndsMapNothing(req: Request, decode: DecodePath)
    ensures Mappings(InputArgs(req, decode)) == [] && Mappings(OutputArgs(req)) == []
  {
    InputMapsNothing(req, decode);
    OutputMapsNothing(req);
  }

  lemma {:induction false} InputMapsNothing(req: Request, decode: DecodePath)
    ensures Mappings(InputArgs(req, decode)) == []
  {
    NoMappings(InputArgs(req, decode));
  }

  lemma {:induction false} OutputMapsNothing(req: Request)
    ensures Mappings(OutputArgs(req)) == []
  {
    NoMappings(OutputArgs(req));
  }

  lemma {:induction false} MapsBetween(i: seq<Token>, s: seq<Token>, o: seq<Token>)
    requires Mappings(i) == [] && Mappings(o) == []
    ensures Mappings(i + s + o) == Mappings(s)
  {
    MappingsConcat(i + s, o);
    MappingsConcat(i, s);
  }

  /** One output stream per kept stream, each from its own source and as planned, and nothing else. */
  lemma {:induction false} StreamRealised(req: Request, cmd: Command, probe: Probe, free: Choices, j: nat)
    requires Build(req) == Success(cmd) && Sourced(req, probe)
    requires j < |OutputStreams(req.plan.streams)|
    ensures Mappings(cmd.args) == MappingsOfStreams(OutputStreams(req.plan.streams))
    ensures var sp := OutputStreams(req.plan.streams)[j].plan;
      && sp in req.plan.streams && sp.Kept() && !LacksCodec(sp)
      && RunMapping(cmd.args, probe, free, Mappings(cmd.args), j)
         == Some(Realised(req.plan, sp, SourceOf(probe, sp), free(sp.kind, OutputStreams(req.plan.streams)[j].pos)))
  {
    var outs := OutputStreams(req.plan.streams);
    var sp := outs[j].plan;
    var g := GlobalsOf(cmd.args, NO_GLOBALS);
    BuiltSettings(req, cmd, j);
    BuiltGlobals(req, cmd);
    OutputShape(req.plan.streams, j);
    if sp.kind == Video {
      assert outs[j] in outs;
      if g.unofficial {
        var o :| o in outs && WritesDolby(req, o);
        var i :| 0 <= i < |outs| && outs[i] == o;
        OutputShape(req.plan.streams, i);
        assert i == j;
      } else {
        assert !WritesDolby(req, outs[j]);
      }
      assert g.unofficial == WritesDolby(req, OutStream(sp, 0));
    }
    StreamComesOut(req, probe, g, sp, free(sp.kind, outs[j].pos));
  }

  ghost function RealisedStreams(p: Plan, kept: seq<StreamPlan>, probe: Probe, free: Choices): seq<Stream>
    requires forall sp :: sp in kept ==> !LacksCodec(sp) && sp.source < |StreamsOfType(probe.streams, sp.kind)|
  {
    seq(|kept|, i requires 0 <= i < |kept| => Realised(p, kept[i], SourceOf(probe, kept[i]), free(kept[i].kind, i)))
  }

  /** Each kept stream's output, by its place in the list. */
  lemma {:induction false} RealisedKeptAt(
    p: Plan, kept: seq<StreamPlan>, probe: Probe, free: Choices, kind: StreamType, i: nat)
    requires i < |kept|
    requires forall sp :: sp in kept ==>
        sp.kind == kind && !LacksCodec(sp) && sp.source < |StreamsOfType(probe.streams, sp.kind)|
    ensures kept[i] in kept
    ensures var out := RealisedStreams(p, kept, probe, free);
      |out| == |kept| && out[i] == Realised(p, kept[i], SourceOf(probe, kept[i]), free(kind, i))
    ensures var out := RealisedStreams(p, kept, probe, free);
      && out[i].kind == kind && !out[i].attachedPic
      && (kept[i].language != "" ==> out[i].language == kept[i].language)
  {
    assert kept[i].kind == kind;
  }

  /** Every kept stream has a codec and a source. */
  ghost predicate Sound(p: Plan, probe: Probe) {
    forall k, sp :: k != OtherType && sp in KeptOf(p.streams, k) ==>
      !LacksCodec(sp) && sp.source < |StreamsOfType(probe.streams, sp.kind)|
  }

  /** The plan's output: its kept video, then its audio, then its subtitles. */
  ghost function RealisedAll(p: Plan, probe: Probe, free: Choices): seq<Stream>
    requires Sound(p, probe)
  {
    RealisedStreams(p, KeptOf(p.streams, Video), probe, free)
    + RealisedStreams(p, KeptOf(p.streams, Audio), probe, free)
    + RealisedStreams(p, KeptOf(p.streams, Subtitle), probe, free)
  }

  lemma {:induction false} RealisedAt(p: Plan, probe: Probe, free: Choices, j: nat)
    requires Sound(p, probe) && j < |OutputStreams(p.streams)|
    ensures |RealisedAll(p, probe, free)| == |OutputStreams(p.streams)|
    ensures var sp := OutputStreams(p.streams)[j].plan;
      && !LacksCodec(sp) && sp.source < |StreamsOfType(probe.streams, sp.kind)|
      && RealisedAll(p, probe, free)[j]
         == Realised(p, sp, SourceOf(probe, sp), free(sp.kind, OutputStreams(p.streams)[j].pos))
  {
  }

  lemma {:induction false} EveryMappingRuns(req: Request, cmd: Command, probe: Probe, free: Choices)
    requires Build(req) == Success(cmd) && Sourced(req, probe)
    ensures Runs(cmd.args, probe, free) && |Mappings(cmd.args)| == |OutputStreams(req.plan.streams)|
  {
    BuiltGlobals(req, cmd);
    BuiltMappings(req, cmd);
    var maps := Mappings(cmd.args);
    forall j | 0 <= j < |maps|
      ensures RunMapping(cmd.args, probe, free, maps, j).Some?
    {
      StreamRealised(req, cmd, probe, free, j);
    }
  }

  /** The compiler's theorem: ffmpeg accepts the option list, and its output is the plan, realised. */
  lemma {:induction false} BuildRealisesThePlan(req: Request, cmd: Command, probe: Probe, free: Choices)
    requires Build(req) == Success(cmd) && Sourced(req, probe)
    ensures forall sp :: sp in req.plan.streams && sp.Kept() && sp.kind != OtherType ==>
      !LacksCodec(sp) && sp.source < |StreamsOfType(probe.streams, sp.kind)|
    ensures Sound(req.plan, probe) && Runs(cmd.args, probe, free)
    ensures OutputOf(cmd.args, probe, free) == Probe(
      FormatNamesOf(req.plan.container),
      probe.tags + OwnTags(req),
      RealisedAll(req.plan, probe, free))
  {
    KeptHaveCodecs(req, probe);
    BuiltGlobals(req, cmd);
    EveryMappingRuns(req, cmd, probe, free);
    var got, want := OutputOf(cmd.args, probe, free).streams, RealisedAll(req.plan, probe, free);
    forall j | 0 <= j < |got|
      ensures |want| == |got| && got[j] == want[j]
    {
      StreamRealised(req, cmd, probe, free, j);
      RealisedAt(req.plan, probe, free, j);
    }
    assert got == want;
  }

  lemma {:induction false} KeptHaveCodecs(req: Request, probe: Probe)
    requires Validated(req) == None && Sourced(req, probe)
    ensures forall k, sp :: k != OtherType && sp in KeptOf(req.plan.streams, k) ==>
      !LacksCodec(sp) && sp.source < |StreamsOfType(probe.streams, sp.kind)|
    ensures forall sp :: sp in req.plan.streams && sp.Kept() && sp.kind != OtherType ==>
      !LacksCodec(sp) && sp.source < |StreamsOfType(probe.streams, sp.kind)|
  {
    var streams := req.plan.streams;
    forall k, sp | k != OtherType && sp in KeptOf(streams, k)
      ensures !LacksCodec(sp) && sp.source < |StreamsOfType(probe.streams, sp.kind)|
    {
      KeptOfMembers(streams, k);
      var kept := KeptOf(streams, k);
      var i :| 0 <= i < |kept| && kept[i] == sp;
      var n := Numbered(kept, 0);
      assert n[i] in n && n[i].plan == sp;
      assert n[i] in OutputStreams(streams);
    }
    forall sp | sp in streams && sp.Kept() && sp.kind != OtherType
      ensures !LacksCodec(sp)
    {
      KeptOfMembers(streams, sp.kind);
      assert sp in KeptOf(streams, sp.kind);
    }
  }

  /** The output streams an option addresses; -vf, -profile:v and the like mean every video stream. */
  function AddressOf(t: Token): Option<Address> {
    match t
    case SetCodec(a, _) => Some(a)
    case SetBitrate(a, _) => Some(a)
    case SetChannels(a, _) => Some(a)
    case SetLanguage(a, _) => Some(a)
    case SetTitle(a, _) => Some(a)
    case SetDisposition(a, _) => Some(a)
    case VideoFilters(_) => Some(Every(Video))
    case VideoProfile(_) => Some(Every(Video))
    case PixFmt(_) => Some(Every(Video))
    case ColorTransfer(_) => Some(Every(Video))
    case TagVideo(_) => Some(Every(Video))
    case RewriteLevel42 => Some(Every(Video))
    case RateControl(_, _, _) => Some(Every(Video))
    case _ => None
  }

  /** Every option that addresses anything addresses this output stream. */
  ghost predicate Aims(args: seq<Token>, kind: StreamType, pos: nat) {
    forall t :: t in args && AddressOf(t).Some? ==> Addresses(AddressOf(t).value, kind, pos)
  }

  lemma {:induction false} AimsConcat(a: seq<Token>, b: seq<Token>, kind: StreamType, pos: nat)
    requires Aims(a, kind, pos) && Aims(b, kind, pos)
    ensures Aims(a + b, kind, pos)
  {
  }

  lemma {:induction false} VideoAims(req: Request, decode: DecodePath, pos: nat)
    ensures Aims(EncodedVideoArgs(req, decode), Video, pos) && Aims(CopiedVideoArgs(req), Video, pos)
  {
    var target := req.plan.targetBitrate;
    var h := if req.plan.hdr then [ColorTransfer(HdrTransfer(req.plan))] else [];
    var t := if req.plan.container == MP4 then Mp4HevcTags(req.plan) else [];
    EncoderAims(req, decode, pos);
    AimsConcat(h, t, Video, pos);
    AimsConcat(EncoderArgs(req, decode), ColourArgs(req.plan), Video, pos);
    var rate := [RateControl(target, target * 8 / 5, target * 2)];
    AimsConcat(EncoderArgs(req, decode) + ColourArgs(req.plan), rate, Video, pos);
    var c := [SetCodec(Every(Video), CopyStream)];
    var ct := if req.plan.container == MP4 && req.sourceCodec == Hevc then Mp4HevcTags(req.plan) else [];
    AimsConcat(c, ct, Video, pos);
    AimsConcat(c + ct, if req.plan.levelRewrite then [RewriteLevel42] else [], Video, pos);
  }

  lemma {:induction false} EncoderAims(req: Request, decode: DecodePath, pos: nat)
    ensures Aims(EncoderArgs(req, decode), Video, pos)
  {
  }

  lemma {:induction false} CodecAims(req: Request, o: OutStream, decode: DecodePath)
    requires !LacksCodec(o.plan)
    ensures Aims(CodecArgs(req, o, decode), o.plan.kind, o.pos)
  {
    if o.plan.kind == Video {
      VideoAims(req, decode, o.pos);
    }
  }

  lemma {:induction false} MetadataAims(o: OutStream)
    ensures Aims(MetadataArgs(o), o.plan.kind, o.pos)
  {
  }

  lemma {:induction false} BlockAims(req: Request, o: OutStream, decode: DecodePath)
    requires !LacksCodec(o.plan)
    ensures Aims(StreamArgs(req, o, decode), o.plan.kind, o.pos)
  {
    var m := [MapStream(o.plan.kind, o.plan.source)];
    CodecAims(req, o, decode);
    MetadataAims(o);
    AimsConcat(m, CodecArgs(req, o, decode), o.plan.kind, o.pos);
    AimsConcat(m + CodecArgs(req, o, decode), MetadataArgs(o), o.plan.kind, o.pos);
  }

  ghost predicate AimsNowhere(args: seq<Token>) {
    forall t :: t in args ==> AddressOf(t) == None
  }

  lemma {:induction false} InputAimsNowhere(req: Request, decode: DecodePath)
    ensures AimsNowhere(InputArgs(req, decode))
  {
    var start := [HideBanner, NoStdin, Overwrite];
    assert AimsNowhere(start) && AimsNowhere(HwDeviceArgs(req)) && AimsNowhere(HwAccelArgs(req, decode));
    assert AimsNowhere(start + HwDeviceArgs(req) + HwAccelArgs(req, decode));
    assert AimsNowhere(SourceArgs(req));
  }

  lemma {:induction false} OutputAimsNowhere(req: Request)
    ensures AimsNowhere(OutputArgs(req))
  {
    assert AimsNowhere(MuxArgs(req.plan)) && AimsNowhere(TagArgs(req));
  }

  lemma {:induction false} BlocksAim(req: Request, outs: seq<OutStream>, decode: DecodePath, t: Token)
    requires Buildable(outs) && t in StreamsArgs(req, outs, decode) && AddressOf(t).Some?
    ensures exists o :: o in outs && Addresses(AddressOf(t).value, o.plan.kind, o.pos)
  {
    if t in StreamArgs(req, outs[0], decode) {
      BlockAims(req, outs[0], decode);
      assert outs[0] in outs;
    } else {
      BlocksAim(req, outs[1..], decode, t);
    }
  }

  /** No option addresses an output stream that does not exist. */
  lemma {:induction false} NoDanglingOption(req: Request, cmd: Command, t: Token)
    requires Build(req) == Success(cmd) && t in cmd.args && AddressOf(t).Some?
    ensures exists o :: o in OutputStreams(req.plan.streams) && Addresses(AddressOf(t).value, o.plan.kind, o.pos)
  {
    InputAimsNowhere(req, cmd.decode);
    OutputAimsNowhere(req);
    BlocksAim(req, OutputStreams(req.plan.streams), cmd.decode, t);
  }
}
