/**
 Planning converges. A file made by following its plan is planned again as "nothing to do", so no file is
 processed twice under one policy. The one way out is an idet answer that contradicts an explicit
 interlaced field order, and a Dolby Vision profile 5 record the MP4 muxer cannot carry; the condition
 below is exact.
 */
module Converge {
  import opened Wrappers
  import opened Media
  import opened Policy
  import opened Decide
  import opened Argv
  import opened Ffmpeg
  import opened Realise

  function Videos(p: Probe): seq<Stream> { StreamsOfType(p.streams, Video) }
  function Audios(p: Probe): seq<Stream> { StreamsOfType(p.streams, Audio) }
  function Subtitles(p: Probe): seq<Stream> { StreamsOfType(p.streams, Subtitle) }

  function VerdictOf(video: Stream, idet: Option<Scan>): VideoVerdict {
    var (scan, pending) := ResolveScan(video, idet);
    PlanVideo(video, scan, pending)
  }

  // ---------- what the plan of a probe looks like ----------

  /** A stream plan is the engine's answer for the source stream it names, up to its output index. */
  ghost predicate PlannedFor(probe: Probe, o: Options, primary: nat, p: StreamPlan)
    requires primary < |Videos(probe)|
  {
    var c := ContainerFor(o.ext);
    match p.kind
    case Video => p.source < |Videos(probe)|
      && p.(output := None)
         == VideoPlan(p.source, Videos(probe)[p.source], primary, VerdictOf(Videos(probe)[primary], o.idet))
    case Audio => p.source < |Audios(probe)| && p.(output := None) == AudioPlan(p.source, Audios(probe)[p.source], c)
    case Subtitle => p.source < |Subtitles(probe)|
      && p.(output := None) == SubtitlePlan(p.source, Subtitles(probe)[p.source], c)
    case OtherType => false
  }

  lemma {:induction false} ConcatAt(x: seq<StreamPlan>, y: seq<StreamPlan>, z: seq<StreamPlan>, i: nat)
    requires i < |x| + |y| + |z|
    ensures (x + y + z)[i] == if i < |x| then x[i] else if i < |x| + |y| then y[i - |x|] else z[i - |x| - |y|]
  {
  }

  lemma {:induction false} VideoFits(probe: Probe, o: Options, primary: nat, i: nat)
    requires primary < |Videos(probe)| && i < |Videos(probe)|
    ensures var p := VideoPlans(Videos(probe), primary, VerdictOf(Videos(probe)[primary], o.idet))[i];
      p.kind == Video && p.source == i && PlannedFor(probe, o, primary, p)
  {
  }

  lemma {:induction false} AudioFits(probe: Probe, o: Options, primary: nat, i: nat)
    requires primary < |Videos(probe)| && i < |Audios(probe)|
    ensures var p := AudioPlans(Audios(probe), ContainerFor(o.ext))[i];
      p.kind == Audio && p.source == i && PlannedFor(probe, o, primary, p)
  {
  }

  lemma {:induction false} SubtitleFits(probe: Probe, o: Options, primary: nat, i: nat)
    requires primary < |Videos(probe)| && i < |Subtitles(probe)|
    ensures var p := SubtitlePlans(Subtitles(probe), ContainerFor(o.ext))[i];
      p.kind == Subtitle && p.source == i && PlannedFor(probe, o, primary, p)
  {
  }

  lemma {:induction false} FitsUnderAnyIndex(probe: Probe, o: Options, primary: nat, p: StreamPlan, output: Option<nat>)
    requires primary < |Videos(probe)| && PlannedFor(probe, o, primary, p)
    ensures PlannedFor(probe, o, primary, p.(output := output))
  {
    assert p.(output := output).(output := None) == p.(output := None);
  }

  lemma {:induction false} PlansFit(probe: Probe, o: Options, primary: nat, i: nat)
    requires primary < |Videos(probe)| && i < |Videos(probe)| + |Audios(probe)| + |Subtitles(probe)|
    ensures var v, a := |Videos(probe)|, |Audios(probe)|;
      var all := StreamPlans(Videos(probe), Audios(probe), Subtitles(probe), primary,
                             VerdictOf(Videos(probe)[primary], o.idet), ContainerFor(o.ext));
      && |all| == v + a + |Subtitles(probe)|
      && PlannedFor(probe, o, primary, AssignedAt(all, i))
      && AssignedAt(all, i).kind == (if i < v then Video else if i < v + a then Audio else Subtitle)
      && AssignedAt(all, i).source == (if i < v then i else if i < v + a then i - v else i - v - a)
  {
    var v, a, c := |Videos(probe)|, |Audios(probe)|, ContainerFor(o.ext);
    var x := VideoPlans(Videos(probe), primary, VerdictOf(Videos(probe)[primary], o.idet));
    var y, z := AudioPlans(Audios(probe), c), SubtitlePlans(Subtitles(probe), c);
    ConcatAt(x, y, z, i);
    if i < v {
      VideoFits(probe, o, primary, i);
    } else if i < v + a {
      AudioFits(probe, o, primary, i - v);
    } else {
      SubtitleFits(probe, o, primary, i - v - a);
    }
    FitsUnderAnyIndex(probe, o, primary, (x + y + z)[i], AssignedAt(x + y + z, i).output);
  }

  /** The drafted stream at each position: all video streams, then all audio, then all subtitles. */
  lemma {:induction false} DraftAt(probe: Probe, o: Options, primary: nat, i: nat)
    requires primary < |Videos(probe)| && i < |Draft(probe, o, primary).streams|
    ensures var v, a := |Videos(probe)|, |Audios(probe)|;
      var p := Draft(probe, o, primary).streams[i];
      && |Draft(probe, o, primary).streams| == v + a + |Subtitles(probe)|
      && PlannedFor(probe, o, primary, p)
      && p.kind == (if i < v then Video else if i < v + a then Audio else Subtitle)
      && p.source == (if i < v then i else if i < v + a then i - v else i - v - a)
  {
    DraftLength(probe, o, primary);
    PlansFit(probe, o, primary, i);
  }

  /** Each source sound track has its plan, and each source subtitle. */
  lemma {:induction false} SoundPlanned(probe: Probe, o: Options, primary: nat, i: nat)
    requires primary < |Videos(probe)| && i < |Audios(probe)|
    ensures exists p :: p in Draft(probe, o, primary).streams && p.kind == Audio
                        && p.(output := None) == AudioPlan(i, Audios(probe)[i], ContainerFor(o.ext))
  {
    DraftLength(probe, o, primary);
    var j := |Videos(probe)| + i;
    DraftAt(probe, o, primary, j);
    assert Draft(probe, o, primary).streams[j] in Draft(probe, o, primary).streams;
  }

  lemma {:induction false} SubtitlePlanned(probe: Probe, o: Options, primary: nat, i: nat)
    requires primary < |Videos(probe)| && i < |Subtitles(probe)|
    ensures exists p :: p in Draft(probe, o, primary).streams && p.kind == Subtitle
                        && p.(output := None) == SubtitlePlan(i, Subtitles(probe)[i], ContainerFor(o.ext))
  {
    DraftLength(probe, o, primary);
    var j := |Videos(probe)| + |Audios(probe)| + i;
    DraftAt(probe, o, primary, j);
    assert Draft(probe, o, primary).streams[j] in Draft(probe, o, primary).streams;
  }

  lemma {:induction false} DraftLength(probe: Probe, o: Options, primary: nat)
    requires primary < |Videos(probe)|
    ensures |Draft(probe, o, primary).streams| == |Videos(probe)| + |Audios(probe)| + |Subtitles(probe)|
  {
  }

  lemma {:induction false} OnlyOneKept(streams: seq<StreamPlan>, i: nat, kind: StreamType)
    requires i < |streams|
    requires forall j :: 0 <= j < |streams| ==> ((streams[j].kind == kind && streams[j].Kept()) <==> j == i)
    ensures KeptOf(streams, kind) == [streams[i]]
  {
    if i == 0 {
      NoneKept(streams[1..], kind);
    } else {
      assert streams[0].kind != kind || !streams[0].Kept();
      OnlyOneKept(streams[1..], i - 1, kind);
    }
  }

  lemma {:induction false} NoneKept(streams: seq<StreamPlan>, kind: StreamType)
    requires forall p :: p in streams ==> p.kind != kind || !p.Kept()
    ensures KeptOf(streams, kind) == []
  {
    if streams != [] {
      NoneKept(streams[1..], kind);
    }
  }

  /** A plan keeps exactly one video stream, the primary one. */
  lemma {:induction false} DraftKeepsThePrimary(probe: Probe, o: Options, primary: nat)
    requires primary < |Videos(probe)|
    ensures primary < |Draft(probe, o, primary).streams|
    ensures KeptOf(Draft(probe, o, primary).streams, Video) == [Draft(probe, o, primary).streams[primary]]
    ensures Draft(probe, o, primary).streams[primary].decision == VerdictOf(Videos(probe)[primary], o.idet).decision
    ensures Draft(probe, o, primary).streams[primary].source == primary
  {
    var streams := Draft(probe, o, primary).streams;
    DraftLength(probe, o, primary);
    forall j | 0 <= j < |streams|
      ensures (streams[j].kind == Video && streams[j].Kept()) <==> j == primary
    {
      DraftAt(probe, o, primary, j);
    }
    DraftAt(probe, o, primary, primary);
    OnlyOneKept(streams, primary, Video);
  }

  lemma {:induction false} SoundWork(probe: Probe, o: Options, primary: nat)
    requires primary < |Videos(probe)|
    ensures HasWork(Draft(probe, o, primary).streams, Audio) <==>
        exists s :: s in Audios(probe) && !OnAudioCopyList(s.codec, s.channels)
  {
    if p :| p in Draft(probe, o, primary).streams && p.kind == Audio && p.decision != Copy {
      SoundWorkSource(probe, o, primary, p);
    }
    if s :| s in Audios(probe) && !OnAudioCopyList(s.codec, s.channels) {
      SoundNeedsWork(probe, o, primary, s);
    }
  }

  lemma {:induction false} SoundWorkSource(probe: Probe, o: Options, primary: nat, p: StreamPlan)
    requires primary < |Videos(probe)|
    requires p in Draft(probe, o, primary).streams && p.kind == Audio && p.decision != Copy
    ensures exists s :: s in Audios(probe) && !OnAudioCopyList(s.codec, s.channels)
  {
    var streams := Draft(probe, o, primary).streams;
    var i :| 0 <= i < |streams| && streams[i] == p;
    DraftAt(probe, o, primary, i);
    assert Audios(probe)[p.source] in Audios(probe);
  }

  lemma {:induction false} SoundNeedsWork(probe: Probe, o: Options, primary: nat, s: Stream)
    requires primary < |Videos(probe)| && s in Audios(probe) && !OnAudioCopyList(s.codec, s.channels)
    ensures HasWork(Draft(probe, o, primary).streams, Audio)
  {
    var i :| 0 <= i < |Audios(probe)| && Audios(probe)[i] == s;
    SoundPlanned(probe, o, primary, i);
  }

  lemma {:induction false} SubtitleWork(probe: Probe, o: Options, primary: nat)
    requires primary < |Videos(probe)|
    ensures HasWork(Draft(probe, o, primary).streams, Subtitle)
      <==> exists s :: s in Subtitles(probe) && s.codec != SubtitleTarget(ContainerFor(o.ext))
  {
    var streams := Draft(probe, o, primary).streams;
    if p :| p in streams && p.kind == Subtitle && p.decision != Copy {
      SubtitleWorkSource(probe, o, primary, p);
    }
    if s :| s in Subtitles(probe) && s.codec != SubtitleTarget(ContainerFor(o.ext)) {
      SubtitleNeedsWork(probe, o, primary, s);
    }
  }

  lemma {:induction false} SubtitleNeedsWork(probe: Probe, o: Options, primary: nat, s: Stream)
    requires primary < |Videos(probe)| && s in Subtitles(probe) && s.codec != SubtitleTarget(ContainerFor(o.ext))
    ensures HasWork(Draft(probe, o, primary).streams, Subtitle)
  {
    var i :| 0 <= i < |Subtitles(probe)| && Subtitles(probe)[i] == s;
    SubtitlePlanned(probe, o, primary, i);
  }

  lemma {:induction false} SubtitleWorkSource(probe: Probe, o: Options, primary: nat, p: StreamPlan)
    requires primary < |Videos(probe)|
    requires p in Draft(probe, o, primary).streams && p.kind == Subtitle && p.decision != Copy
    ensures exists s :: s in Subtitles(probe) && s.codec != SubtitleTarget(ContainerFor(o.ext))
  {
    var streams := Draft(probe, o, primary).streams;
    var i :| 0 <= i < |streams| && streams[i] == p;
    DraftAt(probe, o, primary, i);
    assert Subtitles(probe)[p.source] in Subtitles(probe);
  }

  // ---------- the request the job makes of a plan ----------

  /** The request built for a plan: the plan with its measured bitrate, the probed codec, the output extension. */
  predicate RequestFor(req: Request, p: Plan, o: Options, video: Stream) {
    && req.plan == p.(targetBitrate := req.plan.targetBitrate)
    && req.sourceCodec == video.codec
    && req.output == OutputExtension(p.container, o.ext)
  }

  lemma {:induction false} OutputExtensionMuxes(ext: Extension)
    ensures MuxerOf(OutputExtension(ContainerFor(ext), ext)) == ContainerFor(ext)
  {
  }

  lemma {:induction false} LevelRewriteIsH264(video: Stream, idet: Option<Scan>)
    requires VerdictOf(video, idet).levelRewrite
    ensures video.codec == H264 && VerdictOf(video, idet).decision == Copy
  {
    assert BadLevel in CopyFailures(video, ResolveScan(video, idet).0);
  }

  /** Every plan the engine makes suits the probe it was made from. */
  lemma {:induction false} PlanIsSourced(probe: Probe, o: Options, primary: nat, req: Request)
    requires PrimaryVideo(Videos(probe)) == Some(primary)
    requires req.plan.streams == Draft(probe, o, primary).streams
    requires req.plan.container == ContainerFor(o.ext) && req.plan.levelRewrite == Draft(probe, o, primary).levelRewrite
    requires req.sourceCodec == Videos(probe)[primary].codec
    requires req.output == OutputExtension(req.plan.container, o.ext)
    ensures Sourced(req, probe)
  {
    OutputExtensionMuxes(o.ext);
    DraftKeepsThePrimary(probe, o, primary);
    var streams := req.plan.streams;
    forall p | p in streams && p.Kept()
      ensures p.source < |StreamsOfType(probe.streams, p.kind)|
      ensures Suits(req.plan, req.sourceCodec, p, StreamsOfType(probe.streams, p.kind)[p.source])
    {
      var i :| 0 <= i < |streams| && streams[i] == p;
      DraftAt(probe, o, primary, i);
      PlannedSuits(probe, o, primary, req, p);
    }
  }

  lemma {:induction false} PlannedSuits(probe: Probe, o: Options, primary: nat, req: Request, p: StreamPlan)
    requires primary < |Videos(probe)| && PlannedFor(probe, o, primary, p) && p.Kept()
    requires req.plan.container == ContainerFor(o.ext)
    requires req.plan.levelRewrite == VerdictOf(Videos(probe)[primary], o.idet).levelRewrite
    requires req.sourceCodec == Videos(probe)[primary].codec
    ensures p.source < |StreamsOfType(probe.streams, p.kind)|
    ensures Suits(req.plan, req.sourceCodec, p, StreamsOfType(probe.streams, p.kind)[p.source])
  {
    if req.plan.levelRewrite {
      LevelRewriteIsH264(Videos(probe)[primary], o.idet);
    }
  }

  /** A planned stream that is not copied has an encoder. */
  lemma {:induction false} PlannedHasCodec(probe: Probe, o: Options, primary: nat, p: StreamPlan)
    requires primary < |Videos(probe)| && PlannedFor(probe, o, primary, p) && p.Kept()
    ensures !LacksCodec(p)
  {
  }

  /** Whatever the engine plans, if there is anything to do, the generator builds, given the encoder's own needs. */
  lemma {:induction false} EveryPlanBuilds(probe: Probe, o: Options, a: Analysis, primary: nat, req: Request)
    requires PlanOf(probe, o) == Success(a) && PrimaryVideo(Videos(probe)) == Some(primary)
    requires RequestFor(req, a.plan, o, Videos(probe)[primary]) && EncoderReady(req)
    ensures Build(req).Success? <==> !a.plan.kind.Skip()
  {
    var streams := req.plan.streams;
    assert streams == Draft(probe, o, primary).streams;
    DraftKeepsThePrimary(probe, o, primary);
    forall out | out in OutputStreams(streams) ensures !LacksCodec(out.plan) {
      DraftedHasCodec(probe, o, primary, out);
    }
    if !a.plan.kind.Skip() {
      SoundIsKept(probe, o, primary);
    }
  }

  lemma {:induction false} DraftedHasCodec(probe: Probe, o: Options, primary: nat, out: OutStream)
    requires primary < |Videos(probe)| && out in OutputStreams(Draft(probe, o, primary).streams)
    ensures !LacksCodec(out.plan)
  {
    var streams := Draft(probe, o, primary).streams;
    var j :| 0 <= j < |OutputStreams(streams)| && OutputStreams(streams)[j] == out;
    OutputShape(streams, j);
    var i :| 0 <= i < |streams| && streams[i] == out.plan;
    DraftAt(probe, o, primary, i);
    PlannedHasCodec(probe, o, primary, out.plan);
  }

  lemma {:induction false} SoundIsKept(probe: Probe, o: Options, primary: nat)
    requires primary < |Videos(probe)| && HasOutputAudio(Draft(probe, o, primary).streams)
    ensures KeptOf(Draft(probe, o, primary).streams, Audio) != []
  {
    var streams := Draft(probe, o, primary).streams;
    var p :| p in streams && p.kind == Audio && p.output.Some?;
    var i :| 0 <= i < |streams| && streams[i] == p;
    DraftAt(probe, o, primary, i);
    KeptOfMembers(streams, Audio);
    assert p in KeptOf(streams, Audio);
  }

  // ---------- each output stream settles ----------

  /** When a planned file is planned again as a skip: what a caller can check beforehand. */
  predicate Settles(video: Stream, idet: Option<Scan>, c: Container) {
    if video.dolby == Some(NO_ENCODE_DOLBY_PROFILE) then
      c == MP4 && video.codec != Hevc ==>
        CopyFailures(video, if video.HasInterlacedFields() then Interlaced else Progressive) == []
    else
      !(video.HasInterlacedFields() && idet == Some(Progressive))
  }

  /** The copy test, failure by failure. */
  lemma {:induction false} FailuresOf(s: Stream, scan: Scan)
    ensures var f := CopyFailures(s, scan);
      && (BadCodec in f <==> !OnVideoCopyList(s.codec))
      && (BadProfile in f <==>
            OnVideoCopyList(s.codec) && (s.profile == NO_PROFILE || !OnProfileCopyList(s.codec, s.profile)))
      && (BadLevel in f <==> LevelFails(s))
      && (BadChroma in f <==> OnVideoCopyList(s.codec) && s.chroma != Chroma420)
      && (BadScan in f <==> scan == Interlaced)
  {
  }

  lemma {:induction false} NoFailures(f: seq<Failure>)
    requires BadCodec !in f && BadProfile !in f && BadLevel !in f && BadChroma !in f && BadScan !in f
    ensures f == []
  {
    if f != [] {
      assert f[0] in f;
      match f[0] {
        case BadCodec =>
        case BadProfile =>
        case BadLevel =>
        case BadChroma =>
        case BadScan =>
      }
    }
  }

  /** A rewritten stream fails nothing but, possibly, the scan test. */
  lemma {:induction false} RewriteSettles(video: Stream, idet: Option<Scan>, out: Stream)
    requires VerdictOf(video, idet).levelRewrite
    requires out.codec == video.codec && out.profile == video.profile && out.chroma == video.chroma && out.level == 42
    ensures CopyFailures(out, Progressive) == [] && CopyFailures(out, Interlaced) == [BadScan]
  {
    var scan := ResolveScan(video, idet).0;
    FailuresOf(video, scan);
    assert BadProfile !in CopyFailures(video, scan) && BadChroma !in CopyFailures(video, scan);
    assert BadCodec !in CopyFailures(video, scan);
    LevelRewriteIsH264(video, idet);
    FailuresOf(out, Progressive);
    NoFailures(CopyFailures(out, Progressive));
  }

  lemma {:induction false} VideoSettles(video: Stream, idet: Option<Scan>, p: Plan, free: Freedom)
    requires p.deinterlace == VerdictOf(video, idet).deinterlace
    requires p.levelRewrite == VerdictOf(video, idet).levelRewrite
    requires p.dolby == video.dolby
    ensures var out := RealisedVideo(p, VerdictOf(video, idet).decision, video, free);
      var again := VerdictOf(out, None);
      (again.decision != Encode && !again.levelRewrite) <==> Settles(video, idet, p.container)
  {
    var v := VerdictOf(video, idet);
    var out := RealisedVideo(p, v.decision, video, free);
    if v.decision == Encode {
      assert CopyFailures(out, Progressive) == [];
      assert CopyFailures(out, Interlaced) == [BadScan];
    } else if v.levelRewrite {
      RewriteSettles(video, idet, out);
    } else {
      var scan := ResolveScan(video, idet).0;
      var rescan := ResolveScan(video, None).0;
      assert CopyFailures(out, rescan) == CopyFailures(video, rescan);
      if scan == Progressive && rescan == Interlaced {
        FailuresOf(video, Interlaced);
        assert CopyFailures(video, Interlaced) != [];
        assert CopyFailures(video, Interlaced) != [BadLevel];
      }
    }
  }

  lemma {:induction false} SoundSettles(i: nat, s: Stream, c: Container, p: Plan, sp: StreamPlan, free: Freedom)
    requires sp.(output := None) == AudioPlan(i, s, c)
    ensures !LacksCodec(sp)
    ensures var out := Realised(p, sp, s, free); OnAudioCopyList(out.codec, out.channels)
  {
  }

  lemma {:induction false} SubtitleSettles(i: nat, s: Stream, c: Container, p: Plan, sp: StreamPlan, free: Freedom)
    requires sp.(output := None) == SubtitlePlan(i, s, c) && sp.Kept()
    ensures !LacksCodec(sp)
    ensures Realised(p, sp, s, free).codec == SubtitleTarget(c)
  {
  }

  // ---------- the theorem ----------

  lemma {:induction false} OneTypeOf(v: seq<Stream>, a: seq<Stream>, s: seq<Stream>, kind: StreamType)
    requires forall x :: x in v ==> x.kind == Video
    requires forall x :: x in a ==> x.kind == Audio
    requires forall x :: x in s ==> x.kind == Subtitle
    ensures StreamsOfType(v + a + s, kind)
         == (if kind == Video then v else []) + (if kind == Audio then a else []) + if kind == Subtitle then s else []
  {
    StreamsOfTypeConcat(v + a, s, kind);
    StreamsOfTypeConcat(v, a, kind);
    StreamsAllOfType(v, Video, kind);
    StreamsAllOfType(a, Audio, kind);
    StreamsAllOfType(s, Subtitle, kind);
  }

  /** Splitting the output by type gives back the realised streams of each type. */
  lemma {:induction false} OutputByType(v: seq<Stream>, a: seq<Stream>, s: seq<Stream>)
    requires forall x :: x in v ==> x.kind == Video
    requires forall x :: x in a ==> x.kind == Audio
    requires forall x :: x in s ==> x.kind == Subtitle
    ensures StreamsOfType(v + a + s, Video) == v
    ensures StreamsOfType(v + a + s, Audio) == a
    ensures StreamsOfType(v + a + s, Subtitle) == s
  {
    OneTypeOf(v, a, s, Video);
    OneTypeOf(v, a, s, Audio);
    OneTypeOf(v, a, s, Subtitle);
  }

  lemma {:induction false} RealisedOfKind(p: Plan, probe: Probe, free: Choices, kind: StreamType)
    requires Sound(p, probe) && kind != OtherType
    ensures forall x :: x in RealisedStreams(p, KeptOf(p.streams, kind), probe, free) ==> x.kind == kind
  {
    KeptOfMembers(p.streams, kind);
    var kept := KeptOf(p.streams, kind);
    var out := RealisedStreams(p, kept, probe, free);
    forall i | 0 <= i < |kept| ensures out[i].kind == kind {
      RealisedKeptAt(p, kept, probe, free, kind, i);
    }
  }

  lemma {:induction false} RealisedByType(p: Plan, probe: Probe, free: Choices)
    requires Sound(p, probe)
    ensures var all := RealisedAll(p, probe, free);
      && StreamsOfType(all, Video) == RealisedStreams(p, KeptOf(p.streams, Video), probe, free)
      && StreamsOfType(all, Audio) == RealisedStreams(p, KeptOf(p.streams, Audio), probe, free)
      && StreamsOfType(all, Subtitle) == RealisedStreams(p, KeptOf(p.streams, Subtitle), probe, free)
  {
    RealisedOfKind(p, probe, free, Video);
    RealisedOfKind(p, probe, free, Audio);
    RealisedOfKind(p, probe, free, Subtitle);
    OutputByType(
      RealisedStreams(p, KeptOf(p.streams, Video), probe, free),
      RealisedStreams(p, KeptOf(p.streams, Audio), probe, free),
      RealisedStreams(p, KeptOf(p.streams, Subtitle), probe, free));
  }

  lemma {:induction false} FormatNameBack(c: Container)
    ensures NormaliseFormatName(FormatNamesOf(c)) == Family(c)
  {
    assert FormatNamesOf(MP4)[1..][0] == Family(MP4);
  }

  /** The file a request writes: its one video stream, and the audio and subtitles it keeps. */
  lemma {:induction false} OutputStreamsByType(req: Request, cmd: Command, probe: Probe, free: Choices)
    requires Build(req) == Success(cmd) && Sourced(req, probe)
    ensures Runs(cmd.args, probe, free) && Sound(req.plan, probe)
    ensures var out := OutputOf(cmd.args, probe, free);
      && Videos(out) == RealisedStreams(req.plan, KeptOf(req.plan.streams, Video), probe, free)
      && Audios(out) == RealisedStreams(req.plan, KeptOf(req.plan.streams, Audio), probe, free)
      && Subtitles(out) == RealisedStreams(req.plan, KeptOf(req.plan.streams, Subtitle), probe, free)
      && NormaliseFormatName(out.formatNames) == Family(req.plan.container)
  {
    BuildRealisesThePlan(req, cmd, probe, free);
    RealisedByType(req.plan, probe, free);
    FormatNameBack(req.plan.container);
  }

  lemma {:induction false} SoundAllSettles(req: Request, probe: Probe, o: Options, primary: nat, free: Choices)
    requires primary < |Videos(probe)|
    requires forall sp :: sp in KeptOf(req.plan.streams, Audio) ==>
        sp.kind == Audio && PlannedFor(probe, o, primary, sp)
    requires forall sp :: sp in KeptOf(req.plan.streams, Audio) ==>
        !LacksCodec(sp) && sp.source < |StreamsOfType(probe.streams, sp.kind)|
    ensures forall s :: s in RealisedStreams(req.plan, KeptOf(req.plan.streams, Audio), probe, free) ==>
        OnAudioCopyList(s.codec, s.channels)
  {
    var kept := KeptOf(req.plan.streams, Audio);
    var out := RealisedStreams(req.plan, kept, probe, free);
    forall i | 0 <= i < |kept| ensures OnAudioCopyList(out[i].codec, out[i].channels) {
      RealisedKeptAt(req.plan, kept, probe, free, Audio, i);
      var sp := kept[i];
      SoundSettles(sp.source, SourceOf(probe, sp), ContainerFor(o.ext), req.plan, sp, free(Audio, i));
    }
  }

  lemma {:induction false} SubtitlesAllSettle(req: Request, probe: Probe, o: Options, primary: nat, free: Choices)
    requires primary < |Videos(probe)|
    requires forall sp :: sp in KeptOf(req.plan.streams, Subtitle) ==>
        sp.kind == Subtitle && sp.Kept() && PlannedFor(probe, o, primary, sp)
    requires forall sp :: sp in KeptOf(req.plan.streams, Subtitle) ==>
        !LacksCodec(sp) && sp.source < |StreamsOfType(probe.streams, sp.kind)|
    ensures forall s :: s in RealisedStreams(req.plan, KeptOf(req.plan.streams, Subtitle), probe, free) ==>
        s.codec == SubtitleTarget(ContainerFor(o.ext))
  {
    var kept := KeptOf(req.plan.streams, Subtitle);
    var out := RealisedStreams(req.plan, kept, probe, free);
    forall i | 0 <= i < |kept| ensures out[i].codec == SubtitleTarget(ContainerFor(o.ext)) {
      RealisedKeptAt(req.plan, kept, probe, free, Subtitle, i);
      var sp := kept[i];
      SubtitleSettles(sp.source, SourceOf(probe, sp), ContainerFor(o.ext), req.plan, sp, free(Subtitle, i));
    }
  }

  /** A request for one video stream and the planned audio and subtitles of a probe. */
  ghost predicate Follows(req: Request, probe: Probe, o: Options, primary: nat) {
    && PrimaryVideo(Videos(probe)) == Some(primary)
    && req.plan.container == ContainerFor(o.ext)
    && |KeptOf(req.plan.streams, Video)| == 1
    && KeptOf(req.plan.streams, Video)[0].source == primary
    && (forall sp :: sp in req.plan.streams && sp.Kept() && sp.kind != Video ==> PlannedFor(probe, o, primary, sp))
  }

  /** The output has the one video stream, and neither its audio nor its subtitles need anything. */
  lemma {:induction false} OutputNeedsVideoWorkOnly(
    req: Request, cmd: Command, probe: Probe, o: Options, primary: nat, free: Choices)
    requires Build(req) == Success(cmd) && Sourced(req, probe) && Follows(req, probe, o, primary)
    ensures Runs(cmd.args, probe, free)
    ensures var vp := KeptOf(req.plan.streams, Video)[0];
      var out := OutputOf(cmd.args, probe, free);
      && vp.kind == Video && !LacksCodec(vp)
      && Videos(out) == [Realised(req.plan, vp, Videos(probe)[primary], free(Video, 0))]
      && !Videos(out)[0].attachedPic
      && |Audios(out)| == |KeptOf(req.plan.streams, Audio)|
      && NormaliseFormatName(out.formatNames) == Family(ContainerFor(o.ext))
      && (forall s :: s in Audios(out) ==> OnAudioCopyList(s.codec, s.channels))
      && (forall s :: s in Subtitles(out) ==> s.codec == SubtitleTarget(ContainerFor(o.ext)))
  {
    var p := req.plan;
    OutputStreamsByType(req, cmd, probe, free);
    KeptOfMembers(p.streams, Video);
    KeptOfMembers(p.streams, Audio);
    KeptOfMembers(p.streams, Subtitle);
    SoundAllSettles(req, probe, o, primary, free);
    SubtitlesAllSettle(req, probe, o, primary, free);
    RealisedKeptAt(p, KeptOf(p.streams, Video), probe, free, Video, 0);
  }

  /** Planned again, the output needs work exactly when its own video stream does. */
  lemma {:induction false} OutputPlansAgain(
    req: Request, cmd: Command, probe: Probe, o: Options, primary: nat, free: Choices)
    requires Build(req) == Success(cmd) && Sourced(req, probe) && Follows(req, probe, o, primary)
    ensures Runs(cmd.args, probe, free)
    ensures var vp := KeptOf(req.plan.streams, Video)[0];
      var again := PlanOf(OutputOf(cmd.args, probe, free), Options(o.ext, None));
      && vp.kind == Video && !LacksCodec(vp)
      && again.Success?
      && var v := VerdictOf(Realised(req.plan, vp, Videos(probe)[primary], free(Video, 0)), None);
         again.value.plan.kind.Skip() <==> v.decision != Encode && !v.levelRewrite
  {
    OutputNeedsVideoWorkOnly(req, cmd, probe, o, primary, free);
    var out := OutputOf(cmd.args, probe, free);
    assert PrimaryVideo(Videos(out)) == Some(0);
    OnlyVideoWork(out, Options(o.ext, None));
  }

  /** A file whose audio and subtitles need nothing needs work exactly when its video does. */
  lemma {:induction false} OnlyVideoWork(probe: Probe, o: Options)
    requires PrimaryVideo(Videos(probe)) == Some(0) && Audios(probe) != []
    requires NormaliseFormatName(probe.formatNames) == Family(ContainerFor(o.ext))
    requires forall s :: s in Audios(probe) ==> OnAudioCopyList(s.codec, s.channels)
    requires forall s :: s in Subtitles(probe) ==> s.codec == SubtitleTarget(ContainerFor(o.ext))
    ensures PlanOf(probe, o).Success?
    ensures var v := VerdictOf(Videos(probe)[0], o.idet);
      PlanOf(probe, o).value.plan.kind.Skip() <==> v.decision != Encode && !v.levelRewrite
  {
    SoundWork(probe, o, 0);
    SubtitleWork(probe, o, 0);
    DraftKeepsThePrimary(probe, o, 0);
    SkipHasNoErrors(probe, o, 0);
  }

  /** With nothing to do about audio and subtitles, planning succeeds when there is audio or nothing to do at all. */
  lemma {:induction false} SkipHasNoErrors(probe: Probe, o: Options, primary: nat)
    requires PrimaryVideo(Videos(probe)) == Some(primary) && Audios(probe) != []
    ensures PlanOf(probe, o).Success?
  {
    var d := Draft(probe, o, primary);
    var j := |Videos(probe)|;
    DraftLength(probe, o, primary);
    DraftAt(probe, o, primary, j);
    assert d.streams[j] in d.streams && d.streams[j].output.Some?;
  }

  /** Following a plan gives a file that is planned as "nothing to do", under the exact condition for it. */
  lemma {:induction false} PlanningConverges(
    probe: Probe, o: Options, a: Analysis, req: Request, cmd: Command, primary: nat, free: Choices)
    requires PlanOf(probe, o) == Success(a) && PrimaryVideo(Videos(probe)) == Some(primary)
    requires RequestFor(req, a.plan, o, Videos(probe)[primary]) && Build(req) == Success(cmd)
    ensures Runs(cmd.args, probe, free)
    ensures PlanOf(OutputOf(cmd.args, probe, free), Options(o.ext, None)).Success?
    ensures PlanOf(OutputOf(cmd.args, probe, free), Options(o.ext, None)).value.plan.kind.Skip()
      <==> Settles(Videos(probe)[primary], o.idet, ContainerFor(o.ext))
  {
    var d := Draft(probe, o, primary);
    PlanIsSourced(probe, o, primary, req);
    DraftKeepsThePrimary(probe, o, primary);
    PlanFollows(probe, o, req, primary);
    OutputPlansAgain(req, cmd, probe, o, primary, free);
    VideoSettles(Videos(probe)[primary], o.idet, req.plan, free(Video, 0));
    LabelsDoNotMatter(req.plan, KeptOf(req.plan.streams, Video)[0], Videos(probe)[primary], free(Video, 0));
  }

  lemma {:induction false} PlanFollows(probe: Probe, o: Options, req: Request, primary: nat)
    requires PrimaryVideo(Videos(probe)) == Some(primary)
    requires req.plan.streams == Draft(probe, o, primary).streams && req.plan.container == ContainerFor(o.ext)
    ensures Follows(req, probe, o, primary)
  {
    DraftKeepsThePrimary(probe, o, primary);
    var streams := req.plan.streams;
    forall sp | sp in streams ensures PlannedFor(probe, o, primary, sp) {
      var i :| 0 <= i < |streams| && streams[i] == sp;
      DraftAt(probe, o, primary, i);
    }
  }

  /** Language, title and dispositions play no part in the copy test. */
  lemma {:induction false} LabelsDoNotMatter(p: Plan, vp: StreamPlan, src: Stream, free: Freedom)
    requires vp.kind == Video && !LacksCodec(vp)
    ensures VerdictOf(Realised(p, vp, src, free), None) == VerdictOf(RealisedVideo(p, vp.decision, src, free), None)
  {
  }

  /** Used as the job uses it, with an idet answer only when one was asked for, planning always converges. */
  lemma {:induction false} AskedForIdetConverges(video: Stream, idet: Option<Scan>, c: Container)
    requires idet.Some? ==> VerdictOf(video, None).needsIdet
    requires video.dolby == Some(NO_ENCODE_DOLBY_PROFILE) ==> video.codec == Hevc
    ensures Settles(video, idet, c)
  {
  }
}
