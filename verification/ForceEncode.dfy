/** The space sweep's rewrite of a plan: re-encode a video stream the policy would copy. */
module ForceEncode {
  import opened Wrappers
  import opened Media
  import opened Policy
  import opened Decide
  import opened Argv
  import opened Ffmpeg
  import opened Realise
  import opened Converge

  function FirstKeptVideo(streams: seq<StreamPlan>): (r: Option<nat>)
    ensures r.Some? ==> r.value < |streams|
  {
    if streams == [] then None
    else if streams[0].kind == Video && streams[0].Kept() then Some(0)
    else
      match FirstKeptVideo(streams[1..])
      case None => None
      case Some(i) => Some(i + 1)
  }

  function ForcedStream(sp: StreamPlan): StreamPlan {
    sp.(decision := Encode, target := Some(HevcEncoder))
  }

  function Forced(p: Plan): Option<Plan> {
    if p.dolby == Some(NO_ENCODE_DOLBY_PROFILE) then None
    else
      match FirstKeptVideo(p.streams)
      case None => None
      case Some(i) =>
        var draft := p.(streams := p.streams[i := ForcedStream(p.streams[i])], levelRewrite := false);
        Some(draft.(kind := DeriveKind(draft)))
  }

  lemma {:induction false} FirstKeptVideoAt(streams: seq<StreamPlan>, i: nat)
    requires i < |streams| && streams[i].kind == Video && streams[i].Kept()
    requires forall j :: 0 <= j < i ==> streams[j].kind != Video || !streams[j].Kept()
    ensures FirstKeptVideo(streams) == Some(i)
  {
    if i > 0 {
      assert streams[0].kind != Video || !streams[0].Kept();
      FirstKeptVideoAt(streams[1..], i - 1);
    }
  }

  lemma {:induction false} NoKeptVideo(streams: seq<StreamPlan>)
    requires forall j :: 0 <= j < |streams| ==> streams[j].kind != Video || !streams[j].Kept()
    ensures FirstKeptVideo(streams) == None
  {
    if streams != [] {
      NoKeptVideo(streams[1..]);
    }
  }

  /** Clones the streams and rewrites the first kept video stream of the clone. */
  method ForceVideoEncode(p: Plan) returns (r: Option<Plan>)
    ensures r == Forced(p)
  {
    if p.dolby == Some(NO_ENCODE_DOLBY_PROFILE) {
      return None;
    }
    var streams := p.streams;
    var forced := false;
    for i := 0 to |streams|
      invariant streams == p.streams && !forced
      invariant forall j :: 0 <= j < i ==> streams[j].kind != Video || !streams[j].Kept()
    {
      if streams[i].kind != Video || streams[i].decision == Drop {
        continue;
      }
      FirstKeptVideoAt(p.streams, i);
      streams := streams[i := streams[i].(decision := Encode, target := Some(HevcEncoder))];
      forced := true;
      break;
    }
    if !forced {
      NoKeptVideo(p.streams);
      return None;
    }
    var plan := p.(streams := streams, levelRewrite := false);
    return Some(plan.(kind := DeriveKind(plan)));
  }

  lemma {:induction false} FirstIsFirst(streams: seq<StreamPlan>)
    ensures FirstKeptVideo(streams) == None <==> KeptOf(streams, Video) == []
    ensures FirstKeptVideo(streams).Some? ==>
      var first := streams[FirstKeptVideo(streams).value];
      first.kind == Video && first.Kept() && first == KeptOf(streams, Video)[0]
  {
    if streams != [] {
      FirstIsFirst(streams[1..]);
    }
  }

  lemma {:induction false} KeptAfterForcing(streams: seq<StreamPlan>, i: nat)
    requires FirstKeptVideo(streams) == Some(i)
    ensures KeptOf(streams, Video) != []
    ensures KeptOf(streams[i := ForcedStream(streams[i])], Video)
         == [ForcedStream(streams[i])] + KeptOf(streams, Video)[1..]
    ensures forall k :: k != Video ==> KeptOf(streams[i := ForcedStream(streams[i])], k) == KeptOf(streams, k)
  {
    var after := streams[i := ForcedStream(streams[i])];
    if i == 0 {
      assert after[1..] == streams[1..];
    } else {
      KeptAfterForcing(streams[1..], i - 1);
      assert after[1..] == streams[1..][i-1 := ForcedStream(streams[i])];
    }
  }

  /** It refuses exactly a Dolby Vision profile 5 source and a plan that keeps no video. */
  lemma {:induction false} RefusesExactly(p: Plan)
    ensures Forced(p) == None <==> p.dolby == Some(NO_ENCODE_DOLBY_PROFILE) || KeptOf(p.streams, Video) == []
  {
    FirstIsFirst(p.streams);
  }

  /**
   Only the first kept video stream changes: every other decision and every output index stay, and the kind
   is video, plus the audio and subtitle work there was, plus a remux exactly when the container changes.
   */
  lemma {:induction false} ChangesOnlyTheVideo(p: Plan)
    requires Forced(p).Some?
    ensures var f := Forced(p).value;
      var i := FirstKeptVideo(p.streams);
      && i.Some? && |f.streams| == |p.streams|
      && (forall j :: 0 <= j < |p.streams| && j != i.value ==> f.streams[j] == p.streams[j])
      && f.streams[i.value] == p.streams[i.value].(decision := Encode, target := Some(HevcEncoder))
      && KeptOf(p.streams, Video) != [] && p.streams[i.value] == KeptOf(p.streams, Video)[0]
      && f.kind == Kind(
                     true, HasWork(p.streams, Audio), HasWork(p.streams, Subtitle),
                     p.sourceContainer != Family(p.container))
      && f.(streams := p.streams, kind := p.kind, levelRewrite := p.levelRewrite) == p
  {
    FirstIsFirst(p.streams);
    var i := FirstKeptVideo(p.streams).value;
    KeptAfterForcing(p.streams, i);
    SameWork(p.streams, i, Audio);
    SameWork(p.streams, i, Subtitle);
  }

  lemma {:induction false} SameWork(streams: seq<StreamPlan>, i: nat, kind: StreamType)
    requires i < |streams| && streams[i].kind == Video && kind != Video
    ensures HasWork(streams[i := ForcedStream(streams[i])], kind) == HasWork(streams, kind)
  {
    var after := streams[i := ForcedStream(streams[i])];
    if p :| p in streams && p.kind == kind && p.decision != Copy {
      var j :| 0 <= j < |streams| && streams[j] == p;
      assert after[j] in after && after[j] == p;
    }
    if p :| p in after && p.kind == kind && p.decision != Copy {
      var j :| 0 <= j < |after| && after[j] == p;
      assert streams[j] in streams && streams[j] == p;
    }
  }

  /** Forcing twice is forcing once. */
  lemma {:induction false} ForcingIsIdempotent(p: Plan)
    requires Forced(p).Some?
    ensures Forced(Forced(p).value) == Forced(p)
  {
    var f := Forced(p).value;
    FirstIsFirst(p.streams);
    FirstIsFirst(f.streams);
    var i := FirstKeptVideo(p.streams).value;
    KeptAfterForcing(p.streams, i);
    assert forall j :: 0 <= j < i ==> f.streams[j] == p.streams[j];
    EarlierKept(p.streams, i);
    FirstKeptVideoAt(f.streams, i);
    assert f.streams[i := ForcedStream(f.streams[i])] == f.streams;
  }

  lemma {:induction false} EarlierKept(streams: seq<StreamPlan>, i: nat)
    requires FirstKeptVideo(streams) == Some(i)
    ensures forall j :: 0 <= j < i ==> streams[j].kind != Video || !streams[j].Kept()
  {
    if i > 0 {
      EarlierKept(streams[1..], i - 1);
      forall j | 0 <= j < i ensures streams[j].kind != Video || !streams[j].Kept() {
        assert j > 0 ==> streams[j] == streams[1..][j-1];
      }
    }
  }

  /** A forced encode comes out progressive unless an idet answer hid the source's interlaced fields. */
  lemma {:induction false} ForcedVideoSettles(video: Stream, idet: Option<Scan>, p: Plan, free: Freedom)
    requires p.deinterlace == VerdictOf(video, idet).deinterlace
    requires video.dolby != Some(NO_ENCODE_DOLBY_PROFILE)
    ensures var v := VerdictOf(RealisedVideo(p, Encode, video, free), None);
      (v.decision != Encode && !v.levelRewrite) <==> !(video.HasInterlacedFields() && idet == Some(Progressive))
  {
    var out := RealisedVideo(p, Encode, video, free);
    assert CopyFailures(out, Progressive) == [] && CopyFailures(out, Interlaced) == [BadScan];
    var scan := ResolveScan(video, idet).0;
    FailuresOf(video, scan);
    if scan == Interlaced {
      assert CopyFailures(video, scan) != [] && CopyFailures(video, scan) != [BadLevel];
    }
  }

  /** The forced plan's own output is planned as "nothing to do", unless an idet answer hid interlaced fields. */
  lemma {:induction false} ForcedPlanConverges(
    probe: Probe, o: Options, a: Analysis, req: Request, cmd: Command, primary: nat, free: Choices)
    requires PlanOf(probe, o) == Success(a) && PrimaryVideo(Videos(probe)) == Some(primary)
    requires Forced(a.plan).Some?
    requires RequestFor(req, Forced(a.plan).value, o, Videos(probe)[primary]) && Build(req) == Success(cmd)
    ensures Runs(cmd.args, probe, free)
    ensures PlanOf(OutputOf(cmd.args, probe, free), Options(o.ext, None)).Success?
    ensures PlanOf(OutputOf(cmd.args, probe, free), Options(o.ext, None)).value.plan.kind.Skip()
      <==> !(Videos(probe)[primary].HasInterlacedFields() && o.idet == Some(Progressive))
  {
    var streams := Draft(probe, o, primary).streams;
    DraftPlanned(probe, o, primary);
    DraftKeepsThePrimary(probe, o, primary);
    ForcedFollows(probe, o, req, primary, streams, FirstKeptVideo(streams).value);
    OutputPlansAgain(req, cmd, probe, o, primary, free);
    ForcedVideoSettles(Videos(probe)[primary], o.idet, req.plan, free(Video, 0));
    LabelsDoNotMatter(req.plan, KeptOf(req.plan.streams, Video)[0], Videos(probe)[primary], free(Video, 0));
  }

  lemma {:induction false} DraftPlanned(probe: Probe, o: Options, primary: nat)
    requires primary < |Videos(probe)|
    ensures forall sp :: sp in Draft(probe, o, primary).streams ==> PlannedFor(probe, o, primary, sp)
  {
    var streams := Draft(probe, o, primary).streams;
    forall sp | sp in streams ensures PlannedFor(probe, o, primary, sp) {
      var i :| 0 <= i < |streams| && streams[i] == sp;
      DraftAt(probe, o, primary, i);
    }
  }

  lemma {:induction false} ForcedFollows(
    probe: Probe, o: Options, req: Request, primary: nat, streams: seq<StreamPlan>, i: nat)
    requires PrimaryVideo(Videos(probe)) == Some(primary)
    requires forall sp :: sp in streams ==> PlannedFor(probe, o, primary, sp)
    requires |KeptOf(streams, Video)| == 1 && KeptOf(streams, Video)[0].source == primary
    requires FirstKeptVideo(streams) == Some(i)
    requires req.plan.streams == streams[i := ForcedStream(streams[i])]
    requires req.plan.container == ContainerFor(o.ext) && !req.plan.levelRewrite
    requires req.output == OutputExtension(req.plan.container, o.ext) && req.sourceCodec == Videos(probe)[primary].codec
    ensures Sourced(req, probe) && Follows(req, probe, o, primary)
    ensures KeptOf(req.plan.streams, Video)[0].decision == Encode
  {
    OutputExtensionMuxes(o.ext);
    FirstIsFirst(streams);
    KeptAfterForcing(streams, i);
    forall sp | sp in req.plan.streams && sp.kind != Video ensures sp in streams {
      var j :| 0 <= j < |streams| && req.plan.streams[j] == sp;
    }
    forall sp | sp in req.plan.streams && sp.Kept()
      ensures sp.source < |StreamsOfType(probe.streams, sp.kind)|
      ensures Suits(req.plan, req.sourceCodec, sp, StreamsOfType(probe.streams, sp.kind)[sp.source])
    {
      if sp.kind == Video {
        KeptOfMembers(req.plan.streams, Video);
        assert sp in KeptOf(req.plan.streams, Video);
      } else {
        OtherSuits(probe, o, primary, req, sp);
      }
    }
  }

  lemma {:induction false} OtherSuits(probe: Probe, o: Options, primary: nat, req: Request, sp: StreamPlan)
    requires primary < |Videos(probe)| && PlannedFor(probe, o, primary, sp) && sp.Kept() && sp.kind != Video
    requires req.plan.container == ContainerFor(o.ext)
    ensures sp.source < |StreamsOfType(probe.streams, sp.kind)|
    ensures Suits(req.plan, req.sourceCodec, sp, StreamsOfType(probe.streams, sp.kind)[sp.source])
  {
  }
}
