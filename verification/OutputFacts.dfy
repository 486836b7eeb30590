/** Facts about every output: its tags, the transfer of an HDR source, the scan and the depth of its picture. */
module OutputFacts {
  import opened Wrappers
  import opened Media
  import opened Decide
  import opened Argv
  import opened Ffmpeg
  import opened Realise
  import opened Converge
  import opened ForceEncode
  import RecoveryRule
  import opened PlanFacts

  /** Every output carries the tags a restart looks for, both of them, under the request's policy and no other. */
  lemma {:induction false} OutputIsTagged(req: Request, cmd: Command, probe: Probe, free: Choices, policy: string)
    requires Build(req) == Success(cmd) && Sourced(req, probe)
    ensures Runs(cmd.args, probe, free)
    ensures RecoveryRule.TaggedWith(OutputOf(cmd.args, probe, free).tags, policy) <==> policy == req.policy
    ensures forall k :: k == CodarrTag || k == CodarrPolicy ==>
              !RecoveryRule.TaggedWith(OutputOf(cmd.args, probe, free).tags - {k}, policy)
  {
    BuildRealisesThePlan(req, cmd, probe, free);
    assert OutputOf(cmd.args, probe, free).tags == probe.tags + OwnTags(req);
  }

  /**
   A re-encoded source keeps its transfer exactly when it is not HLG: the engine never names the transfer in the
   plan, and the generator then tags every HDR encode as PQ.
   */
  lemma {:induction false} TransferKeptExactly(
    probe: Probe, o: Options, a: Analysis, req: Request, cmd: Command, primary: nat, free: Choices)
    requires PlanOf(probe, o) == Success(a) && PrimaryVideo(Videos(probe)) == Some(primary)
    requires RequestFor(req, a.plan, o, Videos(probe)[primary]) && Build(req) == Success(cmd)
    requires EncodesVideo(a.plan.streams)
    ensures Runs(cmd.args, probe, free) && |Videos(OutputOf(cmd.args, probe, free))| == 1
    ensures Videos(OutputOf(cmd.args, probe, free))[0].transfer == Videos(probe)[primary].transfer
       <==> Videos(probe)[primary].transfer != Hlg
  {
    PlanIsSourced(probe, o, primary, req);
    PlanFollows(probe, o, req, primary);
    OneVideoOut(req, cmd, probe, o, primary, free);
    EncodedTransfer(req.plan, KeptOf(req.plan.streams, Video)[0], Videos(probe)[primary], free(Video, 0));
  }

  /** The same for a forced plan, which re-encodes whatever it is given. */
  lemma {:induction false} ForcedTransferKeptExactly(
    probe: Probe, o: Options, a: Analysis, req: Request, cmd: Command, primary: nat, free: Choices)
    requires PlanOf(probe, o) == Success(a) && PrimaryVideo(Videos(probe)) == Some(primary)
    requires Forced(a.plan).Some?
    requires RequestFor(req, Forced(a.plan).value, o, Videos(probe)[primary]) && Build(req) == Success(cmd)
    ensures Runs(cmd.args, probe, free) && |Videos(OutputOf(cmd.args, probe, free))| == 1
    ensures Videos(OutputOf(cmd.args, probe, free))[0].transfer == Videos(probe)[primary].transfer
       <==> Videos(probe)[primary].transfer != Hlg
  {
    var streams := Draft(probe, o, primary).streams;
    DraftPlanned(probe, o, primary);
    DraftKeepsThePrimary(probe, o, primary);
    ChangesOnlyTheVideo(a.plan);
    ForcedFollows(probe, o, req, primary, streams, FirstKeptVideo(streams).value);
    OneVideoOut(req, cmd, probe, o, primary, free);
    EncodedTransfer(req.plan, KeptOf(req.plan.streams, Video)[0], Videos(probe)[primary], free(Video, 0));
  }

  /** A request for one video stream writes that stream, as planned. */
  lemma {:induction false} OneVideoOut(
    req: Request, cmd: Command, probe: Probe, o: Options, primary: nat, free: Choices)
    requires Build(req) == Success(cmd) && Sourced(req, probe) && Follows(req, probe, o, primary)
    ensures Runs(cmd.args, probe, free)
    ensures var vp := KeptOf(req.plan.streams, Video)[0];
            && vp.kind == Video && !LacksCodec(vp)
            && Videos(OutputOf(cmd.args, probe, free))
               == [Realised(req.plan, vp, Videos(probe)[primary], free(Video, 0))]
  {
    OutputStreamsByType(req, cmd, probe, free);
    KeptOfMembers(req.plan.streams, Video);
    assert KeptOf(req.plan.streams, Video)[0] in KeptOf(req.plan.streams, Video);
  }

  lemma {:induction false} EncodedTransfer(p: Plan, vp: StreamPlan, src: Stream, free: Freedom)
    requires vp.kind == Video && vp.decision == Encode && !LacksCodec(vp)
    requires p.hdr == src.IsHdr() && p.hdrTransfer == None
    ensures Realised(p, vp, src, free).transfer == (if src.IsHdr() then Pq else src.transfer)
  {
  }

  // ---------- scan and depth ----------

  lemma {:induction false} VideoComesFirst(req: Request, vp: StreamPlan)
    requires KeptOf(req.plan.streams, Video) == [vp]
    ensures OutputStreams(req.plan.streams) != [] && OutputStreams(req.plan.streams)[0] == OutStream(vp, 0)
    ensures vp.kind == Video && VideoStream(req.plan.streams) == Some(vp)
  {
    KeptOfMembers(req.plan.streams, Video);
    assert vp in KeptOf(req.plan.streams, Video);
  }

  /** The picture is deinterlaced exactly when the plan encodes it and says so. */
  lemma {:induction false} PictureAsPlanned(req: Request, cmd: Command, vp: StreamPlan, source: Scan)
    requires Build(req) == Success(cmd) && KeptOf(req.plan.streams, Video) == [vp]
    ensures PictureAfter(Effective(cmd.args, Video, 0, UNSET), source)
         == if vp.decision == Encode && req.plan.deinterlace then Progressive else source
  {
    VideoComesFirst(req, vp);
    BuiltStreams(req, cmd, 0);
    var s := Effective(cmd.args, Video, 0, UNSET);
    assert s.codec == s.(filters := []).codec;
  }

  /**
   A re-encoded picture comes out progressive whenever the idet answer, or without one the field order, says interlaced,
   whatever the picture really is; and otherwise it comes out as it is, as it does when it is copied.
   */
  lemma {:induction false} InterlacedComesOutProgressive(
    probe: Probe, o: Options, a: Analysis, req: Request, cmd: Command, primary: nat, source: Scan)
    requires PlanOf(probe, o) == Success(a) && PrimaryVideo(Videos(probe)) == Some(primary)
    requires RequestFor(req, a.plan, o, Videos(probe)[primary]) && Build(req) == Success(cmd)
    ensures PictureAfter(Effective(cmd.args, Video, 0, UNSET), source)
         == if EncodesVideo(a.plan.streams) && ToldInterlaced(Videos(probe)[primary], o.idet) then Progressive
            else source
    ensures ToldInterlaced(Videos(probe)[primary], o.idet) && Videos(probe)[primary].dolby != Some(5) ==>
              EncodesVideo(a.plan.streams)
  {
    PictureDecided(probe, o, a, primary);
    var vp := KeptOf(a.plan.streams, Video)[0];
    VideoComesFirst(req, vp);
    PictureAsPlanned(req, cmd, vp, source);
  }

  /** The same for a forced plan. */
  lemma {:induction false} ForcedComesOutProgressive(
    probe: Probe, o: Options, a: Analysis, req: Request, cmd: Command, primary: nat, source: Scan)
    requires PlanOf(probe, o) == Success(a) && PrimaryVideo(Videos(probe)) == Some(primary)
    requires Forced(a.plan).Some?
    requires RequestFor(req, Forced(a.plan).value, o, Videos(probe)[primary]) && Build(req) == Success(cmd)
    ensures PictureAfter(Effective(cmd.args, Video, 0, UNSET), source)
         == if ToldInterlaced(Videos(probe)[primary], o.idet) then Progressive else source
  {
    PictureDecided(probe, o, a, primary);
    PlanParts(probe, o, a, primary);
    ChangesOnlyTheVideo(a.plan);
    RefusesExactly(a.plan);
    var i := FirstKeptVideo(a.plan.streams).value;
    KeptAfterForcing(a.plan.streams, i);
    PictureAsPlanned(req, cmd, ForcedStream(a.plan.streams[i]), source);
  }

  /**
   The encoder is given ten bits where it is told to write ten, unless the frames stayed on the GPU: after a hardware
   decode they keep the depth of the source, which need not be that of the plan.
   */
  lemma {:induction false} DepthExactly(req: Request, cmd: Command, vp: StreamPlan, tenBit: bool)
    requires Build(req) == Success(cmd) && KeptOf(req.plan.streams, Video) == [vp] && vp.decision == Encode
    ensures var g, s := GlobalsOf(cmd.args, NO_GLOBALS), Effective(cmd.args, Video, 0, UNSET);
      && s.main10 == Some(req.plan.hdr) && AtTheEncoder(g, s, tenBit).Some?
      && (AtTheEncoder(g, s, tenBit).value.tenBit == req.plan.hdr
          <==> cmd.decode == SoftwareDecode || tenBit == req.plan.hdr)
  {
    VideoComesFirst(req, vp);
    BuiltStreams(req, cmd, 0);
    var s := Effective(cmd.args, Video, 0, UNSET);
    assert s.main10 == s.(filters := []).main10;
  }
}
