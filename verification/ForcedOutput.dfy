/** The validator on the output of a forced re-encode. */
module ForcedOutput {
  import opened Wrappers
  import opened Media
  import opened Decide
  import opened Argv
  import opened Ffmpeg
  import opened Realise
  import opened Converge
  import opened ForceEncode
  import opened Validator
  import V = Verify

  /** Forcing leaves the streams grouped by type and numbered as they were. */
  lemma {:induction false} ForcedIsOrdered(probe: Probe, o: Options, primary: nat, i: nat)
    requires primary < |Videos(probe)| && FirstKeptVideo(Draft(probe, o, primary).streams) == Some(i)
    ensures var s := Draft(probe, o, primary).streams; Ordered(s[i := ForcedStream(s[i])])
  {
    var s := Draft(probe, o, primary).streams;
    var after := s[i := ForcedStream(s[i])];
    DraftIsOrdered(probe, o, primary);
    DraftGroups(probe, o, primary);
    DraftLength(probe, o, primary);
    FirstIsFirst(s);
    KeptAfterForcing(s, i);
    GroupedMapped(after, |Videos(probe)|, |Audios(probe)|);
  }

  /** An encode is exempt from the copy check, and without profile 5 nothing is lost. */
  lemma {:induction false} EncodePassesVideoChecks(vp: StreamPlan, r: V.Request, out: V.Output)
    requires KeptOf(r.plan.streams, Video) == [vp] && vp.decision == Encode && r.plan.dolby != Some(5)
    ensures V.CheckVideoCopy(r, out).Success? && V.CheckDolbyVision(r, out).Success?
  {
  }

  /**
   Given a forced plan that was followed faithfully, the validator accepts if and only if the source keeps at most one
   sound track or no text subtitles, the length is right, and the file did not grow.
   */
  lemma {:induction false} ForcedAcceptableExactly(
    probe: Probe, o: Options, a: Analysis, req: Argv.Request, cmd: Command, primary: nat, free: Choices,
    r: V.Request, duration: real, size: int)
    requires PlanOf(probe, o) == Success(a) && PrimaryVideo(Videos(probe)) == Some(primary)
    requires Forced(a.plan).Some?
    requires RequestFor(req, Forced(a.plan).value, o, Videos(probe)[primary]) && Build(req) == Success(cmd)
    requires r.plan == req.plan
    ensures Runs(cmd.args, probe, free)
    ensures var out := Staged(cmd.args, probe, free, duration, size);
      V.Accepts(r, out) <==>
        V.LengthHolds(r, duration) && SoundOrText(probe) && size <= r.sourceSize
  {
    var i := FirstKeptVideo(Draft(probe, o, primary).streams).value;
    ForcedShape(probe, o, a, req, primary, i);
    var out := OrderedAccepted(req, cmd, probe, free, r, duration, size);
    EncodePassesVideoChecks(KeptOf(req.plan.streams, Video)[0], r, out);
  }

  /** What the forced request keeps: one encoded video, and the sound and subtitles of the source. */
  lemma {:induction false} ForcedShape(
    probe: Probe, o: Options, a: Analysis, req: Argv.Request, primary: nat, i: nat)
    requires PlanOf(probe, o) == Success(a) && PrimaryVideo(Videos(probe)) == Some(primary)
    requires Forced(a.plan).Some? && FirstKeptVideo(Draft(probe, o, primary).streams) == Some(i)
    requires RequestFor(req, Forced(a.plan).value, o, Videos(probe)[primary])
    ensures Sourced(req, probe) && Ordered(req.plan.streams)
    ensures KeptOf(req.plan.streams, Video) == [KeptOf(req.plan.streams, Video)[0]]
    ensures KeptOf(req.plan.streams, Video)[0].decision == Encode
    ensures req.plan.kind.video && req.plan.dolby != Some(5)
    ensures SoundOrText(probe) <==>
              |KeptOf(req.plan.streams, Audio)| <= 1 || KeptOf(req.plan.streams, Subtitle) == []
  {
    ForcedRequest(probe, o, a, req, primary, i);
    ForcedIsOrdered(probe, o, primary, i);
    ForcedKeepsSound(probe, o, primary, i);
  }

  lemma {:induction false} ForcedRequest(
    probe: Probe, o: Options, a: Analysis, req: Argv.Request, primary: nat, i: nat)
    requires PlanOf(probe, o) == Success(a) && PrimaryVideo(Videos(probe)) == Some(primary)
    requires Forced(a.plan).Some? && FirstKeptVideo(Draft(probe, o, primary).streams) == Some(i)
    requires RequestFor(req, Forced(a.plan).value, o, Videos(probe)[primary])
    ensures Sourced(req, probe) && |KeptOf(req.plan.streams, Video)| == 1
    ensures KeptOf(req.plan.streams, Video)[0].decision == Encode
    ensures req.plan.kind.video && req.plan.dolby != Some(5)
    ensures var s := Draft(probe, o, primary).streams; req.plan.streams == s[i := ForcedStream(s[i])]
  {
    var streams := Draft(probe, o, primary).streams;
    PlanStreams(probe, o, a, primary);
    DraftPlanned(probe, o, primary);
    DraftKeepsThePrimary(probe, o, primary);
    ForcedFollows(probe, o, req, primary, streams, i);
    ChangesOnlyTheVideo(a.plan);
  }

  /** As many sound tracks and text subtitles are kept as without the forcing. */
  lemma {:induction false} ForcedKeepsSound(probe: Probe, o: Options, primary: nat, i: nat)
    requires primary < |Videos(probe)| && FirstKeptVideo(Draft(probe, o, primary).streams) == Some(i)
    ensures var s := Draft(probe, o, primary).streams;
            var after := s[i := ForcedStream(s[i])];
            (|KeptOf(after, Audio)| <= 1 || KeptOf(after, Subtitle) == []) <==> SoundOrText(probe)
  {
    var s := Draft(probe, o, primary).streams;
    FirstIsFirst(s);
    KeptAfterForcing(s, i);
    EverySoundIsKept(probe, o, primary);
    TextIsKept(probe, o, primary);
  }

  /** A forced plan is built exactly if the source has sound, given the encoder's own needs. */
  lemma {:induction false} ForcedPlanBuilds(
    probe: Probe, o: Options, a: Analysis, req: Argv.Request, primary: nat)
    requires PlanOf(probe, o) == Success(a) && PrimaryVideo(Videos(probe)) == Some(primary)
    requires Forced(a.plan).Some?
    requires RequestFor(req, Forced(a.plan).value, o, Videos(probe)[primary]) && EncoderReady(req)
    ensures Build(req).Success? <==> Audios(probe) != []
  {
    var s, i := Draft(probe, o, primary).streams, FirstKeptVideo(a.plan.streams).value;
    PlanStreams(probe, o, a, primary);
    ChangesOnlyTheVideo(a.plan);
    FirstIsFirst(s);
    KeptAfterForcing(s, i);
    EverySoundIsKept(probe, o, primary);
    BuildsExactly(req);
    SomeKept(req.plan.streams, Audio);
    SomeKept(req.plan.streams, Video);
    forall p | p in req.plan.streams && p.Kept() && p.kind != OtherType ensures HasCodec(p) {
      var j :| 0 <= j < |req.plan.streams| && req.plan.streams[j] == p;
      if j != i {
        DraftAt(probe, o, primary, j);
        PlannedHasCodec(probe, o, primary, p);
      }
    }
  }
}
