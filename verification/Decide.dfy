/** The decision engine: from a probe to a plan. */
module Decide {
  import opened Wrappers
  import opened Media
  import opened Policy

  /** ext is the library path's extension; idet is the answer to an earlier idet sample, if one was taken. */
  datatype Options = Options(ext: Extension, idet: Option<Scan>)

  datatype Failure = BadCodec | BadProfile | BadLevel | BadChroma | BadScan

  datatype VideoVerdict = VideoVerdict(decision: Decision, levelRewrite: bool, deinterlace: bool, needsIdet: bool)

  datatype PlanError = NoVideoStream | NoAudioStreams

  datatype Analysis = Analysis(plan: Plan, needsIdet: bool)

  // ---------- scan type and the video copy test ----------

  /** The scan type to plan with, and whether an idet sample is owed. */
  function ResolveScan(video: Stream, idet: Option<Scan>): (Scan, bool) {
    match idet
    case Some(Interlaced) => (Interlaced, false)
    case Some(Progressive) => (Progressive, false)
    case None =>
      if video.HasInterlacedFields() then (Interlaced, false)
      else (Progressive, video.fieldOrder == FieldsUnknown && IsLegacyScanCodec(video.codec))
  }

  function CopyFailures(s: Stream, scan: Scan): seq<Failure> {
    var scanFailure := if scan == Interlaced then [BadScan] else [];
    if !OnVideoCopyList(s.codec) then [BadCodec] + scanFailure
    else
      (if s.profile == NO_PROFILE || !OnProfileCopyList(s.codec, s.profile) then [BadProfile] else [])
      + (if LevelFails(s) then [BadLevel] else [])
      + (if s.chroma != Chroma420 then [BadChroma] else [])
      + scanFailure
  }

  /** The level ceiling applies to H.264 only, and an unknown level fails it. */
  predicate LevelFails(s: Stream) {
    s.codec == H264 &&
    match s.LevelTenths()
    case None => true
    case Some(l) => l > H264_MAX_LEVEL_TENTHS
  }

  predicate LevelRewriteApplies(s: Stream) {
    && s.LevelTenths().Some?
    && 0 < s.width <= LEVEL_REWRITE_MAX_WIDTH
    && 0 < s.height <= LEVEL_REWRITE_MAX_HEIGHT
    && 0.0 < s.frameRate <= LEVEL_REWRITE_MAX_FPS
    && 1 <= s.refs <= LEVEL_REWRITE_MAX_REFS
  }

  function PlanVideo(s: Stream, scan: Scan, idetPending: bool): VideoVerdict {
    var fails := CopyFailures(s, scan);
    if fails == [] then VideoVerdict(Copy, false, false, false)
    else if s.dolby == Some(NO_ENCODE_DOLBY_PROFILE) then VideoVerdict(Copy, false, false, false)
    else if fails == [BadLevel] && LevelRewriteApplies(s) then VideoVerdict(Copy, true, false, false)
    else VideoVerdict(Encode, false, scan == Interlaced, idetPending)
  }

  // ---------- per-stream plans ----------

  function BasePlan(kind: StreamType, ordinal: nat, s: Stream): StreamPlan {
    StreamPlan(kind, ordinal, None, Copy, None, 0, 0, s.LanguageOrUnd(), s.title, s.flags)
  }

  function VideoPlan(ordinal: nat, s: Stream, primary: nat, v: VideoVerdict): StreamPlan {
    var p := BasePlan(Video, ordinal, s);
    if ordinal != primary then p.(decision := Drop)
    else if v.decision == Encode then p.(decision := Encode, target := Some(HevcEncoder))
    else p.(decision := v.decision)
  }

  function AudioPlan(ordinal: nat, s: Stream, c: Container): StreamPlan {
    var p := BasePlan(Audio, ordinal, s);
    if OnAudioCopyList(s.codec, s.channels) then p
    else
      var t := AudioEncodeTarget(c, s.channels);
      p.(decision := Encode, target := Some(t.encoder), bitrate := t.bitrate, channels := t.channels)
  }

  function SubtitlePlan(ordinal: nat, s: Stream, c: Container): StreamPlan {
    var p := BasePlan(Subtitle, ordinal, s);
    if !IsTextSubtitle(s.codec) then p.(decision := Drop)
    else if s.codec == SubtitleTarget(c) then p
    else p.(decision := Convert, target := Some(SubtitleEncoder(c)))
  }

  function VideoPlans(videos: seq<Stream>, primary: nat, v: VideoVerdict): seq<StreamPlan> {
    seq(|videos|, i requires 0 <= i < |videos| => VideoPlan(i, videos[i], primary, v))
  }

  function AudioPlans(audios: seq<Stream>, c: Container): seq<StreamPlan> {
    seq(|audios|, i requires 0 <= i < |audios| => AudioPlan(i, audios[i], c))
  }

  function SubtitlePlans(subtitles: seq<Stream>, c: Container): seq<StreamPlan> {
    seq(|subtitles|, i requires 0 <= i < |subtitles| => SubtitlePlan(i, subtitles[i], c))
  }

  // ---------- output indices ----------

  /** Every kept stream numbered by how many kept streams of its type come before it. */
  function Assigned(plans: seq<StreamPlan>): seq<StreamPlan> {
    seq(|plans|, i requires 0 <= i < |plans| => AssignedAt(plans, i))
  }

  function AssignedAt(plans: seq<StreamPlan>, i: nat): StreamPlan
    requires i < |plans|
  {
    if plans[i].Kept() then plans[i].(output := Some(|KeptOf(plans[..i], plans[i].kind)|)) else plans[i]
  }

  /** Numbers the kept streams in place, with one counter for each type. */
  method AssignOutputIndices(plans: array<StreamPlan>)
    modifies plans
    ensures plans[..] == Assigned(old(plans[..]))
  {
    ghost var was := plans[..];
    var next: map<StreamType, nat> := map[];
    for i := 0 to plans.Length
      invariant plans[i..] == was[i..]
      invariant plans[..i] == Assigned(was)[..i]
      invariant forall k :: (if k in next then next[k] else 0) == |KeptOf(was[..i], k)|
    {
      assert plans[i] == plans[i..][0] == was[i..][0] == was[i];
      forall k ensures KeptOf(was[..i+1], k)
         == KeptOf(was[..i], k) + if was[i].kind == k && was[i].Kept() then [was[i]] else []
      {
        KeptOfSnoc(was, i, k);
      }
      if plans[i].decision != Drop {
        var idx := if plans[i].kind in next then next[plans[i].kind] else 0;
        plans[i] := plans[i].(output := Some(idx));
        next := next[plans[i].kind := idx + 1];
      }
      assert plans[i] == AssignedAt(was, i);
      assert plans[i+1..] == was[i..][1..];
    }
    assert plans[..] == plans[..plans.Length];
  }

  // ---------- the plan ----------

  function VideoWork(streams: seq<StreamPlan>): bool {
    var v := VideoStream(streams);
    v.Some? && v.value.decision == Encode
  }

  predicate HasWork(streams: seq<StreamPlan>, kind: StreamType) {
    exists p :: p in streams && p.kind == kind && p.decision != Copy
  }

  function DeriveKind(p: Plan): Kind {
    Kind(
      VideoWork(p.streams),
      HasWork(p.streams, Audio),
      HasWork(p.streams, Subtitle),
      p.levelRewrite || p.sourceContainer != Family(p.container))
  }

  predicate HasOutputAudio(streams: seq<StreamPlan>) {
    exists p :: p in streams && p.kind == Audio && p.output.Some?
  }

  function StreamPlans(
    videos: seq<Stream>, audios: seq<Stream>, subtitles: seq<Stream>, primary: nat, v: VideoVerdict, c: Container)
    : seq<StreamPlan>
  {
    VideoPlans(videos, primary, v) + AudioPlans(audios, c) + SubtitlePlans(subtitles, c)
  }

  /** The plan before its kind is known, for the primary video stream at this ordinal. */
  function Draft(probe: Probe, o: Options, primary: nat): Plan
    requires primary < |StreamsOfType(probe.streams, Video)|
  {
    var videos := StreamsOfType(probe.streams, Video);
    var video := videos[primary];
    var c := ContainerFor(o.ext);
    var (scan, pending) := ResolveScan(video, o.idet);
    var v := PlanVideo(video, scan, pending);
    var audios, subtitles := StreamsOfType(probe.streams, Audio), StreamsOfType(probe.streams, Subtitle);
    var streams := StreamPlans(videos, audios, subtitles, primary, v, c);
    Plan(Kind(false, false, false, false), NormaliseFormatName(probe.formatNames), c, Assigned(streams),
         v.levelRewrite, v.deinterlace, video.IsHdr(), None, video.dolby, 0)
  }

  function PlanOf(probe: Probe, o: Options): Result<Analysis, PlanError> {
    var videos := StreamsOfType(probe.streams, Video);
    match PrimaryVideo(videos)
    case None => Failure(NoVideoStream)
    case Some(i) =>
      var draft := Draft(probe, o, i);
      var plan := draft.(kind := DeriveKind(draft));
      if !plan.kind.Skip() && !HasOutputAudio(plan.streams) then Failure(NoAudioStreams)
      else
        var (scan, pending) := ResolveScan(videos[i], o.idet);
        Success(Analysis(plan, PlanVideo(videos[i], scan, pending).needsIdet))
  }
}
