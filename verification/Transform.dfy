/** The record of what a job did to each track: predicted when it is queued, measured when it is done. */
module Transform {
  import opened Wrappers
  import opened Media
  import opened Policy
  import opened Decide
  import opened Argv
  import opened Ffmpeg
  import opened Realise
  import opened Validator
  import opened Converge
  import opened PlanFacts

  datatype AudioState = AudioState(codec: Codec, profile: Profile, channels: int)
  datatype SubtitleState = SubtitleState(codec: Codec, forced: bool)

  /** One track's line in the record; after is the prediction until the output has been measured. */
  datatype Track<S> = Track(source: nat, output: Option<nat>, action: Decision, before: S, after: Option<S>)

  function AudioOf(s: Stream): AudioState {
    AudioState(s.codec, s.profile, s.channels)
  }

  function SubtitleOf(s: Stream): SubtitleState {
    SubtitleState(s.codec, s.flags.forced)
  }

  /** The stream at a source ordinal, or an empty one. */
  function SourceStream(probe: Probe, kind: StreamType, ordinal: nat): Option<Stream> {
    var s := StreamsOfType(probe.streams, kind);
    if ordinal < |s| then Some(s[ordinal]) else None
  }

  function AudioTrack(probe: Probe, sp: StreamPlan): Track<AudioState> {
    var src := SourceStream(probe, Audio, sp.source);
    var before := if src.Some? then AudioOf(src.value) else AudioState(NamedCodec(""), NO_PROFILE, 0);
    Track(sp.source, sp.output, sp.decision, before,
          match sp.decision
          case Drop => None
          case Copy => Some(before)
          case _ =>
            var codec := if sp.target.Some? then Produces(sp.target.value) else NamedCodec("");
            Some(AudioState(codec, NO_PROFILE, sp.channels)))
  }

  function SubtitleTrack(probe: Probe, sp: StreamPlan, c: Container): Track<SubtitleState> {
    var src := SourceStream(probe, Subtitle, sp.source);
    var before := SubtitleState(if src.Some? then src.value.codec else NamedCodec(""), sp.flags.forced);
    Track(sp.source, sp.output, sp.decision, before,
          match sp.decision
          case Drop => None
          case Convert => Some(SubtitleState(SubtitleTarget(c), sp.flags.forced))
          case _ => Some(before))
  }

  // ---------- merging the measurement ----------

  function AtOutputIndex(streams: seq<Stream>, index: Option<nat>): Option<Stream> {
    if index.Some? && index.value < |streams| then Some(streams[index.value]) else None
  }

  function Measured<S>(t: Track<S>, streams: seq<Stream>, measure: Stream -> S): Track<S> {
    match AtOutputIndex(streams, t.output)
    case None => t
    case Some(s) => t.(after := Some(measure(s)))
  }

  /** Overwrites each track's after in place; the before half is never touched. */
  method MergeAudio(tracks: array<Track<AudioState>>, out: Probe)
    modifies tracks
    ensures forall i :: 0 <= i < tracks.Length ==>
              tracks[i] == Measured(old(tracks[i]), StreamsOfType(out.streams, Audio), AudioOf)
  {
    var streams := StreamsOfType(out.streams, Audio);
    for i := 0 to tracks.Length
      invariant forall j :: 0 <= j < i ==> tracks[j] == Measured(old(tracks[j]), streams, AudioOf)
      invariant forall j :: i <= j < tracks.Length ==> tracks[j] == old(tracks[j])
    {
      var s := AtOutputIndex(streams, tracks[i].output);
      if s.Some? { tracks[i] := tracks[i].(after := Some(AudioOf(s.value))); }
    }
  }

  method MergeSubtitles(tracks: array<Track<SubtitleState>>, out: Probe)
    modifies tracks
    ensures forall i :: 0 <= i < tracks.Length ==>
              tracks[i] == Measured(old(tracks[i]), StreamsOfType(out.streams, Subtitle), SubtitleOf)
  {
    var streams := StreamsOfType(out.streams, Subtitle);
    for i := 0 to tracks.Length
      invariant forall j :: 0 <= j < i ==> tracks[j] == Measured(old(tracks[j]), streams, SubtitleOf)
      invariant forall j :: i <= j < tracks.Length ==> tracks[j] == old(tracks[j])
    {
      var s := AtOutputIndex(streams, tracks[i].output);
      if s.Some? { tracks[i] := tracks[i].(after := Some(SubtitleOf(s.value))); }
    }
  }

  // ---------- the right measurement for the right track ----------

  /** A kept stream's index finds that very stream among the kept ones of its type. */
  lemma {:induction false} IndexFinds(plans: seq<StreamPlan>, i: nat)
    requires i < |plans| && plans[i].Kept()
    ensures var sp := Assigned(plans)[i];
            && sp.output.Some? && sp.output.value < |KeptOf(Assigned(plans), sp.kind)|
            && KeptOf(Assigned(plans), sp.kind)[sp.output.value] == sp
  {
    var all := Assigned(plans);
    var sp := all[i];
    AssignedPrefix(plans, i, sp.kind);
    assert all == all[..i] + all[i..];
    KeptOfConcat(all[..i], all[i..], sp.kind);
    assert sp == AssignedAt(plans, i) && all[i..][0] == sp;
    assert KeptOf(all[i..], sp.kind)[0] == sp;
  }

  /** What sits at a kept stream's index in the output is that stream's own source, as the plan wanted it. */
  lemma {:induction false} OutputAtIndex(
    req: Request, cmd: Command, probe: Probe, free: Choices, plans: seq<StreamPlan>, i: nat)
    requires Build(req) == Success(cmd) && Sourced(req, probe)
    requires req.plan.streams == Assigned(plans) && i < |plans| && plans[i].Kept() && plans[i].kind != OtherType
    ensures Runs(cmd.args, probe, free)
    ensures var sp := Assigned(plans)[i];
            && !LacksCodec(sp) && sp.source < |StreamsOfType(probe.streams, sp.kind)|
            && AtOutputIndex(StreamsOfType(OutputOf(cmd.args, probe, free).streams, sp.kind), sp.output)
               == Some(Realised(req.plan, sp, SourceOf(probe, sp), free(sp.kind, sp.output.value)))
  {
    IndexFinds(plans, i);
    OutputStreamsByType(req, cmd, probe, free);
    var sp := Assigned(plans)[i];
    assert sp.kind == plans[i].kind;
    assert sp in KeptOf(req.plan.streams, sp.kind);
  }

  lemma {:induction false} ItRuns(req: Request, cmd: Command, probe: Probe, free: Choices)
    requires Build(req) == Success(cmd) && Sourced(req, probe)
    ensures Runs(cmd.args, probe, free)
  {
    BuildRealisesThePlan(req, cmd, probe, free);
  }

  /** A copy is predicted exactly; an encode up to the profile, which the prediction leaves empty. */
  lemma {:induction false} AudioPrediction(p: Plan, sp: StreamPlan, probe: Probe, free: Freedom)
    requires sp.kind == Audio && sp.Kept() && !LacksCodec(sp) && (sp.decision != Copy ==> sp.channels > 0)
    requires sp.source < |StreamsOfType(probe.streams, Audio)|
    ensures AudioTrack(probe, sp).after.Some?
    ensures var predicted := AudioTrack(probe, sp).after.value;
            AudioOf(Realised(p, sp, SourceOf(probe, sp), free)) ==
            if sp.decision == Copy then predicted else predicted.(profile := free.profile)
  {
  }

  lemma {:induction false} SubtitlePrediction(p: Plan, sp: StreamPlan, probe: Probe, free: Freedom)
    requires sp.kind == Subtitle && !LacksCodec(sp) && (sp.decision == Copy || sp.decision == Convert)
    requires sp.decision == Convert ==> sp.target == Some(SubtitleEncoder(p.container))
    requires sp.source < |StreamsOfType(probe.streams, Subtitle)|
    ensures SubtitleTrack(probe, sp, p.container).after == Some(SubtitleOf(Realised(p, sp, SourceOf(probe, sp), free)))
  {
  }

  /** The before half of the record is the source stream as it was, for a track that is dropped too. */
  lemma {:induction false} RecordsTheSource(probe: Probe, o: Options, a: Analysis, primary: nat, i: nat)
    requires PlanOf(probe, o) == Success(a) && PrimaryVideo(Videos(probe)) == Some(primary)
    ensures i < |Audios(probe)| ==>
              && |Videos(probe)| + i < |a.plan.streams|
              && AudioTrack(probe, a.plan.streams[|Videos(probe)| + i]).before == AudioOf(Audios(probe)[i])
    ensures i < |Subtitles(probe)| ==>
              && |Videos(probe)| + |Audios(probe)| + i < |a.plan.streams|
              && SubtitleTrack(probe, a.plan.streams[|Videos(probe)| + |Audios(probe)| + i], a.plan.container).before
                 == SubtitleOf(Subtitles(probe)[i])
  {
    if i < |Audios(probe)| { SoundDecided(probe, o, a, primary, i); }
    if i < |Subtitles(probe)| { SubtitleDecided(probe, o, a, primary, i); }
  }

  /** The record of a track with the profile its encoder gave it. */
  function WithProfile(t: Track<AudioState>, profile: Profile): Track<AudioState> {
    match t.after
    case None => t
    case Some(after) => t.(after := Some(after.(profile := profile)))
  }

  /**
   After the merge, an audio track holds what was measured of the output stream its own source became: the codec and
   channels the record predicted, and for an encode the profile the encoder gave it, so that merging changes the
   record exactly when it encoded a track and got a profile. A dropped track is as it was.
   */
  lemma {:induction false} AudioMeasuredAsPredicted(
    req: Request, cmd: Command, probe: Probe, free: Choices, plans: seq<StreamPlan>, i: nat)
    requires Build(req) == Success(cmd) && Sourced(req, probe)
    requires req.plan.streams == Assigned(plans) && i < |plans| && plans[i].kind == Audio
    requires plans[i].decision != Copy ==> plans[i].channels > 0
    requires !plans[i].Kept() ==> plans[i].output == None
    ensures Runs(cmd.args, probe, free)
    ensures var t := AudioTrack(probe, Assigned(plans)[i]);
            var merged := Measured(t, StreamsOfType(OutputOf(cmd.args, probe, free).streams, Audio), AudioOf);
            var encoded := plans[i].Kept() && plans[i].decision != Copy;
            && (encoded ==> t.output.Some?)
            && merged == (if encoded then WithProfile(t, free(Audio, t.output.value).profile) else t)
            && (merged == t <==> !encoded || free(Audio, t.output.value).profile == NO_PROFILE)
  {
    var sp := Assigned(plans)[i];
    assert sp == AssignedAt(plans, i);
    ItRuns(req, cmd, probe, free);
    if sp.Kept() {
      OutputAtIndex(req, cmd, probe, free, plans, i);
      AudioPrediction(req.plan, sp, probe, free(Audio, sp.output.value));
    }
  }

  /** The same for a subtitle track: the codec of the conversion, and the forced flag of the source. */
  lemma {:induction false} SubtitleMeasuredAsPredicted(
    req: Request, cmd: Command, probe: Probe, free: Choices, plans: seq<StreamPlan>, i: nat)
    requires Build(req) == Success(cmd) && Sourced(req, probe)
    requires req.plan.streams == Assigned(plans) && i < |plans| && plans[i].kind == Subtitle
    requires plans[i].decision != Encode
    requires plans[i].decision == Convert ==> plans[i].target == Some(SubtitleEncoder(req.plan.container))
    requires !plans[i].Kept() ==> plans[i].output == None
    ensures Runs(cmd.args, probe, free)
    ensures var t := SubtitleTrack(probe, Assigned(plans)[i], req.plan.container);
            Measured(t, StreamsOfType(OutputOf(cmd.args, probe, free).streams, Subtitle), SubtitleOf) == t
  {
    var sp := Assigned(plans)[i];
    assert sp == AssignedAt(plans, i);
    ItRuns(req, cmd, probe, free);
    if sp.Kept() {
      OutputAtIndex(req, cmd, probe, free, plans, i);
      SubtitlePrediction(req.plan, sp, probe, free(Subtitle, sp.output.value));
    }
  }
}
