/** The plan read off the source's own streams: which are encoded, into what, and what is done to the picture. */
module PlanFacts {
  import opened Wrappers
  import opened Media
  import opened Policy
  import opened Decide
  import opened Converge
  import V = Validator

  // ---------- the picture ----------

  /** What the plan takes the scan to be: the idet answer where there is one, and the field order only without it. */
  predicate ToldInterlaced(video: Stream, idet: Option<Scan>) {
    idet == Some(Interlaced) || (idet == None && video.fieldOrder == FieldsInterlaced)
  }

  /** A picture every target plays, but for its scan and, for H.264, its level. */
  predicate PlaysButForLevel(video: Stream) {
    && video.chroma == Chroma420
    && match video.codec
       case H264 => video.profile in {ConstrainedBaseline, Baseline, Main, High}
       case Hevc => video.profile in {Main, Main10}
       case _ => false
  }

  /** HEVC of any level, and H.264 up to 4.2. */
  predicate LevelPlays(video: Stream) {
    video.codec == H264 ==> 0 < video.level <= 42
  }

  /** H.264 that says more than 4.2 while its picture, rate and references fit 4.2. */
  predicate LevelOverstated(video: Stream) {
    && video.codec == H264 && video.level > 42
    && 0 < video.width <= 1920 && 0 < video.height <= 1088 && 0.0 < video.frameRate <= 60.0 && 1 <= video.refs <= 4
  }

  lemma {:induction false} FailuresExactly(video: Stream, scan: Scan)
    ensures CopyFailures(video, scan) == [] <==> scan == Progressive && PlaysButForLevel(video) && LevelPlays(video)
    ensures CopyFailures(video, scan) == [BadLevel] <==>
              scan == Progressive && PlaysButForLevel(video) && !LevelPlays(video)
  {
    FailuresOf(video, scan);
    var f := CopyFailures(video, scan);
    if scan == Progressive && PlaysButForLevel(video) && LevelPlays(video) {
      NoFailures(f);
    }
    if f == [BadLevel] {
      assert BadLevel in f && BadCodec !in f && BadProfile !in f && BadChroma !in f && BadScan !in f;
    }
  }

  /** The verdict on a picture: encoded unless it plays, or only overstates its level, or its Dolby Vision forbids. */
  lemma {:induction false} VerdictExactly(video: Stream, idet: Option<Scan>)
    ensures var v := VerdictOf(video, idet);
      var plays := !ToldInterlaced(video, idet) && PlaysButForLevel(video);
      && (v.decision == Copy || v.decision == Encode)
      && (v.decision == Copy <==>
            video.dolby == Some(5) || (plays && (LevelPlays(video) || LevelOverstated(video))))
      && (v.levelRewrite <==> plays && LevelOverstated(video) && video.dolby != Some(5))
      && (v.deinterlace <==> v.decision == Encode && ToldInterlaced(video, idet))
      && (v.needsIdet <==>
            && v.decision == Encode && idet == None && video.fieldOrder == FieldsUnknown
            && (video.codec == Mpeg2Video || video.codec == Vc1))
  {
    var scan := ResolveScan(video, idet).0;
    assert scan == Interlaced <==> ToldInterlaced(video, idet);
    FailuresExactly(video, scan);
  }

  lemma {:induction false} PlanParts(probe: Probe, o: Options, a: Analysis, primary: nat)
    requires PlanOf(probe, o) == Success(a) && PrimaryVideo(Videos(probe)) == Some(primary)
    ensures var video := Videos(probe)[primary];
      var v := VerdictOf(video, o.idet);
      && a.plan.streams == Draft(probe, o, primary).streams && a.plan.kind == DeriveKind(Draft(probe, o, primary))
      && a.plan.levelRewrite == v.levelRewrite && a.plan.deinterlace == v.deinterlace && a.needsIdet == v.needsIdet
      && a.plan.dolby == video.dolby && a.plan.hdrTransfer == None && a.plan.targetBitrate == 0
      && (a.plan.hdr <==> video.transfer == Pq || video.transfer == Hlg)
      && a.plan.container == (if o.ext == DotMp4 || o.ext == DotM4v then MP4 else Matroska)
  {
  }

  /**
   What a plan does to the picture: the one kept video stream is the primary one, encoded unless it plays as it is or
   with its level corrected, and deinterlaced exactly when it is encoded and the idet answer, or without one the field
   order, says interlaced. An idet answer is owed exactly for an encode from an old codec that does not tell its fields.
   */
  lemma {:induction false} PictureDecided(probe: Probe, o: Options, a: Analysis, primary: nat)
    requires PlanOf(probe, o) == Success(a) && PrimaryVideo(Videos(probe)) == Some(primary)
    ensures var video := Videos(probe)[primary];
      var plays := !ToldInterlaced(video, o.idet) && PlaysButForLevel(video);
      |KeptOf(a.plan.streams, Video)| == 1 &&
      var vp := KeptOf(a.plan.streams, Video)[0];
      && vp.source == primary && (vp.decision == Encode ==> vp.target == Some(HevcEncoder))
      && (vp.decision == Copy || vp.decision == Encode)
      && (vp.decision == Copy <==>
            video.dolby == Some(5) || (plays && (LevelPlays(video) || LevelOverstated(video))))
      && (a.plan.levelRewrite <==> plays && LevelOverstated(video) && video.dolby != Some(5))
      && (a.plan.deinterlace <==> vp.decision == Encode && ToldInterlaced(video, o.idet))
      && (a.needsIdet <==>
            && vp.decision == Encode && o.idet == None && video.fieldOrder == FieldsUnknown
            && (video.codec == Mpeg2Video || video.codec == Vc1))
  {
    PlanParts(probe, o, a, primary);
    VerdictExactly(Videos(probe)[primary], o.idet);
    DraftKeepsThePrimary(probe, o, primary);
    DraftAt(probe, o, primary, primary);
  }

  // ---------- sound and subtitles ----------

  /** Sound every target plays; MP3 only in stereo. */
  predicate SoundPlays(s: Stream) {
    s.codec in {Aac, Ac3, Eac3} || (s.codec == Mp3 && s.channels <= 2)
  }

  /** The labels of the source, und where it names no language. */
  predicate LabelledAs(p: StreamPlan, s: Stream) {
    p.language == (if s.language == "" then "und" else s.language) && p.title == s.title && p.flags == s.flags
  }

  /**
   Kept as it is if it plays, and else as AAC, or AC-3 for surround in Matroska, with the source's channels as far as
   there are at least one and at most six.
   */
  predicate SoundAsDecided(p: StreamPlan, s: Stream, c: Container) {
    if SoundPlays(s) then p.decision == Copy && p.target == None
    else
      && p.decision == Encode
      && p.channels == (if s.channels < 1 then 1 else if s.channels > 6 then 6 else s.channels)
      && p.target == Some(if p.channels > 2 && c == Matroska then Ac3Encoder else AacEncoder)
      && p.bitrate == (if p.target == Some(Ac3Encoder) then 640_000 else if p.channels == 1 then 96_000
                       else if p.channels == 2 then 160_000 else 64_000 * p.channels)
  }

  lemma {:induction false} SoundPlanExactly(i: nat, s: Stream, c: Container)
    ensures var p := AudioPlan(i, s, c).(output := Some(i));
            p.kind == Audio && p.source == i && LabelledAs(p, s) && SoundAsDecided(p, s, c)
  {
  }

  lemma {:induction false} DraftedSound(probe: Probe, o: Options, primary: nat, i: nat)
    requires primary < |Videos(probe)| && i < |Audios(probe)|
    ensures |Videos(probe)| + i < |Draft(probe, o, primary).streams|
    ensures Draft(probe, o, primary).streams[|Videos(probe)| + i]
         == AudioPlan(i, Audios(probe)[i], ContainerFor(o.ext)).(output := Some(i))
  {
    DraftLength(probe, o, primary);
    DraftAt(probe, o, primary, |Videos(probe)| + i);
    V.SoundIndex(probe, o, primary, i);
  }

  /** Each sound stream is kept under its own labels and ordinal, decided by what it is and the container. */
  lemma {:induction false} SoundDecided(probe: Probe, o: Options, a: Analysis, primary: nat, i: nat)
    requires PlanOf(probe, o) == Success(a) && PrimaryVideo(Videos(probe)) == Some(primary) && i < |Audios(probe)|
    ensures |Videos(probe)| + i < |a.plan.streams|
    ensures var p := a.plan.streams[|Videos(probe)| + i];
      && p.kind == Audio && p.source == i && p.output == Some(i)
      && LabelledAs(p, Audios(probe)[i]) && SoundAsDecided(p, Audios(probe)[i], a.plan.container)
  {
    PlanParts(probe, o, a, primary);
    DraftedSound(probe, o, primary, i);
    SoundPlanExactly(i, Audios(probe)[i], a.plan.container);
  }

  /** Kept in text, as it is if it is in the container's own codec and else converted to that; dropped in pictures. */
  predicate SubtitleAsDecided(p: StreamPlan, s: Stream, c: Container) {
    if s.codec !in {Subrip, Ass, Ssa, Webvtt, MovText} then p.decision == Drop
    else if s.codec == (if c == MP4 then MovText else Subrip) then p.decision == Copy
    else p.decision == Convert && p.target == Some(if c == MP4 then MovTextEncoder else SrtEncoder)
  }

  lemma {:induction false} SubtitlePlanExactly(i: nat, s: Stream, c: Container, output: Option<nat>)
    ensures var p := SubtitlePlan(i, s, c).(output := output);
            p.kind == Subtitle && p.source == i && LabelledAs(p, s) && SubtitleAsDecided(p, s, c)
  {
  }

  lemma {:induction false} DraftedSubtitle(probe: Probe, o: Options, primary: nat, i: nat) returns (output: Option<nat>)
    requires primary < |Videos(probe)| && i < |Subtitles(probe)|
    ensures |Videos(probe)| + |Audios(probe)| + i < |Draft(probe, o, primary).streams|
    ensures Draft(probe, o, primary).streams[|Videos(probe)| + |Audios(probe)| + i]
         == SubtitlePlan(i, Subtitles(probe)[i], ContainerFor(o.ext)).(output := output)
  {
    var j := |Videos(probe)| + |Audios(probe)| + i;
    DraftLength(probe, o, primary);
    DraftAt(probe, o, primary, j);
    output := Draft(probe, o, primary).streams[j].output;
    PlannedSubtitleIs(probe, o, primary, Draft(probe, o, primary).streams[j]);
  }

  lemma {:induction false} PlannedSubtitleIs(probe: Probe, o: Options, primary: nat, p: StreamPlan)
    requires primary < |Videos(probe)| && PlannedFor(probe, o, primary, p) && p.kind == Subtitle
    ensures p.source < |Subtitles(probe)|
    ensures p == SubtitlePlan(p.source, Subtitles(probe)[p.source], ContainerFor(o.ext)).(output := p.output)
  {
    assert p == p.(output := None).(output := p.output);
  }

  /** Each subtitle keeps its labels, and is kept or dropped by what it is and the container. */
  lemma {:induction false} SubtitleDecided(probe: Probe, o: Options, a: Analysis, primary: nat, i: nat)
    requires PlanOf(probe, o) == Success(a) && PrimaryVideo(Videos(probe)) == Some(primary) && i < |Subtitles(probe)|
    ensures |Videos(probe)| + |Audios(probe)| + i < |a.plan.streams|
    ensures var p := a.plan.streams[|Videos(probe)| + |Audios(probe)| + i];
      && p.kind == Subtitle && p.source == i
      && LabelledAs(p, Subtitles(probe)[i]) && SubtitleAsDecided(p, Subtitles(probe)[i], a.plan.container)
  {
    PlanParts(probe, o, a, primary);
    var output := DraftedSubtitle(probe, o, primary, i);
    SubtitlePlanExactly(i, Subtitles(probe)[i], a.plan.container, output);
  }

  // ---------- when there is a plan, and what it is called ----------

  /** The primary video stream is the first that is not cover art. */
  lemma {:induction false} PrimaryIsFirst(videos: seq<Stream>)
    ensures match PrimaryVideo(videos)
            case None => forall i :: 0 <= i < |videos| ==> videos[i].attachedPic
            case Some(k) =>
              k < |videos| && !videos[k].attachedPic && forall i :: 0 <= i < k ==> videos[i].attachedPic
  {
    if videos != [] && videos[0].attachedPic {
      PrimaryIsFirst(videos[1..]);
      if PrimaryVideo(videos[1..]).None? {
        forall i | 0 <= i < |videos| ensures videos[i].attachedPic {
          assert i > 0 ==> videos[i] == videos[1..][i-1];
        }
      } else {
        forall i | 0 <= i < PrimaryVideo(videos).value ensures videos[i].attachedPic {
          assert i > 0 ==> videos[i] == videos[1..][i-1];
        }
      }
    }
  }

  /** The demuxer list names a container that is this one first. */
  ghost predicate AlreadyIn(names: seq<FormatName>, c: Container) {
    exists i :: 0 <= i < |names| && names[i] == Family(c) && forall j :: 0 <= j < i ==> !names[j].Family?
  }

  lemma {:induction false} FormatExactly(names: seq<FormatName>, c: Container)
    ensures NormaliseFormatName(names) == Family(c) <==> AlreadyIn(names, c)
  {
    FamilyExactly(names, c);
  }

  lemma {:induction false} FamilyExactly(names: seq<FormatName>, c: Container)
    ensures FirstFamily(names) == Some(c) <==> AlreadyIn(names, c)
    ensures FirstFamily(names) == None <==> forall n :: n in names ==> !n.Family?
  {
    if names != [] && !names[0].Family? {
      FamilyExactly(names[1..], c);
      if AlreadyIn(names[1..], c) {
        var t := names[1..];
        var i :| 0 <= i < |t| && t[i] == Family(c) && forall j :: 0 <= j < i ==> !t[j].Family?;
        assert names[i+1] == Family(c) && forall j :: 0 < j < i + 1 ==> names[j] == t[j-1];
      }
      if AlreadyIn(names, c) {
        var i :| 0 <= i < |names| && names[i] == Family(c) && forall j :: 0 <= j < i ==> !names[j].Family?;
        assert names[1..][i-1] == Family(c) && forall j :: 0 <= j < i - 1 ==> !names[1..][j].Family?;
      }
    }
  }

  /** The labels of a plan say what there is to do, and with none of them there is nothing. */
  lemma {:induction false} KindDecided(probe: Probe, o: Options, a: Analysis, primary: nat)
    requires PlanOf(probe, o) == Success(a) && PrimaryVideo(Videos(probe)) == Some(primary)
    ensures |KeptOf(a.plan.streams, Video)| == 1
    ensures a.plan.kind.video <==> KeptOf(a.plan.streams, Video)[0].decision == Encode
    ensures a.plan.kind.audio <==> exists s :: s in Audios(probe) && !SoundPlays(s)
    ensures a.plan.kind.subtitles <==>
              exists s :: s in Subtitles(probe) && s.codec != (if a.plan.container == MP4 then MovText else Subrip)
    ensures a.plan.kind.remux <==> a.plan.levelRewrite || !AlreadyIn(probe.formatNames, a.plan.container)
  {
    PlanParts(probe, o, a, primary);
    DraftKeepsThePrimary(probe, o, primary);
    SoundWork(probe, o, primary);
    forall s: Stream ensures OnAudioCopyList(s.codec, s.channels) <==> SoundPlays(s) {}
    SubtitleWork(probe, o, primary);
    FormatExactly(probe.formatNames, a.plan.container);
  }

  /** Planning fails only for want of a picture, or of sound where there is something to do. */
  lemma {:induction false} PlanFails(probe: Probe, o: Options)
    ensures PlanOf(probe, o) == Failure(NoVideoStream) <==> forall s :: s in Videos(probe) ==> s.attachedPic
    ensures PlanOf(probe, o) == Failure(NoAudioStreams) ==> Audios(probe) == []
    ensures Audios(probe) == [] && PlanOf(probe, o).Success? ==> PlanOf(probe, o).value.plan.kind.Skip()
  {
    PrimaryIsFirst(Videos(probe));
    if PrimaryVideo(Videos(probe)).Some? {
      var k := PrimaryVideo(Videos(probe)).value;
      assert Videos(probe)[k] in Videos(probe);
      if Audios(probe) == [] {
        NoSoundOut(probe, o, k);
      } else {
        V.SoundIndex(probe, o, k, 0);
        DraftAt(probe, o, k, |Videos(probe)|);
        assert Draft(probe, o, k).streams[|Videos(probe)|] in Draft(probe, o, k).streams;
      }
    }
  }

  lemma {:induction false} NoSoundOut(probe: Probe, o: Options, primary: nat)
    requires primary < |Videos(probe)| && Audios(probe) == []
    ensures !HasOutputAudio(Draft(probe, o, primary).streams)
  {
    var streams := Draft(probe, o, primary).streams;
    forall p | p in streams ensures p.kind != Audio {
      var i :| 0 <= i < |streams| && streams[i] == p;
      DraftAt(probe, o, primary, i);
    }
  }

  /** An output keeps the extension of an MP4 source, and is otherwise a Matroska file. */
  lemma {:induction false} ExtensionKept(ext: Extension)
    ensures OutputExtension(ContainerFor(ext), ext) == if ext == DotMp4 || ext == DotM4v then ext else DotMkv
  {
  }

  /** A level is ten times the number of H.264's, and thirty times that of HEVC's. */
  lemma {:induction false} LevelsInTenths(s: Stream, tenths: int)
    requires tenths > 0
    ensures s.codec == H264 && s.level == tenths ==> s.LevelTenths() == Some(tenths)
    ensures s.codec == Hevc && s.level == 3 * tenths ==> s.LevelTenths() == Some(tenths)
    ensures s.level <= 0 || (s.codec != H264 && s.codec != Hevc) ==> s.LevelTenths() == None
  {
  }

  /**
   When a plan's output is planned as "nothing to do": for every source but one whose flagged fields an idet answer
   denied, and a profile 5 picture in MP4 that loses its record and does not play as it is.
   */
  lemma {:induction false} SettlesExactly(video: Stream, idet: Option<Scan>, c: Container)
    ensures Settles(video, idet, c) <==>
              if video.dolby == Some(5) then
                c == MP4 && video.codec != Hevc ==>
                  PlaysButForLevel(video) && LevelPlays(video) && video.fieldOrder != FieldsInterlaced
              else video.fieldOrder != FieldsInterlaced || idet != Some(Progressive)
  {
    FailuresExactly(video, if video.HasInterlacedFields() then Interlaced else Progressive);
  }
}
