/** Inputs for which the program does not do what it is meant to; each exact condition fails on one of these. */
module Counterexamples {
  import opened Wrappers
  import opened Media
  import opened Policy
  import opened Decide
  import opened Argv
  import opened Ffmpeg
  import opened Converge
  import opened Validator
  import V = Verify
  import Numerals
  import CronBits
  import CronParse
  import CronText
  import Cron
  import Calendar

  // ---------- files ----------

  const PLAIN := Dispositions(false, false, false, false)

  function Picture(codec: Codec, fields: FieldOrder, transfer: Transfer, dolby: Option<int>): Stream {
    Stream(Video, codec, High, 40, 1920, 800, Chroma420, 24.0, 4, fields, transfer, dolby, 0, "", "", PLAIN, false)
  }

  function Sound(codec: Codec, channels: int, language: string): Stream {
    Stream(Audio, codec, NO_PROFILE, 0, 0, 0, OtherChroma(""), 0.0, 0, FieldsUnknown, OtherTransfer(""), None,
           channels, language, "", PLAIN, false)
  }

  function Text(language: string): Stream {
    Stream(Subtitle, Subrip, NO_PROFILE, 0, 0, 0, OtherChroma(""), 0.0, 0, FieldsUnknown, OtherTransfer(""), None,
           0, language, "", PLAIN, false)
  }

  const MKV := Options(DotMkv, None)
  const AV1 := NamedCodec("av1")
  const SDR := OtherTransfer("bt709")

  /** Two languages and a subtitle, one of the sound tracks in need of work. */
  function Film(): Probe {
    Probe([Family(Matroska)], map[],
          [Picture(H264, FieldsProgressive, SDR, None), Sound(Mp3, 6, "eng"), Sound(Aac, 2, "deu"), Text("eng")])
  }

  /** One picture with one sound track that needs work. */
  function Clip(picture: Stream): Probe {
    Probe([Family(Matroska)], map[], [picture, Sound(Mp3, 6, "eng")])
  }

  lemma {:induction false} FilmStreams()
    ensures Videos(Film()) == [Picture(H264, FieldsProgressive, SDR, None)]
    ensures Audios(Film()) == [Sound(Mp3, 6, "eng"), Sound(Aac, 2, "deu")] && Subtitles(Film()) == [Text("eng")]
  {
    var v, t := [Picture(H264, FieldsProgressive, SDR, None)], [Text("eng")];
    var a, b := [Sound(Mp3, 6, "eng")], [Sound(Aac, 2, "deu")];
    assert Film().streams == v + (a + b) + t;
    OutputByType(v, a + b, t);
  }

  lemma {:induction false} ClipStreams(picture: Stream)
    requires picture.kind == Video
    ensures Videos(Clip(picture)) == [picture]
    ensures Audios(Clip(picture)) == [Sound(Mp3, 6, "eng")] && Subtitles(Clip(picture)) == []
  {
    assert Clip(picture).streams == [picture] + [Sound(Mp3, 6, "eng")] + [];
    OutputByType([picture], [Sound(Mp3, 6, "eng")], []);
  }

  /** A file with a picture and a sound track in need of work has a plan, and the plan a command. */
  lemma {:induction false} Planned(probe: Probe, o: Options) returns (a: Analysis, req: Request, cmd: Command)
    requires |Videos(probe)| == 1 && !Videos(probe)[0].attachedPic
    requires exists s :: s in Audios(probe) && !OnAudioCopyList(s.codec, s.channels)
    ensures PrimaryVideo(Videos(probe)) == Some(0) && PlanOf(probe, o) == Success(a)
    ensures RequestFor(req, a.plan, o, Videos(probe)[0]) && Build(req) == Success(cmd)
  {
    SoundWork(probe, o, 0);
    SkipHasNoErrors(probe, o, 0);
    a := PlanOf(probe, o).value;
    var p := a.plan;
    var output := OutputExtension(p.container, o.ext);
    req := Request(p.(targetBitrate := 2_500_000), "in", Videos(probe)[0].codec, false, output,
                   "1", "p", Some(Software), "", false);
    EveryPlanBuilds(probe, o, a, 0, req);
    cmd := Build(req).value;
  }

  /** The film is planned and encoded, faithfully, and then refused, whatever its duration and size. */
  lemma {:induction false} FilmIsRefused(free: Choices, r: V.Request, duration: real, size: int)
    returns (a: Analysis, req: Request, cmd: Command)
    ensures PlanOf(Film(), MKV) == Success(a) && Build(req) == Success(cmd)
    ensures req.plan == a.plan.(targetBitrate := req.plan.targetBitrate)
    ensures Runs(cmd.args, Film(), free)
    ensures !V.Accepts(r.(plan := req.plan, sourceVideo := None), Staged(cmd.args, Film(), free, duration, size))
  {
    FilmStreams();
    assert Audios(Film())[0] in Audios(Film());
    a, req, cmd := Planned(Film(), MKV);
    AcceptableExactly(Film(), MKV, a, req, cmd, 0, free, r.(plan := req.plan, sourceVideo := None), duration, size);
    assert Subtitles(Film())[0] in Subtitles(Film());
  }

  lemma {:induction false} ClipPlan(picture: Stream, o: Options) returns (a: Analysis, req: Request, cmd: Command)
    requires picture.kind == Video && !picture.attachedPic
    ensures Videos(Clip(picture)) == [picture] && PrimaryVideo(Videos(Clip(picture))) == Some(0)
    ensures PlanOf(Clip(picture), o) == Success(a)
    ensures RequestFor(req, a.plan, o, picture) && Build(req) == Success(cmd)
  {
    ClipStreams(picture);
    assert Audios(Clip(picture))[0] in Audios(Clip(picture));
    a, req, cmd := Planned(Clip(picture), o);
  }

  /** The output of a clip is planned for work again. */
  ghost predicate WorkAgain(args: seq<Token>, probe: Probe, ext: Extension, free: Choices) {
    && Runs(args, probe, free)
    && var again := PlanOf(OutputOf(args, probe, free), Options(ext, None));
       again.Success? && !again.value.plan.kind.Skip()
  }

  /** A picture that does not settle comes round again, however faithfully its plan is followed. */
  lemma {:induction false} Unsettled(picture: Stream, o: Options, free: Choices)
    returns (a: Analysis, req: Request, cmd: Command)
    requires picture.kind == Video && !picture.attachedPic && !Settles(picture, o.idet, ContainerFor(o.ext))
    ensures PlanOf(Clip(picture), o) == Success(a) && RequestFor(req, a.plan, o, picture) && Build(req) == Success(cmd)
    ensures Videos(Clip(picture)) == [picture] && PrimaryVideo(Videos(Clip(picture))) == Some(0)
    ensures WorkAgain(cmd.args, Clip(picture), o.ext, free)
  {
    a, req, cmd := ClipPlan(picture, o);
    PlanningConverges(Clip(picture), o, a, req, cmd, 0, free);
  }

  /** Planned with an idet answer its own fields contradict, an interlaced picture is planned for work again. */
  lemma {:induction false} HiddenInterlacing(free: Choices) returns (a: Analysis, req: Request, cmd: Command)
    ensures var probe := Clip(Picture(AV1, FieldsInterlaced, SDR, None));
            && PlanOf(probe, Options(DotMkv, Some(Progressive))) == Success(a) && Build(req) == Success(cmd)
            && WorkAgain(cmd.args, probe, DotMkv, free)
  {
    a, req, cmd := Unsettled(Picture(AV1, FieldsInterlaced, SDR, None), Options(DotMkv, Some(Progressive)), free);
  }

  /**
   A profile 5 picture that is not HEVC is copied into MP4, loses its record, is refused, and would come round again.
   */
  lemma {:induction false} LostRecord(free: Choices, r: V.Request, duration: real, size: int)
    returns (a: Analysis, req: Request, cmd: Command)
    ensures var probe := Clip(Picture(AV1, FieldsProgressive, SDR, Some(5)));
            && PlanOf(probe, Options(DotMp4, None)) == Success(a) && Build(req) == Success(cmd)
            && WorkAgain(cmd.args, probe, DotMp4, free)
            && !V.Accepts(r.(plan := req.plan, sourceVideo := None), Staged(cmd.args, probe, free, duration, size))
  {
    var picture, o := Picture(AV1, FieldsProgressive, SDR, Some(5)), Options(DotMp4, None);
    a, req, cmd := Unsettled(picture, o, free);
    var request := r.(plan := req.plan, sourceVideo := None);
    AcceptableExactly(Clip(picture), o, a, req, cmd, 0, free, request, duration, size);
  }

  // ---------- cron expressions ----------

  /** A step of the largest integer, from minute 59, sets minute 57 as well. */
  lemma {:induction false} WrappedStep()
    ensures var item := CronText.Item(CronText.One(59), Some(Numerals.MAX_INT));
            var part := CronParse.PartOf(CronText.Render(item), 0, 59);
            part.Some? && 57 in CronParse.BitsOf(part.value) && 57 !in CronText.Meaning(item, 0, 59)
  {
    var item := CronText.Item(CronText.One(59), Some(Numerals.MAX_INT));
    CronText.ReadsItem(item, 0, 59);
    assert CronBits.Multiple(2, 2);
    assert CronBits.Above(59, 57, CronBits.Fall(Numerals.MAX_INT));
  }

  /** A range of one value with a step runs past its end. */
  lemma {:induction false} OneValueRangeRunsOn()
    ensures var item := CronText.Item(CronText.Range(3, 3), Some(2));
            var part := CronParse.PartOf(CronText.Render(item), 0, 59);
            part.Some? && 5 in CronParse.BitsOf(part.value) && 5 !in CronText.Meaning(item, 0, 59)
  {
    var item := CronText.Item(CronText.Range(3, 3), Some(2));
    CronText.ReadsItem(item, 0, 59);
    assert CronBits.Multiple(2, 2);
    assert CronBits.Above(5, 3, 2);
  }

  function LeapDayAtFour(): Cron.Schedule {
    Cron.Schedule({0}, {4}, {29}, {2}, {0, 1, 2, 3, 4, 5, 6, 7}, true, false)
  }

  lemma {:induction false} FourOnDay(day: nat) returns (t: Cron.Instant)
    ensures t.rest == 0 && t.minute / Cron.MINUTES_PER_DAY == day && t.minute % Cron.MINUTES_PER_DAY == 240
  {
    t := Cron.Instant(day * Cron.MINUTES_PER_DAY + 240, 0);
    Cron.SplitMinute(day, 240);
  }

  lemma {:induction false} DayOf(d: Calendar.Date) returns (day: nat)
    requires Calendar.ValidDate(d)
    ensures Calendar.DateOf(day) == d
  {
    Calendar.DateOfDay(d);
    day := Calendar.DayNumber(d);
  }

  /** 04:00:00 on a leap day. */
  lemma {:induction false} FourOnLeapDay(y: int) returns (t: Cron.Instant)
    requires y >= 1 && Calendar.IsLeap(y)
    ensures t.rest == 0 && Cron.Matches(LeapDayAtFour(), t.minute)
    ensures Calendar.DateOf(t.minute / Cron.MINUTES_PER_DAY) == Cron.LeapDay(y)
    ensures t.minute % Cron.MINUTES_PER_DAY == 240
  {
    var day := DayOf(Cron.LeapDay(y));
    t := FourOnDay(day);
    Cron.LeapDayMatches(LeapDayAtFour(), 4, 0, t.minute);
  }

  /** Asked then, the schedule finds nothing, though its next minute is the limit itself. */
  lemma {:induction false} LeapDayMissed(y: int) returns (t: Cron.Instant)
    requires y >= 1 && Calendar.IsLeap(y) && Calendar.IsLeap(y + 4)
    ensures t.rest == 0 && Cron.Matches(LeapDayAtFour(), t.minute) && !Cron.Finds(LeapDayAtFour(), t)
    ensures Cron.Limit(t).minute > t.minute && Cron.Matches(LeapDayAtFour(), Cron.Limit(t).minute)
  {
    t := FourOnLeapDay(y);
    Cron.LeapDaySearch(LeapDayAtFour(), 4, 0, t);
    Cron.LeapDayLimit(t, y);
    Cron.LeapDayAgain(LeapDayAtFour(), 4, 0, Cron.Limit(t).minute, y + 4);
  }
}
