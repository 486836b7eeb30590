/** The output validator: the checks a staged file passes before the source may be destroyed. */
module Verify {
  import opened Wrappers
  import opened Media

  datatype CheckFailure =
    | DurationDiffers | NoOutTime | WrongStreamCount | WrongStreamType | NoAudio | MissingLanguage
    | NoVideo | VideoChanged | LevelChanged | DolbyVisionLost | LargerThanSource

  datatype Warning = LegacyDuration | DolbyVisionDegraded

  /** What analysis recorded about the source, and ffmpeg's own last out_time. */
  datatype Request = Request(
    plan: Plan,
    sourceSize: int,
    sourceDuration: real,
    sourceVideo: Option<Stream>,
    legacyContainer: bool,
    finalOutTime: real)

  /** What was probed about the staged file; cover art is not among the streams. */
  datatype Output = Output(duration: real, streams: seq<Stream>, size: int)

  // ---------- the expected stream order ----------

  predicate Mapped(p: StreamPlan) {
    p.output.Some? && p.decision != Drop
  }

  function MappedOf(streams: seq<StreamPlan>): seq<StreamPlan> {
    if streams == [] then []
    else (if Mapped(streams[0]) then [streams[0]] else []) + MappedOf(streams[1..])
  }

  function Key(p: StreamPlan): nat {
    if p.output.Some? then p.output.value else 0
  }

  /** Stable insertion: an element goes before the first one whose index is not smaller. */
  function Insert(x: StreamPlan, s: seq<StreamPlan>): seq<StreamPlan> {
    if s == [] || Key(x) <= Key(s[0]) then [x] + s else [s[0]] + Insert(x, s[1..])
  }

  /** The stable sort by output index that the program asks its library for. */
  function SortByOutput(s: seq<StreamPlan>): seq<StreamPlan> {
    if s == [] then [] else Insert(s[0], SortByOutput(s[1..]))
  }

  function AtIndex(s: seq<StreamPlan>, k: nat): seq<StreamPlan> {
    if s == [] then [] else (if Key(s[0]) == k then [s[0]] else []) + AtIndex(s[1..], k)
  }

  ghost predicate Sorted(s: seq<StreamPlan>) {
    forall i, j :: 0 <= i < j < |s| ==> Key(s[i]) <= Key(s[j])
  }

  lemma {:induction false} InsertKeeps(x: StreamPlan, s: seq<StreamPlan>)
    ensures multiset(Insert(x, s)) == multiset{x} + multiset(s)
  {
    if s != [] && Key(x) > Key(s[0]) {
      InsertKeeps(x, s[1..]);
      assert s == [s[0]] + s[1..];
    }
  }

  lemma {:induction false} InsertSorts(x: StreamPlan, s: seq<StreamPlan>)
    requires Sorted(s)
    ensures Sorted(Insert(x, s))
  {
    if s != [] && Key(x) > Key(s[0]) {
      InsertSorts(x, s[1..]);
      InsertKeeps(x, s[1..]);
      var r := Insert(x, s[1..]);
      forall p | p in r ensures Key(s[0]) <= Key(p) {
        assert p in multiset(r);
      }
    }
  }

  lemma {:induction false} InsertIsStable(x: StreamPlan, s: seq<StreamPlan>, k: nat)
    ensures AtIndex(Insert(x, s), k) == AtIndex([x], k) + AtIndex(s, k)
  {
    if s == [] || Key(x) <= Key(s[0]) {
      assert ([x] + s)[1..] == s;
    } else {
      InsertIsStable(x, s[1..], k);
      assert ([s[0]] + Insert(x, s[1..]))[1..] == Insert(x, s[1..]);
    }
  }

  /** SortByOutput puts the indices in order and loses nothing. */
  lemma {:induction false} SortSorts(s: seq<StreamPlan>)
    ensures Sorted(SortByOutput(s))
    ensures multiset(SortByOutput(s)) == multiset(s)
  {
    if s != [] {
      SortSorts(s[1..]);
      InsertKeeps(s[0], SortByOutput(s[1..]));
      InsertSorts(s[0], SortByOutput(s[1..]));
      assert s == [s[0]] + s[1..];
    }
  }

  /** Streams with equal indices keep their order, which with SortSorts makes it the stable sort. */
  lemma {:induction false} SortIsStable(s: seq<StreamPlan>, k: nat)
    ensures AtIndex(SortByOutput(s), k) == AtIndex(s, k)
  {
    if s != [] {
      SortIsStable(s[1..], k);
      InsertIsStable(s[0], SortByOutput(s[1..]), k);
    }
  }

  function Expected(streams: seq<StreamPlan>): seq<StreamPlan> {
    SortByOutput(MappedOf(streams))
  }

  lemma {:induction false} MappedOfSnoc(streams: seq<StreamPlan>, i: nat)
    requires i < |streams|
    ensures MappedOf(streams[..i+1]) == MappedOf(streams[..i]) + if Mapped(streams[i]) then [streams[i]] else []
  {
    MappedOfConcat(streams[..i], [streams[i]]);
    assert streams[..i+1] == streams[..i] + [streams[i]];
  }

  lemma {:induction false} MappedOfConcat(a: seq<StreamPlan>, b: seq<StreamPlan>)
    ensures MappedOf(a + b) == MappedOf(a) + MappedOf(b)
  {
    if a == [] {
      assert a + b == b;
    } else {
      var t, head := a[1..] + b, if Mapped(a[0]) then [a[0]] else [];
      assert (a + b)[1..] == t && (a + b)[0] == a[0];
      MappedOfConcat(a[1..], b);
      assert head + (MappedOf(a[1..]) + MappedOf(b)) == (head + MappedOf(a[1..])) + MappedOf(b);
    }
  }

  /** Filters the mapped streams, then sorts them by output index across all types. */
  method ExpectedStreams(streams: seq<StreamPlan>) returns (r: seq<StreamPlan>)
    ensures r == Expected(streams)
  {
    r := [];
    for i := 0 to |streams|
      invariant r == MappedOf(streams[..i])
    {
      MappedOfSnoc(streams, i);
      if streams[i].output.None? || streams[i].decision == Drop {
        continue;
      }
      r := r + [streams[i]];
    }
    assert streams[..|streams|] == streams;
    r := SortByOutput(r);
  }

  // ---------- the checks ----------

  predicate WithinTolerance(got: real, want: real) {
    want > 0.0 && -0.01 * want <= got - want <= 0.01 * want
  }

  function CheckDuration(r: Request, out: Output): Result<seq<Warning>, CheckFailure> {
    if WithinTolerance(out.duration, r.sourceDuration) then Success([])
    else if !r.legacyContainer then Failure(DurationDiffers)
    else if r.finalOutTime <= 0.0 then Failure(NoOutTime)
    else if !WithinTolerance(out.duration, r.finalOutTime) then Failure(DurationDiffers)
    else Success([LegacyDuration])
  }

  predicate SameShape(want: seq<StreamPlan>, got: seq<Stream>) {
    |want| == |got| && forall i :: 0 <= i < |want| ==> got[i].kind == want[i].kind
  }

  function CheckShape(r: Request, out: Output): Result<seq<Warning>, CheckFailure> {
    var want := Expected(r.plan.streams);
    if |out.streams| != |want| then Failure(WrongStreamCount)
    else if !SameShape(want, out.streams) then Failure(WrongStreamType)
    else Success([])
  }

  function LowerChar(c: char): char {
    if 'A' <= c <= 'Z' then (c as int + 32) as char else c
  }

  function Lower(s: string): string {
    seq(|s|, i requires 0 <= i < |s| => LowerChar(s[i]))
  }

  predicate HasLanguage(streams: seq<Stream>, language: string) {
    exists s :: s in streams && s.kind == Audio && Lower(s.LanguageOrUnd()) == language
  }

  function CheckAudio(r: Request, out: Output): Result<seq<Warning>, CheckFailure> {
    if !(exists s :: s in out.streams && s.kind == Audio) then Failure(NoAudio)
    else if exists p :: p in Expected(r.plan.streams) && p.kind == Audio && p.language != ""
                        && !HasLanguage(out.streams, Lower(p.language)) then Failure(MissingLanguage)
    else Success([])
  }

  /** Collects the output's audio languages, then looks for every language the plan kept. */
  method VerifyAudio(r: Request, out: Output) returns (v: Result<seq<Warning>, CheckFailure>)
    ensures v == CheckAudio(r, out)
  {
    var present: set<string> := {};
    var count := 0;
    for i := 0 to |out.streams|
      invariant count > 0 <==> exists s :: s in out.streams[..i] && s.kind == Audio
      invariant forall l :: l in present <==> HasLanguage(out.streams[..i], l)
    {
      assert out.streams[..i+1] == out.streams[..i] + [out.streams[i]];
      if out.streams[i].kind != Audio { continue; }
      count := count + 1;
      present := present + {Lower(out.streams[i].LanguageOrUnd())};
    }
    assert out.streams[..|out.streams|] == out.streams;
    if count == 0 {
      return Failure(NoAudio);
    }
    var want := ExpectedStreams(r.plan.streams);
    for i := 0 to |want|
      invariant forall j :: 0 <= j < i && want[j].kind == Audio && want[j].language != "" ==>
          Lower(want[j].language) in present
    {
      if want[i].kind != Audio || want[i].language == "" { continue; }
      if Lower(want[i].language) !in present {
        assert want[i] in Expected(r.plan.streams);
        return Failure(MissingLanguage);
      }
    }
    return Success([]);
  }

  function FirstVideo(streams: seq<Stream>): Option<Stream> {
    if streams == [] then None else if streams[0].kind == Video then Some(streams[0]) else FirstVideo(streams[1..])
  }

  predicate SameVideo(src: Stream, got: Stream) {
    && (src.codec != NamedCodec("") ==> got.codec == src.codec)
    && (src.profile != NO_PROFILE ==> got.profile == src.profile)
    && (src.width != 0 && src.height != 0 ==> got.width == src.width && got.height == src.height)
  }

  predicate LevelAgrees(p: Plan, src: Option<int>, got: Option<int>) {
    if p.levelRewrite then got == Some(42) else src == None || got == src
  }

  function CheckVideoCopy(r: Request, out: Output): Result<seq<Warning>, CheckFailure> {
    var planned := VideoStream(r.plan.streams);
    if planned == None || planned.value.decision != Copy || r.sourceVideo == None then Success([])
    else
      match FirstVideo(out.streams)
      case None => Failure(NoVideo)
      case Some(got) =>
        if !SameVideo(r.sourceVideo.value, got) then Failure(VideoChanged)
        else if !LevelAgrees(r.plan, r.sourceVideo.value.LevelTenths(), got.LevelTenths()) then Failure(LevelChanged)
        else Success([])
  }

  function CheckDolbyVision(r: Request, out: Output): Result<seq<Warning>, CheckFailure> {
    var got := FirstVideo(out.streams);
    if r.plan.dolby == None || (got.Some? && got.value.dolby.Some?) then Success([])
    else if r.plan.dolby == Some(5) then Failure(DolbyVisionLost)
    else Success([DolbyVisionDegraded])
  }

  function CheckSize(r: Request, out: Output): Result<seq<Warning>, CheckFailure> {
    if r.plan.kind.video && out.size > r.sourceSize then Failure(LargerThanSource) else Success([])
  }

  // ---------- the checks in turn ----------

  /** What verification answers: the warnings so far, on the failure path too. */
  datatype Verdict = Verdict(warnings: seq<Warning>, error: Option<CheckFailure>)

  function Checks(r: Request, out: Output): (c: seq<Result<seq<Warning>, CheckFailure>>)
    ensures |c| == 6
  {
    [CheckDuration(r, out), CheckShape(r, out), CheckAudio(r, out), CheckVideoCopy(r, out), CheckDolbyVision(r, out),
     CheckSize(r, out)]
  }

  /** An output that passes all of them. */
  predicate Accepts(r: Request, out: Output) {
    forall i :: 0 <= i < |Checks(r, out)| ==> Checks(r, out)[i].Success?
  }

  /** The warnings of the checks that passed, in order. */
  function Collected(checks: seq<Result<seq<Warning>, CheckFailure>>): seq<Warning> {
    if checks == [] then []
    else
      var last := checks[|checks|-1];
      Collected(checks[..|checks|-1]) + (if last.Success? then last.value else [])
  }

  /** The checks before i pass, and there they end or the first one fails. */
  predicate StopsAt(checks: seq<Result<seq<Warning>, CheckFailure>>, i: nat, v: Verdict) {
    && i <= |checks| && (forall j :: 0 <= j < i ==> checks[j].Success?)
    && v.warnings == Collected(checks[..i])
    && (if i == |checks| then v.error == None else v.error.Some? && checks[i] == Failure(v.error.value))
  }

  /** Runs the checks until one fails; the warnings of those that passed are not lost. */
  method VerifyOutput(r: Request, out: Output) returns (v: Verdict)
    ensures exists i :: StopsAt(Checks(r, out), i, v)
    ensures v.error.None? <==> Accepts(r, out)
  {
    var checks := Checks(r, out);
    var warnings := [];
    for i := 0 to |checks|
      invariant warnings == Collected(checks[..i])
      invariant forall j :: 0 <= j < i ==> checks[j].Success?
    {
      assert checks[..i+1][..i] == checks[..i];
      match checks[i] {
        case Failure(e) =>
          v := Verdict(warnings, Some(e));
          assert StopsAt(checks, i, v);
          return;
        case Success(w) => warnings := warnings + w;
      }
    }
    v := Verdict(warnings, None);
    assert StopsAt(checks, |checks|, v);
  }

  // ---------- what acceptance means ----------

  function CountPlans(s: seq<StreamPlan>, kind: StreamType): nat {
    if s == [] then 0 else (if s[0].kind == kind then 1 else 0) + CountPlans(s[1..], kind)
  }

  lemma {:induction false} CountInsert(x: StreamPlan, s: seq<StreamPlan>, kind: StreamType)
    ensures CountPlans(Insert(x, s), kind) == CountPlans([x], kind) + CountPlans(s, kind)
  {
    if s == [] || Key(x) <= Key(s[0]) {
      assert ([x] + s)[1..] == s;
    } else {
      CountInsert(x, s[1..], kind);
      assert ([s[0]] + Insert(x, s[1..]))[1..] == Insert(x, s[1..]);
    }
  }

  lemma {:induction false} CountSort(s: seq<StreamPlan>, kind: StreamType)
    ensures CountPlans(SortByOutput(s), kind) == CountPlans(s, kind)
  {
    if s != [] {
      CountSort(s[1..], kind);
      CountInsert(s[0], SortByOutput(s[1..]), kind);
    }
  }

  lemma {:induction false} ShapeCounts(want: seq<StreamPlan>, got: seq<Stream>, kind: StreamType)
    requires SameShape(want, got)
    ensures |StreamsOfType(got, kind)| == CountPlans(want, kind)
  {
    if want != [] {
      ShapeCounts(want[1..], got[1..], kind);
    }
  }

  /** An accepted output has the planned number of streams of each type, some audio, and every kept audio language. */
  lemma {:induction false} AcceptedMeansPlanned(r: Request, out: Output)
    requires Accepts(r, out)
    ensures forall kind :: |StreamsOfType(out.streams, kind)| == CountPlans(MappedOf(r.plan.streams), kind)
    ensures exists s :: s in out.streams && s.kind == Audio
    ensures forall p :: p in r.plan.streams && Mapped(p) && p.kind == Audio && p.language != "" ==>
      HasLanguage(out.streams, Lower(p.language))
  {
    assert Checks(r, out)[1].Success? && Checks(r, out)[2].Success?;
    forall kind ensures |StreamsOfType(out.streams, kind)| == CountPlans(MappedOf(r.plan.streams), kind) {
      ShapeCounts(Expected(r.plan.streams), out.streams, kind);
      CountSort(MappedOf(r.plan.streams), kind);
    }
    forall p | p in r.plan.streams && Mapped(p) && p.kind == Audio && p.language != ""
      ensures HasLanguage(out.streams, Lower(p.language))
    {
      MappedIsKept(r.plan.streams, p);
      SortSorts(MappedOf(r.plan.streams));
      assert p in multiset(SortByOutput(MappedOf(r.plan.streams)));
      assert p in Expected(r.plan.streams);
    }
  }

  lemma {:induction false} MappedIsKept(streams: seq<StreamPlan>, p: StreamPlan)
    requires p in streams && Mapped(p)
    ensures p in MappedOf(streams)
  {
    if streams[0] != p {
      MappedIsKept(streams[1..], p);
    }
  }

  // ---------- what acceptance means, check by check ----------

  function Distance(a: real, b: real): real {
    if a < b then b - a else a - b
  }

  /** Off by at most a hundredth of a length that is known. */
  predicate NearEnough(got: real, want: real) {
    want > 0.0 && 100.0 * Distance(got, want) <= want
  }

  /** The output is as long as the source, or, for a container whose header lies, as long as what ffmpeg wrote. */
  predicate LengthHolds(r: Request, length: real) {
    NearEnough(length, r.sourceDuration) || (r.legacyContainer && NearEnough(length, r.finalOutTime))
  }

  lemma {:induction false} DurationExactly(r: Request, out: Output)
    ensures CheckDuration(r, out).Success? <==> LengthHolds(r, out.duration)
    ensures LengthHolds(r, out.duration) ==>
              CheckDuration(r, out).value
              == if NearEnough(out.duration, r.sourceDuration) then [] else [LegacyDuration]
  {
    assert WithinTolerance(out.duration, r.sourceDuration) == NearEnough(out.duration, r.sourceDuration);
    assert WithinTolerance(out.duration, r.finalOutTime) == NearEnough(out.duration, r.finalOutTime);
  }

  /** The same letter, in either case. */
  predicate SameLetter(a: char, b: char) {
    || a == b
    || ('A' <= a <= 'Z' && b as int == a as int + 32)
    || ('A' <= b <= 'Z' && a as int == b as int + 32)
  }

  predicate SpelledAlike(a: string, b: string) {
    |a| == |b| && forall i :: 0 <= i < |a| ==> SameLetter(a[i], b[i])
  }

  lemma {:induction false} LowerAlike(a: string, b: string)
    ensures Lower(a) == Lower(b) <==> SpelledAlike(a, b)
  {
    if Lower(a) == Lower(b) {
      forall i | 0 <= i < |a| ensures |a| == |b| && SameLetter(a[i], b[i]) {
        assert |Lower(a)| == |a| && |Lower(b)| == |b|;
        assert Lower(a)[i] == LowerChar(a[i]) && Lower(b)[i] == LowerChar(b[i]);
      }
    }
  }

  /** A sound stream in a language, whatever the case it is written in. */
  ghost predicate Speaks(streams: seq<Stream>, language: string) {
    exists s :: s in streams && s.kind == Audio && SpelledAlike(s.LanguageOrUnd(), language)
  }

  /** There is sound, in every language of a sound stream the plan kept. */
  ghost predicate SoundHolds(plan: Plan, streams: seq<Stream>) {
    && (exists s :: s in streams && s.kind == Audio)
    && forall p :: p in plan.streams && Mapped(p) && p.kind == Audio && p.language != "" ==> Speaks(streams, p.language)
  }

  lemma {:induction false} SpeaksExactly(streams: seq<Stream>, language: string)
    ensures HasLanguage(streams, Lower(language)) <==> Speaks(streams, language)
  {
    forall s: Stream
      ensures Lower(s.LanguageOrUnd()) == Lower(language) <==> SpelledAlike(s.LanguageOrUnd(), language)
    {
      LowerAlike(s.LanguageOrUnd(), language);
    }
  }

  lemma {:induction false} ExpectedMembers(streams: seq<StreamPlan>, p: StreamPlan)
    ensures p in Expected(streams) <==> p in streams && Mapped(p)
  {
    SortSorts(MappedOf(streams));
    assert p in SortByOutput(MappedOf(streams)) <==> p in multiset(SortByOutput(MappedOf(streams)));
    assert p in MappedOf(streams) <==> p in multiset(MappedOf(streams));
    MappedMembers(streams, p);
  }

  lemma {:induction false} MappedMembers(streams: seq<StreamPlan>, p: StreamPlan)
    ensures p in MappedOf(streams) <==> p in streams && Mapped(p)
  {
    if streams != [] {
      MappedMembers(streams[1..], p);
    }
  }

  lemma {:induction false} AudioExactly(r: Request, out: Output)
    ensures CheckAudio(r, out).Success? <==> SoundHolds(r.plan, out.streams)
  {
    forall p: StreamPlan | p.kind == Audio && p.language != ""
      ensures p in Expected(r.plan.streams) <==> p in r.plan.streams && Mapped(p)
      ensures HasLanguage(out.streams, Lower(p.language)) <==> Speaks(out.streams, p.language)
    {
      ExpectedMembers(r.plan.streams, p);
      SpeaksExactly(out.streams, p.language);
    }
  }

  /** The first video stream of a file stands at i. */
  predicate VideoAt(streams: seq<Stream>, i: nat) {
    i < |streams| && streams[i].kind == Video && forall j :: 0 <= j < i ==> streams[j].kind != Video
  }

  lemma {:induction false} VideoAtExactly(streams: seq<Stream>, i: nat)
    requires VideoAt(streams, i)
    ensures FirstVideo(streams) == Some(streams[i])
  {
    if i > 0 {
      assert streams[0].kind != Video;
      VideoAtExactly(streams[1..], i - 1);
    }
  }

  lemma {:induction false} FirstVideoAt(streams: seq<Stream>) returns (i: nat)
    ensures FirstVideo(streams).Some? ==> VideoAt(streams, i)
  {
    i := 0;
    if streams != [] && streams[0].kind != Video {
      i := FirstVideoAt(streams[1..]);
      i := i + 1;
    }
  }

  /** A copied video stream has kept all that was known of it, but for a level the plan rewrites to 4.2. */
  ghost predicate CopyHolds(plan: Plan, source: Option<Stream>, streams: seq<Stream>) {
    VideoStream(plan.streams).Some? && VideoStream(plan.streams).value.decision == Copy && source.Some? ==>
      exists i: nat :: VideoAt(streams, i) &&
        var was, got := source.value, streams[i];
        && (got.codec == was.codec || was.codec == NamedCodec(""))
        && (got.profile == was.profile || was.profile == NO_PROFILE)
        && ((got.width == was.width && got.height == was.height) || was.width == 0 || was.height == 0)
        && (if plan.levelRewrite then got.LevelTenths() == Some(42)
            else got.LevelTenths() == was.LevelTenths() || was.LevelTenths().None?)
  }

  lemma {:induction false} CopyExactly(r: Request, out: Output)
    ensures CheckVideoCopy(r, out).Success? <==> CopyHolds(r.plan, r.sourceVideo, out.streams)
  {
    var i := FirstVideoAt(out.streams);
    forall j: nat | VideoAt(out.streams, j) ensures FirstVideo(out.streams) == Some(out.streams[j]) {
      VideoAtExactly(out.streams, j);
    }
  }

  /** The first video stream carries a Dolby Vision record. */
  ghost predicate CarriesRecord(streams: seq<Stream>) {
    exists i: nat :: VideoAt(streams, i) && streams[i].dolby.Some?
  }

  lemma {:induction false} RecordExactly(r: Request, out: Output)
    ensures CheckDolbyVision(r, out).Success? <==> r.plan.dolby != Some(5) || CarriesRecord(out.streams)
    ensures r.plan.dolby != Some(5) || CarriesRecord(out.streams) ==>
              CheckDolbyVision(r, out).value
              == if r.plan.dolby.Some? && !CarriesRecord(out.streams) then [DolbyVisionDegraded] else []
  {
    var i := FirstVideoAt(out.streams);
    forall j: nat | VideoAt(out.streams, j) ensures FirstVideo(out.streams) == Some(out.streams[j]) {
      VideoAtExactly(out.streams, j);
    }
  }

  lemma {:induction false} AcceptsEach(r: Request, out: Output)
    ensures Accepts(r, out) <==>
              && CheckDuration(r, out).Success? && CheckShape(r, out).Success? && CheckAudio(r, out).Success?
              && CheckVideoCopy(r, out).Success? && CheckDolbyVision(r, out).Success? && CheckSize(r, out).Success?
  {
    var c := Checks(r, out);
    assert c[0] == CheckDuration(r, out) && c[1] == CheckShape(r, out) && c[2] == CheckAudio(r, out);
    assert c[3] == CheckVideoCopy(r, out) && c[4] == CheckDolbyVision(r, out) && c[5] == CheckSize(r, out);
  }

  /**
   What may replace the source, for any output whatever: one of the right length, with the planned stream types in
   the planned order, every kept language, an unchanged video stream where it was to be copied, a Dolby Vision record
   where the picture needs it, and no larger than the source if the video was encoded.
   */
  lemma {:induction false} AcceptsExactly(r: Request, out: Output)
    ensures Accepts(r, out) <==>
              && LengthHolds(r, out.duration)
              && |out.streams| == |Expected(r.plan.streams)|
              && (forall i :: 0 <= i < |out.streams| ==> out.streams[i].kind == Expected(r.plan.streams)[i].kind)
              && SoundHolds(r.plan, out.streams)
              && CopyHolds(r.plan, r.sourceVideo, out.streams)
              && (r.plan.dolby == Some(5) ==> CarriesRecord(out.streams))
              && (r.plan.kind.video ==> out.size <= r.sourceSize)
  {
    AcceptsEach(r, out);
    DurationExactly(r, out);
    AudioExactly(r, out);
    CopyExactly(r, out);
    RecordExactly(r, out);
  }

  /** The two warnings of an accepted output say that its length was not the source's, and that a record was lost. */
  lemma {:induction false} WarningsTell(r: Request, out: Output)
    requires Accepts(r, out)
    ensures Collected(Checks(r, out))
         == (if NearEnough(out.duration, r.sourceDuration) then [] else [LegacyDuration])
            + (if r.plan.dolby.Some? && !CarriesRecord(out.streams) then [DolbyVisionDegraded] else [])
  {
    AcceptsEach(r, out);
    DurationExactly(r, out);
    RecordExactly(r, out);
    OnlyTwoWarn(Checks(r, out));
  }

  lemma {:induction false} OnlyTwoWarn(c: seq<Result<seq<Warning>, CheckFailure>>)
    requires |c| == 6 && c[0].Success? && c[4].Success?
    requires c[1] == Success([]) && c[2] == Success([]) && c[3] == Success([]) && c[5] == Success([])
    ensures Collected(c) == c[0].value + c[4].value
  {
    assert c[..6] == c;
    CollectedStep(c, 5);
    CollectedStep(c, 4);
    SilentSteps(c);
    CollectedStep(c, 0);
  }

  lemma {:induction false} SilentSteps(c: seq<Result<seq<Warning>, CheckFailure>>)
    requires |c| == 6 && c[1] == Success([]) && c[2] == Success([]) && c[3] == Success([])
    ensures Collected(c[..4]) == Collected(c[..1])
  {
    CollectedStep(c, 3);
    CollectedStep(c, 2);
    CollectedStep(c, 1);
  }

  lemma {:induction false} CollectedStep(checks: seq<Result<seq<Warning>, CheckFailure>>, i: nat)
    requires i < |checks|
    ensures Collected(checks[..i+1]) == Collected(checks[..i]) + if checks[i].Success? then checks[i].value else []
  {
    assert checks[..i+1][..i] == checks[..i];
  }
}
