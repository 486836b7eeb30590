/** The encode loop: retry in software decode, then step down the encoders, until one run succeeds. */
module EncodeLoop {
  import opened Wrappers
  import opened Media
  import opened Argv
  import opened Hardware

  /** One run of ffmpeg, by what distinguishes it from the others of its job. */
  datatype Attempt = Attempt(encoder: Option<Encoder>, decode: DecodePath)

  /** What became of a run; a run that succeeds is stored on the row, or not. */
  datatype RunResult = Succeeded(stored: bool) | Stopped | RunFailed

  datatype Outcome = Encoded | Unrecorded | Cancelled | Exhausted | Unbuildable(error: BuildError)

  /** The request for a run; the probe of the driver has the last word on hardware decode. */
  function RequestFor(caps: seq<Capability>, base: Request, encoder: Option<Encoder>, forceSoftware: bool): Request {
    base.(encoder := encoder,
          forceSoftwareDecode := forceSoftware || SourceDecode(caps, encoder, base.sourceCodec) == SoftwareDecode)
  }

  function DecodeFor(caps: seq<Capability>, base: Request, encoder: Option<Encoder>, forceSoftware: bool): DecodePath {
    DecodePathOf(RequestFor(caps, base, encoder, forceSoftware))
  }

  function Rank(encoder: Option<Encoder>): nat {
    match encoder
    case None => 0
    case Some(Software) => 1
    case Some(Vaapi) => 2
    case Some(Qsv) => 3
  }

  /** All of a job that decides which runs it may make: the decode each hardware encoder gets, and what follows QSV. */
  datatype Ways = Ways(encodes: bool, vaapiWorks: bool, qsvDecodes: bool, vaapiDecodes: bool)
  {
    function DecodeAt(encoder: Option<Encoder>, forced: bool): DecodePath {
      if !forced && ((encoder == Some(Qsv) && qsvDecodes) || (encoder == Some(Vaapi) && vaapiDecodes))
      then HardwareDecode else SoftwareDecode
    }

    function After(encoder: Encoder): Option<Encoder> {
      match encoder
      case Qsv => Some(if vaapiWorks then Vaapi else Software)
      case Vaapi => Some(Software)
      case Software => None
    }
  }

  function WaysOf(caps: seq<Capability>, base: Request): Ways {
    Ways(EncodesVideo(base.plan.streams), Encodes(caps, VaapiBackend, base.plan.hdr),
         DecodeFor(caps, base, Some(Qsv), false) == HardwareDecode,
         DecodeFor(caps, base, Some(Vaapi), false) == HardwareDecode)
  }

  lemma {:induction false} WaysTell(caps: seq<Capability>, base: Request, encoder: Option<Encoder>, forced: bool)
    ensures DecodeFor(caps, base, encoder, forced) == WaysOf(caps, base).DecodeAt(encoder, forced)
    ensures encoder.Some? ==> Next(caps, encoder.value, base.plan.hdr) == WaysOf(caps, base).After(encoder.value)
  {
  }

  /** The runs still to come, should each one fail, from an encoder with its decode retry spent or not. */
  function Ladder(w: Ways, encoder: Option<Encoder>, retried: bool): (r: seq<Attempt>)
    ensures |r| >= 1
    decreases Rank(encoder), !retried
  {
    var here := Attempt(encoder, w.DecodeAt(encoder, retried));
    if here.decode == HardwareDecode then [here] + Ladder(w, encoder, true)
    else if !w.encodes || encoder.None? then [here]
    else
      match w.After(encoder.value)
      case None => [here]
      case Some(next) => [here] + Ladder(w, Some(next), false)
  }

  /** The encoder a job starts with: none for a job that copies its video. */
  function First(caps: seq<Capability>, base: Request): Option<Encoder> {
    if EncodesVideo(base.plan.streams) then Some(Select(caps, base.plan.hdr)) else None
  }

  // ---------- which commands can be built ----------

  predicate CanBuild(caps: seq<Capability>, base: Request, encoder: Option<Encoder>, forceSoftware: bool) {
    Build(RequestFor(caps, base, encoder, forceSoftware)).Success?
  }

  lemma {:induction false} BuildExactly(req: Request)
    ensures Build(req).Success? <==> !req.plan.kind.Skip() && Validated(req) == None
    ensures Build(req).Success? ==> Build(req).value.decode == DecodePathOf(req)
  {
  }

  /** A job whose first command can be built can build the commands it falls back to. */
  lemma {:induction false} FallbackBuilds(
    caps: seq<Capability>, base: Request, first: Option<Encoder>, encoder: Option<Encoder>, forceSoftware: bool)
    requires CanBuild(caps, base, first, false)
    requires (encoder.None? <==> first.None?) && (first == Some(Software) ==> encoder == first)
    ensures CanBuild(caps, base, encoder, forceSoftware)
  {
    var a, b := RequestFor(caps, base, first, false), RequestFor(caps, base, encoder, forceSoftware);
    BuildExactly(a);
    BuildExactly(b);
    assert ValidateEncode(b) == None;
  }

  // ---------- the loop ----------

  class Task {
    const caps: seq<Capability>
    const base: Request
    var selection: Option<Encoder>
    var decodeRetried: bool
    var forceSoftware: bool
    /** Every run that was started, and what became of each. */
    var attempts: seq<Attempt>
    var results: seq<RunResult>

    constructor (caps: seq<Capability>, base: Request)
      ensures this.caps == caps && this.base == base && Fresh()
    {
      this.caps, this.base := caps, base;
      selection, decodeRetried, forceSoftware := First(caps, base), false, false;
      attempts, results := [], [];
    }

    predicate Fresh()
      reads this
    {
      selection == First(caps, base) && !decodeRetried && !forceSoftware && attempts == [] && results == []
    }

    predicate Valid()
      reads this
    {
      decodeRetried == forceSoftware && (EncodesVideo(base.plan.streams) <==> selection.Some?)
    }

    function RunNow(): Attempt
      reads this
    {
      Attempt(selection, WaysOf(caps, base).DecodeAt(selection, decodeRetried))
    }

    /** What is yet to be tried, from here. */
    function Remaining(): seq<Attempt>
      reads this
    {
      Ladder(WaysOf(caps, base), selection, decodeRetried)
    }

    /** Falls with each step down the encoders, and with each decode retry spent. */
    function Measure(): nat
      reads this`selection, this`decodeRetried
    {
      2 * Rank(selection) + if decodeRetried then 0 else 1
    }

    /** Moves to the next thing worth trying; changing encoder re-arms the decode retry. */
    method StepBack(decode: DecodePath) returns (more: bool)
      requires Valid() && decode == RunNow().decode
      modifies this`selection, this`decodeRetried, this`forceSoftware
      ensures Valid()
      ensures old(Remaining()) == [old(RunNow())] + (if more then Remaining() else [])
      ensures more ==> Measure() < old(Measure())
      ensures old(selection) == Some(Software) ==> selection == old(selection)
    {
      if decode == HardwareDecode && !decodeRetried {
        decodeRetried, forceSoftware := true, true;
        return true;
      }
      if !EncodesVideo(base.plan.streams) { return false; }
      WaysTell(caps, base, selection, decodeRetried);
      var next := Next(caps, selection.value, base.plan.hdr);
      if next.None? { return false; }
      selection, decodeRetried, forceSoftware := next, false, false;
      return true;
    }

    method BuildCommand() returns (r: Result<DecodePath, BuildError>)
      requires Valid()
      ensures r.Success? <==> CanBuild(caps, base, selection, forceSoftware)
      ensures r.Success? ==> r.value == RunNow().decode
    {
      var req := RequestFor(caps, base, selection, forceSoftware);
      BuildExactly(req);
      WaysTell(caps, base, selection, forceSoftware);
      var built := Build(req);
      match built
      case Failure(e) => return Failure(e);
      case Success(command) => return Success(command.decode);
    }

    /** The loop's state; buildable says whether the job's first command could be built, once that is known. */
    predicate InLoop(buildable: bool)
      reads this
    {
      && Valid() && (First(caps, base) == Some(Software) ==> selection == First(caps, base))
      && (if attempts == [] then Fresh() else buildable) && AllFailed(results) && |results| == |attempts|
    }

    predicate AllFailed(r: seq<RunResult>) {
      forall i :: 0 <= i < |r| ==> r[i] == RunFailed
    }

    /** Only the first command can fail to be built. */
    method BuildNext(ghost buildable: bool) returns (r: Result<DecodePath, BuildError>)
      requires InLoop(buildable) && buildable == CanBuild(caps, base, First(caps, base), false)
      ensures r.Success? <==> buildable
      ensures r.Failure? ==> attempts == []
      ensures r.Success? ==> r.value == RunNow().decode
    {
      if attempts != [] { FallbackBuilds(caps, base, First(caps, base), selection, forceSoftware); }
      r := BuildCommand();
    }

    /** What the last run's result has to do with the way out. */
    predicate Tells(last: RunResult, out: Option<Outcome>) {
      match last
      case Succeeded(stored) => out == Some(if stored then Encoded else Unrecorded)
      case Stopped => out == Some(Cancelled)
      case RunFailed => out == None || out == Some(Exhausted)
    }

    /** One run, and where it leaves the loop: out is None if there is more to try. */
    method RunOnce(decode: DecodePath) returns (out: Option<Outcome>)
      requires InLoop(true) && decode == RunNow().decode
      modifies this`selection, this`decodeRetried, this`forceSoftware, this`attempts, this`results
      ensures |results| == |attempts| == |old(results)| + 1 && AllFailed(results[..|results|-1])
      ensures Tells(results[|results|-1], out)
      ensures out.None? ==> InLoop(true) && attempts + Remaining() == old(attempts + Remaining())
      ensures attempts == old(attempts) + [old(RunNow())]
      ensures out.Some? ==> selection == old(selection) && !out.value.Unbuildable?
      ensures out.Some? ==> attempts <= old(attempts + Remaining())
      ensures out == Some(Exhausted) ==> attempts == old(attempts + Remaining())
      ensures out.None? ==> Measure() < old(Measure())
    {
      ghost var done, rest, run := attempts, Remaining(), RunNow();
      HeadOfLadder(WaysOf(caps, base), selection, decodeRetried);
      attempts := attempts + [Attempt(selection, decode)];
      Regroup(done, run, rest);
      var result: RunResult := *;
      results := results + [result];
      match result {
        case Succeeded(stored) => return Some(if stored then Encoded else Unrecorded);
        case Stopped => return Some(Cancelled);
        case RunFailed =>
      }
      var more := StepBack(decode);
      if !more { return Some(Exhausted); }
      assert rest[1..] == Remaining();
      return None;
    }

    /** How the loop may end: all is the ladder it started on. */
    predicate EndsAs(out: Outcome, all: seq<Attempt>, buildable: bool)
      reads this
    {
      && |results| == |attempts| && attempts <= all
      && (attempts != [] ==> AllFailed(results[..|results|-1]) && Tells(results[|results|-1], Some(out)))
      && (out.Exhausted? ==> attempts == all)
      && (out.Unbuildable? <==> attempts == []) && (out.Unbuildable? <==> !buildable)
      && (out.Encoded? || out.Unrecorded? ==> attempts[|attempts|-1].encoder == selection)
    }

    /** One round of the loop: a command built and run. */
    method Round(ghost all: seq<Attempt>, ghost buildable: bool) returns (out: Option<Outcome>)
      requires InLoop(buildable) && buildable == CanBuild(caps, base, First(caps, base), false)
      requires attempts + Remaining() == all
      modifies this`selection, this`decodeRetried, this`forceSoftware, this`attempts, this`results
      ensures out.Some? ==> EndsAs(out.value, all, buildable)
      ensures out.None? ==> InLoop(buildable) && attempts + Remaining() == all && Measure() < old(Measure())
    {
      var built := BuildNext(buildable);
      if built.Failure? { return Some(Unbuildable(built.error)); }
      out := RunOnce(built.value);
    }

    /**
     Whatever each run does, the runs are the ladder's from the top, each once; the loop gives up only at its end;
     and a command that cannot be built stops the job before anything has run.
     */
    method Encode() returns (out: Outcome)
      requires Fresh()
      modifies this`selection, this`decodeRetried, this`forceSoftware, this`attempts, this`results
      ensures |results| == |attempts|
      ensures attempts != [] ==> AllFailed(results[..|results|-1]) && Tells(results[|results|-1], Some(out))
      ensures attempts <= Ladder(WaysOf(caps, base), First(caps, base), false)
      ensures out.Exhausted? ==> attempts == Ladder(WaysOf(caps, base), First(caps, base), false)
      ensures out.Unbuildable? <==> !CanBuild(caps, base, First(caps, base), false)
      ensures out.Unbuildable? <==> attempts == []
      ensures out.Encoded? || out.Unrecorded? ==> attempts[|attempts|-1].encoder == selection
    {
      ghost var all, buildable := Remaining(), CanBuild(caps, base, First(caps, base), false);
      while true
        invariant InLoop(buildable) && attempts + Remaining() == all
        decreases Measure()
      {
        var o := Round(all, buildable);
        if o.Some? { return o.value; }
      }
    }
  }

  lemma {:induction false} Regroup(done: seq<Attempt>, run: Attempt, rest: seq<Attempt>)
    requires rest != [] && rest[0] == run
    ensures done + rest == (done + [run]) + rest[1..]
    ensures done + [run] <= done + rest && (rest == [run] ==> done + [run] == done + rest)
  {
  }

  lemma {:induction false} HeadOfLadder(w: Ways, encoder: Option<Encoder>, retried: bool)
    ensures Ladder(w, encoder, retried)[0] == Attempt(encoder, w.DecodeAt(encoder, retried))
  {
  }

  // ---------- what the ladder is ----------

  /** Runs of one encoder come hardware decode first, and no later run uses an earlier encoder. */
  lemma {:induction false} LadderDescends(w: Ways, encoder: Option<Encoder>, retried: bool, i: nat)
    requires i < |Ladder(w, encoder, retried)|
    ensures var a := Ladder(w, encoder, retried)[i];
            && Rank(a.encoder) <= Rank(encoder)
            && (a.encoder == encoder && retried ==> i == 0 && a.decode == SoftwareDecode)
            && (a.encoder == encoder && a.decode == HardwareDecode ==> i == 0)
            && (a.encoder == encoder ==> i <= 1)
    decreases Rank(encoder), !retried
  {
    SoftwareWhenForced(w, encoder);
    if i > 0 {
      var here := Attempt(encoder, w.DecodeAt(encoder, retried));
      if here.decode == HardwareDecode {
        LadderDescends(w, encoder, true, i - 1);
      } else {
        LadderDescends(w, w.After(encoder.value), false, i - 1);
      }
    }
  }

  lemma {:induction false} SoftwareWhenForced(w: Ways, encoder: Option<Encoder>)
    ensures w.DecodeAt(encoder, true) == SoftwareDecode
  {
  }

  lemma {:induction false} HeadIsNotRepeated(w: Ways, encoder: Option<Encoder>, retried: bool, j: nat)
    requires 0 < j < |Ladder(w, encoder, retried)|
    ensures Ladder(w, encoder, retried)[0] != Ladder(w, encoder, retried)[j]
  {
    HeadOfLadder(w, encoder, retried);
    if w.DecodeAt(encoder, retried) == HardwareDecode {
      LadderDescends(w, encoder, retried, j);
    } else {
      LadderDescends(w, w.After(encoder.value), false, j - 1);
    }
  }

  /** No encoder and decode path is ever tried twice. */
  lemma {:induction false} NoAttemptTwice(
    w: Ways, encoder: Option<Encoder>, retried: bool, i: nat, j: nat)
    requires i < j < |Ladder(w, encoder, retried)|
    ensures Ladder(w, encoder, retried)[i] != Ladder(w, encoder, retried)[j]
    decreases Rank(encoder), !retried
  {
    if i == 0 {
      HeadIsNotRepeated(w, encoder, retried, j);
    } else if w.DecodeAt(encoder, retried) == HardwareDecode {
      NoAttemptTwice(w, encoder, true, i - 1, j - 1);
    } else {
      NoAttemptTwice(w, w.After(encoder.value), false, i - 1, j - 1);
    }
  }

  /** At most two runs for each hardware encoder and one for software. */
  lemma {:induction false} LadderIsShort(w: Ways, encoder: Option<Encoder>, retried: bool)
    requires encoder.Some?
    ensures |Ladder(w, encoder, retried)| <= 2 * Rank(encoder) - 1
    ensures retried && encoder != Some(Software) ==> |Ladder(w, encoder, retried)| <= 2 * Rank(encoder) - 2
    decreases Rank(encoder), !retried
  {
    SoftwareWhenForced(w, encoder);
    var here := Attempt(encoder, w.DecodeAt(encoder, retried));
    if here.decode == HardwareDecode {
      LadderIsShort(w, encoder, true);
    } else if w.encodes {
      match w.After(encoder.value)
      case None =>
      case Some(next) => LadderIsShort(w, Some(next), false);
    }
  }

  /** A video encode ends, when all else fails, with libx265. */
  lemma {:induction false} SoftwareIsLast(w: Ways, encoder: Option<Encoder>, retried: bool)
    requires encoder.Some? && w.encodes
    ensures var r := Ladder(w, encoder, retried);
            r[|r|-1] == Attempt(Some(Software), SoftwareDecode)
    decreases Rank(encoder), !retried
  {
    var here := Attempt(encoder, w.DecodeAt(encoder, retried));
    if here.decode == HardwareDecode {
      SoftwareIsLast(w, encoder, true);
    } else {
      match w.After(encoder.value)
      case None =>
      case Some(next) => SoftwareIsLast(w, Some(next), false);
    }
  }

  /** Only the first encoder and those whose probe worked are tried. */
  lemma {:induction false} OnlyProbedEncoders(w: Ways, encoder: Option<Encoder>, retried: bool, i: nat)
    requires i < |Ladder(w, encoder, retried)|
    ensures var a := Ladder(w, encoder, retried)[i];
            && (a.encoder == Some(Qsv) ==> encoder == Some(Qsv))
            && (a.encoder == Some(Vaapi) ==> encoder == Some(Vaapi) || w.vaapiWorks)
    decreases Rank(encoder), !retried
  {
    if i > 0 {
      var here := Attempt(encoder, w.DecodeAt(encoder, retried));
      if here.decode == HardwareDecode {
        OnlyProbedEncoders(w, encoder, true, i - 1);
      } else {
        OnlyProbedEncoders(w, w.After(encoder.value), false, i - 1);
      }
    }
  }

  /**
   All the runs a job may make: at most five, none twice, libx265 last for a video encode, no hardware encoder
   whose probe failed; and a single run, on no encoder at all, when the video is copied.
   */
  lemma {:induction false} JobLadder(caps: seq<Capability>, base: Request)
    ensures var r := Ladder(WaysOf(caps, base), First(caps, base), false);
            && |r| <= 5
            && (forall i, j :: 0 <= i < j < |r| ==> r[i] != r[j])
            && (EncodesVideo(base.plan.streams) ==> r[|r|-1] == Attempt(Some(Software), SoftwareDecode))
            && (!EncodesVideo(base.plan.streams) ==> r == [Attempt(None, SoftwareDecode)])
            && forall a :: a in r ==>
                 && (a.encoder == Some(Qsv) ==> Encodes(caps, QsvBackend, base.plan.hdr))
                 && (a.encoder == Some(Vaapi) ==> Encodes(caps, VaapiBackend, base.plan.hdr))
  {
    var first, w := First(caps, base), WaysOf(caps, base);
    var r := Ladder(w, first, false);
    forall i, j | 0 <= i < j < |r| ensures r[i] != r[j] { NoAttemptTwice(w, first, false, i, j); }
    forall i: nat | i < |r|
      ensures r[i].encoder == Some(Qsv) ==> first == Some(Qsv)
      ensures r[i].encoder == Some(Vaapi) ==> first == Some(Vaapi) || w.vaapiWorks
    {
      OnlyProbedEncoders(w, first, false, i);
    }
    if EncodesVideo(base.plan.streams) {
      LadderIsShort(w, first, false);
      SoftwareIsLast(w, first, false);
    }
  }

  // ---------- the ladder, rung by rung ----------

  /** The encode probe of a backend worked, in the depth the plan asks for. */
  ghost predicate EncoderWorks(caps: seq<Capability>, backend: Backend, hdr: bool) {
    Probed(caps, Question(backend, EncodeProbe, Hevc, if hdr then Main10 else Main))
  }

  /** The silicon decodes the codec; of VP9 the driver has to have shown that it does too. */
  ghost predicate DecoderWorks(caps: seq<Capability>, backend: Backend, codec: Codec) {
    && codec in {H264, Hevc, Mpeg2Video, Vc1, Vp9}
    && (codec == Vp9 ==> Probed(caps, Question(backend, DecodeProbe, Vp9, NO_PROFILE)))
  }

  /** The runs of one hardware encoder: in hardware decode if that works, then in software decode. */
  ghost function RungsOf(caps: seq<Capability>, base: Request, e: Encoder, backend: Backend): seq<Attempt> {
    if !EncoderWorks(caps, backend, base.plan.hdr) then []
    else
      (if DecoderWorks(caps, backend, base.sourceCodec) then [Attempt(Some(e), HardwareDecode)] else [])
      + [Attempt(Some(e), SoftwareDecode)]
  }

  lemma {:induction false} WaysExactly(caps: seq<Capability>, base: Request)
    ensures var w := WaysOf(caps, base);
      && (w.vaapiWorks <==> EncoderWorks(caps, VaapiBackend, base.plan.hdr))
      && (First(caps, base) == Some(Qsv) <==>
            EncodesVideo(base.plan.streams) && EncoderWorks(caps, QsvBackend, base.plan.hdr))
      && (First(caps, base) == Some(Vaapi) <==>
            && EncodesVideo(base.plan.streams) && !EncoderWorks(caps, QsvBackend, base.plan.hdr)
            && EncoderWorks(caps, VaapiBackend, base.plan.hdr))
  {
    WorksExactly(caps, Question(QsvBackend, EncodeProbe, Hevc, ProfileFor(base.plan.hdr)));
    WorksExactly(caps, Question(VaapiBackend, EncodeProbe, Hevc, ProfileFor(base.plan.hdr)));
  }

  lemma {:induction false} DecodesExactly(caps: seq<Capability>, base: Request)
    requires EncodesVideo(base.plan.streams)
    ensures WaysOf(caps, base).qsvDecodes <==> DecoderWorks(caps, QsvBackend, base.sourceCodec)
    ensures WaysOf(caps, base).vaapiDecodes <==> DecoderWorks(caps, VaapiBackend, base.sourceCodec)
  {
    WorksExactly(caps, Question(QsvBackend, DecodeProbe, Vp9, NO_PROFILE));
    WorksExactly(caps, Question(VaapiBackend, DecodeProbe, Vp9, NO_PROFILE));
  }

  lemma {:induction false} SoftwareRung(w: Ways)
    requires w.encodes
    ensures Ladder(w, Some(Software), false) == [Attempt(Some(Software), SoftwareDecode)]
  {
  }

  lemma {:induction false} VaapiRungs(w: Ways)
    requires w.encodes
    ensures Ladder(w, Some(Vaapi), false)
         == (if w.vaapiDecodes then [Attempt(Some(Vaapi), HardwareDecode)] else [])
            + [Attempt(Some(Vaapi), SoftwareDecode), Attempt(Some(Software), SoftwareDecode)]
  {
    SoftwareRung(w);
    assert Ladder(w, Some(Vaapi), true)
        == [Attempt(Some(Vaapi), SoftwareDecode), Attempt(Some(Software), SoftwareDecode)];
  }

  lemma {:induction false} QsvRungs(w: Ways)
    requires w.encodes
    ensures Ladder(w, Some(Qsv), false)
         == (if w.qsvDecodes then [Attempt(Some(Qsv), HardwareDecode)] else []) + [Attempt(Some(Qsv), SoftwareDecode)]
            + Ladder(w, Some(if w.vaapiWorks then Vaapi else Software), false)
  {
    assert Ladder(w, Some(Qsv), true)
        == [Attempt(Some(Qsv), SoftwareDecode)] + Ladder(w, Some(if w.vaapiWorks then Vaapi else Software), false);
  }

  /**
   The runs of a video encode: QSV if its probe worked, VAAPI if its probe worked, each in hardware decode first where
   that works, and libx265 at the end.
   */
  lemma {:induction false} LadderExactly(caps: seq<Capability>, base: Request)
    requires EncodesVideo(base.plan.streams)
    ensures Ladder(WaysOf(caps, base), First(caps, base), false)
         == RungsOf(caps, base, Qsv, QsvBackend) + RungsOf(caps, base, Vaapi, VaapiBackend)
            + [Attempt(Some(Software), SoftwareDecode)]
  {
    var w := WaysOf(caps, base);
    WaysExactly(caps, base);
    DecodesExactly(caps, base);
    SoftwareRung(w);
    VaapiRungs(w);
    QsvRungs(w);
  }
}
