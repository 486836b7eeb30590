/**
 The validator against the compiler. The compiler writes all audio before all subtitles; the validator sorts
 one numbering per type across the types. The two orders agree exactly when there is at most one audio
 stream or no subtitle stream, and that is the only thing about the streams on which a faithful output can
 be refused, besides a Dolby Vision profile 5 record the MP4 muxer cannot carry.
 */
module Validator {
  import opened Wrappers
  import opened Media
  import opened Policy
  import opened Decide
  import opened Argv
  import opened Ffmpeg
  import opened Realise
  import opened Converge
  import V = Verify

  /** The kept streams of one type carry the indices 0, 1, 2, ... in order. */
  ghost predicate Indexed(kept: seq<StreamPlan>) {
    forall i :: 0 <= i < |kept| ==> kept[i].output == Some(i)
  }

  /** Audio from index i on merged with all subtitles, both from index k on: index by index, audio first. */
  ghost function Weave(a: seq<StreamPlan>, s: seq<StreamPlan>, i: nat, k: nat): seq<StreamPlan>
    decreases |a| + |s| - k
  {
    if k >= |a| && k >= |s| then []
    else (if i <= k < |a| then [a[k]] else []) + (if k < |s| then [s[k]] else []) + Weave(a, s, i, k + 1)
  }

  lemma {:induction false} WeaveLate(a: seq<StreamPlan>, s: seq<StreamPlan>, i: nat, j: nat, k: nat)
    requires i <= k && j <= k
    ensures Weave(a, s, i, k) == Weave(a, s, j, k)
    decreases |a| + |s| - k
  {
    if k < |a| || k < |s| {
      WeaveLate(a, s, i, j, k + 1);
    }
  }

  lemma {:induction false} WeaveFirst(a: seq<StreamPlan>, s: seq<StreamPlan>, i: nat, k: nat)
    requires Indexed(a) && Indexed(s) && Weave(a, s, i, k) != []
    ensures V.Key(Weave(a, s, i, k)[0]) >= k
    decreases |a| + |s| - k
  {
    if !(i <= k < |a|) && !(k < |s|) {
      WeaveFirst(a, s, i, k + 1);
    }
  }

  lemma {:induction false} WeaveStep(a: seq<StreamPlan>, s: seq<StreamPlan>, i: nat, k: nat)
    requires k < i <= |a|
    ensures Weave(a, s, i, k) == (if k < |s| then [s[k]] else []) + Weave(a, s, i, k + 1)
  {
    assert [] + (if k < |s| then [s[k]] else []) == if k < |s| then [s[k]] else [];
  }

  /** Inserting the next audio stream from the back extends the weave by it. */
  lemma {:induction false} InsertIntoWeave(a: seq<StreamPlan>, s: seq<StreamPlan>, i: nat, k: nat)
    requires Indexed(a) && Indexed(s) && k <= i < |a|
    ensures V.Insert(a[i], Weave(a, s, i + 1, k)) == Weave(a, s, i, k)
    decreases i - k
  {
    if k == i {
      InsertAtItsIndex(a, s, i);
    } else {
      InsertIntoWeave(a, s, i, k + 1);
      InsertedBefore(a, s, i, k);
    }
  }

  lemma {:induction false} InsertedBefore(a: seq<StreamPlan>, s: seq<StreamPlan>, i: nat, k: nat)
    requires Indexed(a) && Indexed(s) && k < i < |a|
    requires V.Insert(a[i], Weave(a, s, i + 1, k + 1)) == Weave(a, s, i, k + 1)
    ensures V.Insert(a[i], Weave(a, s, i + 1, k)) == Weave(a, s, i, k)
  {
    WeaveStep(a, s, i + 1, k);
    WeaveStep(a, s, i, k);
    InsertPastSome(a[i], if k < |s| then [s[k]] else [], Weave(a, s, i + 1, k + 1));
  }

  lemma {:induction false} InsertPast(x: StreamPlan, y: StreamPlan, rest: seq<StreamPlan>)
    requires V.Key(y) < V.Key(x)
    ensures V.Insert(x, [y] + rest) == [y] + V.Insert(x, rest)
  {
    assert ([y] + rest)[1..] == rest;
  }

  lemma {:induction false} InsertPastSome(x: StreamPlan, y: seq<StreamPlan>, rest: seq<StreamPlan>)
    requires y == [] || (|y| == 1 && V.Key(y[0]) < V.Key(x))
    ensures V.Insert(x, y + rest) == y + V.Insert(x, rest)
  {
    if y == [] {
      assert y + rest == rest && y + V.Insert(x, rest) == V.Insert(x, rest);
    } else {
      InsertPast(x, y[0], rest);
      assert y == [y[0]];
    }
  }

  lemma {:induction false} WeaveHere(a: seq<StreamPlan>, s: seq<StreamPlan>, i: nat)
    requires i < |a|
    ensures Weave(a, s, i, i) == [a[i]] + (if i < |s| then [s[i]] else []) + Weave(a, s, i, i + 1)
  {
  }

  lemma {:induction false} Regroup(x: seq<StreamPlan>, y: seq<StreamPlan>, z: seq<StreamPlan>)
    ensures x + y + z == x + (y + z)
  {
  }

  lemma {:induction false} WeaveOwn(a: seq<StreamPlan>, s: seq<StreamPlan>, i: nat)
    requires i < |a|
    ensures Weave(a, s, i, i) == [a[i]] + Weave(a, s, i + 1, i)
  {
    var sub := if i < |s| then [s[i]] else [];
    WeaveHere(a, s, i);
    WeaveLate(a, s, i, i + 1, i + 1);
    WeaveStep(a, s, i + 1, i);
    Regroup([a[i]], sub, Weave(a, s, i + 1, i + 1));
  }

  lemma {:induction false} InsertAtItsIndex(a: seq<StreamPlan>, s: seq<StreamPlan>, i: nat)
    requires Indexed(a) && Indexed(s) && i < |a|
    ensures V.Insert(a[i], Weave(a, s, i + 1, i)) == Weave(a, s, i, i)
  {
    WeaveOwn(a, s, i);
    if Weave(a, s, i + 1, i) != [] {
      WeaveFirst(a, s, i + 1, i);
    }
  }

  lemma {:induction false} SortOfIndexed(s: seq<StreamPlan>, k: nat)
    requires forall i :: 0 <= i < |s| ==> s[i].output == Some(k + i)
    ensures V.SortByOutput(s) == s
  {
    if s != [] {
      SortOfIndexed(s[1..], k + 1);
    }
  }

  lemma {:induction false} WeaveOfSubtitles(a: seq<StreamPlan>, s: seq<StreamPlan>, k: nat)
    requires k <= |s|
    ensures Weave(a, s, |a|, k) == s[k..]
    decreases |s| - k
  {
    if k < |s| {
      WeaveOfSubtitles(a, s, k + 1);
      assert s[k..] == [s[k]] + s[k+1..];
    } else {
      NothingLeft(a, s, k);
    }
  }

  lemma {:induction false} NothingLeft(a: seq<StreamPlan>, s: seq<StreamPlan>, k: nat)
    requires k >= |s|
    ensures Weave(a, s, |a|, k) == []
    decreases |a| + |s| - k
  {
    if k < |a| {
      NothingLeft(a, s, k + 1);
    }
  }

  lemma {:induction false} SortCons(x: StreamPlan, rest: seq<StreamPlan>)
    ensures V.SortByOutput([x] + rest) == V.Insert(x, V.SortByOutput(rest))
  {
    assert ([x] + rest)[1..] == rest;
  }

  /** The stable sort of all audio followed by all subtitles is their weave. */
  lemma {:induction false} SortIsWeave(a: seq<StreamPlan>, s: seq<StreamPlan>, i: nat)
    requires Indexed(a) && Indexed(s) && i <= |a|
    ensures V.SortByOutput(a[i..] + s) == Weave(a, s, i, 0)
    decreases |a| - i
  {
    if i == |a| {
      assert a[i..] + s == s;
      SortOfIndexed(s, 0);
      WeaveOfSubtitles(a, s, 0);
    } else {
      assert a[i..] + s == [a[i]] + (a[i+1..] + s);
      SortCons(a[i], a[i+1..] + s);
      SortIsWeave(a, s, i + 1);
      InsertIntoWeave(a, s, i, 0);
    }
  }

  lemma {:induction false} WeaveOfAudio(a: seq<StreamPlan>, k: nat)
    requires k <= |a|
    ensures Weave(a, [], 0, k) == a[k..]
    decreases |a| - k
  {
    if k < |a| {
      WeaveOfAudio(a, k + 1);
      assert a[k..] == [a[k]] + a[k+1..];
    }
  }

  /** What the validator expects of one video stream, the audio and the subtitles. */
  lemma {:induction false} ExpectedOrder(v: StreamPlan, a: seq<StreamPlan>, s: seq<StreamPlan>)
    requires v.output == Some(0) && Indexed(a) && Indexed(s)
    ensures V.SortByOutput([v] + a + s) == [v] + Weave(a, s, 0, 0)
  {
    assert [v] + a + s == [v] + (a[0..] + s);
    SortCons(v, a[0..] + s);
    SortIsWeave(a, s, 0);
  }

  /** The weave of at most one audio stream, or of no subtitles, is the compiler's order. */
  lemma {:induction false} WeaveInOrder(a: seq<StreamPlan>, s: seq<StreamPlan>)
    requires |a| <= 1 || s == []
    ensures Weave(a, s, 0, 0) == a + s
  {
    if s == [] {
      WeaveOfAudio(a, 0);
    } else if |a| == 0 {
      WeaveOfSubtitles(a, s, 0);
    } else {
      WeaveHere(a, s, 0);
      WeaveLate(a, s, 0, 1, 1);
      WeaveOfSubtitles(a, s, 1);
      Regroup([a[0]], [s[0]], s[1..]);
    }
  }

  /** Otherwise a subtitle comes before the second audio stream. */
  lemma {:induction false} WeaveOutOfOrder(a: seq<StreamPlan>, s: seq<StreamPlan>)
    requires |a| > 1 && s != []
    ensures |Weave(a, s, 0, 0)| > 1 && Weave(a, s, 0, 0)[1] == s[0]
  {
    WeaveHere(a, s, 0);
  }

  /** The compiler's order is the validator's exactly for at most one audio stream or no subtitles. */
  lemma {:induction false} OrdersAgree(v: StreamPlan, a: seq<StreamPlan>, s: seq<StreamPlan>, got: seq<Stream>)
    requires v.output == Some(0) && Indexed(a) && Indexed(s) && v.kind == Video
    requires (forall p :: p in a ==> p.kind == Audio) && (forall p :: p in s ==> p.kind == Subtitle)
    requires |got| == 1 + |a| + |s|
    requires forall i :: 0 <= i < |got| ==>
        got[i].kind == (if i == 0 then Video else if i <= |a| then Audio else Subtitle)
    ensures V.SameShape(V.SortByOutput([v] + a + s), got) <==> |a| <= 1 || s == []
  {
    ExpectedOrder(v, a, s);
    if |a| <= 1 || s == [] {
      WeaveInOrder(a, s);
    } else {
      WeaveOutOfOrder(a, s);
      assert ([v] + Weave(a, s, 0, 0))[2] == s[0];
    }
  }

  // ---------- the indices the plan carries ----------

  /** Numbering keeps which streams are kept, and counts them. */
  lemma {:induction false} AssignedPrefix(plans: seq<StreamPlan>, n: nat, kind: StreamType)
    requires n <= |plans|
    ensures |KeptOf(Assigned(plans)[..n], kind)| == |KeptOf(plans[..n], kind)|
    ensures Indexed(KeptOf(Assigned(plans)[..n], kind))
  {
    if n > 0 {
      var done := Assigned(plans);
      AssignedPrefix(plans, n - 1, kind);
      KeptOfSnoc(done, n - 1, kind);
      KeptOfSnoc(plans, n - 1, kind);
      assert done[n-1] == AssignedAt(plans, n - 1);
    }
  }

  /**
   The indices assigned in place are the positions the compiler counts in its three passes: the kept streams
   of each type carry 0, 1, 2, ... in order, whatever the order of the list.
   */
  lemma {:induction false} AssignedIsIndexed(plans: seq<StreamPlan>, kind: StreamType)
    ensures Indexed(KeptOf(Assigned(plans), kind))
  {
    AssignedPrefix(plans, |plans|, kind);
    assert Assigned(plans)[..|plans|] == Assigned(plans);
  }

  /** The compiler's own position for a stream is the index the plan recorded for it. */
  lemma {:induction false} PositionsAreTheIndices(plans: seq<StreamPlan>, j: nat)
    requires j < |OutputStreams(Assigned(plans))|
    ensures OutputStreams(Assigned(plans))[j].plan.output == Some(OutputStreams(Assigned(plans))[j].pos)
  {
    AssignedIsIndexed(plans, Video);
    AssignedIsIndexed(plans, Audio);
    AssignedIsIndexed(plans, Subtitle);
  }

  /** Streams of one type, each numbered if it is kept. */
  predicate OneType(s: seq<StreamPlan>, kind: StreamType) {
    forall p :: p in s ==> p.kind == kind && (p.Kept() ==> p.output.Some?)
  }

  lemma {:induction false} MappedOfOneType(s: seq<StreamPlan>, of: StreamType, kind: StreamType)
    requires OneType(s, of)
    ensures KeptOf(s, kind) == if kind == of then V.MappedOf(s) else []
  {
    if s != [] {
      assert s[0] in s;
      MappedOfOneType(s[1..], of, kind);
      assert [] + V.MappedOf(s[1..]) == V.MappedOf(s[1..]);
    }
  }

  lemma {:induction false} GroupOf(v: seq<StreamPlan>, a: seq<StreamPlan>, s: seq<StreamPlan>, kind: StreamType)
    requires OneType(v, Video) && OneType(a, Audio) && OneType(s, Subtitle) && kind != OtherType
    ensures KeptOf(v + a + s, kind) == V.MappedOf(if kind == Video then v else if kind == Audio then a else s)
  {
    KeptOfConcat(v + a, s, kind);
    KeptOfConcat(v, a, kind);
    MappedOfOneType(v, Video, kind);
    MappedOfOneType(a, Audio, kind);
    MappedOfOneType(s, Subtitle, kind);
  }

  lemma {:induction false} MappedByType(v: seq<StreamPlan>, a: seq<StreamPlan>, s: seq<StreamPlan>)
    requires OneType(v, Video) && OneType(a, Audio) && OneType(s, Subtitle)
    ensures V.MappedOf(v + a + s) == KeptOf(v + a + s, Video) + KeptOf(v + a + s, Audio) + KeptOf(v + a + s, Subtitle)
  {
    V.MappedOfConcat(v + a, s);
    V.MappedOfConcat(v, a);
    GroupOf(v, a, s, Video);
    GroupOf(v, a, s, Audio);
    GroupOf(v, a, s, Subtitle);
  }

  lemma {:induction false} GroupedMapped(s: seq<StreamPlan>, v: nat, a: nat)
    requires v + a <= |s|
    requires forall i :: 0 <= i < |s| ==> s[i].kind == (if i < v then Video else if i < v + a then Audio else Subtitle)
    requires forall i :: 0 <= i < |s| ==> (s[i].Kept() ==> s[i].output.Some?)
    ensures V.MappedOf(s) == KeptOf(s, Video) + KeptOf(s, Audio) + KeptOf(s, Subtitle)
  {
    MappedByType(s[..v], s[v..v+a], s[v+a..]);
    assert s[..v] + s[v..v+a] + s[v+a..] == s;
  }

  lemma {:induction false} DraftMapped(probe: Probe, o: Options, primary: nat)
    requires primary < |Videos(probe)|
    ensures var s := Draft(probe, o, primary).streams;
      V.MappedOf(s) == KeptOf(s, Video) + KeptOf(s, Audio) + KeptOf(s, Subtitle)
  {
    DraftLength(probe, o, primary);
    DraftGroups(probe, o, primary);
    GroupedMapped(Draft(probe, o, primary).streams, |Videos(probe)|, |Audios(probe)|);
  }

  lemma {:induction false} DraftGroups(probe: Probe, o: Options, primary: nat)
    requires primary < |Videos(probe)|
    ensures var s, v, a := Draft(probe, o, primary).streams, |Videos(probe)|, |Audios(probe)|;
      && (forall i :: 0 <= i < |s| ==> s[i].kind == (if i < v then Video else if i < v + a then Audio else Subtitle))
      && (forall i :: 0 <= i < |s| ==> (s[i].Kept() ==> s[i].output.Some?))
  {
    var s, v, a := Draft(probe, o, primary).streams, |Videos(probe)|, |Audios(probe)|;
    forall i | 0 <= i < |s|
      ensures s[i].kind == (if i < v then Video else if i < v + a then Audio else Subtitle)
      ensures s[i].Kept() ==> s[i].output.Some?
    {
      DraftAt(probe, o, primary, i);
    }
  }

  lemma {:induction false} DraftIndexed(probe: Probe, o: Options, primary: nat, kind: StreamType)
    requires primary < |Videos(probe)|
    ensures Indexed(KeptOf(Draft(probe, o, primary).streams, kind))
  {
    AssignedIsIndexed(
      VideoPlans(Videos(probe), primary, VerdictOf(Videos(probe)[primary], o.idet))
      + AudioPlans(Audios(probe), ContainerFor(o.ext)) + SubtitlePlans(Subtitles(probe), ContainerFor(o.ext)), kind);
  }

  // ---------- the theorem ----------

  /** The streams verification looks at: the probed ones without cover art. */
  function Probed(streams: seq<Stream>): seq<Stream> {
    if streams == [] then []
    else (if streams[0].attachedPic then [] else [streams[0]]) + Probed(streams[1..])
  }

  lemma {:induction false} NoCoverArt(streams: seq<Stream>)
    requires forall s :: s in streams ==> !s.attachedPic
    ensures Probed(streams) == streams
  {
    if streams != [] {
      NoCoverArt(streams[1..]);
    }
  }

  /** The file a plan's option list writes, probed for verification. */
  ghost function Staged(args: seq<Token>, probe: Probe, free: Choices, duration: real, size: int): V.Output
    requires Runs(args, probe, free)
  {
    V.Output(duration, Probed(OutputOf(args, probe, free).streams), size)
  }

  ghost predicate AllOf(streams: seq<Stream>, kind: StreamType) {
    forall i :: 0 <= i < |streams| ==> streams[i].kind == kind && !streams[i].attachedPic
  }

  lemma {:induction false} RealisedAllOf(p: Plan, kept: seq<StreamPlan>, probe: Probe, free: Choices, kind: StreamType)
    requires forall sp :: sp in kept ==>
        sp.kind == kind && !LacksCodec(sp) && sp.source < |StreamsOfType(probe.streams, sp.kind)|
    ensures AllOf(RealisedStreams(p, kept, probe, free), kind)
  {
    var r := RealisedStreams(p, kept, probe, free);
    forall i | 0 <= i < |r| ensures r[i].kind == kind && !r[i].attachedPic {
      RealisedKeptAt(p, kept, probe, free, kind, i);
    }
  }

  lemma {:induction false} KindsByPosition(x: seq<Stream>, y: seq<Stream>, z: seq<Stream>)
    requires AllOf(x, Video) && AllOf(y, Audio) && AllOf(z, Subtitle)
    ensures forall i :: 0 <= i < |x + y + z| ==>
      && !(x + y + z)[i].attachedPic
      && (x + y + z)[i].kind == if i < |x| then Video else if i < |x| + |y| then Audio else Subtitle
  {
  }

  /** What the output streams of a plan look like to the shape check. */
  lemma {:induction false} OutputKinds(req: Argv.Request, cmd: Command, probe: Probe, free: Choices)
    requires Build(req) == Success(cmd) && Sourced(req, probe)
    ensures Runs(cmd.args, probe, free)
    ensures var got := OutputOf(cmd.args, probe, free).streams;
      var v, a := |KeptOf(req.plan.streams, Video)|, |KeptOf(req.plan.streams, Audio)|;
      && |got| == v + a + |KeptOf(req.plan.streams, Subtitle)|
      && forall i :: 0 <= i < |got| ==>
           && !got[i].attachedPic
           && got[i].kind == if i < v then Video else if i < v + a then Audio else Subtitle
  {
    var p := req.plan;
    BuildRealisesThePlan(req, cmd, probe, free);
    KeptOfMembers(p.streams, Video);
    KeptOfMembers(p.streams, Audio);
    KeptOfMembers(p.streams, Subtitle);
    RealisedAllOf(p, KeptOf(p.streams, Video), probe, free, Video);
    RealisedAllOf(p, KeptOf(p.streams, Audio), probe, free, Audio);
    RealisedAllOf(p, KeptOf(p.streams, Subtitle), probe, free, Subtitle);
    KindsByPosition(
      RealisedStreams(p, KeptOf(p.streams, Video), probe, free),
      RealisedStreams(p, KeptOf(p.streams, Audio), probe, free),
      RealisedStreams(p, KeptOf(p.streams, Subtitle), probe, free));
  }

  /** One kept video stream, and the mapped streams listed by type, each type numbered in order. */
  ghost predicate Ordered(streams: seq<StreamPlan>) {
    && |KeptOf(streams, Video)| == 1
    && Indexed(KeptOf(streams, Video)) && Indexed(KeptOf(streams, Audio)) && Indexed(KeptOf(streams, Subtitle))
    && V.MappedOf(streams) == KeptOf(streams, Video) + KeptOf(streams, Audio) + KeptOf(streams, Subtitle)
  }

  lemma {:induction false} DraftIsOrdered(probe: Probe, o: Options, primary: nat)
    requires primary < |Videos(probe)|
    ensures Ordered(Draft(probe, o, primary).streams)
  {
    DraftKeepsThePrimary(probe, o, primary);
    DraftMapped(probe, o, primary);
    DraftIndexed(probe, o, primary, Video);
    DraftIndexed(probe, o, primary, Audio);
    DraftIndexed(probe, o, primary, Subtitle);
  }

  lemma {:induction false} ShapeByKinds(streams: seq<StreamPlan>, got: seq<Stream>)
    requires Ordered(streams)
    requires |got| == 1 + |KeptOf(streams, Audio)| + |KeptOf(streams, Subtitle)|
    requires forall i :: 0 <= i < |got| ==>
      got[i].kind == if i < 1 then Video else if i < 1 + |KeptOf(streams, Audio)| then Audio else Subtitle
    ensures V.SameShape(V.Expected(streams), got)
      <==> |KeptOf(streams, Audio)| <= 1 || KeptOf(streams, Subtitle) == []
  {
    var v, a, s := KeptOf(streams, Video), KeptOf(streams, Audio), KeptOf(streams, Subtitle);
    KeptOfMembers(streams, Video);
    KeptOfMembers(streams, Audio);
    KeptOfMembers(streams, Subtitle);
    assert v[0] in v && v == [v[0]];
    OrdersAgree(v[0], a, s, got);
  }

  /** The shape check accepts the faithful output exactly when the two orders agree. */
  lemma {:induction false} ShapeOfFaithfulOutput(req: Argv.Request, cmd: Command, probe: Probe, free: Choices)
    requires Ordered(req.plan.streams)
    requires Build(req) == Success(cmd) && Sourced(req, probe)
    ensures Runs(cmd.args, probe, free)
    ensures Probed(OutputOf(cmd.args, probe, free).streams) == OutputOf(cmd.args, probe, free).streams
    ensures V.SameShape(V.Expected(req.plan.streams), OutputOf(cmd.args, probe, free).streams)
      <==> |KeptOf(req.plan.streams, Audio)| <= 1 || KeptOf(req.plan.streams, Subtitle) == []
  {
    OutputKinds(req, cmd, probe, free);
    var got := OutputOf(cmd.args, probe, free).streams;
    NoCoverArt(got);
    ShapeByKinds(req.plan.streams, got);
  }

  /** The kept audio languages are all there. */
  lemma {:induction false} LanguagesSurvive(req: Argv.Request, cmd: Command, probe: Probe, free: Choices, p: StreamPlan)
    requires Build(req) == Success(cmd) && Sourced(req, probe)
    requires p in req.plan.streams && p.Kept() && p.kind == Audio && p.language != ""
    ensures Runs(cmd.args, probe, free)
    ensures V.HasLanguage(OutputOf(cmd.args, probe, free).streams, V.Lower(p.language))
  {
    BuildRealisesThePlan(req, cmd, probe, free);
    KeptOfMembers(req.plan.streams, Audio);
    var kept := KeptOf(req.plan.streams, Audio);
    var i :| 0 <= i < |kept| && kept[i] == p;
    var r := RealisedStreams(req.plan, kept, probe, free);
    RealisedKeptAt(req.plan, kept, probe, free, Audio, i);
    assert r[i] in r && r[i].kind == Audio && r[i].LanguageOrUnd() == p.language;
    assert r[i] in OutputOf(cmd.args, probe, free).streams;
  }

  lemma {:induction false} SomeSoundComesOut(
    req: Argv.Request, cmd: Command, probe: Probe, free: Choices, out: V.Output)
    requires Build(req) == Success(cmd) && Sourced(req, probe)
    requires Runs(cmd.args, probe, free) && out.streams == OutputOf(cmd.args, probe, free).streams
    ensures exists s :: s in out.streams && s.kind == Audio
  {
    OutputStreamsByType(req, cmd, probe, free);
    var sounds := StreamsOfType(out.streams, Audio);
    assert |sounds| == |KeptOf(req.plan.streams, Audio)| > 0;
    SomeOfType(out.streams, Audio);
  }

  lemma {:induction false} SomeOfType(streams: seq<Stream>, kind: StreamType)
    requires StreamsOfType(streams, kind) != []
    ensures exists s :: s in streams && s.kind == kind
  {
    if streams[0].kind == kind {
      assert streams[0] in streams;
    } else {
      SomeOfType(streams[1..], kind);
      var s :| s in streams[1..] && s.kind == kind;
      assert s in streams;
    }
  }

  /** The faithful output passes every check about its audio. */
  lemma {:induction false} AudioOfFaithfulOutput(
    req: Argv.Request, cmd: Command, probe: Probe, free: Choices, r: V.Request, out: V.Output)
    requires Build(req) == Success(cmd) && Sourced(req, probe) && r.plan == req.plan
    requires Runs(cmd.args, probe, free) && out.streams == OutputOf(cmd.args, probe, free).streams
    ensures V.CheckAudio(r, out).Success?
  {
    SomeSoundComesOut(req, cmd, probe, free, out);
    forall p | p in V.Expected(req.plan.streams) && p.kind == Audio && p.language != ""
      ensures V.HasLanguage(out.streams, V.Lower(p.language))
    {
      V.ExpectedMembers(req.plan.streams, p);
      LanguagesSurvive(req, cmd, probe, free, p);
    }
  }

  /** The first video stream of the faithful output is the primary one, realised. */
  lemma {:induction false} FirstVideoRealised(req: Argv.Request, cmd: Command, probe: Probe, free: Choices)
    requires Build(req) == Success(cmd) && Sourced(req, probe)
    requires |KeptOf(req.plan.streams, Video)| == 1
    ensures Runs(cmd.args, probe, free)
    ensures var vp := KeptOf(req.plan.streams, Video)[0];
      && vp.kind == Video && !LacksCodec(vp) && vp.source < |StreamsOfType(probe.streams, Video)|
      && V.FirstVideo(OutputOf(cmd.args, probe, free).streams)
         == Some(Realised(req.plan, vp, SourceOf(probe, vp), free(Video, 0)))
  {
    BuildRealisesThePlan(req, cmd, probe, free);
    KeptOfMembers(req.plan.streams, Video);
    var kept := KeptOf(req.plan.streams, Video);
    assert kept[0] in kept;
    assert OutputOf(cmd.args, probe, free).streams[0]
        == Realised(req.plan, kept[0], SourceOf(probe, kept[0]), free(Video, 0));
  }

  /** On the faithful output of an ordered plan, only these are left to decide once the video checks pass. */
  lemma {:induction false} OrderedAccepted(
    req: Argv.Request, cmd: Command, probe: Probe, free: Choices, r: V.Request, duration: real, size: int)
    returns (out: V.Output)
    requires Build(req) == Success(cmd) && Sourced(req, probe) && Ordered(req.plan.streams) && r.plan == req.plan
    ensures Runs(cmd.args, probe, free) && out == Staged(cmd.args, probe, free, duration, size)
    ensures out.streams == OutputOf(cmd.args, probe, free).streams
    ensures V.CheckVideoCopy(r, out).Success? && V.CheckDolbyVision(r, out).Success? ==>
      (V.Accepts(r, out) <==>
        && V.LengthHolds(r, duration)
        && (|KeptOf(req.plan.streams, Audio)| <= 1 || KeptOf(req.plan.streams, Subtitle) == [])
        && (req.plan.kind.video ==> size <= r.sourceSize))
  {
    ShapeOfFaithfulOutput(req, cmd, probe, free);
    out := Staged(cmd.args, probe, free, duration, size);
    AudioOfFaithfulOutput(req, cmd, probe, free, r, out);
    AcceptedByEach(r, out);
  }

  /**
   The whole validator on the faithful output of a plan: it accepts if and only if its length is right,
   the plan keeps at most one audio stream or no subtitles, a Dolby Vision profile 5 record could be carried,
   and a re-encode did not grow the file.
   */
  lemma {:induction false} FaithfulOutputAccepted(
    probe: Probe, o: Options, a: Analysis, req: Argv.Request, cmd: Command, primary: nat, free: Choices,
    r: V.Request, duration: real, size: int)
    requires PlanOf(probe, o) == Success(a) && PrimaryVideo(Videos(probe)) == Some(primary)
    requires RequestFor(req, a.plan, o, Videos(probe)[primary]) && Build(req) == Success(cmd)
    requires r.plan == req.plan && (r.sourceVideo == None || r.sourceVideo == Some(Videos(probe)[primary]))
    ensures Runs(cmd.args, probe, free)
    ensures var out := Staged(cmd.args, probe, free, duration, size);
      V.Accepts(r, out) <==>
        && V.LengthHolds(r, duration)
        && (|KeptOf(req.plan.streams, Audio)| <= 1 || KeptOf(req.plan.streams, Subtitle) == [])
        && !(req.plan.dolby == Some(5) && req.plan.container == MP4 && req.sourceCodec != Hevc)
        && (req.plan.kind.video ==> size <= r.sourceSize)
  {
    FollowedRequest(probe, o, a, req, primary);
    var out := OrderedAccepted(req, cmd, probe, free, r, duration, size);
    VideoOfFollowed(probe, o, a, req, cmd, primary, free, r, out);
    AcceptedByEach(r, out);
  }

  lemma {:induction false} FollowedRequest(probe: Probe, o: Options, a: Analysis, req: Argv.Request, primary: nat)
    requires PlanOf(probe, o) == Success(a) && PrimaryVideo(Videos(probe)) == Some(primary)
    requires RequestFor(req, a.plan, o, Videos(probe)[primary])
    ensures Sourced(req, probe) && Ordered(req.plan.streams)
  {
    PlanIsSourced(probe, o, primary, req);
    DraftIsOrdered(probe, o, primary);
  }

  /** The copy and Dolby Vision checks on the faithful output of the engine's own plan. */
  lemma {:induction false} VideoOfFollowed(
    probe: Probe, o: Options, a: Analysis, req: Argv.Request, cmd: Command, primary: nat, free: Choices,
    r: V.Request, out: V.Output)
    requires PlanOf(probe, o) == Success(a) && PrimaryVideo(Videos(probe)) == Some(primary)
    requires RequestFor(req, a.plan, o, Videos(probe)[primary]) && Build(req) == Success(cmd) && Sourced(req, probe)
    requires r.plan == req.plan && (r.sourceVideo == None || r.sourceVideo == Some(Videos(probe)[primary]))
    requires Runs(cmd.args, probe, free) && out.streams == OutputOf(cmd.args, probe, free).streams
    ensures V.CheckVideoCopy(r, out).Success?
    ensures V.CheckDolbyVision(r, out).Success?
      <==> !(req.plan.dolby == Some(5) && req.plan.container == MP4 && req.sourceCodec != Hevc)
  {
    DraftKeepsThePrimary(probe, o, primary);
    FirstVideoRealised(req, cmd, probe, free);
    var vp := KeptOf(req.plan.streams, Video)[0];
    CopyOfFaithfulOutput(req, Videos(probe)[primary], vp, free(Video, 0), r, out, o.idet);
    DolbyOfFaithfulOutput(req, Videos(probe)[primary], vp, free(Video, 0), r, out, o.idet);
  }

  lemma {:induction false} AcceptedByEach(r: V.Request, out: V.Output)
    ensures V.Accepts(r, out) <==>
      && V.LengthHolds(r, out.duration)
      && V.SameShape(V.Expected(r.plan.streams), out.streams)
      && V.CheckAudio(r, out).Success?
      && V.CheckVideoCopy(r, out).Success?
      && V.CheckDolbyVision(r, out).Success?
      && (r.plan.kind.video ==> out.size <= r.sourceSize)
  {
    V.AcceptsEach(r, out);
    V.DurationExactly(r, out);
  }

  /** The copy check on the primary video stream, realised. */
  lemma {:induction false} CopyOfFaithfulOutput(
    req: Argv.Request, video: Stream, vp: StreamPlan, free: Freedom, r: V.Request, out: V.Output, idet: Option<Scan>)
    requires KeptOf(req.plan.streams, Video) == [vp] && vp.kind == Video && !LacksCodec(vp)
    requires vp.decision == VerdictOf(video, idet).decision
    requires req.plan.levelRewrite == VerdictOf(video, idet).levelRewrite
    requires r.plan == req.plan && (r.sourceVideo == None || r.sourceVideo == Some(video))
    requires V.FirstVideo(out.streams) == Some(Realised(req.plan, vp, video, free))
    ensures V.CheckVideoCopy(r, out).Success?
  {
    if vp.decision == Copy {
      CopyAgrees(req.plan, vp, video, free, idet);
    }
  }

  lemma {:induction false} CopyAgrees(
    p: Plan, vp: StreamPlan, video: Stream, free: Freedom, idet: Option<Scan>)
    requires vp.kind == Video && vp.decision == Copy && !LacksCodec(vp)
    requires p.levelRewrite == VerdictOf(video, idet).levelRewrite
    ensures var out := Realised(p, vp, video, free);
      V.SameVideo(video, out) && V.LevelAgrees(p, video.LevelTenths(), out.LevelTenths())
  {
    RealisedCopy(p, vp, video, free);
    if p.levelRewrite {
      LevelRewriteIsH264(video, idet);
    }
  }

  lemma {:induction false} RealisedCopy(p: Plan, vp: StreamPlan, video: Stream, free: Freedom)
    requires vp.kind == Video && vp.decision == Copy
    ensures var out := Realised(p, vp, video, free);
      && out.codec == video.codec && out.profile == video.profile
      && out.width == video.width && out.height == video.height
      && out.level == if p.levelRewrite then 42 else video.level
  {
  }

  /** The Dolby Vision check on the same. */
  lemma {:induction false} DolbyOfFaithfulOutput(
    req: Argv.Request, video: Stream, vp: StreamPlan, free: Freedom, r: V.Request, out: V.Output, idet: Option<Scan>)
    requires vp.kind == Video && !LacksCodec(vp) && vp.decision == VerdictOf(video, idet).decision
    requires req.plan.dolby == video.dolby && req.sourceCodec == video.codec && r.plan == req.plan
    requires V.FirstVideo(out.streams) == Some(Realised(req.plan, vp, video, free))
    ensures V.CheckDolbyVision(r, out).Success?
      <==> !(req.plan.dolby == Some(5) && req.plan.container == MP4 && req.sourceCodec != Hevc)
  {
  }

  // ---------- which sources are refused ----------

  lemma {:induction false} AllKept(s: seq<StreamPlan>, kind: StreamType)
    requires forall p :: p in s ==> p.kind == kind && p.Kept()
    ensures KeptOf(s, kind) == s
  {
    if s != [] {
      AllKept(s[1..], kind);
    }
  }

  lemma {:induction false} MiddleKept(s: seq<StreamPlan>, v: nat, a: nat, kind: StreamType)
    requires v + a <= |s|
    requires forall i :: 0 <= i < |s| ==> if v <= i < v + a then s[i].kind == kind && s[i].Kept() else s[i].kind != kind
    ensures KeptOf(s, kind) == s[v..v+a]
  {
    assert s == s[..v] + s[v..v+a] + s[v+a..];
    KeptOfConcat(s[..v] + s[v..v+a], s[v+a..], kind);
    KeptOfConcat(s[..v], s[v..v+a], kind);
    NoneKept(s[..v], kind);
    NoneKept(s[v+a..], kind);
    AllKept(s[v..v+a], kind);
  }

  lemma {:induction false} SoundAt(probe: Probe, o: Options, primary: nat, i: nat)
    requires primary < |Videos(probe)| && i < |Draft(probe, o, primary).streams|
    ensures var p, v := Draft(probe, o, primary).streams[i], |Videos(probe)|;
            if v <= i < v + |Audios(probe)| then p.kind == Audio && p.Kept() else p.kind != Audio
  {
    DraftAt(probe, o, primary, i);
  }

  /** The engine never drops audio. */
  lemma {:induction false} EverySoundIsKept(probe: Probe, o: Options, primary: nat)
    requires primary < |Videos(probe)|
    ensures |KeptOf(Draft(probe, o, primary).streams, Audio)| == |Audios(probe)|
  {
    var s, v, a := Draft(probe, o, primary).streams, |Videos(probe)|, |Audios(probe)|;
    DraftLength(probe, o, primary);
    forall i | 0 <= i < |s|
      ensures if v <= i < v + a then s[i].kind == Audio && s[i].Kept() else s[i].kind != Audio
    {
      SoundAt(probe, o, primary, i);
    }
    MiddleKept(s, v, a, Audio);
  }

  /** So a sound stream's output index is its ordinal in the source. */
  lemma {:induction false} SoundIndex(probe: Probe, o: Options, primary: nat, i: nat)
    requires primary < |Videos(probe)| && i < |Audios(probe)|
    ensures |Videos(probe)| + i < |Draft(probe, o, primary).streams|
    ensures Draft(probe, o, primary).streams[|Videos(probe)| + i].output == Some(i)
  {
    var s, v, a := Draft(probe, o, primary).streams, |Videos(probe)|, |Audios(probe)|;
    DraftLength(probe, o, primary);
    forall i | 0 <= i < |s|
      ensures if v <= i < v + a then s[i].kind == Audio && s[i].Kept() else s[i].kind != Audio
    {
      SoundAt(probe, o, primary, i);
    }
    MiddleKept(s, v, a, Audio);
    DraftIndexed(probe, o, primary, Audio);
    assert s[v..v+a][i] == s[v+i];
  }

  lemma {:induction false} KeptIsText(probe: Probe, o: Options, primary: nat, p: StreamPlan)
    requires primary < |Videos(probe)| && p in Draft(probe, o, primary).streams && p.kind == Subtitle && p.Kept()
    ensures exists s :: s in Subtitles(probe) && IsTextSubtitle(s.codec)
  {
    var streams := Draft(probe, o, primary).streams;
    var i :| 0 <= i < |streams| && streams[i] == p;
    DraftAt(probe, o, primary, i);
    assert Subtitles(probe)[p.source] in Subtitles(probe);
  }

  lemma {:induction false} TextKept(probe: Probe, o: Options, primary: nat, s: Stream)
    requires primary < |Videos(probe)| && s in Subtitles(probe) && IsTextSubtitle(s.codec)
    ensures exists p :: p in Draft(probe, o, primary).streams && p.kind == Subtitle && p.Kept()
  {
    var i :| 0 <= i < |Subtitles(probe)| && Subtitles(probe)[i] == s;
    SubtitlePlanned(probe, o, primary, i);
  }

  /** And it keeps a subtitle exactly when it is text. */
  lemma {:induction false} TextIsKept(probe: Probe, o: Options, primary: nat)
    requires primary < |Videos(probe)|
    ensures KeptOf(Draft(probe, o, primary).streams, Subtitle) == [] <==>
            forall s :: s in Subtitles(probe) ==> !IsTextSubtitle(s.codec)
  {
    var kept := KeptOf(Draft(probe, o, primary).streams, Subtitle);
    KeptOfMembers(Draft(probe, o, primary).streams, Subtitle);
    if kept != [] {
      assert kept[0] in kept;
      KeptIsText(probe, o, primary, kept[0]);
    }
    if s :| s in Subtitles(probe) && IsTextSubtitle(s.codec) {
      TextKept(probe, o, primary, s);
    }
  }

  /** At most one sound track, or no text subtitles. */
  predicate SoundOrText(probe: Probe) {
    |Audios(probe)| <= 1 || forall s :: s in Subtitles(probe) ==> !IsTextSubtitle(s.codec)
  }

  /** The sources whose faithful output the validator accepts, read off the source itself. */
  predicate Acceptable(probe: Probe, o: Options, primary: nat)
    requires primary < |Videos(probe)|
  {
    var video := Videos(probe)[primary];
    && SoundOrText(probe)
    && !(video.dolby == Some(5) && ContainerFor(o.ext) == MP4 && video.codec != Hevc)
  }

  /**
   Given a plan of the source that was followed faithfully, the validator accepts if and only if the source is
   acceptable, the length is right and no re-encode grew the file.
   */
  lemma {:induction false} AcceptableExactly(
    probe: Probe, o: Options, a: Analysis, req: Argv.Request, cmd: Command, primary: nat, free: Choices,
    r: V.Request, duration: real, size: int)
    requires PlanOf(probe, o) == Success(a) && PrimaryVideo(Videos(probe)) == Some(primary)
    requires RequestFor(req, a.plan, o, Videos(probe)[primary]) && Build(req) == Success(cmd)
    requires r.plan == req.plan && (r.sourceVideo == None || r.sourceVideo == Some(Videos(probe)[primary]))
    ensures Runs(cmd.args, probe, free)
    ensures var out := Staged(cmd.args, probe, free, duration, size);
      V.Accepts(r, out) <==>
        && V.LengthHolds(r, duration) && Acceptable(probe, o, primary)
        && (a.plan.kind.video ==> size <= r.sourceSize)
  {
    FaithfulOutputAccepted(probe, o, a, req, cmd, primary, free, r, duration, size);
    EverySoundIsKept(probe, o, primary);
    TextIsKept(probe, o, primary);
    PlanStreams(probe, o, a, primary);
  }

  lemma {:induction false} PlanStreams(probe: Probe, o: Options, a: Analysis, primary: nat)
    requires PlanOf(probe, o) == Success(a) && PrimaryVideo(Videos(probe)) == Some(primary)
    ensures a.plan.streams == Draft(probe, o, primary).streams
    ensures a.plan.dolby == Videos(probe)[primary].dolby && a.plan.container == ContainerFor(o.ext)
  {
  }
}
