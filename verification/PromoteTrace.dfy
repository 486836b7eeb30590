/** What a promotion may do to the outside world, and in which order, read off the trace of its calls. */
module PromoteTrace {
  datatype Answer = Free | Streaming | Unanswered

  /** The calls that succeed or fail; HasRoom is the comparison of the free space with the output's size. */
  datatype Op =
    | Verify | Hash | ReadOutput | ReadSpace | HasRoom | Copy | Wait | SyncFile | SyncDir | Rename
    | SetOwner | SetMode | SetTimes | ReadResult | HashResult | Notify
  {
    predicate AfterTheRename() {
      SetOwner? || SetMode? || SetTimes? || ReadResult? || HashResult? || Notify?
    }
  }

  /** One call into the filesystem, the prober, the stream guard or the notifier, with what came back. */
  datatype Event = Begun | Call(op: Op, ok: bool) | SourceRead(ok: bool, links: nat) | Asked(answer: Answer) | Blocked
  {
    /** The answer ends the promotion with an error. */
    predicate Fatal() {
      || (Call? && !ok && op != SetOwner && op != Notify)
      || (SourceRead? && (!ok || links != 1))
    }

    predicate Renamed() {
      Call? && op == Rename
    }

    predicate Waited() {
      Call? && op == Wait
    }

    predicate Block() {
      Asked? && answer != Free
    }
  }

  /** The last event, as far as the next one depends on it. */
  datatype Last = Clear | Blocks | Reported | Other
  {
    predicate Settled() {
      Clear? || Other?
    }
  }

  function LastOf(e: Event): Last {
    if e == Blocked then Reported else if !e.Asked? then Other else if e.answer == Free then Clear else Blocks
  }

  /** What has happened since the promotion began: fileSynced and dirSynced only since the last deferral. */
  datatype Watch = Watch(
    lawful: bool, begun: bool, verified: bool, oneLink: bool, fileSynced: bool, dirSynced: bool,
    renamed: bool, failed: bool, last: Last)

  /** An event other than the start of another promotion that may come next. */
  predicate Allowed(w: Watch, e: Event) {
    && w.begun && (w.failed ==> w.renamed)
    && (w.last == Blocks <==> e == Blocked) && (w.last == Reported <==> e.Waited())
    && (e.Renamed() ==> w.verified && w.oneLink && w.fileSynced && w.dirSynced && w.last == Clear)
    && ((e.Call? && e.op.AfterTheRename()) <==> w.renamed)
    && (e.Call? && e.op == Notify ==> !w.failed)
  }

  function Observe(w: Watch, e: Event): Watch {
    if e == Begun then Watch(w.lawful, true, false, false, false, false, false, false, Other)
    else Watch(
      w.lawful && Allowed(w, e), w.begun,
      w.verified || e == Call(Verify, true), w.oneLink || e == SourceRead(true, 1),
      (w.fileSynced && !e.Waited()) || e == Call(SyncFile, true),
      (w.dirSynced && !e.Waited()) || e == Call(SyncDir, true),
      w.renamed || e == Call(Rename, true), w.failed || e.Fatal(), LastOf(e))
  }

  function After(trace: seq<Event>): Watch {
    if trace == [] then Watch(true, false, false, false, false, false, false, false, Other)
    else Observe(After(trace[..|trace|-1]), trace[|trace|-1])
  }

  lemma {:induction false} AfterSnoc(trace: seq<Event>, e: Event)
    ensures After(trace + [e]) == Observe(After(trace), e)
  {
    assert (trace + [e])[..|trace|] == trace;
  }

  lemma {:induction false} LawfulPrefix(trace: seq<Event>, k: nat)
    requires k <= |trace| && After(trace).lawful
    ensures After(trace[..k]).lawful
    decreases |trace| - k
  {
    if k < |trace| {
      LawfulPrefix(trace, k + 1);
      assert trace[..k+1] == trace[..k] + [trace[k]];
      AfterSnoc(trace[..k], trace[k]);
    } else {
      assert trace[..k] == trace;
    }
  }

  // ---------- what the flags mean ----------

  /** e happened at some position from a on, in this promotion. */
  ghost predicate Since(trace: seq<Event>, a: nat, e: Event) {
    exists i :: a <= i < |trace| && trace[i] == e
  }

  /** No promotion begins after position a. */
  ghost predicate SameCall(trace: seq<Event>, a: nat) {
    a < |trace| && trace[a] == Begun && forall i :: a < i < |trace| ==> trace[i] != Begun
  }

  ghost predicate NoDeferral(trace: seq<Event>, a: nat) {
    forall i :: a <= i < |trace| ==> !trace[i].Waited()
  }

  /** A flush made in this promotion, with no deferral since. */
  ghost predicate FlushedSince(trace: seq<Event>, a: nat, flush: Event) {
    exists i :: a <= i < |trace| && trace[i] == flush && NoDeferral(trace, i)
  }

  /** One event more keeps a flush unless it is a deferral, and makes one if it is that flush. */
  lemma {:induction false} FlushedSnoc(before: seq<Event>, e: Event, a: nat, flush: Event)
    requires !flush.Waited()
    requires a <= |before|
    ensures e == flush || (FlushedSince(before, a, flush) && !e.Waited()) ==> FlushedSince(before + [e], a, flush)
  {
    var after := before + [e];
    if e == flush {
      assert after[|before|] == flush && NoDeferral(after, |before|);
    } else if FlushedSince(before, a, flush) && !e.Waited() {
      var i :| a <= i < |before| && before[i] == flush && NoDeferral(before, i);
      assert after[i] == flush && NoDeferral(after, i);
    }
  }

  /**
   What the flags say of the call under way, which began at a: the source was read with one link, the output was
   verified, each flush was made since the last deferral, and whether a rename went through or something failed.
   */
  lemma {:induction false} FlagsMean(trace: seq<Event>) returns (a: nat)
    requires After(trace).begun
    ensures SameCall(trace, a)
    ensures After(trace).verified ==> Since(trace, a, Call(Verify, true))
    ensures After(trace).oneLink ==> Since(trace, a, SourceRead(true, 1))
    ensures After(trace).fileSynced ==> FlushedSince(trace, a, Call(SyncFile, true))
    ensures After(trace).dirSynced ==> FlushedSince(trace, a, Call(SyncDir, true))
    ensures After(trace).renamed <==> Since(trace, a, Call(Rename, true))
    ensures After(trace).failed <==> exists i :: a <= i < |trace| && trace[i].Fatal()
  {
    var n := |trace| - 1;
    var before, e := trace[..n], trace[n];
    if e == Begun {
      a := n;
    } else {
      a := FlagsMean(before);
      assert trace == before + [e];
      FlushedSnoc(before, e, a, Call(SyncFile, true));
      FlushedSnoc(before, e, a, Call(SyncDir, true));
      FlagsSnoc(before, e, a);
    }
  }

  lemma {:induction false} FlagsSnoc(before: seq<Event>, e: Event, a: nat)
    requires SameCall(before, a) && e != Begun
    ensures SameCall(before + [e], a)
    ensures forall x :: Since(before + [e], a, x) <==> Since(before, a, x) || e == x
    ensures (exists i :: a <= i < |before| + 1 && (before + [e])[i].Fatal())
       <==> (exists i :: a <= i < |before| && before[i].Fatal()) || e.Fatal()
  {
    var after := before + [e];
    assert forall i :: 0 <= i < |before| ==> after[i] == before[i];
    assert after[|before|] == e;
  }

  // ---------- the law ----------

  /**
   In a lawful trace each attempt to rename comes directly after an answer that nobody is streaming, and earlier in
   the same call come both flushes, with no deferral since, a verified output and a source with one link; and in
   that call no rename was completed and nothing failed.
   */
  lemma {:induction false} EveryRenameIsGuarded(trace: seq<Event>, k: nat) returns (a: nat)
    requires After(trace).lawful && k < |trace| && trace[k].Renamed()
    ensures 0 < k && trace[k-1] == Asked(Free)
    ensures SameCall(trace[..k], a)
    ensures Since(trace[..k], a, Call(Verify, true)) && Since(trace[..k], a, SourceRead(true, 1))
    ensures !Since(trace[..k], a, Call(Rename, true)) && forall i :: a <= i < k ==> !trace[i].Fatal()
    ensures FlushedSince(trace[..k], a, Call(SyncFile, true)) && FlushedSince(trace[..k], a, Call(SyncDir, true))
  {
    var t := trace[..k];
    LawfulPrefix(trace, k + 1);
    assert trace[..k+1] == t + [trace[k]];
    BeforeRename(t, trace[k]);
    LastIs(t);
    a := FlagsMean(t);
    assert forall i :: 0 <= i < k ==> trace[i] == t[i];
  }

  lemma {:induction false} BeforeRename(t: seq<Event>, e: Event)
    requires After(t + [e]).lawful && e.Renamed()
    ensures var w := After(t);
            && w.begun && w.verified && w.oneLink && w.fileSynced && w.dirSynced && w.last == Clear
            && !w.renamed && !w.failed
  {
    AfterSnoc(t, e);
  }

  lemma {:induction false} LastIs(trace: seq<Event>)
    requires After(trace).begun
    ensures |trace| > 0 && After(trace).last == LastOf(trace[|trace|-1])
  {
  }

  /** An answer that is not "free" is followed by the block's report and then by a wait, and by nothing else. */
  lemma {:induction false} EveryBlockIsReported(trace: seq<Event>, k: nat)
    requires After(trace).lawful && k + 1 < |trace| && trace[k].Block() && trace[k+1] != Begun
    ensures trace[k+1] == Blocked
    ensures k + 2 < |trace| ==> trace[k+2].Waited() || trace[k+2] == Begun
  {
    LawfulPrefix(trace, k + 2);
    assert trace[..k+2] == trace[..k+1] + [trace[k+1]];
    assert trace[..k+1] == trace[..k] + [trace[k]];
    AfterSnoc(trace[..k+1], trace[k+1]);
    AfterSnoc(trace[..k], trace[k]);
    if k + 2 < |trace| {
      LawfulPrefix(trace, k + 3);
      assert trace[..k+3] == trace[..k+2] + [trace[k+2]];
      AfterSnoc(trace[..k+2], trace[k+2]);
    }
  }

  /** And there is no waiting but for that. */
  lemma {:induction false} EveryWaitIsForABlock(trace: seq<Event>, k: nat)
    requires After(trace).lawful && k < |trace| && trace[k].Waited()
    ensures k >= 2 && trace[k-1] == Blocked && trace[k-2].Block()
  {
    var t := trace[..k];
    LawfulPrefix(trace, k + 1);
    assert trace[..k+1] == t + [trace[k]];
    AfterSnoc(t, trace[k]);
    LastIs(t);
    assert t == trace[..k-1] + [trace[k-1]];
    AfterSnoc(trace[..k-1], trace[k-1]);
    LawfulPrefix(t, k - 1);
    assert t[..k-1] == trace[..k-1];
    LastIs(trace[..k-1]);
    assert trace[..k-1][k-2] == trace[k-2];
  }

  /** Nothing follows a failure before the rename, except another promotion. */
  lemma {:induction false} FailureBeforeRenameStops(trace: seq<Event>, k: nat) returns (a: nat)
    requires After(trace).lawful && k + 1 < |trace| && trace[k].Fatal() && trace[k+1] != Begun
    ensures SameCall(trace[..k+1], a) && Since(trace[..k+1], a, Call(Rename, true))
  {
    LawfulPrefix(trace, k + 2);
    assert trace[..k+2] == trace[..k+1] + [trace[k+1]];
    assert trace[..k+1] == trace[..k] + [trace[k]];
    AfterSnoc(trace[..k+1], trace[k+1]);
    AfterSnoc(trace[..k], trace[k]);
    a := FlagsMean(trace[..k+1]);
  }

  /**
   The calls that settle a promotion come after its rename and no other calls do; and the media server is told only of a
   rename after which nothing failed.
   */
  lemma {:induction false} SettledAfterTheRename(trace: seq<Event>, k: nat) returns (a: nat)
    requires After(trace).lawful && k < |trace| && trace[k].Call?
    ensures SameCall(trace[..k], a)
    ensures trace[k].op.AfterTheRename() <==> Since(trace[..k], a, Call(Rename, true))
    ensures trace[k].op == Notify ==> forall i :: a <= i < k ==> !trace[i].Fatal()
  {
    var t := trace[..k];
    LawfulPrefix(trace, k + 1);
    assert trace[..k+1] == t + [trace[k]];
    AfterSnoc(t, trace[k]);
    a := FlagsMean(t);
    assert forall i :: 0 <= i < k ==> trace[i] == t[i];
  }
}
