/** What every run of the protocol guarantees, and the runs that show each condition is needed. */
module ProtocolSafety {
  import opened Wrappers
  import opened RecoveryRule
  import opened Protocol
  import opened ProtocolInvariant

  lemma {:induction false} StepKeepsInv(digest: Digest, s: State, e: Event)
    requires Inv(digest, s) && Enabled(digest, s, e)
    ensures Inv(digest, Step(digest, s, e))
  {
    BasicStep(digest, s, e);
    StagingStep(digest, s, e);
    AcceptedStep(digest, s, e);
    AgreeStep(digest, s, e);
    ToldStep(digest, s, e);
    LandedStep(digest, s, e);
  }

  lemma {:induction false} InvAlways(digest: Digest, run: seq<State>, events: seq<Event>, k: nat)
    requires IsRun(digest, run, events) && k < |run|
    ensures Inv(digest, run[k])
  {
    if k == 0 {
      InitHolds(digest, run[0]);
    } else {
      InvAlways(digest, run, events, k - 1);
      StepKeepsInv(digest, run[k-1], events[k-1]);
    }
  }

  // ---------- the library file ----------

  /** The library holds its first content, or a finished output that verification accepted. */
  ghost predicate SafeSince(first: Content, s: State) {
    s.disk.library == first || (s.disk.library.Encoded? && s.disk.library.whole && s.disk.library in s.hist.verified)
  }

  lemma {:induction false} AcceptedStays(digest: Digest, s: State, e: Event)
    requires Enabled(digest, s, e)
    ensures s.hist.verified <= Step(digest, s, e).hist.verified
  {
  }

  lemma {:induction false} SafeAlways(digest: Digest, run: seq<State>, events: seq<Event>, k: nat)
    requires IsRun(digest, run, events) && k < |run|
    ensures SafeSince(run[0].disk.library, run[k])
  {
    if k > 0 {
      SafeAlways(digest, run, events, k - 1);
      AcceptedStays(digest, run[k-1], events[k-1]);
      OnlyRenameReplaces(digest, run, events, k - 1);
      InvAlways(digest, run, events, k);
    }
  }

  /**
   Whatever crashes, cancels, analyses and guard answers a run holds, with no assumption on the fingerprint:
   the library holds its first content or a finished output that verification accepted, and until the rename
   what the attempt started from.
   */
  lemma {:induction false} LibraryAlwaysSafe(digest: Digest, run: seq<State>, events: seq<Event>, k: nat)
    requires IsRun(digest, run, events) && k < |run|
    ensures SafeSince(run[0].disk.library, run[k])
    ensures !run[k].hist.landed ==> run[k].disk.library == run[k].hist.source
    ensures run[k].row.attempt <= MAX_AUTO_ATTEMPTS
  {
    InvAlways(digest, run, events, k);
    SafeAlways(digest, run, events, k);
  }

  /**
   Only the rename changes the library, and what it puts there is what verification accepted in the same run of the
   job.
   */
  lemma {:induction false} OnlyRenameReplaces(digest: Digest, run: seq<State>, events: seq<Event>, k: nat)
    requires IsRun(digest, run, events) && k < |events|
    ensures run[k+1].disk.library != run[k].disk.library ==> events[k] == Rename
    ensures events[k] == Rename ==>
              && run[k].worker.Working? && run[k].worker.pc.Clear?
              && run[k+1].disk.library == run[k].worker.pc.content
              && run[k+1].disk.library in run[k].hist.verified
              && run[k+1].hist.landed
  {
    InvAlways(digest, run, events, k);
  }

  // ---------- what a restart decides ----------

  /**
   The restart's rule against what happened. With a fingerprint recorded and readable it answers "intact"
   exactly when no rename landed, or the file was analysed after it; and it answers "promoted" exactly when a
   rename landed, was not analysed since, and the library can be probed and carries the current policy.
   */
  lemma {:induction false} RestartVerdict(
    digest: Digest, run: seq<State>, events: seq<Event>, k: nat, sight: Sight)
    requires IsRun(digest, run, events) && k < |run| && Separating(digest)
    requires run[k].worker.Checking? && SightOf(sight, digest, run[k].disk.library)
    requires run[k].fingerprint.Some? && sight.fingerprint.Some?
    ensures Decide(run[k].fingerprint, sight, run[k].policy) == SourceIntact
       <==> !run[k].hist.landed || run[k].hist.reread
    ensures Decide(run[k].fingerprint, sight, run[k].policy) == Promoted
       <==> && run[k].hist.landed && !run[k].hist.reread
            && sight.probed && run[k].disk.library.Policy() == Some(run[k].policy)
  {
    InvAlways(digest, run, events, k);
  }

  /**
   A restart records a job done that was never renamed exactly when no fingerprint was recorded, the file can be
   probed, and the source already carried the current policy's tags.
   */
  lemma {:induction false} DoneUnlandedExactly(digest: Digest, run: seq<State>, events: seq<Event>, k: nat)
    requires IsRun(digest, run, events) && k < |events|
    requires events[k].CheckLibrary? && run[k].row.phase != Done
    ensures !run[k].hist.landed ==>
              (run[k+1].row.phase == Done <==>
                && run[k].fingerprint.None? && events[k].sight.probed
                && run[k].hist.source.Policy() == Some(run[k].policy))
  {
    InvAlways(digest, run, events, k);
  }

  /** A start-up step that sends the job back to the queue. */
  predicate Requeues(before: State, e: Event, after: State) {
    (e.Sweep? || e.RequeueJob?) && before.row.phase != Queued && after.row.phase == Queued
  }

  /**
   A job whose rename landed goes back to the queue only if the file was analysed after the rename or the
   output was staged on another device; so in every other case a requeued job's library is still its source.
   */
  lemma {:induction false} RequeueFindsTheSource(digest: Digest, run: seq<State>, events: seq<Event>, k: nat)
    requires IsRun(digest, run, events) && k < |events| && Separating(digest)
    requires Requeues(run[k], events[k], run[k+1])
    ensures run[k].hist.landed ==> run[k].hist.reread || run[k].hist.crossed
    ensures !run[k].hist.reread && !run[k].hist.crossed ==> run[k+1].disk.library == run[k].hist.source
  {
    InvAlways(digest, run, events, k);
  }

  /**
   The store requeues a job interrupted while verifying without a look at the file. With a fingerprint recorded, the
   rename had landed exactly when that fingerprint is not the library's, or the file was analysed since.
   */
  lemma {:induction false} SweptThoughLandedExactly(digest: Digest, run: seq<State>, events: seq<Event>, k: nat)
    requires IsRun(digest, run, events) && k < |events| && Separating(digest)
    requires events[k] == Sweep && run[k].fingerprint.Some?
    requires run[k].row.phase == Verifying
    ensures run[k].hist.landed && !run[k].hist.reread <==>
              run[k].fingerprint != Some(digest(run[k].disk.library))
    ensures run[k].hist.reread ==> run[k].hist.landed
  {
    InvAlways(digest, run, events, k);
  }

  /** A job requeued after its promotion was looked into had landed exactly when the file was analysed since. */
  lemma {:induction false} RequeuedThoughLandedExactly(digest: Digest, run: seq<State>, events: seq<Event>, k: nat)
    requires IsRun(digest, run, events) && k < |events| && Separating(digest)
    requires events[k].RequeueJob?
    ensures run[k].hist.landed <==> run[k].hist.reread
  {
    InvAlways(digest, run, events, k);
  }

  /** A restart records a job done, with a fingerprint to compare, only if its rename landed. */
  lemma {:induction false} DoneMeansLanded(digest: Digest, run: seq<State>, events: seq<Event>, k: nat)
    requires IsRun(digest, run, events) && k < |events|
    requires events[k].CheckLibrary? && run[k+1].row.phase == Done && run[k].row.phase != Done
    ensures run[k].fingerprint.Some? ==>
              && run[k].hist.landed && !run[k].hist.reread
              && run[k].disk.library.Encoded? && run[k].disk.library in run[k].hist.verified
    ensures run[k+1].fingerprint == Some(digest(run[k+1].disk.library))
  {
    InvAlways(digest, run, events, k);
  }

  /** A job past its preflight has a row with a size, and such a row has a fingerprint if the first one had. */
  lemma {:induction false} SizedAlways(digest: Digest, run: seq<State>, events: seq<Event>, k: nat)
    requires IsRun(digest, run, events) && k < |run|
    ensures MustTell(run[k]) ==> run[k].sized
    ensures run[0].fingerprint.Some? && run[k].sized ==> run[k].fingerprint.Some?
  {
    if k > 0 {
      SizedAlways(digest, run, events, k - 1);
      InvAlways(digest, run, events, k - 1);
      SizedStep(digest, run[k-1], events[k-1]);
    }
  }

  lemma {:induction false} SizedStep(digest: Digest, s: State, e: Event)
    requires Inv(digest, s) && Enabled(digest, s, e) && (MustTell(s) ==> s.sized)
    ensures MustTell(Step(digest, s, e)) ==> Step(digest, s, e).sized
    ensures Step(digest, s, e).sized ==>
              (s.sized && Step(digest, s, e).fingerprint == s.fingerprint) || Step(digest, s, e).fingerprint.Some?
  {
  }

  /**
   On a row the program itself has analysed, a restart has a fingerprint to compare in every interrupted promotion, so
   it records a job done only if its rename landed.
   */
  lemma {:induction false} AnalysedDoneMeansLanded(digest: Digest, run: seq<State>, events: seq<Event>, k: nat)
    requires IsRun(digest, run, events) && k < |events| && run[0].fingerprint.Some?
    requires events[k].CheckLibrary?
    ensures run[k].fingerprint.Some?
    ensures run[k+1].row.phase == Done && run[k].row.phase != Done ==>
              && run[k].hist.landed && !run[k].hist.reread
              && run[k].disk.library.Encoded? && run[k].disk.library in run[k].hist.verified
  {
    InvAlways(digest, run, events, k);
    SizedAlways(digest, run, events, k);
  }

  /** A job resumed after its rename landed renames the very bytes the library already holds. */
  lemma {:induction false} ResumesTheSameBytes(digest: Digest, run: seq<State>, events: seq<Event>, k: nat)
    requires IsRun(digest, run, events) && k < |events|
    requires events[k] == ResumeCheck(true) || events[k].Resume? || events[k] == Rename
    requires run[k].hist.landed
    ensures events[k] == ResumeCheck(true) ==>
              run[k].disk.At(run[k].row.staging.value) == Some(run[k].disk.library)
    ensures events[k].Resume? && run[k].disk.At(run[k].row.staging.value).Some? ==>
              run[k].disk.At(run[k].row.staging.value) == Some(run[k].disk.library)
    ensures events[k] == Rename ==> run[k+1].disk.library == run[k].disk.library
    ensures run[k].hist.crossed
  {
    InvAlways(digest, run, events, k);
  }

  // ---------- the conditions are needed ----------

  function Start(digest: Digest, tag: Option<int>, fingerprint: bool, policy: int): State {
    var c := Original(tag);
    State(Disk(c, None, None), Row(Queued, 0, None), if fingerprint then Some(digest(c)) else None, policy,
          Idle(false), History(c, 0, 0, false, {}, false, false), true)
  }

  /** The run that is about to start its encoder. */
  lemma {:induction false} StagedRun(digest: Digest, s: State, where: Slot)
    returns (run: seq<State>, events: seq<Event>)
    requires Initial(digest, s)
    ensures IsRun(digest, run, events)
    ensures Last(run) == State(
                           s.disk, Row(Running, 0, Some(where)), s.fingerprint, s.policy,
                           Working(Recorded, Some(where), where == InTemp, false),
                           History(s.disk.library, 0, 0, false, {}, false, where == InTemp), true)
  {
    run, events := [s], [];
    run, events := Go(digest, run, events, Claim);
    run, events := Go(digest, run, events, Preflight(where, where == InTemp));
    run, events := Go(digest, run, events, RecordAttempt);
  }

  /** The run whose encoder has finished. */
  lemma {:induction false} EncodedRun(digest: Digest, s: State, where: Slot)
    returns (run: seq<State>, events: seq<Event>)
    requires Initial(digest, s)
    ensures IsRun(digest, run, events)
    ensures Last(run) == State(
                           s.disk.Put(where, Some(Encoded(1, true, s.policy))), Row(Running, 0, Some(where)),
                           s.fingerprint, s.policy, Working(Finished, Some(where), where == InTemp, false),
                           History(s.disk.library, 0, 2, false, {}, false, where == InTemp), true)
  {
    run, events := StagedRun(digest, s, where);
    run, events := Go(digest, run, events, StartEncode);
    run, events := Go(digest, run, events, EncodeEnds);
  }

  /** The run that is about to verify its output. */
  lemma {:induction false} UnverifiedRun(digest: Digest, s: State, where: Slot)
    returns (run: seq<State>, events: seq<Event>)
    requires Initial(digest, s)
    ensures IsRun(digest, run, events)
    ensures Last(run) == State(
                           s.disk.Put(where, Some(Encoded(1, true, s.policy))), Row(Promoting, 0, Some(where)),
                           s.fingerprint, s.policy, Working(Unverified, Some(where), where == InTemp, false),
                           History(s.disk.library, 0, 2, false, {}, false, where == InTemp), true)
  {
    run, events := EncodedRun(digest, s, where);
    run, events := Go(digest, run, events, SetVerifying);
    run, events := Go(digest, run, events, SetPromoting);
  }

  /** The run whose output has been accepted. */
  lemma {:induction false} AcceptedRun(digest: Digest, s: State, where: Slot)
    returns (run: seq<State>, events: seq<Event>)
    requires Initial(digest, s)
    ensures IsRun(digest, run, events)
    ensures var c := Encoded(1, true, s.policy);
            Last(run) == State(
                           s.disk.Put(where, Some(c)), Row(Promoting, 0, Some(where)),
                           s.fingerprint, s.policy, Working(Verified(c), Some(where), where == InTemp, false),
                           History(s.disk.library, 0, 2, false, {c}, false, where == InTemp), true)
  {
    run, events := UnverifiedRun(digest, s, where);
    run, events := Go(digest, run, events, Accept);
  }

  /** The program dies, starts again under the same policy, and has taken stock of the job. */
  lemma {:induction false} RestartRun(digest: Digest, run0: seq<State>, events0: seq<Event>)
    returns (run: seq<State>, events: seq<Event>)
    requires IsRun(digest, run0, events0) && Last(run0).worker != Down
    ensures IsRun(digest, run, events) && |run| == |run0| + 3 && events[|events|-1] == Sweep
    ensures run[|run|-2] == Last(run0).(worker := Starting)
    ensures Last(run) == Step(digest, Last(run0).(worker := Starting), Sweep)
  {
    run, events := Go(digest, run0, events0, Crash);
    run, events := Go(digest, run, events, Boot(Last(run0).policy));
    run, events := Go(digest, run, events, Sweep);
  }

  /** Its output placed beside the library file and the guard's answer free. */
  lemma {:induction false} ClearedRun(digest: Digest) returns (run: seq<State>, events: seq<Event>)
    ensures IsRun(digest, run, events)
    ensures var c := Encoded(1, true, 7);
            Last(run) == State(
                           Disk(Original(None), Some(c), None), Row(Promoting, 0, Some(Beside)),
                           Some(digest(Original(None))), 7, Working(Clear(c), Some(Beside), false, false),
                           History(Original(None), 0, 2, false, {c}, false, false), true)
  {
    run, events := AcceptedRun(digest, Start(digest, None, true, 7), Beside);
    run, events := Go(digest, run, events, Place);
    run, events := Go(digest, run, events, GuardFree);
  }

  /** The landed rename of an output staged beside the library file. */
  lemma {:induction false} LandedRun(digest: Digest) returns (run: seq<State>, events: seq<Event>)
    ensures IsRun(digest, run, events)
    ensures var c := Encoded(1, true, 7);
            Last(run) == State(
                           Disk(c, None, None), Row(Promoting, 0, Some(Beside)), Some(digest(Original(None))), 7,
                           Working(Renamed, Some(Beside), false, false),
                           History(Original(None), 0, 2, true, {c}, false, false), true)
  {
    run, events := ClearedRun(digest);
    run, events := Go(digest, run, events, Rename);
  }

  /** Whatever the fingerprint: a file analysed between its rename and the record of it is requeued by the restart. */
  lemma {:induction false} RequeuedAfterReanalysis(digest: Digest)
    returns (run: seq<State>, events: seq<Event>)
    ensures IsRun(digest, run, events) && |events| > 0
    ensures Requeues(run[|run|-2], events[|events|-1], Last(run))
    ensures run[|run|-2].hist.landed && !run[|run|-2].hist.crossed
    ensures Last(run).disk.library != Last(run).hist.source
  {
    run, events := LandedRun(digest);
    run, events := Go(digest, run, events, Analyze);
    run, events := RestartRun(digest, run, events);
    run, events := Go(digest, run, events, CheckLibrary(Sight(Some(digest(Last(run).disk.library)), false, None)));
    run, events := Go(digest, run, events, RequeueJob(true));
  }

  /** An output copied beside the library file from another device, with the row waiting for a stream to end. */
  lemma {:induction false} CopiedRun(digest: Digest) returns (run: seq<State>, events: seq<Event>)
    ensures IsRun(digest, run, events)
    ensures var c := Encoded(1, true, 7);
            Last(run) == State(
                           Disk(Original(None), Some(c), Some(c)), Row(Promoting, 0, Some(InTemp)),
                           Some(digest(Original(None))), 7, Working(Placed(c), Some(InTemp), true, false),
                           History(Original(None), 0, 3, false, {c}, false, true), true)
  {
    run, events := AcceptedRun(digest, Start(digest, None, true, 7), InTemp);
    run, events := Go(digest, run, events, CopyStarts);
    run, events := Go(digest, run, events, CopyEnds);
  }

  /** The same, after the rename. */
  lemma {:induction false} CrossedRun(digest: Digest) returns (run: seq<State>, events: seq<Event>)
    ensures IsRun(digest, run, events)
    ensures var c := Encoded(1, true, 7);
            Last(run) == State(
                           Disk(c, None, Some(c)), Row(Awaiting, 0, Some(InTemp)),
                           Some(digest(Original(None))), 7, Working(Renamed, Some(InTemp), true, false),
                           History(Original(None), 0, 3, true, {c}, false, true), true)
  {
    run, events := CopiedRun(digest);
    run, events := Go(digest, run, events, Blocked(true));
    run, events := Go(digest, run, events, GuardFree);
    run, events := Go(digest, run, events, Rename);
  }

  /** Its restart finds the temp copy, which still verifies, and keeps it. */
  lemma {:induction false} ResumedRun(digest: Digest) returns (run: seq<State>, events: seq<Event>)
    ensures IsRun(digest, run, events)
    ensures var c := Encoded(1, true, 7);
            Last(run) == State(
                           Disk(c, None, Some(c)), Row(Awaiting, 0, Some(InTemp)),
                           Some(digest(Original(None))), 7, Orphans(Some(InTemp)),
                           History(Original(None), 0, 3, true, {c}, false, true), true)
  {
    run, events := CrossedRun(digest);
    run, events := RestartRun(digest, run, events);
    run, events := Go(digest, run, events, ResumeCheck(true));
  }

  /**
   Staged on another device, a job resumed after its rename and interrupted again is requeued, though never analysed
   since.
   */
  lemma {:induction false} RequeuedAfterCrossing(digest: Digest) returns (run: seq<State>, events: seq<Event>)
    ensures IsRun(digest, run, events) && |events| > 0
    ensures Requeues(run[|run|-2], events[|events|-1], Last(run))
    ensures run[|run|-2].hist.landed && !run[|run|-2].hist.reread
    ensures Last(run).disk.library != Last(run).hist.source
  {
    run, events := ResumedRun(digest);
    run, events := Go(digest, run, events, SweepOrphans({}));
    run, events := Go(digest, run, events, Resume(true));
    run, events := Go(digest, run, events, SetVerifying);
    run, events := RestartRun(digest, run, events);
  }

  /**
   On a row that came without a fingerprint, a source that already carries the current policy's tag is recorded done
   with no rename.
   */
  lemma {:induction false} DoneWithoutRename(digest: Digest) returns (run: seq<State>, events: seq<Event>)
    ensures IsRun(digest, run, events) && |events| > 0
    ensures events[|events|-1].CheckLibrary? && run[|run|-2].row.phase != Done && Last(run).row.phase == Done
    ensures !Last(run).hist.landed && Last(run).disk.library == Last(run).hist.source
  {
    run, events := AcceptedRun(digest, Start(digest, Some(7), false, 7), Beside);
    run, events := RestartRun(digest, run, events);
    run, events := Go(digest, run, events, CheckLibrary(Sight(None, true, Some(7))));
  }
}
