/** What holds in every state of every run, step by step. */
module ProtocolInvariant {
  import opened Wrappers
  import opened RecoveryRule
  import opened Protocol

  // ---------- the library file ----------

  /** The library holds a file from elsewhere, or a finished output that verification accepted. */
  ghost predicate LibrarySafe(s: State) {
    s.disk.library.Original? || (s.disk.library.whole && s.disk.library in s.hist.verified)
  }

  ghost predicate Older(c: Content, n: nat) {
    c.Encoded? ==> c.run < n
  }

  ghost predicate Staged(c: Option<Content>, n: nat) {
    c.Some? ==> c.value.Encoded? && c.value.run < n
  }

  ghost predicate Shape(w: Worker) {
    w.Working? ==>
      && (w.cross ==> w.at == Some(InTemp))
      && (w.pc == Loading <==> w.at == None)
      && (w.pc.Copying? ==> w.cross)
  }

  ghost predicate InvBasic(s: State) {
    && LibrarySafe(s)
    && s.row.attempt <= MAX_AUTO_ATTEMPTS
    && Older(s.disk.library, s.hist.nextRun)
    && Staged(s.disk.beside, s.hist.nextRun) && Staged(s.disk.temp, s.hist.nextRun)
    && Older(s.hist.source, s.hist.base) && s.hist.base <= s.hist.nextRun
    && Shape(s.worker)
    && (!s.hist.landed ==> s.disk.library == s.hist.source)
    && (s.hist.landed ==> s.disk.library.Encoded?)
  }

  // ---------- the staging file ----------

  /** A finished output of this attempt; once the rename landed, the very bytes the library holds. */
  ghost predicate OutputOfAttempt(s: State, c: Content) {
    && c.Encoded? && c.whole && s.hist.base <= c.run
    && (s.hist.landed ==> c == s.disk.library)
  }

  ghost predicate HasOutput(w: Worker) {
    w.Working? && (w.pc.Finished? || w.pc.Probing? || w.pc.Unverified? || w.pc.Accepted() || w.pc.Renamed?)
  }

  ghost predicate StagingHolds(s: State) {
    s.row.phase.Finishing() || s.worker.Checking? || HasOutput(s.worker) ==>
      (s.row.staging.Some? && s.disk.At(s.row.staging.value).Some? ==>
        OutputOfAttempt(s, s.disk.At(s.row.staging.value).value))
  }

  ghost predicate AcceptedHolds(s: State) {
    s.worker.Working? && s.worker.pc.Accepted() ==>
      var c := s.worker.pc.content;
      && OutputOfAttempt(s, c) && c in s.hist.verified
      && (s.disk.At(SlotOf(s.worker)).Some? ==> s.disk.At(SlotOf(s.worker)).value == c)
      && ((s.worker.pc.Placed? || s.worker.pc.Clear?) && s.disk.At(RenameSlot(s.worker)).Some? ==>
            s.disk.At(RenameSlot(s.worker)).value == c)
  }

  ghost predicate WorkerAgrees(s: State) {
    s.worker.Working? ==>
      && (s.worker.pc.BeforeOutput() ==> !s.row.phase.Finishing())
      && (s.worker.pc == Ready || s.worker.pc == Recorded || s.worker.pc == Encoding ==> !s.hist.landed)
      && (s.worker.pc != Loading && s.worker.pc != Ready ==> s.row.staging == s.worker.at)
      && (s.worker.pc == Settled ==> s.row.phase == Done)
      && (s.worker.pc.AfterRename() ==> s.hist.landed)
      && (s.worker.cross ==> s.hist.crossed)
      && (s.worker.pc.Unverified? || s.worker.pc.Accepted() || s.worker.pc.Renamed? ==>
            s.row.phase == Promoting || s.row.phase == Awaiting || s.row.phase == Cancelled)
  }

  ghost predicate InvStage(s: State) {
    StagingHolds(s) && AcceptedHolds(s) && WorkerAgrees(s)
  }

  // ---------- what the fingerprint tells ----------

  /**
   Before the rename the recorded fingerprint is the library's own. After it, unless the file was analysed
   again, it is the source's, and the library is no longer the source.
   */
  ghost predicate Told(digest: Digest, s: State) {
    && (!s.hist.landed && s.fingerprint.Some? ==> s.fingerprint.value == digest(s.disk.library))
    && (s.hist.landed && !s.hist.reread && s.fingerprint.Some? ==> s.fingerprint.value == digest(s.hist.source))
    && (s.hist.landed && s.hist.reread && s.fingerprint.Some? ==> s.fingerprint.value == digest(s.disk.library))
    && (s.hist.landed ==> s.disk.library != s.hist.source)
  }

  ghost predicate MustTell(s: State) {
    || s.row.phase.Finishing() || s.worker.Checking? || s.worker.Requeueing?
    || (s.worker.Working? && s.worker.pc != Loading && s.worker.pc != Settled)
  }

  ghost predicate InvTold(digest: Digest, s: State) {
    && (MustTell(s) ==> Told(digest, s))
    && (s.worker.Requeueing? && s.hist.landed ==> s.hist.reread || !Separating(digest))
    && (s.hist.reread ==> s.hist.landed)
  }

  // ---------- where a landed rename can be found ----------

  /** Without a staging file on another device, a landed rename leaves nothing to resume. */
  ghost predicate InvLanded(digest: Digest, s: State) {
    s.hist.landed && !s.hist.crossed ==>
      && (s.row.phase.Finishing() || s.worker.Checking? ==>
            !(s.row.staging.Some? && s.disk.At(s.row.staging.value).Some?))
      && s.row.phase != Verifying
      && (s.row.phase == Queued || s.row.phase == Running ==> s.hist.reread || !Separating(digest))
      && !(s.worker.Orphans? && s.worker.keep.Some?) && s.worker != Idle(true)
      && (s.worker.Working? ==> s.worker.pc == Loading || s.worker.pc.AfterRename())
      && (s.worker.Working? && s.worker.cross ==> false)
  }

  ghost predicate Inv(digest: Digest, s: State) {
    InvBasic(s) && InvStage(s) && InvTold(digest, s) && InvLanded(digest, s)
  }

  lemma {:induction false} InitHolds(digest: Digest, s: State)
    requires Initial(digest, s)
    ensures Inv(digest, s)
  {
  }

  // ---------- step by step ----------

  /** Events of the start-up and the queue, and those outside the worker. */
  predicate AroundTheJob(e: Event) {
    || e.Crash? || e.Boot? || e.Analyze? || e.Submit? || e.CancelRow? || e.Vanish? || e.CancelRequest?
    || e.Sweep? || e.SweepFails? || e.Clean? || e.ResumeCheck? || e.CheckLibrary? || e.SkipJob? || e.RequeueJob?
    || e.SweepOrphans? || e.Claim? || e.Resume? || e.DropResume?
  }

  /** Events of a job until its output is finished, probed and ready to be verified. */
  predicate MakesTheOutput(e: Event) {
    || e.Preflight? || e.RecordAttempt? || e.StartEncode? || e.EncodeFails? || e.EncodeEnds?
    || e.SetVerifying? || e.SetPromoting?
  }

  /** Events of the promotion, and the ways out of a job. */
  predicate PromotesOrEnds(e: Event) {
    !AroundTheJob(e) && !MakesTheOutput(e)
  }

  lemma {:induction false} BasicAround(digest: Digest, s: State, e: Event)
    requires Inv(digest, s) && Enabled(digest, s, e) && AroundTheJob(e)
    ensures InvBasic(Step(digest, s, e))
  {
  }

  lemma {:induction false} BasicMaking(digest: Digest, s: State, e: Event)
    requires Inv(digest, s) && Enabled(digest, s, e) && MakesTheOutput(e)
    ensures InvBasic(Step(digest, s, e))
  {
  }

  lemma {:induction false} BasicPromoting(digest: Digest, s: State, e: Event)
    requires Inv(digest, s) && Enabled(digest, s, e) && PromotesOrEnds(e)
    ensures InvBasic(Step(digest, s, e))
  {
  }

  lemma {:induction false} BasicStep(digest: Digest, s: State, e: Event)
    requires Inv(digest, s) && Enabled(digest, s, e)
    ensures InvBasic(Step(digest, s, e))
  {
    if AroundTheJob(e) {
      BasicAround(digest, s, e);
    } else if MakesTheOutput(e) {
      BasicMaking(digest, s, e);
    } else {
      BasicPromoting(digest, s, e);
    }
  }

  lemma {:induction false} StagingAround(digest: Digest, s: State, e: Event)
    requires Inv(digest, s) && Enabled(digest, s, e) && AroundTheJob(e)
    ensures StagingHolds(Step(digest, s, e))
  {
  }

  lemma {:induction false} StagingMaking(digest: Digest, s: State, e: Event)
    requires Inv(digest, s) && Enabled(digest, s, e) && MakesTheOutput(e)
    ensures StagingHolds(Step(digest, s, e))
  {
  }

  lemma {:induction false} StagingPromoting(digest: Digest, s: State, e: Event)
    requires Inv(digest, s) && Enabled(digest, s, e) && PromotesOrEnds(e)
    ensures StagingHolds(Step(digest, s, e))
  {
  }

  lemma {:induction false} StagingStep(digest: Digest, s: State, e: Event)
    requires Inv(digest, s) && Enabled(digest, s, e)
    ensures StagingHolds(Step(digest, s, e))
  {
    if AroundTheJob(e) {
      StagingAround(digest, s, e);
    } else if MakesTheOutput(e) {
      StagingMaking(digest, s, e);
    } else {
      StagingPromoting(digest, s, e);
    }
  }

  lemma {:induction false} AcceptedAround(digest: Digest, s: State, e: Event)
    requires Inv(digest, s) && Enabled(digest, s, e) && AroundTheJob(e)
    ensures AcceptedHolds(Step(digest, s, e))
  {
  }

  lemma {:induction false} AcceptedMaking(digest: Digest, s: State, e: Event)
    requires Inv(digest, s) && Enabled(digest, s, e) && MakesTheOutput(e)
    ensures AcceptedHolds(Step(digest, s, e))
  {
  }

  lemma {:induction false} AcceptedPromoting(digest: Digest, s: State, e: Event)
    requires Inv(digest, s) && Enabled(digest, s, e) && PromotesOrEnds(e)
    ensures AcceptedHolds(Step(digest, s, e))
  {
  }

  lemma {:induction false} AcceptedStep(digest: Digest, s: State, e: Event)
    requires Inv(digest, s) && Enabled(digest, s, e)
    ensures AcceptedHolds(Step(digest, s, e))
  {
    if AroundTheJob(e) {
      AcceptedAround(digest, s, e);
    } else if MakesTheOutput(e) {
      AcceptedMaking(digest, s, e);
    } else {
      AcceptedPromoting(digest, s, e);
    }
  }

  lemma {:induction false} AgreeAround(digest: Digest, s: State, e: Event)
    requires Inv(digest, s) && Enabled(digest, s, e) && AroundTheJob(e)
    ensures WorkerAgrees(Step(digest, s, e))
  {
  }

  lemma {:induction false} AgreeMaking(digest: Digest, s: State, e: Event)
    requires Inv(digest, s) && Enabled(digest, s, e) && MakesTheOutput(e)
    ensures WorkerAgrees(Step(digest, s, e))
  {
  }

  lemma {:induction false} AgreePromoting(digest: Digest, s: State, e: Event)
    requires Inv(digest, s) && Enabled(digest, s, e) && PromotesOrEnds(e)
    ensures WorkerAgrees(Step(digest, s, e))
  {
  }

  lemma {:induction false} AgreeStep(digest: Digest, s: State, e: Event)
    requires Inv(digest, s) && Enabled(digest, s, e)
    ensures WorkerAgrees(Step(digest, s, e))
  {
    if AroundTheJob(e) {
      AgreeAround(digest, s, e);
    } else if MakesTheOutput(e) {
      AgreeMaking(digest, s, e);
    } else {
      AgreePromoting(digest, s, e);
    }
  }

  lemma {:induction false} ToldAround(digest: Digest, s: State, e: Event)
    requires Inv(digest, s) && Enabled(digest, s, e) && AroundTheJob(e)
    ensures InvTold(digest, Step(digest, s, e))
  {
  }

  lemma {:induction false} ToldWithin(digest: Digest, s: State, e: Event)
    requires Inv(digest, s) && Enabled(digest, s, e) && !AroundTheJob(e)
    ensures InvTold(digest, Step(digest, s, e))
  {
  }

  lemma {:induction false} ToldStep(digest: Digest, s: State, e: Event)
    requires Inv(digest, s) && Enabled(digest, s, e)
    ensures InvTold(digest, Step(digest, s, e))
  {
    if AroundTheJob(e) {
      ToldAround(digest, s, e);
    } else {
      ToldWithin(digest, s, e);
    }
  }

  lemma {:induction false} LandedAround(digest: Digest, s: State, e: Event)
    requires Inv(digest, s) && Enabled(digest, s, e) && AroundTheJob(e)
    ensures InvLanded(digest, Step(digest, s, e))
  {
  }

  lemma {:induction false} LandedWithin(digest: Digest, s: State, e: Event)
    requires Inv(digest, s) && Enabled(digest, s, e) && !AroundTheJob(e)
    ensures InvLanded(digest, Step(digest, s, e))
  {
  }

  lemma {:induction false} LandedStep(digest: Digest, s: State, e: Event)
    requires Inv(digest, s) && Enabled(digest, s, e)
    ensures InvLanded(digest, Step(digest, s, e))
  {
    if AroundTheJob(e) {
      LandedAround(digest, s, e);
    } else {
      LandedWithin(digest, s, e);
    }
  }
}
