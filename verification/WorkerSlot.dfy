/**
 The one in-flight slot, shared between the worker and any number of cancel calls. Each step is one critical
 section or one store write, so any of the others may come between two of them. Store writes succeed.
 */
module WorkerSlot {
  import opened Wrappers
  import P = Protocol

  /** How a run of a job left the slot. */
  datatype End = WentThrough | WasCancelled | WasFailed | LeftInFlight

  /**
   One run of a job. requested is the flag a cancel sets, with late if the first request came between the worker's two
   looks at it, and after if it came once the way out was chosen; recorded, that its promotion reached the row; closed,
   how often its channel was closed.
   */
  datatype Run = Run(
    job: int, requested: bool, late: bool, after: bool, recorded: bool, closed: nat, end: Option<End>)

  datatype Stage =
    | Piping
    | Errored       // the pipeline returned an error
    | Unasked       // no cancel was seen; the context is looked at next
    | Cancelling
    | Failing
    | Leaving       // the way out is taken
    | Releasing     // the slot is empty, the channel still open

  datatype Worker = Waiting | Claimed(job: int) | At(run: Run, stage: Stage)

  /** A cancel call that found its job in flight waits for that run, by number; another goes on to the row. */
  datatype Call = Awaits(job: int, run: nat) | Looked(job: int)

  /** pending holds the promotions to resume; past, the runs whose channel is closed. */
  datatype Slot = Slot(
    rows: map<int, P.Phase>,
    pending: set<int>,
    past: seq<Run>,
    worker: Worker,
    current: Option<int>,
    calls: map<int, Call>,
    shutdown: bool)

  datatype Event =
    | Claim(job: int) | Resume(job: int) | Mark
    | Move(phase: P.Phase) | Record | Succeed | Fail
    | LookForCancel | LookAtContext
    | FinishCancelled | FinishFailed | Clear | Close
    | CancelLook(call: int, job: int) | CancelRow(call: int) | Return(call: int) | GiveUp(call: int)
    | Shutdown

  predicate Enabled(s: Slot, e: Event) {
    var w := s.worker;
    match e
    case Claim(job) => w.Waiting? && !s.shutdown && job in s.rows && s.rows[job] == P.Queued
    case Resume(job) => w.Waiting? && job in s.pending && job in s.rows
    case Mark => w.Claimed?
    case Move(phase) => w.At? && w.stage.Piping? && !w.run.recorded && phase.Finishing()
    case Record => w.At? && w.stage.Piping? && !w.run.recorded
    case Succeed => w.At? && w.stage.Piping? && w.run.recorded
    case Fail => w.At? && w.stage.Piping?
    case LookForCancel => w.At? && w.stage.Errored?
    case LookAtContext => w.At? && w.stage.Unasked?
    case FinishCancelled => w.At? && w.stage.Cancelling?
    case FinishFailed => w.At? && w.stage.Failing?
    case Clear => w.At? && w.stage.Leaving?
    case Close => w.At? && w.stage.Releasing?
    case CancelLook(call, job) => call !in s.calls && (s.current == Some(job) ==> w.At?)
    case CancelRow(call) => call in s.calls && s.calls[call].Looked?
    case Return(call) => call in s.calls && s.calls[call].Awaits? && s.calls[call].run < |s.past|
    case GiveUp(call) => call in s.calls && s.calls[call].Awaits?
    case Shutdown => true
  }

  /** A cancel leaves a row that has ended as it is. */
  function CancelPhase(p: P.Phase): P.Phase {
    if p.Terminal() then p else P.Cancelled
  }

  function CancelledRow(rows: map<int, P.Phase>, job: int): map<int, P.Phase> {
    if job in rows then rows[job := CancelPhase(rows[job])] else rows
  }

  function Leave(s: Slot, rows: map<int, P.Phase>, end: End): Slot
    requires s.worker.At?
  {
    s.(rows := rows, worker := At(s.worker.run.(end := Some(end)), Leaving))
  }

  /** The flag a cancel sets; only the first request says how late it came. */
  function Asked(r: Run, stage: Stage): Run {
    var chosen := stage.Cancelling? || stage.Failing? || stage.Leaving?;
    r.(requested := true,
       late := r.late || (stage.Unasked? && !r.requested),
       after := r.after || (chosen && !r.requested))
  }

  function Step(s: Slot, e: Event): Slot
    requires Enabled(s, e)
  {
    var w := s.worker;
    match e
    case Claim(job) => s.(rows := s.rows[job := P.Running], worker := Claimed(job))
    case Resume(job) =>
      s.(pending := s.pending - {job}, worker := if s.rows[job] == P.Awaiting then Claimed(job) else Waiting)
    case Mark =>
      s.(current := Some(w.job), worker := At(Run(w.job, false, false, false, false, 0, None), Piping))
    case Move(phase) => s.(rows := s.rows[w.run.job := phase])
    case Record => s.(rows := s.rows[w.run.job := P.Done], worker := At(w.run.(recorded := true), Piping))
    case Succeed => Leave(s, s.rows, WentThrough)
    case Fail => s.(worker := At(w.run, Errored))
    case LookForCancel => s.(worker := At(w.run, if w.run.requested then Cancelling else Unasked))
    case LookAtContext =>
      if w.run.requested || s.shutdown then Leave(s, s.rows, LeftInFlight) else s.(worker := At(w.run, Failing))
    case FinishCancelled => Leave(s, CancelledRow(s.rows, w.run.job), WasCancelled)
    case FinishFailed => Leave(s, s.rows[w.run.job := P.Failed], WasFailed)
    case Clear => s.(current := None, worker := At(w.run, Releasing))
    case Close => s.(past := s.past + [w.run.(closed := w.run.closed + 1)], worker := Waiting)
    case CancelLook(call, job) =>
      if s.current == Some(job) then
        s.(worker := At(Asked(w.run, w.stage), w.stage), calls := s.calls[call := Awaits(job, |s.past|)])
      else s.(calls := s.calls[call := Looked(job)])
    case CancelRow(call) => s.(rows := CancelledRow(s.rows, s.calls[call].job), calls := s.calls - {call})
    case Return(call) => s.(calls := s.calls - {call})
    case GiveUp(call) => s.(calls := s.calls - {call})
    case Shutdown => s.(shutdown := true)
  }

  predicate Initial(s: Slot) {
    && s.past == [] && s.current == None && s.worker == Waiting && s.calls == map[] && !s.shutdown
    && forall job :: job in s.pending ==> job in s.rows && s.rows[job] == P.Awaiting
  }

  /** The states of a run: each the step of the one before. */
  ghost predicate IsRun(run: seq<Slot>, events: seq<Event>) {
    && |run| == |events| + 1
    && Initial(run[0])
    && forall i :: 0 <= i < |events| ==> Enabled(run[i], events[i]) && run[i+1] == Step(run[i], events[i])
  }

  // ---------- what every state keeps ----------

  /** The row of a run in the worker's hands: in flight, or cancelled by a call that did not find it there. */
  predicate HeldRow(p: P.Phase, recorded: bool) {
    if recorded then p == P.Done else p == P.Running || p.Finishing() || p == P.Cancelled
  }

  /** The row a run leaves behind, by its way out. */
  predicate RowFits(r: Run, p: P.Phase) {
    match r.end
    case None => HeldRow(p, r.recorded)
    case Some(WentThrough) => r.recorded && p == P.Done
    case Some(WasFailed) => p == P.Failed
    case Some(WasCancelled) => p == (if r.recorded then P.Done else P.Cancelled)
    case Some(LeftInFlight) => HeldRow(p, r.recorded)
  }

  /** How a run ended, against when it was asked to stop. */
  predicate EndFits(r: Run, shutdown: bool) {
    match r.end
    case None => true
    case Some(WentThrough) => !r.late
    case Some(WasCancelled) => r.requested && !r.late
    case Some(WasFailed) => (r.requested ==> r.after) && !r.late
    case Some(LeftInFlight) => (r.requested ==> r.late || r.after) && (r.late || shutdown)
  }

  predicate StageFits(r: Run, stage: Stage) {
    && r.closed == 0
    && (r.end.Some? <==> stage.Leaving? || stage.Releasing?)
    && (stage.Piping? || stage.Errored? ==> !r.late && !r.after)
    && (stage.Unasked? ==> r.requested == r.late && !r.after)
    && (stage.Cancelling? ==> r.requested && !r.late)
    && (stage.Failing? ==> !r.late && (r.requested ==> r.after))
  }

  function HeldJob(w: Worker): Option<int> {
    match w
    case Waiting => None
    case Claimed(job) => Some(job)
    case At(r, _) => Some(r.job)
  }

  /** Each job is run at most once, and is then no longer to be resumed. */
  predicate OneRunEach(s: Slot) {
    && (forall i, j :: 0 <= i < j < |s.past| ==> s.past[i].job != s.past[j].job)
    && (forall i :: 0 <= i < |s.past| ==> HeldJob(s.worker) != Some(s.past[i].job) && s.past[i].job !in s.pending)
    && (HeldJob(s.worker).Some? ==> HeldJob(s.worker).value !in s.pending)
  }

  /** A promotion still to be resumed is waiting for its stream to end, or was cancelled meanwhile. */
  predicate PendingFit(s: Slot) {
    forall job :: job in s.pending ==> job in s.rows && (s.rows[job] == P.Awaiting || s.rows[job] == P.Cancelled)
  }

  predicate WorkerFits(s: Slot) {
    match s.worker
    case Waiting => s.current == None
    case Claimed(job) => s.current == None && job in s.rows && HeldRow(s.rows[job], false)
    case At(r, stage) =>
      && s.current == (if stage.Releasing? then None else Some(r.job))
      && StageFits(r, stage) && EndFits(r, s.shutdown)
      && r.job in s.rows && RowFits(r, s.rows[r.job])
  }

  predicate Over(s: Slot, r: Run) {
    r.closed == 1 && r.end.Some? && EndFits(r, s.shutdown) && r.job in s.rows && RowFits(r, s.rows[r.job])
  }

  predicate CallFits(s: Slot, c: Call) {
    c.Awaits? ==>
      if c.run < |s.past| then s.past[c.run].job == c.job && s.past[c.run].requested
      else c.run == |s.past| && s.worker.At? && s.worker.run.job == c.job && s.worker.run.requested
  }

  predicate PastFit(s: Slot) {
    forall i :: 0 <= i < |s.past| ==> Over(s, s.past[i])
  }

  predicate CallsFit(s: Slot) {
    forall c :: c in s.calls ==> CallFits(s, s.calls[c])
  }

  predicate Inv(s: Slot) {
    OneRunEach(s) && PendingFit(s) && WorkerFits(s) && PastFit(s) && CallsFit(s)
  }

  lemma {:induction false} OneRunStep(s: Slot, e: Event)
    requires OneRunEach(s) && PendingFit(s) && PastFit(s) && Enabled(s, e)
    ensures OneRunEach(Step(s, e))
  {
  }

  lemma {:induction false} WorkerStep(s: Slot, e: Event)
    requires PendingFit(s) && WorkerFits(s) && Enabled(s, e)
    ensures WorkerFits(Step(s, e))
  {
  }

  lemma {:induction false} PendingStep(s: Slot, e: Event)
    requires OneRunEach(s) && PendingFit(s) && Enabled(s, e)
    ensures PendingFit(Step(s, e))
  {
  }

  lemma {:induction false} PastStep(s: Slot, e: Event)
    requires OneRunEach(s) && WorkerFits(s) && PastFit(s) && Enabled(s, e)
    ensures PastFit(Step(s, e))
  {
  }

  lemma {:induction false} CallsStep(s: Slot, e: Event)
    requires WorkerFits(s) && CallsFit(s) && Enabled(s, e)
    ensures CallsFit(Step(s, e))
  {
  }

  lemma {:induction false} StepKeepsInv(s: Slot, e: Event)
    requires Inv(s) && Enabled(s, e)
    ensures Inv(Step(s, e))
  {
    OneRunStep(s, e);
    PendingStep(s, e);
    WorkerStep(s, e);
    PastStep(s, e);
    CallsStep(s, e);
  }

  lemma {:induction false} InvAlways(run: seq<Slot>, events: seq<Event>, k: nat)
    requires IsRun(run, events) && k < |run|
    ensures Inv(run[k])
  {
    if k > 0 {
      InvAlways(run, events, k - 1);
      StepKeepsInv(run[k-1], events[k-1]);
    }
  }

  // ---------- the channel and the row ----------

  /** A run's row has ended, or the run left it in flight without having recorded anything. */
  predicate Settled(s: Slot, r: Run) {
    && r.job in s.rows
    && (s.rows[r.job].Terminal() || (r.end == Some(LeftInFlight) && !r.recorded && (r.late || s.shutdown)))
  }

  /**
   A run's channel is closed once, and only after its row reached done, failed or cancelled, or was left in flight.
   */
  lemma {:induction false} ClosesAfterTheRow(run: seq<Slot>, events: seq<Event>, k: nat)
    requires IsRun(run, events) && k < |events| && events[k] == Close
    ensures var r := run[k].worker.run;
            && r.closed == 0 && run[k+1].past == run[k].past + [r.(closed := 1)] && run[k].current == None
            && Settled(run[k], r)
  {
    InvAlways(run, events, k);
  }

  /**
   In every state: the slot holds the worker's own run and no other; each job has had at most one run; every run
   that left had its channel closed once and its row settled; and a row marked failed was not asked to stop before
   that was decided.
   */
  lemma {:induction false} OneInFlight(run: seq<Slot>, events: seq<Event>, k: nat)
    requires IsRun(run, events) && k < |run|
    ensures run[k].current.Some? ==>
              run[k].worker.At? && run[k].current.value == run[k].worker.run.job && run[k].worker.run.closed == 0
    ensures forall i, j :: 0 <= i < j < |run[k].past| ==> run[k].past[i].job != run[k].past[j].job
    ensures forall r :: r in run[k].past ==>
              && r.closed == 1 && Settled(run[k], r)
              && (run[k].rows[r.job] == P.Failed && r.requested ==> r.after)
  {
    InvAlways(run, events, k);
  }

  /** A cancel call that found its job in flight returns only once that run has left the slot and its row is settled. */
  lemma {:induction false} CancelReturnsAfterTheJob(run: seq<Slot>, events: seq<Event>, k: nat, call: int)
    requires IsRun(run, events) && k < |events| && events[k] == Return(call)
    ensures var c := run[k].calls[call];
            && run[k].current != Some(c.job) && HeldJob(run[k].worker) != Some(c.job)
            && exists r :: r in run[k].past && r.job == c.job && r.requested && Settled(run[k], r)
  {
    InvAlways(run, events, k);
    var c := run[k].calls[call];
    assert run[k].past[c.run] in run[k].past;
  }

  /**
   A job asked to stop before its way out was decided has its row cancelled, unless its promotion had been recorded,
   or the request fell in the gap; it is never failed.
   */
  lemma {:induction false} AskedInTimeIsCancelled(run: seq<Slot>, events: seq<Event>, k: nat, r: Run)
    requires IsRun(run, events) && k < |run| && r in run[k].past
    requires r.requested && !r.late && !r.after
    ensures r.job in run[k].rows && run[k].rows[r.job] == if r.recorded then P.Done else P.Cancelled
  {
    InvAlways(run, events, k);
  }

  /** The job has a run, in the slot or over, whose first request came in time. */
  predicate InTime(s: Slot, job: int) {
    || (s.worker.At? && s.worker.run.job == job && AskedInTime(s.worker.run))
    || exists r :: r in s.past && r.job == job && AskedInTime(r)
  }

  predicate AskedInTime(r: Run) {
    r.requested && !r.late && !r.after
  }

  lemma {:induction false} InTimeStep(s: Slot, e: Event, job: int)
    requires InTime(s, job) && Enabled(s, e)
    ensures InTime(Step(s, e), job)
  {
    var t := Step(s, e);
    if r :| r in s.past && r.job == job && AskedInTime(r) {
      assert r in t.past;
    } else if e == Close {
      assert t.past[|s.past|] in t.past;
    }
  }

  lemma {:induction false} InTimeStays(run: seq<Slot>, events: seq<Event>, j: nat, k: nat, job: int)
    requires IsRun(run, events) && j <= k < |run| && InTime(run[j], job)
    ensures InTime(run[k], job)
    decreases k - j
  {
    if j < k {
      InTimeStep(run[j], events[j], job);
      InTimeStays(run, events, j + 1, k, job);
    }
  }

  /**
   A cancel call that finds its job in the pipeline, or before the worker's first look, settles the matter: once the
   worker has let the job go, its row is cancelled or done, whatever other calls come before or after.
   */
  lemma {:induction false} CancelInTimeWins(run: seq<Slot>, events: seq<Event>, j: nat, k: nat, call: int, job: int)
    requires IsRun(run, events) && j < |events| && j < k < |run|
    requires events[j] == CancelLook(call, job) && run[j].current == Some(job)
    requires run[j].worker.stage.Piping? || run[j].worker.stage.Errored?
    requires HeldJob(run[k].worker) != Some(job)
    ensures job in run[k].rows && (run[k].rows[job] == P.Cancelled || run[k].rows[job] == P.Done)
  {
    InvAlways(run, events, j);
    InTimeStays(run, events, j + 1, k, job);
    var r :| r in run[k].past && r.job == job && AskedInTime(r);
    AskedInTimeIsCancelled(run, events, k, r);
  }

  /**
   Short of a shutdown, the row of a run that left the slot has not ended exactly when the request came between the
   worker's two looks, the promotion had not been recorded, and no other cancel has written the row.
   */
  lemma {:induction false} LeftInFlightExactly(run: seq<Slot>, events: seq<Event>, k: nat, r: Run)
    requires IsRun(run, events) && k < |run| && r in run[k].past && !run[k].shutdown
    ensures r.job in run[k].rows
    ensures !run[k].rows[r.job].Terminal() <==> r.late && !r.recorded && run[k].rows[r.job] != P.Cancelled
  {
    InvAlways(run, events, k);
  }

  // ---------- a cancel that did not find its job ----------

  predicate RowCancelled(s: Slot, job: int) {
    job in s.rows && s.rows[job] == P.Cancelled
  }

  /** The worker holds the job and may still write its row: in the pipeline, or on the way to marking it failed. */
  predicate Open(s: Slot, job: int) {
    match s.worker
    case Waiting => false
    case Claimed(held) => held == job
    case At(r, stage) =>
      && r.job == job
      && (stage.Piping? || stage.Failing? || ((stage.Errored? || stage.Unasked?) && !r.requested && !s.shutdown))
  }

  lemma {:induction false} ShutStep(s: Slot, e: Event, job: int)
    requires Inv(s) && RowCancelled(s, job) && !Open(s, job) && Enabled(s, e)
    ensures RowCancelled(Step(s, e), job) && !Open(Step(s, e), job)
  {
  }

  /** A cancelled row the worker can no longer write stays cancelled. */
  lemma {:induction false} RowCancelSticks(run: seq<Slot>, events: seq<Event>, k: nat, j: nat, job: int)
    requires IsRun(run, events) && k <= j < |run| && RowCancelled(run[k], job) && !Open(run[k], job)
    ensures RowCancelled(run[j], job)
    decreases j - k
  {
    if k < j {
      InvAlways(run, events, k);
      ShutStep(run[k], events[k], job);
      RowCancelSticks(run, events, k + 1, j, job);
    }
  }

  lemma {:induction false} Go(run: seq<Slot>, events: seq<Event>, e: Event)
    returns (run': seq<Slot>, events': seq<Event>)
    requires IsRun(run, events) && Enabled(run[|run|-1], e)
    ensures IsRun(run', events') && run' == run + [Step(run[|run|-1], e)]
  {
    run', events' := run + [Step(run[|run|-1], e)], events + [e];
  }

  /** Any run that ends with a cancelled row the worker can still write can go on until the row is not cancelled. */
  lemma {:induction false} RowCancelUndone(run: seq<Slot>, events: seq<Event>, job: int)
    returns (run': seq<Slot>, events': seq<Event>)
    requires IsRun(run, events) && RowCancelled(run[|run|-1], job) && Open(run[|run|-1], job)
    ensures IsRun(run', events') && run <= run' && !RowCancelled(run'[|run'|-1], job)
  {
    InvAlways(run, events, |run| - 1);
    run', events' := run, events;
    match run[|run|-1].worker
    case Claimed(_) =>
      run', events' := Go(run', events', Mark);
      run', events' := Go(run', events', Record);
    case At(_, stage) =>
      if stage.Piping? {
        run', events' := Go(run', events', Record);
      } else {
        if stage.Errored? { run', events' := Go(run', events', LookForCancel); }
        if !stage.Failing? { run', events' := Go(run', events', LookAtContext); }
        run', events' := Go(run', events', FinishFailed);
      }
  }

  /** Some continuation of a run undoes the cancelled row. */
  ghost predicate Undoable(run: seq<Slot>, job: int) {
    exists run', events' :: IsRun(run', events') && run <= run' && !RowCancelled(run'[|run'|-1], job)
  }

  /** A cancelled row can be undone exactly while the worker holds the job and may still write its row. */
  lemma {:induction false} RowCancelUndoneExactly(run: seq<Slot>, events: seq<Event>, job: int)
    requires IsRun(run, events) && RowCancelled(run[|run|-1], job)
    ensures Undoable(run, job) <==> Open(run[|run|-1], job)
  {
    var k := |run| - 1;
    if Open(run[k], job) {
      var run', events' := RowCancelUndone(run, events, job);
    } else {
      forall run', events' | IsRun(run', events') && run <= run'
        ensures RowCancelled(run'[|run'|-1], job)
      {
        assert run'[k] == run[k];
        RowCancelSticks(run', events', k, |run'| - 1, job);
      }
    }
  }

  // ---------- the shutdown ----------

  /** After a shutdown nothing is claimed any more. */
  lemma {:induction false} NoneClaimedAfterShutdown(run: seq<Slot>, events: seq<Event>, j: nat, k: nat)
    requires IsRun(run, events) && j < k < |events| && events[j] == Shutdown
    ensures run[k].shutdown && !events[k].Claim?
    decreases k - j
  {
    if j + 1 < k {
      NoneClaimedAfterShutdown(run, events, j, k - 1);
    }
  }

  // ---------- the promotions to resume ----------

  /** A promotion to resume is still to come, in the worker's hands, over, or cancelled for good. */
  predicate Remembered(s: Slot, job: int) {
    || job in s.pending || HeldJob(s.worker) == Some(job)
    || (exists i :: 0 <= i < |s.past| && s.past[i].job == job)
    || (RowCancelled(s, job) && !Open(s, job))
  }

  lemma {:induction false} RememberedStep(s: Slot, e: Event, job: int)
    requires Inv(s) && Remembered(s, job) && Enabled(s, e)
    ensures Remembered(Step(s, e), job)
  {
    var t := Step(s, e);
    if RowCancelled(s, job) && !Open(s, job) {
      ShutStep(s, e, job);
    }
    if i :| 0 <= i < |s.past| && s.past[i].job == job {
      assert t.past[i].job == job;
    } else if e == Close && HeldJob(s.worker) == Some(job) {
      assert t.past[|s.past|].job == job;
    }
  }

  /** No promotion to resume is forgotten: it gets its run, unless its row is cancelled first. */
  lemma {:induction false} NoneForgotten(run: seq<Slot>, events: seq<Event>, k: nat, job: int)
    requires IsRun(run, events) && k < |run| && job in run[0].pending
    ensures Remembered(run[k], job)
  {
    if k > 0 {
      NoneForgotten(run, events, k - 1, job);
      InvAlways(run, events, k - 1);
      RememberedStep(run[k-1], events[k-1], job);
    }
  }

  /** Taking one up leads into a run exactly if its row has not been cancelled. */
  lemma {:induction false} ResumedExactly(run: seq<Slot>, events: seq<Event>, k: nat, job: int)
    requires IsRun(run, events) && k < |events| && events[k] == Resume(job)
    ensures HeldJob(run[k+1].worker) == Some(job) <==> !RowCancelled(run[k], job)
    ensures run[k+1].rows == run[k].rows && job !in run[k+1].pending
  {
    InvAlways(run, events, k);
  }

  // ---------- the gap between the two looks ----------

  function Fresh(job: int): Run {
    Run(job, false, false, false, false, 0, None)
  }

  /** A job whose pipeline failed, with no cancel seen yet. */
  lemma {:induction false} UnaskedRun(job: int) returns (run: seq<Slot>, events: seq<Event>)
    ensures IsRun(run, events)
    ensures run[|run|-1] == Slot(map[job := P.Running], {}, [], At(Fresh(job), Unasked), Some(job), map[], false)
  {
    run, events := [Slot(map[job := P.Queued], {}, [], Waiting, None, map[], false)], [];
    run, events := Go(run, events, Claim(job));
    run, events := Go(run, events, Mark);
    run, events := Go(run, events, Fail);
    run, events := Go(run, events, LookForCancel);
  }

  /** A cancel that comes in the gap returns with the row still running and the slot empty, and no shutdown in sight. */
  lemma {:induction false} CancelInTheGap(job: int) returns (run: seq<Slot>, events: seq<Event>)
    ensures IsRun(run, events)
    ensures var s := run[|run|-1];
            && s.rows == map[job := P.Running] && s.worker == Waiting && s.current == None && !s.shutdown
            && s.calls == map[] && |s.past| == 1 && s.past[0].job == job && s.past[0].requested
  {
    run, events := UnaskedRun(job);
    run, events := Go(run, events, CancelLook(1, job));
    run, events := Go(run, events, LookAtContext);
    run, events := Go(run, events, Clear);
    run, events := Go(run, events, Close);
    run, events := Go(run, events, Return(1));
  }

  /** A claimed job whose row a cancel has just marked cancelled. */
  lemma {:induction false} CancelledAfterClaim(job: int) returns (run: seq<Slot>, events: seq<Event>)
    ensures IsRun(run, events)
    ensures run[|run|-1] == Slot(map[job := P.Cancelled], {}, [], Claimed(job), None, map[], false)
  {
    run, events := [Slot(map[job := P.Queued], {}, [], Waiting, None, map[], false)], [];
    run, events := Go(run, events, Claim(job));
    run, events := Go(run, events, CancelLook(1, job));
    run, events := Go(run, events, CancelRow(1));
  }

  /** Cancelled between its claim and the slot, a job runs on all the same and is recorded done. */
  lemma {:induction false} CancelledThenDone(job: int) returns (run: seq<Slot>, events: seq<Event>, k: nat)
    ensures IsRun(run, events) && k < |run|
    ensures run[k].rows == map[job := P.Cancelled] && HeldJob(run[k].worker) == Some(job)
    ensures run[|run|-1].rows == map[job := P.Done]
  {
    run, events := CancelledAfterClaim(job);
    k := |run| - 1;
    run, events := Go(run, events, Mark);
    run, events := Go(run, events, Record);
  }
}
