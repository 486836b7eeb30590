/** A job that keeps killing the process is restarted three times and no more. */
module RestartCap {
  import opened Wrappers
  import opened RecoveryRule
  import opened Protocol
  import opened ProtocolInvariant
  import opened ProtocolSafety

  /** A job under decision is not in the queue. */
  predicate Withdrawn(s: State) {
    s.worker.Checking? || s.worker.Requeueing? ==> s.row.phase != Queued
  }

  lemma {:induction false} WithdrawnStep(digest: Digest, s: State, e: Event)
    requires Withdrawn(s) && Enabled(digest, s, e)
    ensures Withdrawn(Step(digest, s, e))
  {
  }

  lemma {:induction false} WithdrawnAlways(digest: Digest, run: seq<State>, events: seq<Event>, k: nat)
    requires IsRun(digest, run, events) && k < |run|
    ensures Withdrawn(run[k])
  {
    if k > 0 {
      WithdrawnAlways(digest, run, events, k - 1);
      WithdrawnStep(digest, run[k-1], events[k-1]);
    }
  }

  /** A requeue adds exactly one to the count, below three, and nothing else but a new submission touches it. */
  lemma {:induction false} AttemptStep(digest: Digest, s: State, e: Event)
    requires Withdrawn(s) && Enabled(digest, s, e) && !e.Submit?
    ensures var t := Step(digest, s, e);
            if Requeues(s, e, t) then s.row.attempt < 3 && t.row.attempt == s.row.attempt + 1
            else t.row.attempt == s.row.attempt
  {
  }

  /** The steps that stand for an interruption the program may answer with a restart. */
  predicate MayRestart(s: State, e: Event) {
    e.RequeueJob? || (e == Sweep && (s.row.phase == Running || s.row.phase == Verifying))
  }

  /** A job interrupted while it ran, or found intact, goes back to the queue below three restarts, and else fails. */
  lemma {:induction false} RestartedBelowTheCap(digest: Digest, run: seq<State>, events: seq<Event>, k: nat)
    requires IsRun(digest, run, events) && k < |events| && MayRestart(run[k], events[k])
    ensures run[k].row.attempt <= 3
    ensures if run[k].row.attempt < 3 then run[k+1].row == Row(Queued, run[k].row.attempt + 1, None)
            else run[k+1].row == run[k].row.(phase := Failed)
  {
    InvAlways(digest, run, events, k);
  }

  /** How many of the steps from j up to k send the job back to the queue. */
  ghost function Restarts(run: seq<State>, events: seq<Event>, j: nat, k: nat): nat
    requires j <= k <= |events| && |run| == |events| + 1
    decreases k - j
  {
    if j == k then 0
    else Restarts(run, events, j, k - 1) + if Requeues(run[k-1], events[k-1], run[k]) then 1 else 0
  }

  /** Between two submissions the count is the number of restarts, of which there are at most three. */
  lemma {:induction false} RestartsAreCounted(digest: Digest, run: seq<State>, events: seq<Event>, j: nat, k: nat)
    requires IsRun(digest, run, events) && j <= k <= |events|
    requires forall i :: j <= i < k ==> !events[i].Submit?
    ensures run[k].row.attempt == run[j].row.attempt + Restarts(run, events, j, k)
    ensures run[j].row.attempt + Restarts(run, events, j, k) <= 3
    decreases k - j
  {
    InvAlways(digest, run, events, k);
    if j < k {
      RestartsAreCounted(digest, run, events, j, k - 1);
      WithdrawnAlways(digest, run, events, k - 1);
      AttemptStep(digest, run[k-1], events[k-1]);
    }
  }

  /** A job comes to the queue with no restarts behind it. */
  lemma {:induction false} CountStartsAtNothing(digest: Digest, run: seq<State>, events: seq<Event>, k: nat)
    requires IsRun(digest, run, events) && k < |events|
    ensures run[0].row.attempt == 0
    ensures events[k].Submit? ==> run[k+1].row == Row(Queued, 0, None)
  {
  }

  // ---------- what an interruption leaves ----------

  /** The row of a job in the worker's hands, until its promotion is recorded, is in flight or was cancelled. */
  predicate RowInFlight(s: State) {
    (s.worker.Working? && s.worker.pc != Settled) || s.worker.Leaving? ==>
      || s.row.phase == Running || s.row.phase.Finishing() || s.row.phase == Cancelled
      || (s.worker.Leaving? && s.row.phase == Done)
  }

  lemma {:induction false} InFlightStep(digest: Digest, s: State, e: Event)
    requires Inv(digest, s) && RowInFlight(s) && Enabled(digest, s, e)
    ensures RowInFlight(Step(digest, s, e))
  {
  }

  lemma {:induction false} InFlightAlways(digest: Digest, run: seq<State>, events: seq<Event>, k: nat)
    requires IsRun(digest, run, events) && k < |run|
    ensures RowInFlight(run[k])
  {
    if k > 0 {
      InvAlways(digest, run, events, k - 1);
      InFlightAlways(digest, run, events, k - 1);
      InFlightStep(digest, run[k-1], events[k-1]);
    }
  }

  /**
   A job cut short in the pipeline is found by the next restart, unless a cancel has ended its row; and it is judged by
   the policy of the program that restarts.
   */
  lemma {:induction false} InterruptedIsFound(digest: Digest, run: seq<State>, events: seq<Event>, k: nat)
    requires IsRun(digest, run, events) && k + 2 < |events|
    requires run[k].worker.Working? && run[k].worker.pc != Settled && run[k].row.phase != Cancelled
    requires events[k] == Crash && events[k+1].Boot? && events[k+2] == Sweep
    ensures MayRestart(run[k+2], Sweep) || run[k+3].worker.Checking?
    ensures run[k+3].policy == events[k+1].newPolicy
  {
    InFlightAlways(digest, run, events, k);
  }

  /** A job that ends without its promotion leaves no file of its own, and its row says how it ended. */
  lemma {:induction false} EndsClean(digest: Digest, run: seq<State>, events: seq<Event>, k: nat)
    requires IsRun(digest, run, events) && k < |events| && events[k] == EndRow
    ensures run[k].worker.at.Some? ==> run[k+1].disk.At(run[k].worker.at.value).None?
    ensures run[k+1].row.phase.Terminal() && run[k+1].disk.library == run[k].disk.library
    ensures !run[k].worker.cancelled ==> run[k+1].row.phase == Failed
    ensures run[k].worker.cancelled && !run[k].row.phase.Terminal() ==> run[k+1].row.phase == Cancelled
  {
  }
}
