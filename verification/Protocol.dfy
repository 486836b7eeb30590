/**
 The life of one library file: the files on disk, the durable job row, and the worker that carries a job
 from the queue to the irreversible rename. A process death, a cancel, a re-analysis of the file and any
 answer of the stream guard may come between any two steps.

 Assumptions: a rename is atomic; only the program writes these files; each update of the job row is one
 transaction; manual restarts do not overlap the worker's own run of the job.
 */
module Protocol {
  import opened Wrappers
  import opened RecoveryRule

  /** File contents: what the library held at first, or the output of one encoder run under one policy. */
  datatype Content = Original(tag: Option<int>) | Encoded(run: nat, whole: bool, policy: int)
  {
    function Policy(): Option<int> {
      if Original? then tag else Some(policy)
    }
  }

  /** The sparse fingerprint, as a function of file content. */
  type Digest = Content -> int

  ghost predicate Separating(digest: Digest) {
    forall c, d :: digest(c) == digest(d) ==> c == d
  }

  /** Where a staging file is: a sibling of the library file, or in the temp directory. */
  datatype Slot = Beside | InTemp

  datatype Disk = Disk(library: Content, beside: Option<Content>, temp: Option<Content>)
  {
    function At(s: Slot): Option<Content> {
      match s case Beside => beside case InTemp => temp
    }

    function Put(s: Slot, c: Option<Content>): Disk {
      match s case Beside => this.(beside := c) case InTemp => this.(temp := c)
    }
  }

  datatype Phase = Queued | Running | Verifying | Awaiting | Promoting | Done | Cancelled | Failed
  {
    predicate Terminal() {
      Done? || Cancelled? || Failed?
    }

    /** From here on the staging file is a finished output. */
    predicate Finishing() {
      Verifying? || Promoting? || Awaiting?
    }
  }

  datatype Row = Row(phase: Phase, attempt: nat, staging: Option<Slot>)

  /** Where the worker stands in a job; content is what verification accepted. */
  datatype Pc =
    | Loading | Ready | Recorded | Encoding | Finished | Probing | Unverified
    | Verified(content: Content) | Copying(content: Content) | Placed(content: Content) | Clear(content: Content)
    | Renamed | Settled
  {
    predicate BeforeOutput() {
      Loading? || Ready? || Recorded? || Encoding?
    }

    predicate Accepted() {
      Verified? || Copying? || Placed? || Clear?
    }

    predicate AfterRename() {
      Renamed? || Settled?
    }
  }

  datatype Worker =
    | Down
    | Starting
    | Cleaning(staging: Option<Slot>)
    | Checking(mayResume: bool)
    | Requeueing
    | Orphans(keep: Option<Slot>)
    | Idle(resume: bool)
    | Working(pc: Pc, at: Option<Slot>, cross: bool, requested: bool)
    | Leaving(cancelled: bool, at: Option<Slot>)

  /**
   What an observer remembers of the current attempt and no step reads, except that encoder runs are numbered:
   the library content the attempt started from, whether its rename landed, whether the file was analysed
   again after that, whether it ever staged on another device; and every content verification accepted.
   */
  datatype History = History(
    source: Content,
    base: nat,
    nextRun: nat,
    landed: bool,
    verified: set<Content>,
    reread: bool,
    crossed: bool)

  /**
   fingerprint is the one on the media row, and sized says that the row has a size for the file, which a promotion
   recorded without an identity has not; policy is the running program's.
   */
  datatype State = State(
    disk: Disk, row: Row, fingerprint: Option<int>, policy: int, worker: Worker, hist: History, sized: bool)

  datatype Event =
    // outside the worker
    | Crash | Boot(newPolicy: int) | Analyze | Submit | CancelRow | Vanish(slot: Slot) | CancelRequest
    // start-up
    | Sweep | SweepFails | Clean(removed: bool) | ResumeCheck(accepted: bool) | CheckLibrary(sight: Sight) | SkipJob
    | RequeueJob(removed: bool) | SweepOrphans(gone: set<Slot>)
    // the queue
    | Claim | Resume(acrossDevices: bool) | DropResume
    // the pipeline
    | Preflight(where: Slot, acrossDevices: bool) | RecordAttempt | StartEncode | EncodeFails | EncodeEnds
    | SetVerifying | SetPromoting | Accept | CopyStarts | CopyEnds | Place
    | Blocked(rowMoved: bool) | GuardFree | Rename | RecordPromotion(identified: bool) | Finish
    // the ways out; the last leaves the row as it is, after a shutdown, a late cancel or a failed write
    | Stop(keep: bool) | EndRow | Abandon

  function SlotOf(w: Worker): Slot
    requires w.Working?
  {
    if w.at == Some(InTemp) then InTemp else Beside
  }

  /** What is renamed: the copy beside the library file, or the staging file itself. */
  function RenameSlot(w: Worker): Slot
    requires w.Working?
  {
    if w.cross then Beside else SlotOf(w)
  }

  /** What a restart sees of the library file; any read may fail. */
  predicate SightOf(sight: Sight, digest: Digest, library: Content) {
    && (sight.fingerprint.Some? ==> sight.fingerprint == Some(digest(library)))
    && (sight.probed ==> sight.policy == library.Policy())
  }

  predicate Enabled(digest: Digest, s: State, e: Event) {
    var w := s.worker;
    match e
    case Crash => w != Down
    case Boot(_) => w == Down
    case Analyze => w != Down
    case Submit => w.Idle? && s.row.phase.Terminal()
    case CancelRow => w != Down && !s.row.phase.Terminal()
    case Vanish(_) => w != Down
    case CancelRequest => w.Working?
    case Sweep => w.Starting?
    case SweepFails => w.Starting?
    case Clean(_) => w.Cleaning?
    case ResumeCheck(accepted) =>
      w.Checking? && w.mayResume && (accepted ==> s.row.staging.Some? && s.disk.At(s.row.staging.value).Some?)
    case CheckLibrary(sight) => w.Checking? && !w.mayResume && SightOf(sight, digest, s.disk.library)
    case SkipJob => w.Checking? || w.Requeueing?
    case RequeueJob(_) => w.Requeueing?
    case SweepOrphans(gone) => w.Orphans? && (w.keep.Some? ==> w.keep.value !in gone)
    case Claim => w == Idle(false) && s.row.phase == Queued
    case Resume(across) =>
      w == Idle(true) && s.row.phase == Awaiting && s.row.staging.Some? && (across ==> s.row.staging == Some(InTemp))
    case DropResume => w == Idle(true) && s.row.phase != Awaiting
    case Preflight(where, across) =>
      w.Working? && w.pc == Loading && (across ==> where == InTemp)
      && s.sized && (s.fingerprint.Some? ==> s.fingerprint == Some(digest(s.disk.library)))
    case RecordAttempt => w.Working? && w.pc == Ready
    case StartEncode => w.Working? && w.pc == Recorded
    case EncodeFails => w.Working? && w.pc == Encoding
    case EncodeEnds => w.Working? && w.pc == Encoding && s.disk.At(SlotOf(w)).Some?
    case SetVerifying => w.Working? && w.pc == Finished
    case SetPromoting => w.Working? && w.pc == Probing && s.disk.At(SlotOf(w)).Some?
    case Accept => w.Working? && w.pc == Unverified && s.disk.At(SlotOf(w)).Some?
    case CopyStarts => w.Working? && w.pc.Verified? && w.cross
    case CopyEnds => w.Working? && w.pc.Copying? && s.disk.temp.Some?
    case Place => w.Working? && w.pc.Verified? && !w.cross
    case Blocked(_) => w.Working? && (w.pc.Placed? || w.pc.Clear?)
    case GuardFree => w.Working? && w.pc.Placed?
    case Rename => w.Working? && w.pc.Clear? && s.disk.At(RenameSlot(w)).Some?
    case RecordPromotion(_) => w.Working? && w.pc == Renamed
    case Finish => w.Working? && w.pc == Settled
    case Stop(_) => w.Working?
    case EndRow => w.Leaving?
    case Abandon => w.Working? || w.Leaving?
  }

  /** A requeue clears the row's staging path; a job at the cap fails and keeps it. */
  function AfterRequeue(row: Row): Row {
    match RequeueOrFail(row.attempt)
    case Requeued(n) => Row(Queued, n, None)
    case CapReached => row.(phase := Failed)
  }

  function Step(digest: Digest, s: State, e: Event): State
    requires Enabled(digest, s, e)
  {
    var w := s.worker;
    match e
    case Crash => s.(worker := Down)
    case Boot(p) => s.(worker := Starting, policy := p)
    case Analyze =>
      s.(fingerprint := Some(digest(s.disk.library)), sized := true,
         hist := s.hist.(reread := s.hist.reread || s.hist.landed))
    case Submit =>
      s.(row := Row(Queued, 0, None),
         hist := s.hist.(source := s.disk.library, base := s.hist.nextRun,
                         landed := false, reread := false, crossed := false))
    case CancelRow => s.(row := s.row.(phase := Cancelled))
    case Vanish(slot) => s.(disk := s.disk.Put(slot, None))
    case CancelRequest => s.(worker := w.(requested := true))

    case Sweep =>
      if s.row.phase == Running || s.row.phase == Verifying then
        s.(row := AfterRequeue(s.row), worker := Cleaning(s.row.staging))
      else if s.row.phase == Promoting || s.row.phase == Awaiting then
        s.(worker := Checking(s.row.phase == Awaiting))
      else s.(worker := Orphans(None))
    case SweepFails => s.(worker := Idle(false))
    case Clean(removed) =>
      var disk := if removed && w.staging.Some? then s.disk.Put(w.staging.value, None) else s.disk;
      s.(disk := disk, worker := Orphans(None))
    case ResumeCheck(accepted) =>
      if accepted then
        s.(worker := Orphans(s.row.staging),
           hist := s.hist.(verified := s.hist.verified + {s.disk.At(s.row.staging.value).value}))
      else s.(worker := Checking(false))
    case CheckLibrary(sight) =>
      (match Decide(s.fingerprint, sight, s.policy)
       case SourceIntact => s.(worker := Requeueing)
       case Promoted =>
         s.(row := s.row.(phase := Done), fingerprint := Some(digest(s.disk.library)), sized := true,
            worker := Orphans(None))
       case Unknown => s.(row := s.row.(phase := Failed), worker := Orphans(None)))
    case SkipJob => s.(worker := Orphans(None))
    case RequeueJob(removed) =>
      var disk := if removed && s.row.staging.Some? then s.disk.Put(s.row.staging.value, None) else s.disk;
      s.(disk := disk, row := AfterRequeue(s.row), worker := Orphans(None))
    case SweepOrphans(gone) =>
      s.(disk := s.disk.(beside := if Beside in gone then None else s.disk.beside,
                         temp := if InTemp in gone then None else s.disk.temp),
         worker := Idle(w.keep.Some?))

    case Claim => s.(row := s.row.(phase := Running), worker := Working(Loading, None, false, false))
    case Resume(across) =>
      s.(worker := Working(Finished, s.row.staging, across, false),
          hist := s.hist.(crossed := s.hist.crossed || across))
    case DropResume => s.(worker := Idle(false))

    case Preflight(where, across) =>
      s.(worker := w.(pc := Ready, at := Some(where), cross := across),
         hist := s.hist.(source := s.disk.library, base := s.hist.nextRun,
                         landed := false, reread := false, crossed := across))
    case RecordAttempt => s.(row := s.row.(staging := w.at), worker := w.(pc := Recorded))
    case StartEncode =>
      s.(disk := s.disk.Put(SlotOf(w), Some(Encoded(s.hist.nextRun, false, s.policy))),
         worker := w.(pc := Encoding), hist := s.hist.(nextRun := s.hist.nextRun + 1))
    case EncodeFails => s.(worker := w.(pc := Recorded))
    case EncodeEnds =>
      s.(disk := s.disk.Put(SlotOf(w), Some(Encoded(s.hist.nextRun, true, s.policy))),
         worker := w.(pc := Finished), hist := s.hist.(nextRun := s.hist.nextRun + 1))
    case SetVerifying => s.(row := s.row.(phase := Verifying), worker := w.(pc := Probing))
    case SetPromoting => s.(row := s.row.(phase := Promoting), worker := w.(pc := Unverified))
    case Accept =>
      var c := s.disk.At(SlotOf(w)).value;
      s.(worker := w.(pc := Verified(c)), hist := s.hist.(verified := s.hist.verified + {c}))
    case CopyStarts =>
      s.(disk := s.disk.Put(Beside, Some(Encoded(s.hist.nextRun, false, s.policy))),
         worker := w.(pc := Copying(w.pc.content)), hist := s.hist.(nextRun := s.hist.nextRun + 1))
    case CopyEnds => s.(disk := s.disk.Put(Beside, s.disk.temp), worker := w.(pc := Placed(w.pc.content)))
    case Place => s.(worker := w.(pc := Placed(w.pc.content)))
    case Blocked(moved) =>
      s.(row := if moved then s.row.(phase := Awaiting) else s.row, worker := w.(pc := Placed(w.pc.content)))
    case GuardFree => s.(worker := w.(pc := Clear(w.pc.content)))
    case Rename =>
      s.(disk := s.disk.(library := s.disk.At(RenameSlot(w)).value).Put(RenameSlot(w), None),
         worker := w.(pc := Renamed), hist := s.hist.(landed := true))
    case RecordPromotion(identified) =>
      s.(row := s.row.(phase := Done),
         fingerprint := if identified then Some(digest(s.disk.library)) else None, sized := identified,
         worker := w.(pc := Settled))
    case Finish => s.(worker := Idle(false))

    case Stop(keep) => s.(worker := Leaving(w.requested, if keep then None else w.at))
    case EndRow =>
      var disk := if w.at.Some? then s.disk.Put(w.at.value, None) else s.disk;
      var row := if !w.cancelled then s.row.(phase := Failed)
                 else if s.row.phase.Terminal() then s.row else s.row.(phase := Cancelled);
      s.(disk := disk, row := row, worker := Idle(false))
    case Abandon => s.(worker := Idle(false))
  }

  /** A file queued with nothing staged; analysis records a fingerprint, and a row from elsewhere may have none. */
  predicate Initial(digest: Digest, s: State) {
    && s.disk.library.Original? && s.disk.beside == None && s.disk.temp == None
    && s.row == Row(Queued, 0, None) && s.worker == Idle(false)
    && (s.fingerprint.Some? ==> s.fingerprint == Some(digest(s.disk.library)))
    && s.hist == History(s.disk.library, 0, 0, false, {}, false, false) && s.sized
  }

  /** The states of a run: each the step of the one before. */
  ghost predicate IsRun(digest: Digest, run: seq<State>, events: seq<Event>) {
    && |run| == |events| + 1
    && Initial(digest, run[0])
    && forall i :: 0 <= i < |events| ==>
        Enabled(digest, run[i], events[i]) && run[i+1] == Step(digest, run[i], events[i])
  }

  function Last(run: seq<State>): State
    requires |run| > 0
  {
    run[|run|-1]
  }

  /** One more step of a run. */
  lemma {:induction false} Go(digest: Digest, run: seq<State>, events: seq<Event>, e: Event)
    returns (run': seq<State>, events': seq<Event>)
    requires IsRun(digest, run, events) && Enabled(digest, Last(run), e)
    ensures IsRun(digest, run', events') && |run'| == |run| + 1 && events'[|run|-1] == e
    ensures run'[|run|-1] == Last(run) && Last(run') == Step(digest, Last(run), e)
    ensures run <= run'
  {
    run', events' := run + [Step(digest, Last(run), e)], events + [e];
  }
}
