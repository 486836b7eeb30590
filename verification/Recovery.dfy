/**
 The restart over the whole queue: every interrupted job is decided, the resumable ones are claimed, and then
 every leftover that no claim holds is removed. Every answer from the store, the files and the prober is
 arbitrary.
 */
module Recovery {
  import opened Wrappers
  import opened StagingNames
  import opened RecoveryRule
  import opened Protocol

  /** A row of the queue; fingerprint is the one recorded for its file, and source the file itself. */
  datatype Job = Job(phase: Phase, attempt: nat, staging: Option<Path>, fingerprint: Option<int>)

  function BackToQueue(j: Job): Job {
    match RequeueOrFail(j.attempt)
    case Requeued(n) => j.(phase := Queued, attempt := n, staging := None)
    case CapReached => j.(phase := Failed)
  }

  /** The row after the store's transaction. */
  function Taken(j: Job): Job {
    if Unfinished(j) then BackToQueue(j) else j
  }

  /** What the verdict on an interrupted promotion makes of its row. */
  function AfterVerdict(j: Job, v: Verdict): Job {
    match v
    case SourceIntact => BackToQueue(j)
    case Promoted => j.(phase := Done)
    case Unknown => j.(phase := Failed)
  }

  /** What a restart meets outside: the library file, the staging file's check, its removal, and the sweep's reach. */
  datatype Answers = Answers(sight: Sight, verifies: bool, removed: bool, swept: set<Slot>)

  predicate InFlightPhase(p: Phase) {
    p == Running || p.Finishing()
  }

  /** A state an interruption can leave, at the start of the next process. */
  ghost predicate Interrupted(digest: Digest, s: State, a: Answers) {
    && s.worker == Starting && InFlightPhase(s.row.phase) && SightOf(a.sight, digest, s.disk.library)
    && (a.verifies ==> s.row.staging.Some? && s.disk.At(s.row.staging.value).Some?)
  }

  /** The protocol's restart of a job up to the orphan sweep: the row's transaction, the staging check, the verdict. */
  ghost function Settling(digest: Digest, s: State, a: Answers): (r: State)
    requires Interrupted(digest, s, a)
    ensures r.worker.Orphans?
  {
    var swept := Step(digest, s, Sweep);
    if swept.worker.Cleaning? then Step(digest, swept, Clean(a.removed))
    else if s.row.phase == Awaiting && a.verifies then Step(digest, swept, ResumeCheck(true))
    else
      Concluding(digest, if s.row.phase == Awaiting then Step(digest, swept, ResumeCheck(false)) else swept, a)
  }

  /** The look at the library file, and what follows from it. */
  ghost function Concluding(digest: Digest, s: State, a: Answers): (r: State)
    requires s.worker == Checking(false) && SightOf(a.sight, digest, s.disk.library)
    ensures r.worker.Orphans?
  {
    var checked := Step(digest, s, CheckLibrary(a.sight));
    if checked.worker.Requeueing? then Step(digest, checked, RequeueJob(a.removed)) else checked
  }

  /** And with the orphan sweep, which leaves what a resumed job holds. */
  ghost function Restarted(digest: Digest, s: State, a: Answers): State
    requires Interrupted(digest, s, a)
  {
    var settled := Settling(digest, s, a);
    var held := if settled.worker.keep.Some? then {settled.worker.keep.value} else {};
    Step(digest, settled, SweepOrphans(a.swept - held))
  }

  predicate IsResumed(j: Job, a: Answers) {
    j.phase == Awaiting && a.verifies
  }

  /** The row the queue's restart leaves. */
  function Decided(j: Job, a: Answers, policy: int): Job {
    if Unfinished(j) then Taken(j)
    else if IsResumed(j, a) then j
    else AfterVerdict(j, Decide(j.fingerprint, a.sight, policy))
  }

  /** Whether deciding a job may take its staging file. */
  predicate MayTake(j: Job, a: Answers, policy: int) {
    Unfinished(j) || (!IsResumed(j, a) && Decide(j.fingerprint, a.sight, policy) == SourceIntact)
  }

  ghost predicate SameRow(j: Job, s: State) {
    && j.phase == s.row.phase && j.attempt == s.row.attempt
    && (j.staging.Some? <==> s.row.staging.Some?)
  }

  lemma {:induction false} UnfinishedAgrees(digest: Digest, s: State, j: Job, a: Answers)
    requires Interrupted(digest, s, a) && SameRow(j, s) && j.fingerprint == s.fingerprint && Unfinished(j)
    ensures SameRow(Decided(j, a, s.policy), Settling(digest, s, a)) && Settling(digest, s, a).worker == Orphans(None)
    ensures Settling(digest, s, a).disk ==
            if a.removed && s.row.staging.Some? then s.disk.Put(s.row.staging.value, None) else s.disk
  {
  }

  lemma {:induction false} VerdictAgrees(digest: Digest, s: State, j: Job, a: Answers)
    requires s.worker == Checking(false) && SightOf(a.sight, digest, s.disk.library)
    requires SameRow(j, s) && j.fingerprint == s.fingerprint
    ensures var v := Decide(j.fingerprint, a.sight, s.policy);
            && SameRow(AfterVerdict(j, v), Concluding(digest, s, a))
            && Concluding(digest, s, a).worker == Orphans(None)
            && Concluding(digest, s, a).disk ==
                 if a.removed && s.row.staging.Some? && v == SourceIntact
                 then s.disk.Put(s.row.staging.value, None) else s.disk
  {
  }

  lemma {:induction false} ResumedAgrees(digest: Digest, s: State, j: Job, a: Answers)
    requires Interrupted(digest, s, a) && SameRow(j, s) && IsResumed(j, a)
    ensures Settling(digest, s, a).row == s.row && Settling(digest, s, a).disk == s.disk
    ensures Settling(digest, s, a).worker == Orphans(s.row.staging)
  {
  }

  /** Where an interrupted promotion that is not resumed is looked into. */
  ghost function Opened(digest: Digest, s: State, a: Answers): State
    requires Interrupted(digest, s, a) && (s.row.phase == Promoting || s.row.phase == Awaiting)
  {
    var swept := Step(digest, s, Sweep);
    if s.row.phase == Awaiting then Step(digest, swept, ResumeCheck(false)) else swept
  }

  lemma {:induction false} OpenedForChecking(digest: Digest, s: State, a: Answers)
    requires Interrupted(digest, s, a) && (s.row.phase == Promoting || (s.row.phase == Awaiting && !a.verifies))
    ensures Opened(digest, s, a) == s.(worker := Checking(false))
    ensures Settling(digest, s, a) == Concluding(digest, Opened(digest, s, a), a)
  {
  }

  lemma {:induction false} PromotionAgrees(digest: Digest, s: State, j: Job, a: Answers)
    requires Interrupted(digest, s, a) && SameRow(j, s) && j.fingerprint == s.fingerprint && !Unfinished(j)
    ensures SameRow(Decided(j, a, s.policy), Settling(digest, s, a))
    ensures Settling(digest, s, a).worker == Orphans(if IsResumed(j, a) then s.row.staging else None)
    ensures Settling(digest, s, a).disk ==
            if a.removed && s.row.staging.Some? && MayTake(j, a, s.policy)
            then s.disk.Put(s.row.staging.value, None) else s.disk
  {
    if IsResumed(j, a) {
      ResumedAgrees(digest, s, j, a);
    } else {
      OpenedForChecking(digest, s, a);
      VerdictAgrees(digest, Opened(digest, s, a), j, a);
    }
  }

  /** A file is still there after the queue's restart: not taken by the decision, nor swept unclaimed. */
  predicate Survives(j: Job, staging: Option<Slot>, a: Answers, policy: int, x: Slot) {
    && !(staging == Some(x) && a.removed && MayTake(j, a, policy))
    && !(x in a.swept && !(staging == Some(x) && IsResumed(j, a)))
  }

  /**
   For every state an interruption can leave, and whatever the restart meets, the restart over the queue does to the row
   and to the files what the protocol's does, the orphan sweep included; and it resumes the same jobs.
   */
  lemma {:induction false} RestartAgrees(digest: Digest, s: State, j: Job, a: Answers)
    requires Interrupted(digest, s, a) && SameRow(j, s) && j.fingerprint == s.fingerprint
    ensures var r := Restarted(digest, s, a);
            && SameRow(Decided(j, a, s.policy), r) && r.worker == Idle(IsResumed(j, a))
            && r.disk.library == s.disk.library
            && forall x :: r.disk.At(x) == if Survives(j, s.row.staging, a, s.policy, x) then s.disk.At(x) else None
  {
    if Unfinished(j) {
      UnfinishedAgrees(digest, s, j, a);
    } else {
      PromotionAgrees(digest, s, j, a);
    }
  }

  predicate InFlight(j: Job) {
    InFlightPhase(j.phase)
  }

  predicate Unfinished(j: Job) {
    j.phase == Running || j.phase == Verifying
  }

  /**
   Why a verdict may not reach the row: a call on the store failed, or the promoted file, which has to be measured
   first, could not be read.
   */
  predicate Stuck(v: Verdict, storeFailed: bool, fileFailed: bool) {
    storeFailed || (v == Promoted && fileFailed)
  }

  /**
   What a restart makes of a row: an unfinished encode is requeued or failed; an interrupted promotion is resumed,
   or becomes what the verdict says, unless that is stuck; every other row stays.
   */
  predicate Outcome(was: Job, now: Job, resumed: bool, v: Option<Verdict>, storeFailed: bool, fileFailed: bool) {
    if Unfinished(was) || !InFlight(was) then now == Taken(was) && !resumed && v == None
    else if resumed then was.phase == Awaiting && now == was && was.staging.Some? && v == None
    else if v == None then now == was && storeFailed
    else now == AfterVerdict(was, v.value) || (now == was && Stuck(v.value, storeFailed, fileFailed))
  }

  /** A verdict was reached and the row became what it says, unless that is stuck. */
  predicate Concluded(
    found: Job, now: Job, verdicts0: map<int, Verdict>, verdicts: map<int, Verdict>, id: int, storeFailed: bool,
    fileFailed: bool)
  {
    if id !in verdicts then verdicts == verdicts0 && now == found && storeFailed
    else
      && verdicts == verdicts0[id := verdicts[id]]
      && (now == AfterVerdict(found, verdicts[id]) || (now == found && Stuck(verdicts[id], storeFailed, fileFailed)))
  }

  /** Rows still to be decided are as the store's transaction left them; every other has its outcome. */
  ghost predicate ProgressOf(
    was: map<int, Job>, todo: set<int>, rows: map<int, Job>, pending: seq<int>, verdicts: map<int, Verdict>,
    storeFailed: bool, fileFailed: bool)
  {
    && rows.Keys == was.Keys
    && (forall id :: id in verdicts || id in pending ==> id in was && id !in todo)
    && forall id :: id in was ==>
         if id in todo then rows[id] == Taken(was[id])
         else
           var verdict := if id in verdicts then Some(verdicts[id]) else None;
           Outcome(was[id], rows[id], id in pending, verdict, storeFailed, fileFailed)
  }

  /** What deciding one job does to its row, the resumed jobs and the verdicts. */
  ghost predicate DecidesJob(
    id: int, found: Job, resumed: bool, rows0: map<int, Job>, rows: map<int, Job>, pending0: seq<int>,
    pending: seq<int>, verdicts0: map<int, Verdict>, verdicts: map<int, Verdict>, storeFailed: bool, fileFailed: bool)
  {
    && id in rows && rows == rows0[id := rows[id]]
    && (resumed ==> found.phase == Awaiting && found.staging.Some? && pending == pending0 + [id])
    && (!resumed ==> pending == pending0)
    && (resumed || Unfinished(found) ==> rows == rows0 && verdicts == verdicts0)
    && (!resumed && !Unfinished(found) ==>
          Concluded(found, rows[id], verdicts0, verdicts, id, storeFailed, fileFailed))
  }

  lemma {:induction false} OneMoreDecided(
    was: map<int, Job>, todo: set<int>, id: int, resumed: bool, rows0: map<int, Job>, rows: map<int, Job>,
    pending0: seq<int>, pending: seq<int>, verdicts0: map<int, Verdict>, verdicts: map<int, Verdict>,
    storeFailed0: bool, storeFailed: bool, fileFailed0: bool, fileFailed: bool)
    requires ProgressOf(was, todo, rows0, pending0, verdicts0, storeFailed0, fileFailed0)
    requires id in todo && id in was && InFlight(was[id])
    requires (storeFailed0 ==> storeFailed) && (fileFailed0 ==> fileFailed)
    requires DecidesJob(
               id, was[id], resumed, rows0, rows, pending0, pending, verdicts0, verdicts, storeFailed, fileFailed)
    ensures ProgressOf(was, todo - {id}, rows, pending, verdicts, storeFailed, fileFailed)
  {
  }

  /** Later failures change no outcome; and without a failed store call few jobs stay in flight. */
  lemma {:induction false} AllDecided(
    was: map<int, Job>, rows: map<int, Job>, pending: seq<int>, verdicts: map<int, Verdict>, storeFailed: bool,
    fileFailed0: bool, fileFailed: bool)
    requires ProgressOf(was, {}, rows, pending, verdicts, storeFailed, fileFailed0) && (fileFailed0 ==> fileFailed)
    ensures ProgressOf(was, {}, rows, pending, verdicts, storeFailed, fileFailed)
    ensures !storeFailed ==>
              forall id :: id in rows && InFlight(rows[id]) ==>
                id in pending || (fileFailed && id in verdicts && verdicts[id] == Promoted)
  {
  }

  /** A job found undecidable, with the staging file it left. */
  ghost predicate Undecidable(was: map<int, Job>, verdicts: map<int, Verdict>, id: int, p: Path) {
    id in verdicts && verdicts[id] == Unknown && id in was && was[id].staging == Some(p)
  }

  /** Each recorded staging file is named after its job. */
  ghost predicate Named(rows: map<int, Job>) {
    forall id :: id in rows && rows[id].staging.Some? ==> NamedAfter(rows[id].staging.value, id)
  }

  ghost predicate NamedAfter(p: Path, id: int) {
    exists e :: p.name == StagingName(id, e)
  }

  lemma {:induction false} NamedApart(p: Path, a: int, q: Path, b: int)
    requires NamedAfter(p, a) && NamedAfter(q, b) && a != b
    ensures p != q
  {
    var d :| p.name == StagingName(a, d);
    var e :| q.name == StagingName(b, e);
    if p == q {
      StagingNameInjective(a, d, b, e);
    }
  }

  /** What the orphan sweep removes: debris under a root, and anything of the program's in the temp directory. */
  predicate Swept(p: Path, roots: seq<seq<string>>, temp: Option<seq<string>>) {
    || (IsDebris(p.name) && exists i :: 0 <= i < |roots| && Under(roots[i], p))
    || (temp.Some? && p.dir == temp.value && TempPrefix <= p.name)
  }

  /**
   Nothing is swept but the program's own: staging files and write probes anywhere under a root, and whatever has its
   prefix directly in the temp directory.
   */
  lemma {:induction false} SweptExactly(p: Path, roots: seq<seq<string>>, temp: Option<seq<string>>)
    ensures Swept(p, roots, temp) <==>
              || (temp == Some(p.dir) && ".codarr-" <= p.name)
              || ((exists root :: root in roots && root <= p.dir)
                  && (".codarr-staging-" <= p.name || ".codarr-writetest-" <= p.name))
    ensures Swept(p, roots, temp) ==> ".codarr-" <= p.name
  {
    if StagingPrefix <= p.name {
      assert p.name[..8] == StagingPrefix[..8] == TempPrefix;
    }
    if WriteProbePrefix <= p.name {
      assert p.name[..8] == WriteProbePrefix[..8] == TempPrefix;
    }
    assert forall i :: 0 <= i < |roots| ==> roots[i] in roots;
  }

  /** A job's own staging file is swept exactly when it lies under a root or in the temp directory. */
  lemma {:induction false} StagingIsSwept(p: Path, id: int, roots: seq<seq<string>>, temp: Option<seq<string>>)
    requires NamedAfter(p, id)
    ensures Swept(p, roots, temp) <==> (exists i :: 0 <= i < |roots| && Under(roots[i], p)) || temp == Some(p.dir)
  {
    var e :| p.name == StagingName(id, e);
    BothAreDebris(id, e, id);
  }

  /** A staging file gone for a reason of its own job. */
  ghost predicate TakenFile(was: map<int, Job>, verdicts: map<int, Verdict>, p: Path) {
    exists id :: id in was && InFlight(was[id]) && was[id].staging == Some(p) && MayGo(was, verdicts, id)
  }

  predicate MayGo(was: map<int, Job>, verdicts: map<int, Verdict>, id: int)
    requires id in was
  {
    Unfinished(was[id]) || (id in verdicts && verdicts[id] == SourceIntact)
  }

  /** The staging file of a job failed as undecidable outlives the restart exactly when the sweep does not reach it. */
  lemma {:induction false} UndecidableKept(
    was: map<int, Job>, verdicts: map<int, Verdict>, pending: seq<int>, before: set<Path>, after: set<Path>,
    swept: bool, clean: bool, id: int, p: Path)
    requires Named(was) && id in was && was[id].staging == Some(p) && p in before
    requires id in verdicts && verdicts[id] == Unknown && id !in pending
    requires was[id].phase == Promoting || was[id].phase == Awaiting
    requires p !in after ==> swept || TakenFile(was, verdicts, p)
    requires clean && swept && p in after ==> exists i :: i in pending && i in was && was[i].staging == Some(p)
    ensures !swept ==> p in after
    ensures clean ==> (p in after <==> !swept)
  {
    forall i | i in was && was[i].staging == Some(p)
      ensures i == id
    {
      if i != id { NamedApart(p, i, p, id); }
    }
  }

  lemma {:induction false} NothingInEmpty(ids: set<int>)
    ensures ids == {} || exists id :: id in ids
  {
    if forall id :: id !in ids {
      assert ids == {};
    }
  }

  class Service {
    const roots: seq<seq<string>>
    const temp: Option<seq<string>>
    const policy: int

    var files: set<Path>
    var rows: map<int, Job>
    var pending: seq<int>
    /** Some call on the filesystem failed. */
    var failed: bool
    /** Some call on the store failed. */
    var storeFailed: bool
    /** The jobs whose staging file was found still to verify. */
    var verified: set<int>
    /** What was concluded of each interrupted promotion that was looked into. */
    var verdicts: map<int, Verdict>

    constructor (roots: seq<seq<string>>, temp: Option<seq<string>>, policy: int, files: set<Path>, rows: map<int, Job>)
      ensures this.roots == roots && this.temp == temp && this.policy == policy
      ensures this.files == files && this.rows == rows && pending == [] && !failed && !storeFailed
      ensures verdicts == map[] && verified == {}
    {
      this.roots, this.temp, this.policy := roots, temp, policy;
      this.files, this.rows, this.pending, this.verdicts := files, rows, [], map[];
      failed, storeFailed, verified := false, false, {};
    }

    // ---------- the orphan sweep ----------

    method Remove(p: Path)
      modifies this`files, this`failed
      ensures files == old(files) - {p} || (failed && files == old(files))
      ensures !failed ==> p !in files
      ensures old(failed) ==> failed
    {
      var ok: bool := *;
      if p !in files { return; }
      if ok { files := files - {p}; } else { failed := true; }
    }

    /** One root: whatever order its files come in, and whichever cannot be read or removed. */
    method Walk(root: seq<string>, held: set<Path>, removed0: set<Path>) returns (removed: set<Path>)
      modifies this`files, this`failed
      ensures old(failed) ==> failed
      ensures files <= old(files) && removed == removed0 + (old(files) - files)
      ensures forall p :: p in old(files) && p !in files ==> p !in held && IsDebris(p.name) && Under(root, p)
      ensures !failed ==> forall p :: p in old(files) && IsDebris(p.name) && Under(root, p) && p !in held ==>
          p !in files
    {
      removed := removed0;
      var todo := set p | p in files && Under(root, p);
      while todo != {}
        invariant old(failed) ==> failed
        invariant files <= old(files) && removed == removed0 + (old(files) - files)
        invariant forall p :: p in todo ==> p in old(files) && Under(root, p)
        invariant forall p :: p in old(files) && p !in files ==> p !in held && IsDebris(p.name) && Under(root, p)
        invariant !failed ==> forall p :: p in files && IsDebris(p.name) && Under(root, p) && p !in held ==> p in todo
        decreases |todo|
      {
        var p :| p in todo;
        todo := todo - {p};
        var readable: bool := *;
        if !readable {
          failed := true;
        } else if IsDebris(p.name) && p !in held {
          var before := files;
          Remove(p);
          removed := removed + (before - files);
        }
      }
    }

    method SweepTemp(held: set<Path>, removed0: set<Path>) returns (removed: set<Path>)
      modifies this`files, this`failed
      ensures old(failed) ==> failed
      ensures files <= old(files) && removed == removed0 + (old(files) - files)
      ensures forall p :: p in old(files) && p !in files ==> p !in held && temp == Some(p.dir) && TempPrefix <= p.name
      ensures !failed ==> forall p :: p in old(files) && temp == Some(p.dir) && TempPrefix <= p.name && p !in held ==>
          p !in files
    {
      removed := removed0;
      if temp.None? { return; }
      var todo := set p | p in files && p.dir == temp.value && TempPrefix <= p.name;
      while todo != {}
        invariant old(failed) ==> failed
        invariant files <= old(files) && removed == removed0 + (old(files) - files)
        invariant forall p :: p in todo ==> p in old(files) && temp == Some(p.dir) && TempPrefix <= p.name
        invariant forall p :: p in old(files) && p !in files ==>
            p !in held && temp == Some(p.dir) && TempPrefix <= p.name
        invariant !failed ==> forall p :: p in files && temp == Some(p.dir) && TempPrefix <= p.name && p !in held ==>
            p in todo
        decreases |todo|
      {
        var p :| p in todo;
        todo := todo - {p};
        if p !in held {
          var before := files;
          Remove(p);
          removed := removed + (before - files);
        }
      }
    }

    /** Removes exactly the leftovers nothing holds; a failure may leave some, and never removes anything else. */
    method Sweep(held: set<Path>) returns (removed: set<Path>)
      modifies this`files, this`failed
      ensures old(failed) ==> failed
      ensures files <= old(files) && removed == old(files) - files
      ensures forall p :: p in old(files) && (p in held || !Swept(p, roots, temp)) ==> p in files
      ensures !failed ==> forall p :: p in files && Swept(p, roots, temp) ==> p in held
    {
      removed := {};
      var i := 0;
      while i < |roots|
        invariant 0 <= i <= |roots| && (old(failed) ==> failed)
        invariant files <= old(files) && removed == old(files) - files
        invariant forall p :: p in old(files) && (p in held || !Swept(p, roots, temp)) ==> p in files
        invariant !failed ==> forall p, j :: p in files && 0 <= j < i && IsDebris(p.name) && Under(roots[j], p) ==>
            p in held
      {
        removed := Walk(roots[i], held, removed);
        i := i + 1;
      }
      removed := SweepTemp(held, removed);
    }

    // ---------- one interrupted job ----------

    predicate Removed(staging: Option<Path>)
      reads this`files
    {
      staging.Some? ==> staging.value !in files
    }

    method RemoveStaging(staging: Option<Path>)
      modifies this`files, this`failed
      ensures old(failed) ==> failed
      ensures files <= old(files) && forall p :: p in old(files) && staging != Some(p) ==> p in files
      ensures !failed ==> Removed(staging)
    {
      if staging.Some? { Remove(staging.value); }
    }

    /** Decides by the fingerprint, then by the tag; what the library file shows is arbitrary here. */
    method RecoverPromoting(id: int) returns (sight: Sight)
      requires id in rows && id !in verdicts
      modifies this`files, this`failed, this`rows, this`storeFailed, this`verdicts
      ensures (old(failed) ==> failed) && (old(storeFailed) ==> storeFailed)
      ensures id in rows && rows == old(rows)[id := rows[id]]
      ensures Concluded(old(rows)[id], rows[id], old(verdicts), verdicts, id, storeFailed, failed)
      ensures id in verdicts ==> verdicts[id] == Decide(old(rows)[id].fingerprint, sight, policy)
      ensures files <= old(files) && forall p :: p in old(files) && old(rows)[id].staging != Some(p) ==> p in files
      ensures files == old(files) || (id in verdicts && verdicts[id] == SourceIntact)
      ensures !failed && id in verdicts && verdicts[id] == SourceIntact ==> Removed(old(rows)[id].staging)
    {
      var loaded: bool, stored: bool := *, *;
      sight := *;
      if !loaded || !stored { storeFailed := true; }
      if !loaded { return; }
      var was := rows[id];
      var v := Decide(was.fingerprint, sight, policy);
      verdicts := verdicts[id := v];
      match v
      case SourceIntact =>
        RemoveStaging(was.staging);
        if stored { rows := rows[id := BackToQueue(was)]; }
      case Promoted =>
        var measured: bool := *;
        if !measured { failed := true; }
        if measured && stored { rows := rows[id := was.(phase := Done)]; }
      case Unknown => if stored { rows := rows[id := was.(phase := Failed)]; }
    }

    method StagingVerifies(id: int) returns (ok: bool)
      requires id in rows
      modifies this`verified
      ensures ok ==> rows[id].staging.Some? && rows[id].staging.value in files
      ensures verified == old(verified) + if ok then {id} else {}
    {
      ok := *;
      if rows[id].staging.None? || rows[id].staging.value !in files { return false; }
      if ok { verified := verified + {id}; }
    }

    /** An output that still verifies is kept and the job resumed; otherwise the rename may have landed. */
    method RecoverAwaiting(id: int) returns (keep: Option<Path>)
      requires id in rows && id !in verdicts
      modifies this`files, this`failed, this`rows, this`pending, this`verified, this`storeFailed, this`verdicts
      ensures (old(failed) ==> failed) && (old(storeFailed) ==> storeFailed)
      ensures id in rows && rows == old(rows)[id := rows[id]]
      ensures keep.Some? ==>
                && rows == old(rows) && files == old(files) && pending == old(pending) + [id]
                && verdicts == old(verdicts) && rows[id].staging == keep && keep.value in files
      ensures keep.None? ==>
                && pending == old(pending)
                && Concluded(old(rows)[id], rows[id], old(verdicts), verdicts, id, storeFailed, failed)
      ensures files <= old(files) && forall p :: p in old(files) && old(rows)[id].staging != Some(p) ==> p in files
      ensures files == old(files) || (id in verdicts && verdicts[id] == SourceIntact)
      ensures !failed && id in verdicts && verdicts[id] == SourceIntact ==> Removed(old(rows)[id].staging)
      ensures verified == old(verified) + if keep.Some? then {id} else {}
    {
      var loaded: bool := *;
      if !loaded {
        storeFailed := true;
        return None;
      }
      var verifies := StagingVerifies(id);
      if verifies {
        pending := pending + [id];
        return rows[id].staging;
      }
      var sight := RecoverPromoting(id);
      return None;
    }

    /** found is the row as the interruption left it; the store has already requeued or failed an unfinished encode. */
    method RecoverOne(id: int, found: Job) returns (keep: Option<Path>)
      requires id in rows && InFlight(found) && rows[id] == Taken(found) && id !in verdicts
      modifies this`files, this`failed, this`rows, this`pending, this`verified, this`storeFailed, this`verdicts
      ensures (old(failed) ==> failed) && (old(storeFailed) ==> storeFailed)
      ensures DecidesJob(
                id, found, keep.Some?, old(rows), rows, old(pending), pending, old(verdicts), verdicts,
                storeFailed, failed)
      ensures keep.Some? ==> files == old(files) && found.staging == keep && keep.value in files
      ensures files <= old(files) && forall p :: p in old(files) && found.staging != Some(p) ==> p in files
      ensures files == old(files) || Unfinished(found) || (id in verdicts && verdicts[id] == SourceIntact)
      ensures !failed && (Unfinished(found) || (id in verdicts && verdicts[id] == SourceIntact)) ==>
                Removed(found.staging)
      ensures verified == old(verified) + if keep.Some? then {id} else {}
    {
      keep := None;
      if found.phase == Awaiting {
        keep := RecoverAwaiting(id);
      } else if found.phase == Promoting {
        var sight := RecoverPromoting(id);
      } else {
        RemoveStaging(found.staging);
      }
    }

    // ---------- the restart ----------

    /** The store's own transaction: unfinished encodes are requeued or failed, the rest is left to be checked. */
    method SweepInterrupted() returns (ok: bool, found: map<int, Job>)
      modifies this`rows
      ensures !ok ==> rows == old(rows)
      ensures ok ==> found == map id | id in old(rows) && InFlight(old(rows)[id]) :: old(rows)[id]
      ensures ok ==> rows == map id | id in old(rows) :: Taken(old(rows)[id])
    {
      ok := *;
      found := map[];
      if !ok { return; }
      found := map id | id in rows && InFlight(rows[id]) :: rows[id];
      rows := map id | id in rows :: Taken(rows[id]);
    }

    method SweepOrphans(claimed: set<Path>)
      modifies this`files, this`failed
      ensures old(failed) ==> failed
      ensures files <= old(files)
      ensures forall p :: p in old(files) && (p in claimed || !Swept(p, roots, temp)) ==> p in files
      ensures !failed ==> forall p :: p in files && Swept(p, roots, temp) ==> p in claimed
    {
      var listed: bool := *;
      if !listed { failed := true; return; }
      var removed := Sweep(claimed);
    }

    /** The interrupted jobs still to decide are as the store left them, and the others have their outcome. */
    ghost predicate Progress(was: map<int, Job>, todo: set<int>)
      reads this`rows, this`pending, this`verdicts, this`storeFailed, this`failed
    {
      ProgressOf(was, todo, rows, pending, verdicts, storeFailed, failed)
    }

    /** Each resumed job is a row whose staging file is there and claimed, and nothing else is claimed. */
    ghost predicate Kept(was: map<int, Job>, claimed: set<Path>)
      reads this`files, this`pending, this`verified
    {
      && (forall id :: id in pending <==> id in verified)
      && (forall id :: id in pending ==>
            id in was && was[id].staging.Some? && was[id].staging.value in files && was[id].staging.value in claimed)
      && (forall p :: p in claimed ==> exists id :: id in pending && id in was && was[id].staging == Some(p))
    }

    /** Only staging files of unfinished encodes and of intact sources are gone. */
    ghost predicate OnlyStagingGone(was: map<int, Job>, before: set<Path>)
      reads this`files, this`verdicts
    {
      forall p :: p in before && p !in files ==> TakenFile(was, verdicts, p)
    }

    /** With no failed call, the staging files of unfinished encodes and of intact sources are gone. */
    ghost predicate StagingGone(was: map<int, Job>, todo: set<int>)
      reads this`files, this`verdicts, this`failed
    {
      !failed ==>
        forall id :: id in was && id !in todo && InFlight(was[id]) && MayGo(was, verdicts, id) ==>
          Removed(was[id].staging)
    }

    /** One job more: what it claims is its own, and what it removes is no other job's. */
    method DecideOne(
      id: int, found: Job, ghost was: map<int, Job>, ghost todo: set<int>, ghost before: set<Path>, claimed0: set<Path>)
      returns (claimed: set<Path>)
      requires Named(was) && id in was && InFlight(was[id]) && found == was[id] && id in todo
      requires files <= before && Progress(was, todo) && Kept(was, claimed0) && OnlyStagingGone(was, before)
      requires StagingGone(was, todo)
      modifies this`files, this`failed, this`rows, this`pending, this`verified, this`storeFailed, this`verdicts
      ensures (old(failed) ==> failed) && (old(storeFailed) ==> storeFailed) && files <= before
      ensures Progress(was, todo - {id}) && Kept(was, claimed) && OnlyStagingGone(was, before)
      ensures StagingGone(was, todo - {id})
    {
      var keep := RecoverOne(id, found);
      claimed := if keep.Some? then claimed0 + {keep.value} else claimed0;
      OneMoreDecided(
        was, todo, id, keep.Some?, old(rows), rows, old(pending), pending, old(verdicts), verdicts,
        old(storeFailed), storeFailed, old(failed), failed);
      StillKept(id, was, old(pending), old(verified), old(files), claimed0, keep);
      StillGone(id, was, todo, old(verdicts), old(files), old(failed));
      StillTaken(id, was, old(verdicts), old(files), before);
    }

    ghost method StillTaken(
      id: int, was: map<int, Job>, verdicts0: map<int, Verdict>, files0: set<Path>, before: set<Path>)
      requires id in was && InFlight(was[id]) && id !in verdicts0
      requires forall p :: p in before && p !in files0 ==> TakenFile(was, verdicts0, p)
      requires forall i :: i in verdicts0 ==> i in verdicts && verdicts[i] == verdicts0[i]
      requires forall p :: p in files0 && was[id].staging != Some(p) ==> p in files
      requires files0 <= files || MayGo(was, verdicts, id)
      ensures OnlyStagingGone(was, before)
    {
      forall p | p in before && p !in files
        ensures TakenFile(was, verdicts, p)
      {
        if p !in files0 {
          var i :| i in was && InFlight(was[i]) && was[i].staging == Some(p) && MayGo(was, verdicts0, i);
          assert MayGo(was, verdicts, i);
        }
      }
    }

    ghost method StillGone(
      id: int, was: map<int, Job>, todo: set<int>, verdicts0: map<int, Verdict>, files0: set<Path>, failed0: bool)
      requires id in was && (failed0 ==> failed) && files <= files0
      requires forall i :: i in verdicts && i != id ==> i in verdicts0 && verdicts0[i] == verdicts[i]
      requires !failed0 ==>
                 forall i :: i in was && i !in todo && InFlight(was[i]) && MayGo(was, verdicts0, i) ==>
                   (was[i].staging.Some? ==> was[i].staging.value !in files0)
      requires !failed && InFlight(was[id]) && MayGo(was, verdicts, id) ==> Removed(was[id].staging)
      ensures StagingGone(was, todo - {id})
    {
      if !failed {
        forall i | i in was && i !in todo - {id} && InFlight(was[i]) && MayGo(was, verdicts, i)
          ensures Removed(was[i].staging)
        {
          if i != id { assert MayGo(was, verdicts0, i); }
        }
      }
    }

    ghost method StillKept(
      id: int, was: map<int, Job>, pending0: seq<int>, verified0: set<int>, files0: set<Path>, claimed0: set<Path>,
      keep: Option<Path>)
      requires Named(was) && id in was && id !in pending0
      requires forall i :: i in pending0 <==> i in verified0
      requires verified == verified0 + if keep.Some? then {id} else {}
      requires forall i :: i in pending0 ==>
                 i in was && was[i].staging.Some? && was[i].staging.value in files0 && was[i].staging.value in claimed0
      requires forall p :: p in claimed0 ==> exists i :: i in pending0 && i in was && was[i].staging == Some(p)
      requires keep.Some? ==> was[id].staging == keep && keep.value in files && pending == pending0 + [id]
      requires keep.None? ==> pending == pending0
      requires forall p :: p in files0 && was[id].staging != Some(p) ==> p in files
      ensures Kept(was, if keep.Some? then claimed0 + {keep.value} else claimed0)
    {
      forall i | i in pending0
        ensures was[i].staging.value in files
      {
        if was[id].staging.Some? {
          NamedApart(was[i].staging.value, i, was[id].staging.value, id);
        }
      }
    }

    method AnyOf(ids: set<int>) returns (id: int)
      requires ids != {}
      ensures id in ids
    {
      NothingInEmpty(ids);
      id :| id in ids;
    }

    method DecideAll(found: map<int, Job>, ghost was: map<int, Job>) returns (claimed: set<Path>)
      requires Named(was) && pending == [] && verdicts == map[] && verified == {}
      requires found == map id | id in was && InFlight(was[id]) :: was[id]
      requires rows == map id | id in was :: Taken(was[id])
      modifies this`files, this`failed, this`rows, this`pending, this`verified, this`storeFailed, this`verdicts
      ensures (old(failed) ==> failed) && files <= old(files)
      ensures Progress(was, {}) && Kept(was, claimed) && OnlyStagingGone(was, old(files)) && StagingGone(was, {})
    {
      claimed := {};
      var todo := found.Keys;
      while todo != {}
        invariant (old(failed) ==> failed) && files <= old(files) && todo <= found.Keys
        invariant Progress(was, todo) && Kept(was, claimed) && OnlyStagingGone(was, old(files))
        invariant StagingGone(was, todo)
        decreases |todo|
      {
        var id := AnyOf(todo);
        claimed := DecideOne(id, found[id], was, todo, old(files), claimed);
        todo := todo - {id};
      }
    }

    ghost method UndecidablesKept(was: map<int, Job>, before: set<Path>)
      requires Named(was) && Progress(was, {})
      requires forall p :: p in before && p !in files ==> Swept(p, roots, temp) || TakenFile(was, verdicts, p)
      requires !failed ==>
                 forall p :: p in files && Swept(p, roots, temp) ==>
                   exists i :: i in pending && i in was && was[i].staging == Some(p)
      ensures forall id, p :: Undecidable(was, verdicts, id, p) && p in before ==>
                && (!Swept(p, roots, temp) ==> p in files)
                && (!failed ==> (p in files <==> !Swept(p, roots, temp)))
    {
      forall id, p | Undecidable(was, verdicts, id, p) && p in before
        ensures !Swept(p, roots, temp) ==> p in files
        ensures !failed ==> (p in files <==> !Swept(p, roots, temp))
      {
        UndecidableKept(was, verdicts, pending, before, files, Swept(p, roots, temp), !failed, id, p);
      }
    }

    /**
     The restart. Every row has an outcome the protocol allows, and if no call on the store failed, no job is left in
     flight but those to be resumed, and promoted ones whose file could not be measured. Each job to be resumed still
     has its staging file, and those jobs are exactly the ones whose staging file still verifies. If no call on the
     filesystem failed, no other leftover is left, nor any staging file of an unfinished encode or an intact source.
     Nothing was removed but leftovers and those. The staging file of a job failed as undecidable is kept exactly when
     the sweep does not reach it.
     */
    method Recover() returns (ok: bool)
      requires Named(rows) && pending == [] && verdicts == map[] && verified == {} && !failed
      modifies this
      ensures forall id :: id in pending <==> id in verified
      ensures ok && !failed ==>
                forall id :: id in old(rows) && InFlight(old(rows)[id]) && MayGo(old(rows), verdicts, id) ==>
                  Removed(old(rows)[id].staging)
      ensures !ok ==> rows == old(rows) && files == old(files) && pending == [] && verdicts == map[]
      ensures ok ==> Progress(old(rows), {})
      ensures ok && !storeFailed ==>
                forall id :: id in rows && InFlight(rows[id]) ==>
                  id in pending || (failed && id in verdicts && verdicts[id] == Promoted)
      ensures forall id :: id in pending ==>
                id in old(rows) && old(rows)[id].staging.Some? && old(rows)[id].staging.value in files
      ensures ok && !failed ==>
                forall p :: p in files && Swept(p, roots, temp) ==>
                  exists id :: id in pending && id in old(rows) && old(rows)[id].staging == Some(p)
      ensures files <= old(files)
      ensures forall p :: p in old(files) && p !in files ==>
                Swept(p, roots, temp) || TakenFile(old(rows), verdicts, p)
      ensures forall id, p :: Undecidable(old(rows), verdicts, id, p) && p in old(files) ==>
                && (!Swept(p, roots, temp) ==> p in files)
                && (!failed ==> (p in files <==> !Swept(p, roots, temp)))
    {
      ghost var was, before := rows, files;
      var found;
      ok, found := SweepInterrupted();
      if !ok { return; }
      var claimed := DecideAll(found, was);
      ghost var decided := failed;
      SweepOrphans(claimed);
      AllDecided(was, rows, pending, verdicts, storeFailed, decided, failed);
      UndecidablesKept(was, before);
    }
  }
}
