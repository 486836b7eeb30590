/**
 The irreversible replace, as the program runs it: one call after another on the disk, the guard and the job
 row. Every answer from outside is arbitrary. Beside the real state runs the protocol's own: each method makes
 the protocol take a step exactly where it changes the disk or the row.
 */
module Promote {
  import opened Wrappers
  import P = Protocol
  import PS = ProtocolSafety
  import opened PromoteTrace

  datatype Identity = Identity(fingerprint: int, fullHash: Option<int>)

  /** What a promotion returns, on its error paths too. */
  datatype Result = Result(failed: bool, renamed: bool, identity: Option<Identity>)

  /** Lawful so far, short of the rename, with no block left unreported; failed exactly if not ok. */
  predicate Before(w: Watch, ok: bool) {
    w.lawful && w.begun && w.failed == !ok && !w.renamed && w.last.Settled()
  }

  /** The same, directly after a block. */
  predicate AtBlock(w: Watch) {
    w.lawful && w.begun && !w.failed && !w.renamed && w.last == Blocks
  }

  /** Lawful so far, after the rename. */
  predicate Behind(w: Watch, ok: bool) {
    w.lawful && w.begun && w.failed == !ok && w.renamed && w.last.Settled()
  }

  /** What no call after the first ones changes. */
  predicate Keeps(before: Watch, after: Watch) {
    after.verified == before.verified && after.oneLink == before.oneLink
  }

  class Promoter {
    const digest: P.Digest
    const full: P.Content -> int
    const fullHashEnabled: bool
    const policy: int
    const cross: bool
    const slot: P.Slot

    var disk: P.Disk
    var row: P.Row
    var fingerprint: Option<int>
    /** Numbers what is written, so that no two unfinished files are the same. */
    var written: nat
    /** How many retry intervals pass before the job's context is cancelled. */
    var patience: nat
    var trace: seq<Event>

    ghost var watch: Watch
    ghost var run: seq<P.State>
    ghost var steps: seq<P.Event>

    ghost predicate Traced()
      reads this`trace, this`watch
    {
      watch == After(trace)
    }

    /** The real state is that of a run of the protocol, in which this job is in the worker's hands. */
    ghost predicate Valid()
      reads this`disk, this`row, this`fingerprint, this`written, this`run, this`steps
    {
      && P.IsRun(digest, run, steps)
      && var s := P.Last(run);
         && s.disk == disk && s.row == row && s.fingerprint == fingerprint && s.policy == policy
         && s.hist.nextRun == written
         && s.worker.Working? && s.worker.cross == cross && P.SlotOf(s.worker) == slot
         && (cross ==> slot == P.InTemp)
    }

    ghost function Pc(): P.Pc
      reads this`disk, this`row, this`fingerprint, this`written, this`run, this`steps
      requires Valid()
    {
      P.Last(run).worker.pc
    }

    /** Between any two calls of a promotion the library holds its first content or a whole accepted output. */
    lemma {:induction false} LibraryIsSafe()
      requires Valid()
      ensures PS.SafeSince(run[0].disk.library, P.Last(run)) && P.Last(run).disk == disk
      ensures Pc().Finished? || Pc().Unverified? ==>
                (disk.At(slot).Some? ==> disk.At(slot).value.Encoded? && disk.At(slot).value.whole)
    {
      PS.InvAlways(digest, run, steps, |run| - 1);
      PS.SafeAlways(digest, run, steps, |run| - 1);
    }

    function RenameSlot(): P.Slot {
      if cross then P.Beside else slot
    }

    /** The job enters with its output finished and its row as the run says. */
    constructor (digest: P.Digest, full: P.Content -> int, fullHashEnabled: bool, cross: bool, slot: P.Slot,
                 disk: P.Disk, row: P.Row, fingerprint: Option<int>, policy: int, written: nat, patience: nat,
                 ghost run: seq<P.State>, ghost steps: seq<P.Event>)
      requires P.IsRun(digest, run, steps)
      requires P.Last(run).worker == P.Working(P.Finished, Some(slot), cross, false)
      requires cross ==> slot == P.InTemp
      requires P.Last(run).disk == disk && P.Last(run).row == row && P.Last(run).fingerprint == fingerprint
      requires P.Last(run).policy == policy && P.Last(run).hist.nextRun == written
      ensures Valid() && Traced() && watch.lawful && Pc() == P.Finished
      ensures this.run == run && this.disk == disk && this.trace == []
    {
      this.digest, this.full, this.fullHashEnabled := digest, full, fullHashEnabled;
      this.cross, this.slot, this.policy := cross, slot, policy;
      this.disk, this.row, this.fingerprint := disk, row, fingerprint;
      this.written, this.patience, this.trace := written, patience, [];
      this.run, this.steps, this.watch := run, steps, After([]);
    }

    method Note(e: Event)
      requires Traced()
      modifies this`trace, this`watch
      ensures Traced() && trace == old(trace) + [e] && watch == Observe(old(watch), e)
    {
      AfterSnoc(trace, e);
      trace := trace + [e];
      watch := Observe(watch, e);
    }

    // ---------- before the rename ----------

    /** A call before the rename that only succeeds or fails. */
    method Try(op: Op) returns (ok: bool)
      requires Traced() && Before(watch, true)
      requires op in {Hash, ReadOutput, ReadSpace, HasRoom, SyncFile, SyncDir}
      modifies this`trace, this`watch
      ensures Traced() && Before(watch, ok) && Keeps(old(watch), watch)
      ensures old(watch).fileSynced || (ok && op == SyncFile) ==> watch.fileSynced
      ensures old(watch).dirSynced || (ok && op == SyncDir) ==> watch.dirSynced
    {
      ok := *;
      Note(Call(op, ok));
    }

    method VerifyOutput() returns (ok: bool)
      requires Valid() && Traced() && Pc().Unverified? && Before(watch, true)
      modifies this`trace, this`watch, this`run, this`steps
      ensures Valid() && Traced() && Before(watch, ok)
      ensures ok ==> watch.verified && disk.At(slot).Some? && Pc() == P.Verified(disk.At(slot).value)
    {
      ok := *;
      if disk.At(slot).None? { ok := false; }
      NoteVerify(ok);
      if ok { run, steps := P.Go(digest, run, steps, P.Accept); }
    }

    method NoteVerify(ok: bool)
      requires Traced() && Before(watch, true)
      modifies this`trace, this`watch
      ensures Traced() && Before(watch, ok) && (ok ==> watch.verified)
    {
      Note(Call(Verify, ok));
    }

    /** The hash is taken over the staging file, which the rename does not change. */
    method FullHash() returns (ok: bool, hash: Option<int>)
      requires disk.At(slot).Some? && Traced() && Before(watch, true)
      modifies this`trace, this`watch
      ensures Traced() && Before(watch, ok) && Keeps(old(watch), watch)
      ensures !fullHashEnabled ==> ok && trace == old(trace)
      ensures ok ==> hash == if fullHashEnabled then Some(full(disk.At(slot).value)) else None
    {
      if !fullHashEnabled { return true, None; }
      ok := Try(Hash);
      hash := Some(full(disk.At(slot).value));
    }

    method OriginState() returns (ok: bool)
      requires Traced() && Before(watch, true)
      modifies this`trace, this`watch
      ensures Traced() && Before(watch, ok)
      ensures watch.verified == old(watch).verified && (ok ==> watch.oneLink)
    {
      ok := *;
      var links: nat := *;
      Note(SourceRead(ok, links));
      ok := ok && links == 1;
    }

    /** Free space against the size of the output. */
    method CheckRoom() returns (ok: bool)
      requires Traced() && Before(watch, true)
      modifies this`trace, this`watch
      ensures Traced() && Before(watch, ok) && Keeps(old(watch), watch)
    {
      ok := Try(ReadOutput);
      if !ok { return; }
      ok := Try(ReadSpace);
      if !ok { return; }
      ok := Try(HasRoom);
    }

    /** A file that is partly written appears beside the library file. */
    method OpenCopy()
      requires Valid() && Pc().Verified? && cross
      modifies this`disk, this`written, this`run, this`steps
      ensures Valid() && Pc() == P.Copying(old(Pc()).content)
      ensures disk == old(disk).Put(P.Beside, disk.beside)
    {
      run, steps := P.Go(digest, run, steps, P.CopyStarts);
      disk := disk.Put(P.Beside, Some(P.Encoded(written, false, policy)));
      written := written + 1;
    }

    /** A copy that fails leaves the part it wrote. */
    method CopyOver() returns (ok: bool)
      requires Valid() && Traced() && Pc().Copying? && cross && Before(watch, true)
      modifies this`disk, this`trace, this`watch, this`run, this`steps
      ensures Valid() && Traced() && Before(watch, ok) && Keeps(old(watch), watch)
      ensures disk == old(disk).Put(P.Beside, disk.beside)
      ensures ok ==> disk.beside == disk.temp && Pc() == P.Placed(old(Pc()).content)
    {
      ok := *;
      if disk.temp.None? { ok := false; }
      NoteCopy(ok);
      if ok { CloseCopy(); }
    }

    method NoteCopy(ok: bool)
      requires Traced() && Before(watch, true)
      modifies this`trace, this`watch
      ensures Traced() && Before(watch, ok) && Keeps(old(watch), watch)
    {
      Note(Call(Copy, ok));
    }

    method CloseCopy()
      requires Valid() && Pc().Copying? && cross && disk.temp.Some?
      modifies this`disk, this`run, this`steps
      ensures Valid() && Pc() == P.Placed(old(Pc()).content) && disk == old(disk).(beside := disk.temp)
    {
      run, steps := P.Go(digest, run, steps, P.CopyEnds);
      disk := disk.Put(P.Beside, disk.temp);
    }

    /** The file to rename is placed on the library's own filesystem. */
    method StageOnDestination() returns (ok: bool)
      requires Valid() && Traced() && Pc().Verified? && Before(watch, true)
      modifies this`disk, this`written, this`trace, this`watch, this`run, this`steps
      ensures Valid() && Traced() && Before(watch, ok) && Keeps(old(watch), watch)
      ensures disk == old(disk).Put(P.Beside, disk.beside) && (!cross ==> ok && disk == old(disk))
      ensures ok ==> disk.At(RenameSlot()) == old(disk).At(slot) && Pc() == P.Placed(old(Pc()).content)
    {
      if !cross {
        run, steps := P.Go(digest, run, steps, P.Place);
        return true;
      }
      ok := CheckRoom();
      if ok {
        OpenCopy();
        ok := CopyOver();
      }
    }

    // ---------- the wait and the rename ----------

    method Ask() returns (answer: Answer)
      requires Traced() && Before(watch, true)
      modifies this`trace, this`watch
      ensures Traced() && Keeps(old(watch), watch)
      ensures if answer == Free then Before(watch, true) && watch.last == Clear else AtBlock(watch)
      ensures watch.fileSynced == old(watch).fileSynced && watch.dirSynced == old(watch).dirSynced
    {
      answer := *;
      Note(Asked(answer));
    }

    /** Reports the block, which may move the row. */
    method Report()
      requires Valid() && Pc().Placed?
      modifies this`row, this`run, this`steps
      ensures Valid() && Pc() == old(Pc()) && (row == old(row) || row == old(row).(phase := P.Awaiting))
    {
      var moved: bool := *;
      run, steps := P.Go(digest, run, steps, P.Blocked(moved));
      if moved { row := row.(phase := P.Awaiting); }
    }

    /** Waits one interval unless the job is cancelled first. */
    method WaitOut() returns (ok: bool)
      requires Traced() && AtBlock(watch)
      modifies this`patience, this`trace, this`watch
      ensures Traced() && Before(watch, ok) && Keeps(old(watch), watch)
      ensures if ok then patience < old(patience) else patience == old(patience) == 0
    {
      Note(Blocked);
      ok := patience > 0;
      if ok { patience := patience - 1; }
      Note(Call(Wait, ok));
    }

    method Defer() returns (ok: bool)
      requires Valid() && Traced() && Pc().Placed? && AtBlock(watch)
      modifies this`row, this`patience, this`trace, this`watch, this`run, this`steps
      ensures Valid() && Traced() && Before(watch, ok) && Keeps(old(watch), watch) && Pc() == old(Pc())
      ensures row == old(row) || row == old(row).(phase := P.Awaiting)
      ensures if ok then patience < old(patience) else patience == old(patience) == 0
    {
      Report();
      ok := WaitOut();
    }

    method WaitForStreamEnd() returns (ok: bool)
      requires Valid() && Traced() && Pc().Placed? && Before(watch, true)
      modifies this`row, this`patience, this`trace, this`watch, this`run, this`steps
      ensures Valid() && Traced() && Before(watch, ok) && Keeps(old(watch), watch) && Pc() == old(Pc())
      ensures row == old(row) || row == old(row).(phase := P.Awaiting)
      ensures patience <= old(patience) && if ok then watch.last == Clear else patience == 0
    {
      while true
        invariant Valid() && Traced() && Before(watch, true) && Keeps(old(watch), watch) && Pc() == old(Pc())
        invariant row == old(row) || row == old(row).(phase := P.Awaiting)
        invariant patience <= old(patience)
        decreases patience
      {
        var answer := Ask();
        if answer == Free { return true; }
        ok := Defer();
        if !ok { return; }
      }
    }

    /** The data and the directory entry are flushed, each on its own. */
    method Sync() returns (ok: bool)
      requires Traced() && Before(watch, true)
      modifies this`trace, this`watch
      ensures Traced() && Before(watch, ok) && Keeps(old(watch), watch)
      ensures ok ==> watch.fileSynced && watch.dirSynced
    {
      ok := Try(SyncFile);
      if ok { ok := Try(SyncDir); }
    }

    /** The call that replaces the library file, or fails and changes nothing. */
    method RenameNow() returns (ok: bool)
      requires Valid() && Traced() && Pc().Placed? && Before(watch, true) && watch.last == Clear
      requires watch.verified && watch.oneLink && watch.fileSynced && watch.dirSynced
      modifies this`disk, this`trace, this`watch, this`run, this`steps
      ensures Valid() && Traced() && if ok then Behind(watch, true) else Before(watch, false)
      ensures Replaced(old(disk), disk, ok) && (ok ==> Pc().Renamed?)
    {
      ok := *;
      if disk.At(RenameSlot()).None? { ok := false; }
      NoteRename(ok);
      if ok { MoveIn(); }
    }

    method NoteRename(ok: bool)
      requires Traced() && Before(watch, true) && watch.last == Clear
      requires watch.verified && watch.oneLink && watch.fileSynced && watch.dirSynced
      modifies this`trace, this`watch
      ensures Traced() && if ok then Behind(watch, true) else Before(watch, false)
    {
      Note(Call(Rename, ok));
    }

    method MoveIn()
      requires Valid() && Pc().Placed? && disk.At(RenameSlot()).Some?
      modifies this`disk, this`run, this`steps
      ensures Valid() && Pc().Renamed? && Replaced(old(disk), disk, true)
    {
      run, steps := P.Go(digest, run, steps, P.GuardFree);
      run, steps := P.Go(digest, run, steps, P.Rename);
      disk := disk.(library := disk.At(RenameSlot()).value).Put(RenameSlot(), None);
    }

    /** A completed rename moves one file over the library file; a failed one changes nothing. */
    ghost predicate Replaced(was: P.Disk, now: P.Disk, ok: bool) {
      if !ok then now == was
      else
        was.At(RenameSlot()) == Some(now.library) && now == was.(library := now.library).Put(RenameSlot(), None)
    }

    /** The last question, and on a free answer the rename, with nothing in between. */
    method RecheckAndRename() returns (blocked: bool, ok: bool)
      requires Valid() && Traced() && Pc().Placed? && Before(watch, true)
      requires watch.verified && watch.oneLink && watch.fileSynced && watch.dirSynced
      modifies this`disk, this`trace, this`watch, this`run, this`steps
      ensures Valid() && Traced()
      ensures blocked ==> AtBlock(watch) && Keeps(old(watch), watch) && disk == old(disk) && Pc() == old(Pc())
      ensures !blocked ==> if ok then Behind(watch, true) && Pc().Renamed? else Before(watch, false)
      ensures Replaced(old(disk), disk, !blocked && ok)
    {
      var answer := Ask();
      if answer != Free { return true, true; }
      blocked := false;
      ok := RenameNow();
    }

    /** One round of waiting, flushing and asking again; it ends the replace, or is blocked and has waited. */
    method Round() returns (again: bool, ok: bool)
      requires Valid() && Traced() && Pc().Placed? && Before(watch, true) && watch.verified && watch.oneLink
      modifies this`disk, this`row, this`patience, this`trace, this`watch, this`run, this`steps
      ensures Valid() && Traced() && (row == old(row) || row == old(row).(phase := P.Awaiting))
      ensures again ==> Before(watch, true) && Keeps(old(watch), watch) && Pc() == old(Pc())
      ensures again ==> disk == old(disk) && patience < old(patience)
      ensures !again ==> if ok then Behind(watch, true) && Pc().Renamed? else Before(watch, false)
      ensures !again ==> Replaced(old(disk), disk, ok)
    {
      again := false;
      ok := WaitForStreamEnd();
      if !ok { return; }
      ok := Sync();
      if !ok { return; }
      var blocked;
      blocked, ok := RecheckAndRename();
      if !blocked { return; }
      ok := Defer();
      again := ok;
    }

    /** Waits, flushes and asks again until the rename goes through or something fails. */
    method Replace() returns (ok: bool)
      requires Valid() && Traced() && Pc().Placed? && Before(watch, true) && watch.verified && watch.oneLink
      modifies this`disk, this`row, this`patience, this`trace, this`watch, this`run, this`steps
      ensures Valid() && Traced() && if ok then Behind(watch, true) && Pc().Renamed? else Before(watch, false)
      ensures row == old(row) || row == old(row).(phase := P.Awaiting)
      ensures Replaced(old(disk), disk, ok)
    {
      while true
        invariant Valid() && Traced() && Pc() == old(Pc()) && disk == old(disk)
        invariant Before(watch, true) && watch.verified && watch.oneLink
        invariant row == old(row) || row == old(row).(phase := P.Awaiting)
        decreases patience
      {
        var again;
        again, ok := Round();
        if !again { return; }
      }
    }

    // ---------- after the rename ----------

    /** A call after the rename; fatal says whether its failure is the promotion's. */
    method TryAfter(op: Op, fatal: bool, ghost soFar: bool) returns (ok: bool)
      requires Traced() && Behind(watch, soFar) && op.AfterTheRename()
      requires fatal == (op != SetOwner && op != Notify) && (op == Notify ==> soFar)
      modifies this`trace, this`watch
      ensures Traced() && Behind(watch, soFar && (ok || !fatal)) && trace == old(trace) + [Call(op, ok)]
    {
      ok := *;
      Note(Call(op, ok));
    }

    /** A failed change of owner is only a warning; mode and times are both attempted, and must succeed. */
    method Restore() returns (ok: bool)
      requires Traced() && Behind(watch, true)
      modifies this`trace, this`watch
      ensures Traced() && Behind(watch, ok)
      ensures exists owner: bool, mode: bool, times: bool ::
                trace == old(trace) + [Call(SetOwner, owner), Call(SetMode, mode), Call(SetTimes, times)]
    {
      var owner := TryAfter(SetOwner, false, true);
      var mode := TryAfter(SetMode, true, true);
      var times := TryAfter(SetTimes, true, mode);
      ok := mode && times;
      assert trace == old(trace) + [Call(SetOwner, owner), Call(SetMode, mode), Call(SetTimes, times)];
    }

    method RecordIdentity(fullHash: Option<int>, ghost soFar: bool) returns (identity: Option<Identity>)
      requires Traced() && Behind(watch, soFar)
      modifies this`trace, this`watch
      ensures Traced() && Behind(watch, soFar && identity.Some?)
      ensures identity.Some? ==> identity.value == Identity(digest(disk.library), fullHash)
    {
      var ok := TryAfter(ReadResult, true, soFar);
      if !ok { return None; }
      ok := TryAfter(HashResult, true, soFar);
      identity := if ok then Some(Identity(digest(disk.library), fullHash)) else None;
    }

    /** The source is gone: whatever fails from here, the result says so and the identity is sought. */
    method Settle(fullHash: Option<int>) returns (r: Result)
      requires Traced() && Behind(watch, true)
      modifies this`trace, this`watch
      ensures Traced() && Behind(watch, !r.failed) && r.renamed
      ensures r.identity.Some? ==> r.identity.value == Identity(digest(disk.library), fullHash)
      ensures !r.failed ==> r.identity.Some? && |trace| > 0 && trace[|trace|-1].Call? && trace[|trace|-1].op == Notify
    {
      var restored := Restore();
      var identity := RecordIdentity(fullHash, restored);
      r := Result(!restored || identity.None?, true, identity);
      if !r.failed {
        var told := TryAfter(Notify, false, true);
      }
    }

    // ---------- the whole promotion ----------

    method Begin()
      requires Traced() && watch.lawful
      modifies this`trace, this`watch
      ensures Traced() && Before(watch, true)
    {
      Note(Begun);
    }

    /** Everything that must hold before the replace. */
    method Prepare() returns (ok: bool, hash: Option<int>)
      requires Valid() && Traced() && Pc().Unverified? && watch.lawful
      modifies this`disk, this`written, this`trace, this`watch, this`run, this`steps
      ensures Valid() && Traced() && Before(watch, ok)
      ensures disk == old(disk).Put(P.Beside, disk.beside) && (!cross ==> disk == old(disk))
      ensures ok ==> watch.verified && watch.oneLink && Pc().Placed?
      ensures ok ==> old(disk).At(slot).Some? && disk.At(RenameSlot()) == old(disk).At(slot)
      ensures ok ==> hash == if fullHashEnabled then Some(full(old(disk).At(slot).value)) else None
    {
      hash := None;
      Begin();
      ok := VerifyOutput();
      if !ok { return; }
      ok, hash := FullHash();
      if !ok { return; }
      ok := OriginState();
      if !ok { return; }
      ok := StageOnDestination();
    }

    /**
     One promotion, for every answer from outside: it obeys the law of PromoteTrace; it fails exactly if some
     call it made failed; and it reports a rename exactly if one happened, when the library holds the bytes that
     were verified and the identity, if any, is theirs. Otherwise the library is untouched.
     */
    method Promote() returns (r: Result)
      requires Valid() && Traced() && Pc().Unverified? && watch.lawful
      modifies this
      ensures Valid() && Traced() && watch.lawful && watch.renamed == r.renamed && watch.failed == r.failed
      ensures row == old(row) || row == old(row).(phase := P.Awaiting)
      ensures fingerprint == old(fingerprint)
      ensures !r.renamed ==> disk.library == old(disk.library) && disk.At(slot) == old(disk).At(slot)
      ensures !r.renamed ==> r.identity.None?
      ensures r.renamed ==> old(disk).At(slot) == Some(disk.library) && Pc().Renamed?
      ensures r.renamed ==> disk.At(RenameSlot()).None? && (cross ==> disk.temp == old(disk).temp)
      ensures r.identity.Some? ==>
                r.identity.value == Identity(
                                      digest(disk.library), if fullHashEnabled then Some(full(disk.library)) else None)
      ensures !r.failed ==> r.renamed && r.identity.Some?
    {
      r := Result(true, false, None);
      var ok, hash := Prepare();
      if !ok { return; }
      ok := Replace();
      if !ok { return; }
      r := Settle(hash);
    }

    // ---------- the job's last steps ----------

    method MoveRow(phase: P.Phase)
      requires Valid() && ((Pc().Finished? && phase == P.Verifying) || (Pc().Probing? && phase == P.Promoting))
      requires phase == P.Promoting ==> disk.At(slot).Some?
      modifies this`row, this`run, this`steps
      ensures Valid() && row == old(row).(phase := phase)
      ensures if phase == P.Verifying then Pc().Probing? else Pc().Unverified?
    {
      run, steps := P.Go(digest, run, steps, if phase == P.Verifying then P.SetVerifying else P.SetPromoting);
      row := row.(phase := phase);
    }

    method Record(identity: Option<Identity>)
      requires Valid() && Pc().Renamed?
      requires identity.Some? ==> identity.value.fingerprint == digest(disk.library)
      modifies this`row, this`fingerprint, this`run, this`steps
      ensures Valid() && Pc().Settled? && row == old(row).(phase := P.Done)
      ensures fingerprint == if identity.Some? then Some(digest(disk.library)) else None
    {
      run, steps := P.Go(digest, run, steps, P.RecordPromotion(identity.Some?));
      row := row.(phase := P.Done);
      fingerprint := if identity.Some? then Some(identity.value.fingerprint) else None;
    }

    /**
     Verifying, promoting, done: nothing is recorded without a rename, and a rename is recorded whatever failed
     after it, unless the row itself cannot be written. It fails exactly if a write to the row did, the output could not
     be probed, or the promotion failed.
     */
    method Finalise() returns (failed: bool, renamed: bool, stored: bool, probed: bool)
      requires Valid() && Traced() && Pc().Finished? && watch.lawful
      modifies this
      ensures Valid() && Traced() && watch.lawful
      ensures !renamed ==> failed && disk.library == old(disk.library)
      ensures renamed ==> watch.renamed && old(disk).At(slot) == Some(disk.library)
      ensures renamed && stored ==>
                && row.phase == P.Done && Pc().Settled?
                && (fingerprint.Some? ==> fingerprint == Some(digest(disk.library)))
      ensures !renamed || !stored ==> failed && fingerprint == old(fingerprint)
      ensures !renamed || !stored ==> row.phase == old(row.phase) || row.phase.Finishing()
      ensures !failed ==> renamed && fingerprint == Some(digest(disk.library))
      ensures failed <==> !stored || !probed || watch.failed
    {
      failed, renamed, stored, probed := true, false, *, true;
      if !stored { return; }
      MoveRow(P.Verifying);
      probed := *;
      if disk.At(slot).None? { probed := false; }
      if !probed { return; }
      stored := *;
      if !stored { return; }
      MoveRow(P.Promoting);
      var r := Promote();
      renamed := r.renamed;
      if !renamed { return; }
      stored := *;
      if !stored { return; }
      Record(r.identity);
      failed := r.failed;
    }
  }
}
