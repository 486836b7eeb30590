/** One root's scan: what is counted, and which rows are reported missing. */
module Scan {
  import opened Wrappers

  /** What the walk hands over, in order. A stat is a size and a modification time. */
  datatype Entry =
    | Unreadable(isRoot: bool)
    | Directory
    | File(path: string, size: int, mtime: int, excluded: bool, recent: bool)

  datatype Status = New | Missing | Current

  /** A known row. */
  datatype Known = Known(id: int, path: string, size: int, mtime: int, status: Status)

  datatype Analysis = AnalysisFailed | AnalysisExcludes | Analysed(queued: bool)

  datatype Report = Report(
    walked: nat, analysed: nat, same: nat, excluded: nat, unstable: nat, failed: nat, queued: nat, missing: nat)

  predicate Balanced(r: Report) {
    && r.walked == r.analysed + r.same + r.excluded + r.unstable + r.failed
    && r.queued <= r.analysed
  }

  /** A file has been walked and not yet counted. */
  predicate OneAhead(r: Report) {
    r.walked > 0 && Balanced(r.(walked := r.walked - 1))
  }

  /** A row still new or missing is analysed again whatever its stat. */
  predicate Unchanged(k: Known, size: int, mtime: int) {
    k.status == Current && k.size == size && k.mtime == mtime
  }

  /** The files a walk reached: it goes past what it cannot read, unless that is the root itself. */
  function Walked(entries: seq<Entry>): set<string> {
    set i | 0 <= i < |entries| && entries[i].File? :: entries[i].path
  }

  lemma {:induction false} WalkedSnoc(entries: seq<Entry>, n: nat)
    requires n < |entries|
    ensures Walked(entries[..n+1]) == Walked(entries[..n]) + (if entries[n].File? then {entries[n].path} else {})
  {
    assert entries[..n+1] == entries[..n] + [entries[n]];
  }

  /** The row the scan compares a file with: the last known one at its path. */
  lemma {:induction false} ByPathExactly(known: seq<Known>, path: string)
    ensures path in ByPath(known) <==> exists i :: 0 <= i < |known| && known[i].path == path
    ensures path in ByPath(known) ==>
              exists i :: 0 <= i < |known| && known[i].path == path && ByPath(known)[path] == known[i]
                          && forall j :: i < j < |known| ==> known[j].path != path
  {
    if known != [] {
      var n := |known| - 1;
      ByPathExactly(known[..n], path);
      assert forall i :: 0 <= i < n ==> known[..n][i] == known[i];
    }
  }

  /** A file whose row is current and has its size and modification time. */
  predicate Same(e: Entry, known: map<string, Known>) {
    && e.File? && !e.excluded && !e.recent && e.path in known
    && known[e.path].status == Current && known[e.path].size == e.size && known[e.path].mtime == e.mtime
  }

  function CountSame(entries: seq<Entry>, known: map<string, Known>): nat {
    if entries == [] then 0
    else CountSame(entries[..|entries|-1], known) + if Same(entries[|entries|-1], known) then 1 else 0
  }

  class Scanner {
    var report: Report
    /** The rows sent to be marked missing. */
    var gone: seq<int>

    constructor ()
      ensures Balanced(report) && report == Report(0, 0, 0, 0, 0, 0, 0, 0) && gone == []
    {
      report, gone := Report(0, 0, 0, 0, 0, 0, 0, 0), [];
    }

    /** One walked file: exactly one of the five counts goes up, unless the scan is stopped while it waits its turn. */
    method Visit(f: Entry, prior: Option<Known>) returns (ok: bool, a: Option<Analysis>)
      requires f.File? && OneAhead(report)
      modifies this`report
      ensures a.Some? <==>
                && ok && !f.excluded && !f.recent
                && !(prior.Some? && prior.value.status == Current && prior.value.size == f.size
                     && prior.value.mtime == f.mtime)
      ensures a.Some? ==> report.same == old(report).same
      ensures a == Some(AnalysisFailed) ==> report == old(report).(failed := old(report).failed + 1)
      ensures a == Some(AnalysisExcludes) ==> report == old(report).(excluded := old(report).excluded + 1)
      ensures a.Some? && a.value.Analysed? ==>
                report == old(report).(analysed := old(report).analysed + 1,
                                       queued := old(report).queued + if a.value.queued then 1 else 0)
      ensures if ok then Balanced(report) else report == old(report)
      ensures report.walked == old(report).walked && report.missing == old(report).missing
      ensures ok && f.excluded ==> report == old(report).(excluded := old(report).excluded + 1)
      ensures ok && !f.excluded && f.recent ==> report == old(report).(unstable := old(report).unstable + 1)
      ensures ok && !f.excluded && !f.recent ==>
                (report == old(report).(same := old(report).same + 1) <==>
                  && prior.Some? && prior.value.status == Current && prior.value.size == f.size
                  && prior.value.mtime == f.mtime)
    {
      if f.excluded { report := report.(excluded := report.excluded + 1); return true, None; }
      if f.recent { report := report.(unstable := report.unstable + 1); return true, None; }
      if prior.Some? && Unchanged(prior.value, f.size, f.mtime) {
        report := report.(same := report.same + 1);
        return true, None;
      }
      ok := *;
      if !ok { return false, None; }
      var answer: Analysis := *;
      a := Some(answer);
      match answer {
        case AnalysisFailed => report := report.(failed := report.failed + 1);
        case AnalysisExcludes => report := report.(excluded := report.excluded + 1);
        case Analysed(queued) =>
          report := report.(analysed := report.analysed + 1, queued := report.queued + if queued then 1 else 0);
      }
    }

    /** The walk of a root: seen is every file it reached, excluded ones among them. */
    method Walk(entries: seq<Entry>, known: map<string, Known>) returns (ok: bool, stopped: bool, seen: set<string>)
      requires Balanced(report)
      modifies this`report
      ensures !stopped ==> Balanced(report)
      ensures ok ==> !stopped && seen == Walked(entries) && Unreadable(true) !in entries
      ensures report.missing == old(report).missing
      ensures ok ==> report.same == old(report).same + CountSame(entries, known)
    {
      seen := {};
      for i := 0 to |entries|
        invariant Balanced(report) && report.missing == old(report).missing
        invariant report.same == old(report).same + CountSame(entries[..i], known)
        invariant seen == Walked(entries[..i]) && Unreadable(true) !in entries[..i]
      {
        stopped := *;
        if stopped { return false, true, seen; }
        WalkedSnoc(entries, i);
        assert entries[..i+1] == entries[..i] + [entries[i]] && entries[..i+1][..i] == entries[..i];
        match entries[i] {
          case Unreadable(isRoot) => if isRoot { return false, false, seen; }
          case Directory =>
          case File(path, _, _, _, _) =>
            seen := seen + {path};
            report := report.(walked := report.walked + 1);
            var done, _ := Visit(entries[i], if path in known then Some(known[path]) else None);
            if !done { return false, true, seen; }
        }
      }
      assert entries[..|entries|] == entries;
      return true, false, seen;
    }

    /**
     Sends to be marked missing the known rows whose file was not reached, is not already missing, and has a stat that
     fails.
     */
    method Prune(known: seq<Known>, seen: set<string>, absent: set<string>) returns (ok: bool)
      modifies this`gone, this`report
      ensures gone == old(gone) + GoneOf(known, seen, absent)
      ensures report == old(report).(missing := report.missing)
      ensures old(report).missing <= report.missing <= old(report).missing + |GoneOf(known, seen, absent)|
    {
      var ids: seq<int> := [];
      for i := 0 to |known|
        invariant ids == GoneOf(known[..i], seen, absent)
      {
        assert known[..i+1][..i] == known[..i];
        var k := known[i];
        if k.path in seen || k.status == Missing { continue; }
        if k.path !in absent { continue; }
        ids := ids + [k.id];
      }
      assert known[..|known|] == known;
      if ids == [] { return true; }
      gone := gone + ids;
      ok := *;
      var marked: int := *;
      if ok && 0 <= marked <= |ids| { report := report.(missing := report.missing + marked); }
    }

    /** A root that cannot be read, or whose walk fails or is stopped, sends no row. */
    method ScanRoot(readable: bool, entries: seq<Entry>, known: seq<Known>, absent: set<string>)
      returns (ok: bool, stopped: bool)
      requires Balanced(report)
      modifies this
      ensures !stopped ==> Balanced(report)
      ensures ok ==> !stopped && gone == old(gone) + GoneOf(known, Walked(entries), absent)
      ensures gone != old(gone) ==> readable && gone == old(gone) + GoneOf(known, Walked(entries), absent)
      ensures stopped || !readable || Unreadable(true) in entries ==> !ok && gone == old(gone)
      ensures ok ==> report.same == old(report).same + CountSame(entries, ByPath(known))
      ensures !readable ==> report == old(report)
    {
      if !readable { return false, false; }
      var listed: bool := *;
      if !listed { return false, false; }
      var seen;
      ok, stopped, seen := Walk(entries, ByPath(known));
      if ok { ok := Prune(known, seen, absent); }
    }
  }

  function ByPath(known: seq<Known>): map<string, Known> {
    if known == [] then map[] else ByPath(known[..|known|-1])[known[|known|-1].path := known[|known|-1]]
  }

  function GoneOf(known: seq<Known>, seen: set<string>, absent: set<string>): seq<int> {
    if known == [] then []
    else
      var k := known[|known|-1];
      GoneOf(known[..|known|-1], seen, absent)
      + if Gone(k, seen, absent) then [k.id] else []
  }

  /** A row is sent exactly when its file was not reached, was not already missing and is not there. */
  lemma {:induction false} GoneExactly(known: seq<Known>, seen: set<string>, absent: set<string>, id: int)
    ensures id in GoneOf(known, seen, absent) <==>
            exists i :: 0 <= i < |known| && known[i].id == id && known[i].path !in seen
                        && known[i].status != Missing && known[i].path in absent
  {
    if known != [] {
      var n := |known| - 1;
      GoneExactly(known[..n], seen, absent, id);
      assert forall i :: 0 <= i < n ==> known[..n][i] == known[i];
    }
  }

  predicate Gone(k: Known, seen: set<string>, absent: set<string>) {
    k.path !in seen && k.status != Missing && k.path in absent
  }
}
