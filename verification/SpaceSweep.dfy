/** The totals of a space sweep, over whatever files it examines. */
module SpaceSweep {
  import opened Wrappers
  import opened Bitrate

  /** A candidate file: its size and bitrate, its duration in seconds, and the target measured for it, if any. */
  datatype File = File(size: int, source: int, duration: real, target: Option<int>)

  datatype Candidate = Candidate(current: int, projected: int, saving: int)

  const MIN_SAVING_PCT := 35.0

  /** The whole bytes a lower bitrate frees. */
  function Freed(f: File, target: int): int {
    ((f.source - target) as real * f.duration / 8.0).Floor
  }

  function Percent(part: int, whole: int): real
    requires whole > 0
  {
    part as real / whole as real * 100.0
  }

  /** What re-encoding would save: worth it only above the threshold, and never more than the file. */
  function Projection(f: File, target: int): (r: Option<Candidate>)
    ensures r.Some? ==>
              && r.value.current == f.size == r.value.projected + r.value.saving
              && 0 < r.value.saving <= f.size && Percent(r.value.saving, f.size) > MIN_SAVING_PCT
    ensures r.Some? ==> 0 < target < f.source
  {
    if target <= 0 || target >= f.source then None
    else
      var saved := Freed(f, target);
      if saved <= 0 || f.size <= 0 then None
      else
        var saving := Min(saved, f.size);
        if Percent(saving, f.size) <= MIN_SAVING_PCT then None
        else Some(Candidate(f.size, f.size - saving, saving))
  }

  /** The re-encode frees n bytes of the file, and they are more than 35 in a hundred of it. */
  predicate Worthwhile(f: File, target: int, n: int) {
    && 0 < n <= f.size && n as real * 8.0 <= (f.source - target) as real * f.duration
    && n as real * 100.0 > 35.0 * f.size as real
  }

  lemma {:induction false} Share(n: int, size: int)
    requires size > 0
    ensures Percent(n, size) > MIN_SAVING_PCT <==> n as real * 100.0 > 35.0 * size as real
  {
    var q := n as real / size as real;
    assert q * size as real == n as real;
    if q * 100.0 > 35.0 {
      Scaled(q * 100.0 - 35.0, size as real);
    } else {
      Scaled(35.0 - q * 100.0, size as real);
    }
  }

  lemma {:induction false} Scaled(x: real, y: real)
    requires x >= 0.0 && y > 0.0
    ensures x * y >= 0.0 && (x > 0.0 ==> x * y > 0.0)
  {
  }

  lemma {:induction false} WholeBytes(bits: real, n: int)
    ensures n as real * 8.0 <= bits <==> n <= (bits / 8.0).Floor
  {
  }

  lemma {:induction false} FreedExactly(f: File, target: int, n: int)
    ensures n as real * 8.0 <= (f.source - target) as real * f.duration <==> n <= Freed(f, target)
  {
    WholeBytes((f.source - target) as real * f.duration, n);
  }

  /** The test in whole bytes. */
  lemma {:induction false} WorthExactly(f: File, target: int, n: int)
    ensures Worthwhile(f, target, n) <==>
              0 < n <= f.size && n <= Freed(f, target) && Percent(n, f.size) > MIN_SAVING_PCT
  {
    FreedExactly(f, target, n);
    if f.size > 0 { Share(n, f.size); }
  }

  lemma {:induction false} MoreIsMore(n: int, m: int, size: int)
    requires size > 0 && n <= m && Percent(n, size) > MIN_SAVING_PCT
    ensures Percent(m, size) > MIN_SAVING_PCT
  {
    Share(n, size);
    Share(m, size);
  }

  /** What a target frees of a file, as far as it goes. */
  lemma {:induction false} Counted(f: File, target: int, n: int)
    requires 0 < target < f.source && Worthwhile(f, target, n)
    ensures Projection(f, target).Some? && n <= Projection(f, target).value.saving
  {
    WorthExactly(f, target, n);
    MoreIsMore(n, Min(Freed(f, target), f.size), f.size);
  }

  lemma {:induction false} CountedAll(f: File, target: int)
    requires Projection(f, target).Some?
    ensures Worthwhile(f, target, Projection(f, target).value.saving)
  {
    WorthExactly(f, target, Projection(f, target).value.saving);
  }

  /** A file is a candidate exactly when a lower target frees a worthwhile part of it, and counts all that is freed. */
  lemma {:induction false} CandidateExactly(f: File, target: int)
    ensures Projection(f, target).Some? <==> 0 < target < f.source && exists n :: Worthwhile(f, target, n)
    ensures Projection(f, target).Some? ==>
              && Worthwhile(f, target, Projection(f, target).value.saving)
              && forall n :: Worthwhile(f, target, n) ==> n <= Projection(f, target).value.saving
  {
    forall n | 0 < target < f.source && Worthwhile(f, target, n)
      ensures Projection(f, target).Some? && n <= Projection(f, target).value.saving
    {
      Counted(f, target, n);
    }
    if Projection(f, target).Some? { CountedAll(f, target); }
  }

  datatype Preview = Preview(examined: nat, current: int, projected: int, saving: int, candidates: seq<Candidate>)

  function Sum(c: seq<Candidate>): Candidate {
    if c == [] then Candidate(0, 0, 0)
    else
      var s, last := Sum(c[..|c|-1]), c[|c|-1];
      Candidate(s.current + last.current, s.projected + last.projected, s.saving + last.saving)
  }

  /** The files that are candidates, in order. */
  function CandidatesOf(files: seq<File>): seq<Candidate> {
    if files == [] then []
    else
      var f := files[|files|-1];
      var c := if f.target.Some? then Projection(f, f.target.value) else None;
      CandidatesOf(files[..|files|-1]) + (if c.Some? then [c.value] else [])
  }

  /** Stopped or not, the totals are those of the candidates so far, and what is saved is what would go. */
  method Run(files: seq<File>, stopAt: nat) returns (out: Preview)
    ensures out.examined == if stopAt < |files| then stopAt else |files|
    ensures out.candidates == CandidatesOf(files[..out.examined])
    ensures Candidate(out.current, out.projected, out.saving) == Sum(out.candidates)
    ensures out.current == out.projected + out.saving && 0 <= out.saving <= out.current
    ensures out.candidates != [] ==> out.saving > 0
  {
    out := Preview(0, 0, 0, 0, []);
    while out.examined < |files| && out.examined < stopAt
      invariant out.examined <= |files| && out.examined <= stopAt
      invariant out.candidates == CandidatesOf(files[..out.examined])
      invariant Candidate(out.current, out.projected, out.saving) == Sum(out.candidates)
      invariant out.current == out.projected + out.saving && 0 <= out.saving <= out.current
      invariant out.candidates != [] ==> out.saving > 0
      decreases |files| - out.examined
    {
      var f := files[out.examined];
      assert files[..out.examined+1][..out.examined] == files[..out.examined];
      out := out.(examined := out.examined + 1);
      if f.target.Some? {
        var c := Projection(f, f.target.value);
        if c.Some? {
          assert (out.candidates + [c.value])[..|out.candidates|] == out.candidates;
          out := out.(candidates := out.candidates + [c.value], current := out.current + c.value.current,
                      projected := out.projected + c.value.projected, saving := out.saving + c.value.saving);
        }
      }
    }
  }
}
