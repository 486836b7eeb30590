/** The encode target from sample encodes, and the space a sweep expects to save with it. */
module Bitrate {
  datatype Resolution = Res576p | Res720p | Res1080p | Res1440p | Res2160p

  function ResolutionOf(width: int): Resolution {
    if width >= 3840 then Res2160p else if width >= 2560 then Res1440p
    else if width >= 1920 then Res1080p else if width >= 1280 then Res720p else Res576p
  }

  function Floor(r: Resolution): int {
    match r case Res576p => 800_000 case Res720p => 1_500_000 case Res1080p => 2_500_000
            case Res1440p => 4_000_000 case Res2160p => 8_000_000
  }

  function Ceiling(r: Resolution): int {
    match r case Res576p => 2_500_000 case Res720p => 4_000_000 case Res1080p => 8_000_000
            case Res1440p => 12_000_000 case Res2160p => 20_000_000
  }

  /** source is the source bitrate, zero when it is not known. */
  datatype Input = Input(width: int, source: int)

  function Min(a: int, b: int): int { if a <= b then a else b }
  function Max(a: int, b: int): int { if a >= b then a else b }

  /** The source ceiling, then the floor, which may win over it, then the ceiling of the resolution. */
  function Clamp(target: int, i: Input): int {
    var capped := if i.source > 0 then Min(target, i.source * 85 / 100) else target;
    Min(Max(capped, Floor(ResolutionOf(i.width))), Ceiling(ResolutionOf(i.width)))
  }

  // ---------- the median ----------

  function Insert(x: nat, s: seq<nat>): seq<nat> {
    if s == [] || x <= s[0] then [x] + s else [s[0]] + Insert(x, s[1..])
  }

  function Sorted(v: seq<nat>): seq<nat> {
    if v == [] then [] else Insert(v[0], Sorted(v[1..]))
  }

  function Median(v: seq<nat>): nat {
    SortedLength(v);
    var s, mid := Sorted(v), |v| / 2;
    if v == [] then 0 else if |v| % 2 == 1 then s[mid] else (s[mid - 1] + s[mid]) / 2
  }

  /** How many values are at most b. */
  function Count(s: seq<nat>, b: nat): nat {
    if s == [] then 0 else (if s[0] <= b then 1 else 0) + Count(s[1..], b)
  }

  predicate Ascending(s: seq<nat>) {
    forall i :: 0 < i < |s| ==> s[i-1] <= s[i]
  }

  lemma {:induction false} InsertKeeps(x: nat, s: seq<nat>, b: nat)
    ensures |Insert(x, s)| == |s| + 1
    ensures Count(Insert(x, s), b) == Count(s, b) + if x <= b then 1 else 0
    ensures Ascending(s) ==> Ascending(Insert(x, s)) && Insert(x, s)[0] == (if s == [] || x <= s[0] then x else s[0])
  {
    if s != [] && x > s[0] {
      InsertKeeps(x, s[1..], b);
    }
  }

  lemma {:induction false} SortedLength(v: seq<nat>)
    ensures |Sorted(v)| == |v|
  {
    if v != [] {
      SortedLength(v[1..]);
      InsertKeeps(v[0], Sorted(v[1..]), 0);
    }
  }

  lemma {:induction false} SortKeeps(v: seq<nat>, b: nat)
    ensures Ascending(Sorted(v)) && Count(Sorted(v), b) == Count(v, b)
  {
    if v != [] {
      SortKeeps(v[1..], b);
      InsertKeeps(v[0], Sorted(v[1..]), b);
    }
  }

  lemma {:induction false} AscendingFrom(s: seq<nat>, k: nat)
    requires Ascending(s) && k < |s|
    ensures s[0] <= s[k]
  {
    if k > 0 {
      AscendingFrom(s, k - 1);
    }
  }

  lemma {:induction false} NoneAtMost(s: seq<nat>, b: nat)
    requires forall i :: 0 <= i < |s| ==> s[i] > b
    ensures Count(s, b) == 0
  {
    if s != [] {
      NoneAtMost(s[1..], b);
    }
  }

  /** A value of a sorted list is at most b exactly when more values than its position are. */
  lemma {:induction false} KthByCount(s: seq<nat>, k: nat, b: nat)
    requires Ascending(s) && k < |s|
    ensures s[k] <= b <==> Count(s, b) > k
  {
    if s[0] > b {
      forall i: nat | i < |s| ensures s[i] > b { AscendingFrom(s, i); }
      NoneAtMost(s, b);
    } else if k > 0 {
      KthByCount(s[1..], k - 1, b);
    }
  }

  /** The k-th smallest value is at most b exactly when more than k values are, however they are ordered. */
  lemma {:induction false} OrderStatistic(v: seq<nat>, k: nat, b: nat)
    requires k < |v|
    ensures |Sorted(v)| == |v| && (Sorted(v)[k] <= b <==> Count(v, b) > k)
  {
    SortedLength(v);
    SortKeeps(v, b);
    KthByCount(Sorted(v), k, b);
  }

  /** x is the k-th smallest value, counted from zero: it is within a bound exactly if more than k values are. */
  ghost predicate IsKth(v: seq<nat>, k: nat, x: nat) {
    forall b: nat :: x <= b <==> Count(v, b) > k
  }

  lemma {:induction false} KthExactly(v: seq<nat>, k: nat)
    requires k < |v|
    ensures |Sorted(v)| == |v| && IsKth(v, k, Sorted(v)[k])
  {
    SortedLength(v);
    forall b: nat ensures Sorted(v)[k] <= b <==> Count(v, b) > k {
      OrderStatistic(v, k, b);
    }
  }

  lemma {:induction false} MiddleOfSorted(v: seq<nat>)
    requires v != []
    ensures |Sorted(v)| == |v| && Median(v) == (Sorted(v)[(|v| - 1) / 2] + Sorted(v)[|v| / 2]) / 2
  {
    SortedLength(v);
    if |v| % 2 == 1 {
      assert (|v| - 1) / 2 == |v| / 2;
    } else {
      assert (|v| - 1) / 2 == |v| / 2 - 1;
    }
  }

  /** The middle value, or the mean of the two in the middle, rounded down. */
  lemma {:induction false} MedianExactly(v: seq<nat>) returns (low: nat, high: nat)
    requires v != []
    ensures IsKth(v, (|v| - 1) / 2, low) && IsKth(v, |v| / 2, high) && Median(v) == (low + high) / 2
  {
    MiddleOfSorted(v);
    KthExactly(v, (|v| - 1) / 2);
    KthExactly(v, |v| / 2);
    low, high := Sorted(v)[(|v| - 1) / 2], Sorted(v)[|v| / 2];
  }

  // ---------- what the median does not depend on ----------

  lemma {:induction false} CountConcat(s: seq<nat>, t: seq<nat>, b: nat)
    ensures Count(s + t, b) == Count(s, b) + Count(t, b)
  {
    if s == [] {
      assert s + t == t;
    } else {
      assert (s + t)[1..] == s[1..] + t;
      CountConcat(s[1..], t, b);
    }
  }

  function Without(w: seq<nat>, j: nat): seq<nat>
    requires j < |w|
  {
    w[..j] + w[j+1..]
  }

  lemma {:induction false} WithoutKeeps(w: seq<nat>, j: nat, b: nat)
    requires j < |w|
    ensures multiset(Without(w, j)) == multiset(w) - multiset{w[j]}
    ensures Count(w, b) == Count(Without(w, j), b) + if w[j] <= b then 1 else 0
  {
    assert w == w[..j] + ([w[j]] + w[j+1..]);
    CountConcat(w[..j], [w[j]] + w[j+1..], b);
    CountConcat(w[..j], w[j+1..], b);
  }

  lemma {:induction false} CountOfPermutation(v: seq<nat>, w: seq<nat>, b: nat)
    requires multiset(v) == multiset(w)
    ensures Count(v, b) == Count(w, b) && |v| == |w|
  {
    assert |v| == |multiset(v)| == |multiset(w)| == |w|;
    if v != [] {
      assert v[0] in multiset(w);
      var j :| 0 <= j < |w| && w[j] == v[0];
      WithoutKeeps(v, 0, b);
      WithoutKeeps(w, j, b);
      assert Without(v, 0) == v[1..];
      CountOfPermutation(v[1..], Without(w, j), b);
    }
  }

  predicate Below(v: seq<nat>, w: seq<nat>) {
    |v| == |w| && forall i :: 0 <= i < |v| ==> v[i] <= w[i]
  }

  lemma {:induction false} CountFalls(v: seq<nat>, w: seq<nat>, b: nat)
    requires Below(v, w)
    ensures Count(v, b) >= Count(w, b)
  {
    if v != [] {
      CountFalls(v[1..], w[1..], b);
    }
  }

  lemma {:induction false} KthRises(v: seq<nat>, w: seq<nat>, k: nat)
    requires Below(v, w) && k < |v|
    ensures |Sorted(v)| == |v| && |Sorted(w)| == |w| && Sorted(v)[k] <= Sorted(w)[k]
  {
    SortedLength(w);
    var b := Sorted(w)[k];
    CountFalls(v, w, b);
    OrderStatistic(w, k, b);
    OrderStatistic(v, k, b);
  }

  lemma {:induction false} KthOfPermutation(v: seq<nat>, w: seq<nat>, k: nat)
    requires multiset(v) == multiset(w) && k < |v|
    ensures |v| == |w| && |Sorted(v)| == |v| && |Sorted(w)| == |w| && Sorted(v)[k] == Sorted(w)[k]
  {
    SortedLength(v);
    CountOfPermutation(v, w, 0);
    SortedLength(w);
    var a, b := Sorted(v)[k], Sorted(w)[k];
    CountOfPermutation(v, w, a);
    CountOfPermutation(v, w, b);
    OrderStatistic(v, k, a);
    OrderStatistic(w, k, a);
    OrderStatistic(v, k, b);
    OrderStatistic(w, k, b);
  }

  lemma {:induction false} MedianOfPermutation(v: seq<nat>, w: seq<nat>)
    requires multiset(v) == multiset(w)
    ensures Median(v) == Median(w)
  {
    CountOfPermutation(v, w, 0);
    if v != [] {
      KthOfPermutation(v, w, |v| / 2);
      if |v| % 2 == 0 { KthOfPermutation(v, w, |v| / 2 - 1); }
    }
  }

  lemma {:induction false} MedianRises(v: seq<nat>, w: seq<nat>)
    requires Below(v, w)
    ensures Median(v) <= Median(w)
  {
    if v != [] {
      KthRises(v, w, |v| / 2);
      if |v| % 2 == 0 { KthRises(v, w, |v| / 2 - 1); }
    }
  }

  // ---------- the target ----------

  /** The median, corrected by five quarters for the hardware encoder, and clamped. */
  function TargetFromSamples(samples: seq<nat>, i: Input): int {
    var base := Median(samples);
    if base == 0 then 0 else Clamp(base * 5 / 4, i)
  }

  /** The bounds of a width, in bits a second. */
  predicate Bounds(width: int, low: int, high: int) {
    if width >= 3840 then low == 8_000_000 && high == 20_000_000
    else if width >= 2560 then low == 4_000_000 && high == 12_000_000
    else if width >= 1920 then low == 2_500_000 && high == 8_000_000
    else if width >= 1280 then low == 1_500_000 && high == 4_000_000
    else low == 800_000 && high == 2_500_000
  }

  /**
   The target is five quarters of the median as far as that lies between the bounds of the width and below 85% of a
   known source bitrate, and else the bound it passes; the floor wins over the source's bitrate.
   */
  lemma {:induction false} TargetExactly(samples: seq<nat>, i: Input, low: int, high: int)
    requires Median(samples) != 0 && Bounds(i.width, low, high)
    ensures var wanted := Median(samples) * 5 / 4;
            var most := if i.source <= 0 || i.source * 85 / 100 > high then high
                        else if i.source * 85 / 100 < low then low else i.source * 85 / 100;
            TargetFromSamples(samples, i) == if wanted < low then low else if wanted > most then most else wanted
  {
  }

  /** The target keeps its bounds: the resolution's, and the source's as far as the floor lets it. */
  lemma {:induction false} TargetInBounds(samples: seq<nat>, i: Input)
    requires Median(samples) != 0
    ensures var t, r := TargetFromSamples(samples, i), ResolutionOf(i.width);
            && Floor(r) <= t <= Ceiling(r)
            && (i.source > 0 ==> t <= Max(Floor(r), i.source * 85 / 100))
  {
    assert forall r :: Floor(r) <= Ceiling(r);
  }

  /** The order of the samples does not matter, and a higher sample never lowers the target. */
  lemma {:induction false} TargetFollowsSamples(v: seq<nat>, w: seq<nat>, i: Input)
    ensures multiset(v) == multiset(w) ==> TargetFromSamples(v, i) == TargetFromSamples(w, i)
    ensures Below(v, w) ==> TargetFromSamples(v, i) <= TargetFromSamples(w, i)
  {
    if multiset(v) == multiset(w) { MedianOfPermutation(v, w); }
    if Below(v, w) {
      MedianRises(v, w);
      assert Floor(ResolutionOf(i.width)) > 0;
      assert Median(v) * 5 / 4 <= Median(w) * 5 / 4;
    }
  }
}
