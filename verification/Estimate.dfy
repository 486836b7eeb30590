/** The rolling average of throughput, one for each kind of work. */
module Estimate {
  const WINDOW := 20

  datatype Stat = Stat(samples: nat, average: real)

  /** What an average belongs to: all input/output work, or one encoder at one resolution. */
  datatype Key = IoWork | VideoWork(encoder: string, resolution: string)

  const NO_STAT := Stat(0, 0.0)

  /** The average with one observation more, counted against at most WINDOW earlier ones. */
  function Updated(s: Stat, observed: real): Stat {
    Stat(Weight(s) + 1, Mixed(s.average, Weight(s) as real, observed))
  }

  /** How many earlier observations the average still stands for. */
  function Weight(s: Stat): (n: nat)
    ensures n <= WINDOW && (n == 0 <==> s.samples == 0)
  {
    if s.samples <= WINDOW then s.samples else WINDOW
  }

  function Mixed(average: real, n: real, observed: real): real
    requires n >= 0.0
  {
    (average * n + observed) / (n + 1.0)
  }

  /** The average left by a history of observations. */
  function History(s: Stat, seen: seq<real>): Stat {
    if seen == [] then s else Updated(History(s, seen[..|seen|-1]), seen[|seen|-1])
  }

  lemma {:induction false} HistorySnoc(s: Stat, seen: seq<real>, observed: real)
    ensures History(s, seen + [observed]) == Updated(History(s, seen), observed)
  {
    assert (seen + [observed])[..|seen|] == seen;
  }

  function StatIn(stats: map<Key, Stat>, key: Key): Stat {
    if key in stats then stats[key] else NO_STAT
  }

  function SeenIn(seen: map<Key, seq<real>>, key: Key): seq<real> {
    if key in seen then seen[key] else []
  }

  /** The average of a kind of work stands for its own observations, all of them positive. */
  predicate FitsIn(stats: map<Key, Stat>, seen: map<Key, seq<real>>, key: Key) {
    && StatIn(stats, key) == History(NO_STAT, SeenIn(seen, key))
    && forall i :: 0 <= i < |SeenIn(seen, key)| ==> SeenIn(seen, key)[i] > 0.0
  }

  /** One observation more of one kind of work: every average still fits, and the others are as they were. */
  lemma {:induction false} OneMoreFits(stats: map<Key, Stat>, seen: map<Key, seq<real>>, key: Key, observed: real)
    requires observed > 0.0 && forall k: Key :: FitsIn(stats, seen, k)
    ensures var stats' := stats[key := Updated(StatIn(stats, key), observed)];
            var seen' := seen[key := SeenIn(seen, key) + [observed]];
            && (forall k: Key :: FitsIn(stats', seen', k))
            && forall k: Key :: k != key ==>
                 SeenIn(seen', k) == SeenIn(seen, k) && StatIn(stats', k) == StatIn(stats, k)
  {
    HistorySnoc(NO_STAT, SeenIn(seen, key), observed);
    var stats' := stats[key := Updated(StatIn(stats, key), observed)];
    var seen' := seen[key := SeenIn(seen, key) + [observed]];
    forall k: Key ensures FitsIn(stats', seen', k) {
      assert FitsIn(stats, seen, k) && FitsIn(stats, seen, key);
    }
  }

  class Estimator {
    var stats: map<Key, Stat>
    /** What each kind of work has achieved so far, oldest first. */
    ghost var seen: map<Key, seq<real>>

    function StatOf(key: Key): Stat
      reads this
    {
      StatIn(stats, key)
    }

    ghost function Seen(key: Key): seq<real>
      reads this
    {
      SeenIn(seen, key)
    }

    /** Each stored average stands for the observations of its own kind of work. */
    ghost predicate Valid()
      reads this
    {
      forall key: Key :: FitsIn(stats, seen, key)
    }

    constructor ()
      ensures Valid() && forall key: Key :: Seen(key) == []
    {
      stats, seen := map[], map[];
      new;
      assert History(NO_STAT, []) == NO_STAT;
    }

    /**
     A positive observation joins its own history, unless the store cannot be read or written; a job that took no
     measurable time teaches nothing.
     */
    method Record(key: Key, observed: real) returns (learnt: bool)
      requires Valid()
      modifies this
      ensures Valid()
      ensures learnt ==> observed > 0.0
      ensures Seen(key) == old(Seen(key)) + if learnt then [observed] else []
      ensures !learnt ==> stats == old(stats)
      ensures forall k: Key :: k != key ==> Seen(k) == old(Seen(k)) && StatOf(k) == old(StatOf(k))
    {
      if observed <= 0.0 { return false; }
      var read: bool, written: bool := *, *;
      if !read || !written { return false; }
      learnt := true;
      OneMoreFits(stats, seen, key, observed);
      stats, seen := stats[key := Updated(StatOf(key), observed)], seen[key := Seen(key) + [observed]];
    }

    /** A prediction's rate lies between the slowest and the fastest run of its own kind of work. */
    lemma {:induction false} StaysBetween(key: Key, lo: real, hi: real)
      requires FitsIn(stats, seen, key) && Seen(key) != [] && Within(lo, Seen(key), hi)
      ensures StatOf(key).samples >= 1 && lo <= StatOf(key).average <= hi
    {
      AverageStaysWithin(Seen(key), lo, hi);
    }
  }

  // ---------- averages over a history ----------

  predicate Within(lo: real, seen: seq<real>, hi: real) {
    forall i :: 0 <= i < |seen| ==> lo <= seen[i] <= hi
  }

  lemma {:induction false} PositiveFactor(y: real, d: real)
    requires d > 0.0 && y * d >= 0.0
    ensures y >= 0.0
  {
  }

  lemma {:induction false} Product(a: real, b: real)
    requires a >= 0.0 && b >= 0.0
    ensures a * b >= 0.0
  {
  }

  /** The new average times its weight is the old one times its own, and the observation. */
  lemma {:induction false} MixedProduct(average: real, n: real, observed: real)
    requires n >= 0.0
    ensures Mixed(average, n, observed) * (n + 1.0) == average * n + observed
  {
    Cancels(average * n + observed, n + 1.0);
  }

  lemma {:induction false} Cancels(x: real, d: real)
    requires d > 0.0
    ensures x / d * d == x
  {
  }

  lemma {:induction false} MixedAbove(q: real, average: real, n: real, observed: real, lo: real)
    requires n >= 0.0 && q * (n + 1.0) == average * n + observed && lo <= observed && (n == 0.0 || lo <= average)
    ensures lo <= q
  {
    if n == 0.0 {
      assert q * 1.0 == average * 0.0 + observed;
    } else {
      Product(average - lo, n);
      assert (q - lo) * (n + 1.0) == (average - lo) * n + (observed - lo);
      PositiveFactor(q - lo, n + 1.0);
    }
  }

  lemma {:induction false} MixedBelow(q: real, average: real, n: real, observed: real, hi: real)
    requires n >= 0.0 && q * (n + 1.0) == average * n + observed && observed <= hi && (n == 0.0 || average <= hi)
    ensures q <= hi
  {
    assert (-q) * (n + 1.0) == -(q * (n + 1.0)) && (-average) * n == -(average * n);
    MixedAbove(-q, -average, n, -observed, -hi);
  }

  /** One observation more, all of them between the same bounds. */
  lemma {:induction false} UpdatedBetween(s: Stat, observed: real, lo: real, hi: real)
    requires s.samples == 0 || lo <= s.average <= hi
    requires lo <= observed <= hi
    ensures lo <= Updated(s, observed).average <= hi && 1 <= Updated(s, observed).samples <= WINDOW + 1
  {
    var n, q := Weight(s) as real, Updated(s, observed).average;
    MixedProduct(s.average, n, observed);
    MixedAbove(q, s.average, n, observed, lo);
    MixedBelow(q, s.average, n, observed, hi);
  }

  /** After any observations the average lies between the least and the greatest, over at most WINDOW + 1 samples. */
  lemma {:induction false} AverageStaysWithin(seen: seq<real>, lo: real, hi: real)
    requires seen != [] && Within(lo, seen, hi)
    ensures var s := History(NO_STAT, seen); 1 <= s.samples <= WINDOW + 1 && lo <= s.average <= hi
  {
    var n := |seen| - 1;
    if n > 0 {
      AverageStaysWithin(seen[..n], lo, hi);
    } else {
      assert seen[..n] == [];
    }
    UpdatedBetween(History(NO_STAT, seen[..n]), seen[n], lo, hi);
  }

  // ---------- what the average is ----------

  function Total(seen: seq<real>): real {
    if seen == [] then 0.0 else Total(seen[..|seen|-1]) + seen[|seen|-1]
  }

  /** Over the first 21 observations the average is their mean. */
  lemma {:induction false} AverageIsMean(seen: seq<real>)
    requires 0 < |seen| <= 21
    ensures var s := History(NO_STAT, seen); s.samples == |seen| && s.average * |seen| as real == Total(seen)
  {
    var n := |seen| - 1;
    if n > 0 {
      AverageIsMean(seen[..n]);
    } else {
      assert seen[..n] == [];
    }
    MixedProduct(History(NO_STAT, seen[..n]).average, n as real, seen[n]);
  }

  lemma {:induction false} SamplesCap(seen: seq<real>)
    ensures History(NO_STAT, seen).samples == if |seen| <= 21 then |seen| else 21
  {
    if seen != [] {
      SamplesCap(seen[..|seen|-1]);
    }
  }

  /** After that each observation counts for one part in 21, and what came before for the other 20. */
  lemma {:induction false} OneInTwentyOne(seen: seq<real>)
    requires |seen| > 21
    ensures var n := |seen| - 1;
            History(NO_STAT, seen).average * 21.0 == History(NO_STAT, seen[..n]).average * 20.0 + seen[n]
  {
    var n := |seen| - 1;
    SamplesCap(seen[..n]);
    MixedProduct(History(NO_STAT, seen[..n]).average, 20.0, seen[n]);
  }

  // ---------- converging on new storage ----------

  function Distance(a: real, b: real): real {
    if a >= b then a - b else b - a
  }

  function Power(x: real, k: nat): real {
    if k == 0 then 1.0 else x * Power(x, k - 1)
  }

  function Repeated(s: Stat, v: real, k: nat): Stat {
    if k == 0 then s else Updated(Repeated(s, v, k - 1), v)
  }

  const SHRINK := 20.0 / 21.0

  lemma {:induction false} OneStepCloser(s: Stat, v: real)
    ensures Distance(Updated(s, v).average, v) <= SHRINK * Distance(s.average, v)
  {
    var n, q := Weight(s) as real, Updated(s, v).average;
    MixedProduct(s.average, n, v);
    Offset(q, s.average, n, v);
    Shrinks(q - v, s.average - v, n);
  }

  lemma {:induction false} Offset(q: real, a: real, n: real, v: real)
    requires q * (n + 1.0) == a * n + v
    ensures (q - v) * (n + 1.0) == (a - v) * n
  {
  }

  lemma {:induction false} Shrinks(e: real, d: real, n: real)
    requires 0.0 <= n <= 20.0 && e * (n + 1.0) == d * n
    ensures Distance(e, 0.0) <= SHRINK * Distance(d, 0.0)
  {
    if d >= 0.0 {
      ShrinksUp(e, d, n);
    } else {
      assert -e * (n + 1.0) == -d * n;
      ShrinksUp(-e, -d, n);
    }
  }

  lemma {:induction false} ShrinksUp(e: real, d: real, n: real)
    requires 0.0 <= n <= 20.0 && d >= 0.0 && e * (n + 1.0) == d * n
    ensures 0.0 <= e <= SHRINK * d
  {
    Product(d, n);
    PositiveFactor(e, n + 1.0);
    Product(d, 20.0 - n);
    assert (20.0 * d - 21.0 * e) * (n + 1.0) == d * (20.0 - n);
    PositiveFactor(20.0 * d - 21.0 * e, n + 1.0);
  }

  lemma {:induction false} ShrinkTwice(x: real, y: real, p: real, d: real)
    requires x <= SHRINK * y && y <= p * d
    ensures x <= (SHRINK * p) * d
  {
    assert (SHRINK * p) * d == SHRINK * (p * d);
  }

  lemma {:induction false} Geometric(dist: nat -> real, k: nat)
    requires forall i: nat :: i < k ==> dist(i + 1) <= SHRINK * dist(i)
    ensures dist(k) <= Power(SHRINK, k) * dist(0)
  {
    if k > 0 {
      Geometric(dist, k - 1);
      ShrinkTwice(dist(k), dist(k - 1), Power(SHRINK, k - 1), dist(0));
    }
  }

  function Gap(s: Stat, v: real, i: nat): real {
    Distance(Repeated(s, v, i).average, v)
  }

  lemma {:induction false} GapShrinks(s: Stat, v: real, i: nat)
    ensures Gap(s, v, i + 1) <= SHRINK * Gap(s, v, i)
  {
    OneStepCloser(Repeated(s, v, i), v);
  }

  /** Each observation of one value brings the average at least a twenty-first of the way to it. */
  lemma {:induction false} ConvergesOn(s: Stat, v: real, k: nat)
    ensures Gap(s, v, k) <= Power(SHRINK, k) * Gap(s, v, 0)
  {
    var dist := (i: nat) => Gap(s, v, i);
    forall i: nat | i < k ensures dist(i + 1) <= SHRINK * dist(i) {
      GapShrinks(s, v, i);
    }
    Geometric(dist, k);
  }
}
