/** The loop that turns a range and a step into bits, in 64-bit arithmetic. */
module CronBits {
  import opened Numerals

  // ---------- multiples, without division ----------

  /** x is a multiple of m. */
  predicate Multiple(x: nat, m: nat)
    requires m >= 1
  {
    if x < m then x == 0 else Multiple(x - m, m)
  }

  lemma {:induction false} NoneBetween(x: nat, y: nat, m: nat)
    requires m >= 1 && Multiple(x, m) && x < y < x + m
    ensures !Multiple(y, m)
  {
    if x >= m {
      NoneBetween(x - m, y - m, m);
    }
  }

  lemma {:induction false} MultipleAtLeast(x: nat, m: nat)
    requires m >= 1 && Multiple(x, m)
    ensures x == 0 || x >= m
  {
  }

  // ---------- the bits of one part ----------

  /** b is a whole number of steps above lo. */
  predicate Above(b: int, lo: int, step: nat)
    requires step >= 1
  {
    b >= lo && Multiple(b - lo, step)
  }

  /** Every step-th value from lo to hi. */
  function Chain(lo: int, hi: int, step: nat): set<int>
    requires step >= 1
  {
    set b | lo <= b <= hi && Above(b, lo, step)
  }

  /** How far two wrapped steps fall short of where they began. */
  function Fall(step: nat): nat
    requires step <= MAX_INT
  {
    2 * (MAX_INT - step) + 2
  }

  /** The values below lo that a step near the largest integer reaches by wrapping around. */
  function Stray(lo: int, step: nat): set<int>
    requires 1 <= step <= MAX_INT
  {
    set b | 0 <= b < lo && Above(lo, b, Fall(step))
  }

  /** 64-bit addition. */
  function Wrap(n: int): int {
    if n > MAX_INT then n - 2 * (MAX_INT + 1) else n
  }

  /** Where the loop is: still climbing; wrapped around from w; back among the values; done. */
  datatype Stage = Up | Low(w: nat) | Back | Out

  function ChainBelow(lo: int, hi: int, step: nat, v: int): set<int>
    requires step >= 1
  {
    set b | lo <= b <= hi && b < v && Above(b, lo, step)
  }

  function StrayFrom(lo: int, step: nat, v: int): set<int>
    requires 1 <= step <= MAX_INT
  {
    set b | 0 <= b < lo && v <= b && Above(lo, b, Fall(step))
  }

  ghost predicate Climbed(g: Stage, lo: int, hi: int, step: nat, v: int, mask: set<int>)
    requires 1 <= step <= MAX_INT
  {
    match g
    case Up =>
      Above(v, lo, step) && (v == lo || lo + step <= MAX_INT) && mask == ChainBelow(lo, hi, step, v)
    case Low(w) =>
      && step > hi && w <= lo && Above(lo, w, Fall(step)) && w + step > MAX_INT && v == w + step - 2 * (MAX_INT + 1)
      && mask == {lo} + StrayFrom(lo, step, w)
    case Back =>
      && step > hi + 64 && 0 <= v < lo && Above(lo, v, Fall(step)) && mask == {lo} + StrayFrom(lo, step, v + 1)
    case Out =>
      && step > hi && (if v < 0 then hi < v + step <= MAX_INT else v > hi) && mask == {lo} + Stray(lo, step)
  }

  lemma {:induction false} ChainStep(lo: int, hi: int, step: nat, v: int)
    requires step >= 1 && v <= hi && Above(v, lo, step)
    ensures ChainBelow(lo, hi, step, v) + {v} == ChainBelow(lo, hi, step, v + step)
    ensures Above(v + step, lo, step)
  {
    forall b | v < b < v + step ensures !Above(b, lo, step) { NoneBetween(v - lo, b - lo, step); }
  }

  lemma {:induction false} StrayStep(lo: int, step: nat, v: int)
    requires 1 <= step <= MAX_INT && 0 <= v < lo && Above(lo, v, Fall(step))
    ensures StrayFrom(lo, step, v + 1) + {v} == StrayFrom(lo, step, v)
  {
  }

  /** Two wrapped steps on, there is either one more value below or none. */
  lemma {:induction false} StrayFall(lo: int, step: nat, w: int)
    requires 1 <= step <= MAX_INT && 0 <= w <= lo && Above(lo, w, Fall(step))
    ensures Above(lo, w - Fall(step), Fall(step))
    ensures StrayFrom(lo, step, w) == StrayFrom(lo, step, w - Fall(step) + 1)
    ensures w < Fall(step) ==> StrayFrom(lo, step, w) == Stray(lo, step)
  {
    var d := Fall(step);
    forall b | w - d < b < w ensures !Above(lo, b, d) { NoneBetween(lo - w, lo - b, d); }
  }

  /** A step that leaves a climb for good has passed only lo. */
  lemma {:induction false} LongStep(lo: int, hi: int, step: nat, v: int)
    requires 0 <= lo && v <= hi < 64 && 1 <= step <= MAX_INT && Above(v, lo, step) && v + step > MAX_INT
    ensures v == lo && ChainBelow(lo, hi, step, v) == {} && StrayFrom(lo, step, lo) == {}
  {
    MultipleAtLeast(v - lo, step);
  }

  /** A first step that does not wrap leaves no strays. */
  lemma {:induction false} NoStrays(lo: int, step: nat)
    requires 0 <= lo < 64 && 1 <= step <= MAX_INT && lo + step <= MAX_INT
    ensures Stray(lo, step) == {}
  {
    forall b | 0 <= b < lo ensures !Above(lo, b, Fall(step)) {}
  }

  lemma {:induction false} ChainOfOne(lo: int, hi: int, step: nat)
    requires 0 <= lo <= hi < step
    ensures Chain(lo, hi, step) == {lo}
  {
    forall b | lo < b <= hi ensures !Above(b, lo, step) {}
  }

  ghost function Rank(g: Stage, v: int, hi: int): nat {
    match g
    case Up => 400 + (if v <= hi then hi - v + 1 else 0)
    case Low(w) => 2 * w + 3
    case Back => if v >= 0 then 2 * v + 4 else 0
    case Out => if v < 0 then 1 else 0
  }

  /** One turn of the loop, as far as the proof is concerned. */
  lemma {:induction false} Turn(g: Stage, lo: int, hi: int, step: nat, v: int, mask: set<int>)
    returns (g': Stage)
    requires 0 <= lo <= hi < 64 && 1 <= step <= MAX_INT && v <= hi && Climbed(g, lo, hi, step, v, mask)
    ensures Climbed(g', lo, hi, step, Wrap(v + step), if v >= 0 then mask + {v} else mask)
    ensures Rank(g', Wrap(v + step), hi) < Rank(g, v, hi)
  {
    match g
    case Up =>
      ChainStep(lo, hi, step, v);
      if v + step > MAX_INT {
        LongStep(lo, hi, step, v);
        g' := Low(lo);
      } else {
        g' := Up;
      }
    case Low(w) =>
      StrayFall(lo, step, w);
      g' := if w >= Fall(step) then Back else Out;
    case Back =>
      StrayStep(lo, step, v);
      StrayFall(lo, step, v);
      g' := if v + step > MAX_INT then Low(v) else Out;
    case Out =>
      g' := Out;
  }

  /**
   The bits from lo to hi, step by step, in 64-bit arithmetic: those a step apart, and those a step near the
   largest integer comes back to.
   */
  method Bits(lo: int, hi: int, step: nat) returns (mask: set<int>)
    requires 0 <= lo <= hi < 64 && 1 <= step <= MAX_INT
    ensures mask == Chain(lo, hi, step) + Stray(lo, step)
  {
    mask := {};
    var v := lo;
    ghost var g := Up;
    while v <= hi
      invariant Climbed(g, lo, hi, step, v, mask)
      decreases Rank(g, v, hi)
    {
      g := Turn(g, lo, hi, step, v, mask);
      if v >= 0 { mask := mask + {v}; }
      v := Wrap(v + step);
    }
    if step > hi { ChainOfOne(lo, hi, step); }
    if lo + step <= MAX_INT { NoStrays(lo, step); }
  }

  /** Exactly when the step is too long to come back, the bits are those a step apart. */
  lemma {:induction false} StraysExactly(lo: int, step: nat)
    requires 0 <= lo < 64 && 1 <= step <= MAX_INT
    ensures Stray(lo, step) == {} <==> lo < Fall(step)
  {
    if lo >= Fall(step) {
      assert Above(lo, lo - Fall(step), Fall(step));
      assert lo - Fall(step) in Stray(lo, step);
    } else {
      forall b | 0 <= b < lo ensures !Above(lo, b, Fall(step)) {}
    }
  }
}
