/** What a cron expression means, against what the parser makes of it. */
module CronText {
  import opened Wrappers
  import opened Numerals
  import opened Text
  import opened CronBits
  import opened CronParse
  import Cron

  /** The written forms of one part. */
  datatype Base = Star | One(n: int) | Range(a: int, b: int)
  datatype Item = Item(base: Base, step: Option<int>)

  predicate WellFormed(item: Item, min: int, max: int) {
    && 0 <= min <= max < 64
    && (item.step.Some? ==> 1 <= item.step.value <= MAX_INT)
    && match item.base
       case Star => true
       case One(n) => min <= n <= max
       case Range(a, b) => min <= a <= b <= max
  }

  function RenderBase(base: Base): string {
    match base
    case Star => "*"
    case One(n) => Decimal(n)
    case Range(a, b) => Decimal(a) + ['-'] + Decimal(b)
  }

  function Render(item: Item): string {
    if item.step.None? then RenderBase(item.base) else RenderBase(item.base) + ['/'] + Decimal(item.step.value)
  }

  function Lo(base: Base, min: int): int {
    match base case Star => min case One(n) => n case Range(a, _) => a
  }

  function Hi(base: Base, max: int): int {
    match base case Star => max case One(n) => n case Range(_, b) => b
  }

  /** The crontab reading: a single value with a step runs to the end, and a range stays inside its bounds. */
  function Meaning(item: Item, min: int, max: int): set<int>
    requires WellFormed(item, min, max)
  {
    if item.step.None? then Chain(Lo(item.base, min), Hi(item.base, max), 1)
    else Chain(Lo(item.base, min), if item.base.One? then max else Hi(item.base, max), item.step.value)
  }

  // ---------- reading back ----------

  predicate Numeral(s: string) {
    s != "" && AllDigits(s)
  }

  lemma {:induction false} DecimalIsNumeral(n: int)
    requires n >= 0
    ensures Numeral(Decimal(n))
  {
    DigitsAreDigits(n);
  }

  lemma {:induction false} ReadsValue(n: int, min: int, max: int)
    requires 0 <= min <= n <= max < 64
    ensures ParseValue(Decimal(n), min, max) == Some(n)
  {
    AtoiReadsDecimal(n);
  }

  lemma {:induction false} ReadsOne(n: int, min: int, max: int)
    requires 0 <= min <= n <= max < 64
    ensures ParseRange(Decimal(n), min, max) == Some(Span(n, n, true))
  {
    DecimalIsNumeral(n);
    CutWhole(Decimal(n), '-');
    ReadsValue(n, min, max);
    assert Decimal(n) != "*" by { assert Decimal(n)[0] != "*"[0]; }
  }

  lemma {:induction false} ReadsRange(a: int, b: int, min: int, max: int)
    requires 0 <= min <= a <= b <= max < 64
    ensures ParseRange(Decimal(a) + ['-'] + Decimal(b), min, max) == Some(Span(a, b, true))
  {
    DecimalIsNumeral(a);
    CutJoined(Decimal(a), Decimal(b), '-');
    ReadsValue(a, min, max);
    ReadsValue(b, min, max);
    assert |Decimal(a) + ['-'] + Decimal(b)| > 1;
  }

  lemma {:induction false} ReadsBase(base: Base, min: int, max: int)
    requires WellFormed(Item(base, None), min, max)
    ensures ParseRange(RenderBase(base), min, max) == Some(Span(Lo(base, min), Hi(base, max), !base.Star?))
    ensures RenderBase(base) == "*" <==> base.Star?
  {
    match base
    case Star =>
    case One(n) =>
      ReadsOne(n, min, max);
      DecimalIsNumeral(n);
      assert Decimal(n)[0] != "*"[0];
    case Range(a, b) =>
      ReadsRange(a, b, min, max);
      DecimalIsNumeral(a);
      assert |RenderBase(base)| > 1;
  }

  /** No separator of the grammar other than the range's own occurs in a base. */
  lemma {:induction false} BaseIsPlain(base: Base, sep: char -> bool)
    requires WellFormed(Item(base, None), 0, 63) && !sep('*') && !sep('-')
    requires forall c :: IsDigit(c) ==> !sep(c)
    ensures Free(RenderBase(base), sep)
  {
    match base
    case Star =>
    case One(n) => DecimalIsNumeral(n);
    case Range(a, b) =>
      DecimalIsNumeral(a);
      DecimalIsNumeral(b);
  }

  lemma {:induction false} ItemIsPlain(item: Item, min: int, max: int, sep: char -> bool)
    requires WellFormed(item, min, max) && !sep('*') && !sep('-') && !sep('/')
    requires forall c :: IsDigit(c) ==> !sep(c)
    ensures Free(Render(item), sep) && Render(item) != ""
  {
    BaseIsPlain(item.base, sep);
    if item.base.One? { DecimalIsNumeral(item.base.n); }
    if item.step.Some? { DecimalIsNumeral(item.step.value); }
  }

  /** Where the parser takes the range to end. */
  function ParsedHi(item: Item, min: int, max: int): int {
    if item.step.Some? && Lo(item.base, min) == Hi(item.base, max) && !item.base.Star? then max else Hi(item.base, max)
  }

  /** Every written form is read. */
  lemma {:induction false} ReadsItem(item: Item, min: int, max: int)
    requires WellFormed(item, min, max)
    ensures PartOf(Render(item), min, max) == Some(Part(
                                                     Lo(item.base, min), ParsedHi(item, min, max),
                                                     if item.step.None? then 1 else item.step.value,
                                                     item != Item(Star, None)))
  {
    ReadsBase(item.base, min, max);
    BaseIsPlain(item.base, x => x == '/');
    if item.step.None? {
      CutWhole(RenderBase(item.base), '/');
    } else {
      CutJoined(RenderBase(item.base), Decimal(item.step.value), '/');
      AtoiReadsDecimal(item.step.value);
    }
  }

  /** A range of one value with a step that reaches another value before the end. */
  predicate RunsOn(item: Item, max: int) {
    item.base.Range? && item.base.a == item.base.b && item.step.Some? && item.base.a + item.step.value <= max
  }

  /** A step so near the largest integer that counting wraps back to another value. */
  predicate WrapsBack(item: Item, min: int)
    requires item.step.Some? ==> 1 <= item.step.value <= MAX_INT
  {
    item.step.Some? && Lo(item.base, min) >= Fall(item.step.value)
  }

  lemma {:induction false} StepOne(lo: int)
    requires 0 <= lo < 64
    ensures Stray(lo, 1) == {}
  {
    StraysExactly(lo, 1);
  }

  /** The parser gives a written part its crontab meaning in every case but two. */
  lemma {:induction false} PartMeansExactly(item: Item, min: int, max: int)
    requires WellFormed(item, min, max)
    ensures PartOf(Render(item), min, max).Some?
    ensures BitsOf(PartOf(Render(item), min, max).value) == Meaning(item, min, max)
       <==> !RunsOn(item, max) && !WrapsBack(item, min)
  {
    ReadsItem(item, min, max);
    var lo, hi := Lo(item.base, min), ParsedHi(item, min, max);
    if item.step.None? {
      StepOne(lo);
    } else {
      var step := item.step.value;
      StraysExactly(lo, step);
      if item.base.Range? && item.base.a == item.base.b {
        OneValueRange(lo, max, step);
      }
    }
  }

  /** The written form a readable base stands for, however its numbers are spelled. */
  lemma {:induction false} BaseOf(spec: string, min: int, max: int) returns (base: Base)
    requires 0 <= min <= max < 64 && ParseRange(spec, min, max).Some?
    ensures WellFormed(Item(base, None), min, max) && (base.Star? <==> spec == "*")
    ensures ParseRange(spec, min, max).value == Span(Lo(base, min), Hi(base, max), !base.Star?)
  {
    if spec == "*" { return Star; }
    var span := ParseRange(spec, min, max).value;
    base := if Cut(spec, '-').2 then Range(span.lo, span.hi) else One(span.lo);
  }

  /**
   Every text the parser accepts for a part, with signs and leading zeros too, stands for a written form: it is read
   as that form is, and so with its crontab meaning in every case but the same two.
   */
  lemma {:induction false} EveryPartMeans(part: string, min: int, max: int) returns (item: Item)
    requires 0 <= min <= max < 64 && PartOf(part, min, max).Some?
    ensures WellFormed(item, min, max) && PartOf(part, min, max) == PartOf(Render(item), min, max)
    ensures BitsOf(PartOf(part, min, max).value) == Meaning(item, min, max)
       <==> !RunsOn(item, max) && !WrapsBack(item, min)
  {
    var (rangeSpec, stepSpec, hasStep) := Cut(part, '/');
    var base := BaseOf(rangeSpec, min, max);
    item := Item(base, if hasStep then Atoi(stepSpec) else None);
    ReadsItem(item, min, max);
    PartMeansExactly(item, min, max);
  }

  lemma {:induction false} OneValueRange(lo: int, max: int, step: nat)
    requires 0 <= lo <= max < 64 && 1 <= step <= MAX_INT
    ensures Chain(lo, lo, step) == {lo}
    ensures lo + step > max ==> Chain(lo, max, step) == {lo}
    ensures lo + step <= max ==> lo + step in Chain(lo, max, step)
  {
    assert Above(lo, lo, step) && Above(lo + step, lo, step);
    forall b | lo < b < lo + step ensures !Above(b, lo, step) {}
  }

  // ---------- lists and whole expressions ----------

  function RenderAll(items: seq<Item>): (r: seq<string>)
    ensures |r| == |items|
  {
    if items == [] then [] else RenderAll(items[..|items|-1]) + [Render(items[|items|-1])]
  }

  function RenderField(items: seq<Item>): string {
    Join(RenderAll(items), ',')
  }

  /** The parser and crontab agree on this part. */
  predicate Plain(item: Item, min: int, max: int) {
    WellFormed(item, min, max) && !RunsOn(item, max) && !WrapsBack(item, min)
  }

  predicate AllPlain(items: seq<Item>, min: int, max: int) {
    forall i :: 0 <= i < |items| ==> Plain(items[i], min, max)
  }

  /** A list means whatever any of its parts means. */
  function FieldMeaning(items: seq<Item>, min: int, max: int): set<int>
    requires AllPlain(items, min, max)
  {
    if items == [] then {} else FieldMeaning(items[..|items|-1], min, max) + Meaning(items[|items|-1], min, max)
  }

  /** Anything but bare stars. */
  function Restricts(items: seq<Item>): bool {
    if items == [] then false else Restricts(items[..|items|-1]) || items[|items|-1] != Item(Star, None)
  }

  lemma {:induction false} PartsAsWritten(items: seq<Item>, min: int, max: int)
    requires 0 <= min <= max < 64 && AllPlain(items, min, max)
    ensures PartsOf(RenderAll(items), min, max) == Some(Field(FieldMeaning(items, min, max), Restricts(items)))
  {
    if items != [] {
      var n := |items| - 1;
      var parts := RenderAll(items);
      PartsAsWritten(items[..n], min, max);
      assert parts[..n] == RenderAll(items[..n]) && parts[n] == Render(items[n]);
      PartMeansExactly(items[n], min, max);
      ReadsItem(items[n], min, max);
    }
  }

  lemma {:induction false} AllArePlain(items: seq<Item>, min: int, max: int, sep: char -> bool, i: nat)
    requires 0 <= min <= max < 64 && AllPlain(items, min, max) && i < |items|
    requires !sep('*') && !sep('-') && !sep('/') && forall c :: IsDigit(c) ==> !sep(c)
    ensures Free(RenderAll(items)[i], sep) && RenderAll(items)[i] != ""
  {
    var n := |items| - 1;
    if i == n {
      ItemIsPlain(items[n], min, max, sep);
    } else {
      AllArePlain(items[..n], min, max, sep, i);
      assert RenderAll(items)[i] == RenderAll(items[..n])[i];
    }
  }

  lemma {:induction false} MeaningNonEmpty(items: seq<Item>, min: int, max: int)
    requires 0 <= min <= max < 64 && AllPlain(items, min, max) && items != []
    ensures FieldMeaning(items, min, max) != {}
  {
    var item := items[|items|-1];
    var lo := Lo(item.base, min);
    assert Above(lo, lo, if item.step.None? then 1 else item.step.value);
    assert lo in Meaning(item, min, max);
  }

  /** A written field is read as what it means. */
  lemma {:induction false} FieldAsWritten(items: seq<Item>, min: int, max: int)
    requires 0 <= min <= max < 64 && AllPlain(items, min, max) && items != []
    ensures FieldOf(RenderField(items), min, max) == Some(Field(FieldMeaning(items, min, max), Restricts(items)))
  {
    forall i | 0 <= i < |items| ensures Free(RenderAll(items)[i], IsComma) { AllArePlain(items, min, max, IsComma, i); }
    SplitJoin(RenderAll(items), ',', IsComma);
    PartsAsWritten(items, min, max);
    MeaningNonEmpty(items, min, max);
  }

  lemma {:induction false} JoinIsPlain(parts: seq<string>, c: char, sep: char -> bool)
    requires !sep(c) && forall i :: 0 <= i < |parts| ==> Free(parts[i], sep)
    ensures Free(Join(parts, c), sep)
  {
    if |parts| > 1 {
      JoinIsPlain(parts[1..], c, sep);
    }
  }

  lemma {:induction false} FieldIsPlain(items: seq<Item>, min: int, max: int)
    requires 0 <= min <= max < 64 && AllPlain(items, min, max) && items != []
    ensures Free(RenderField(items), IsSpace) && RenderField(items) != ""
  {
    forall i | 0 <= i < |items| ensures Free(RenderAll(items)[i], IsSpace) { AllArePlain(items, min, max, IsSpace, i); }
    JoinIsPlain(RenderAll(items), ',', IsSpace);
    AllArePlain(items, min, max, IsSpace, 0);
  }

  lemma {:induction false} NoneEmpty(parts: seq<string>)
    requires forall i :: 0 <= i < |parts| ==> parts[i] != ""
    ensures NonEmpty(parts) == parts
  {
    if parts != [] {
      NoneEmpty(parts[1..]);
    }
  }

  lemma {:induction false} FieldsOfJoined(parts: seq<string>)
    requires |parts| >= 1 && forall i :: 0 <= i < |parts| ==> Free(parts[i], IsSpace) && parts[i] != ""
    ensures Fields(Join(parts, ' ')) == parts
  {
    SplitJoin(parts, ' ', IsSpace);
    NoneEmpty(parts);
  }

  /** The five written fields of an expression. */
  datatype Spec = Spec(minute: seq<Item>, hour: seq<Item>, dom: seq<Item>, month: seq<Item>, dow: seq<Item>)

  predicate SpecPlain(s: Spec) {
    && AllPlain(s.minute, 0, 59) && AllPlain(s.hour, 0, 23) && AllPlain(s.dom, 1, 31)
    && AllPlain(s.month, 1, 12) && AllPlain(s.dow, 0, 7)
    && s.minute != [] && s.hour != [] && s.dom != [] && s.month != [] && s.dow != []
  }

  function RenderSpec(s: Spec): string {
    Join(RenderedFields(s), ' ')
  }

  function RenderedFields(s: Spec): seq<string> {
    [RenderField(s.minute), RenderField(s.hour), RenderField(s.dom), RenderField(s.month), RenderField(s.dow)]
  }

  function ScheduleMeant(s: Spec): Cron.Schedule
    requires SpecPlain(s)
  {
    Cron.Schedule(
      FieldMeaning(s.minute, 0, 59), FieldMeaning(s.hour, 0, 23), FieldMeaning(s.dom, 1, 31),
      FieldMeaning(s.month, 1, 12), Sunday(FieldMeaning(s.dow, 0, 7)), Restricts(s.dom), Restricts(s.dow))
  }

  /** Sunday is day 0, and is meant by 7 as well; no other day is added, and none lost. */
  lemma {:induction false} SundayIsSevenToo(s: Spec, day: int)
    requires SpecPlain(s)
    ensures day in ScheduleMeant(s).dows <==>
              day in FieldMeaning(s.dow, 0, 7) || (day == 0 && 7 in FieldMeaning(s.dow, 0, 7))
  {
  }

  /** Writing an expression and parsing it gives back its meaning. */
  lemma {:induction false} ParsesAsWritten(s: Spec)
    requires SpecPlain(s)
    ensures ScheduleOf(RenderSpec(s)) == Some(ScheduleMeant(s))
  {
    FieldIsPlain(s.minute, 0, 59);
    FieldIsPlain(s.hour, 0, 23);
    FieldIsPlain(s.dom, 1, 31);
    FieldIsPlain(s.month, 1, 12);
    FieldIsPlain(s.dow, 0, 7);
    FieldsOfJoined(RenderedFields(s));
    FieldAsWritten(s.minute, 0, 59);
    FieldAsWritten(s.hour, 0, 23);
    FieldAsWritten(s.dom, 1, 31);
    FieldAsWritten(s.month, 1, 12);
    FieldAsWritten(s.dow, 0, 7);
  }

  const DefaultCron := "0 4 * * *"

  function DefaultSpec(): Spec {
    var star := [Item(Star, None)];
    Spec([Item(One(0), None)], [Item(One(4), None)], star, star, star)
  }

  lemma {:induction false} Single(item: Item, min: int, max: int)
    requires Plain(item, min, max)
    ensures RenderField([item]) == Render(item) && FieldMeaning([item], min, max) == Meaning(item, min, max)
  {
    assert [item][..0] == [];
  }

  lemma {:induction false} EveryValue(lo: int, b: int)
    requires lo <= b
    ensures Above(b, lo, 1)
    decreases b - lo
  {
    if b > lo {
      EveryValue(lo, b - 1);
      assert Multiple(b - 1 - lo, 1);
    }
  }

  lemma {:induction false} DefaultParses()
    ensures SpecPlain(DefaultSpec()) && ScheduleOf(DefaultCron) == Some(ScheduleMeant(DefaultSpec()))
    ensures ScheduleMeant(DefaultSpec()) == Cron.Schedule(
                                              {0}, {4}, Chain(1, 31, 1), Chain(1, 12, 1), Sunday(Chain(0, 7, 1)),
                                              false, false)
  {
    var star := Item(Star, None);
    Single(Item(One(0), None), 0, 59);
    Single(Item(One(4), None), 0, 23);
    Single(star, 1, 31);
    Single(star, 1, 12);
    Single(star, 0, 7);
    assert RenderSpec(DefaultSpec()) == DefaultCron;
    ParsesAsWritten(DefaultSpec());
    OneValueRange(0, 59, 1);
    OneValueRange(4, 23, 1);
  }

  /** The default schedule is met once a day, at four in the morning. */
  lemma {:induction false} DefaultIsDaily(k: nat)
    ensures ScheduleOf(DefaultCron).Some?
    ensures Cron.Matches(ScheduleOf(DefaultCron).value, k) <==> k % Cron.MINUTES_PER_DAY == 240
  {
    DefaultParses();
    var s := ScheduleMeant(DefaultSpec());
    forall m | 1 <= m <= 12 ensures m in s.months { EveryValue(1, m); }
    forall d | 1 <= d <= 31 ensures d in s.doms { EveryValue(1, d); }
    forall w | 0 <= w <= 6 ensures w in s.dows { EveryValue(0, w); }
    Cron.DailyMatches(s, 4, 0, k);
  }
}
