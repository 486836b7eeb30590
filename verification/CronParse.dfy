/** Cron expressions: five fields of text, each a list of values, ranges and steps. */
module CronParse {
  import opened Wrappers
  import opened Numerals
  import opened Text
  import opened CronBits
  import Cron

  // ---------- one part ----------

  datatype Span = Span(lo: int, hi: int, restricted: bool)
  datatype Part = Part(lo: int, hi: int, step: int, restricted: bool)

  function ParseValue(spec: string, min: int, max: int): Option<int> {
    match Atoi(spec)
    case None => None
    case Some(v) => if v < min || v > max then None else Some(v)
  }

  function ParseRange(spec: string, min: int, max: int): Option<Span> {
    if spec == "*" then Some(Span(min, max, false))
    else
      var (loSpec, hiSpec, isRange) := Cut(spec, '-');
      var lo := ParseValue(loSpec, min, max);
      if lo.None? then None
      else if !isRange then Some(Span(lo.value, lo.value, true))
      else
        var hi := ParseValue(hiSpec, min, max);
        if hi.None? || hi.value < lo.value then None else Some(Span(lo.value, hi.value, true))
  }

  /** The range and the step of a part; a range of one value, when it has a step, runs on to the end. */
  function PartOf(part: string, min: int, max: int): (r: Option<Part>)
    ensures r.Some? && min <= max ==> min <= r.value.lo <= r.value.hi <= max && 1 <= r.value.step <= MAX_INT
  {
    var (rangeSpec, stepSpec, hasStep) := Cut(part, '/');
    var step := if hasStep then Atoi(stepSpec) else Some(1);
    if step.None? || step.value < 1 then None
    else
      match ParseRange(rangeSpec, min, max)
      case None => None
      case Some(s) =>
        var hi := if hasStep && s.lo == s.hi && rangeSpec != "*" then max else s.hi;
        Some(Part(s.lo, hi, step.value, s.restricted || hasStep))
  }

  predicate InBounds(p: Part) {
    0 <= p.lo <= p.hi < 64 && 1 <= p.step <= MAX_INT
  }

  function BitsOf(p: Part): set<int>
    requires InBounds(p)
  {
    Chain(p.lo, p.hi, p.step) + Stray(p.lo, p.step)
  }

  datatype Field = Field(mask: set<int>, restricted: bool)

  method ParsePart(part: string, min: int, max: int) returns (r: Option<Field>)
    requires 0 <= min <= max < 64
    ensures r == match PartOf(part, min, max) case None => None case Some(p) => Some(Field(BitsOf(p), p.restricted))
  {
    match PartOf(part, min, max) {
      case None => return None;
      case Some(p) =>
        var mask := Bits(p.lo, p.hi, p.step);
        return Some(Field(mask, p.restricted));
    }
  }

  // ---------- one field ----------

  predicate IsComma(c: char) {
    c == ','
  }

  /** The bits of all the parts, if every one of them can be read. */
  function PartsOf(parts: seq<string>, min: int, max: int): Option<Field>
    requires 0 <= min <= max < 64
  {
    if parts == [] then Some(Field({}, false))
    else
      match (PartsOf(parts[..|parts|-1], min, max), PartOf(parts[|parts|-1], min, max))
      case (Some(f), Some(p)) => Some(Field(f.mask + BitsOf(p), f.restricted || p.restricted))
      case _ => None
  }

  function FieldOf(field: string, min: int, max: int): Option<Field>
    requires 0 <= min <= max < 64
  {
    match PartsOf(Split(field, IsComma), min, max)
    case None => None
    case Some(f) => if f.mask == {} then None else Some(f)
  }

  method ParseField(field: string, min: int, max: int) returns (r: Option<Field>)
    requires 0 <= min <= max < 64
    ensures r == FieldOf(field, min, max)
  {
    var parts := Split(field, IsComma);
    var mask, restricted := {}, false;
    var i := 0;
    while i < |parts|
      invariant 0 <= i <= |parts| && PartsOf(parts[..i], min, max) == Some(Field(mask, restricted))
    {
      assert parts[..i+1][..i] == parts[..i];
      var f := ParsePart(parts[i], min, max);
      if f.None? {
        Unreadable(parts, i + 1, min, max);
        return None;
      }
      mask, restricted := mask + f.value.mask, restricted || f.value.restricted;
      i := i + 1;
    }
    assert parts[..i] == parts;
    if mask == {} { return None; }
    return Some(Field(mask, restricted));
  }

  lemma {:induction false} Unreadable(parts: seq<string>, k: nat, min: int, max: int)
    requires 0 <= min <= max < 64 && k <= |parts| && PartsOf(parts[..k], min, max).None?
    ensures PartsOf(parts, min, max).None?
    decreases |parts| - k
  {
    if k == |parts| {
      assert parts[..k] == parts;
    } else {
      assert parts[..k+1][..k] == parts[..k];
      Unreadable(parts, k + 1, min, max);
    }
  }

  predicate Sets(part: string, min: int, max: int, b: int)
    requires 0 <= min <= max < 64
  {
    PartOf(part, min, max).Some? && b in BitsOf(PartOf(part, min, max).value)
  }

  ghost predicate SomePartSets(parts: seq<string>, min: int, max: int, b: int)
    requires 0 <= min <= max < 64
  {
    exists i :: 0 <= i < |parts| && Sets(parts[i], min, max, b)
  }

  lemma {:induction false} SomePartSnoc(parts: seq<string>, last: string, min: int, max: int, b: int)
    requires 0 <= min <= max < 64
    ensures SomePartSets(parts + [last], min, max, b) <==> SomePartSets(parts, min, max, b) || Sets(last, min, max, b)
  {
    var all := parts + [last];
    if SomePartSets(parts, min, max, b) {
      var i :| 0 <= i < |parts| && Sets(parts[i], min, max, b);
      assert all[i] == parts[i];
    }
    if Sets(last, min, max, b) {
      assert all[|parts|] == last;
    }
  }

  predicate AllReadable(parts: seq<string>, min: int, max: int) {
    forall i :: 0 <= i < |parts| ==> PartOf(parts[i], min, max).Some?
  }

  lemma {:induction false} AllReadableSnoc(parts: seq<string>, last: string, min: int, max: int)
    ensures AllReadable(parts + [last], min, max) <==> AllReadable(parts, min, max) && PartOf(last, min, max).Some?
  {
    var all := parts + [last];
    if AllReadable(all, min, max) {
      assert all[|parts|] == last;
      assert forall i :: 0 <= i < |parts| ==> all[i] == parts[i];
    }
  }

  /** A list can be read exactly when each of its parts can. */
  lemma {:induction false} PartsReadable(parts: seq<string>, min: int, max: int)
    requires 0 <= min <= max < 64
    ensures PartsOf(parts, min, max).Some? <==> AllReadable(parts, min, max)
  {
    if parts != [] {
      var n := |parts| - 1;
      PartsReadable(parts[..n], min, max);
      assert parts == parts[..n] + [parts[n]];
      AllReadableSnoc(parts[..n], parts[n], min, max);
    }
  }

  lemma {:induction false} PartsMask(parts: seq<string>, min: int, max: int, b: int)
    requires 0 <= min <= max < 64 && PartsOf(parts, min, max).Some?
    ensures b in PartsOf(parts, min, max).value.mask <==> SomePartSets(parts, min, max, b)
  {
    if parts != [] {
      var n := |parts| - 1;
      PartsMask(parts[..n], min, max, b);
      assert parts == parts[..n] + [parts[n]];
      SomePartSnoc(parts[..n], parts[n], min, max, b);
    }
  }

  predicate PartRestricts(part: string, min: int, max: int) {
    PartOf(part, min, max).Some? && PartOf(part, min, max).value.restricted
  }

  lemma {:induction false} PartsRestricted(parts: seq<string>, min: int, max: int)
    requires 0 <= min <= max < 64 && PartsOf(parts, min, max).Some?
    ensures PartsOf(parts, min, max).value.restricted <==>
            exists i :: 0 <= i < |parts| && PartRestricts(parts[i], min, max)
  {
    if parts != [] {
      var n := |parts| - 1;
      PartsRestricted(parts[..n], min, max);
      assert forall i :: 0 <= i < n ==> parts[..n][i] == parts[i];
    }
  }

  /** A bit is set exactly when some part sets it, and a list is restricted exactly when some part is. */
  lemma {:induction false} PartsMean(parts: seq<string>, min: int, max: int, b: int)
    requires 0 <= min <= max < 64 && PartsOf(parts, min, max).Some?
    ensures AllReadable(parts, min, max)
    ensures b in PartsOf(parts, min, max).value.mask <==> SomePartSets(parts, min, max, b)
    ensures PartsOf(parts, min, max).value.restricted <==>
            exists i :: 0 <= i < |parts| && PartRestricts(parts[i], min, max)
  {
    PartsReadable(parts, min, max);
    PartsMask(parts, min, max, b);
    PartsRestricted(parts, min, max);
  }

  /**
   A field is refused exactly when one of its comma parts is; otherwise a bit is set exactly when a part sets it.
   A list of readable parts always matches something.
   */
  lemma {:induction false} FieldMeans(field: string, min: int, max: int, b: int)
    requires 0 <= min <= max < 64
    ensures var parts := Split(field, IsComma);
            && (FieldOf(field, min, max).Some? <==> AllReadable(parts, min, max))
            && (FieldOf(field, min, max).Some? ==>
                  (b in FieldOf(field, min, max).value.mask <==> SomePartSets(parts, min, max, b)))
  {
    var parts := Split(field, IsComma);
    PartsReadable(parts, min, max);
    if PartsOf(parts, min, max).Some? {
      PartsMean(parts, min, max, b);
      var p := PartOf(parts[0], min, max).value;
      PartsMean(parts, min, max, p.lo);
      assert Above(p.lo, p.lo, p.step) && p.lo in BitsOf(p);
      assert Sets(parts[0], min, max, p.lo);
    }
  }

  // ---------- the expression ----------

  predicate IsSpace(c: char) {
    var n := c as int;
    || 9 <= n <= 13 || n == 32 || n == 0x85 || n == 0xA0 || n == 0x1680 || 0x2000 <= n <= 0x200A
    || n == 0x2028 || n == 0x2029 || n == 0x202F || n == 0x205F || n == 0x3000
  }

  function NonEmpty(parts: seq<string>): seq<string> {
    if parts == [] then [] else (if parts[0] == "" then [] else [parts[0]]) + NonEmpty(parts[1..])
  }

  function Fields(spec: string): seq<string> {
    NonEmpty(Split(spec, IsSpace))
  }

  /** Both 0 and 7 are Sunday. */
  function Sunday(dows: set<int>): set<int> {
    if 7 in dows then dows + {0} else dows
  }

  function ScheduleOf(spec: string): Option<Cron.Schedule> {
    var f := Fields(spec);
    if |f| != 5 then None
    else
      match (FieldOf(f[0], 0, 59), FieldOf(f[1], 0, 23), FieldOf(f[2], 1, 31), FieldOf(f[3], 1, 12),
          FieldOf(f[4], 0, 7))
      case (Some(minute), Some(hour), Some(dom), Some(month), Some(dow)) =>
        Some(Cron.Schedule(
          minute.mask, hour.mask, dom.mask, month.mask, Sunday(dow.mask), dom.restricted, dow.restricted))
      case _ => None
  }

  method ParseCron(spec: string) returns (r: Option<Cron.Schedule>)
    ensures r == ScheduleOf(spec)
  {
    var fields := Fields(spec);
    if |fields| != 5 { return None; }
    var minute := ParseField(fields[0], 0, 59);
    if minute.None? { return None; }
    var hour := ParseField(fields[1], 0, 23);
    if hour.None? { return None; }
    var dom := ParseField(fields[2], 1, 31);
    if dom.None? { return None; }
    var month := ParseField(fields[3], 1, 12);
    if month.None? { return None; }
    var dow := ParseField(fields[4], 0, 7);
    if dow.None? { return None; }
    var dows := if 7 in dow.value.mask then dow.value.mask + {0} else dow.value.mask;
    return Some(Cron.Schedule(minute.value.mask, hour.value.mask, dom.value.mask, month.value.mask, dows,
                              dom.value.restricted, dow.value.restricted));
  }
}
