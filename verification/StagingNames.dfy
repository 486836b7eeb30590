/** The names of staging files and write probes, and what makes a file a leftover. */
module StagingNames {
  import opened Numerals

  const StagingPrefix := ".codarr-staging-"
  const WriteProbePrefix := ".codarr-writetest-"
  const TempPrefix := ".codarr-"

  /** A file: the components of its directory, and its name. */
  datatype Path = Path(dir: seq<string>, name: string)

  predicate Under(root: seq<string>, p: Path) {
    root <= p.dir
  }

  predicate IsDebris(name: string) {
    StagingPrefix <= name || WriteProbePrefix <= name
  }

  /** An extension with its dot. */
  function Ext(e: string): string {
    if e == "" || e[0] == '.' then e else "." + e
  }

  function StagingName(id: int, e: string): string {
    StagingPrefix + Decimal(id) + Ext(e)
  }

  function WriteProbeName(id: int): string {
    WriteProbePrefix + Decimal(id)
  }

  // ---------- one name, one job ----------

  /** A decimal holds no dot. */
  lemma {:induction false} DecimalHasNoDot(n: int, i: nat)
    requires i < |Decimal(n)|
    ensures Decimal(n)[i] != '.'
  {
    DigitsAreDigits(Abs(n));
  }

  lemma {:induction false} DotEnds(s: string, t: string, x: string, y: string)
    requires s + x == t + y && |s| <= |t|
    requires forall i :: 0 <= i < |t| ==> t[i] != '.'
    requires x == "" || x[0] == '.'
    ensures s == t
  {
    assert (s + x)[..|s|] == s && (t + y)[..|t|] == t;
    assert forall i :: 0 <= i < |t| ==> (t + y)[i] == t[i];
    assert forall i :: |s| <= i < |s + x| ==> (s + x)[i] == x[i - |s|];
  }

  lemma {:induction false} SameTail(p: string, s: string, t: string)
    requires p + s == p + t
    ensures s == t
  {
    assert (p + s)[|p|..] == s && (p + t)[|p|..] == t;
  }

  lemma {:induction false} HeadsAgree(a: int, x: string, b: int, y: string)
    requires Decimal(a) + x == Decimal(b) + y && (x == "" || x[0] == '.') && (y == "" || y[0] == '.')
    ensures a == b
  {
    forall i: nat | i < |Decimal(a)| ensures Decimal(a)[i] != '.' { DecimalHasNoDot(a, i); }
    forall i: nat | i < |Decimal(b)| ensures Decimal(b)[i] != '.' { DecimalHasNoDot(b, i); }
    if |Decimal(a)| <= |Decimal(b)| {
      DotEnds(Decimal(a), Decimal(b), x, y);
    } else {
      DotEnds(Decimal(b), Decimal(a), y, x);
    }
    DecimalInjective(a, b);
  }

  lemma {:induction false} NameSplits(id: int, e: string)
    ensures StagingName(id, e) == StagingPrefix + (Decimal(id) + Ext(e))
  {
  }

  /** Two jobs never share the name of a staging file, whatever their extensions. */
  lemma {:induction false} StagingNameInjective(a: int, d: string, b: int, e: string)
    requires StagingName(a, d) == StagingName(b, e)
    ensures a == b
  {
    NameSplits(a, d);
    NameSplits(b, e);
    SameTail(StagingPrefix, Decimal(a) + Ext(d), Decimal(b) + Ext(e));
    HeadsAgree(a, Ext(d), b, Ext(e));
  }

  /** A job's staging file and any job's write probe are leftovers when unclaimed, and never the same file. */
  lemma {:induction false} BothAreDebris(a: int, e: string, b: int)
    ensures IsDebris(StagingName(a, e)) && IsDebris(WriteProbeName(b)) && StagingName(a, e) != WriteProbeName(b)
    ensures TempPrefix <= StagingName(a, e)
  {
    assert StagingName(a, e)[..|StagingPrefix|] == StagingPrefix;
    assert WriteProbeName(b)[..|WriteProbePrefix|] == WriteProbePrefix;
    assert StagingName(a, e)[8] == 's' && WriteProbeName(b)[8] == 'w';
    assert StagingName(a, e)[..8] == StagingPrefix[..8] == TempPrefix;
  }
}
