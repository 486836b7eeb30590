/** Cutting and splitting text at separators. */
module Text {
  /** The first position of a separator, or the length. */
  function FirstAt(s: string, sep: char -> bool): (i: nat)
    ensures i <= |s|
  {
    if s == "" || sep(s[0]) then 0 else 1 + FirstAt(s[1..], sep)
  }

  /** The pieces between separators; always at least one. */
  function Split(s: string, sep: char -> bool): (r: seq<string>)
    ensures |r| >= 1
    decreases |s|
  {
    var i := FirstAt(s, sep);
    if i == |s| then [s] else [s[..i]] + Split(s[i+1..], sep)
  }

  function Join(parts: seq<string>, c: char): string {
    if parts == [] then "" else if |parts| == 1 then parts[0] else parts[0] + [c] + Join(parts[1..], c)
  }

  predicate Free(s: string, sep: char -> bool) {
    forall i :: 0 <= i < |s| ==> !sep(s[i])
  }

  lemma {:induction false} FirstAtEnd(s: string, t: string, sep: char -> bool)
    requires Free(s, sep) && (t == "" || sep(t[0]))
    ensures FirstAt(s + t, sep) == |s|
  {
    if s == "" {
      assert s + t == t;
    } else {
      assert (s + t)[1..] == s[1..] + t;
      FirstAtEnd(s[1..], t, sep);
    }
  }

  lemma {:induction false} FirstAtNone(s: string, sep: char -> bool)
    requires Free(s, sep)
    ensures FirstAt(s, sep) == |s|
  {
    assert s + "" == s;
    FirstAtEnd(s, "", sep);
  }

  /** Joined pieces that hold no separator are found again. */
  lemma {:induction false} SplitJoin(parts: seq<string>, c: char, sep: char -> bool)
    requires |parts| >= 1 && sep(c) && forall i :: 0 <= i < |parts| ==> Free(parts[i], sep)
    ensures Split(Join(parts, c), sep) == parts
  {
    if |parts| == 1 {
      FirstAtNone(parts[0], sep);
    } else {
      var rest := Join(parts[1..], c);
      var s := Join(parts, c);
      assert s == parts[0] + ([c] + rest);
      FirstAtEnd(parts[0], [c] + rest, sep);
      assert s[..|parts[0]|] == parts[0] && s[|parts[0]|+1..] == rest;
      SplitJoin(parts[1..], c, sep);
    }
  }

  /** What comes before the first c and after it, and whether there is one. */
  function Cut(s: string, c: char): (r: (string, string, bool)) {
    var i := FirstAt(s, x => x == c);
    if i == |s| then (s, "", false) else (s[..i], s[i+1..], true)
  }

  lemma {:induction false} CutJoined(s: string, t: string, c: char)
    requires Free(s, x => x == c)
    ensures Cut(s + [c] + t, c) == (s, t, true)
  {
    var u := s + ([c] + t);
    assert s + [c] + t == u;
    FirstAtEnd(s, [c] + t, x => x == c);
    assert u[..|s|] == s && u[|s|+1..] == t;
  }

  lemma {:induction false} CutWhole(s: string, c: char)
    requires Free(s, x => x == c)
    ensures Cut(s, c) == (s, "", false)
  {
    FirstAtNone(s, x => x == c);
  }
}
