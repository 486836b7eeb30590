/** The last lines of ffmpeg's error output, kept in a ring. */
module StderrRing {
  import opened Text

  predicate IsNewline(c: char) {
    c == '\n'
  }

  function TrimReturns(s: string): string {
    if s != "" && s[|s|-1] == '\r' then TrimReturns(s[..|s|-1]) else s
  }

  /** Every carriage return at the end goes, and nothing else. */
  lemma {:induction false} TrimExactly(s: string)
    ensures TrimReturns(s) <= s && forall i :: |TrimReturns(s)| <= i < |s| ==> s[i] == '\r'
    ensures TrimReturns(s) != "" ==> TrimReturns(s)[|TrimReturns(s)|-1] != '\r'
  {
    if s != "" && s[|s|-1] == '\r' {
      TrimExactly(s[..|s|-1]);
    }
  }

  /** The lines of a log that have ended, without their carriage returns. */
  function Completed(log: string): seq<string> {
    Trimmed(Split(log, IsNewline)[..|Split(log, IsNewline)|-1])
  }

  function Trimmed(lines: seq<string>): (r: seq<string>)
    ensures |r| == |lines|
  {
    if lines == [] then [] else Trimmed(lines[..|lines|-1]) + [TrimReturns(lines[|lines|-1])]
  }

  /** What follows the last newline. */
  function Partial(log: string): string {
    var pieces := Split(log, IsNewline);
    pieces[|pieces|-1]
  }

  function LastOf(lines: seq<string>, limit: nat): seq<string> {
    if |lines| <= limit then lines else lines[|lines|-limit..]
  }

  /** What the log's reader is shown. */
  function LinesOf(log: string, limit: nat): seq<string> {
    LastOf(Completed(log), limit) + (if Partial(log) == "" then [] else [Partial(log)])
  }

  /** The pieces of a log with one byte more. */
  function Extended(pieces: seq<string>, c: char): seq<string>
    requires pieces != []
  {
    if IsNewline(c) then pieces + [""] else pieces[..|pieces|-1] + [pieces[|pieces|-1] + [c]]
  }

  lemma {:induction false} ExtendedTail(first: string, pieces: seq<string>, c: char)
    requires pieces != []
    ensures Extended([first] + pieces, c) == [first] + Extended(pieces, c)
  {
  }

  lemma {:induction false} SplitAt(s: string, i: nat)
    requires i == FirstAt(s, IsNewline) < |s|
    ensures Split(s, IsNewline) == [s[..i]] + Split(s[i+1..], IsNewline)
  {
  }

  lemma {:induction false} SplitSnoc(s: string, c: char)
    ensures Split(s + [c], IsNewline) == Extended(Split(s, IsNewline), c)
    decreases |s|
  {
    var i, t := FirstAt(s, IsNewline), s + [c];
    FirstAtSnoc(s, c);
    if i < |s| {
      assert t[..i] == s[..i] && t[i+1..] == s[i+1..] + [c];
      SplitSnoc(s[i+1..], c);
      SplitAt(s, i);
      SplitAt(t, i);
      ExtendedTail(s[..i], Split(s[i+1..], IsNewline), c);
    } else {
      SplitSnocLast(s, c);
    }
  }

  lemma {:induction false} SplitSnocLast(s: string, c: char)
    requires FirstAt(s, IsNewline) == |s|
    ensures Split(s + [c], IsNewline) == Extended(Split(s, IsNewline), c)
  {
    FirstAtSnoc(s, c);
    if IsNewline(c) {
      assert (s + [c])[..|s|] == s && (s + [c])[|s|+1..] == "";
    }
  }

  lemma {:induction false} FirstAtSnoc(s: string, c: char)
    ensures FirstAt(s + [c], IsNewline) ==
            if FirstAt(s, IsNewline) < |s| || IsNewline(c) then FirstAt(s, IsNewline) else |s| + 1
  {
    if s != "" && !IsNewline(s[0]) {
      assert (s + [c])[1..] == s[1..] + [c];
      FirstAtSnoc(s[1..], c);
    }
  }

  /** One byte more completes a line or lengthens the partial one. */
  lemma {:induction false} LogSnoc(log: string, c: char)
    ensures Completed(log + [c]) == if c == '\n' then Completed(log) + [TrimReturns(Partial(log))] else Completed(log)
    ensures Partial(log + [c]) == if c == '\n' then "" else Partial(log) + [c]
  {
    SplitSnoc(log, c);
    var a, b := Split(log, IsNewline), Split(log + [c], IsNewline);
    if c == '\n' {
      assert b[..|b|-1] == a;
    } else {
      assert b[..|b|-1] == a[..|a|-1];
    }
  }

  /** The ring's slots, read from the oldest. */
  function InOrder(buf: seq<string>, next: nat, full: bool): seq<string>
    requires next <= |buf|
  {
    (if full then buf[next..] else []) + buf[..next]
  }

  ghost predicate Holds(buf: seq<string>, next: nat, full: bool, lines: seq<string>) {
    && (if |buf| == 0 then next == 0 && !full else next < |buf|)
    && InOrder(buf, next, full) == LastOf(lines, |buf|)
    && (!full ==> next == |lines| || |buf| == 0) && (full ==> |lines| >= |buf|)
  }

  lemma {:induction false} NextSlot(next: nat, n: nat)
    requires next < n
    ensures (next + 1) % n == if next + 1 == n then 0 else next + 1
  {
  }

  lemma {:induction false} PushInOrder(buf: seq<string>, next: nat, full: bool, line: string)
    requires next < |buf|
    ensures InOrder(buf[next := line], if next + 1 == |buf| then 0 else next + 1, full || next + 1 == |buf|) ==
            (if full then InOrder(buf, next, full)[1..] else InOrder(buf, next, full)) + [line]
  {
    var b := buf[next := line];
    assert b[..next+1] == buf[..next] + [line];
    assert b[next+1..] == buf[next+1..];
    if full {
      assert InOrder(buf, next, full)[1..] == buf[next+1..] + buf[..next];
    }
  }

  /** Overwriting the oldest slot keeps the last lines in order. */
  lemma {:induction false} PushHolds(buf: seq<string>, next: nat, full: bool, lines: seq<string>, line: string)
    requires |buf| > 0 && Holds(buf, next, full, lines)
    ensures var next' := if next + 1 == |buf| then 0 else next + 1;
            Holds(buf[next := line], next', full || next + 1 == |buf|, lines + [line])
  {
    PushInOrder(buf, next, full, line);
    if full {
      PushFull(lines, |buf|, line);
    }
  }

  lemma {:induction false} PushFull(lines: seq<string>, limit: nat, line: string)
    requires |lines| >= limit > 0
    ensures LastOf(lines + [line], limit) == LastOf(lines, limit)[1..] + [line]
  {
  }

  lemma {:induction false} OneMore(log: string, p: string, i: nat)
    requires i < |p|
    ensures log + p[..i] + [p[i]] == log + p[..i+1]
  {
  }

  class Ring {
    const limit: nat
    const buf: array<string>
    var next: nat
    var full: bool
    var tail: string
    /** Every byte written so far. */
    ghost var log: string

    ghost predicate Valid()
      reads this, buf
    {
      buf.Length == limit && tail == Partial(log) && Holds(buf[..], next, full, Completed(log))
    }

    constructor (n: nat)
      ensures Valid() && limit == n && log == "" && fresh(buf)
    {
      limit, buf := n, new string[n];
      next, full, tail, log := 0, false, "", "";
    }

    method Push(line: string, ghost lines: seq<string>)
      requires buf.Length == limit && Holds(buf[..], next, full, lines)
      modifies this`next, this`full, buf
      ensures Holds(buf[..], next, full, lines + [line])
    {
      if limit == 0 { return; }
      PushHolds(buf[..], next, full, lines, line);
      NextSlot(next, limit);
      Store(line);
      next := (next + 1) % limit;
      if next == 0 { full := true; }
    }

    method Store(line: string)
      requires next < buf.Length
      modifies buf
      ensures buf[..] == old(buf[..])[next := line]
    {
      buf[next] := line;
    }

    method WriteByte(c: char)
      requires Valid()
      modifies this, buf
      ensures Valid() && log == old(log) + [c]
    {
      LogSnoc(log, c);
      if c != '\n' {
        tail := tail + [c];
      } else {
        Push(TrimReturns(tail), Completed(log));
        tail := "";
      }
      log := log + [c];
    }

    /** However the output is cut into writes, the ring is that of the whole log. */
    method Write(p: string)
      requires Valid()
      modifies this, buf
      ensures Valid() && log == old(log) + p
    {
      var i := 0;
      while i < |p|
        invariant 0 <= i <= |p| && Valid() && log == old(log) + p[..i]
      {
        WriteByte(p[i]);
        OneMore(old(log), p, i);
        i := i + 1;
      }
      assert p[..i] == p;
    }

    /** The last lines that ended, in order, and then the unfinished one. */
    method Lines() returns (out: seq<string>)
      requires Valid()
      ensures out == LinesOf(log, limit)
    {
      out := [];
      if full { out := out + buf[next..]; }
      out := out + buf[..next];
      if |tail| > 0 { out := out + [tail]; }
    }
  }
}
