/** Byte lines as Python's `bytes.splitlines` cuts them: at LF, CR and CR LF. */
module Lines {
  import opened Prelude

  datatype RawLine = RawLine(content: seq<byte>, ending: seq<byte>)

  predicate Clean(s: seq<byte>) {
    forall i :: 0 <= i < |s| ==> s[i] != LF && s[i] != CR
  }

  /** The index of the first line break, or the length. */
  function BreakAt(data: seq<byte>): (n: nat)
    ensures n <= |data| && Clean(data[..n]) && (n < |data| ==> data[n] == LF || data[n] == CR)
  {
    if data == [] || data[0] == LF || data[0] == CR then 0
    else
      var n := 1 + BreakAt(data[1..]);
      assert data[..n] == [data[0]] + data[1..][..n - 1];
      n
  }

  function EndingAt(data: seq<byte>, n: nat): (e: seq<byte>)
    requires n <= |data|
    ensures n + |e| <= |data| && (n < |data| ==> |e| > 0)
  {
    if n == |data| then []
    else if data[n] == CR && n + 1 < |data| && data[n + 1] == LF then [CR, LF]
    else [data[n]]
  }

  function SplitLines(data: seq<byte>): seq<RawLine> {
    if data == [] then []
    else
      var n := BreakAt(data);
      var e := EndingAt(data, n);
      [RawLine(data[..n], e)] + SplitLines(data[n + |e|..])
  }

  lemma {:induction false} BreakAfterClean(a: seq<byte>, rest: seq<byte>)
    requires Clean(a) && (rest == [] || rest[0] == LF || rest[0] == CR)
    ensures BreakAt(a + rest) == |a|
  {
    if a != [] {
      assert (a + rest)[1..] == a[1..] + rest;
      BreakAfterClean(a[1..], rest);
    } else {
      assert a + rest == rest;
    }
  }

  lemma {:induction false} BreakInFront(x: seq<byte>, y: seq<byte>)
    requires BreakAt(x) < |x|
    ensures BreakAt(x + y) == BreakAt(x)
  {
    if x[0] != LF && x[0] != CR {
      assert (x + y)[1..] == x[1..] + y;
      BreakInFront(x[1..], y);
    }
  }

  lemma SplitOneLine(a: seq<byte>)
    requires Clean(a)
    ensures SplitLines(a + [LF]) == [RawLine(a, [LF])]
  {
    BreakAfterClean(a, [LF]);
    var data := a + [LF];
    assert data[..|a|] == a && EndingAt(data, |a|) == [LF] && data[|a| + 1..] == [];
  }

  lemma SplitOpenLine(a: seq<byte>)
    requires Clean(a) && a != []
    ensures SplitLines(a) == [RawLine(a, [])]
  {
    BreakAfterClean(a, []);
    assert a + [] == a && a[..|a|] == a && a[|a|..] == [];
  }

  lemma {:induction false} LastIsBreak(x: seq<byte>)
    requires x != [] && x[|x| - 1] == LF
    ensures BreakAt(x) < |x|
  {
    if x[0] != LF && x[0] != CR { LastIsBreak(x[1..]); }
  }

  lemma EndingInFront(x: seq<byte>, y: seq<byte>, n: nat)
    requires n < |x| && x[|x| - 1] == LF
    ensures EndingAt(x + y, n) == EndingAt(x, n)
    ensures var rest := x[n + |EndingAt(x, n)|..]; rest == [] || rest[|rest| - 1] == LF
    ensures (x + y)[n + |EndingAt(x, n)|..] == x[n + |EndingAt(x, n)|..] + y
  {
  }

  lemma SplitStep(data: seq<byte>, n: nat, e: seq<byte>)
    requires data != [] && n == BreakAt(data) && e == EndingAt(data, n)
    ensures n + |e| > 0 && SplitLines(data) == [RawLine(data[..n], e)] + SplitLines(data[n + |e|..])
  {
    hide BreakAt, EndingAt;
  }

  lemma SplitHead(x: seq<byte>, y: seq<byte>) returns (head: RawLine, rest: seq<byte>)
    requires x != [] && x[|x| - 1] == LF
    ensures |rest| < |x| && (rest == [] || rest[|rest| - 1] == LF)
    ensures SplitLines(x) == [head] + SplitLines(rest)
    ensures SplitLines(x + y) == [head] + SplitLines(rest + y)
  {
    LastIsBreak(x);
    BreakInFront(x, y);
    var n := BreakAt(x);
    var e := EndingAt(x, n);
    head, rest := RawLine(x[..n], e), x[n + |e|..];
    EndingInFront(x, y, n);
    SplitStep(x, n, e);
    SplitStep(x + y, n, e);
    assert (x + y)[..n] == x[..n];
  }

  lemma Reassociate(whole: seq<RawLine>, head: RawLine, a: seq<RawLine>, left: seq<RawLine>, right: seq<RawLine>, tail: seq<RawLine>)
    requires whole == [head] + tail && tail == a + right && left == [head] + a
    ensures whole == left + right
  {
  }

  /** Text that ends in LF can be cut off and split separately. */
  lemma {:induction false} SplitAppend(x: seq<byte>, y: seq<byte>)
    requires x == [] || x[|x| - 1] == LF
    ensures SplitLines(x + y) == SplitLines(x) + SplitLines(y)
    decreases |x|
  {
    if x == [] {
      assert x + y == y;
      assert SplitLines(x) == [];
    } else {
      var head, rest := SplitHead(x, y);
      SplitAppend(rest, y);
      Reassociate(SplitLines(x + y), head, SplitLines(rest), SplitLines(x), SplitLines(y), SplitLines(rest + y));
    }
  }

  function Joined(lines: seq<RawLine>): seq<byte> {
    if lines == [] then [] else lines[0].content + lines[0].ending + Joined(lines[1..])
  }

  /** A content without line breaks and one of the three endings, or none. */
  ghost predicate LineOk(l: RawLine) {
    Clean(l.content) && (l.ending == [] || l.ending == ['\n' as int] || l.ending == ['\r' as int] || l.ending == ['\r' as int, '\n' as int])
  }

  /** Only the last line may have no ending, and then has a content; CR LF is never cut in two. */
  ghost predicate Lined(lines: seq<RawLine>) {
    && (forall l <- lines :: LineOk(l))
    && (forall i :: 0 <= i < |lines| && lines[i].ending == [] ==> i == |lines| - 1 && lines[i].content != [])
    && forall i :: 0 < i < |lines| ==> !Parted(lines[i - 1], lines[i])
  }

  predicate Parted(a: RawLine, b: RawLine) {
    a.ending == ['\r' as int] && b.content == [] && |b.ending| > 0 && b.ending[0] == '\n' as int
  }

  lemma LinedGrows(head: RawLine, tail: seq<RawLine>)
    requires Lined(tail) && LineOk(head) && (head.ending == [] ==> tail == [] && head.content != [])
    requires tail != [] ==> !Parted(head, tail[0])
    ensures Lined([head] + tail)
  {
    hide LineOk, Parted;
    var all := [head] + tail;
    forall i | 0 < i < |all| ensures !Parted(all[i - 1], all[i]) {
      if i > 1 { assert all[i - 1] == tail[i - 2] && all[i] == tail[i - 1]; }
    }
    forall i | 0 <= i < |all| && all[i].ending == [] ensures i == |all| - 1 && all[i].content != [] {
      if i > 0 { assert all[i] == tail[i - 1]; }
    }
  }

  lemma HeadOk(data: seq<byte>)
    requires data != []
    ensures var n := BreakAt(data); var e := EndingAt(data, n); var rest := data[n + |e|..];
            && LineOk(RawLine(data[..n], e)) && (e == [] ==> rest == [] && n > 0) && data == data[..n] + e + rest
            && (e == ['\r' as int] && rest != [] ==> rest[0] != LF)
  {
    hide BreakAt;
  }

  /** Splitting cuts a file into such lines and loses nothing. */
  lemma {:induction false} SplitsLines(data: seq<byte>)
    ensures Lined(SplitLines(data)) && Joined(SplitLines(data)) == data
    decreases |data|
  {
    if data != [] {
      hide BreakAt, EndingAt, Lined, LineOk, SplitLines;
      var n := BreakAt(data);
      var e := EndingAt(data, n);
      var rest := data[n + |e|..];
      SplitStep(data, n, e);
      HeadOk(data);
      SplitsLines(rest);
      if rest == [] { NothingSplits(); } else { NextHead(rest); }
      LinedGrows(RawLine(data[..n], e), SplitLines(rest));
      assert ([RawLine(data[..n], e)] + SplitLines(rest))[1..] == SplitLines(rest);
    }
  }

  lemma NothingSplits()
    ensures SplitLines([]) == []
  {
  }

  lemma NextHead(rest: seq<byte>)
    requires rest != []
    ensures SplitLines(rest) != []
    ensures rest[0] != LF && SplitLines(rest)[0].content == [] && |SplitLines(rest)[0].ending| > 0 ==> SplitLines(rest)[0].ending[0] != LF
  {
  }
}
