/** split_physical_lines: Markdown lines end at CR, LF or CRLF and keep their endings. */
module PhysicalLines {
  import opened Basics

  predicate IsBreak(c: char) {
    c == '\r' || c == '\n'
  }

  /** No CR or LF before `n`. */
  predicate PlainUpTo(line: string, n: nat)
    requires n <= |line|
  {
    forall i :: 0 <= i < n ==> !IsBreak(line[i])
  }

  /** The length of the line's text without its ending. */
  function ContentLength(line: string): (n: nat)
    ensures n <= |line| <= n + 2
  {
    if line == "" then 0
    else if line[|line| - 1] == '\n' then
      if |line| >= 2 && line[|line| - 2] == '\r' then |line| - 2 else |line| - 1
    else if line[|line| - 1] == '\r' then |line| - 1
    else |line|
  }

  /** _is_physical_line */
  predicate IsPhysicalLine(line: string) {
    PlainUpTo(line, ContentLength(line))
  }

  /** A line that ends with a line break. */
  predicate Ended(line: string) {
    line != "" && IsPhysicalLine(line) && IsBreak(line[|line| - 1])
  }

  predicate EndsInCr(line: string) {
    line != "" && line[|line| - 1] == '\r'
  }

  predicate StartsWithLf(line: string) {
    line != "" && line[0] == '\n'
  }

  function Concat(lines: seq<string>): string {
    if lines == [] then "" else Concat(lines[..|lines| - 1]) + lines[|lines| - 1]
  }

  /** Every line but the last is ended, no line is empty, and a CR that ends a line is
      not followed by an LF, which would belong to it. */
  ghost predicate IsSplit(lines: seq<string>) {
    && (forall i :: 0 <= i < |lines| ==> lines[i] != "" && IsPhysicalLine(lines[i]))
    && (forall i :: 0 <= i < |lines| - 1 ==> Ended(lines[i]))
    && (forall i :: 0 <= i < |lines| - 1 && EndsInCr(lines[i]) ==> !StartsWithLf(lines[i + 1]))
  }

  /** The loop's state: complete lines, then the plain text of the line being read. */
  ghost predicate Splitting(source: string, lines: seq<string>, start: nat, index: nat) {
    && start <= index <= |source| && Concat(lines) == source[..start]
    && (forall i :: 0 <= i < |lines| ==> Ended(lines[i]))
    && (forall i :: 0 <= i < |lines| - 1 && EndsInCr(lines[i]) ==> !StartsWithLf(lines[i + 1]))
    && (lines != [] && EndsInCr(lines[|lines| - 1]) && start < |source| ==> source[start] != '\n')
    && (forall i :: start <= i < index ==> !IsBreak(source[i]))
  }

  lemma ConcatAppend(lines: seq<string>, line: string)
    ensures Concat(lines + [line]) == Concat(lines) + line
  {
    assert (lines + [line])[..|lines|] == lines;
  }

  /** Plain text followed by one line break is an ended line. */
  lemma PlainThenBreak(line: string, n: nat)
    requires n < |line| && PlainUpTo(line, n)
    requires (|line| == n + 1 && IsBreak(line[n])) || (|line| == n + 2 && line[n] == '\r' && line[n + 1] == '\n')
    ensures Ended(line) && ContentLength(line) == n
  {
    assert n > 0 ==> !IsBreak(line[n - 1]);
  }

  /** Appending a line keeps the loop's state if the line before it cannot claim its start. */
  lemma AppendLine(source: string, lines: seq<string>, start: nat, end: nat, line: string)
    requires Splitting(source, lines, start, start) && start < end <= |source| && line == source[start..end] && Ended(line)
    requires line[|line| - 1] == '\r' && end < |source| ==> source[end] != '\n'
    ensures Splitting(source, lines + [line], end, end)
  {
    hide Ended;
    ConcatAppend(lines, line);
    assert source[..end] == source[..start] + line;
    var more := lines + [line];
    assert line[0] == source[start];
    forall i | 0 <= i < |more| - 1 && EndsInCr(more[i]) ensures !StartsWithLf(more[i + 1]) {
      assert more[i] == lines[i];
    }
  }

  /** Closing the current line at its break. */
  lemma CloseLine(source: string, lines: seq<string>, start: nat, index: nat, end: nat)
    requires Splitting(source, lines, start, index) && index < end <= |source|
    requires (end == index + 1 && IsBreak(source[index]) && (source[index] == '\r' && end < |source| ==> source[end] != '\n'))
          || (end == index + 2 && source[index] == '\r' && source[index + 1] == '\n')
    ensures Splitting(source, lines + [source[start..end]], end, end)
  {
    hide Ended;
    var line := source[start..end];
    assert forall i :: 0 <= i < |line| ==> line[i] == source[start + i];
    PlainThenBreak(line, index - start);
    AppendLine(source, lines, start, end, line);
  }

  /** split_physical_lines */
  method SplitPhysicalLines(source: string) returns (lines: seq<string>)
    ensures Concat(lines) == source && IsSplit(lines)
  {
    lines := [];
    var start, index := 0, 0;
    while index < |source|
      invariant Splitting(source, lines, start, index)
      decreases |source| - index
    {
      var c := source[index];
      ghost var at := index;
      if c == '\r' {
        index := index + 1;
        if index < |source| && source[index] == '\n' { index := index + 1; }
        CloseLine(source, lines, start, at, index);
        lines := lines + [source[start..index]];
        start := index;
      } else if c == '\n' {
        index := index + 1;
        CloseLine(source, lines, start, at, index);
        lines := lines + [source[start..index]];
        start := index;
      } else {
        index := index + 1;
      }
    }
    assert source[..|source|] == source;
    if start < |source| {
      ghost var before := lines;
      LastLine(source, lines, start);
      lines := lines + [source[start..]];
    }
  }

  lemma PlainIsPhysical(line: string)
    requires PlainUpTo(line, |line|)
    ensures IsPhysicalLine(line)
  {
  }

  lemma LastLine(source: string, lines: seq<string>, start: nat)
    requires Splitting(source, lines, start, |source|) && start < |source|
    ensures Concat(lines + [source[start..]]) == source && IsSplit(lines + [source[start..]])
  {
    hide IsPhysicalLine, ContentLength, Concat;
    var line := source[start..];
    ConcatAppend(lines, line);
    assert source == source[..start] + line;
    assert forall i :: 0 <= i < |line| ==> line[i] == source[start + i];
    PlainIsPhysical(line);
    var more := lines + [line];
    forall i | 0 <= i < |lines| ensures Ended(more[i]) && more[i] != "" && IsPhysicalLine(more[i]) {
      assert more[i] == lines[i];
    }
    forall i | 0 <= i < |more| - 1 && EndsInCr(more[i]) ensures !StartsWithLf(more[i + 1]) {
      assert more[i] == lines[i];
    }
  }

  // ---------------------------------------------------------------- uniqueness

  lemma {:induction false} ConcatCons(line: string, lines: seq<string>)
    ensures Concat([line] + lines) == line + Concat(lines)
  {
    if lines == [] {
      assert [line] + lines == [] + [line];
      ConcatAppend([], line);
    } else {
      var front, last := lines[..|lines| - 1], lines[|lines| - 1];
      ConcatCons(line, front);
      assert ([line] + lines)[..|lines|] == [line] + front;
    }
  }

  /** A line break inside a physical line is the CR of its CRLF. */
  lemma InnerBreak(line: string, n: nat)
    requires IsPhysicalLine(line) && 0 < n < |line| && IsBreak(line[n - 1])
    ensures line[n - 1] == '\r' && line[n] == '\n'
  {
  }

  /** What the concatenation shows right after a first line that is not the last. */
  lemma NextStarts(lines: seq<string>)
    requires IsSplit(lines) && |lines| >= 2
    ensures var n := |lines[0]|; n < |Concat(lines)| && Concat(lines)[n] == lines[1][0] && Concat(lines)[..n] == lines[0]
  {
    assert lines == [lines[0]] + lines[1..] && lines[1..] == [lines[1]] + lines[2..];
    ConcatCons(lines[0], lines[1..]);
    ConcatCons(lines[1], lines[2..]);
  }

  lemma StartsWithFirst(lines: seq<string>)
    requires lines != []
    ensures |lines[0]| <= |Concat(lines)| && Concat(lines)[..|lines[0]|] == lines[0]
    ensures |lines| == 1 ==> Concat(lines) == lines[0]
  {
    assert lines == [lines[0]] + lines[1..];
    ConcatCons(lines[0], lines[1..]);
  }

  /** The first line of a split is determined by the text. */
  lemma FirstLineUnique(a: seq<string>, b: seq<string>)
    requires IsSplit(a) && IsSplit(b) && a != [] && b != [] && Concat(a) == Concat(b)
    ensures |a[0]| <= |b[0]|
  {
    hide Concat, IsPhysicalLine, ContentLength;
    var source, n := Concat(a), |b[0]|;
    StartsWithFirst(a);
    StartsWithFirst(b);
    if |a[0]| > n {
      NextStarts(b);
      assert Ended(b[0]) && b[0][n - 1] == source[n - 1] == a[0][n - 1] && a[0][n] == source[n];
      InnerBreak(a[0], n);
    }
  }

  /** There is one way to split a text into physical lines. */
  lemma {:induction false} SplitUnique(a: seq<string>, b: seq<string>)
    requires IsSplit(a) && IsSplit(b) && Concat(a) == Concat(b)
    ensures a == b
  {
    if a == [] || b == [] {
      EmptyOnly(a);
      EmptyOnly(b);
    } else {
      FirstLineUnique(a, b);
      FirstLineUnique(b, a);
      assert a == [a[0]] + a[1..] && b == [b[0]] + b[1..];
      ConcatCons(a[0], a[1..]);
      ConcatCons(b[0], b[1..]);
      assert Concat(a)[..|a[0]|] == a[0] && Concat(b)[..|b[0]|] == b[0];
      assert Concat(a)[|a[0]|..] == Concat(a[1..]) && Concat(b)[|b[0]|..] == Concat(b[1..]);
      SplitTail(a);
      SplitTail(b);
      SplitUnique(a[1..], b[1..]);
    }
  }

  lemma SplitTail(lines: seq<string>)
    requires IsSplit(lines) && lines != []
    ensures IsSplit(lines[1..])
  {
    var tail := lines[1..];
    forall i | 0 <= i < |tail| - 1 ensures Ended(tail[i]) && (EndsInCr(tail[i]) ==> !StartsWithLf(tail[i + 1])) {
      assert tail[i] == lines[i + 1] && tail[i + 1] == lines[i + 2];
    }
  }

  lemma EmptyOnly(lines: seq<string>)
    requires IsSplit(lines)
    ensures Concat(lines) == "" <==> lines == []
  {
    if lines != [] { assert lines[|lines| - 1] != ""; }
  }
}
