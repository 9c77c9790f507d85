/**
 * The position tracker used for diagnostics: it splits the template at
 * newlines once, records where every line starts, maps an offset to a
 * 1-based (line, column) and renders the lines around an offset.
 */
module Lines {
  import opened Common
  import opened Strings

  /** Offset at which line `i` (counted from 0) starts: every earlier line plus its newline. */
  function StartOf(lines: seq<string>, i: nat): nat
    requires i <= |lines|
  {
    if i == 0 then 0 else StartOf(lines, i - 1) + |lines[i - 1]| + 1
  }

  /** How many of the recorded line starts lie at or before `index`. */
  function CountAtMost(starts: seq<int>, index: int): nat
    ensures CountAtMost(starts, index) <= |starts|
  {
    if starts == [] then 0
    else CountAtMost(starts[..|starts| - 1], index) + (if starts[|starts| - 1] <= index then 1 else 0)
  }

  function CountChar(s: string, c: char): nat {
    if s == [] then 0 else CountChar(s[..|s| - 1], c) + (if s[|s| - 1] == c then 1 else 0)
  }

  function Max(a: int, b: int): int { if a < b then b else a }
  function Min(a: int, b: int): int { if a < b then a else b }

  /** One line of a diagnostic context: the marker, the 1-based line number and the text. */
  function ContextEntry(lines: seq<string>, i: int, line: int): string
    requires 1 <= i <= |lines|
  {
    (if i == line then ">>> " else "    ") + NatToString(i) + ": " + lines[i - 1]
  }

  /** The lines from `line - radius` to `line + radius`, clipped to the text. */
  function ContextWindow(lines: seq<string>, line: int, radius: nat): seq<string>
  {
    var first := Max(1, line - radius);
    var last := Min(|lines|, line + radius);
    if last < first then []
    else seq(last - first + 1, k requires 0 <= k < last - first + 1 => ContextEntry(lines, first + k, line))
  }

  predicate Increasing(starts: seq<int>) {
    forall a, b :: 0 <= a < b < |starts| ==> starts[a] < starts[b]
  }

  /**
   * The line search of the tracker: walk the increasing line starts while
   * they are at or before `index`; the line is how many were passed, at least 1.
   */
  method FindLine(starts: seq<int>, index: int) returns (line: int)
    requires |starts| > 0 && Increasing(starts)
    ensures line == Max(1, CountAtMost(starts, index))
    ensures 1 <= line <= |starts|
    ensures index >= starts[0] ==> starts[line - 1] <= index
    ensures line < |starts| ==> index < starts[line]
  {
    line := 1;
    var i := 0;
    while i < |starts|
      invariant 0 <= i <= |starts|
      invariant 1 <= line <= Max(1, i)
      invariant i > 0 ==> line == i && starts[i - 1] <= index
      invariant i > 0 ==> CountAtMost(starts[..i], index) == i
      invariant i == 0 ==> line == 1
    {
      if index < starts[i] {
        break;
      }
      assert starts[..i + 1][..i] == starts[..i];
      line := i + 1;
      i := i + 1;
    }
    CountPrefix(starts, i, index);
  }

  class LineTracker {
    var lines: seq<string>
    var linePositions: seq<int>
    /** The template the tracker was built from. */
    ghost var text: string

    ghost predicate Valid()
      reads this
    {
      lines == Split(text, '\n')
      && |linePositions| == |lines|
      && forall i :: 0 <= i < |lines| ==> linePositions[i] == StartOf(lines, i)
    }

    /** Splits the template at newlines and records the offset where each line starts. */
    constructor (template: string)
      ensures Valid() && text == template
    {
      var ls := Split(template, '\n');
      var starts := LineStarts(ls);
      text := template;
      lines := ls;
      linePositions := starts;
    }

    /** The 1-based line of `index`: the number of line starts at or before it, at least 1. */
    ghost function LineOf(index: int): int
      reads this
    {
      Max(1, CountAtMost(linePositions, index))
    }

    /**
     * The 1-based line and column of an offset: the line is the last one
     * starting at or before the offset, and the column counts from that start.
     */
    method GetPosition(index: int) returns (line: int, column: int)
      requires Valid()
      ensures line == LineOf(index)
      ensures 1 <= line <= |lines|
      ensures index >= 0 ==> linePositions[line - 1] <= index
      ensures line < |lines| ==> index < linePositions[line]
      ensures column == index - linePositions[line - 1] + 1
      ensures index >= 0 ==> column >= 1
    {
      assert Increasing(linePositions) && linePositions[0] == 0 by {
        StartsIncrease(lines);
      }
      line := FindLine(linePositions, index);
      column := index - linePositions[line - 1] + 1;
    }

    /** The recorded text of a 1-based line, or "" for a line that does not exist. */
    function LineContent(line: int): (r: string)
      reads this
      requires Valid()
      ensures '\n' !in r
      ensures 1 <= line <= |lines| ==>
        0 <= linePositions[line - 1] && linePositions[line - 1] + |r| <= |text|
        && r == text[linePositions[line - 1]..linePositions[line - 1] + |r|]
    {
      if 1 <= line <= |lines| then
        LineInText(text, line - 1);
        lines[line - 1]
      else ""
    }

    /**
     * The diagnostic context of an offset: the lines within `radius` of its
     * line, one per row, with that line marked `>>> `.
     */
    method GetContext(index: int, radius: nat) returns (r: string)
      requires Valid()
      ensures r == Join(ContextWindow(lines, LineOf(index), radius), '\n')
    {
      var line, _ := GetPosition(index);
      var contextText := ContextLines(lines, line, radius);
      r := Join(contextText, '\n');
    }
  }

  /** The start offsets of the lines: 0, then one past each line and its newline. */
  method LineStarts(ls: seq<string>) returns (starts: seq<int>)
    requires |ls| >= 1
    ensures |starts| == |ls|
    ensures forall i :: 0 <= i < |ls| ==> starts[i] == StartOf(ls, i)
  {
    starts := [0];
    var pos := 0;
    for i := 0 to |ls| - 1
      invariant |starts| == i + 1
      invariant pos == StartOf(ls, i)
      invariant forall k :: 0 <= k <= i ==> starts[k] == StartOf(ls, k)
    {
      pos := pos + |ls[i]| + 1;
      starts := starts + [pos];
    }
  }

  /** The numbered lines around `line`, built one row at a time. */
  method ContextLines(lines: seq<string>, line: int, radius: nat) returns (r: seq<string>)
    ensures r == ContextWindow(lines, line, radius)
  {
    var first := Max(1, line - radius);
    var last := Min(|lines|, line + radius);
    r := [];
    var i := first;
    while i <= last
      invariant first <= i <= Max(first, last + 1)
      invariant |r| == i - first
      invariant forall k :: 0 <= k < i - first ==> r[k] == ContextEntry(lines, first + k, line)
    {
      var prefix := if i == line then ">>> " else "    ";
      r := r + [prefix + NatToString(i) + ": " + lines[i - 1]];
      i := i + 1;
    }
  }

  /** Line `k` of a text sits in the text at its start offset. */
  lemma LineInText(text: string, k: nat)
    requires k < |Split(text, '\n')|
    ensures var lines := Split(text, '\n');
      StartOf(lines, k) + |lines[k]| <= |text|
      && text[StartOf(lines, k)..StartOf(lines, k) + |lines[k]|] == lines[k]
  {
    JoinSplit(text, '\n');
    Layout(Split(text, '\n'), k, '\n');
  }

  lemma {:induction false} CountPrefix(starts: seq<int>, i: nat, index: int)
    requires i <= |starts|
    requires Increasing(starts)
    requires i > 0 ==> CountAtMost(starts[..i], index) == i
    requires i < |starts| ==> index < starts[i]
    ensures CountAtMost(starts, index) == i
    decreases |starts| - i
  {
    if i < |starts| {
      var n := |starts|;
      assert starts[..n] == starts;
      CountNoneAbove(starts, i, index);
    } else {
      assert starts[..i] == starts;
    }
  }

  lemma {:induction false} CountNoneAbove(starts: seq<int>, i: nat, index: int)
    requires i < |starts|
    requires Increasing(starts)
    requires i > 0 ==> CountAtMost(starts[..i], index) == i
    requires index < starts[i]
    ensures CountAtMost(starts, index) == i
    decreases |starts|
  {
    var n := |starts|;
    if n - 1 == i {
      if i == 0 {
        assert starts[..0] == [];
      }
      assert starts[..n - 1] == starts[..i];
    } else {
      assert starts[n - 1] > starts[i] > index;
      var p := starts[..n - 1];
      assert p[..i] == starts[..i];
      CountNoneAbove(p, i, index);
    }
  }

  /** Line starts strictly increase: each line start is past the previous line and its newline. */
  lemma StartsIncrease(lines: seq<string>)
    ensures forall a, b :: 0 <= a < b <= |lines| ==> StartOf(lines, a) < StartOf(lines, b)
  {
    forall a, b | 0 <= a < b <= |lines| ensures StartOf(lines, a) < StartOf(lines, b) {
      StartsIncreaseFrom(lines, a, b);
    }
  }

  lemma {:induction false} StartsIncreaseFrom(lines: seq<string>, a: nat, b: nat)
    requires a < b <= |lines|
    ensures StartOf(lines, a) < StartOf(lines, b)
    decreases b - a
  {
    if a + 1 < b {
      StartsIncreaseFrom(lines, a, b - 1);
    }
  }

  lemma {:induction false} StartOfTail(parts: seq<string>, i: nat)
    requires 1 <= i <= |parts|
    ensures StartOf(parts, i) == |parts[0]| + 1 + StartOf(parts[1..], i - 1)
  {
    if i > 1 {
      StartOfTail(parts, i - 1);
    }
  }

  /**
   * Where the parts sit in their join: part `i` starts at `StartOf(parts, i)`,
   * and is followed by the separator, or by the end of the text for the last part.
   */
  lemma {:induction false} Layout(parts: seq<string>, i: nat, c: char)
    requires i < |parts|
    ensures StartOf(parts, i) + |parts[i]| <= |Join(parts, c)|
    ensures Join(parts, c)[StartOf(parts, i)..StartOf(parts, i) + |parts[i]|] == parts[i]
    ensures i + 1 < |parts| ==>
      StartOf(parts, i) + |parts[i]| < |Join(parts, c)| && Join(parts, c)[StartOf(parts, i) + |parts[i]|] == c
    ensures i + 1 == |parts| ==> StartOf(parts, i) + |parts[i]| == |Join(parts, c)|
  {
    if |parts| > 1 {
      var rest := Join(parts[1..], c);
      assert Join(parts, c) == parts[0] + [c] + rest;
      if i > 0 {
        Layout(parts[1..], i - 1, c);
        StartOfTail(parts, i);
      }
    }
  }

  lemma CountCharAppend(a: string, b: string, c: char)
    ensures CountChar(a + b, c) == CountChar(a, c) + CountChar(b, c)
    decreases |b|
  {
    if b != [] {
      assert (a + b)[..|a + b| - 1] == a + b[..|b| - 1];
      CountCharAppend(a, b[..|b| - 1], c);
    } else {
      assert a + b == a;
    }
  }

  lemma {:induction false} CountCharAbsent(s: string, c: char)
    requires c !in s
    ensures CountChar(s, c) == 0
  {
    if s != [] {
      assert s[|s| - 1] in s;
      CountCharAbsent(s[..|s| - 1], c);
    }
  }

  /** Exactly `k` separators precede the start of part `k` in a join of separator-free parts. */
  lemma {:induction false} CountBeforeStart(parts: seq<string>, k: nat, c: char)
    requires k < |parts|
    requires forall j :: 0 <= j < |parts| ==> c !in parts[j]
    ensures StartOf(parts, k) <= |Join(parts, c)|
    ensures CountChar(Join(parts, c)[..StartOf(parts, k)], c) == k
  {
    var text := Join(parts, c);
    if k == 0 {
      assert text[..0] == [];
    } else {
      var s := StartOf(parts, k - 1);
      var p := parts[k - 1];
      CountBeforeStart(parts, k - 1, c);
      assert s + |p| < |text| && text[..s + |p| + 1] == text[..s] + p + [c] by {
        Layout(parts, k - 1, c);
      }
      assert c !in p;
      CountStep(text, s, p, c, k - 1);
    }
  }

  /** A separator-free part followed by one separator adds exactly one separator to the count. */
  lemma CountStep(text: string, s: nat, p: string, c: char, n: nat)
    requires s + |p| < |text| && text[..s + |p| + 1] == text[..s] + p + [c]
    requires CountChar(text[..s], c) == n && c !in p
    ensures CountChar(text[..s + |p| + 1], c) == n + 1
  {
    CountCharAppend(text[..s] + p, [c], c);
    CountCharAppend(text[..s], p, c);
    CountCharAbsent(p, c);
    assert CountChar([c], c) == CountChar([], c) + 1;
  }

  /**
   * The line a tracker reports agrees with counting newlines: for an offset
   * inside the text, line `l` is the one preceded by exactly `l - 1` newlines,
   * and the column is one more than the distance from the last newline.
   */
  lemma LineIsNewlineCount(t: LineTracker, index: int, line: int)
    requires t.Valid() && 0 <= index <= |t.text|
    requires 1 <= line <= |t.lines|
    requires t.linePositions[line - 1] <= index
    requires line < |t.lines| ==> index < t.linePositions[line]
    ensures line == 1 + CountChar(t.text[..index], '\n')
    ensures '\n' !in t.text[t.linePositions[line - 1]..index]
  {
    JoinSplit(t.text, '\n');
    LineInJoin(t.lines, '\n', index, line);
  }

  lemma LineInJoin(parts: seq<string>, c: char, index: int, line: int)
    requires forall j :: 0 <= j < |parts| ==> c !in parts[j]
    requires 1 <= line <= |parts|
    requires StartOf(parts, line - 1) <= index <= |Join(parts, c)|
    requires line < |parts| ==> index < StartOf(parts, line)
    ensures line == 1 + CountChar(Join(parts, c)[..index], c)
    ensures c !in Join(parts, c)[StartOf(parts, line - 1)..index]
  {
    var text := Join(parts, c);
    var s := StartOf(parts, line - 1);
    var p := parts[line - 1];
    CountBeforeStart(parts, line - 1, c);
    Layout(parts, line - 1, c);
    assert index <= s + |p|;
    assert text[s..index] == p[..index - s];
    forall j | 0 <= j < index - s ensures text[s..index][j] != c {
      assert text[s..index][j] == p[j] && p[j] in p;
    }
    assert text[..index] == text[..s] + text[s..index];
    CountCharAppend(text[..s], text[s..index], c);
    CountCharAbsent(text[s..index], c);
  }

  /** The context window contains the offending line, marked, and no other marked line. */
  lemma ContextWindowMarksLine(lines: seq<string>, line: int, radius: nat)
    requires 1 <= line <= |lines|
    ensures var w := ContextWindow(lines, line, radius);
      var first := Max(1, line - radius);
      |w| == Min(|lines|, line + radius) - first + 1
      && |w| <= 2 * radius + 1
      && w[line - first] == ">>> " + NatToString(line) + ": " + lines[line - 1]
      && forall k :: 0 <= k < |w| && k != line - first ==> "    " <= w[k]
  {
    var w := ContextWindow(lines, line, radius);
    var first := Max(1, line - radius);
    assert w[line - first] == ContextEntry(lines, line, line);
    forall k | 0 <= k < |w| && k != line - first ensures "    " <= w[k] {
      assert w[k] == ContextEntry(lines, first + k, line);
    }
  }
}
