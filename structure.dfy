/**
 * Splitting the body of a block: an `if` body into its branches at
 * `{{#elseif ...}}` and `{{#else}}`, and a block helper body into its main
 * and inverse parts at `{{else}}`. Neither looks at nesting: the markers are
 * found by plain text search over the whole body.
 */
module Structure {
  import opened Common
  import opened Strings
  import opened Markers

  datatype ElseIf = ElseIf(condition: string, content: string)
  datatype IfElse = IfElse(ifContent: string, elseifs: seq<ElseIf>, elseContent: string)

  /** One match of `/\{\{#elseif\s+([^}]+)\}\}/g`: trimmed condition, offset and length. */
  datatype ElseifTag = ElseifTag(condition: string, index: nat, length: nat)

  const ElseifProbe: Probe := Keyword("#elseif")
  const ElseMarker: string := "{{#else}}"

  /** Bounds every span reported by a scan of `c` keeps. */
  predicate InBounds(c: string, m: Span) {
    m.at < m.end <= |c| && m.capStart <= m.capEnd <= |c|
  }

  /** The tag reported for one match span of the elseif pattern: its trimmed capture, offset and length. */
  function TagAt(c: string, m: Span): (tag: ElseifTag)
    requires InBounds(c, m)
    ensures tag.index == m.at && tag.index + tag.length == m.end
  {
    ElseifTag(Trim(c[m.capStart..m.capEnd]), m.at, m.end - m.at)
  }

  /** The tags of a run of match spans. */
  function TagsOf(c: string, ms: seq<Span>): (ts: seq<ElseifTag>)
    requires forall k :: 0 <= k < |ms| ==> InBounds(c, ms[k])
    ensures |ts| == |ms|
  {
    if ms == [] then [] else TagsOf(c, ms[..|ms| - 1]) + [TagAt(c, ms[|ms| - 1])]
  }

  /** The elseif tags of a body, in text order: every match of the global elseif pattern. */
  function ElseifTags(c: string): seq<ElseifTag> {
    TagsOf(c, Scan(ElseifProbe, c, 0))
  }

  /** Where elseif branch `i` ends: the next elseif tag, else the `{{#else}}`, else the end of the body. */
  function NextBoundary(ms: seq<ElseifTag>, i: nat, elseIndex: int, n: nat): int
    requires i < |ms|
  {
    if i + 1 < |ms| then ms[i + 1].index else if elseIndex >= 0 then elseIndex else n
  }

  /** The branch of elseif `i`: its condition, and the text from the end of its tag to the next boundary, trimmed. */
  function BranchOf(c: string, ms: seq<ElseifTag>, i: nat, elseIndex: int): ElseIf
    requires i < |ms|
  {
    ElseIf(ms[i].condition, Trim(Slice(c, ms[i].index + ms[i].length, NextBoundary(ms, i, elseIndex, |c|))))
  }

  /** The first `n` elseif branches. */
  function Branches(c: string, ms: seq<ElseifTag>, n: nat, elseIndex: int): (bs: seq<ElseIf>)
    requires n <= |ms|
    ensures |bs| == n
  {
    if n == 0 then [] else Branches(c, ms, n - 1, elseIndex) + [BranchOf(c, ms, n - 1, elseIndex)]
  }

  /** The structure cut out of a body at given elseif tags and a given `{{#else}}` offset. */
  function CutAt(c: string, ms: seq<ElseifTag>, elseIndex: int): IfElse {
    if |ms| == 0 && elseIndex < 0 then IfElse(c, [], "")
    else
      var firstBoundary := if |ms| > 0 then ms[0].index else elseIndex;
      IfElse(
        Trim(Slice(c, 0, firstBoundary)),
        Branches(c, ms, |ms|, elseIndex),
        if elseIndex >= 0 && elseIndex + |ElseMarker| <= |c| then Trim(c[elseIndex + |ElseMarker|..]) else "")
  }

  /** The if-elseif-else structure of an `if` body. */
  function IfElseOf(c: string): IfElse {
    CutAt(c, ElseifTags(c), IndexOf(c, ElseMarker, 0))
  }

  /** The exec loop of the global elseif pattern: every match, in order, as a tag. */
  method CollectElseifTags(content: string) returns (elseifMatches: seq<ElseifTag>)
    ensures elseifMatches == ElseifTags(content)
  {
    elseifMatches := [];
    ghost var spans: seq<Span> := [];
    var lastIndex := 0;
    var match_ := FirstMatch(ElseifProbe, content, lastIndex);
    while match_.Some?
      invariant match_ == FirstMatch(ElseifProbe, content, lastIndex)
      invariant spans + Scan(ElseifProbe, content, lastIndex) == Scan(ElseifProbe, content, 0)
      invariant forall k :: 0 <= k < |spans| ==> InBounds(content, spans[k])
      invariant elseifMatches == TagsOf(content, spans)
      decreases |content| - lastIndex
    {
      var m := SpanAt(ElseifProbe, content, match_.value);
      CollectStep(content, spans, lastIndex, m);
      TagsOfSnoc(content, spans, m);
      elseifMatches := elseifMatches + [TagAt(content, m)];
      spans := spans + [m];
      lastIndex := m.end;
      match_ := FirstMatch(ElseifProbe, content, lastIndex);
    }
    assert spans == Scan(ElseifProbe, content, 0);
  }

  /** One turn of the exec loop: the match found extends the spans, and the scan resumes where it ends. */
  lemma CollectStep(c: string, spans: seq<Span>, from: nat, m: Span)
    requires FirstMatch(ElseifProbe, c, from).Some?
    requires m == SpanAt(ElseifProbe, c, FirstMatch(ElseifProbe, c, from).value)
    requires spans + Scan(ElseifProbe, c, from) == Scan(ElseifProbe, c, 0)
    ensures from < m.end
    ensures (spans + [m]) + Scan(ElseifProbe, c, m.end) == Scan(ElseifProbe, c, 0)
  {
    var rest := Scan(ElseifProbe, c, m.end);
    assert Scan(ElseifProbe, c, from) == [m] + rest by {
      ScanStep(ElseifProbe, c, from);
    }
    assert (spans + [m]) + rest == spans + ([m] + rest);
  }

  /** Adding a span in bounds keeps every span in bounds, and adds its tag at the end. */
  lemma TagsOfSnoc(c: string, spans: seq<Span>, m: Span)
    requires forall k :: 0 <= k < |spans| ==> InBounds(c, spans[k])
    requires InBounds(c, m)
    ensures forall k :: 0 <= k < |spans| + 1 ==> InBounds(c, (spans + [m])[k])
    ensures TagsOf(c, spans + [m]) == TagsOf(c, spans) + [TagAt(c, m)]
  {
    assert (spans + [m])[..|spans|] == spans;
  }

  /**
   * The splitter as the engine runs it: collect every elseif match with the
   * global pattern, find the first `{{#else}}`, then cut the body at those
   * offsets and trim every piece.
   */
  method ParseIfElseStructure(content: string) returns (r: IfElse)
    ensures r == IfElseOf(content)
  {
    var elseifMatches := CollectElseifTags(content);
    var elseIndex := IndexOf(content, ElseMarker, 0);
    r := CutBranches(content, elseifMatches, elseIndex);
  }

  /** The cutting half of the splitter: the if-branch, each elseif branch in turn, the else-branch. */
  method CutBranches(content: string, elseifMatches: seq<ElseifTag>, elseIndex: int) returns (r: IfElse)
    ensures r == CutAt(content, elseifMatches, elseIndex)
  {
    var ifContent := content;
    var elseifConditions: seq<ElseIf> := [];
    var elseContent := "";
    if |elseifMatches| > 0 || elseIndex >= 0 {
      var firstBoundary := if |elseifMatches| > 0 then elseifMatches[0].index else elseIndex;
      if firstBoundary >= 0 {
        ifContent := Trim(Slice(content, 0, firstBoundary));
      }
      elseifConditions := CutElseifs(content, elseifMatches, elseIndex);
      if elseIndex >= 0 && elseIndex + |ElseMarker| <= |content| {
        elseContent := Trim(content[elseIndex + |ElseMarker|..]);
      }
    }
    r := IfElse(ifContent, elseifConditions, elseContent);
  }

  /** The loop over the elseif matches: branch `i` runs from the end of its tag to the next boundary. */
  method CutElseifs(content: string, elseifMatches: seq<ElseifTag>, elseIndex: int) returns (bs: seq<ElseIf>)
    ensures bs == Branches(content, elseifMatches, |elseifMatches|, elseIndex)
  {
    bs := [];
    for i := 0 to |elseifMatches|
      invariant bs == Branches(content, elseifMatches, i, elseIndex)
    {
      var m := elseifMatches[i];
      var nextBoundary := if i + 1 < |elseifMatches| then elseifMatches[i + 1].index
        else if elseIndex >= 0 then elseIndex else |content|;
      var elseifContent := Trim(Slice(content, m.index + m.length, nextBoundary));
      assert nextBoundary == NextBoundary(elseifMatches, i, elseIndex, |content|);
      BranchStep(content, elseifMatches, i, elseIndex, ElseIf(m.condition, elseifContent));
      bs := bs + [ElseIf(m.condition, elseifContent)];
    }
  }

  lemma BranchStep(c: string, ms: seq<ElseifTag>, i: nat, elseIndex: int, b: ElseIf)
    requires i < |ms| && b == BranchOf(c, ms, i, elseIndex)
    ensures Branches(c, ms, i + 1, elseIndex) == Branches(c, ms, i, elseIndex) + [b]
  {
  }

  /** A body with neither marker is the if-branch as it is, untrimmed, with an empty else. */
  lemma NoMarkersKeepsBody(c: string)
    requires forall j :: !MatchAt(ElseifProbe, c, j)
    requires !Contains(c, ElseMarker)
    ensures IfElseOf(c) == IfElse(c, [], "")
  {
    IndexOfContains(c, ElseMarker);
    assert FirstMatch(ElseifProbe, c, 0).None?;
  }

  lemma {:induction false} TagsOfIndex(c: string, ms: seq<Span>, k: nat)
    requires forall i :: 0 <= i < |ms| ==> InBounds(c, ms[i])
    requires k < |ms|
    ensures TagsOf(c, ms)[k] == TagAt(c, ms[k])
    decreases |ms|
  {
    var init := ms[..|ms| - 1];
    if k < |ms| - 1 {
      TagsOfIndex(c, init, k);
      assert init[k] == ms[k];
    }
  }

  lemma {:induction false} BranchesIndex(c: string, ms: seq<ElseifTag>, n: nat, elseIndex: int, k: nat)
    requires k < n <= |ms|
    ensures Branches(c, ms, n, elseIndex)[k] == BranchOf(c, ms, k, elseIndex)
    decreases n
  {
    if k < n - 1 {
      BranchesIndex(c, ms, n - 1, elseIndex, k);
    }
  }

  /** The elseif tags follow one another without overlapping. */
  lemma ElseifTagsOrdered(c: string)
    ensures var ts := ElseifTags(c);
      forall k :: 0 <= k < |ts| - 1 ==> ts[k].index + ts[k].length <= ts[k + 1].index
  {
    var ms := Scan(ElseifProbe, c, 0);
    var ts := ElseifTags(c);
    forall i | 0 <= i < |ts| - 1 ensures ts[i].index + ts[i].length <= ts[i + 1].index {
      TagsOfIndex(c, ms, i);
      TagsOfIndex(c, ms, i + 1);
    }
  }

  /** Every match of the elseif pattern in the body is a reported tag or lies inside one. */
  lemma ElseifTagsCover(c: string, j: nat)
    requires MatchAt(ElseifProbe, c, j)
    ensures var ts := ElseifTags(c);
      exists k :: 0 <= k < |ts| && ts[k].index <= j < ts[k].index + ts[k].length
  {
    var ms := Scan(ElseifProbe, c, 0);
    ScanComplete(ElseifProbe, c, 0, j);
    var k :| 0 <= k < |ms| && ms[k].at <= j < ms[k].end;
    var ts := ElseifTags(c);
    assert ts[k] == TagAt(c, ms[k]) by {
      TagsOfIndex(c, ms, k);
    }
    assert ts[k].index <= j < ts[k].index + ts[k].length;
  }

  /** One elseif branch per elseif match, in order, carrying that match's trimmed condition. */
  lemma ElseifBranches(c: string, k: nat)
    requires k < |Scan(ElseifProbe, c, 0)|
    ensures var m := Scan(ElseifProbe, c, 0)[k];
      |IfElseOf(c).elseifs| == |Scan(ElseifProbe, c, 0)|
      && MatchAt(ElseifProbe, c, m.at)
      && IfElseOf(c).elseifs[k].condition == Payload(ElseifProbe, c, m.at)
  {
    var ms := Scan(ElseifProbe, c, 0);
    var ts := ElseifTags(c);
    TagsOfIndex(c, ms, k);
    ScanSpans(ElseifProbe, c, 0, k);
    BranchesIndex(c, ts, |ts|, IndexOf(c, ElseMarker, 0), k);
  }

  /** The else-branch is the trimmed text after the first `{{#else}}`, whatever follows it. */
  lemma ElseBranch(c: string)
    ensures var i := IndexOf(c, ElseMarker, 0);
      IfElseOf(c).elseContent == if i >= 0 then Trim(c[i + |ElseMarker|..]) else ""
  {
  }

  /** Every part of the structure is no longer than `n`. */
  predicate PartsWithin(r: IfElse, n: nat) {
    |r.ifContent| <= n && |r.elseContent| <= n
    && forall k :: 0 <= k < |r.elseifs| ==> |r.elseifs[k].content| <= n
  }

  /** Each branch is cut out of the body, so none is longer than the body. */
  lemma IfElseWithin(c: string)
    ensures PartsWithin(IfElseOf(c), |c|)
  {
    var ts := ElseifTags(c);
    var e := IndexOf(c, ElseMarker, 0);
    var r := IfElseOf(c);
    if |ts| > 0 || e >= 0 {
      var firstBoundary := if |ts| > 0 then ts[0].index else e;
      assert |r.ifContent| <= |c| by {
        SliceWithin(c, 0, firstBoundary);
      }
      assert r.elseifs == Branches(c, ts, |ts|, e);
      forall k | 0 <= k < |r.elseifs| ensures |r.elseifs[k].content| <= |c| {
        BranchWithin(c, ts, e, k);
      }
    }
  }

  lemma BranchWithin(c: string, ts: seq<ElseifTag>, e: int, k: nat)
    requires k < |ts|
    ensures |Branches(c, ts, |ts|, e)[k].content| <= |c|
  {
    BranchesIndex(c, ts, |ts|, e, k);
    SliceWithin(c, ts[k].index + ts[k].length, NextBoundary(ts, k, e, |c|));
  }

  const InverseMarker: string := "{{else}}"

  datatype BlockParts = BlockParts(mainContent: string, elseContent: string)

  /** Splitting a block helper body at its first `{{else}}`. */
  function BlockHelperStructure(c: string): (r: BlockParts)
    ensures IndexOf(c, InverseMarker, 0) < 0 ==> r == BlockParts(c, "")
    ensures !Contains(r.mainContent, InverseMarker)
    ensures |r.mainContent| <= |c| && |r.elseContent| <= |c|
  {
    var i := IndexOf(c, InverseMarker, 0);
    if i >= 0 then
      NoOccurrenceInPart(c, InverseMarker, i);
      BlockParts(Trim(c[..i]), Trim(c[i + |InverseMarker|..]))
    else
      IndexOfContains(c, InverseMarker);
      BlockParts(c, "")
  }

  /** Text before the first occurrence of a pattern, and anything cut out of it, does not contain the pattern. */
  lemma NoOccurrenceInPart(c: string, p: string, i: nat)
    requires |p| > 0 && i <= |c| && i == IndexOf(c, p, 0)
    ensures !Contains(Trim(c[..i]), p)
  {
    var a := TrimPiece(c[..i]);
    var r := Trim(c[..i]);
    SliceOfPrefix(c, i, a, a + |r|);
    NoOccurrenceBefore(c, p, a, a + |r|, i);
  }

  lemma NoOccurrenceBefore(c: string, p: string, a: nat, b: nat, i: nat)
    requires |p| > 0 && a <= b <= i <= |c| && i == IndexOf(c, p, 0)
    ensures !Contains(c[a..b], p)
  {
    IndexOfFirst(c, p, 0);
    NoOccurrenceInSlice(c, p, a, b, i);
  }

  lemma NoOccurrenceInSlice(c: string, p: string, a: nat, b: nat, i: nat)
    requires |p| > 0 && a <= b <= i <= |c|
    requires forall j :: 0 <= j < i ==> !StartsWithAt(c, j, p)
    ensures !Contains(c[a..b], p)
  {
    var r := c[a..b];
    forall j | 0 <= j <= |r| ensures !StartsWithAt(r, j, p) {
      assert r[j..] == c[a + j..b];
      assert a + j < i ==> !StartsWithAt(c, a + j, p);
    }
  }

  /**
   * Text following the `{{else}}` goes to the inverse part, the text before
   * it to the main part: each is the trimmed piece on its side.
   */
  lemma BlockHelperSplit(c: string)
    requires IndexOf(c, InverseMarker, 0) >= 0
    ensures var i := IndexOf(c, InverseMarker, 0);
      c == c[..i] + InverseMarker + c[i + |InverseMarker|..]
      && BlockHelperStructure(c) == BlockParts(Trim(c[..i]), Trim(c[i + |InverseMarker|..]))
  {
    var i := IndexOf(c, InverseMarker, 0);
    assert c[i..i + |InverseMarker|] == InverseMarker;
  }
}
