/**
 * The tag shapes the scanner looks for. Each regular expression of the
 * scanner is stated as the exact shape its leftmost match has:
 *
 *   Keyword(w)  `{{w\s+([^}]+)}}`            extends, component, #each, #if, #block, #elseif
 *   Partial     `{{>\s*([^}]+)}}`            a layout reference
 *   Triple      `{{{([^}]+)}}}`              a helper call without escaping
 *   Mustache    `{{([^#/>!][^}]*)}}`         a variable
 *   Opening     `{{#(\w+)(?:\s+([^}]*))?}}`  the opening tag of a block helper
 *
 * A `[^}]` run can only end at the first `}` after it starts, so every
 * shape is decided by where that `}` is. The captured text, once trimmed,
 * is the trimmed run: what the `\s+` or `\s*` in front of the group takes
 * is white space, which trimming drops anyway.
 */
module Markers {
  import opened Common
  import opened Strings

  /** Where a `[^}]*` run starting at `k` ends: the first `}` at or after `k`, or the end. */
  function RunEnd(t: string, k: nat): (e: nat)
    requires k <= |t|
    decreases |t| - k
    ensures k <= e <= |t|
    ensures e < |t| ==> t[e] == '}'
  {
    if k == |t| || t[k] == '}' then k else RunEnd(t, k + 1)
  }

  /** The run holds no `}`. */
  lemma {:induction false} RunEndNoBrace(t: string, k: nat)
    requires k <= |t|
    decreases |t| - k
    ensures forall j :: k <= j < RunEnd(t, k) ==> t[j] != '}'
  {
    if k < |t| && t[k] != '}' {
      RunEndNoBrace(t, k + 1);
    }
  }

  /** Where a `\w*` run starting at `k` ends. */
  function WordEnd(t: string, k: nat): (e: nat)
    requires k <= |t|
    decreases |t| - k
    ensures k <= e <= |t|
    ensures e < |t| ==> !IsWordChar(t[e])
  {
    if k == |t| || !IsWordChar(t[k]) then k else WordEnd(t, k + 1)
  }

  /** The run is made of word characters. */
  lemma {:induction false} WordEndWord(t: string, k: nat)
    requires k <= |t|
    decreases |t| - k
    ensures forall j :: k <= j < WordEnd(t, k) ==> IsWordChar(t[j])
  {
    if k < |t| && IsWordChar(t[k]) {
      WordEndWord(t, k + 1);
    }
  }

  /** `}}` at `e`, where a run ended. */
  predicate ClosedAt(t: string, e: nat) {
    e + 1 < |t| && t[e] == '}' && t[e + 1] == '}'
  }

  datatype Probe = Keyword(word: string) | Partial | Triple | Mustache | Opening

  predicate MatchAt(p: Probe, t: string, j: nat) {
    match p
    case Keyword(w) =>
      var k := j + 2 + |w|;
      StartsWithAt(t, j, "{{" + w) && k < |t| && IsSpace(t[k])
      && RunEnd(t, k) >= k + 2 && ClosedAt(t, RunEnd(t, k))
    case Partial =>
      StartsWithAt(t, j, "{{>") && RunEnd(t, j + 3) >= j + 4 && ClosedAt(t, RunEnd(t, j + 3))
    case Triple =>
      StartsWithAt(t, j, "{{{") && RunEnd(t, j + 3) >= j + 4 && ClosedAt(t, RunEnd(t, j + 3) + 1)
    case Mustache =>
      StartsWithAt(t, j, "{{") && j + 2 < |t| && t[j + 2] !in "#/>!" && ClosedAt(t, RunEnd(t, j + 3))
    case Opening =>
      StartsWithAt(t, j, "{{#") && WordEnd(t, j + 3) > j + 3 && OpeningRest(t, WordEnd(t, j + 3)).Some?
  }

  /**
   * What follows the name of a block helper: `}}` directly (no arguments), or
   * white space and a run closed by `}}`. Gives the offset of the closing `}}`.
   */
  function OpeningRest(t: string, k: nat): (r: Option<nat>)
    requires k <= |t|
    ensures r.Some? ==> k <= r.value && ClosedAt(t, r.value)
  {
    if ClosedAt(t, k) then Some(k)
    else if k < |t| && IsSpace(t[k]) && ClosedAt(t, RunEnd(t, k)) then Some(RunEnd(t, k))
    else None
  }

  /** Offset just past a match. */
  function MatchEnd(p: Probe, t: string, j: nat): (e: nat)
    requires MatchAt(p, t, j)
    ensures j < e <= |t|
  {
    match p
    case Keyword(w) => RunEnd(t, j + 2 + |w|) + 2
    case Partial => RunEnd(t, j + 3) + 2
    case Triple => RunEnd(t, j + 3) + 3
    case Mustache => RunEnd(t, j + 3) + 2
    case Opening => OpeningRest(t, WordEnd(t, j + 3)).value + 2
  }

  /** Where the captured group lies: from the end of the fixed prefix to the closing braces. */
  function CaptureStart(p: Probe, t: string, j: nat): (a: nat)
    requires MatchAt(p, t, j)
    ensures a <= CaptureEnd(p, t, j) <= |t|
  {
    match p
    case Keyword(w) => j + 2 + |w|
    case Partial => j + 3
    case Triple => j + 3
    case Mustache => j + 2
    case Opening => WordEnd(t, j + 3)
  }

  function CaptureEnd(p: Probe, t: string, j: nat): (b: nat)
    requires MatchAt(p, t, j)
    ensures b <= |t|
  {
    match p
    case Keyword(w) => RunEnd(t, j + 2 + |w|)
    case Partial => RunEnd(t, j + 3)
    case Triple => RunEnd(t, j + 3)
    case Mustache => RunEnd(t, j + 3)
    case Opening => OpeningRest(t, WordEnd(t, j + 3)).value
  }

  /** The captured text after `trim()`; for an opening tag, its trimmed arguments. */
  function Payload(p: Probe, t: string, j: nat): string
    requires MatchAt(p, t, j)
  {
    Trim(t[CaptureStart(p, t, j)..CaptureEnd(p, t, j)])
  }

  /** The name of a block helper at an opening tag: the whole `\w+` run. */
  function OpeningName(t: string, j: nat): (r: string)
    requires MatchAt(Opening, t, j)
    ensures |r| >= 1 && forall i :: 0 <= i < |r| ==> IsWordChar(r[i])
  {
    WordEndWord(t, j + 3);
    t[j + 3..WordEnd(t, j + 3)]
  }

  /** The leftmost match of a probe at or after `from`: what `String.prototype.match` reports. */
  function FirstMatch(p: Probe, t: string, from: nat): (r: Option<nat>)
    decreases |t| - from
    ensures r.Some? ==> from <= r.value < |t| && MatchAt(p, t, r.value)
  {
    if from >= |t| then None
    else if MatchAt(p, t, from) then Some(from)
    else FirstMatch(p, t, from + 1)
  }

  /** Nothing matches between `from` and the reported match, and nothing at all when none is reported. */
  lemma {:induction false} FirstMatchLeftmost(p: Probe, t: string, from: nat, j: nat)
    requires from <= j && MatchAt(p, t, j)
    ensures FirstMatch(p, t, from).Some? && FirstMatch(p, t, from).value <= j
    decreases j - from
  {
    if from < j && !MatchAt(p, t, from) {
      FirstMatchLeftmost(p, t, from + 1, j);
    }
  }

  /** Where a match starts and where it ends. */
  datatype Span = Span(at: nat, end: nat, capStart: nat, capEnd: nat)

  /** The spans follow one another without overlapping. */
  predicate Ordered(ms: seq<Span>) {
    forall k :: 0 <= k < |ms| - 1 ==> ms[k].end <= ms[k + 1].at
  }

  /**
   * The successive matches of a probe used as a global pattern: each search
   * resumes where the previous match ended, as `RegExp.prototype.exec` does
   * with the `g` flag.
   */
  function Scan(p: Probe, t: string, from: nat): (ms: seq<Span>)
    decreases |t| - from
    ensures forall k :: 0 <= k < |ms| ==> from <= ms[k].at && ms[k].at < ms[k].end <= |t| && ms[k].capStart <= ms[k].capEnd <= |t|
    ensures Ordered(ms)
  {
    match FirstMatch(p, t, from)
    case None => []
    case Some(j) => [SpanAt(p, t, j)] + Scan(p, t, MatchEnd(p, t, j))
  }

  /** The span of the match at `j`. */
  function SpanAt(p: Probe, t: string, j: nat): (m: Span)
    requires MatchAt(p, t, j)
    ensures m.at == j < m.end <= |t| && m.capStart <= m.capEnd <= |t|
  {
    Span(j, MatchEnd(p, t, j), CaptureStart(p, t, j), CaptureEnd(p, t, j))
  }

  /** One step of the scan: the first match, then the scan from where it ends. */
  lemma ScanStep(p: Probe, t: string, from: nat)
    requires FirstMatch(p, t, from).Some?
    ensures var j := FirstMatch(p, t, from).value;
      Scan(p, t, from) == [SpanAt(p, t, j)] + Scan(p, t, MatchEnd(p, t, j))
  {
  }

  /** Offset `j` lies inside one of the spans. */
  predicate Covered(ms: seq<Span>, j: nat) {
    exists k :: (0 <= k < |ms| && ms[k].at <= j < ms[k].end)
  }

  /** Every match at or after `from` is reported or lies inside a reported one. */
  lemma {:induction false} ScanComplete(p: Probe, t: string, from: nat, j: nat)
    requires from <= j && MatchAt(p, t, j)
    ensures Covered(Scan(p, t, from), j)
    decreases |t| - from
  {
    FirstMatchLeftmost(p, t, from, j);
    var j0 := FirstMatch(p, t, from).value;
    var e := MatchEnd(p, t, j0);
    var rest := Scan(p, t, e);
    var ms := Scan(p, t, from);
    assert ms == [SpanAt(p, t, j0)] + rest;
    if j < e {
      assert ms[0].at <= j < ms[0].end;
    } else {
      ScanComplete(p, t, e, j);
      var k :| 0 <= k < |rest| && rest[k].at <= j < rest[k].end;
      assert ms[k + 1] == rest[k];
    }
  }

  /** Every reported span is the span of its match. */
  lemma {:induction false} ScanSpans(p: Probe, t: string, from: nat, k: nat)
    requires k < |Scan(p, t, from)|
    ensures MatchAt(p, t, Scan(p, t, from)[k].at)
    ensures Scan(p, t, from)[k] == SpanAt(p, t, Scan(p, t, from)[k].at)
    decreases |t| - from
  {
    match FirstMatch(p, t, from)
    case None =>
    case Some(j0) =>
      var e := MatchEnd(p, t, j0);
      var rest := Scan(p, t, e);
      assert Scan(p, t, from) == [SpanAt(p, t, j0)] + rest;
      if k > 0 {
        ScanSpans(p, t, e, k - 1);
        assert Scan(p, t, from)[k] == rest[k - 1];
      }
  }

  /** The names the scanner handles itself and never treats as block helpers. */
  predicate Reserved(name: string) {
    name == "if" || name == "each" || name == "elseif" || name == "else" || name == "block"
  }

  const RawOpen: string := "{{{{raw}}}}"
  const RawClose: string := "{{{{/raw}}}}"

  /**
   * A triple-brace tag is also a mustache at the same offset: the mustache
   * shape admits `{` as its first character. Only the scanner's priorities
   * keep it a helper call.
   */
  lemma TripleIsMustache(t: string, j: nat)
    requires MatchAt(Triple, t, j)
    ensures MatchAt(Mustache, t, j)
    ensures MatchEnd(Mustache, t, j) == MatchEnd(Triple, t, j) - 1
  {
    assert t[j + 2] == '{';
  }

  /** Likewise every keyword tag whose word does not start with `#`, `/`, `>` or `!`. */
  lemma KeywordIsMustache(w: string, t: string, j: nat)
    requires |w| > 0 && w[0] !in "#/>!" && '}' !in w
    requires MatchAt(Keyword(w), t, j)
    ensures MatchAt(Mustache, t, j)
    ensures MatchEnd(Mustache, t, j) == MatchEnd(Keyword(w), t, j)
    ensures Payload(Mustache, t, j) == Trim(w + t[j + 2 + |w|..RunEnd(t, j + 2 + |w|)])
  {
    KeywordPrefix(w, t, j);
  }

  /** The keyword tag read as a variable tag: the word opens the run, which ends where the keyword's does. */
  lemma KeywordPrefix(w: string, t: string, j: nat)
    requires |w| > 0 && '}' !in w
    requires StartsWithAt(t, j, "{{" + w) && j + 2 + |w| <= |t|
    ensures var k := j + 2 + |w|;
      StartsWithAt(t, j, "{{") && t[j + 2] == w[0] && RunEnd(t, j + 3) == RunEnd(t, k)
      && t[j + 2..RunEnd(t, k)] == w + t[k..RunEnd(t, k)]
  {
    var k := j + 2 + |w|;
    var e := RunEnd(t, k);
    assert t[j..k] == "{{" + w;
    assert t[j + 2] == w[0];
    assert StartsWithAt(t, j, "{{") by {
      assert t[j..][..2] == t[j..k][..2];
    }
    forall i | j + 3 <= i < k ensures t[i] != '}' {
      assert t[i] == t[j..k][i - j] == w[i - j - 2];
      assert w[i - j - 2] in w;
    }
    RunEndSkips(t, j + 3, k);
    assert t[j + 2..e] == w + t[k..e] by {
      assert t[j + 2..k] == w;
    }
  }

  lemma {:induction false} RunEndSkips(t: string, a: nat, b: nat)
    requires a <= b <= |t|
    requires forall i :: a <= i < b ==> t[i] != '}'
    ensures RunEnd(t, a) == RunEnd(t, b)
    decreases b - a
  {
    if a < b {
      RunEndSkips(t, a + 1, b);
    }
  }
}
