/**
 * `findNextConstruct`: from a cursor, run every probe of the scanner over the
 * rest of the template, in a fixed order, collecting at most one candidate
 * per probe (its leftmost match), and return the candidate that starts first,
 * ties going to the smaller priority. Block-shaped candidates take their
 * extent from the block matcher; an opening raw tag with no closing tag
 * aborts the scan.
 */
module Scanner {
  import opened Common
  import opened Strings
  import opened Markers
  import opened BlockMatch
  import opened Structure

  /** What a construct carries into code generation (line and column are not kept). */
  datatype Construct =
    | Extends(name: string)
    | Block(name: string, content: string)
    | Raw(content: string)
    | Layout(name: string)
    | Helper(name: string, args: string)
    | Component(name: string, props: string)
    | Variable(path: string)
    | Each(path: string, content: string)
    | BlockHelper(name: string, content: string, args: string)
    | If(condition: string, body: IfElse)

  /** A construct and the part of the template `[start, end)` it spans. */
  datatype Found = Found(start: nat, end: nat, construct: Construct)

  datatype Candidate = Candidate(found: Found, priority: nat)

  /**
   * Why a scan fails. Only `UnclosedRaw` can arise (lemma `OnlyRawFails`);
   * `Unclosed` stands for the unclosed each, if and block helper errors
   * the engine also raises.
   */
  datatype ScanError = UnclosedRaw(at: nat) | Unclosed(name: string, at: nat)

  type Outcome = Result<Option<Candidate>, ScanError>

  /** The number of probes, and their priorities (ten times the engine's, which are decimals). */
  const ProbeCount: nat := 10

  function PriorityOf(k: nat): nat
    requires k < ProbeCount
  {
    [1, 2, 5, 10, 15, 18, 20, 30, 30, 40][k]
  }

  /** `.replace(/['"]/g, "")`. */
  function StripQuotes(s: string): (r: string)
    ensures '"' !in r && '\'' !in r
  {
    if s == [] then []
    else (if s[0] == '"' || s[0] == '\'' then [] else [s[0]]) + StripQuotes(s[1..])
  }

  /** Text without quotes is left alone. */
  lemma {:induction false} StripQuotesNoOp(s: string)
    requires '"' !in s && '\'' !in s
    ensures StripQuotes(s) == s
  {
    if s != [] {
      assert s[0] in s;
      assert '"' !in s[1..] && '\'' !in s[1..] by {
        forall i | 0 <= i < |s| - 1 ensures s[1..][i] == s[i + 1] && s[i + 1] in s { }
      }
      StripQuotesNoOp(s[1..]);
      assert [s[0]] + s[1..] == s;
    }
  }

  /**
   * A helper or component tag: the name up to the first space and the rest,
   * or the whole text as the name when there is no space after the first character.
   */
  function SplitName(content: string): (r: (string, string))
    ensures (r.0 == content && r.1 == "") || (content == r.0 + " " + r.1 && r.0 != [] && ' ' !in r.0)
  {
    var spaceIndex := IndexOf(content, " ", 0);
    if spaceIndex > 0 then
      assert content[spaceIndex..spaceIndex + 1] == " ";
      assert ' ' !in content[..spaceIndex] by {
        IndexOfFirst(content, " ", 0);
        forall i | 0 <= i < spaceIndex ensures content[i] != ' ' {
          assert !StartsWithAt(content, i, " ");
        }
      }
      assert content == content[..spaceIndex] + " " + content[spaceIndex + 1..];
      (content[..spaceIndex], content[spaceIndex + 1..])
    else (content, "")
  }

  /** The leftmost match of a probe in `t[s..]`, as offsets into `t`. */
  function Tag(p: Probe, t: string, s: nat): (m: Option<Span>)
    requires s <= |t|
    ensures m.Some? ==> s <= m.value.at < m.value.end <= |t| && m.value.capStart <= m.value.capEnd <= |t|
  {
    match FirstMatch(p, t[s..], 0)
    case None => None
    case Some(j) =>
      var sp := SpanAt(p, t[s..], j);
      Some(Span(s + sp.at, s + sp.end, s + sp.capStart, s + sp.capEnd))
  }

  /** The captured group of a match, trimmed. */
  function Captured(t: string, m: Span): string
    requires m.capStart <= m.capEnd <= |t|
  {
    Trim(t[m.capStart..m.capEnd])
  }

  /** The text a construct keeps from inside its span is shorter than the template. */
  predicate ContentShort(c: Construct, n: nat) {
    match c
    case Block(_, content) => |content| < n
    case Raw(content) => |content| < n
    case Each(_, content) => |content| < n
    case BlockHelper(_, content, _) => |content| < n
    case If(_, body) => n >= 1 && PartsWithin(body, n - 1)
    case _ => true
  }

  /** The construct kind each probe produces. */
  predicate KindOf(k: nat, c: Construct) {
    match c
    case Extends(_) => k == 0
    case Block(_, _) => k == 1
    case Raw(_) => k == 2
    case Layout(_) => k == 3
    case Helper(_, _) => k == 4
    case Component(_, _) => k == 5
    case Variable(_) => k == 6
    case Each(_, _) => k == 7
    case BlockHelper(name, _, _) => k == 8 && !Reserved(name)
    case If(_, _) => k == 9
  }

  /** A candidate of probe `k` lies in `[s, |t|]`, has that probe's kind and priority, and keeps shorter content. */
  predicate Fits(t: string, s: nat, k: nat, c: Candidate)
    requires k < ProbeCount
  {
    s <= c.found.start < c.found.end <= |t| && c.priority == PriorityOf(k)
    && KindOf(k, c.found.construct) && ContentShort(c.found.construct, |t|)
  }

  predicate Yields(o: Outcome) {
    o.Ok? && o.value.Some?
  }

  /** `{{extends name}}`: the name with its quotes removed. */
  function ExtendsProbe(t: string, s: nat): (o: Outcome)
    requires s <= |t|
    ensures o.Ok? && (Yields(o) ==> Fits(t, s, 0, o.value.value))
  {
    match Tag(Keyword("extends"), t, s)
    case None => Ok(None)
    case Some(m) => Ok(Some(Candidate(Found(m.at, m.end, Extends(StripQuotes(Captured(t, m)))), PriorityOf(0))))
  }

  /** The body of a block construct: from the end of its opening tag to the start of the closing tag. */
  function Body(t: string, m: Span, blockEnd: nat, name: string): (c: string)
    requires 1 <= m.end <= |t|
    ensures |c| < |t|
  {
    SliceWithin(t, m.end, blockEnd - |CloseTag(name)|);
    Slice(t, m.end, blockEnd - |CloseTag(name)|)
  }

  /** `{{#block name}}`: dropped, not reported, when the block matcher finds no end past it. */
  function BlockProbe(t: string, s: nat): (o: Outcome)
    requires s <= |t|
    ensures o.Ok? && (Yields(o) ==> Fits(t, s, 1, o.value.value))
  {
    match Tag(Keyword("#block"), t, s)
    case None => Ok(None)
    case Some(m) =>
      var blockEnd := BlockEnd(t, m.at, "block");
      BlockEndBounds(t, m.at, "block");
      if blockEnd > m.at then
        Ok(Some(Candidate(Found(m.at, blockEnd, Block(StripQuotes(Captured(t, m)), Body(t, m, blockEnd, "block"))), PriorityOf(1))))
      else Ok(None)
  }

  /** `{{{{raw}}}}`: the text up to the first `{{{{/raw}}}}` after it, or an error when there is none. */
  function RawProbe(t: string, s: nat): (o: Outcome)
    requires s <= |t|
    ensures o.Err? ==> o.error.UnclosedRaw?
    ensures Yields(o) ==> Fits(t, s, 2, o.value.value)
  {
    var blockStart := IndexOf(t, RawOpen, s);
    if blockStart < 0 then Ok(None)
    else
      var blockEnd := IndexOf(t, RawClose, blockStart);
      if blockEnd > blockStart then
        SliceWithin(t, blockStart + |RawOpen|, blockEnd);
        Ok(Some(Candidate(Found(blockStart, blockEnd + |RawClose|, Raw(Slice(t, blockStart + |RawOpen|, blockEnd))), PriorityOf(2))))
      else Err(UnclosedRaw(blockStart))
  }

  /** `{{> name}}`. */
  function LayoutProbe(t: string, s: nat): (o: Outcome)
    requires s <= |t|
    ensures o.Ok? && (Yields(o) ==> Fits(t, s, 3, o.value.value))
  {
    match Tag(Partial, t, s)
    case None => Ok(None)
    case Some(m) => Ok(Some(Candidate(Found(m.at, m.end, Layout(Captured(t, m))), PriorityOf(3))))
  }

  /** `{{{name args}}}`: a helper call whose output is not escaped. */
  function TripleProbe(t: string, s: nat): (o: Outcome)
    requires s <= |t|
    ensures o.Ok? && (Yields(o) ==> Fits(t, s, 4, o.value.value))
  {
    match Tag(Triple, t, s)
    case None => Ok(None)
    case Some(m) =>
      var parts := SplitName(Captured(t, m));
      Ok(Some(Candidate(Found(m.at, m.end, Helper(parts.0, parts.1)), PriorityOf(4))))
  }

  /** `{{component name props}}`: the name with its quotes removed. */
  function ComponentProbe(t: string, s: nat): (o: Outcome)
    requires s <= |t|
    ensures o.Ok? && (Yields(o) ==> Fits(t, s, 5, o.value.value))
  {
    match Tag(Keyword("component"), t, s)
    case None => Ok(None)
    case Some(m) =>
      var parts := SplitName(Captured(t, m));
      Ok(Some(Candidate(Found(m.at, m.end, Component(StripQuotes(parts.0), parts.1)), PriorityOf(5))))
  }

  /** `{{path}}`. */
  function VariableProbe(t: string, s: nat): (o: Outcome)
    requires s <= |t|
    ensures o.Ok? && (Yields(o) ==> Fits(t, s, 6, o.value.value))
  {
    match Tag(Mustache, t, s)
    case None => Ok(None)
    case Some(m) => Ok(Some(Candidate(Found(m.at, m.end, Variable(Captured(t, m))), PriorityOf(6))))
  }

  /** `{{#each path}}...{{/each}}`. */
  function EachProbe(t: string, s: nat): (o: Outcome)
    requires s <= |t|
    ensures o.Ok? && (Yields(o) ==> Fits(t, s, 7, o.value.value))
  {
    match Tag(Keyword("#each"), t, s)
    case None => Ok(None)
    case Some(m) =>
      var blockEnd := BlockEnd(t, m.at, "each");
      BlockEndBounds(t, m.at, "each");
      if blockEnd > m.at then
        Ok(Some(Candidate(Found(m.at, blockEnd, Each(Captured(t, m), Body(t, m, blockEnd, "each"))), PriorityOf(7))))
      else Err(Unclosed("each", m.at))
  }

  /**
   * `{{#name args}}...{{/name}}`: only the leftmost opening tag is looked
   * at, and it yields nothing when its name is one the scanner reserves.
   */
  function BlockHelperProbe(t: string, s: nat): (o: Outcome)
    requires s <= |t|
    ensures o.Ok? && (Yields(o) ==> Fits(t, s, 8, o.value.value))
  {
    var r := t[s..];
    match FirstMatch(Opening, r, 0)
    case None => Ok(None)
    case Some(j) =>
      var name := OpeningName(r, j);
      if Reserved(name) then Ok(None)
      else
        var m := Tag(Opening, t, s).value;
        var blockEnd := BlockEnd(t, m.at, name);
        BlockEndBounds(t, m.at, name);
        if blockEnd > m.at then
          Ok(Some(Candidate(Found(m.at, blockEnd, BlockHelper(name, Body(t, m, blockEnd, name), Captured(t, m))), PriorityOf(8))))
        else Err(Unclosed(name, m.at))
  }

  /** `{{#if condition}}...{{/if}}`, its body split into branches. */
  function IfProbe(t: string, s: nat): (o: Outcome)
    requires s <= |t|
    ensures o.Ok? && (Yields(o) ==> Fits(t, s, 9, o.value.value))
  {
    match Tag(Keyword("#if"), t, s)
    case None => Ok(None)
    case Some(m) =>
      var blockEnd := BlockEnd(t, m.at, "if");
      BlockEndBounds(t, m.at, "if");
      if blockEnd > m.at then
        var fullContent := Body(t, m, blockEnd, "if");
        IfElseWithin(fullContent);
        Ok(Some(Candidate(Found(m.at, blockEnd, If(Captured(t, m), IfElseOf(fullContent))), PriorityOf(9))))
      else Err(Unclosed("if", m.at))
  }

  /** What probe `k` may report: a fitting candidate, and no error unless it is the raw probe failing. */
  predicate Sound(t: string, s: nat, k: nat, o: Outcome)
    requires k < ProbeCount
  {
    (Yields(o) ==> Fits(t, s, k, o.value.value)) && (o.Err? ==> k == 2 && o.error.UnclosedRaw?)
  }

  /** Probe `k` of the scan, counted in the order the engine runs them. */
  function ProbeAt(k: nat, t: string, s: nat): Outcome
    requires k < ProbeCount && s <= |t|
  {
    match k
    case 0 => ExtendsProbe(t, s)
    case 1 => BlockProbe(t, s)
    case 2 => RawProbe(t, s)
    case 3 => LayoutProbe(t, s)
    case 4 => TripleProbe(t, s)
    case 5 => ComponentProbe(t, s)
    case 6 => VariableProbe(t, s)
    case 7 => EachProbe(t, s)
    case 8 => BlockHelperProbe(t, s)
    case _ => IfProbe(t, s)
  }

  /** The outcomes of the probes, in the order the engine runs them. */
  function Outcomes(t: string, s: nat): (os: seq<Outcome>)
    requires s <= |t|
    ensures |os| == ProbeCount
    ensures forall k :: 0 <= k < ProbeCount ==> os[k] == ProbeAt(k, t, s)
  {
    seq(ProbeCount, k requires 0 <= k < ProbeCount => ProbeAt(k, t, s))
  }

  /** Every probe reports only what it may. */
  lemma OutcomeSound(t: string, s: nat, k: nat)
    requires s <= |t| && k < ProbeCount
    ensures Sound(t, s, k, Outcomes(t, s)[k])
  {
  }

  function Push(cs: seq<Candidate>, o: Option<Candidate>): seq<Candidate> {
    if o.Some? then cs + [o.value] else cs
  }

  /** The candidates of a run of probes, or the first error one of them raises. */
  function Gather(os: seq<Outcome>): Result<seq<Candidate>, ScanError> {
    if os == [] then Ok([])
    else
      match Gather(os[..|os| - 1])
      case Err(e) => Err(e)
      case Ok(cs) =>
        match os[|os| - 1]
        case Err(e) => Err(e)
        case Ok(o) => Ok(Push(cs, o))
  }

  /** Candidate `a` sorts before `b`: it starts earlier, or at the same offset with a smaller priority. */
  predicate Before(a: Candidate, b: Candidate) {
    a.found.start < b.found.start || (a.found.start == b.found.start && a.priority < b.priority)
  }

  /**
   * The first element after the engine's stable sort by start and then
   * priority: no candidate sorts before it, and it sorts before every
   * candidate pushed earlier.
   */
  function BestIndex(cs: seq<Candidate>): (i: nat)
    requires |cs| > 0
    ensures i < |cs|
    ensures forall k :: 0 <= k < |cs| ==> !Before(cs[k], cs[i])
    ensures forall k :: 0 <= k < i ==> Before(cs[i], cs[k])
  {
    if |cs| == 1 then 0
    else
      var b := BestIndex(cs[..|cs| - 1]);
      if Before(cs[|cs| - 1], cs[b]) then |cs| - 1 else b
  }

  /** The candidate the scan reports. */
  function NextCandidate(t: string, s: nat): Result<Option<Candidate>, ScanError>
    requires s <= |t|
  {
    match Gather(Outcomes(t, s))
    case Err(e) => Err(e)
    case Ok(cs) => if cs == [] then Ok(None) else Ok(Some(cs[BestIndex(cs)]))
  }

  function NextConstruct(t: string, s: nat): Result<Option<Found>, ScanError>
    requires s <= |t|
  {
    match NextCandidate(t, s)
    case Err(e) => Err(e)
    case Ok(None) => Ok(None)
    case Ok(Some(c)) => Ok(Some(c.found))
  }

  /** `findNextConstruct`: the probes in order, then the earliest candidate. */
  method FindNextConstruct(t: string, s: nat) returns (r: Result<Option<Found>, ScanError>)
    requires s <= |t|
    ensures r == NextConstruct(t, s)
  {
    var first := FirstCandidates(t, s);
    if first.Err? {
      GatherErr(Outcomes(t, s), 3);
      return Err(first.error);
    }
    var possibilities := MiddleCandidates(t, s, first.value);
    possibilities := MoreCandidates(t, s, possibilities);
    if possibilities == [] {
      return Ok(None);
    }
    var best := possibilities[BestIndex(possibilities)];
    return Ok(Some(best.found));
  }

  /** The extends, block and raw probes; only the raw probe can fail. */
  method FirstCandidates(t: string, s: nat) returns (r: Result<seq<Candidate>, ScanError>)
    requires s <= |t|
    ensures r == Gather(Outcomes(t, s)[..3])
  {
    ghost var os := Outcomes(t, s);
    var possibilities: seq<Candidate> := [];
    assert os[..0] == [];
    GatherStep(os, 0, possibilities);
    possibilities := Push(possibilities, ExtendsProbe(t, s).value);
    var o := BlockCandidate(t, s);
    GatherStep(os, 1, possibilities);
    possibilities := Push(possibilities, o.value);
    o := RawProbe(t, s);
    GatherStep(os, 2, possibilities);
    if o.Err? {
      return Err(o.error);
    }
    return Ok(Push(possibilities, o.value));
  }

  /** The layout, triple, component and variable probes, none of which fails. */
  method MiddleCandidates(t: string, s: nat, cs: seq<Candidate>) returns (possibilities: seq<Candidate>)
    requires s <= |t| && Gather(Outcomes(t, s)[..3]) == Ok(cs)
    ensures Gather(Outcomes(t, s)[..7]) == Ok(possibilities)
  {
    possibilities := TagCandidates(t, s, cs);
    possibilities := ShortCandidates(t, s, possibilities);
  }

  /** The layout and triple probes. */
  method TagCandidates(t: string, s: nat, cs: seq<Candidate>) returns (possibilities: seq<Candidate>)
    requires s <= |t| && Gather(Outcomes(t, s)[..3]) == Ok(cs)
    ensures Gather(Outcomes(t, s)[..5]) == Ok(possibilities)
  {
    possibilities := cs;
    ProbeStep(t, s, 3, possibilities);
    possibilities := Push(possibilities, LayoutProbe(t, s).value);
    ProbeStep(t, s, 4, possibilities);
    possibilities := Push(possibilities, TripleProbe(t, s).value);
  }

  /** The component and variable probes. */
  method ShortCandidates(t: string, s: nat, cs: seq<Candidate>) returns (possibilities: seq<Candidate>)
    requires s <= |t| && Gather(Outcomes(t, s)[..5]) == Ok(cs)
    ensures Gather(Outcomes(t, s)[..7]) == Ok(possibilities)
  {
    possibilities := cs;
    ProbeStep(t, s, 5, possibilities);
    possibilities := Push(possibilities, ComponentProbe(t, s).value);
    ProbeStep(t, s, 6, possibilities);
    possibilities := Push(possibilities, VariableProbe(t, s).value);
  }

  /** One more probe: its error, or the candidates so far with its own. */
  lemma GatherStep(os: seq<Outcome>, k: nat, cs: seq<Candidate>)
    requires k < |os| && Gather(os[..k]) == Ok(cs)
    ensures Gather(os[..k + 1]) == if os[k].Err? then Err(os[k].error) else Ok(Push(cs, os[k].value))
  {
    assert os[..k + 1][..k] == os[..k];
  }

  /** One more probe after the raw probe: it cannot fail, and its candidate, if any, is pushed. */
  lemma ProbeStep(t: string, s: nat, k: nat, cs: seq<Candidate>)
    requires s <= |t| && 2 < k < ProbeCount && Gather(Outcomes(t, s)[..k]) == Ok(cs)
    ensures ProbeAt(k, t, s).Ok?
    ensures Gather(Outcomes(t, s)[..k + 1]) == Ok(Push(cs, ProbeAt(k, t, s).value))
  {
    OutcomeSound(t, s, k);
    GatherStep(Outcomes(t, s), k, cs);
  }

  /** The last three probes, each of which runs the block matcher. */
  method MoreCandidates(t: string, s: nat, cs: seq<Candidate>) returns (possibilities: seq<Candidate>)
    requires s <= |t| && Gather(Outcomes(t, s)[..7]) == Ok(cs)
    ensures Gather(Outcomes(t, s)) == Ok(possibilities)
  {
    possibilities := PushEach(t, s, cs);
    possibilities := PushBlockHelper(t, s, possibilities);
    possibilities := PushIf(t, s, possibilities);
    TakeAll(Outcomes(t, s));
  }

  /** The each probe. */
  method PushEach(t: string, s: nat, cs: seq<Candidate>) returns (possibilities: seq<Candidate>)
    requires s <= |t| && Gather(Outcomes(t, s)[..7]) == Ok(cs)
    ensures Gather(Outcomes(t, s)[..8]) == Ok(possibilities)
  {
    var o := EachCandidate(t, s);
    ProbeStep(t, s, 7, cs);
    possibilities := Push(cs, o.value);
  }

  /** The block helper probe. */
  method PushBlockHelper(t: string, s: nat, cs: seq<Candidate>) returns (possibilities: seq<Candidate>)
    requires s <= |t| && Gather(Outcomes(t, s)[..8]) == Ok(cs)
    ensures Gather(Outcomes(t, s)[..9]) == Ok(possibilities)
  {
    var o := BlockHelperCandidate(t, s);
    ProbeStep(t, s, 8, cs);
    possibilities := Push(cs, o.value);
  }

  /** The if probe. */
  method PushIf(t: string, s: nat, cs: seq<Candidate>) returns (possibilities: seq<Candidate>)
    requires s <= |t| && Gather(Outcomes(t, s)[..9]) == Ok(cs)
    ensures Gather(Outcomes(t, s)[..10]) == Ok(possibilities)
  {
    var o := IfCandidate(t, s);
    ProbeStep(t, s, 9, cs);
    possibilities := Push(cs, o.value);
  }

  /** Once a probe has raised, the scan's outcome is that error. */
  lemma {:induction false} GatherErr(os: seq<Outcome>, k: nat)
    requires k <= |os| && Gather(os[..k]).Err?
    ensures Gather(os) == Gather(os[..k])
    decreases |os| - k
  {
    if k < |os| {
      assert os[..k + 1][..k] == os[..k];
      GatherErr(os, k + 1);
    } else {
      assert os[..k] == os;
    }
  }

  /** When the first probes all succeed and the next one raises, the scan raises that error. */
  lemma {:induction false} GatherFirstErr(os: seq<Outcome>, k: nat)
    requires k < |os| && os[k].Err? && forall j :: 0 <= j < k ==> os[j].Ok?
    ensures Gather(os) == Err(os[k].error)
  {
    if |os| - 1 == k {
      GatherOk(os[..k]);
    } else {
      var init := os[..|os| - 1];
      assert init[k] == os[k];
      GatherFirstErr(init, k);
    }
  }

  /** Probes that all succeed gather without error. */
  lemma {:induction false} GatherOk(os: seq<Outcome>)
    requires forall j :: 0 <= j < |os| ==> os[j].Ok?
    ensures Gather(os).Ok?
  {
    if os != [] {
      var init := os[..|os| - 1];
      assert forall j :: 0 <= j < |init| ==> init[j] == os[j];
      GatherOk(init);
    }
  }

  lemma NameIsName(name: string)
    requires name == "block" || name == "each" || name == "if"
    ensures IsName(name)
  {
  }

  method BlockCandidate(t: string, s: nat) returns (o: Outcome)
    requires s <= |t|
    ensures o == BlockProbe(t, s)
  {
    var m := Tag(Keyword("#block"), t, s);
    if m.None? {
      return Ok(None);
    }
    NameIsName("block");
    var blockEnd := FindMatchingBlockEnd(t, m.value.at, "block");
    if blockEnd > m.value.at {
      var content := Body(t, m.value, blockEnd, "block");
      var name := StripQuotes(Captured(t, m.value));
      o := Ok(Some(Candidate(Found(m.value.at, blockEnd, Block(name, content)), PriorityOf(1))));
    } else {
      o := Ok(None);
    }
  }

  method EachCandidate(t: string, s: nat) returns (o: Outcome)
    requires s <= |t|
    ensures o == EachProbe(t, s)
  {
    var m := Tag(Keyword("#each"), t, s);
    if m.None? {
      return Ok(None);
    }
    NameIsName("each");
    var blockEnd := FindMatchingBlockEnd(t, m.value.at, "each");
    if blockEnd > m.value.at {
      var content := Body(t, m.value, blockEnd, "each");
      o := Ok(Some(Candidate(Found(m.value.at, blockEnd, Each(Captured(t, m.value), content)), PriorityOf(7))));
    } else {
      o := Err(Unclosed("each", m.value.at));
    }
  }

  method BlockHelperCandidate(t: string, s: nat) returns (o: Outcome)
    requires s <= |t|
    ensures o == BlockHelperProbe(t, s)
  {
    var j := FirstMatch(Opening, t[s..], 0);
    if j.None? {
      return Ok(None);
    }
    var helperName := OpeningName(t[s..], j.value);
    if Reserved(helperName) {
      return Ok(None);
    }
    var m := Tag(Opening, t, s).value;
    var blockEnd := FindMatchingBlockEnd(t, m.at, helperName);
    if blockEnd > m.at {
      var content := Body(t, m, blockEnd, helperName);
      o := Ok(Some(Candidate(Found(m.at, blockEnd, BlockHelper(helperName, content, Captured(t, m))), PriorityOf(8))));
    } else {
      o := Err(Unclosed(helperName, m.at));
    }
  }

  method IfCandidate(t: string, s: nat) returns (o: Outcome)
    requires s <= |t|
    ensures o == IfProbe(t, s)
  {
    var m := Tag(Keyword("#if"), t, s);
    if m.None? {
      return Ok(None);
    }
    NameIsName("if");
    var blockEnd := FindMatchingBlockEnd(t, m.value.at, "if");
    if blockEnd > m.value.at {
      var fullContent := Body(t, m.value, blockEnd, "if");
      var ifElseStructure := ParseIfElseStructure(fullContent);
      o := Ok(Some(Candidate(Found(m.value.at, blockEnd, If(Captured(t, m.value), ifElseStructure)), PriorityOf(9))));
    } else {
      o := Err(Unclosed("if", m.value.at));
    }
  }

  /** Candidate `c` is what one of the outcomes reported. */
  predicate Reported(os: seq<Outcome>, c: Candidate) {
    exists k :: (0 <= k < |os| && os[k] == Ok(Some(c)))
  }

  lemma {:induction false} GatherMember(os: seq<Outcome>, i: nat)
    requires Gather(os).Ok? && i < |Gather(os).value|
    ensures Reported(os, Gather(os).value[i])
  {
    var init := os[..|os| - 1];
    var cs := Gather(init).value;
    if i < |cs| {
      GatherMember(init, i);
      var k :| 0 <= k < |init| && init[k] == Ok(Some(cs[i]));
      assert os[k] == init[k];
    } else {
      assert os[|os| - 1] == Ok(Some(Gather(os).value[i]));
    }
  }

  lemma {:induction false} GatherComplete(os: seq<Outcome>, k: nat)
    requires k < |os| && Gather(os).Ok? && Yields(os[k])
    ensures os[k].value.value in Gather(os).value
  {
    var init := os[..|os| - 1];
    if k < |os| - 1 {
      assert init[k] == os[k];
      GatherComplete(init, k);
    }
  }

  lemma {:induction false} GatherEmpty(os: seq<Outcome>)
    ensures Gather(os) == Ok([]) <==> forall k :: 0 <= k < |os| ==> os[k] == Ok(None)
  {
    if os != [] {
      var init := os[..|os| - 1];
      GatherEmpty(init);
      if forall k :: 0 <= k < |os| ==> os[k] == Ok(None) {
        assert forall k :: 0 <= k < |init| ==> init[k] == os[k];
      }
      if Gather(os) == Ok([]) {
        forall k | 0 <= k < |init| ensures init[k] == Ok(None) {
          assert Gather(init) == Ok([]);
        }
        forall k | 0 <= k < |os| ensures os[k] == Ok(None) {
          if k < |init| { assert os[k] == init[k]; }
        }
      }
    }
  }

  lemma {:induction false} GatherError(os: seq<Outcome>)
    requires Gather(os).Err?
    ensures exists k :: (0 <= k < |os| && os[k] == Err(Gather(os).error))
  {
    var init := os[..|os| - 1];
    if Gather(init).Err? {
      GatherError(init);
      var k :| 0 <= k < |init| && init[k] == Err(Gather(init).error);
      assert os[k] == init[k];
    }
  }

  /** The scan reports nothing exactly when no probe found anything. */
  lemma NoneIffNoProbe(t: string, s: nat)
    requires s <= |t|
    ensures NextConstruct(t, s) == Ok(None) <==> forall k :: 0 <= k < ProbeCount ==> Outcomes(t, s)[k] == Ok(None)
  {
    GatherEmpty(Outcomes(t, s));
  }

  /** The reported candidate is one probe's candidate. */
  lemma ChosenIsCandidate(t: string, s: nat)
    requires s <= |t| && NextCandidate(t, s).Ok? && NextCandidate(t, s).value.Some?
    ensures Reported(Outcomes(t, s), NextCandidate(t, s).value.value)
  {
    var cs := Gather(Outcomes(t, s)).value;
    GatherMember(Outcomes(t, s), BestIndex(cs));
  }

  /**
   * No candidate sorts before the reported one: every probe's candidate
   * starts later, or at the same offset with a priority at least as large.
   */
  lemma ChosenIsEarliest(t: string, s: nat, k: nat)
    requires s <= |t| && k < ProbeCount && NextCandidate(t, s).Ok? && Yields(Outcomes(t, s)[k])
    ensures NextCandidate(t, s).value.Some?
    ensures !Before(Outcomes(t, s)[k].value.value, NextCandidate(t, s).value.value)
  {
    var os := Outcomes(t, s);
    GatherComplete(os, k);
    var cs := Gather(os).value;
    var i :| 0 <= i < |cs| && cs[i] == os[k].value.value;
  }

  /**
   * What a scan reports lies within `[s, |t|]`, keeps content shorter than
   * the template, and is never a block helper with a reserved name.
   */
  lemma ChosenFits(t: string, s: nat)
    requires s <= |t| && NextCandidate(t, s).Ok? && NextCandidate(t, s).value.Some?
    ensures var c := NextCandidate(t, s).value.value;
      s <= c.found.start < c.found.end <= |t| && ContentShort(c.found.construct, |t|)
    ensures var c := NextCandidate(t, s).value.value;
      c.found.construct.BlockHelper? ==> !Reserved(c.found.construct.name)
  {
    ChosenIsCandidate(t, s);
    var os := Outcomes(t, s);
    var c := NextCandidate(t, s).value.value;
    var k :| 0 <= k < |os| && os[k] == Ok(Some(c));
    OutcomeSound(t, s, k);
  }

  /** What the scan returns lies within `[s, |t|]` and keeps content shorter than the template. */
  lemma ConstructFits(t: string, s: nat)
    requires s <= |t| && NextConstruct(t, s).Ok? && NextConstruct(t, s).value.Some?
    ensures var f := NextConstruct(t, s).value.value;
      s <= f.start < f.end <= |t| && ContentShort(f.construct, |t|)
  {
    ChosenFits(t, s);
  }

  /**
   * The only error a scan raises is an unclosed raw block: the unclosed
   * each, if and block helper errors cannot happen, since the block matcher
   * always ends a block past its opening tag.
   */
  lemma OnlyRawFails(t: string, s: nat)
    requires s <= |t| && NextConstruct(t, s).Err?
    ensures NextConstruct(t, s).error.UnclosedRaw?
  {
    var os := Outcomes(t, s);
    GatherError(os);
    var k :| 0 <= k < |os| && os[k] == Err(Gather(os).error);
    OutcomeSound(t, s, k);
  }

  /**
   * An opening raw tag with no closing raw tag after it fails the scan,
   * reporting the opening tag's offset, whatever else the template holds.
   */
  lemma UnclosedRawFails(t: string, s: nat)
    requires s <= |t|
    requires var a := IndexOf(t, RawOpen, s); a >= 0 && IndexOf(t, RawClose, a) < 0
    ensures NextConstruct(t, s) == Err(UnclosedRaw(IndexOf(t, RawOpen, s)))
  {
    RawProbeFails(t, s);
    RawFailsEarly(t, s);
    GatherErr(Outcomes(t, s), 3);
  }

  lemma RawProbeFails(t: string, s: nat)
    requires s <= |t|
    requires var a := IndexOf(t, RawOpen, s); a >= 0 && IndexOf(t, RawClose, a) < 0
    ensures RawProbe(t, s) == Err(UnclosedRaw(IndexOf(t, RawOpen, s)))
  {
  }

  /** A failing raw probe fails the first three probes, as the first two never fail. */
  lemma RawFailsEarly(t: string, s: nat)
    requires s <= |t| && RawProbe(t, s).Err?
    ensures Gather(Outcomes(t, s)[..3]) == Err(RawProbe(t, s).error)
  {
    var os := Outcomes(t, s);
    assert os[..0] == [];
    GatherStep(os, 0, []);
    GatherStep(os, 1, Gather(os[..1]).value);
    GatherStep(os, 2, Gather(os[..2]).value);
  }

  /** A closing raw tag cannot start inside an opening raw tag. */
  lemma RawCloseAfterOpen(t: string, a: nat, b: nat)
    requires a + |RawOpen| <= |t| && t[a..a + |RawOpen|] == RawOpen
    requires a <= b && StartsWithAt(t, b, RawClose)
    ensures a + |RawOpen| <= b
  {
    assert t[b..b + |RawClose|] == RawClose;
    assert t[b] == '{' && t[b + 4] == '/';
    assert forall j :: a <= j < a + |RawOpen| ==> t[j] == RawOpen[j - a];
  }

  /** With a closing raw tag, the opening and closing tags do not overlap. */
  lemma RawTagsApart(t: string, s: nat)
    requires s <= |t|
    requires var a := IndexOf(t, RawOpen, s); a >= 0 && IndexOf(t, RawClose, a) >= 0
    ensures var a := IndexOf(t, RawOpen, s);
      var b := IndexOf(t, RawClose, a);
      a + |RawOpen| <= b && b + |RawClose| <= |t|
      && t[a..a + |RawOpen|] == RawOpen && t[b..b + |RawClose|] == RawClose
  {
    var a := IndexOf(t, RawOpen, s);
    var b := IndexOf(t, RawClose, a);
    assert t[a..a + |RawOpen|] == RawOpen;
    RawCloseAfterOpen(t, a, b);
  }

  /**
   * With a closing raw tag, the raw construct spans both tags and keeps
   * exactly the text between them.
   */
  lemma RawProbeSpan(t: string, s: nat)
    requires s <= |t|
    requires var a := IndexOf(t, RawOpen, s); a >= 0 && IndexOf(t, RawClose, a) >= 0
    ensures var a := IndexOf(t, RawOpen, s);
      var b := IndexOf(t, RawClose, a);
      a + |RawOpen| <= b
      && RawProbe(t, s) == Ok(Some(Candidate(Found(a, b + |RawClose|, Raw(t[a + |RawOpen|..b])), PriorityOf(2))))
  {
    var a := IndexOf(t, RawOpen, s);
    var b := IndexOf(t, RawClose, a);
    RawTagsApart(t, s);
    SliceInRange(t, a + |RawOpen|, b);
  }

  /** The text kept by a raw construct holds no closing raw tag. */
  lemma RawContentNoClose(t: string, s: nat)
    requires s <= |t|
    requires var a := IndexOf(t, RawOpen, s); a >= 0 && IndexOf(t, RawClose, a) >= 0
    ensures var a := IndexOf(t, RawOpen, s);
      var b := IndexOf(t, RawClose, a);
      forall j :: a <= j < b ==> !StartsWithAt(t, j, RawClose)
  {
    var a := IndexOf(t, RawOpen, s);
    IndexOfFirst(t, RawClose, a);
  }
}
