/**
 * The compiled form of a template. The engine compiles a template into the
 * source text of a JavaScript function; here it compiles into a tree of
 * steps, one per piece of text or construct, which module Render
 * interprets. `processTemplate` is the cursor loop that cuts one level of a
 * template into pieces; the bodies of each, if, block helper and block
 * constructs are compiled when the construct is, as the engine's code
 * generators do.
 */
module Plan {
  import opened Common
  import opened Strings
  import opened Markers
  import opened Structure
  import opened Arguments
  import opened Scanner

  /** One step of a compiled template. */
  datatype Step =
    | Text(text: string)                               // the static text between constructs
    | Verbatim(text: string)                           // the content of a raw block
    | Output(path: string, escape: bool)               // `{{path}}`
    | Call(name: string, args: seq<string>, escape: bool) // a helper call
    | Include(name: string, escape: bool)              // `{{> layout}}`
    | Embed(name: string, args: seq<string>, hash: map<string, string>, escape: bool) // a component
    | Loop(path: string, body: seq<Placed>)            // `{{#each}}`
    | Choose(branches: seq<Branch>, otherwise: seq<Placed>) // `{{#if}}` with its elseif and else branches
    | Invoke(name: string, args: seq<string>, hash: map<string, string>, main: seq<Placed>, inverse: seq<Placed>) // a block helper
    | Inherit(name: string)                            // `{{extends}}`
    | Define(name: string, body: seq<Placed>)          // `{{#block}}`

  /** A guarded branch of an if construct. */
  datatype Branch = Branch(condition: string, body: seq<Placed>)

  /** A step and the part `[start, end)` of the compiled text it comes from. */
  datatype Placed = Placed(start: nat, end: nat, step: Step)

  // ---------------------------------------------------------------------
  // Helper calls written as variables: `/^(\w+)\s+(.+)$/`
  // ---------------------------------------------------------------------

  /** The characters JavaScript's `.` does not match. */
  predicate IsLineTerminator(c: char) {
    c == '\n' || c == '\r' || c == '\U{2028}' || c == '\U{2029}'
  }

  predicate NoTerminator(s: string) {
    forall i :: 0 <= i < |s| ==> !IsLineTerminator(s[i])
  }

  /** Where a `\s*` run starting at `k` ends. */
  function SpaceEnd(t: string, k: nat): (e: nat)
    requires k <= |t|
    decreases |t| - k
    ensures k <= e <= |t|
    ensures e < |t| ==> !IsSpace(t[e])
  {
    if k == |t| || !IsSpace(t[k]) then k else SpaceEnd(t, k + 1)
  }

  lemma {:induction false} SpaceEndSpace(t: string, k: nat)
    requires k <= |t|
    decreases |t| - k
    ensures forall j :: k <= j < SpaceEnd(t, k) ==> IsSpace(t[j])
  {
    if k < |t| && IsSpace(t[k]) {
      SpaceEndSpace(t, k + 1);
    }
  }

  /** `variable` is a helper name, white space and an argument text, as the regular expression reads it. */
  predicate HelperShaped(v: string, name: string, gap: string, args: string) {
    v == name + gap + args
    && |name| > 0 && (forall i :: 0 <= i < |name| ==> IsWordChar(name[i]))
    && |gap| > 0 && (forall i :: 0 <= i < |gap| ==> IsSpace(gap[i]))
    && |args| > 0 && NoTerminator(args)
  }

  /**
   * The helper name and argument text `variable.match(/^(\w+)\s+(.+)$/)`
   * captures. `\w+` cannot give anything back, since a word character is not
   * white space; `\s+` takes all the white space it can, leaving `.+` at
   * least one character.
   */
  function HelperSplit(v: string): Option<(string, string)> {
    var w := WordEnd(v, 0);
    var e := SpaceEnd(v, w);
    if w == 0 || e == w then None
    else if e < |v| then
      if NoTerminator(v[e..]) then Some((v[..w], v[e..])) else None
    else if |v| - w >= 2 && !IsLineTerminator(v[|v| - 1]) then Some((v[..w], v[|v| - 1..]))
    else None
  }

  /** What the split reports is a reading of the variable by the regular expression. */
  lemma HelperSplitSound(v: string)
    requires HelperSplit(v).Some?
    ensures var (name, args) := HelperSplit(v).value;
      |name| + |args| < |v| && HelperShaped(v, name, v[|name|..|v| - |args|], args)
  {
    var w := WordEnd(v, 0);
    var e := SpaceEnd(v, w);
    WordEndWord(v, 0);
    SpaceEndSpace(v, w);
    var (name, args) := HelperSplit(v).value;
    assert name == v[..w];
    if e < |v| {
      assert args == v[e..];
      assert v == v[..w] + v[w..e] + v[e..];
    } else {
      assert args == v[|v| - 1..];
      assert v == v[..w] + v[w..|v| - 1] + v[|v| - 1..];
    }
  }

  /** Whenever the regular expression can read the variable, the split finds a reading. */
  lemma HelperSplitComplete(v: string, name: string, gap: string, args: string)
    requires HelperShaped(v, name, gap, args)
    ensures HelperSplit(v).Some?
    ensures HelperSplit(v).value.0 == name
  {
    var w := WordEnd(v, 0);
    WordEndWord(v, 0);
    assert w == |name| by {
      forall j | 0 <= j < |name| ensures v[j] == name[j] { }
      NameRun(v, |name|, 0);
      assert v[|name|] == gap[0];
    }
    var e := SpaceEnd(v, w);
    SpaceEndSpace(v, w);
    assert e > w by {
      assert v[w] == gap[0];
    }
    var tail := v[|name| + |gap|..];
    assert tail == args;
    if e < |v| {
      assert e >= |name| + |gap| by {
        GapRun(v, w, |name| + |gap|, gap);
      }
      assert v[e..] == args[e - |name| - |gap|..];
    } else {
      assert v[|v| - 1] == args[|args| - 1];
    }
  }

  lemma {:induction false} NameRun(v: string, n: nat, k: nat)
    requires k <= n < |v|
    requires forall j :: k <= j < n ==> IsWordChar(v[j])
    requires !IsWordChar(v[n])
    decreases n - k
    ensures WordEnd(v, k) == n
  {
    if k < n {
      NameRun(v, n, k + 1);
    }
  }

  lemma GapRun(v: string, w: nat, g: nat, gap: string)
    requires w <= g <= |v| && v[w..g] == gap
    requires forall i :: 0 <= i < |gap| ==> IsSpace(gap[i])
    ensures SpaceEnd(v, w) >= g
  {
    forall j | w <= j < g ensures IsSpace(v[j]) {
      assert v[j] == gap[j - w];
    }
    GapRunFrom(v, w, g);
  }

  lemma {:induction false} GapRunFrom(v: string, k: nat, g: nat)
    requires k <= g <= |v|
    requires forall j :: k <= j < g ==> IsSpace(v[j])
    decreases g - k
    ensures SpaceEnd(v, k) >= g
  {
    if k < g {
      GapRunFrom(v, k + 1, g);
    }
  }

  // ---------------------------------------------------------------------
  // Compiling a template
  // ---------------------------------------------------------------------

  /** The positional arguments and the hash of `parseHelperArguments`. */
  function ArgsOf(s: string): seq<string> {
    Positional(Tokens(Trim(s)))
  }

  function HashArgsOf(s: string): map<string, string> {
    HashOf(Tokens(Trim(s)))
  }

  /** The static text from `pos` up to a construct starting at `start`: nothing when they meet. */
  function Gap(t: string, pos: nat, start: nat): seq<Placed>
    requires pos <= start <= |t|
  {
    if start > pos then [Placed(pos, start, Text(t[pos..start]))] else []
  }

  /**
   * The compiled form of `t` from `pos` on, with the escape option `esc`:
   * what `processTemplate` emits, construct by construct, each construct
   * compiled (bodies included) before the scan goes on past it.
   */
  function CompileFrom(t: string, pos: nat, esc: bool): Result<seq<Placed>, ScanError>
    requires pos <= |t|
    decreases |t|, 2, |t| - pos
  {
    if pos == |t| then Ok([])
    else
      match NextConstruct(t, pos)
      case Err(e) => Err(e)
      case Ok(None) => Ok([Placed(pos, |t|, Text(t[pos..]))])
      case Ok(Some(f)) =>
        ConstructFits(t, pos);
        match StepOf(f.construct, |t|, esc)
        case Err(e) => Err(e)
        case Ok(step) =>
          match CompileFrom(t, f.end, esc)
          case Err(e) => Err(e)
          case Ok(rest) => Ok(Gap(t, pos, f.start) + [Placed(f.start, f.end, step)] + rest)
  }

  /**
   * `generateConstructCode` for one construct. A variable whose text reads
   * as `name args` is a helper call; a triple-brace call is never escaped;
   * a block body is always compiled with escaping on.
   */
  function StepOf(c: Construct, n: nat, esc: bool): Result<Step, ScanError>
    requires ContentShort(c, n)
    decreases n, 1, 0
  {
    match c
    case Extends(name) => Ok(Inherit(name))
    case Block(name, content) =>
      (match CompileFrom(content, 0, true)
       case Err(e) => Err(e)
       case Ok(body) => Ok(Define(name, body)))
    case Raw(content) => Ok(Verbatim(content))
    case Layout(name) => Ok(Include(name, esc))
    case Helper(name, args) => Ok(Call(name, ArgsOf(args), false))
    case Component(name, props) => Ok(Embed(name, ArgsOf(props), HashArgsOf(props), esc))
    case Variable(path) =>
      (match HelperSplit(path)
       case Some((name, args)) => Ok(Call(name, ArgsOf(args), esc))
       case None => Ok(Output(path, esc)))
    case Each(path, content) =>
      (match CompileFrom(content, 0, esc)
       case Err(e) => Err(e)
       case Ok(body) => Ok(Loop(path, body)))
    case BlockHelper(name, content, args) =>
      var parts := BlockHelperStructure(content);
      (match CompileFrom(parts.mainContent, 0, esc)
       case Err(e) => Err(e)
       case Ok(main) =>
         match CompileFrom(parts.elseContent, 0, esc)
         case Err(e) => Err(e)
         case Ok(inverse) => Ok(Invoke(name, ArgsOf(args), HashArgsOf(args), main, inverse)))
    case If(condition, body) =>
      match CompileFrom(body.ifContent, 0, esc)
      case Err(e) => Err(e)
      case Ok(first) =>
        match CompileBranches(body.elseifs, n, esc)
        case Err(e) => Err(e)
        case Ok(more) =>
          match CompileFrom(body.elseContent, 0, esc)
          case Err(e) => Err(e)
          case Ok(otherwise) => Ok(Choose([Branch(condition, first)] + more, otherwise))
  }

  /** The elseif branches, compiled in order. */
  function CompileBranches(es: seq<ElseIf>, n: nat, esc: bool): Result<seq<Branch>, ScanError>
    requires forall k :: 0 <= k < |es| ==> |es[k].content| < n
    decreases n, 0, |es|
  {
    if es == [] then Ok([])
    else
      match CompileFrom(es[0].content, 0, esc)
      case Err(e) => Err(e)
      case Ok(body) =>
        match CompileBranches(es[1..], n, esc)
        case Err(e) => Err(e)
        case Ok(rest) => Ok([Branch(es[0].condition, body)] + rest)
  }

  // ---------------------------------------------------------------------
  // processTemplate
  // ---------------------------------------------------------------------

  /** `code` followed by what compiling the rest gives, or the error compiling the rest raises. */
  function Prefixed(code: seq<Placed>, r: Result<seq<Placed>, ScanError>): Result<seq<Placed>, ScanError> {
    match r
    case Err(e) => Err(e)
    case Ok(rest) => Ok(code + rest)
  }

  /**
   * `processTemplate`: from a cursor at 0, find the next construct, emit the
   * static text before it and the construct's code, and move the cursor to
   * the construct's end; with no construct left, emit the rest as text.
   */
  method ProcessTemplate(t: string, esc: bool) returns (r: Result<seq<Placed>, ScanError>)
    ensures r == CompileFrom(t, 0, esc)
  {
    var code: seq<Placed> := [];
    var pos := 0;
    PrefixedNil(CompileFrom(t, 0, esc));
    while pos < |t|
      invariant pos <= |t|
      invariant CompileFrom(t, 0, esc) == Prefixed(code, CompileFrom(t, pos, esc))
      decreases |t| - pos
    {
      var nextConstruct := FindNextConstruct(t, pos);
      CompileOne(t, pos, esc);
      if nextConstruct.Err? {
        return Err(nextConstruct.error);
      }
      if nextConstruct.value.None? {
        code := code + [Placed(pos, |t|, Text(t[pos..]))];
        return Ok(code);
      }
      var f := nextConstruct.value.value;
      ConstructFits(t, pos);
      var gap := Gap(t, pos, f.start);
      var step := StepOf(f.construct, |t|, esc);
      if step.Err? {
        return Err(step.error);
      }
      var piece := gap + [Placed(f.start, f.end, step.value)];
      CodeStep(t, pos, esc, code, piece, f.end);
      code := code + piece;
      pos := f.end;
    }
    assert CompileFrom(t, pos, esc) == Ok([]);
    assert code + [] == code;
    return Ok(code);
  }

  lemma PrefixedNil(r: Result<seq<Placed>, ScanError>)
    ensures Prefixed([], r) == r
  {
    if r.Ok? {
      assert [] + r.value == r.value;
    }
  }

  /** One round of the loop: what compiling from `pos` gives, by what the scan finds there. */
  lemma CompileOne(t: string, pos: nat, esc: bool)
    requires pos < |t|
    ensures NextConstruct(t, pos).Err? ==> CompileFrom(t, pos, esc) == Err(NextConstruct(t, pos).error)
    ensures NextConstruct(t, pos) == Ok(None) ==> CompileFrom(t, pos, esc) == Ok([Placed(pos, |t|, Text(t[pos..]))])
    ensures NextConstruct(t, pos).Ok? && NextConstruct(t, pos).value.Some? ==>
      var f := NextConstruct(t, pos).value.value;
      pos <= f.start < f.end <= |t| && ContentShort(f.construct, |t|)
      && (StepOf(f.construct, |t|, esc).Err? ==> CompileFrom(t, pos, esc) == Err(StepOf(f.construct, |t|, esc).error))
      && (StepOf(f.construct, |t|, esc).Ok? ==>
            CompileFrom(t, pos, esc) == Prefixed(Gap(t, pos, f.start) + [Placed(f.start, f.end, StepOf(f.construct, |t|, esc).value)], CompileFrom(t, f.end, esc)))
  {
    if NextConstruct(t, pos).Ok? && NextConstruct(t, pos).value.Some? {
      ConstructFits(t, pos);
    }
  }

  /** Emitting one more piece keeps the invariant of the loop. */
  lemma CodeStep(t: string, pos: nat, esc: bool, code: seq<Placed>, piece: seq<Placed>, next: nat)
    requires pos < next <= |t|
    requires CompileFrom(t, pos, esc) == Prefixed(piece, CompileFrom(t, next, esc))
    ensures Prefixed(code, CompileFrom(t, pos, esc)) == Prefixed(code + piece, CompileFrom(t, next, esc))
  {
    match CompileFrom(t, next, esc)
    case Err(_) =>
    case Ok(rest) =>
      assert code + (piece + rest) == (code + piece) + rest;
  }

  // ---------------------------------------------------------------------
  // What a compiled level covers
  // ---------------------------------------------------------------------

  /**
   * The pieces cover `t` from `a` to its end, in order and without gaps or
   * overlaps, each piece non-empty, and every static-text piece is exactly
   * the text it covers.
   */
  predicate Tiles(t: string, ps: seq<Placed>, a: nat)
    decreases |ps|
  {
    if ps == [] then a == |t|
    else
      a == ps[0].start < ps[0].end <= |t|
      && (ps[0].step.Text? ==> ps[0].step.text == t[ps[0].start..ps[0].end])
      && Tiles(t, ps[1..], ps[0].end)
  }

  /** A program tiles templates of one length only: the pieces end where the template does. */
  lemma {:induction false} TilesLength(t: string, u: string, ps: seq<Placed>, a: nat)
    requires Tiles(t, ps, a) && Tiles(u, ps, a)
    ensures |t| == |u|
    decreases |ps|
  {
    if ps != [] {
      TilesLength(t, u, ps[1..], ps[0].end);
    }
  }

  /** Static text up to a construct, the construct, then a tiling from its end: a tiling from the start of the text. */
  lemma TilesJoin(t: string, pos: nat, node: Placed, rest: seq<Placed>)
    requires pos <= node.start < node.end <= |t| && !node.step.Text?
    requires Tiles(t, rest, node.end)
    ensures Tiles(t, Gap(t, pos, node.start) + [node] + rest, pos)
  {
    assert Tiles(t, [node] + rest, node.start) by {
      assert ([node] + rest)[1..] == rest;
    }
    if node.start > pos {
      assert (Gap(t, pos, node.start) + [node] + rest)[1..] == [node] + rest;
    } else {
      assert Gap(t, pos, node.start) + [node] + rest == [node] + rest;
    }
  }

  /** What `processTemplate` emits tiles the template: the cursor only moves forward, to the end of each construct. */
  lemma {:induction false} CompileTiles(t: string, pos: nat, esc: bool)
    requires pos <= |t| && CompileFrom(t, pos, esc).Ok?
    ensures Tiles(t, CompileFrom(t, pos, esc).value, pos)
    decreases |t| - pos
  {
    if pos < |t| {
      CompileOne(t, pos, esc);
      if NextConstruct(t, pos).Ok? && NextConstruct(t, pos).value.Some? {
        var f := NextConstruct(t, pos).value.value;
        CompileTiles(t, f.end, esc);
        TilesJoin(t, pos, Placed(f.start, f.end, StepOf(f.construct, |t|, esc).value), CompileFrom(t, f.end, esc).value);
      }
    }
  }

  /** A template in which no probe finds anything compiles to one piece of static text: the template itself. */
  lemma NoConstructIsText(t: string, esc: bool)
    requires |t| > 0
    requires forall k :: 0 <= k < ProbeCount ==> Outcomes(t, 0)[k] == Ok(None)
    ensures CompileFrom(t, 0, esc) == Ok([Placed(0, |t|, Text(t))])
  {
    NoneIffNoProbe(t, 0);
    CompileOne(t, 0, esc);
  }

  // ---------------------------------------------------------------------
  // The checks `compile` makes before compiling
  // ---------------------------------------------------------------------

  /** The largest template `compile` accepts. */
  const MaxLength: nat := 1000000

  /** Why `compile` refuses a template: empty or blank, too long, or a syntax error at an offset. */
  datatype CompileError = EmptyTemplate | TooLarge(length: nat) | Syntax(error: ScanError)

  /**
   * `compile` without its cache: reject an empty or blank template and one
   * over a million characters, then compile from offset 0.
   */
  function Compiled(t: string, esc: bool): (r: Result<seq<Placed>, CompileError>)
    ensures r == Err(EmptyTemplate) <==> |t| == 0 || Trim(t) == []
    ensures r.Err? && r.error.TooLarge? <==> Trim(t) != [] && |t| > MaxLength
    ensures r.Ok? ==> Tiles(t, r.value, 0)
  {
    if |t| == 0 || Trim(t) == [] then Err(EmptyTemplate)
    else if |t| > MaxLength then Err(TooLarge(|t|))
    else
      match CompileFrom(t, 0, esc)
      case Err(e) => Err(Syntax(e))
      case Ok(ps) =>
        CompileTiles(t, 0, esc);
        Ok(ps)
  }

  /** For a template `compile` accepts, its compilation is what `processTemplate` produces. */
  lemma CompiledIsProcessed(t: string, esc: bool)
    requires |t| > 0 && Trim(t) != [] && |t| <= MaxLength
    ensures Compiled(t, esc) == match CompileFrom(t, 0, esc) case Ok(ps) => Ok(ps) case Err(e) => Err(Syntax(e))
  {
  }
}
