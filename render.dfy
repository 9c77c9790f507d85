/**
 * What a compiled template does when it runs: the meaning of the code the
 * engine's generators emit, as an interpreter over the steps of module Plan.
 * Helper functions and the expressions of if conditions are JavaScript the
 * engine only calls; they are parameters here (`Host`).
 */
module Render {
  import opened Common
  import opened Strings
  import opened Values
  import opened Paths
  import opened Escaper
  import opened Structure
  import opened Scanner
  import opened Plan

  /** Stands for a registered JavaScript function. */
  type FnId = nat

  /** One thing a block helper's output is made of. */
  datatype Part = Emit(text: string) | Fn(context: Value) | Inverse(context: Value)

  /**
   * What a block helper does with the options it receives: return a value
   * of its own making, or build its output from its own text and calls of
   * `options.fn` and `options.inverse` on contexts of its choosing.
   */
  datatype Reply = Returns(value: Value) | Builds(parts: seq<Part>)

  /** The JavaScript the engine calls but does not contain. */
  datatype Host = Host(
    call: (FnId, seq<Value>) -> Value,
    block: (FnId, Value, map<string, Value>, Value) -> Reply,
    truth: (string, Value) -> bool)

  /**
   * The engine's caches of compiled layouts and components, keyed by name
   * only. They are module-level maps, so a running template both reads and
   * writes them.
   */
  datatype Caches = Caches(layouts: map<string, seq<Placed>>, components: map<string, seq<Placed>>)

  /**
   * The engine's registries and caches as a running template sees them,
   * and the compiler it calls for a layout or component not yet cached
   * (`WellCompiled` ties it to `Compiled`). `inBlockHelper` says whether the
   * code runs inside a block helper's `fn` or `inverse`, where the data
   * variable it reads is that function's own `childData`.
   */
  datatype Env = Env(
    compile: (string, bool) -> Result<seq<Placed>, CompileError>,
    layouts: map<string, string>,
    components: map<string, string>,
    helpers: map<string, FnId>,
    caches: Caches,
    host: Host,
    inBlockHelper: bool)

  /**
   * What running code gives: its output or the error it throws, and the
   * caches as it leaves them (what it stored before throwing stays stored).
   */
  datatype Rendered = Rendered(out: Result<string, RenderError>, caches: Caches)

  /**
   * Why running a template fails. `Unbound` is the `ReferenceError` of
   * generated code that reads a name it cannot see or has not yet
   * initialised. `OutOfFuel` is the model's own: a layout
   * or component that includes itself makes the engine recurse until the
   * JavaScript stack overflows.
   */
  datatype RenderError =
    | NotObject
    | LayoutNotFound(name: string)
    | ComponentNotFound(name: string)
    | BaseNotFound(name: string)
    | Uncompilable(name: string, error: CompileError)
    | Unbound(name: string)
    | OutOfFuel

  /** The compiler a run calls is the engine's own. */
  ghost predicate WellCompiled(env: Env) {
    forall t, esc :: env.compile(t, esc) == Compiled(t, esc)
  }

  /** The data a compiled template accepts: an object, an array, `null` or `undefined`. */
  predicate DataOk(v: Value) {
    v.Undefined? || v.Null? || v.Obj? || v.Arr?
  }

  /** JavaScript truthiness. */
  predicate Truthy(v: Value) {
    match v
    case Undefined => false
    case Null => false
    case Bool(b) => b
    case Num(n) => n != 0
    case Str(s) => s != ""
    case _ => true
  }

  /** The value a path reads from the current data. */
  function Lookup(scope: Value, path: string): Value {
    Eval(scope, DataAccessor(path))
  }

  /** An argument written between matching double or single quotes. */
  predicate Quoted(a: string) {
    |a| > 0 && ((a[0] == '"' && a[|a| - 1] == '"') || (a[0] == '\'' && a[|a| - 1] == '\''))
  }

  /** An argument's value: a quoted argument is the text between its quotes, anything else a path. */
  function ArgValue(a: string, scope: Value): Value {
    if Quoted(a) then Str(Slice(a, 1, |a| - 1)) else Lookup(scope, a)
  }

  function ArgValues(args: seq<string>, scope: Value): (vs: seq<Value>)
    ensures |vs| == |args|
    ensures forall i :: 0 <= i < |args| ==> vs[i] == ArgValue(args[i], scope)
  {
    seq(|args|, i requires 0 <= i < |args| => ArgValue(args[i], scope))
  }

  /** How a value is written into the output: escaped when it is a string and escaping is on, nothing when it is nullish. */
  function Shown(v: Value, esc: bool): string {
    if esc && v.Str? then Escaped(v.s)
    else if IsNullish(v) then ""
    else ToStr(v)
  }

  /** The first argument of a block helper call: the context `options.fn` falls back to. */
  function ContextArg(args: seq<string>, scope: Value): Value {
    if args == [] then scope
    else
      var a := args[0];
      if Quoted(a) then Str(Slice(a, 1, |a| - 1))
      else if a == "true" then Bool(true)
      else if a == "false" then Bool(false)
      else if |a| > 0 && AllDigits(a) then Num(ParseDigits(a))
      else Lookup(scope, a)
  }

  /** The hash of a block helper or the named props of a component, with their values. */
  function HashValues(hash: map<string, string>, scope: Value): map<string, Value> {
    map k | k in hash :: ArgValue(hash[k], scope)
  }

  /** The positional props: argument `i` under the key `"i"`. */
  function PositionalProps(args: seq<string>, scope: Value): map<string, Value>
    decreases |args|
  {
    if args == [] then map[]
    else PositionalProps(args[..|args| - 1], scope)[NatToString(|args| - 1) := ArgValue(args[|args| - 1], scope)]
  }

  /** A component's props: the positional ones, then the named ones, then `@parent`, later keys winning. */
  function Props(args: seq<string>, hash: map<string, string>, scope: Value): map<string, Value> {
    (PositionalProps(args, scope) + HashValues(hash, scope))[ParentKey := scope]
  }

  /** `context || data`: what `options.fn` and `options.inverse` render their body with. */
  function ChildData(context: Value, scope: Value): Value {
    if Truthy(context) then context else scope
  }

  /**
   * `compileLayout`: the cached compiled layout, whatever options were
   * asked for, else the registered layout compiled with the options given;
   * a layout registered as the empty string counts as missing.
   */
  function LayoutProgram(env: Env, name: string, esc: bool): Result<seq<Placed>, RenderError> {
    if name in env.caches.layouts then Ok(env.caches.layouts[name])
    else if name !in env.layouts || env.layouts[name] == "" then Err(LayoutNotFound(name))
    else
      match env.compile(env.layouts[name], esc)
      case Err(e) => Err(Uncompilable(name, e))
      case Ok(ps) => Ok(ps)
  }

  /** `compileComponent`, the same for components. */
  function ComponentProgram(env: Env, name: string, esc: bool): Result<seq<Placed>, RenderError> {
    if name in env.caches.components then Ok(env.caches.components[name])
    else if name !in env.components || env.components[name] == "" then Err(ComponentNotFound(name))
    else
      match env.compile(env.components[name], esc)
      case Err(e) => Err(Uncompilable(name, e))
      case Ok(ps) => Ok(ps)
  }

  /** Code that gives `out` and leaves the caches as `env` has them. */
  function Done(env: Env, out: Result<string, RenderError>): (r: Rendered)
    ensures r.out == out && r.caches == env.caches
  {
    Rendered(out, env.caches)
  }

  /** Code run after `first` succeeded: `next`, run on the caches `first` left, with the outputs joined. */
  function Then(first: Rendered, next: Rendered): (r: Rendered)
    requires first.out.Ok?
    ensures r.caches == next.caches
    ensures next.out.Err? ==> r.out == next.out
    ensures next.out.Ok? ==> r.out == Ok(first.out.value + next.out.value)
  {
    match next.out
    case Err(e) => next
    case Ok(y) => Rendered(Ok(first.out.value + y), next.caches)
  }

  /** `env` with the layout `name` stored as `ps` in its cache. */
  function StoreLayout(env: Env, name: string, ps: seq<Placed>): Env {
    env.(caches := env.caches.(layouts := env.caches.layouts[name := ps]))
  }

  /** `env` with the component `name` stored as `ps` in its cache. */
  function StoreComponent(env: Env, name: string, ps: seq<Placed>): Env {
    env.(caches := env.caches.(components := env.caches.components[name := ps]))
  }

  /** A compiled function called on `data`: the data is checked, then the steps run with it as their data. */
  function Run(env: Env, ps: seq<Placed>, data: Value, fuel: nat): Rendered {
    if !DataOk(data) then Done(env, Err(NotObject)) else RenderSteps(env.(inBlockHelper := false), ps, data, data, fuel)
  }

  /**
   * The output of a run of steps. `root` is the data of the compiled
   * function they belong to, `scope` the data they read (an item inside an
   * each loop, a child context inside a block helper). `fuel` bounds how
   * deeply constructs nest.
   */
  function RenderSteps(env: Env, ps: seq<Placed>, root: Value, scope: Value, fuel: nat): Rendered
    decreases fuel, |ps|, 1
  {
    if ps == [] then Done(env, Ok(""))
    else
      var first := RenderStep(env, ps[0].step, root, scope, fuel);
      if first.out.Err? then first
      else Then(first, RenderSteps(env.(caches := first.caches), ps[1..], root, scope, fuel))
  }

  function RenderStep(env: Env, step: Step, root: Value, scope: Value, fuel: nat): Rendered
    decreases fuel, 0, 2
  {
    match step
    case Text(s) => Done(env, Ok(s))
    case Verbatim(s) => Done(env, Ok(s))
    case Output(path, esc) => Done(env, Ok(Shown(Lookup(scope, path), esc)))
    case Call(name, args, esc) =>
      if name !in env.helpers then Done(env, Ok(""))
      else Done(env, Ok(Shown(env.host.call(env.helpers[name], ArgValues(args, scope)), esc)))
    case _ =>
      if fuel == 0 then Done(env, Err(OutOfFuel)) else RenderNested(env, step, root, scope, fuel - 1)
  }

  /**
   * The steps that run other steps: loops, branches, block helpers,
   * layouts, components and extends. A block's code first reads
   * `templateBlocks`, which is not among the parameters of the generated
   * function, so it fails before its body runs.
   */
  function RenderNested(env: Env, step: Step, root: Value, scope: Value, fuel: nat): Rendered
    decreases fuel + 1, 0, 1
  {
    match step
    case Loop(path, body) => RenderLoop(env, path, body, root, scope, fuel)
    case Choose(branches, otherwise) => RenderChoose(env, branches, otherwise, root, scope, fuel)
    case Invoke(name, args, hash, main, inverse) => RenderInvoke(env, name, args, hash, main, inverse, root, scope, fuel)
    case Define(_, _) => Done(env, Err(Unbound("templateBlocks")))
    case Include(name, esc) => RenderInclude(env, name, esc, scope, fuel)
    case Embed(name, args, hash, esc) => RenderEmbed(env, name, args, hash, esc, scope, fuel)
    case Inherit(name) => RenderInherit(env, name, root, fuel)
    case _ => Done(env, Ok(""))
  }

  /** `each`: the body once per item when the value is an array, nothing otherwise. */
  function RenderLoop(env: Env, path: string, body: seq<Placed>, root: Value, scope: Value, fuel: nat): Rendered
    decreases fuel + 1, 0, 0
  {
    var v := Lookup(scope, path);
    if v.Arr? then RenderItems(env, body, v.items, root, fuel) else Done(env, Ok(""))
  }

  /** `if`: the body of the first branch whose condition holds, else the else part. */
  function RenderChoose(env: Env, branches: seq<Branch>, otherwise: seq<Placed>, root: Value, scope: Value, fuel: nat): Rendered
    decreases fuel + 1, 0, 0
  {
    match FirstTrue(env.host, branches, scope)
    case Some(i) => RenderSteps(env, branches[i].body, root, scope, fuel)
    case None => RenderSteps(env, otherwise, root, scope, fuel)
  }

  /** A block helper: called when registered, its result written unescaped unless nullish. */
  function RenderInvoke(env: Env, name: string, args: seq<string>, hash: map<string, string>, main: seq<Placed>, inverse: seq<Placed>,
                        root: Value, scope: Value, fuel: nat): Rendered
    decreases fuel + 1, 0, 0
  {
    if name !in env.helpers then Done(env, Ok(""))
    else
      match env.host.block(env.helpers[name], ContextArg(args, scope), HashValues(hash, scope), scope)
      case Returns(v) => Done(env, Ok(if IsNullish(v) then "" else ToStr(v)))
      case Builds(parts) => RenderParts(env, parts, main, inverse, root, scope, fuel)
  }

  /**
   * A layout: when registered, taken from the cache or compiled and
   * stored there (a hit stores what it found), then run on the current data.
   */
  function RenderInclude(env: Env, name: string, esc: bool, scope: Value, fuel: nat): Rendered
    decreases fuel + 1, 0, 0
  {
    if name !in env.layouts then Done(env, Ok(""))
    else
      match LayoutProgram(env, name, esc)
      case Err(e) => Done(env, Err(e))
      case Ok(ps) =>
        var stored := StoreLayout(env, name, ps);
        if DataOk(scope) then RenderSteps(stored.(inBlockHelper := false), ps, scope, scope, fuel) else Done(stored, Err(NotObject))
  }

  /** A component: when registered, taken from the cache or compiled and stored there, then run on its props. */
  function RenderEmbed(env: Env, name: string, args: seq<string>, hash: map<string, string>, esc: bool, scope: Value, fuel: nat): Rendered
    decreases fuel + 1, 0, 0
  {
    if name !in env.components then Done(env, Ok(""))
    else
      match ComponentProgram(env, name, esc)
      case Err(e) => Done(env, Err(e))
      case Ok(ps) =>
        var props := Obj(Props(args, hash, scope));
        RenderSteps(StoreComponent(env, name, ps).(inBlockHelper := false), ps, props, props, fuel)
  }

  /**
   * `extends`: the base must be registered, and is then loaded as a
   * layout asking for escaping, and run on the template's own data.
   */
  function RenderInherit(env: Env, name: string, root: Value, fuel: nat): Rendered
    decreases fuel + 1, 0, 0
  {
    if !((name in env.layouts && env.layouts[name] != "") || (name in env.components && env.components[name] != "")) then
      Done(env, Err(BaseNotFound(name)))
    else
      match LayoutProgram(env, name, true)
      case Err(e) => Done(env, Err(e))
      case Ok(ps) =>
        var stored := StoreLayout(env, name, ps);
        if DataOk(root) then RenderSteps(stored.(inBlockHelper := false), ps, root, root, fuel) else Done(stored, Err(NotObject))
  }

  /** The index of the first branch whose condition holds. */
  function FirstTrue(host: Host, branches: seq<Branch>, scope: Value): (r: Option<nat>)
    ensures r.Some? ==> r.value < |branches|
    decreases |branches|
  {
    if branches == [] then None
    else if host.truth(branches[0].condition, scope) then Some(0)
    else
      match FirstTrue(host, branches[1..], scope)
      case Some(i) => Some(i + 1)
      case None => None
  }

  /** The body of an each loop, once per item, in order, with the item as its data (its own variable, not `childData`). */
  function RenderItems(env: Env, body: seq<Placed>, items: seq<Value>, root: Value, fuel: nat): Rendered
    decreases fuel, |body| + 1, |items|
  {
    if items == [] then Done(env, Ok(""))
    else
      var front := RenderItems(env, body, items[..|items| - 1], root, fuel);
      if front.out.Err? then front
      else Then(front, RenderSteps(env.(caches := front.caches, inBlockHelper := false), body, root, items[|items| - 1], fuel))
  }

  /**
   * A block helper's output: its own text, and `fn` and `inverse` rendered
   * on the contexts it passes. Their code declares `childData` as the
   * context or else the data variable; inside another block helper's body
   * that variable is the `childData` being declared, so a falsy context
   * reads it before it is initialised.
   */
  function RenderParts(env: Env, parts: seq<Part>, main: seq<Placed>, inverse: seq<Placed>, root: Value, scope: Value, fuel: nat): Rendered
    decreases fuel, |main| + |inverse| + 1, |parts|
  {
    if parts == [] then Done(env, Ok(""))
    else
      var front := RenderParts(env, parts[..|parts| - 1], main, inverse, root, scope, fuel);
      if front.out.Err? then front
      else
        var now := env.(caches := front.caches);
        var last := match parts[|parts| - 1]
          case Emit(s) => Done(now, Ok(s))
          case Fn(c) => RenderBody(now, main, c, root, scope, fuel)
          case Inverse(c) => RenderBody(now, inverse, c, root, scope, fuel);
        Then(front, last)
  }

  /** `fn` or `inverse` called on `context`: the body rendered on `context || data`, as code inside a block helper. */
  function RenderBody(env: Env, body: seq<Placed>, context: Value, root: Value, scope: Value, fuel: nat): Rendered
    decreases fuel, |body|, 2
  {
    if env.inBlockHelper && !Truthy(context) then Done(env, Err(Unbound("childData")))
    else RenderSteps(env.(inBlockHelper := true), body, root, ChildData(context, scope), fuel)
  }

  // ---------------------------------------------------------------------
  // What each construct means
  // ---------------------------------------------------------------------

  /** A template without any construct compiles to its own text and renders as it, whatever the data. */
  lemma PlainTemplateRendersItself(env: Env, t: string, esc: bool, data: Value, fuel: nat)
    requires |t| > 0 && DataOk(data)
    requires forall k :: 0 <= k < ProbeCount ==> Outcomes(t, 0)[k] == Ok(None)
    ensures match CompileFrom(t, 0, esc)
      case Ok(ps) => Run(env, ps, data, fuel) == Done(env, Ok(t))
      case Err(_) => false
  {
    NoConstructIsText(t, esc);
    TextRenders(env.(inBlockHelper := false), 0, |t|, t, data, data, fuel);
  }

  /** A single piece of text renders as itself and leaves the caches alone. */
  lemma TextRenders(env: Env, a: nat, b: nat, t: string, root: Value, scope: Value, fuel: nat)
    ensures RenderSteps(env, [Placed(a, b, Text(t))], root, scope, fuel) == Done(env, Ok(t))
  {
    assert [Placed(a, b, Text(t))][1..] == [];
    assert t + "" == t;
  }

  /**
   * A variable: nothing when its value is `null` or `undefined`; with
   * escaping on, a string comes out escaped, so that decoding the entities
   * gives the string back and no markup character appears raw; otherwise
   * the value's `String()`.
   */
  lemma OutputMeaning(env: Env, path: string, esc: bool, root: Value, scope: Value, fuel: nat)
    ensures var r := RenderStep(env, Output(path, esc), root, scope, fuel);
      r.out.Ok? && r.caches == env.caches &&
      (IsNullish(Lookup(scope, path)) ==> r.out.value == "") &&
      (!esc && !IsNullish(Lookup(scope, path)) ==> r.out.value == ToStr(Lookup(scope, path))) &&
      (esc && Lookup(scope, path).Str? ==>
        Unescape(r.out.value) == Lookup(scope, path).s &&
        forall i :: 0 <= i < |r.out.value| ==> IsSpecial(r.out.value[i]) ==> r.out.value[i] == '&')
  {
    var v := Lookup(scope, path);
    if esc && v.Str? {
      UnescapeEscaped(v.s);
      EscapedIsSafe(v.s);
    }
  }

  /** The texts of a sequence of outputs, one after the other. */
  function Concatenated(outs: seq<string>): string
    decreases |outs|
  {
    if outs == [] then "" else Concatenated(outs[..|outs| - 1]) + outs[|outs| - 1]
  }

  /**
   * An each loop over an array renders its body once per item, in the
   * items' order, each with the item as its data and with the caches the
   * item before it left.
   */
  lemma {:induction false} EachConcatenates(env: Env, body: seq<Placed>, items: seq<Value>, outs: seq<string>, cs: seq<Caches>, root: Value, fuel: nat)
    requires |outs| == |items| && |cs| == |items| + 1 && cs[0] == env.caches
    requires forall i :: 0 <= i < |items| ==>
      RenderSteps(env.(caches := cs[i], inBlockHelper := false), body, root, items[i], fuel) == Rendered(Ok(outs[i]), cs[i + 1])
    ensures RenderItems(env, body, items, root, fuel) == Rendered(Ok(Concatenated(outs)), cs[|items|])
    decreases |items|
  {
    if items != [] {
      var n := |items| - 1;
      EachConcatenates(env, body, items[..n], outs[..n], cs[..n + 1], root, fuel);
      assert RenderSteps(env.(caches := cs[n], inBlockHelper := false), body, root, items[n], fuel) == Rendered(Ok(outs[n]), cs[n + 1]);
    }
  }

  /** An each loop over anything that is not an array renders nothing; over an array it renders its items. */
  lemma EachMeaning(env: Env, path: string, body: seq<Placed>, root: Value, scope: Value, fuel: nat)
    requires fuel > 0
    ensures !Lookup(scope, path).Arr? ==> RenderStep(env, Loop(path, body), root, scope, fuel) == Done(env, Ok(""))
    ensures Lookup(scope, path).Arr? ==>
      RenderStep(env, Loop(path, body), root, scope, fuel) == RenderItems(env, body, Lookup(scope, path).items, root, fuel - 1)
  {
    assert RenderStep(env, Loop(path, body), root, scope, fuel) == RenderLoop(env, path, body, root, scope, fuel - 1);
  }

  /** `FirstTrue` finds a branch whose condition holds and before which no condition holds. */
  lemma {:induction false} FirstTrueSound(host: Host, bs: seq<Branch>, scope: Value)
    ensures match FirstTrue(host, bs, scope)
      case Some(i) => host.truth(bs[i].condition, scope) && forall j :: 0 <= j < i ==> !host.truth(bs[j].condition, scope)
      case None => forall j :: 0 <= j < |bs| ==> !host.truth(bs[j].condition, scope)
    decreases |bs|
  {
    if bs != [] && !host.truth(bs[0].condition, scope) {
      FirstTrueSound(host, bs[1..], scope);
      assert forall j :: 1 <= j < |bs| ==> bs[j] == bs[1..][j - 1];
    }
  }

  /** The first branch whose condition holds is the one `FirstTrue` finds. */
  lemma {:induction false} FirstTrueFinds(host: Host, bs: seq<Branch>, scope: Value, i: nat)
    requires i < |bs| && host.truth(bs[i].condition, scope)
    requires forall j :: 0 <= j < i ==> !host.truth(bs[j].condition, scope)
    ensures FirstTrue(host, bs, scope) == Some(i)
    decreases i
  {
    if i > 0 {
      assert !host.truth(bs[0].condition, scope);
      assert bs[1..][i - 1] == bs[i];
      forall j | 0 <= j < i - 1
        ensures !host.truth(bs[1..][j].condition, scope)
      {
        assert bs[1..][j] == bs[j + 1];
      }
      FirstTrueFinds(host, bs[1..], scope, i - 1);
    }
  }

  /** When no condition holds, `FirstTrue` finds none. */
  lemma {:induction false} FirstTrueNone(host: Host, bs: seq<Branch>, scope: Value)
    requires forall j :: 0 <= j < |bs| ==> !host.truth(bs[j].condition, scope)
    ensures FirstTrue(host, bs, scope) == None
    decreases |bs|
  {
    if bs != [] {
      assert !host.truth(bs[0].condition, scope);
      forall j | 0 <= j < |bs[1..]|
        ensures !host.truth(bs[1..][j].condition, scope)
      {
        assert bs[1..][j] == bs[j + 1];
      }
      FirstTrueNone(host, bs[1..], scope);
    }
  }

  /** An if whose conditions all fail renders its else part. */
  lemma IfOtherwise(env: Env, bs: seq<Branch>, otherwise: seq<Placed>, root: Value, scope: Value, fuel: nat)
    requires fuel > 0
    requires forall j :: 0 <= j < |bs| ==> !env.host.truth(bs[j].condition, scope)
    ensures RenderStep(env, Choose(bs, otherwise), root, scope, fuel) == RenderSteps(env, otherwise, root, scope, fuel - 1)
  {
    FirstTrueNone(env.host, bs, scope);
    assert RenderStep(env, Choose(bs, otherwise), root, scope, fuel) == RenderChoose(env, bs, otherwise, root, scope, fuel - 1);
  }

  /** An if renders the branch of the first condition that holds, trying them in order. */
  lemma IfChosen(env: Env, bs: seq<Branch>, otherwise: seq<Placed>, root: Value, scope: Value, fuel: nat, i: nat)
    requires fuel > 0 && i < |bs| && env.host.truth(bs[i].condition, scope)
    requires forall j :: 0 <= j < i ==> !env.host.truth(bs[j].condition, scope)
    ensures RenderStep(env, Choose(bs, otherwise), root, scope, fuel) == RenderSteps(env, bs[i].body, root, scope, fuel - 1)
  {
    FirstTrueFinds(env.host, bs, scope, i);
    assert RenderStep(env, Choose(bs, otherwise), root, scope, fuel) == RenderChoose(env, bs, otherwise, root, scope, fuel - 1);
  }

  /** The keys `"0"`, `"1"`, ..., up to `n - 1`. */
  function NumberKeys(n: nat): set<string> {
    if n == 0 then {} else NumberKeys(n - 1) + {NatToString(n - 1)}
  }

  /** The positional props hold each argument under its index. */
  lemma {:induction false} PositionalPropsAt(args: seq<string>, scope: Value, i: nat)
    requires i < |args|
    ensures NatToString(i) in PositionalProps(args, scope)
    ensures PositionalProps(args, scope)[NatToString(i)] == ArgValue(args[i], scope)
    decreases |args|
  {
    var n := |args| - 1;
    if i < n {
      var front := args[..n];
      PositionalPropsAt(front, scope, i);
      NatToStringInjective(i, n);
      assert front[i] == args[i];
    }
  }

  /** The positional props have exactly the keys `"0"`, ..., up to the number of arguments. */
  lemma {:induction false} PositionalPropsKeys(args: seq<string>, scope: Value)
    ensures PositionalProps(args, scope).Keys == NumberKeys(|args|)
    decreases |args|
  {
    if args != [] {
      PositionalPropsKeys(args[..|args| - 1], scope);
    }
  }

  /** A component's `@parent` prop is the data of the template that includes it. */
  lemma PropsParent(args: seq<string>, hash: map<string, string>, scope: Value)
    ensures ParentKey in Props(args, hash, scope) && Props(args, hash, scope)[ParentKey] == scope
  {
  }

  /** A named prop holds the value of its argument. */
  lemma PropsNamed(args: seq<string>, hash: map<string, string>, scope: Value)
    ensures forall k :: k in hash && k != ParentKey ==>
      k in Props(args, hash, scope) && Props(args, hash, scope)[k] == ArgValue(hash[k], scope)
  {
    var named := HashValues(hash, scope);
    var p := PositionalProps(args, scope) + named;
    assert Props(args, hash, scope) == p[ParentKey := scope];
    forall k | k in hash && k != ParentKey
      ensures k in p && p[k] == ArgValue(hash[k], scope)
    {
      assert k in named;
    }
  }

  /** Positional prop `"i"` holds argument `i`, unless a named prop of the same key overrides it. */
  lemma PropsPositional(args: seq<string>, hash: map<string, string>, scope: Value)
    ensures forall i :: 0 <= i < |args| && NatToString(i) !in hash ==>
      NatToString(i) in Props(args, hash, scope) && Props(args, hash, scope)[NatToString(i)] == ArgValue(args[i], scope)
  {
    var pos := PositionalProps(args, scope);
    var named := HashValues(hash, scope);
    var p := pos + named;
    assert Props(args, hash, scope) == p[ParentKey := scope];
    forall i | 0 <= i < |args| && NatToString(i) !in hash
      ensures NatToString(i) != ParentKey && NatToString(i) in p && p[NatToString(i)] == ArgValue(args[i], scope)
    {
      PositionalPropsAt(args, scope, i);
      assert IsDigit(NatToString(i)[0]);
      assert NatToString(i) !in named;
    }
  }

  /** A component gets exactly the props `@parent`, its named props and its positional props. */
  lemma PropsKeys(args: seq<string>, hash: map<string, string>, scope: Value)
    ensures Props(args, hash, scope).Keys == NumberKeys(|args|) + hash.Keys + {ParentKey}
  {
    PositionalPropsKeys(args, scope);
    var pos := PositionalProps(args, scope);
    var named := HashValues(hash, scope);
    var m := (pos + named)[ParentKey := scope];
    var ks := NumberKeys(|args|) + hash.Keys + {ParentKey};
    assert Props(args, hash, scope) == m;
    assert m.Keys <= ks by {
      forall k | k in m
        ensures k in ks
      {
        if k != ParentKey && k !in named {
          assert k in pos.Keys;
        }
      }
    }
    assert ks <= m.Keys by {
      forall k | k in ks
        ensures k in m
      {
        if k in hash {
          assert k in named;
        } else if k != ParentKey {
          assert k in pos.Keys;
        }
      }
    }
  }

  /**
   * A layout that is not registered renders nothing; one registered as
   * the empty string (and not cached) fails with "Layout not found".
   */
  lemma LayoutMeaning(env: Env, name: string, esc: bool, root: Value, scope: Value, fuel: nat)
    requires fuel > 0
    ensures name !in env.layouts ==> RenderStep(env, Include(name, esc), root, scope, fuel) == Done(env, Ok(""))
    ensures name in env.layouts && env.layouts[name] == "" && name !in env.caches.layouts ==>
      RenderStep(env, Include(name, esc), root, scope, fuel) == Done(env, Err(LayoutNotFound(name)))
  {
    assert RenderStep(env, Include(name, esc), root, scope, fuel) == RenderInclude(env, name, esc, scope, fuel - 1);
  }

  /**
   * Extends needs its base among the layouts: a base registered only as a
   * component passes the existence check and then fails with "Layout not
   * found"; a base registered nowhere fails with "Base template not found".
   */
  lemma ExtendsMeaning(env: Env, name: string, root: Value, scope: Value, fuel: nat)
    requires fuel > 0
    ensures name !in env.layouts && name in env.components && env.components[name] != "" && name !in env.caches.layouts ==>
      RenderStep(env, Inherit(name), root, scope, fuel) == Done(env, Err(LayoutNotFound(name)))
    ensures name !in env.layouts && name !in env.components ==>
      RenderStep(env, Inherit(name), root, scope, fuel) == Done(env, Err(BaseNotFound(name)))
  {
    assert RenderStep(env, Inherit(name), root, scope, fuel) == RenderInherit(env, name, root, fuel - 1);
  }

  // ---------------------------------------------------------------------
  // Block helper bodies: the rewrite as written, and the intended meaning
  // ---------------------------------------------------------------------

  const ResultAppend: string := "result +="
  const ChildAppend: string := "childResult +="

  /** `s.replace(/pat/g, rep)` for a literal, non-empty pattern: leftmost, non-overlapping occurrences. */
  function ReplaceAll(s: string, pat: string, rep: string): (r: string)
    requires |pat| > 0
    decreases |s|
  {
    if s == [] then []
    else if pat <= s then rep + ReplaceAll(s[|pat|..], pat, rep)
    else [s[0]] + ReplaceAll(s[1..], pat, rep)
  }

  /** Text that does not contain the pattern is left as it is. */
  lemma {:induction false} ReplaceAllNoMatch(s: string, pat: string, rep: string)
    requires |pat| > 0 && !Contains(s, pat)
    ensures ReplaceAll(s, pat, rep) == s
    decreases |s|
  {
    if s != [] {
      assert s[0..] == s;
      assert !StartsWithAt(s, 0, pat);
      assert !Contains(s[1..], pat) by {
        forall i | 0 <= i <= |s[1..]|
          ensures !StartsWithAt(s[1..], i, pat)
        {
          assert s[1..][i..] == s[i + 1..];
          assert !StartsWithAt(s, i + 1, pat);
        }
      }
      ReplaceAllNoMatch(s[1..], pat, rep);
    }
  }

  /**
   * A step as it runs inside a block helper's `fn` or `inverse`: the
   * emitted code has every `result +=` replaced by `childResult +=`,
   * including inside the string literals that carry the template's text.
   */
  function RewrittenStep(step: Step): Step
    decreases step
  {
    match step
    case Text(s) => Text(ReplaceAll(s, ResultAppend, ChildAppend))
    case Verbatim(s) => Verbatim(ReplaceAll(s, ResultAppend, ChildAppend))
    case Loop(path, body) =>
      Loop(path, seq(|body|, i requires 0 <= i < |body| => Placed(body[i].start, body[i].end, RewrittenStep(body[i].step))))
    case Choose(bs, otherwise) =>
      Choose(
        seq(|bs|, i requires 0 <= i < |bs| =>
          Branch(bs[i].condition,
            seq(|bs[i].body|, j requires 0 <= j < |bs[i].body| =>
              Placed(bs[i].body[j].start, bs[i].body[j].end, RewrittenStep(bs[i].body[j].step))))),
        seq(|otherwise|, i requires 0 <= i < |otherwise| =>
          Placed(otherwise[i].start, otherwise[i].end, RewrittenStep(otherwise[i].step))))
    case Invoke(name, args, hash, main, inverse) =>
      Invoke(name, args, hash,
        seq(|main|, i requires 0 <= i < |main| => Placed(main[i].start, main[i].end, RewrittenStep(main[i].step))),
        seq(|inverse|, i requires 0 <= i < |inverse| => Placed(inverse[i].start, inverse[i].end, RewrittenStep(inverse[i].step))))
    case Define(name, body) =>
      Define(name, seq(|body|, i requires 0 <= i < |body| => Placed(body[i].start, body[i].end, RewrittenStep(body[i].step))))
    case _ => step
  }

  /** The steps of a block helper body as they run inside `fn` or `inverse`. */
  function RewrittenBody(ps: seq<Placed>): (r: seq<Placed>)
    ensures |r| == |ps|
  {
    seq(|ps|, i requires 0 <= i < |ps| => Placed(ps[i].start, ps[i].end, RewrittenStep(ps[i].step)))
  }

  /** A block helper call as the generated code runs it: its bodies rewritten. */
  function AsWrittenInvoke(name: string, args: seq<string>, hash: map<string, string>, main: seq<Placed>, inverse: seq<Placed>): Step {
    Invoke(name, args, hash, RewrittenBody(main), RewrittenBody(inverse))
  }

  lemma RewriteExample()
    ensures ReplaceAll("result += 1", ResultAppend, ChildAppend) == "childResult += 1"
  {
    var s := "result += 1";
    assert ResultAppend <= s;
    assert s[|ResultAppend|..] == " 1";
    assert ReplaceAll(" 1", ResultAppend, ChildAppend) == " 1";
  }

  /** A block helper whose helper returns `options.fn(this)`, around one piece of text, renders that text. */
  lemma FnOfText(env: Env, name: string, t: string, root: Value, scope: Value, fuel: nat)
    requires fuel > 0 && name in env.helpers && (!env.inBlockHelper || Truthy(scope))
    requires env.host.block(env.helpers[name], scope, map[], scope) == Builds([Fn(scope)])
    ensures RenderStep(env, Invoke(name, [], map[], [Placed(0, 11, Text(t))], []), root, scope, fuel) == Done(env, Ok(t))
  {
    assert HashValues(map[], scope) == map[];
    assert ContextArg([], scope) == scope;
    var main := [Placed(0, 11, Text(t))];
    assert RenderStep(env, Invoke(name, [], map[], main, []), root, scope, fuel) ==
      RenderInvoke(env, name, [], map[], main, [], root, scope, fuel - 1);
    FnKeepsText(env, 0, 11, t, root, scope, scope, fuel - 1);
  }

  /**
   * The text `result += 1` in the body of a block helper whose helper
   * returns `options.fn(this)` comes out as `childResult += 1` as written,
   * and unchanged with the bodies left as compiled.
   */
  lemma RewriteAltersText(env: Env, name: string, root: Value, scope: Value, fuel: nat)
    requires fuel > 0 && name in env.helpers && (!env.inBlockHelper || Truthy(scope))
    requires env.host.block(env.helpers[name], scope, map[], scope) == Builds([Fn(scope)])
    ensures var main := [Placed(0, 11, Text("result += 1"))];
      RenderStep(env, AsWrittenInvoke(name, [], map[], main, []), root, scope, fuel) == Done(env, Ok("childResult += 1")) &&
      RenderStep(env, Invoke(name, [], map[], main, []), root, scope, fuel) == Done(env, Ok("result += 1"))
  {
    var main := [Placed(0, 11, Text("result += 1"))];
    RewriteExample();
    assert main[1..] == [];
    assert RewrittenBody(main) == [Placed(0, 11, Text("childResult += 1"))];
    assert RewrittenBody([]) == [];
    FnOfText(env, name, "childResult += 1", root, scope, fuel);
    FnOfText(env, name, "result += 1", root, scope, fuel);
  }

  /** A block helper whose body is plain text without `{{else}}` compiles to that text as its `fn` body and nothing as its `inverse`. */
  lemma BlockHelperCompilesText(name: string, t: string, args: string, esc: bool, n: nat)
    requires |t| > 0 && |t| < n && IndexOf(t, InverseMarker, 0) < 0
    requires forall k :: 0 <= k < ProbeCount ==> Outcomes(t, 0)[k] == Ok(None)
    ensures StepOf(BlockHelper(name, t, args), n, esc) == Ok(Invoke(name, ArgsOf(args), HashArgsOf(args), [Placed(0, |t|, Text(t))], []))
  {
    var parts := BlockHelperStructure(t);
    assert parts == BlockParts(t, "");
    assert CompileFrom(parts.mainContent, 0, esc) == Ok([Placed(0, |t|, Text(t))]) by {
      NoConstructIsText(t, esc);
    }
    assert CompileFrom(parts.elseContent, 0, esc) == Ok([]);
  }

  /**
   * Without the rewrite, `fn` renders a text body exactly as written, and
   * `inverse` renders an empty else part as nothing, on any context that
   * does not make the code read `childData` before it is initialised.
   */
  lemma FnKeepsText(env: Env, a: nat, b: nat, t: string, root: Value, scope: Value, context: Value, fuel: nat)
    requires !env.inBlockHelper || Truthy(context)
    ensures RenderParts(env, [Fn(context)], [Placed(a, b, Text(t))], [], root, scope, fuel) == Done(env, Ok(t))
    ensures RenderParts(env, [Inverse(context)], [Placed(a, b, Text(t))], [], root, scope, fuel) == Done(env, Ok(""))
  {
    var inner := env.(inBlockHelper := true);
    TextRenders(inner, a, b, t, root, ChildData(context, scope), fuel);
    assert [Fn(context)][..0] == [];
    assert [Inverse(context)][..0] == [];
    assert env.(caches := env.caches) == env;
    assert "" + t == t;
    assert RenderSteps(inner, [], root, ChildData(context, scope), fuel) == Done(env, Ok(""));
    assert "" + "" == "";
  }

  // ---------------------------------------------------------------------
  // Code that fails as generated
  // ---------------------------------------------------------------------

  /**
   * `options.fn()` without a context: in a block helper at the top of a
   * template it renders the body on the current data; in the same block
   * helper inside another block helper's body it fails, because the
   * fallback `childData` is the variable being declared.
   */
  lemma NestedFallbackFails(env: Env, outer: string, inner: string, t: string, root: Value, scope: Value, fuel: nat)
    requires fuel > 1 && !env.inBlockHelper && outer in env.helpers && inner in env.helpers
    requires env.host.block(env.helpers[outer], scope, map[], scope) == Builds([Fn(scope)])
    requires env.host.block(env.helpers[inner], scope, map[], scope) == Builds([Fn(Undefined)])
    ensures var body := [Placed(0, |t|, Text(t))];
      RenderStep(env, Invoke(inner, [], map[], body, []), root, scope, fuel) == Done(env, Ok(t)) &&
      RenderStep(env, Invoke(outer, [], map[], [Placed(0, 1, Invoke(inner, [], map[], body, []))], []), root, scope, fuel)
        == Done(env, Err(Unbound("childData")))
  {
    var body := [Placed(0, |t|, Text(t))];
    var step := Invoke(inner, [], map[], body, []);
    assert HashValues(map[], scope) == map[];
    assert ContextArg([], scope) == scope;
    assert RenderStep(env, step, root, scope, fuel) == RenderInvoke(env, inner, [], map[], body, [], root, scope, fuel - 1);
    FnKeepsText(env, 0, |t|, t, root, scope, Undefined, fuel - 1);

    var nested := env.(inBlockHelper := true);
    var main := [Placed(0, 1, step)];
    assert RenderStep(nested, step, root, scope, fuel - 1) == RenderInvoke(nested, inner, [], map[], body, [], root, scope, fuel - 2);
    assert [Fn(Undefined)][..0] == [];
    assert env.(caches := env.caches) == env;
    assert nested.(caches := nested.caches) == nested;
    assert RenderParts(nested, [Fn(Undefined)], body, [], root, scope, fuel - 2) == Done(env, Err(Unbound("childData")));
    assert RenderSteps(nested, main, root, scope, fuel - 1) == Done(env, Err(Unbound("childData")));
    assert [Fn(scope)][..0] == [];
    assert RenderParts(env, [Fn(scope)], main, [], root, scope, fuel - 1) == Done(env, Err(Unbound("childData")));
    assert RenderStep(env, Invoke(outer, [], map[], main, []), root, scope, fuel) ==
      RenderInvoke(env, outer, [], map[], main, [], root, scope, fuel - 1);
  }

  /** A step that runs no other code: text, a raw block, a variable or a helper call. */
  predicate Plain(step: Step) {
    step.Text? || step.Verbatim? || step.Output? || step.Call?
  }

  /**
   * A run that reaches a `{{#block}}` fails: there, with the
   * `templateBlocks` reference, when every step before it is plain, or
   * earlier.
   */
  lemma {:induction false} BlockStopsRun(env: Env, ps: seq<Placed>, root: Value, scope: Value, fuel: nat, k: nat)
    requires fuel > 0 && k < |ps| && ps[k].step.Define?
    ensures RenderSteps(env, ps, root, scope, fuel).out.Err?
    ensures (forall j :: 0 <= j < k ==> Plain(ps[j].step)) ==> RenderSteps(env, ps, root, scope, fuel) == Done(env, Err(Unbound("templateBlocks")))
    decreases k
  {
    var first := RenderStep(env, ps[0].step, root, scope, fuel);
    if k == 0 {
      assert first == RenderNested(env, ps[0].step, root, scope, fuel - 1);
    } else if first.out.Ok? {
      var next := env.(caches := first.caches);
      BlockStopsRun(next, ps[1..], root, scope, fuel, k - 1);
      if forall j :: 0 <= j < k ==> Plain(ps[j].step) {
        assert Plain(ps[0].step);
        assert next == env;
        forall j | 0 <= j < k - 1
          ensures Plain(ps[1..][j].step)
        {
          assert ps[1..][j] == ps[j + 1];
        }
      }
    }
  }

  // ---------------------------------------------------------------------
  // The layout and component caches during a run
  // ---------------------------------------------------------------------

  /** `after` still holds every entry of `before`, unchanged. */
  predicate Keeps(before: Caches, after: Caches) {
    (forall n :: n in before.layouts ==> n in after.layouts && after.layouts[n] == before.layouts[n])
    && (forall n :: n in before.components ==> n in after.components && after.components[n] == before.components[n])
  }

  /**
   * Every cached layout and component is a compilation, under one of the
   * two escape options, of the text registered under its name.
   */
  ghost predicate CachesSound(compile: (string, bool) -> Result<seq<Placed>, CompileError>,
                              layouts: map<string, string>, components: map<string, string>, c: Caches) {
    (forall n :: n in c.layouts ==>
      n in layouts && (compile(layouts[n], true) == Ok(c.layouts[n]) || compile(layouts[n], false) == Ok(c.layouts[n])))
    && (forall n :: n in c.components ==>
      n in components && (compile(components[n], true) == Ok(c.components[n]) || compile(components[n], false) == Ok(c.components[n])))
  }

  /** What running code may do to the caches of `env`: add entries, each a compilation of its registered text. */
  ghost predicate Grown(env: Env, after: Caches) {
    Keeps(env.caches, after)
    && (CachesSound(env.compile, env.layouts, env.components, env.caches) ==>
        CachesSound(env.compile, env.layouts, env.components, after))
  }

  lemma GrownTrans(env: Env, mid: Caches, after: Caches)
    requires Grown(env, mid) && Grown(env.(caches := mid), after)
    ensures Grown(env, after)
  {
  }

  /** Loading a layout stores an entry the caches may gain. */
  lemma StoreLayoutGrows(env: Env, name: string, esc: bool, ps: seq<Placed>)
    requires LayoutProgram(env, name, esc) == Ok(ps)
    ensures Grown(env, StoreLayout(env, name, ps).caches)
  {
  }

  /** Loading a component stores an entry the caches may gain. */
  lemma StoreComponentGrows(env: Env, name: string, esc: bool, ps: seq<Placed>)
    requires ComponentProgram(env, name, esc) == Ok(ps)
    ensures Grown(env, StoreComponent(env, name, ps).caches)
  {
  }

  /**
   * Running code never drops or replaces a cached layout or component,
   * and what it adds is a compilation of the registered text.
   */
  lemma {:induction false} StepsGrow(env: Env, ps: seq<Placed>, root: Value, scope: Value, fuel: nat)
    ensures Grown(env, RenderSteps(env, ps, root, scope, fuel).caches)
    decreases fuel, |ps|, 1
  {
    if ps != [] {
      var first := RenderStep(env, ps[0].step, root, scope, fuel);
      StepGrows(env, ps[0].step, root, scope, fuel);
      if first.out.Ok? {
        var next := env.(caches := first.caches);
        StepsGrow(next, ps[1..], root, scope, fuel);
        GrownTrans(env, first.caches, RenderSteps(next, ps[1..], root, scope, fuel).caches);
      }
    }
  }

  lemma {:induction false} StepGrows(env: Env, step: Step, root: Value, scope: Value, fuel: nat)
    ensures Grown(env, RenderStep(env, step, root, scope, fuel).caches)
    decreases fuel, 0, 2
  {
    if !Plain(step) && fuel > 0 {
      NestedGrows(env, step, root, scope, fuel - 1);
    }
  }

  lemma {:induction false} NestedGrows(env: Env, step: Step, root: Value, scope: Value, fuel: nat)
    ensures Grown(env, RenderNested(env, step, root, scope, fuel).caches)
    decreases fuel + 1, 0, 1
  {
    match step
    case Loop(path, body) => LoopGrows(env, path, body, root, scope, fuel);
    case Choose(branches, otherwise) => ChooseGrows(env, branches, otherwise, root, scope, fuel);
    case Invoke(name, args, hash, main, inverse) => InvokeGrows(env, name, args, hash, main, inverse, root, scope, fuel);
    case Include(name, esc) => IncludeGrows(env, name, esc, scope, fuel);
    case Embed(name, args, hash, esc) => EmbedGrows(env, name, args, hash, esc, scope, fuel);
    case Inherit(name) => InheritGrows(env, name, root, fuel);
    case _ =>
  }

  lemma {:induction false} LoopGrows(env: Env, path: string, body: seq<Placed>, root: Value, scope: Value, fuel: nat)
    ensures Grown(env, RenderLoop(env, path, body, root, scope, fuel).caches)
    decreases fuel + 1, 0, 0
  {
    var v := Lookup(scope, path);
    if v.Arr? {
      ItemsGrow(env, body, v.items, root, fuel);
    }
  }

  lemma {:induction false} ChooseGrows(env: Env, branches: seq<Branch>, otherwise: seq<Placed>, root: Value, scope: Value, fuel: nat)
    ensures Grown(env, RenderChoose(env, branches, otherwise, root, scope, fuel).caches)
    decreases fuel + 1, 0, 0
  {
    match FirstTrue(env.host, branches, scope)
    case Some(i) => StepsGrow(env, branches[i].body, root, scope, fuel);
    case None => StepsGrow(env, otherwise, root, scope, fuel);
  }

  lemma {:induction false} InvokeGrows(env: Env, name: string, args: seq<string>, hash: map<string, string>, main: seq<Placed>, inverse: seq<Placed>,
                                       root: Value, scope: Value, fuel: nat)
    ensures Grown(env, RenderInvoke(env, name, args, hash, main, inverse, root, scope, fuel).caches)
    decreases fuel + 1, 0, 0
  {
    if name in env.helpers {
      match env.host.block(env.helpers[name], ContextArg(args, scope), HashValues(hash, scope), scope)
      case Returns(_) =>
      case Builds(parts) => PartsGrow(env, parts, main, inverse, root, scope, fuel);
    }
  }

  lemma {:induction false} IncludeGrows(env: Env, name: string, esc: bool, scope: Value, fuel: nat)
    ensures Grown(env, RenderInclude(env, name, esc, scope, fuel).caches)
    decreases fuel + 1, 0, 0
  {
    if name in env.layouts && LayoutProgram(env, name, esc).Ok? {
      var ps := LayoutProgram(env, name, esc).value;
      StoreLayoutGrows(env, name, esc, ps);
      LoadedRunGrows(env, StoreLayout(env, name, ps), ps, scope, fuel);
    }
  }

  lemma {:induction false} EmbedGrows(env: Env, name: string, args: seq<string>, hash: map<string, string>, esc: bool, scope: Value, fuel: nat)
    ensures Grown(env, RenderEmbed(env, name, args, hash, esc, scope, fuel).caches)
    decreases fuel + 1, 0, 0
  {
    if name in env.components && ComponentProgram(env, name, esc).Ok? {
      var ps := ComponentProgram(env, name, esc).value;
      var props := Obj(Props(args, hash, scope));
      var stored := StoreComponent(env, name, ps).(inBlockHelper := false);
      StoreComponentGrows(env, name, esc, ps);
      StepsGrow(stored, ps, props, props, fuel);
      GrownTrans(env, stored.caches, RenderSteps(stored, ps, props, props, fuel).caches);
    }
  }

  lemma {:induction false} InheritGrows(env: Env, name: string, root: Value, fuel: nat)
    ensures Grown(env, RenderInherit(env, name, root, fuel).caches)
    decreases fuel + 1, 0, 0
  {
    if LayoutProgram(env, name, true).Ok? {
      var ps := LayoutProgram(env, name, true).value;
      StoreLayoutGrows(env, name, true, ps);
      LoadedRunGrows(env, StoreLayout(env, name, ps), ps, root, fuel);
    }
  }

  /** A loaded layout run on `data` (or refused it) leaves caches `env` may grow into, once the load itself was such a growth. */
  lemma LoadedRunGrows(env: Env, stored: Env, ps: seq<Placed>, data: Value, fuel: nat)
    requires stored == env.(caches := stored.caches) && Grown(env, stored.caches)
    ensures DataOk(data) ==> Grown(env, RenderSteps(stored.(inBlockHelper := false), ps, data, data, fuel).caches)
    decreases fuel, |ps| + 1, 0
  {
    if DataOk(data) {
      StepsGrow(stored.(inBlockHelper := false), ps, data, data, fuel);
      GrownTrans(env, stored.caches, RenderSteps(stored.(inBlockHelper := false), ps, data, data, fuel).caches);
    }
  }

  lemma {:induction false} ItemsGrow(env: Env, body: seq<Placed>, items: seq<Value>, root: Value, fuel: nat)
    ensures Grown(env, RenderItems(env, body, items, root, fuel).caches)
    decreases fuel, |body| + 1, |items|
  {
    if items != [] {
      var front := RenderItems(env, body, items[..|items| - 1], root, fuel);
      ItemsGrow(env, body, items[..|items| - 1], root, fuel);
      if front.out.Ok? {
        var next := env.(caches := front.caches, inBlockHelper := false);
        StepsGrow(next, body, root, items[|items| - 1], fuel);
        GrownTrans(env, front.caches, RenderSteps(next, body, root, items[|items| - 1], fuel).caches);
      }
    }
  }

  lemma {:induction false} PartsGrow(env: Env, parts: seq<Part>, main: seq<Placed>, inverse: seq<Placed>, root: Value, scope: Value, fuel: nat)
    ensures Grown(env, RenderParts(env, parts, main, inverse, root, scope, fuel).caches)
    decreases fuel, |main| + |inverse| + 1, |parts|
  {
    if parts != [] {
      var front := RenderParts(env, parts[..|parts| - 1], main, inverse, root, scope, fuel);
      PartsGrow(env, parts[..|parts| - 1], main, inverse, root, scope, fuel);
      if front.out.Ok? {
        var now := env.(caches := front.caches);
        match parts[|parts| - 1]
        case Emit(_) =>
        case Fn(c) =>
          BodyGrows(now, main, c, root, scope, fuel);
          GrownTrans(env, front.caches, RenderBody(now, main, c, root, scope, fuel).caches);
        case Inverse(c) =>
          BodyGrows(now, inverse, c, root, scope, fuel);
          GrownTrans(env, front.caches, RenderBody(now, inverse, c, root, scope, fuel).caches);
      }
    }
  }

  lemma {:induction false} BodyGrows(env: Env, body: seq<Placed>, context: Value, root: Value, scope: Value, fuel: nat)
    ensures Grown(env, RenderBody(env, body, context, root, scope, fuel).caches)
    decreases fuel, |body|, 2
  {
    if !(env.inBlockHelper && !Truthy(context)) {
      StepsGrow(env.(inBlockHelper := true), body, root, ChildData(context, scope), fuel);
    }
  }

  /** A compiled template's run only adds sound entries to the caches. */
  lemma RunGrows(env: Env, ps: seq<Placed>, data: Value, fuel: nat)
    ensures Grown(env, Run(env, ps, data, fuel).caches)
  {
    if DataOk(data) {
      StepsGrow(env.(inBlockHelper := false), ps, data, data, fuel);
    }
  }

  /**
   * A cached layout is what `{{> name}}` and `{{extends name}}` run,
   * whichever escape option they ask for: the cache is keyed by the
   * name alone.
   */
  lemma CachedLayoutWins(env: Env, name: string, esc: bool, root: Value, scope: Value, fuel: nat)
    requires fuel > 0 && name in env.caches.layouts
    ensures name in env.layouts && DataOk(scope) ==>
      RenderStep(env, Include(name, esc), root, scope, fuel) ==
        RenderSteps(env.(inBlockHelper := false), env.caches.layouts[name], scope, scope, fuel - 1)
    ensures name in env.layouts && env.layouts[name] != "" && DataOk(root) ==>
      RenderStep(env, Inherit(name), root, scope, fuel) ==
        RenderSteps(env.(inBlockHelper := false), env.caches.layouts[name], root, root, fuel - 1)
  {
    assert StoreLayout(env, name, env.caches.layouts[name]) == env;
    assert RenderStep(env, Include(name, esc), root, scope, fuel) == RenderInclude(env, name, esc, scope, fuel - 1);
    assert RenderStep(env, Inherit(name), root, scope, fuel) == RenderInherit(env, name, root, fuel - 1);
  }

  /**
   * `{{> name}}` then `{{extends name}}` in a template compiled without
   * escaping, the layout not yet cached: the include compiles the layout
   * without escaping and caches it, and the extends, though it asks for
   * escaping, runs that same unescaped program.
   */
  lemma ExtendsReusesInclude(env: Env, name: string, ps: seq<Placed>, root: Value, fuel: nat, a: nat, b: nat, c: nat)
    requires fuel > 0 && name in env.layouts && env.layouts[name] != "" && name !in env.caches.layouts
    requires env.compile(env.layouts[name], false) == Ok(ps) && DataOk(root)
    ensures var first := RenderStep(env, Include(name, false), root, root, fuel);
      first == RenderSteps(StoreLayout(env, name, ps).(inBlockHelper := false), ps, root, root, fuel - 1) &&
      (first.out.Ok? ==>
        RenderSteps(env, [Placed(a, b, Include(name, false)), Placed(b, c, Inherit(name))], root, root, fuel) ==
          Then(first, RenderSteps(env.(caches := first.caches, inBlockHelper := false), ps, root, root, fuel - 1)))
  {
    var first := RenderStep(env, Include(name, false), root, root, fuel);
    var stored := StoreLayout(env, name, ps);
    assert first == RenderNested(env, Include(name, false), root, root, fuel - 1);
    assert first == RenderInclude(env, name, false, root, fuel - 1);
    if first.out.Ok? {
      StepsGrow(stored.(inBlockHelper := false), ps, root, root, fuel - 1);
      assert name in first.caches.layouts && first.caches.layouts[name] == ps;
      var next := env.(caches := first.caches);
      CachedLayoutWins(next, name, true, root, root, fuel);
      var second := RenderStep(next, Inherit(name), root, root, fuel);
      var steps := [Placed(a, b, Include(name, false)), Placed(b, c, Inherit(name))];
      assert steps[1..] == [Placed(b, c, Inherit(name))];
      assert steps[1..][1..] == [];
      assert next.(inBlockHelper := false) == env.(caches := first.caches, inBlockHelper := false);
      assert second == RenderSteps(env.(caches := first.caches, inBlockHelper := false), ps, root, root, fuel - 1);
      var tail := RenderSteps(next, steps[1..], root, root, fuel);
      if second.out.Ok? {
        assert second.out.value + "" == second.out.value;
        assert tail == Then(second, RenderSteps(next.(caches := second.caches), [], root, root, fuel));
      }
      assert tail == second;
      assert RenderSteps(env, steps, root, root, fuel) == Then(first, tail);
    }
  }
}
