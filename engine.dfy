/**
 * The engine's state: the registries of layouts, components and helpers,
 * and the caches of compiled templates, with `compile` validating its input
 * and memoizing what it compiles.
 */
module Engine {
  import opened Common
  import opened Strings
  import opened Scanner
  import opened Plan
  import opened Render
  import opened Lines
  import opened Values

  /**
   * What identifies a compilation: the template, the escape option and the
   * template name. (The engine as written joins them into one string; see
   * `KeyAsWritten`.)
   */
  datatype CacheKey = CacheKey(template: string, escape: bool, name: Option<string>)

  /** Why `compile` rejects a template: invalid input, or a syntax error located by line and column. */
  datatype CompileFailure =
    | Invalid(reason: CompileError)
    | SyntaxAt(scan: ScanError, line: int, column: int)

  /** Offset of a scanner error, relative to the text it was found in. */
  function ErrorOffset(e: ScanError): nat {
    match e
    case UnclosedRaw(at) => at
    case Unclosed(_, at) => at
  }

  /** The line starts a `LineTracker` records for a template. */
  function LineStartsOf(t: string): (starts: seq<int>)
  {
    var ls := Split(t, '\n');
    seq(|ls|, i requires 0 <= i < |ls| => StartOf(ls, i))
  }

  /** `compile` compiles `t` under `esc` as `Compiled` does. */
  ghost predicate Agrees(compile: (string, bool) -> Result<seq<Placed>, CompileError>, t: string, esc: bool) {
    compile(t, esc) == Compiled(t, esc)
  }

  /** The names the engine accepts: not empty once trimmed. */
  predicate ValidName(name: string) {
    Trim(name) != []
  }

  class Engine {
    var layouts: map<string, string>
    var components: map<string, string>
    var helpers: map<string, FnId>
    /** Written by `RegisterBlockHelper` and read nowhere. */
    var blockHelpers: map<string, FnId>
    var compiledCache: map<CacheKey, seq<Placed>>
    var layoutCache: map<string, seq<Placed>>
    var componentCache: map<string, seq<Placed>>
    /** The compiler behind the caches: `Compiled`, as `Faithful` states. */
    const compiler: (string, bool) -> Result<seq<Placed>, CompileError>

    ghost predicate Faithful()
    {
      forall t, esc :: Agrees(compiler, t, esc)
    }

    /**
     * Every cached compilation is the compilation of what it is cached
     * for: a compiled template of its own template and escape option, a
     * cached layout or component of its currently registered text under
     * one of the two options.
     */
    ghost predicate Valid()
      reads this
    {
      (forall k :: k in compiledCache ==> compiler(k.template, k.escape) == Ok(compiledCache[k]))
      && (forall n :: n in layoutCache ==>
            n in layouts && (compiler(layouts[n], true) == Ok(layoutCache[n]) || compiler(layouts[n], false) == Ok(layoutCache[n])))
      && (forall n :: n in componentCache ==>
            n in components && (compiler(components[n], true) == Ok(componentCache[n]) || compiler(components[n], false) == Ok(componentCache[n])))
    }

    /** The registries: layouts, components, helpers and block helpers. */
    ghost function Registry(): (map<string, string>, map<string, string>, map<string, FnId>, map<string, FnId>)
      reads this
    {
      (layouts, components, helpers, blockHelpers)
    }

    constructor ()
      ensures Valid() && Faithful()
      ensures layouts == map[] && components == map[] && helpers == map[] && blockHelpers == map[]
      ensures compiledCache == map[] && layoutCache == map[] && componentCache == map[]
    {
      layouts := map[];
      components := map[];
      helpers := map[];
      blockHelpers := map[];
      compiledCache := map[];
      layoutCache := map[];
      componentCache := map[];
      compiler := (t, esc) => Compiled(t, esc);
    }

    /** What a running template sees of the engine. */
    function EnvOf(host: Host): (env: Env)
      reads this
      ensures env.layouts == layouts && env.components == components && env.helpers == helpers
      ensures env.caches == Caches(layoutCache, componentCache)
      ensures !env.inBlockHelper
    {
      Env(compiler, layouts, components, helpers, Caches(layoutCache, componentCache), host, false)
    }

    /** A faithful engine hands running templates a compiler that is `Compiled`. */
    lemma EnvCompilesFaithfully(host: Host)
      requires Faithful()
      ensures WellCompiled(EnvOf(host))
    {
      forall t, esc
        ensures EnvOf(host).compile(t, esc) == Compiled(t, esc)
      {
        assert Agrees(compiler, t, esc);
      }
    }

    /** `registerLayout`: a valid name gets the content and loses its cached compilation, and nothing else changes. */
    method RegisterLayout(name: string, content: string) returns (accepted: bool)
      requires Valid()
      modifies this
      ensures Valid()
      ensures accepted <==> ValidName(name)
      ensures accepted ==> layouts == old(layouts)[name := content] && layoutCache == old(layoutCache) - {name}
      ensures !accepted ==> layouts == old(layouts) && layoutCache == old(layoutCache)
      ensures components == old(components) && helpers == old(helpers) && blockHelpers == old(blockHelpers)
      ensures compiledCache == old(compiledCache) && componentCache == old(componentCache)
    {
      accepted := ValidName(name);
      if accepted {
        layouts := layouts[name := content];
        layoutCache := layoutCache - {name};
      }
    }

    /** `registerComponent`, the same for components. */
    method RegisterComponent(name: string, template: string) returns (accepted: bool)
      requires Valid()
      modifies this
      ensures Valid()
      ensures accepted <==> ValidName(name)
      ensures accepted ==> components == old(components)[name := template] && componentCache == old(componentCache) - {name}
      ensures !accepted ==> components == old(components) && componentCache == old(componentCache)
      ensures layouts == old(layouts) && helpers == old(helpers) && blockHelpers == old(blockHelpers)
      ensures compiledCache == old(compiledCache) && layoutCache == old(layoutCache)
    {
      accepted := ValidName(name);
      if accepted {
        components := components[name := template];
        componentCache := componentCache - {name};
      }
    }

    /** `registerHelper`: a valid name gets the function; no cache is touched. */
    method RegisterHelper(name: string, f: FnId) returns (accepted: bool)
      requires Valid()
      modifies this
      ensures Valid()
      ensures accepted <==> ValidName(name)
      ensures helpers == if accepted then old(helpers)[name := f] else old(helpers)
      ensures layouts == old(layouts) && components == old(components) && blockHelpers == old(blockHelpers)
      ensures compiledCache == old(compiledCache) && layoutCache == old(layoutCache) && componentCache == old(componentCache)
    {
      accepted := ValidName(name);
      if accepted {
        helpers := helpers[name := f];
      }
    }

    /** `registerBlockHelper`: a valid name gets the function among the block helpers and among the helpers. */
    method RegisterBlockHelper(name: string, f: FnId) returns (accepted: bool)
      requires Valid()
      modifies this
      ensures Valid()
      ensures accepted <==> ValidName(name)
      ensures helpers == if accepted then old(helpers)[name := f] else old(helpers)
      ensures blockHelpers == if accepted then old(blockHelpers)[name := f] else old(blockHelpers)
      ensures layouts == old(layouts) && components == old(components)
      ensures compiledCache == old(compiledCache) && layoutCache == old(layoutCache) && componentCache == old(componentCache)
    {
      accepted := ValidName(name);
      if accepted {
        blockHelpers := blockHelpers[name := f];
        helpers := helpers[name := f];
      }
    }

    /** `clearTemplateCache`: every cache is emptied; the registries stay. */
    method ClearTemplateCache()
      modifies this
      ensures Valid()
      ensures compiledCache == map[] && layoutCache == map[] && componentCache == map[]
      ensures layouts == old(layouts) && components == old(components)
      ensures helpers == old(helpers) && blockHelpers == old(blockHelpers)
    {
      compiledCache := map[];
      layoutCache := map[];
      componentCache := map[];
    }

    /**
     * `compile`: reject an empty, blank or oversized template, answer from
     * the cache when the same template, options and name were compiled
     * before, otherwise run `processTemplate` and cache its success. A
     * syntax error is reported with the line and column the template's
     * `LineTracker` gives its offset. Whether or not the cache answers,
     * the result is the compilation of the template given.
     */
    method Compile(template: string, esc: bool, name: Option<string>) returns (r: Result<seq<Placed>, CompileFailure>)
      requires Valid() && Faithful()
      modifies this
      ensures Valid()
      ensures r.Ok? ==> compiler(template, esc) == Ok(r.value)
      ensures r.Err? ==> compiler(template, esc) == Err(CompileErrorOf(r.error))
      ensures r.Err? ==> Located(template, r.error)
      ensures r.Ok? ==> compiledCache == old(compiledCache)[CacheKey(template, esc, name) := r.value]
      ensures r.Err? ==> compiledCache == old(compiledCache)
      ensures Registry() == old(Registry()) && layoutCache == old(layoutCache) && componentCache == old(componentCache)
    {
      if |template| == 0 || Trim(template) == [] {
        assert Agrees(compiler, template, esc);
        return Err(Invalid(EmptyTemplate));
      }
      if |template| > MaxLength {
        assert Agrees(compiler, template, esc);
        return Err(Invalid(TooLarge(|template|)));
      }
      var key := CacheKey(template, esc, name);
      if key in compiledCache {
        var ps := compiledCache[key];
        return Ok(ps);
      }
      r := Translate(template, esc, compiler);
      if r.Ok? {
        compiledCache := compiledCache[key := r.value];
      }
    }

    /**
     * `compileLayout` as a compiled template calls it: the cached layout,
     * else the registered layout compiled and cached under its name; a
     * layout that is missing or registered as "" is an error. It answers
     * what a running template computes for the same layout.
     */
    method CompileLayout(name: string, esc: bool, host: Host) returns (r: Result<seq<Placed>, RenderError>)
      requires Valid() && Faithful()
      modifies this
      ensures Valid()
      ensures r == old(LayoutProgram(EnvOf(host), name, esc))
      ensures r.Ok? ==> layoutCache == old(layoutCache)[name := r.value]
      ensures r.Err? ==> layoutCache == old(layoutCache)
      ensures old(name in layoutCache) || r.Err? ==> compiledCache == old(compiledCache)
      ensures !old(name in layoutCache) && r.Ok? ==>
        compiledCache == old(compiledCache)[CacheKey(old(layouts[name]), esc, Some("layout:" + name)) := r.value]
      ensures Registry() == old(Registry()) && componentCache == old(componentCache)
    {
      if name in layoutCache {
        var ps := layoutCache[name];
        return Ok(ps);
      }
      if name !in layouts || layouts[name] == "" {
        return Err(LayoutNotFound(name));
      }
      var c := Compile(layouts[name], esc, Some("layout:" + name));
      match c
      case Ok(ps) =>
        layoutCache := layoutCache[name := ps];
        r := Ok(ps);
      case Err(f) =>
        r := Err(Uncompilable(name, CompileErrorOf(f)));
    }

    /** `compileComponent`, the same for components. */
    method CompileComponent(name: string, esc: bool, host: Host) returns (r: Result<seq<Placed>, RenderError>)
      requires Valid() && Faithful()
      modifies this
      ensures Valid()
      ensures r == old(ComponentProgram(EnvOf(host), name, esc))
      ensures r.Ok? ==> componentCache == old(componentCache)[name := r.value]
      ensures r.Err? ==> componentCache == old(componentCache)
      ensures old(name in componentCache) || r.Err? ==> compiledCache == old(compiledCache)
      ensures !old(name in componentCache) && r.Ok? ==>
        compiledCache == old(compiledCache)[CacheKey(old(components[name]), esc, Some("component:" + name)) := r.value]
      ensures Registry() == old(Registry()) && layoutCache == old(layoutCache)
    {
      if name in componentCache {
        var ps := componentCache[name];
        return Ok(ps);
      }
      if name !in components || components[name] == "" {
        return Err(ComponentNotFound(name));
      }
      var c := Compile(components[name], esc, Some("component:" + name));
      match c
      case Ok(ps) =>
        componentCache := componentCache[name := ps];
        r := Ok(ps);
      case Err(f) =>
        r := Err(Uncompilable(name, CompileErrorOf(f)));
    }

    /**
     * Calling a compiled template on `data`: the output, or the error it
     * throws, of running its program on the engine as it stands; the
     * layouts and components it compiles along the way stay cached for
     * later calls, and nothing cached before is dropped or replaced.
     */
    method RunCompiled(ps: seq<Placed>, data: Value, host: Host, fuel: nat) returns (out: Result<string, RenderError>)
      requires Valid()
      modifies this
      ensures Valid()
      ensures var r := old(Run(EnvOf(host), ps, data, fuel));
        out == r.out && layoutCache == r.caches.layouts && componentCache == r.caches.components
      ensures forall n :: n in old(layoutCache) ==> n in layoutCache && layoutCache[n] == old(layoutCache)[n]
      ensures forall n :: n in old(componentCache) ==> n in componentCache && componentCache[n] == old(componentCache)[n]
      ensures Registry() == old(Registry()) && compiledCache == old(compiledCache)
    {
      var env := EnvOf(host);
      var r := Run(env, ps, data, fuel);
      RunGrows(env, ps, data, fuel);
      assert CachesSound(compiler, layouts, components, env.caches);
      layoutCache := r.caches.layouts;
      componentCache := r.caches.components;
      out := r.out;
    }
  }

  /**
   * A failure located as `compile` reports it: a syntax error carries the
   * line of its offset (the number of line starts at or before it, at
   * least 1) and the column counted from that line's start, both from 1.
   */
  predicate Located(template: string, f: CompileFailure) {
    f.SyntaxAt? ==>
      var starts := LineStartsOf(template);
      var at := ErrorOffset(f.scan);
      f.line == Max(1, CountAtMost(starts, at)) && 1 <= f.line <= |starts| &&
      f.column == at - starts[f.line - 1] + 1 && f.column >= 1
  }

  /** A syntax error placed by the template's `LineTracker`. */
  method Locate(template: string, e: ScanError) returns (f: CompileFailure)
    ensures f.SyntaxAt? && f.scan == e && Located(template, f)
  {
    var tracker := new LineTracker(template);
    var line, column := tracker.GetPosition(ErrorOffset(e));
    assert tracker.linePositions == LineStartsOf(template);
    f := SyntaxAt(e, line, column);
  }

  /**
   * The uncached part of `compile`: `processTemplate` on a template that
   * passed validation, a syntax error located. The outcome is the
   * compilation `compile` names.
   */
  method Translate(template: string, esc: bool, ghost compile: (string, bool) -> Result<seq<Placed>, CompileError>)
    returns (r: Result<seq<Placed>, CompileFailure>)
    requires |template| > 0 && Trim(template) != [] && |template| <= MaxLength
    requires Agrees(compile, template, esc)
    ensures r.Ok? ==> compile(template, esc) == Ok(r.value)
    ensures r.Err? ==> compile(template, esc) == Err(CompileErrorOf(r.error)) && Located(template, r.error)
  {
    var res := ProcessTemplate(template, esc);
    CompiledIsProcessed(template, esc);
    match res
    case Ok(ps) =>
      r := Ok(ps);
    case Err(e) =>
      var f := Locate(template, e);
      r := Err(f);
  }

  /** The compile error behind a failure. */
  function CompileErrorOf(f: CompileFailure): CompileError {
    match f
    case Invalid(e) => e
    case SyntaxAt(e, _, _) => Syntax(e)
  }

  // ---------------------------------------------------------------------
  // The cache key as written
  // ---------------------------------------------------------------------

  /** `JSON.stringify({ escape })`. */
  function OptionsJson(esc: bool): string {
    if esc then "{\"escape\":true}" else "{\"escape\":false}"
  }

  /** The key the engine as written caches under: template, then options as JSON, then the name or "". */
  function KeyAsWritten(template: string, esc: bool, name: Option<string>): string {
    template + OptionsJson(esc) + (match name case Some(n) => n case None => "")
  }

  /**
   * Two different compilations share a key as written: template "a"
   * escaped and named `{"escape":false}`, and template `a{"escape":true}`
   * unescaped and unnamed. Whichever is compiled first is handed back for
   * the other; as separate keys they are distinct.
   */
  lemma KeyAsWrittenCollides()
    ensures KeyAsWritten("a", true, Some("{\"escape\":false}")) == KeyAsWritten("a{\"escape\":true}", false, None)
    ensures CacheKey("a", true, Some("{\"escape\":false}")) != CacheKey("a{\"escape\":true}", false, None)
  {
    assert KeyAsWritten("a", true, Some("{\"escape\":false}")) == "a{\"escape\":true}{\"escape\":false}";
  }

  /**
   * The colliding pair compiles to different programs whenever both
   * compile: a program tiles templates of one length, and the two differ
   * in length. So the entry cached for one is wrong for the other.
   */
  lemma KeyAsWrittenServesOther()
    ensures Compiled("a", true).Ok? && Compiled("a{\"escape\":true}", false).Ok? ==>
      Compiled("a", true).value != Compiled("a{\"escape\":true}", false).value
  {
    var t, u := "a", "a{\"escape\":true}";
    if Compiled(t, true).Ok? && Compiled(u, false).Ok? && Compiled(t, true).value == Compiled(u, false).value {
      TilesLength(t, u, Compiled(t, true).value, 0);
      assert false;
    }
  }
}
