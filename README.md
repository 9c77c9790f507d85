# uwu-template engine, modelled in Dafny

This project models the template engine of `src/engine.ts`. The engine
compiles a Handlebars-like template into a JavaScript function and
caches it. The function writes the template's text and fills in its
constructs:

- variables `{{path}}`, escaped or not;
- helper calls `{{name args}}` and `{{{name args}}}`;
- `{{#each}}` loops;
- `{{#if}}` / `{{#elseif}}` / `{{#else}}` chains;
- block helpers `{{#name args}}...{{else}}...{{/name}}`;
- layouts `{{> name}}` and components `{{component name props}}`;
- raw blocks `{{{{raw}}}}...{{{{/raw}}}}`;
- `{{extends name}}` and `{{#block name}}`.

The engine keeps registries of layouts, components, helpers and block
helpers. It also keeps three caches of compiled templates.

The model follows the engine's structure, one module per component:

| module | what it is in the engine |
|---|---|
| `Strings` | the JavaScript string primitives the engine relies on (`trim`, `\s`, `indexOf`, `slice`, `split`, `join`) |
| `Values` | the data a template reads: JSON-like values, property access and `String()` |
| `Escaper` | the HTML escaping table and `escape` |
| `Lines` | the `LineTracker` class: line starts, positions, line content, diagnostic context |
| `Markers` | the regular expressions of the scanner, as exact shape predicates with a leftmost-match search |
| `BlockMatch` | `findMatchingBlockEnd`, the nesting-aware search for a block's closing tag |
| `Structure` | `parseIfElseStructure` and `parseBlockHelperStructure` |
| `Arguments` | `tokenizeArguments` and `parseHelperArguments` |
| `Paths` | `generateDataAccessor` / `generateSubPath`, as the sequence of property reads the code performs |
| `Scanner` | `findNextConstruct`: the ten probes, their priorities and the choice of the earliest construct |
| `Plan` | `processTemplate` and the code generators, as a program of steps rather than JavaScript text |
| `Render` | what the generated function does when it runs: an interpreter over those steps |
| `Engine` | the module state (registries and caches) as a class, with `compile`, the registration functions, `clearTemplateCache`, the on-demand `compileLayout` / `compileComponent` and the call of a compiled template |

The generated JavaScript is not modelled as text. Each generator is
modelled by the step it emits: `Text`, `Verbatim`, `Output`, `Call`,
`Loop`, `Choose`, `Invoke`, `Define`, `Include`, `Embed` or `Inherit`.
Module `Render` gives each step the meaning its generated code has. A run
reads and writes the layout and component caches, which the engine keeps
in module-level maps, so `Render` returns them along with the output.

JavaScript functions the engine only calls are parameters of the model,
in the `Host` datatype:

- registered helpers and block helpers;
- the evaluation of rewritten `if` conditions.

A block helper's result is either a value it returns, or output it
builds from its own text and calls of `options.fn` / `options.inverse`.

Recursion through layouts and components is bounded by a fuel
parameter. In the engine, unbounded recursion ends in a stack overflow.

## Model

| member | source | states |
|---|---|---|
| Escaper.Escape | src/engine.ts:143-157 | the loop's result is the text with every character of the table replaced by its entity, in order; text without those characters comes back unchanged |
| Escaper.EscapedIsSafe | src/engine.ts:135-141 | no `<`, `>`, `"`, `'` or backquote survives escaping, and every `&` left begins an entity |
| Escaper.UnescapeEscaped | src/engine.ts:135-157 | decoding the six entities gives back exactly the original text: escaping loses nothing |
| Escaper.EscapedNoSpecial | src/engine.ts:143-157 | text with none of the six characters is left unchanged |
| Escaper.EscapedAppend | src/engine.ts:143-157 | escaping works character by character, so it distributes over concatenation |
| Lines.LineStarts | src/engine.ts:69-78 | the recorded start of each line is the sum of the earlier lines' lengths plus one newline each |
| Lines.StartsIncrease | src/engine.ts:69-78 | recorded line starts strictly increase, which the line search relies on |
| Lines.FindLine | src/engine.ts:80-93 | the loop finds the last line start at or before the offset (line 1 before all of them), with that start at or before the offset and the next start after it |
| Lines.LineTracker.constructor | src/engine.ts:69-78 | the tracker holds the template's lines and their start offsets |
| Lines.LineTracker.GetPosition | src/engine.ts:80-93 | the line is the 1-based line containing the offset, and the column is the offset's distance from that line's start plus one, at least 1 for offsets in the text |
| Lines.LineIsNewlineCount | src/engine.ts:80-93 | the line `getPosition` reports is one plus the number of newlines before the offset, and no newline lies between the line's start and the offset |
| Lines.LineTracker.LineContent | src/engine.ts:95-97 | an existing line's text is the part of the template between its start and its newline; a line out of range gives "" |
| Lines.ContextLines | src/engine.ts:99-111 | the loop builds exactly the numbered rows from `line - radius` to `line + radius`, clipped to the text |
| Lines.LineTracker.GetContext | src/engine.ts:99-111 | the context is those rows joined with newlines |
| Lines.ContextWindowMarksLine | src/engine.ts:99-111 | the context contains the offending line, marked with `>`, and marks no other line |
| Values.GetIndex | src/engine.ts:1471-1484 | reading the printed index `i` of an array gives its element `i` |
| Paths.SubPath | src/engine.ts:1471-1484 | a path is read one property per `.`-separated part, so there is at least one read |
| Paths.ThisIsData | src/engine.ts:1433-1436 | `this` reads the current data itself |
| Paths.EvalNullish | src/engine.ts:1471-1484 | optional chaining: once a read gives null or undefined, the whole path is undefined |
| Paths.OrdinaryPath | src/engine.ts:1433-1469 | an ordinary path reads its `.`-separated parts in order, and they join back to the path |
| Paths.ParentPath | src/engine.ts:1437-1445 | `@parent.rest` reads `@parent` and then the parts of `rest` |
| Paths.DottedKeys | src/engine.ts:1433-1469 | keys without dots, written with dots between them, are read back exactly |
| Markers.FirstMatch | src/engine.ts:542-898 | a reported match lies at or after the search start and is a match of the pattern |
| Markers.FirstMatchLeftmost | src/engine.ts:542-898 | no match lies between the search start and the reported match; a match exists only if one is reported |
| Markers.Scan | src/engine.ts:1524-1593 | the matches of a global regular expression lie in the text, after the start, and do not overlap |
| Markers.ScanComplete | src/engine.ts:1524-1593 | every match of the pattern after the start is reported or lies inside a reported match |
| Markers.ScanSpans | src/engine.ts:1524-1593 | every reported span is the span of a real match at its offset |
| Markers.TripleIsMustache | src/engine.ts:652-753 | every `{{{...}}}` tag is also read by the variable pattern, ending one character earlier, so the two compete by priority |
| Markers.KeywordIsMustache | src/engine.ts:739-753 | a keyword tag whose word does not start with `#`, `/`, `>` or `!` is also read by the variable pattern, with the same end |
| BlockMatch.FindMatchingBlockEnd | src/engine.ts:903-946 | the matcher returns the end of the closing tag that balances the opening tag, counting nested tags of the same name, or the text's length |
| BlockMatch.Walk | src/engine.ts:915-945 | the loop keeps the depth of nesting and stops where the sequence of tags first balances |
| BlockMatch.TagsValid | src/engine.ts:915-945 | every tag the walk meets is a real opening or closing tag of that name |
| BlockMatch.FirstZeroSpec | src/engine.ts:915-945 | the balancing tag is the first after which the depth is zero; without one the depth stays positive throughout |
| BlockMatch.FirstZeroIsClose | src/engine.ts:915-945 | the depth only falls to zero on a closing tag |
| BlockMatch.BlockEndBounds | src/engine.ts:903-946 | the block's end is within the text and, for an opening tag inside it, past the opening tag |
| BlockMatch.BlockEndIsBalancedClose | src/engine.ts:903-946 | an end inside the text is the end of a closing tag that balances the opening tag |
| BlockMatch.UnclosedRunsToEnd | src/engine.ts:903-946 | with no closing tag after the opening, the block runs to the end of the text |
| BlockMatch.FlatBlockEnd | src/engine.ts:903-946 | with no nested opening tag before it, the first closing tag ends the block |
| Structure.CollectElseifTags | src/engine.ts:1544-1550 | the exec loop collects every match of the global elseif pattern, in order |
| Structure.CutElseifs | src/engine.ts:1568-1584 | branch `i` runs from the end of its tag to the next elseif tag, else the `{{#else}}`, else the end of the body |
| Structure.CutBranches | src/engine.ts:1555-1590 | the if branch, then the elseif branches, then the else branch are cut at those boundaries |
| Structure.ParseIfElseStructure | src/engine.ts:1524-1593 | the structure of an if body is the one cut at its elseif matches and its first `{{#else}}` |
| Structure.ElseifTagsOrdered | src/engine.ts:1544-1550 | the elseif tags follow one another without overlapping |
| Structure.ElseifTagsCover | src/engine.ts:1544-1550 | every elseif match in the body is a reported tag or lies inside one |
| Structure.ElseifBranches | src/engine.ts:1568-1584 | there is one elseif branch per elseif match, in order, with that match's trimmed condition |
| Structure.ElseBranch | src/engine.ts:1552-1590 | the else branch is the trimmed text after the first `{{#else}}` |
| Structure.NoMarkersKeepsBody | src/engine.ts:1524-1593 | a body with neither marker is the if branch as it is, untrimmed, with no elseif and an empty else |
| Structure.IfElseWithin | src/engine.ts:1524-1593 | every part of the structure is cut out of the body, so none is longer |
| Structure.BlockHelperStructure | src/engine.ts:1598-1614 | without `{{else}}` the whole body is the main part; the main part never contains `{{else}}`; neither part is longer than the body |
| Structure.BlockHelperSplit | src/engine.ts:1598-1614 | with `{{else}}`, the parts are the trimmed texts before and after its first occurrence |
| Arguments.TokenizeArguments | src/engine.ts:1717-1748 | the loop computes the tokenizer's tokens, and every token is non-empty and trimmed |
| Arguments.TokensClean | src/engine.ts:1717-1748 | the tokenizer only emits non-empty tokens without surrounding white space |
| Arguments.QuotedToken | src/engine.ts:1717-1748 | a quoted argument is one token, quotes kept, even when it contains spaces |
| Arguments.TokensJoin | src/engine.ts:1717-1748 | plain words separated by spaces tokenize back to exactly those words |
| Arguments.ParseHelperArguments | src/engine.ts:1688-1715 | positional arguments are the tokens without `=`, in order; the hash maps each `key=value` token's key to its value |
| Arguments.SortTokens | src/engine.ts:1698-1709 | the loop sorts the tokens into positional arguments and hash options as above |
| Arguments.PositionalAll | src/engine.ts:1698-1709 | without `=` in any token, every token is positional and the hash is empty |
| Arguments.PositionalHasNoPair | src/engine.ts:1698-1709 | no positional argument contains `=`, and each is one of the tokens |
| Arguments.HashDomain | src/engine.ts:1698-1709 | the hash has an entry for exactly the keys some token supplies |
| Arguments.HashLastWins | src/engine.ts:1698-1709 | the last token with a given key decides its value |
| Scanner.StripQuotesNoOp | src/engine.ts:567 | removing quotes leaves a name without quotes unchanged |
| Scanner.ExtendsProbe | src/engine.ts:557-573 | the extends probe never fails, and a candidate it reports lies in the rest of the text with the extends kind and priority |
| Scanner.BlockProbe | src/engine.ts:576-600 | the same for `{{#block}}`, whose body is shorter than the template |
| Scanner.RawProbe | src/engine.ts:603-632 | the raw probe fails only with an unclosed raw block; a candidate it reports fits |
| Scanner.LayoutProbe | src/engine.ts:633-649 | the layout probe never fails; a candidate it reports fits |
| Scanner.TripleProbe | src/engine.ts:652-692 | the triple probe never fails; a candidate it reports fits |
| Scanner.ComponentProbe | src/engine.ts:695-736 | the component probe never fails; a candidate it reports fits |
| Scanner.VariableProbe | src/engine.ts:739-753 | the variable probe never fails; a candidate it reports fits |
| Scanner.EachProbe | src/engine.ts:754-784 | the each probe never fails; a candidate it reports fits, with a body shorter than the template |
| Scanner.BlockHelperProbe | src/engine.ts:787-834 | the block helper probe never fails; a candidate it reports fits |
| Scanner.IfProbe | src/engine.ts:836-871 | the if probe never fails; a candidate it reports fits |
| Scanner.FindNextConstruct | src/engine.ts:542-898 | the method runs the probes in the engine's order and returns the construct the scan specifies |
| Scanner.FirstCandidates | src/engine.ts:557-632 | the first three probes gather their candidates, or the raw probe's error |
| Scanner.MiddleCandidates | src/engine.ts:633-753 | the next four probes add their candidates and never fail |
| Scanner.MoreCandidates | src/engine.ts:754-871 | the last three probes add their candidates and never fail |
| Scanner.BestIndex | src/engine.ts:875-883 | the chosen candidate sorts first: none starts before it, or at the same offset with a smaller priority, and every earlier one in the list sorts after it |
| Scanner.NoneIffNoProbe | src/engine.ts:873-883 | the scan reports no construct exactly when no probe found one |
| Scanner.ChosenIsCandidate | src/engine.ts:875-883 | the reported construct is one probe's candidate |
| Scanner.ChosenIsEarliest | src/engine.ts:875-883 | no probe's candidate sorts before the reported one |
| Scanner.ChosenFits | src/engine.ts:875-883 | the reported candidate lies in the rest of the text and has its probe's kind and priority |
| Scanner.ConstructFits | src/engine.ts:542-898 | the construct returned lies within the rest of the text and keeps content shorter than the template |
| Scanner.OnlyRawFails | src/engine.ts:603-632 | the only error the scan can raise is an unclosed raw block |
| Scanner.UnclosedRawFails | src/engine.ts:603-632 | a raw opening tag without a closing tag after it makes the scan fail at the opening tag |
| Scanner.RawTagsApart | src/engine.ts:603-632 | with a closing tag, the raw opening and closing tags do not overlap |
| Scanner.RawProbeSpan | src/engine.ts:603-632 | a raw construct spans from its opening tag to the end of the first closing tag, and keeps exactly the text between the tags |
| Scanner.RawContentNoClose | src/engine.ts:603-632 | the text a raw construct keeps holds no closing raw tag |
| Plan.HelperSplitSound | src/engine.ts:1060-1064 | a helper name and argument text found in a variable are a reading of it by the helper pattern |
| Plan.HelperSplitComplete | src/engine.ts:1060-1064 | whenever the helper pattern can read the variable, a reading with the same name is found |
| Plan.ProcessTemplate | src/engine.ts:449-498 | the loop emits, from the start of the template, the steps the compilation specifies, or the scan's first error |
| Plan.CompileOne | src/engine.ts:460-495 | one round of the loop: an error stops it, no construct emits the rest as text, a construct emits the text before it and its own step and resumes at its end |
| Plan.CompileTiles | src/engine.ts:449-498 | what `processTemplate` emits tiles the template: pieces follow one another from the start to the end, and text pieces hold exactly the template's text |
| Plan.TilesLength | src/engine.ts:449-498 | a program tiles templates of one length only |
| Plan.NoConstructIsText | src/engine.ts:449-498 | a template in which no probe finds anything compiles to one piece of text: the template itself |
| Plan.Compiled | src/engine.ts:251-302 | `compile` rejects exactly the empty or blank templates as empty and exactly the other templates over the maximum length as too large; what it accepts is tiled by its program |
| Render.PlainTemplateRendersItself | src/engine.ts:449-498 | a template without constructs renders as itself, whatever the data |
| Render.OutputMeaning | src/engine.ts:1054-1092 | a variable renders nothing when null or undefined; with escaping, a string comes out so that decoding gives it back and no markup character is raw; without escaping, as `String()` |
| Render.EachConcatenates | src/engine.ts:1194-1228 | an each loop renders its body once per item, in order, each with the item as its data and the caches the previous item left |
| Render.EachMeaning | src/engine.ts:1194-1228 | an each over a non-array renders nothing; over an array it renders its items |
| Render.FirstTrueSound | src/engine.ts:1366-1430 | the chosen branch's condition holds and no earlier one does; when none is chosen, no condition holds |
| Render.FirstTrueFinds | src/engine.ts:1366-1430 | the first branch whose condition holds is the one chosen |
| Render.IfChosen | src/engine.ts:1366-1430 | an if renders the branch of the first condition that holds |
| Render.IfOtherwise | src/engine.ts:1366-1430 | an if whose conditions all fail renders its else part |
| Render.PositionalPropsAt | src/engine.ts:1128-1146 | positional component argument `i` is the prop `"i"` |
| Render.PositionalPropsKeys | src/engine.ts:1128-1146 | the positional props are exactly `"0"` up to the number of arguments |
| Render.PropsParent | src/engine.ts:1166-1174 | a component's `@parent` prop is the data of the template that includes it |
| Render.PropsNamed | src/engine.ts:1148-1165 | a named prop other than `@parent` holds the value of its argument |
| Render.PropsPositional | src/engine.ts:1128-1165 | positional prop `"i"` holds argument `i` unless a named prop of the same key overrides it |
| Render.PropsKeys | src/engine.ts:1117-1191 | a component gets exactly the props `@parent`, its named props and its positional props |
| Render.LayoutMeaning | src/engine.ts:1095-1112 | an unregistered layout renders nothing; one registered as "" and not cached fails with "Layout not found" |
| Render.ExtendsMeaning | src/engine.ts:1762-1789 | a base registered nowhere fails with "Base template not found"; a base registered only as a component passes that check and then fails with "Layout not found" |
| Render.RewriteAltersText | src/engine.ts:1284-1315 | with the bodies rewritten as the engine does, text `result += 1` inside a block helper comes out as `childResult += 1`; left as compiled, it comes out unchanged |
| Render.BlockHelperCompilesText | src/engine.ts:1230-1364 | a block helper around plain text without `{{else}}` compiles to that text as its `fn` body and nothing as its `inverse` |
| Render.FnKeepsText | src/engine.ts:1284-1315 | without the rewrite, `fn` renders a text body exactly as written and `inverse` renders an empty else part as nothing, on any context that does not leave `childData` read before it is initialised |
| Render.NestedFallbackFails | src/engine.ts:1280-1315 | a block helper calling `fn` with a falsy context renders its body on the current data at the top of a template, but fails with a reference to `childData` inside another block helper's body |
| Render.BlockStopsRun | src/engine.ts:1794-1825 | a run that reaches a `{{#block}}` always fails; when the steps before it are plain it fails there, because the block's code reads `templateBlocks`, which the generated function cannot see |
| Render.StepsGrow | src/engine.ts:319-363 | running code never drops or replaces a cached layout or component, and each entry it adds is a compilation of the registered text |
| Render.RunGrows | src/engine.ts:366-392 | the same for a whole call of a compiled template |
| Render.CachedLayoutWins | src/engine.ts:319-340 | a cached layout is what `{{> name}}` and `{{extends name}}` run, whatever escape option they ask for |
| Render.ExtendsReusesInclude | src/engine.ts:1762-1789 | after `{{> L}}` in a template compiled without escaping has compiled and cached L, `{{extends L}}` runs that unescaped program although it asks for escaping |
| Engine.Engine.RunCompiled | src/engine.ts:366-392 | calling a compiled template gives its run's output or error, and leaves in the engine's caches what the run compiled, keeping every earlier entry and the cache invariant |
| Engine.Engine.constructor | src/engine.ts:160-171 | a new engine has empty registries and caches |
| Engine.Engine.RegisterLayout | src/engine.ts:173-183 | a name that is non-blank once trimmed is accepted, gets the content and loses its cached layout; a blank one is rejected with no change; nothing else changes and every cache stays valid |
| Engine.Engine.RegisterComponent | src/engine.ts:185-195 | the same for components and the component cache |
| Engine.Engine.RegisterHelper | src/engine.ts:197-208 | a non-blank name gets the function among the helpers; no cache is touched |
| Engine.Engine.RegisterBlockHelper | src/engine.ts:210-219 | a non-blank name gets the function among the block helpers and the helpers |
| Engine.Engine.ClearTemplateCache | src/engine.ts:532-537 | every cache is emptied and the registries stay |
| Engine.Engine.Compile | src/engine.ts:236-426 | the result is the compilation of the template under the escape option: validation errors, or a syntax error located at its line and column; a success is cached under the template's key and a hit is served from the cache; the registries never change and the caches stay valid |
| Engine.Engine.CompileLayout | src/engine.ts:318-339 | the layout's program is the cached one, or "Layout not found" for a missing or empty layout, or its compilation, which is then cached under the layout's name |
| Engine.Engine.CompileComponent | src/engine.ts:342-363 | the same for components |
| Engine.Engine.EnvCompilesFaithfully | src/engine.ts:365-405 | the compiler a running template calls for layouts and components is `compile` itself |
| Engine.Locate | src/engine.ts:294-302 | a syntax error is reported at the line and column `LineTracker` gives for its offset |
| Engine.Translate | src/engine.ts:294-302 | a valid template's program, or its syntax error with its location, is what compiling it gives |
| Engine.KeyAsWrittenCollides | src/engine.ts:289 | two different compilations (template, options, name) share one cache key as the engine writes it |
| Engine.KeyAsWrittenServesOther | src/engine.ts:289-292 | the two colliding compilations have different programs, so a cache hit on one would serve the wrong program |

## Left out

- The generated JavaScript text and `new Function` are not modelled. Each generator is modelled by the step it emits, and `Render` interprets the steps. JavaScript string-literal escaping (`JSON.stringify` of the template's text, of hash values and of a block helper's first argument) is therefore not modelled; those pass through unchanged.
- The `if` condition rewriter `generateConditionCode` (src/engine.ts:1489-1519) is not modelled. A condition is kept as its text and decided by the host's `truth` function.
- Registered helpers and block helpers are functions supplied by the caller (`Host`). A block helper's output is its return value, or text built from its own strings and its calls of `options.fn` / `options.inverse`.
- The `typeof` checks on registration arguments and on the compiled function's data (src/engine.ts:365-405) are modelled only as the data check (`DataOk`), and the `try`/`catch` wrapping that re-throws errors is not modelled.
- Registry values are typed, so the engine's checks that a name or content is a string are not needed.
- Stack overflow from a layout or component that includes itself is replaced by the fuel bound and `OutOfFuel`.
- Render.ArgValue reads a quoted positional argument of an inline helper or a component as the text between its quotes. The engine pastes that argument into the generated code as JavaScript source (src/engine.ts:1138, 1645). So the engine, unlike the model, decodes escapes in it (`"C:\temp"` holds a tab), evaluates an expression written as one token (`"a"+"b"` gives `ab`), and fails to compile a token that is not a valid literal (`{{component card "}}`), where Plan.Compiled accepts it.
- A run's calls of `compile` for a layout or component also store the result in the engine's compiled-template cache (src/engine.ts:333-337); Render compiles through `Compiled` and leaves that cache alone. Under `CacheKey` such an entry only holds the same compilation, so outputs are unaffected.
- The side effects of `{{extends}}` on `templateBlocks` (src/engine.ts:1762-1789) are not modelled. A `{{#block}}` never gets to change it: its code fails first (see below).
- A syntax error inside a nested body (each, if, block helper or block) reports an offset relative to that body, as the engine does. The model locates it with the outer template's line tracker. The engine creates a new `LineTracker(content)` for a block body (src/engine.ts:1819), so its line and column differ from the model's.
- `getContext` is modelled (Lines.LineTracker.GetContext), but the error messages that embed its output are not.
- Numbers are integers. JavaScript's floating point, octal literals and non-decimal digit arguments are not modelled. Only a block helper's first argument that is all digits is read as a number (src/engine.ts:1330-1331), as a decimal integer. Digit, `true` and `false` arguments of inline helpers and components are data paths (src/engine.ts:1638-1649, 1128-1146), as Render.ArgValue reads them.
- Regular expressions are modelled as exact shape predicates for the patterns the engine uses, not by a general regex engine.
- `renderTemplate`, `registerBaseTemplate` and `baseTemplates` are not modelled: they lie outside `compile`.
- `bundle.js`, the tests and the examples are not part of this model.
- Render.RewrittenStep models the `.replace(/result \+=/g, ...)` rewrite on text and verbatim steps only. That is where it changes what a template outputs. It does not model the rewrite of the code around other steps.
- The main pipeline (Plan.StepOf, Plan.ProcessTemplate, Plan.Compiled, Engine.Engine.Compile and Render) follows the corrected behaviour of both Findings rows: block helper bodies are not rewritten, and the cache is keyed by `CacheKey`. The `.replace` rewrite appears only in Render.AsWrittenInvoke and Render.RewrittenStep, and the string key only in Engine.KeyAsWritten.
- Strings are sequences of Unicode scalar values, while JavaScript strings are sequences of UTF-16 code units. For text with characters outside the Basic Multilingual Plane, `.length`, index reads, and so every offset, line and column differ from the engine's.
- Values.Get reads only a value's own fields. In JavaScript a path can reach inherited properties (`{{x.constructor}}`, `{{items.map}}`), which print as function source text such as `function Object() { [native code] }`; the model prints "" for them.

Where the engine and its description disagree, the model follows the engine:

- `findMatchingBlockEnd` returns the text's length when no closing tag balances the opening tag. It never returns an offset at or before the opening tag, so the "Unclosed each/if/block helper" errors never fire (BlockMatch.UnclosedRunsToEnd, BlockMatch.BlockEndBounds). An unclosed block runs to the end of the template.
- `{{{name}}}` is matched by the triple probe (priority 1.5), which beats the variable probe (priority 2). It is therefore compiled as a helper call, and renders nothing unless a helper of that name exists.
- Items of an each loop get no `@parent` link; only component props do.
- The layout and component caches are keyed by name alone (src/engine.ts:319-322, 343-346), and a running template fills them. The first compilation of a name is then what every later `{{> name}}`, component or `{{extends name}}` runs, whatever escape option it asks for, until the name is registered again or the caches are cleared. So the caches are not a pure memoization layer: after `{{> L}}` in a template compiled without escaping, `{{extends L}}` (which asks for escaping) prints L's values unescaped, and so does `{{> L}}` in any escaping template compiled later (Render.CachedLayoutWins, Render.ExtendsReusesInclude, Engine.Engine.RunCompiled).
- A `{{#block}}` compiles, but running it fails: its code reads the module constant `templateBlocks` (src/engine.ts:1804, 525), which is not among the parameters of the generated function (src/engine.ts:303-316), so it raises a ReferenceError, which the engine reports as a runtime error (src/engine.ts:397-404). The model gives `Unbound("templateBlocks")` (Render.BlockStopsRun).
- A block helper inside another block helper's body (directly or within its `if` branches) declares `const childData = context || childData;`, so when its helper calls `fn` or `inverse` with a falsy context the code reads `childData` before it is initialised and fails (src/engine.ts:1284, 1301). The model gives `Unbound("childData")` in Render.RenderParts and Render.RenderBody (Render.NestedFallbackFails).

## Findings

| source | as written | input that shows it | evidently intended | confidence | as-written member | corrected member |
|---|---|---|---|---|---|---|
| src/engine.ts:1284-1315 | the code of a block helper's `fn` and `inverse` bodies has every `result +=` replaced by `childResult +=`, including inside the string literals that carry the template's own text | block helper `{{#h}}result += 1{{/h}}` with `h` returning `options.fn(this)` renders `childResult += 1` | only the generated assignments are redirected; the template's text is written as it is | not executed | Render.RewriteAltersText | Render.FnKeepsText |
| src/engine.ts:289-292 | the cache key is `template + JSON.stringify(options) + name`, so different compilations can share one key | `compile("a", {escape: true}, "{\"escape\":false}")` and `compile("a{\"escape\":true}", {escape: false})` both use the key `a{"escape":true}{"escape":false}`, so the second call is handed the first one's function | one cache entry per template, options and name | not executed | Engine.KeyAsWrittenCollides, Engine.KeyAsWrittenServesOther | Engine.Engine.Compile |
