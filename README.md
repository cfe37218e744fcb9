# scss-helper: the Tailwind plugin and the code-block tokenizer

This project models two parts of scss-helper:

- **The Tailwind CSS v3 plugin** (`plugin.js`):
  - the colour, spacing and fluid-type tables;
  - `buildRootVars`, which turns the tables into one ordered map of CSS custom properties;
  - `fluidType`, which writes a `clamp()` expression;
  - the plugin body, which makes its `addBase` and `addUtilities` calls. The `injectTokens` option switches the base calls on and off;
  - the theme extension.
- **The syntax highlighter of the documentation site** (`docs/src/components/CodeBlock.jsx`):
  - the rulesets for each language, and how a ruleset is picked;
  - the `tokenize` loop: first match wins, with a one-character fallback;
  - the colour map, and how `Highlighted` paints each token.

The model is laid out like this:

- **JavaScript objects** (`JsObject`): a JavaScript object is a sequence of (key, value) pairs in insertion order.
  - `Put` is `o[k] = v`. It updates an existing key in place, or appends a new one.
  - `Assign` is `Object.assign`.
  - `Get` reads a property.
- **JavaScript strings** (`JsText`):
  - `NatToString` prints an integer the way a template literal does;
  - `IndexOf` is the search that `replace` does with a string pattern; `ReplaceFirst` is `replace`, which replaces only the first occurrence;
  - `Trim` is `String.prototype.trim` over the ECMAScript white-space set.
- **Design tokens** (`DesignTokens`): the tables, and `BuildRootVars`, written as the two loops and the `Object.assign` of the source.
- **Fluid type** (`Fluid`):
  - the fluid scale and the `fluidType` template;
  - a real-valued reading of the `clamp()` it writes, so its end points and its monotonicity can be stated.
- **The plugin** (`Plugin`):
  - the host is a class `Host` that records each `addBase` / `addUtilities` call;
  - `Register` is the plugin body run against a host;
  - `PluginCalls` is the call sequence it produces;
  - the lemmas relate the emitted maps to each other and to the theme.
- **The lexer** (`Lexer`): a generic first-match lexer given as functions (`FirstMatch`, `Step`, `Lex`).
  - `\s+`, `.` and the single-character punctuation classes are matched concretely.
  - Every other regular expression is referred to by its source text. It is matched by an engine, which is a parameter. The only assumption about the engine: a match it reports takes at least one character and at most the whole remaining text.
- **The code block** (`CodeBlock`):
  - the three rulesets and `Select`;
  - `Tokenize`, the imperative loop with its inner `for` and `break`, proved equal to `Lex`;
  - the colour map, `Paint` and `Highlighted`.

Two things the code does not check are stated here as they are:

- `fluidType` does not reject a viewport range whose two ends are equal. The emitted `calc()` then divides by zero. `Fluid.FluidType` reproduces the unguarded template, and the real-valued `Fluid.FluidSize` requires distinct ends.
- Nothing in `plugin.js` checks that the dark overrides only redeclare variables the root block declares. `Plugin.DarkKeysDeclared` proves it for the plugin's fixed tables.

## Model

| member | source | states |
|---|---|---|
| JsObject.Get | docs/src/components/CodeBlock.jsx:101 | a property read finds a value exactly when the key is present, and the value found is paired with that key in the object |
| JsObject.Put | plugin.js:83 | assigning an existing key keeps the keys and their order; assigning a new key appends the pair at the end |
| JsObject.GetPut | plugin.js:83 | after `o[k] = v`, reading `k` gives `v` and reading any other key gives what it gave before |
| JsObject.Assign | plugin.js:90 | `Object.assign(target, source)`: the entries of `source` written into `target` one by one, in order, each as `target[k] = v` |
| JsObject.AssignKeys | plugin.js:90 | after `Object.assign` the target has exactly its own keys and the keys of the source |
| JsObject.AssignFresh | plugin.js:90-108 | `Object.assign` of distinct keys none of which the target has appends them, in order, behind the target's entries |
| JsText.NatToString | plugin.js:87 | an integer key prints as a non-empty run of decimal digits, a single digit exactly for keys below 10, with no leading zero for keys from 1 up |
| JsText.DecimalRoundTrip | plugin.js:87 | reading back the printed key gives the key |
| JsText.NatToStringInjective | plugin.js:87 | distinct integer keys print as distinct strings, so distinct spacing steps give distinct property names |
| JsText.IndexOf | plugin.js:126 | the index found is an occurrence of the pattern with no earlier one; none is found only when there is no occurrence |
| JsText.ReplaceFirst | plugin.js:126 | `s.replace(pat, rep)` with a string pattern: the first occurrence found by `IndexOf` is replaced; with none, `s` is unchanged |
| JsText.StripFirstRem | plugin.js:126 | `replace('rem', '')` on a number followed by `rem` removes that first `rem` only; a later `rem` is kept |
| JsText.Trim | docs/src/components/CodeBlock.jsx:97 | `trim()` gives the middle slice of the text; everything cut off at either end is white space, and the result neither starts nor ends with white space |
| DesignTokens.RootVars | plugin.js:79-111 | what `buildRootVars` returns: the colours prefixed `--color-`, then the spacing steps prefixed `--spacing-` with their keys printed, then the fixed block |
| DesignTokens.BuildRootVars | plugin.js:79-111 | the fresh object built by the two loops and the `Object.assign` holds the prefixed colours, then the prefixed spacing steps, then the fixed block, each group in table order; all keys are distinct and the size is the sum of the three sizes |
| DesignTokens.RootVarsUnique | plugin.js:82-108 | the three groups never overwrite one another, so the map has `|colors| + |spacing| + 17` distinct keys |
| DesignTokens.ColorSpacingApart | plugin.js:82-88 | no `--color-` key is also a `--spacing-` key |
| DesignTokens.FixedKeysApart | plugin.js:90-108 | no key of the fixed block collides with a colour or spacing key |
| DesignTokens.RootVarsColor | plugin.js:82-84 | for every colour name `n`, the map gives `colors[n]` for `--color-n` |
| DesignTokens.RootVarsSpacing | plugin.js:86-88 | for every spacing key `k`, the map gives `spacingScale[k]` for `--spacing-k` |
| DesignTokens.RootVarsFixed | plugin.js:90-108 | every fixed entry keeps its value in the map |
| DesignTokens.ColorsUnique | plugin.js:21-51 | the colour table has distinct names |
| DesignTokens.SpacingAscending | plugin.js:53-76 | the spacing keys are strictly ascending, the order in which an object enumerates integer keys |
| DesignTokens.SpacingIsQuarterRem | plugin.js:53-76 | every spacing value is its key times 0.25rem, written with the fraction `.25`, `.5` or `.75` when there is one |
| DesignTokens.TableRootVars | plugin.js:79-111 | the token tables of the plugin give 68 distinct custom properties |
| Fluid.StripRem | plugin.js:126 | `x.replace('rem', '')`: the length with its first `rem` removed |
| Fluid.Template | plugin.js:126 | the template starts with `clamp(min, calc(min` and ends with `, max)` |
| Fluid.FluidType | plugin.js:125-127 | `fluidType` starts with `clamp(minSize, calc(minSize` and ends with `, maxSize)` |
| Fluid.FluidTypeBounds | plugin.js:126 | the expression is a clamp whose lower bound is `minSize` and whose upper bound is `maxSize` |
| Fluid.FluidTypeOfRemSizes | plugin.js:126 | for lengths written as a number followed by `rem`, each numeric operand is that number |
| Fluid.FluidTypeDefaults | plugin.js:125 | with the viewport arguments omitted, the range is `20rem` to `80rem` and the operands are `80` and `20` |
| Fluid.FluidSize | plugin.js:126 | the real-valued reading of the emitted clamp: never below the minimum size, and never above the larger of the two sizes |
| Fluid.FluidSizeAtMinViewport | plugin.js:126 | at the smallest viewport the clamp evaluates to the minimum size |
| Fluid.FluidSizeAtMaxViewport | plugin.js:126 | at the largest viewport the clamp evaluates to the maximum size |
| Fluid.FluidSizeMonotone | plugin.js:126 | with the minimum no larger than the maximum, the size never shrinks as the viewport grows |
| Fluid.FluidSizeBounded | plugin.js:126 | the size always lies between the minimum and the maximum |
| Plugin.Host.constructor | plugin.js:131 | a new host has recorded no calls |
| Plugin.Host.AddBase | plugin.js:136 | `addBase` appends one base call with the given styles and changes nothing else |
| Plugin.Host.AddUtilities | plugin.js:170 | `addUtilities` appends one utilities call with the given map and changes nothing else |
| Plugin.InjectTokens | plugin.js:132 | `options.injectTokens !== false`, with omitted options read as `{}` |
| Plugin.InjectTokensUnlessFalse | plugin.js:132 | tokens are injected unless `injectTokens` is exactly `false`: omitted options, `{}`, `true`, `undefined`, `null`, `0` and `""` all inject |
| Plugin.FluidUtils | plugin.js:166-169 | the utilities the fluid loop builds: `.sh-text-fluid-<key>` with `fontSize: fluidType(min, max)`, one per step, in scale order |
| Plugin.BuildFluidUtils | plugin.js:166-169 | the loop gives one utility per step of the scale, in scale order, with distinct selectors |
| Plugin.FluidUtilityOfStep | plugin.js:167-168 | the utility `.sh-text-fluid-<key>` sets exactly `fontSize` to `fluidType(min, max)` for that key's pair |
| Plugin.FluidUtilityBounds | plugin.js:166-169 | each fluid utility clamps between its own step's minimum and maximum |
| Plugin.FluidScaleUnique | plugin.js:114-123 | the fluid scale has distinct step names |
| Plugin.PluginCalls | plugin.js:131-203 | the calls of the plugin body, in order: the root and dark base calls when tokens are injected, then the fluid, container, transition and animation utility calls |
| Plugin.Register | plugin.js:131-203 | the plugin body appends exactly the calls of `PluginCalls(options)` to the host's record |
| Plugin.CallsOfOptions | plugin.js:132-202 | with tokens injected there are six calls, and the root and dark base calls come first; without them there are four calls and none is a base call; the four utility calls end the sequence either way |
| Plugin.BaseCallShapes | plugin.js:136-162 | the root call is one block, `:root`, declaring exactly the map `buildRootVars` builds from the two tables; the dark call has one block under `[data-theme="dark"]` and one under `:not([data-theme="light"])` inside the dark colour-scheme query |
| Plugin.DarkCopiesAgree | plugin.js:139-161 | the two dark blocks declare the same map |
| Plugin.DarkOverridesNameColors | plugin.js:140-149 | the dark overrides are the last eight palette colours, in palette order, under their `--color-` names |
| Plugin.DarkKeysDeclared | plugin.js:139-161 | every property a dark override sets is already declared by the root block |
| Plugin.ThemeColorNames | plugin.js:209-216 | the six theme colours are `primary` to `danger`, each `var(--color-<name>)` |
| Plugin.ThemeColorsResolve | plugin.js:209-216 | each `var(--color-X)` of the theme names a root property that holds the palette value of `X` and that both dark blocks override |
| Plugin.ThemeExtension | plugin.js:205-234 | `theme.extend`: the theme colours, the fluid font sizes and the named transition durations |
| Plugin.ThemeIgnoresOptions | plugin.js:205-234 | the theme extension is the same whatever the options |
| CssText.ClampBounds | plugin.js:218-225 | a clamp starts with its lower bound and ends with its upper bound |
| Plugin.ThemeFontSizeMatchesScale | plugin.js:217-226 | each theme font size `fluid-<step>` is a clamp between the same two sizes as that step of the fluid scale: it starts with `clamp(<min>, ` and ends with `, <max>)` |
| Plugin.TransitionFallbacksAreTokens | plugin.js:180-191 | the transition utilities fall back to `200ms` and the standard easing curve, the root values of `--duration` and `--easing` |
| Plugin.ThemeDurationFallbacks | plugin.js:227-230 | the theme's `fast` and `slow` durations fall back to the root values of `--duration-fast` and `--duration-slow` |
| Lexer.MatchLength | docs/src/components/CodeBlock.jsx:63 | a match takes at least one character and at most the whole text; `\s+` matches exactly when the text starts with white space, `.` exactly when it starts with a character other than a line terminator, and a class exactly when its first character is a member; `.` and a class take exactly one character |
| Lexer.SpacesTakeWholeRun | docs/src/components/CodeBlock.jsx:27 | `\s+` takes the whole leading run of white space |
| Lexer.FirstMatch | docs/src/components/CodeBlock.jsx:62-70 | the rule found matches, and no earlier rule does; no rule is found exactly when none matches |
| Lexer.Step | docs/src/components/CodeBlock.jsx:61-74 | each round takes a non-empty prefix of what is left |
| Lexer.Lex | docs/src/components/CodeBlock.jsx:60-75 | the tokens the loop produces for a text: one `Step` at a time until nothing is left |
| Lexer.LexRoundTrip | docs/src/components/CodeBlock.jsx:60-75 | joining the token values in order gives back the input exactly |
| Lexer.LexProgress | docs/src/components/CodeBlock.jsx:60-75 | every token is non-empty, there are at most as many tokens as characters, and only the empty text has no tokens |
| Lexer.StepTakesEarliestRule | docs/src/components/CodeBlock.jsx:62-69 | when rule `i` matches and no earlier rule does, the token has rule `i`'s type and holds exactly what rule `i` matched |
| Lexer.LaterRulesNotTried | docs/src/components/CodeBlock.jsx:62-69 | once a rule matches, rules after it are not consulted: appending rules changes no token |
| Lexer.StepFallback | docs/src/components/CodeBlock.jsx:71-74 | when no rule matches, the token is the first character alone, of type `other` |
| Lexer.LexByRule | docs/src/components/CodeBlock.jsx:64-67 | after a rule's token, lexing goes on from just past the matched prefix |
| Lexer.LexByFallback | docs/src/components/CodeBlock.jsx:71-74 | after a fallback token, lexing goes on one character later |
| Lexer.LexKinds | docs/src/components/CodeBlock.jsx:60-75 | every token's type is the type of one of the rules, or `other` |
| Lexer.NeverFallsBack | docs/src/components/CodeBlock.jsx:27-28 | a ruleset holding both a `\s+` rule and a `.` rule matches every non-empty text |
| CodeBlock.Patterns | docs/src/components/CodeBlock.jsx:11-56 | the `patterns` object: the scss, css, bash and js rulesets, with `patterns.css = patterns.scss` applied |
| CodeBlock.PatternsTable | docs/src/components/CodeBlock.jsx:11-56 | after the alias, `css` holds the scss rules in its original place |
| CodeBlock.Select | docs/src/components/CodeBlock.jsx:56-58 | the ruleset chosen for a language by an own-property lookup with the scss rules as fallback; it is always one of the three rulesets |
| CodeBlock.SelectRuleset | docs/src/components/CodeBlock.jsx:56-58 | `bash` and `js` pick their own rules; `scss`, `css` and every other language pick the scss rules |
| CodeBlock.RulesetEndsWithFallbacks | docs/src/components/CodeBlock.jsx:12-53 | every ruleset ends with the `ws` rule and then the `other` rule |
| CodeBlock.SelectedNeverFallsBack | docs/src/components/CodeBlock.jsx:71-74 | with the built-in rulesets the loop's own fallback is never reached |
| CodeBlock.Tokenize | docs/src/components/CodeBlock.jsx:5-77 | the loop produces the tokens of `Lex` for the selected ruleset; their values join back to the code, each is non-empty, there are at most as many as characters, and empty code gives none |
| CodeBlock.SelectAsWritten | docs/src/components/CodeBlock.jsx:58 | `patterns[lang] \|\| patterns.scss` as written: an own ruleset, the scss rules, or an inherited `Object.prototype` value, which only an inherited name gives |
| CodeBlock.TokenizeAsWritten | docs/src/components/CodeBlock.jsx:58-62 | `tokenize` as written: it throws a TypeError only for non-empty code with an inherited language name |
| CodeBlock.LanguagesNotInherited | docs/src/components/CodeBlock.jsx:58 | no built-in language name is one an object inherits |
| CodeBlock.AsWrittenAgreesOffPrototype | docs/src/components/CodeBlock.jsx:58 | apart from the inherited names, the tokenizer as written and the model agree on every input |
| CodeBlock.PrototypeNameThrows | docs/src/components/CodeBlock.jsx:58-62 | as written, an inherited name such as `constructor` makes non-empty code throw, where the fallback would select the scss rules |
| CodeBlock.Paint | docs/src/components/CodeBlock.jsx:101-107 | one token rendered: a coloured span when the colour map gives a non-empty colour, bare text otherwise; either way it shows the token's text |
| CodeBlock.PaintAllKeepsText | docs/src/components/CodeBlock.jsx:100-108 | painting gives one piece per token, in order, with the token's text |
| CodeBlock.Highlighted | docs/src/components/CodeBlock.jsx:96-111 | the rendered block: the tokens of the trimmed code, each painted, in order |
| CodeBlock.HighlightedShowsTrimmedCode | docs/src/components/CodeBlock.jsx:96-111 | the rendered block shows exactly the trimmed code |
| CodeBlock.ColorMapUnique | docs/src/components/CodeBlock.jsx:79-94 | the colour map has distinct types |
| CodeBlock.OnlyWsUncoloured | docs/src/components/CodeBlock.jsx:79-94 | only `ws` maps to null, and every other colour is a non-empty string |
| CodeBlock.RuleKindsInColorMap | docs/src/components/CodeBlock.jsx:79-94 | every rule type of every ruleset has an entry in the colour map |
| CodeBlock.EmittableKindsColoured | docs/src/components/CodeBlock.jsx:79-94 | every type a selected ruleset can emit, `other` included, has an entry in the colour map |
| CodeBlock.PaintBareIffWs | docs/src/components/CodeBlock.jsx:101-107 | a token of a known type is rendered as bare text exactly when it is white space; otherwise it is a coloured span; its text is kept |
| CodeBlock.HighlightedBareIffWs | docs/src/components/CodeBlock.jsx:100-108 | in the rendered block, white-space tokens and only they are bare text |

## Left out

- The Tailwind host API (`require('tailwindcss/plugin')`, `plugin.withOptions`) is a foreign library. Only `addBase` and `addUtilities` are modelled, as the call recorder `Plugin.Host`.
- Options given as `null` or as a non-object are not modelled. On `null` the source throws when it reads `injectTokens`. Options are either omitted or an object of primitive values.
- The `darkMode` option shown in the usage comment of `plugin.js` is not read by the code, so the model does not read it either.
- Lexer.MatchLength: the regular expressions other than `\s+`, `.` and the single-character classes are not interpreted. These are lookaheads, `\b`, lazy and bracket classes. The model says only that the engine's match takes between one character and the whole remaining text. Which prefix a given expression takes is left to the engine parameter.
- JavaScript strings are sequences of UTF-16 code units. The model's characters are Unicode scalar values, so a character outside the Basic Multilingual Plane is one `other` token here but two in the source.
- `tokenize` takes a string here. `Highlighted` calls `code.trim()` before `tokenize` sees `code`, so an `undefined` or `null` code would throw before the `!code` test. That path is not modelled.
- The React markup of `Highlighted` is reduced to a sequence of bare and coloured pieces. This covers the `<code>` and `<span>` elements, the `style` attribute and the element keys `${t.type}-${i}`.
- `handleCopy`, the copy button, clipboard and DOM access, timers, React state and the label showing `filename || lang` in `CodeBlock` are I/O and UI state.
- The documentation pages, the golden-ratio scale (floating-point formatting), the documentation-only token tables and the build configuration are not part of this model.
- Fluid.FluidSize reads the emitted `clamp()` as a real-valued function of the viewport width, in rem. A browser evaluates the expression this way only when all four lengths are written as `<number>rem`: stripping `rem` is what turns `(max - min)` and `(maxVw - minVw)` into plain numbers. `fluidType('12px', '16px')` emits `(16px - 12px) * ((100vw - 20rem) / (80 - 20))`, which multiplies two lengths and is not a valid `calc()`. `Fluid.FluidTypeOfRemSizes` is the link between the string and this reading: for `<number>rem` lengths the operands it writes are those numbers. The source itself computes nothing numeric, and floating-point rounding is left out.
- DesignTokens.BuildRootVars takes the spacing table as a sequence that must be ascending, because an object enumerates integer-like keys in ascending order whatever order they were written in. The literal table is proved ascending.

## Findings

| source | as written | input that shows it | evidently intended | confidence | as-written member | corrected member |
|---|---|---|---|---|---|---|
| docs/src/components/CodeBlock.jsx:58 | `patterns[lang] \|\| patterns.scss` also finds the properties every object inherits from `Object.prototype`. For such a name the lookup gives a function, or `Object.prototype` itself for `__proto__`. That value is truthy, so it is kept, and the `for…of` at line 62 throws a TypeError because it is not iterable | `tokenize("a", "constructor")` (also `toString`, `valueOf`, `hasOwnProperty`, `__proto__`, …) | a language without a ruleset of its own falls back to the scss rules | medium, not executed | CodeBlock.PrototypeNameThrows (about CodeBlock.TokenizeAsWritten) | CodeBlock.SelectRuleset (about CodeBlock.Select, used by CodeBlock.Tokenize and CodeBlock.Highlighted) |
