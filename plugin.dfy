/**
 * The Tailwind CSS plugin: what it hands to the host's `addBase` and
 * `addUtilities`, and the theme extension it declares.
 */
module Plugin {
  import opened Wrappers
  import opened JsObject
  import opened JsText
  import opened DesignTokens
  import opened Fluid
  import opened CssText

  /** A CSS declaration block: property name to value. */
  type Decls = Obj<string>

  /** The value under a selector of a base-style object. */
  datatype Block =
    | Declarations(decls: Decls)
      /** An at-rule whose body holds nested selectors. */
    | AtRule(rules: Obj<Decls>)

  /** One call of the plugin on the host. */
  datatype Call =
    | BaseCall(styles: Obj<Block>)
    | UtilitiesCall(utilities: Obj<Decls>)

  /** The host API handed to the plugin, recording each call in order. */
  class Host {
    var calls: seq<Call>

    constructor ()
      ensures calls == []
    {
      calls := [];
    }

    method AddBase(styles: Obj<Block>)
      modifies this
      ensures calls == old(calls) + [BaseCall(styles)]
    {
      calls := calls + [BaseCall(styles)];
    }

    method AddUtilities(utilities: Obj<Decls>)
      modifies this
      ensures calls == old(calls) + [UtilitiesCall(utilities)]
    {
      calls := calls + [UtilitiesCall(utilities)];
    }
  }

  /** The JavaScript values an option can hold, as far as the plugin looks at them. */
  datatype JsValue = Undefined | Null | Boolean(b: bool) | Number(x: real) | Text(s: string)

  /** The argument of the options function: left out (so `{}`), or an object. */
  datatype PluginOptions = Omitted | Given(fields: map<string, JsValue>)

  /** Reading `options[name]`: a missing property reads as `undefined`. */
  function Property(options: PluginOptions, name: string): JsValue
  {
    match options
    case Omitted => Undefined
    case Given(fields) => if name in fields then fields[name] else Undefined
  }

  /** `options.injectTokens !== false`. */
  predicate InjectTokens(options: PluginOptions)
  {
    Property(options, "injectTokens") != Boolean(false)
  }

  /** Only an explicit `false` turns the tokens off; any other value, falsy or not, keeps them. */
  lemma InjectTokensUnlessFalse(options: PluginOptions)
    ensures !InjectTokens(options)
      <==> options.Given? && "injectTokens" in options.fields && options.fields["injectTokens"] == Boolean(false)
    ensures InjectTokens(Omitted) && InjectTokens(Given(map[]))
    ensures forall v: JsValue :: v != Boolean(false) ==> InjectTokens(Given(map["injectTokens" := v]))
  {
  }

  /** The first base call: every design token declared on `:root`. */
  function RootStyles(): Obj<Block>
  {
    [(":root", Declarations(RootVars(Colors, SpacingScale)))]
  }

  /** Dark overrides under `[data-theme="dark"]`. */
  const DarkThemeVars: Decls := [
    ("--color-primary", "#60a5fa"),
    ("--color-secondary", "#9ca3af"),
    ("--color-success", "#4ade80"),
    ("--color-info", "#38bdf8"),
    ("--color-warning", "#fbbf24"),
    ("--color-danger", "#f87171"),
    ("--color-light", "#374151"),
    ("--color-dark", "#f9fafb")
  ]

  /** The same overrides under `:not([data-theme="light"])` inside the dark colour-scheme query. */
  const DarkMediaVars: Decls := [
    ("--color-primary", "#60a5fa"),
    ("--color-secondary", "#9ca3af"),
    ("--color-success", "#4ade80"),
    ("--color-info", "#38bdf8"),
    ("--color-warning", "#fbbf24"),
    ("--color-danger", "#f87171"),
    ("--color-light", "#374151"),
    ("--color-dark", "#f9fafb")
  ]

  /** The second base call. */
  const DarkStyles: Obj<Block> := [
    (@"[data-theme=""dark""]", Declarations(DarkThemeVars)),
    ("@media (prefers-color-scheme: dark)", AtRule([(@":not([data-theme=""light""])", DarkMediaVars)]))
  ]

  /** Container-query utilities. */
  const ContainerUtils: Obj<Decls> := [
    (".sh-cq", [("container-type", "inline-size")]),
    (".sh-cq-size", [("container-type", "size")]),
    (".sh-cq-normal", [("container-type", "normal")])
  ]

  /** Transition utilities: the duration and easing fall back to the token defaults. */
  const TransitionUtils: Obj<Decls> := [
    (".sh-transition-colors", [
      ("transition-property", "color, background-color, border-color, text-decoration-color, fill, stroke"),
      ("transition-duration", "var(--duration, 200ms)"),
      ("transition-timing-function", "var(--easing, cubic-bezier(0.4, 0, 0.2, 1))")
    ]),
    (".sh-transition-shadow", [
      ("transition-property", "box-shadow"),
      ("transition-duration", "var(--duration, 200ms)"),
      ("transition-timing-function", "var(--easing, cubic-bezier(0.4, 0, 0.2, 1))")
    ])
  ]

  /** Animation utilities. */
  const AnimationUtils: Obj<Decls> := [
    (".sh-animate-fade-in", [("animation", "sh-fade-in    var(--duration, 200ms) var(--easing, ease) both")]),
    (".sh-animate-slide-up", [("animation", "sh-slide-up   var(--duration, 300ms) var(--easing, ease) both")]),
    (".sh-animate-slide-down", [("animation", "sh-slide-down var(--duration, 300ms) var(--easing, ease) both")]),
    (".sh-animate-scale-in", [("animation", "sh-scale-in   var(--duration, 200ms) var(--easing, ease) both")]),
    (".sh-animate-spin", [("animation", "sh-spin       var(--duration, 1000ms) linear infinite")]),
    (".sh-animate-pulse", [("animation", "sh-pulse      var(--duration, 2000ms) cubic-bezier(0.4, 0, 0.6, 1) infinite")]),
    (".sh-animate-bounce", [("animation", "sh-bounce     var(--duration, 1000ms) infinite")])
  ]

  /** The fluid typography utilities for a scale: `.sh-text-fluid-<step>` sets `fontSize`. */
  function FluidUtils(scale: Obj<(string, string)>): Obj<Decls>
  {
    seq(|scale|, i requires 0 <= i < |scale| =>
      (".sh-text-fluid-" + scale[i].0, [("fontSize", FluidType(scale[i].1.0, scale[i].1.1))]))
  }

  /** The class written in round `i` of the fluid loop is not yet in the object. */
  lemma FluidKeyFresh(scale: Obj<(string, string)>, i: nat)
    requires UniqueKeys(scale) && i < |scale|
    ensures !HasKey(FluidUtils(scale[..i]), ".sh-text-fluid-" + scale[i].0)
  {
    var key := ".sh-text-fluid-" + scale[i].0;
    var before := FluidUtils(scale[..i]);
    forall j | 0 <= j < i ensures before[j].0 != key {
      if ".sh-text-fluid-" + scale[j].0 == key {
        PrefixCancel(".sh-text-fluid-", scale[j].0, scale[i].0);
      }
    }
  }

  /** Round `i` of the fluid loop appends the utility of step `i`. */
  lemma FluidUtilsSnoc(scale: Obj<(string, string)>, i: nat)
    requires i < |scale|
    ensures FluidUtils(scale[..i + 1])
      == FluidUtils(scale[..i]) + [(".sh-text-fluid-" + scale[i].0, [("fontSize", FluidType(scale[i].1.0, scale[i].1.1))])]
  {
    var after, before := FluidUtils(scale[..i + 1]), FluidUtils(scale[..i]);
    var u := (".sh-text-fluid-" + scale[i].0, [("fontSize", FluidType(scale[i].1.0, scale[i].1.1))]);
    forall j | 0 <= j <= i ensures after[j] == (before + [u])[j] {
      assert scale[..i + 1][j] == scale[j];
      if j < i {
        assert scale[..i][j] == scale[j];
      }
    }
  }

  /**
   * The loop over `fluidTypeScale`: one utility per step, in the order of
   * the scale, each class distinct.
   */
  method BuildFluidUtils(scale: Obj<(string, string)>) returns (utils: Obj<Decls>)
    requires UniqueKeys(scale)
    ensures utils == FluidUtils(scale)
    ensures UniqueKeys(utils) && |utils| == |scale|
  {
    utils := [];
    for i := 0 to |scale|
      invariant utils == FluidUtils(scale[..i])
      invariant UniqueKeys(utils)
    {
      FluidKeyFresh(scale, i);
      FluidUtilsSnoc(scale, i);
      var (min, max) := scale[i].1;
      PutUnique(utils, ".sh-text-fluid-" + scale[i].0, [("fontSize", FluidType(min, max))]);
      utils := Put(utils, ".sh-text-fluid-" + scale[i].0, [("fontSize", FluidType(min, max))]);
    }
    assert scale[..|scale|] == scale;
  }

  /** Each fluid class sets exactly `fontSize`, to the fluid expression of its own step. */
  lemma FluidUtilityOfStep(scale: Obj<(string, string)>, i: nat)
    requires UniqueKeys(scale) && i < |scale|
    ensures Get(FluidUtils(scale), ".sh-text-fluid-" + scale[i].0)
      == Some([("fontSize", FluidType(scale[i].1.0, scale[i].1.1))])
  {
    var u := FluidUtils(scale);
    forall a, b | 0 <= a < b < |u| ensures u[a].0 != u[b].0 {
      if ".sh-text-fluid-" + scale[a].0 == ".sh-text-fluid-" + scale[b].0 {
        PrefixCancel(".sh-text-fluid-", scale[a].0, scale[b].0);
      }
    }
    GetEntry(u, i);
  }

  /** The steps of the fluid scale are distinct. */
  lemma FluidScaleUnique()
    ensures UniqueKeys(FluidTypeScale)
  {
  }

  /** The four utility calls, made whatever the options. */
  function UtilityCalls(): seq<Call>
  {
    [UtilitiesCall(FluidUtils(FluidTypeScale)), UtilitiesCall(ContainerUtils),
     UtilitiesCall(TransitionUtils), UtilitiesCall(AnimationUtils)]
  }

  /** The calls the plugin makes, in order, for the given options. */
  function PluginCalls(options: PluginOptions): seq<Call>
  {
    (if InjectTokens(options) then [BaseCall(RootStyles()), BaseCall(DarkStyles)] else [])
      + UtilityCalls()
  }

  /** The plugin body run against a host. */
  method Register(options: PluginOptions, host: Host)
    modifies host
    ensures host.calls == old(host.calls) + PluginCalls(options)
  {
    var injectTokens := InjectTokens(options);
    if injectTokens {
      ColorsUnique();
      SpacingAscending();
      var root := BuildRootVars(Colors, SpacingScale);
      host.AddBase([(":root", Declarations(root))]);
      host.AddBase(DarkStyles);
    }
    FluidScaleUnique();
    var fluidUtils := BuildFluidUtils(FluidTypeScale);
    host.AddUtilities(fluidUtils);
    host.AddUtilities(ContainerUtils);
    host.AddUtilities(TransitionUtils);
    host.AddUtilities(AnimationUtils);
  }

  /**
   * The switch: with tokens injected the two base calls come first, and
   * without them no base call is made; the four utility calls end the
   * sequence either way.
   */
  lemma CallsOfOptions(options: PluginOptions)
    ensures |PluginCalls(options)| == if InjectTokens(options) then 6 else 4
    ensures InjectTokens(options)
      ==> PluginCalls(options)[..2] == [BaseCall(RootStyles()), BaseCall(DarkStyles)]
    ensures (exists i :: 0 <= i < |PluginCalls(options)| && PluginCalls(options)[i].BaseCall?)
      <==> InjectTokens(options)
    ensures PluginCalls(options)[|PluginCalls(options)| - 4..] == UtilityCalls()
  {
    var calls := PluginCalls(options);
    if InjectTokens(options) {
      assert calls[0].BaseCall?;
    } else {
      assert calls == UtilityCalls();
    }
  }

  /** The theme extension: `theme.extend`. */
  datatype Theme = Theme(colors: Obj<string>, fontSize: Obj<string>, transitionDuration: Obj<string>)

  const ThemeColors: Obj<string> := [
    ("primary", "var(--color-primary)"),
    ("secondary", "var(--color-secondary)"),
    ("success", "var(--color-success)"),
    ("info", "var(--color-info)"),
    ("warning", "var(--color-warning)"),
    ("danger", "var(--color-danger)")
  ]

  const ThemeFontSize: Obj<string> := [
    ("fluid-xs", "clamp(0.75rem, 2vw, 0.875rem)"),
    ("fluid-sm", "clamp(0.875rem, 2.5vw, 1rem)"),
    ("fluid-base", "clamp(1rem, 3vw, 1.125rem)"),
    ("fluid-lg", "clamp(1.125rem, 3.5vw, 1.375rem)"),
    ("fluid-xl", "clamp(1.25rem, 4vw, 1.75rem)"),
    ("fluid-2xl", "clamp(1.5rem, 5vw, 2.25rem)"),
    ("fluid-3xl", "clamp(1.875rem, 6vw, 3rem)"),
    ("fluid-4xl", "clamp(2.25rem, 8vw, 4rem)")
  ]

  const ThemeTransitionDuration: Obj<string> := [
    ("fast", "var(--duration-fast, 100ms)"),
    ("slow", "var(--duration-slow, 400ms)")
  ]

  /** The configuration half of the plugin; it does not look at the options. */
  function ThemeExtension(options: PluginOptions): Theme
  {
    Theme(ThemeColors, ThemeFontSize, ThemeTransitionDuration)
  }

  /** The theme does not depend on the options. */
  lemma ThemeIgnoresOptions(a: PluginOptions, b: PluginOptions)
    ensures ThemeExtension(a) == ThemeExtension(b)
  {
  }

  /** Root and dark tables written in the shape both base calls use. */
  lemma BaseCallShapes()
    ensures RootStyles() == [(":root", Declarations(RootVars(Colors, SpacingScale)))]
    ensures |DarkStyles| == 2
    ensures DarkStyles[0].0 == @"[data-theme=""dark""]" && DarkStyles[0].1 == Declarations(DarkThemeVars)
    ensures DarkStyles[1].0 == "@media (prefers-color-scheme: dark)"
    ensures DarkStyles[1].1 == AtRule([(@":not([data-theme=""light""])", DarkMediaVars)])
  {
  }

  /** The two copies of the dark overrides are the same table. */
  lemma DarkCopiesAgree()
    ensures DarkThemeVars == DarkMediaVars
  {
  }

  /**
   * The dark overrides are the last eight colours of the palette, in the
   * palette's order, each under its `--color-` name.
   */
  lemma DarkOverridesNameColors()
    ensures |DarkThemeVars| == 8 && |Colors| == 29
    ensures forall i :: 0 <= i < 8 ==> DarkThemeVars[i].0 == "--color-" + Colors[21 + i].0
  {
  }

  /** Every property a dark override sets is a token the root block declares. */
  lemma DarkKeysDeclared(k: string)
    requires HasKey(DarkThemeVars, k)
    ensures HasKey(RootVars(Colors, SpacingScale), k)
  {
    var i :| 0 <= i < |DarkThemeVars| && DarkThemeVars[i].0 == k;
    DarkOverridesNameColors();
    ColorsUnique();
    SpacingAscending();
    RootVarsColor(Colors, SpacingScale, 21 + i);
  }

  /** The six theme colours are the first six overridable palette entries, each read through its variable. */
  lemma ThemeColorNames()
    ensures |ThemeColors| == 6
    ensures forall i :: 0 <= i < 6 ==>
      ThemeColors[i].0 == Colors[21 + i].0 && ThemeColors[i].1 == Var("--color-" + Colors[21 + i].0)
  {
    ThemeColorRows0To1();
    ThemeColorRows2To3();
    ThemeColorRows4To5();
  }

  /** Theme colours 0 and 1, spelled out. */
  lemma ThemeColorRows0To1()
    ensures forall i :: 0 <= i < 2 ==>
      ThemeColors[i].0 == Colors[21 + i].0 && ThemeColors[i].1 == Var("--color-" + Colors[21 + i].0)
  {
    assert Var("--color-" + "primary") == "var(--color-primary)";
    assert Var("--color-" + "secondary") == "var(--color-secondary)";
  }

  /** Theme colours 2 and 3, spelled out. */
  lemma ThemeColorRows2To3()
    ensures forall i :: 2 <= i < 4 ==>
      ThemeColors[i].0 == Colors[21 + i].0 && ThemeColors[i].1 == Var("--color-" + Colors[21 + i].0)
  {
    assert Var("--color-" + "success") == "var(--color-success)";
    assert Var("--color-" + "info") == "var(--color-info)";
  }

  /** Theme colours 4 and 5, spelled out. */
  lemma ThemeColorRows4To5()
    ensures forall i :: 4 <= i < 6 ==>
      ThemeColors[i].0 == Colors[21 + i].0 && ThemeColors[i].1 == Var("--color-" + Colors[21 + i].0)
  {
    assert Var("--color-" + "warning") == "var(--color-warning)";
    assert Var("--color-" + "danger") == "var(--color-danger)";
  }

  /**
   * Each theme colour names a variable that the root block declares (with
   * the palette's value) and that the dark overrides change, in both copies.
   */
  lemma ThemeColorsResolve(options: PluginOptions, i: nat)
    requires i < |ThemeExtension(options).colors|
    ensures var (name, value) := ThemeExtension(options).colors[i];
      value == Var("--color-" + name)
      && Get(Colors, name).Some?
      && Get(RootVars(Colors, SpacingScale), "--color-" + name) == Get(Colors, name)
      && HasKey(DarkThemeVars, "--color-" + name) && HasKey(DarkMediaVars, "--color-" + name)
  {
    ThemeColorNames();
    DarkOverridesNameColors();
    ColorsUnique();
    SpacingAscending();
    RootVarsColor(Colors, SpacingScale, 21 + i);
    GetEntry(Colors, 21 + i);
    assert DarkThemeVars[i].0 == "--color-" + Colors[21 + i].0;
    DarkCopiesAgree();
  }

  /** The viewport-relative middle term of each theme font size. */
  const ThemePreferred: seq<string> := ["2vw", "2.5vw", "3vw", "3.5vw", "4vw", "5vw", "6vw", "8vw"]

  /** Rows 0 to 1 of the theme font sizes, spelled out as clamps. */
  lemma ThemeFontSizeRows0To1()
    ensures forall i :: 0 <= i < 2 ==>
      ThemeFontSize[i].1 == Clamp(FluidTypeScale[i].1.0, ThemePreferred[i], FluidTypeScale[i].1.1)
  {
    assert Clamp("0.75rem", "2vw", "0.875rem") == "clamp(0.75rem, 2vw, 0.875rem)";
    assert Clamp("0.875rem", "2.5vw", "1rem") == "clamp(0.875rem, 2.5vw, 1rem)";
  }

  /** Rows 2 to 3 of the theme font sizes, spelled out as clamps. */
  lemma ThemeFontSizeRows2To3()
    ensures forall i :: 2 <= i < 4 ==>
      ThemeFontSize[i].1 == Clamp(FluidTypeScale[i].1.0, ThemePreferred[i], FluidTypeScale[i].1.1)
  {
    assert Clamp("1rem", "3vw", "1.125rem") == "clamp(1rem, 3vw, 1.125rem)";
    assert Clamp("1.125rem", "3.5vw", "1.375rem") == "clamp(1.125rem, 3.5vw, 1.375rem)";
  }

  /** Rows 4 to 5 of the theme font sizes, spelled out as clamps. */
  lemma ThemeFontSizeRows4To5()
    ensures forall i :: 4 <= i < 6 ==>
      ThemeFontSize[i].1 == Clamp(FluidTypeScale[i].1.0, ThemePreferred[i], FluidTypeScale[i].1.1)
  {
    assert Clamp("1.25rem", "4vw", "1.75rem") == "clamp(1.25rem, 4vw, 1.75rem)";
    assert Clamp("1.5rem", "5vw", "2.25rem") == "clamp(1.5rem, 5vw, 2.25rem)";
  }

  /** Rows 6 to 7 of the theme font sizes, spelled out as clamps. */
  lemma ThemeFontSizeRows6To7()
    ensures forall i :: 6 <= i < 8 ==>
      ThemeFontSize[i].1 == Clamp(FluidTypeScale[i].1.0, ThemePreferred[i], FluidTypeScale[i].1.1)
  {
    assert Clamp("1.875rem", "6vw", "3rem") == "clamp(1.875rem, 6vw, 3rem)";
    assert Clamp("2.25rem", "8vw", "4rem") == "clamp(2.25rem, 8vw, 4rem)";
  }

  /** Each theme font size is a clamp between the two sizes of the same step of the fluid scale. */
  lemma ThemeFontSizeMatchesScale(i: nat)
    requires i < |FluidTypeScale|
    ensures |ThemeFontSize| == |FluidTypeScale| == |ThemePreferred|
    ensures ThemeFontSize[i].0 == "fluid-" + FluidTypeScale[i].0
    ensures ThemeFontSize[i].1 == Clamp(FluidTypeScale[i].1.0, ThemePreferred[i], FluidTypeScale[i].1.1)
    ensures StartsWith(ThemeFontSize[i].1, "clamp(" + FluidTypeScale[i].1.0 + ", ")
    ensures EndsWith(ThemeFontSize[i].1, ", " + FluidTypeScale[i].1.1 + ")")
  {
    ClampBounds(FluidTypeScale[i].1.0, ThemePreferred[i], FluidTypeScale[i].1.1);
    if i < 2 {
      ThemeFontSizeRows0To1();
    } else if i < 4 {
      ThemeFontSizeRows2To3();
    } else if i < 6 {
      ThemeFontSizeRows4To5();
    } else {
      ThemeFontSizeRows6To7();
    }
  }

  /**
   * The utility of each step clamps between the step's two sizes, the
   * same two the theme entry of that step clamps between.
   */
  lemma FluidUtilityBounds(scale: Obj<(string, string)>, i: nat)
    requires UniqueKeys(scale) && i < |scale|
    ensures var (min, max) := scale[i].1;
      Get(FluidUtils(scale), ".sh-text-fluid-" + scale[i].0) == Some([("fontSize", FluidType(min, max))])
      && StartsWith(FluidType(min, max), "clamp(" + min + ", ")
      && EndsWith(FluidType(min, max), ", " + max + ")")
  {
    FluidUtilityOfStep(scale, i);
    FluidTypeBounds(scale[i].1.0, scale[i].1.1);
  }

  /** The transition utilities fall back to the root block's own duration and easing. */
  lemma TransitionFallbacksAreTokens(i: nat)
    requires i < |TransitionUtils|
    ensures Get(RootVars(Colors, SpacingScale), "--duration") == Some("200ms")
    ensures Get(RootVars(Colors, SpacingScale), "--easing") == Some("cubic-bezier(0.4, 0, 0.2, 1)")
    ensures Get(TransitionUtils[i].1, "transition-duration") == Some(VarOr("--duration", "200ms"))
    ensures Get(TransitionUtils[i].1, "transition-timing-function")
      == Some(VarOr("--easing", "cubic-bezier(0.4, 0, 0.2, 1)"))
  {
    DurationFallbackSpelling();
    EasingFallbackSpelling();
    ColorsUnique();
    SpacingAscending();
    RootVarsFixed(Colors, SpacingScale, 13);
    RootVarsFixed(Colors, SpacingScale, 16);
    GetEntry(TransitionUtils[i].1, 1);
    GetEntry(TransitionUtils[i].1, 2);
  }

  /** The theme's named durations fall back to the root block's values of the same variables. */
  lemma ThemeDurationFallbacks()
    ensures Get(RootVars(Colors, SpacingScale), "--duration-fast") == Some("100ms")
    ensures Get(RootVars(Colors, SpacingScale), "--duration-slow") == Some("400ms")
    ensures Get(ThemeTransitionDuration, "fast") == Some(VarOr("--duration-fast", "100ms"))
    ensures Get(ThemeTransitionDuration, "slow") == Some(VarOr("--duration-slow", "400ms"))
  {
    FastFallbackSpelling();
    SlowFallbackSpelling();
    ColorsUnique();
    SpacingAscending();
    RootVarsFixed(Colors, SpacingScale, 14);
    RootVarsFixed(Colors, SpacingScale, 15);
    GetEntry(ThemeTransitionDuration, 0);
    GetEntry(ThemeTransitionDuration, 1);
  }
}
