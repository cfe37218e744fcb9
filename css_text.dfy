/**
 * The CSS value syntax the plugin writes by string concatenation:
 * `var()` references, with and without a fallback, and `clamp()`.
 */
module CssText {
  import opened JsText

  /** A `var()` reference without a fallback. */
  function Var(name: string): string
  {
    "var(" + name + ")"
  }

  /** A `var()` reference with a fallback value. */
  function VarOr(name: string, fallback: string): string
  {
    "var(" + name + ", " + fallback + ")"
  }

  /** CSS `clamp(min, preferred, max)`. */
  function Clamp(min: string, preferred: string, max: string): string
  {
    "clamp(" + min + ", " + preferred + ", " + max + ")"
  }

  /** A clamp starts with its lower bound and ends with its upper bound. */
  lemma ClampBounds(min: string, preferred: string, max: string)
    ensures StartsWith(Clamp(min, preferred, max), "clamp(" + min + ", ")
    ensures EndsWith(Clamp(min, preferred, max), ", " + max + ")")
  {
    var head := "clamp(" + min + ", ";
    var tail := ", " + max + ")";
    assert Clamp(min, preferred, max) == head + preferred + tail;
    assert (head + preferred + tail)[..|head|] == head;
    assert (head + preferred + tail)[|head + preferred|..] == tail;
  }

  /** The duration fallback of the transition utilities, as written. */
  lemma DurationFallbackSpelling()
    ensures VarOr("--duration", "200ms") == "var(--duration, 200ms)"
  {
  }

  /** The easing fallback of the transition utilities, as written. */
  lemma EasingFallbackSpelling()
    ensures VarOr("--easing", "cubic-bezier(0.4, 0, 0.2, 1)") == "var(--easing, cubic-bezier(0.4, 0, 0.2, 1))"
  {
  }

  /** The fallback of the theme's fast duration, as written. */
  lemma FastFallbackSpelling()
    ensures VarOr("--duration-fast", "100ms") == "var(--duration-fast, 100ms)"
  {
  }

  /** The fallback of the theme's slow duration, as written. */
  lemma SlowFallbackSpelling()
    ensures VarOr("--duration-slow", "400ms") == "var(--duration-slow, 400ms)"
  {
  }
}
