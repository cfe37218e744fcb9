/**
 * Fluid typography: the `fluidTypeScale` table and `fluidType`, which
 * writes a CSS `clamp()` that grows linearly with the viewport width
 * between two sizes.
 */
module Fluid {
  import opened JsObject
  import opened JsText

  /** Step name to the pair (minimum size, maximum size). */
  const FluidTypeScale: Obj<(string, string)> := [
    ("xs", ("0.75rem", "0.875rem")),
    ("sm", ("0.875rem", "1rem")),
    ("base", ("1rem", "1.125rem")),
    ("lg", ("1.125rem", "1.375rem")),
    ("xl", ("1.25rem", "1.75rem")),
    ("2xl", ("1.5rem", "2.25rem")),
    ("3xl", ("1.875rem", "3rem")),
    ("4xl", ("2.25rem", "4rem"))
  ]
  /** `s.replace('rem', '')`: only the first "rem" goes. */
  function StripRem(s: string): string
  {
    ReplaceFirst(s, "rem", "")
  }

  /**
   * The template literal of `fluidType`: `clamp(min, calc(min + (maxNum -
   * minNum) * ((100vw - minVw) / (maxVwNum - minVwNum))), max)`.
   */
  function Template(minSize: string, maxSize: string, minVw: string,
                    maxNum: string, minNum: string, maxVwNum: string, minVwNum: string): (r: string)
    ensures StartsWith(r, "clamp(" + minSize + ", calc(" + minSize)
    ensures EndsWith(r, ", " + maxSize + ")")
  {
    var head := "clamp(" + minSize + ", calc(" + minSize;
    var middle := " + (" + maxNum + " - " + minNum + ") * ((100vw - " + minVw
      + ") / (" + maxVwNum + " - " + minVwNum + ")))";
    var tail := ", " + maxSize + ")";
    assert (head + middle + tail)[..|head|] == head;
    assert (head + middle + tail)[|head + middle|..] == tail;
    head + middle + tail
  }

  /**
   * `fluidType(minSize, maxSize, minVw = '20rem', maxVw = '80rem')`: the
   * template filled with the four lengths, each numeric operand being its
   * length with the first "rem" removed.  A range with `minVw` equal to
   * `maxVw` is not rejected: the expression then divides by zero.
   */
  function FluidType(minSize: string, maxSize: string, minVw: string := "20rem", maxVw: string := "80rem"): (r: string)
    ensures StartsWith(r, "clamp(" + minSize + ", calc(" + minSize)
    ensures EndsWith(r, ", " + maxSize + ")")
  {
    Template(minSize, maxSize, minVw, StripRem(maxSize), StripRem(minSize), StripRem(maxVw), StripRem(minVw))
  }

  /** The expression is a clamp whose lower bound is `minSize` and whose upper bound is `maxSize`. */
  lemma FluidTypeBounds(minSize: string, maxSize: string, minVw: string := "20rem", maxVw: string := "80rem")
    ensures StartsWith(FluidType(minSize, maxSize, minVw, maxVw), "clamp(" + minSize + ", ")
    ensures EndsWith(FluidType(minSize, maxSize, minVw, maxVw), ", " + maxSize + ")")
  {
    assert "clamp(" + minSize + ", calc(" + minSize == ("clamp(" + minSize + ", ") + ("calc(" + minSize);
    StartsWithFront(FluidType(minSize, maxSize, minVw, maxVw), "clamp(" + minSize + ", ", "calc(" + minSize);
  }

  /** A string without the letter r holds no "rem". */
  lemma FreeOfR(s: string)
    requires forall i :: 0 <= i < |s| ==> s[i] != 'r'
    ensures Free(s, "rem")
  {
    forall j | 0 <= j <= |s| ensures !OccursAt(s, "rem", j) {
      if j + 3 <= |s| {
        assert s[j..j + 3][0] == s[j];
      }
    }
  }

  /**
   * For lengths written as a number followed by "rem" (the number holding
   * no "rem" itself), the numeric operands are exactly those numbers.
   */
  lemma FluidTypeOfRemSizes(a: string, b: string, c: string, d: string)
    requires Free(a, "rem") && Free(b, "rem") && Free(c, "rem") && Free(d, "rem")
    ensures FluidType(a + "rem", b + "rem", c + "rem", d + "rem")
      == Template(a + "rem", b + "rem", c + "rem", b, a, d, c)
  {
    StripFirstRem(a, "");
    StripFirstRem(b, "");
    StripFirstRem(c, "");
    StripFirstRem(d, "");
    assert a + "rem" + "" == a + "rem" && b + "rem" + "" == b + "rem";
    assert c + "rem" + "" == c + "rem" && d + "rem" + "" == d + "rem";
    assert a + "" == a && b + "" == b && c + "" == c && d + "" == d;
  }

  /** Omitted viewport bounds are 20rem and 80rem: the operands are 20 and 80. */
  lemma FluidTypeDefaults(a: string, b: string)
    requires Free(a, "rem") && Free(b, "rem")
    ensures FluidType(a + "rem", b + "rem") == Template(a + "rem", b + "rem", "20rem", b, a, "80", "20")
  {
    FreeOfR("20");
    FreeOfR("80");
    assert "20" + "rem" == "20rem" && "80" + "rem" == "80rem";
    FluidTypeOfRemSizes(a, b, "20", "80");
  }

  function Min(x: real, y: real): real { if x <= y then x else y }

  function Max(x: real, y: real): real { if x >= y then x else y }

  /**
   * The length, in rem, that the expression `FluidType` writes stands for at
   * viewport width `vw` (also in rem), CSS `clamp(MIN, VAL, MAX)` being
   * `max(MIN, min(VAL, MAX))`.
   */
  function FluidSize(minSize: real, maxSize: real, minVw: real, maxVw: real, vw: real): (r: real)
    requires minVw != maxVw
    ensures minSize <= r && r <= Max(minSize, maxSize)
  {
    Max(minSize, Min(minSize + (maxSize - minSize) * ((vw - minVw) / (maxVw - minVw)), maxSize))
  }

  /** At the smallest viewport the fluid size is the minimum size. */
  lemma FluidSizeAtMinViewport(minSize: real, maxSize: real, minVw: real, maxVw: real)
    requires minVw != maxVw
    ensures FluidSize(minSize, maxSize, minVw, maxVw, minVw) == minSize
  {
    assert (minVw - minVw) / (maxVw - minVw) == 0.0;
  }

  /** At the largest viewport the fluid size is the maximum size. */
  lemma FluidSizeAtMaxViewport(minSize: real, maxSize: real, minVw: real, maxVw: real)
    requires minSize <= maxSize && minVw != maxVw
    ensures FluidSize(minSize, maxSize, minVw, maxVw, maxVw) == maxSize
  {
    assert (maxVw - minVw) / (maxVw - minVw) == 1.0;
  }

  /** Between and beyond the two viewports the fluid size never shrinks as the viewport grows. */
  lemma FluidSizeMonotone(minSize: real, maxSize: real, minVw: real, maxVw: real, v1: real, v2: real)
    requires minSize <= maxSize && minVw < maxVw && v1 <= v2
    ensures FluidSize(minSize, maxSize, minVw, maxVw, v1) <= FluidSize(minSize, maxSize, minVw, maxVw, v2)
  {
    var w := maxVw - minVw;
    var t1, t2 := (v1 - minVw) / w, (v2 - minVw) / w;
    assert t2 - t1 == (v2 - v1) / w;
    assert t1 <= t2;
    var g := maxSize - minSize;
    assert g * t2 - g * t1 == g * (t2 - t1);
    assert g * (t2 - t1) >= 0.0;
  }

  /** With the minimum no larger than the maximum, the size stays between them. */
  lemma FluidSizeBounded(minSize: real, maxSize: real, minVw: real, maxVw: real, vw: real)
    requires minSize <= maxSize && minVw != maxVw
    ensures minSize <= FluidSize(minSize, maxSize, minVw, maxVw, vw) <= maxSize
  {
  }
}
