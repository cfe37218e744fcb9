/**
 * The few JavaScript string operations the plugin and the highlighter use:
 * printing a non-negative integer in a template literal, `String.prototype.replace`
 * with a string pattern, the `\s` class of regular expressions and `trim`.
 * Strings are sequences of code points; a JavaScript string is a sequence of
 * UTF-16 code units, which agree with code points outside the astral planes.
 */
module JsText {
  import opened Wrappers

  predicate IsDigit(c: char)
  {
    '0' <= c <= '9'
  }

  predicate AllDigits(s: string)
  {
    forall i :: 0 <= i < |s| ==> IsDigit(s[i])
  }

  function DigitChar(d: nat): (c: char)
    requires d < 10
    ensures IsDigit(c) && c as int - '0' as int == d
  {
    ('0' as int + d) as char
  }

  /** `${n}` for a non-negative integer `n`: its decimal digits, most significant first. */
  function NatToString(n: nat): (s: string)
    ensures |s| >= 1 && AllDigits(s)
    ensures n < 10 <==> |s| == 1
    ensures n >= 1 ==> s[0] != '0'
  {
    if n < 10 then [DigitChar(n)] else NatToString(n / 10) + [DigitChar(n % 10)]
  }

  /** The number a string of decimal digits denotes. */
  function DecimalValue(s: string): nat
    requires AllDigits(s)
  {
    if s == [] then 0 else 10 * DecimalValue(s[..|s| - 1]) + (s[|s| - 1] as int - '0' as int)
  }

  /** Reading back the digits `NatToString` prints gives the number again. */
  lemma {:induction false} DecimalRoundTrip(n: nat)
    ensures DecimalValue(NatToString(n)) == n
  {
    if n >= 10 {
      var s := NatToString(n);
      assert s[..|s| - 1] == NatToString(n / 10);
      DecimalRoundTrip(n / 10);
    }
  }

  /** Distinct numbers print as distinct strings. */
  lemma NatToStringInjective(a: nat, b: nat)
    requires NatToString(a) == NatToString(b)
    ensures a == b
  {
    DecimalRoundTrip(a);
    DecimalRoundTrip(b);
  }

  /** A common prefix can be cancelled: appending to one prefix is injective. */
  lemma PrefixCancel(p: string, a: string, b: string)
    requires p + a == p + b
    ensures a == b
  {
    assert a == (p + a)[|p|..];
    assert b == (p + b)[|p|..];
  }

  predicate StartsWith(s: string, prefix: string)
  {
    |prefix| <= |s| && s[..|prefix|] == prefix
  }

  predicate EndsWith(s: string, suffix: string)
  {
    |suffix| <= |s| && s[|s| - |suffix|..] == suffix
  }

  /** A string starting with `p + q` starts with `p`. */
  lemma StartsWithFront(s: string, p: string, q: string)
    requires StartsWith(s, p + q)
    ensures StartsWith(s, p)
  {
    assert s[..|p|] == (p + q)[..|p|];
  }

  /** `pat` occurs in `s` starting at index `i`. */
  predicate OccursAt(s: string, pat: string, i: nat)
  {
    i + |pat| <= |s| && s[i..i + |pat|] == pat
  }

  /** `s.indexOf(pat, from)`: the first index at or after `from` where `pat` occurs. */
  function IndexOf(s: string, pat: string, from: nat := 0): (r: Option<nat>)
    ensures r.Some? ==> from <= r.value && OccursAt(s, pat, r.value)
    ensures r.Some? ==> forall j :: from <= j < r.value ==> !OccursAt(s, pat, j)
    ensures r.None? ==> forall j :: from <= j ==> !OccursAt(s, pat, j)
    decreases |s| - from
  {
    if from + |pat| > |s| then None
    else if OccursAt(s, pat, from) then Some(from)
    else IndexOf(s, pat, from + 1)
  }

  /**
   * `s.replace(pat, rep)` with a string pattern and a replacement without `$`
   * patterns: only the first occurrence of `pat` is replaced.
   */
  function ReplaceFirst(s: string, pat: string, rep: string): string
  {
    match IndexOf(s, pat)
    case None => s
    case Some(i) => s[..i] + rep + s[i + |pat|..]
  }

  /** `s` does not contain `pat` anywhere. */
  predicate Free(s: string, pat: string)
  {
    forall j :: 0 <= j <= |s| ==> !OccursAt(s, pat, j)
  }

  /** The first occurrence is the one found. */
  lemma IndexOfFirst(s: string, pat: string, n: nat)
    requires OccursAt(s, pat, n)
    requires forall j: nat :: j < n ==> !OccursAt(s, pat, j)
    ensures IndexOf(s, pat) == Some(n)
  {
  }

  /** No "rem" starts inside `d` in `d + "rem" + t` when `d` holds none. */
  lemma NoRemBefore(d: string, t: string, j: nat)
    requires Free(d, "rem") && j < |d|
    ensures !OccursAt(d + "rem" + t, "rem", j)
  {
    var s := d + "rem" + t;
    var n := |d|;
    if j + 3 <= n {
      assert s[j..j + 3] == d[j..j + 3];
      assert !OccursAt(d, "rem", j);
    } else if j + 2 == n {
      assert s[j + 2] == 'r';
    } else {
      assert j + 1 == n && s[j + 1] == 'r';
    }
  }

  /**
   * Removing the first "rem" from `d + "rem" + t`, where `d` holds no "rem",
   * leaves exactly `d + t`: a later "rem" in `t` is kept.
   */
  lemma StripFirstRem(d: string, t: string)
    requires Free(d, "rem")
    ensures ReplaceFirst(d + "rem" + t, "rem", "") == d + t
  {
    var s := d + "rem" + t;
    var n := |d|;
    assert OccursAt(s, "rem", n) by { assert s[n..n + 3] == "rem"; }
    forall j: nat | j < n
      ensures !OccursAt(s, "rem", j)
    {
      NoRemBefore(d, t, j);
    }
    IndexOfFirst(s, "rem", n);
    assert s[..n] == d && s[n + 3..] == t;
  }

  /** A JavaScript line terminator: LF, CR, LINE SEPARATOR, PARAGRAPH SEPARATOR. */
  predicate IsLineTerminator(c: char)
  {
    c == '\n' || c == '\r' || c as int == 0x2028 || c as int == 0x2029
  }

  /**
   * A character of the regular-expression class `\s` (and of what `trim`
   * removes): the ECMAScript white space and line terminator characters.
   */
  predicate IsJsSpace(c: char)
  {
    var n := c as int;
    || IsLineTerminator(c)
    || n == 0x09 || n == 0x0B || n == 0x0C || n == 0x20 || n == 0xA0 || n == 0x1680
    || (0x2000 <= n <= 0x200A)
    || n == 0x202F || n == 0x205F || n == 0x3000 || n == 0xFEFF
  }

  /** The length of the longest run of `\s` characters that `s` starts with. */
  function SpaceRun(s: string): (n: nat)
    ensures n <= |s|
    ensures forall i :: 0 <= i < n ==> IsJsSpace(s[i])
    ensures n < |s| ==> !IsJsSpace(s[n])
  {
    if s == [] || !IsJsSpace(s[0]) then 0 else 1 + SpaceRun(s[1..])
  }

  /** The length of the longest run of `\s` characters that `s` ends with. */
  function TrailingSpaceRun(s: string): (n: nat)
    ensures n <= |s|
    ensures forall i :: |s| - n <= i < |s| ==> IsJsSpace(s[i])
    ensures n < |s| ==> !IsJsSpace(s[|s| - n - 1])
  {
    if s == [] || !IsJsSpace(s[|s| - 1]) then 0 else 1 + TrailingSpaceRun(s[..|s| - 1])
  }

  /**
   * `s.trim()`: `s` without its leading and trailing white space; the
   * result is the middle slice of `s` and neither starts nor ends with
   * white space.
   */
  function Trim(s: string): (r: string)
    ensures SpaceRun(s) + |r| <= |s| && r == s[SpaceRun(s)..SpaceRun(s) + |r|]
    ensures forall i :: 0 <= i < SpaceRun(s) ==> IsJsSpace(s[i])
    ensures forall i :: SpaceRun(s) + |r| <= i < |s| ==> IsJsSpace(s[i])
    ensures r != [] ==> !IsJsSpace(r[0]) && !IsJsSpace(r[|r| - 1])
  {
    var a := SpaceRun(s);
    var rest := s[a..];
    var b := TrailingSpaceRun(rest);
    var r := rest[..|rest| - b];
    assert r == s[a..a + |r|];
    assert forall i :: a + |r| <= i < |s| ==> s[i] == rest[i - a];
    r
  }
}
