/**
 * The design-token tables of the Tailwind plugin and `buildRootVars`, which
 * flattens them into the one ordered map of CSS custom properties emitted
 * under `:root`.
 */
module DesignTokens {
  import opened Wrappers
  import opened JsObject
  import opened JsText

  /** The colour palette: name to hex value, in declaration order. */
  const Colors: Obj<string> := [
    ("white", "#fff"),
    ("black", "#000"),
    ("gray-100", "#f8f9fa"),
    ("gray-200", "#e9ecef"),
    ("gray-300", "#dee2e6"),
    ("gray-400", "#ced4da"),
    ("gray-500", "#adb5bd"),
    ("gray-600", "#6c757d"),
    ("gray-700", "#495057"),
    ("gray-800", "#343a40"),
    ("gray-900", "#212529"),
    ("blue", "#0d6efd"),
    ("indigo", "#6610f2"),
    ("purple", "#6f42c1"),
    ("pink", "#d63384"),
    ("red", "#dc3545"),
    ("orange", "#fd7e14"),
    ("yellow", "#ffc107"),
    ("green", "#28a745"),
    ("teal", "#20c997"),
    ("cyan", "#17a2b8"),
    ("primary", "#0d6efd"),
    ("secondary", "#6c757d"),
    ("success", "#28a745"),
    ("info", "#17a2b8"),
    ("warning", "#ffc107"),
    ("danger", "#dc3545"),
    ("light", "#f8f9fa"),
    ("dark", "#343a40")
  ]
  /**
   * The spacing scale: step to length.  Its keys are integers, so
   * `Object.entries` lists them in ascending numeric order.
   */
  const SpacingScale: seq<(nat, string)> := [
    (1, "0.25rem"),
    (2, "0.5rem"),
    (3, "0.75rem"),
    (4, "1rem"),
    (5, "1.25rem"),
    (6, "1.5rem"),
    (7, "1.75rem"),
    (8, "2rem"),
    (9, "2.25rem"),
    (10, "2.5rem"),
    (11, "2.75rem"),
    (12, "3rem"),
    (14, "3.5rem"),
    (16, "4rem"),
    (20, "5rem"),
    (24, "6rem"),
    (28, "7rem"),
    (32, "8rem"),
    (36, "9rem"),
    (40, "10rem"),
    (44, "11rem"),
    (48, "12rem")
  ]
  /** The fixed typography and motion properties appended after the two tables. */
  const FixedVars: Obj<string> := [
    ("--font-size-sm", "0.875rem"),
    ("--font-size-base", "1rem"),
    ("--font-size-lg", "1.25rem"),
    ("--font-size-xl", "1.5rem"),
    ("--font-size-2xl", "1.875rem"),
    ("--font-size-3xl", "2.25rem"),
    ("--font-size-4xl", "3rem"),
    ("--font-weight-light", "300"),
    ("--font-weight-normal", "400"),
    ("--font-weight-bold", "700"),
    ("--line-height-sm", "1.25"),
    ("--line-height-base", "1.5"),
    ("--line-height-lg", "2"),
    ("--duration", "200ms"),
    ("--duration-fast", "100ms"),
    ("--duration-slow", "400ms"),
    ("--easing", "cubic-bezier(0.4, 0, 0.2, 1)")
  ]
  /** The entries of an integer-keyed object, which come in strictly ascending key order. */
  predicate Ascending(steps: seq<(nat, string)>)
  {
    forall i, j :: 0 <= i < j < |steps| ==> steps[i].0 < steps[j].0
  }

  /** Every entry of `t` with `p` put in front of its key. */
  function Prefixed(p: string, t: Obj<string>): Obj<string>
  {
    seq(|t|, i requires 0 <= i < |t| => (p + t[i].0, t[i].1))
  }

  /** The entries of an integer-keyed table with their keys printed as in `${key}`. */
  function Printed(steps: seq<(nat, string)>): Obj<string>
  {
    seq(|steps|, i requires 0 <= i < |steps| => (NatToString(steps[i].0), steps[i].1))
  }

  function ColorVars(colors: Obj<string>): Obj<string>
  {
    Prefixed("--color-", colors)
  }

  function SpacingVars(spacing: seq<(nat, string)>): Obj<string>
  {
    Prefixed("--spacing-", Printed(spacing))
  }

  /**
   * The `:root` map: the colour entries, then the spacing entries, then the
   * fixed entries, each group in table order.
   */
  function RootVars(colors: Obj<string>, spacing: seq<(nat, string)>): Obj<string>
  {
    ColorVars(colors) + SpacingVars(spacing) + FixedVars
  }

  /** Every key of a prefixed table starts with the prefix. */
  lemma PrefixedKeys(p: string, t: Obj<string>, k: string)
    ensures HasKey(Prefixed(p, t), k) ==> StartsWith(k, p)
  {
    if HasKey(Prefixed(p, t), k) {
      var i :| 0 <= i < |t| && Prefixed(p, t)[i].0 == k;
      assert k[..|p|] == (p + t[i].0)[..|p|];
    }
  }

  /** A string that differs from `p` at a position of `p` does not start with `p`. */
  lemma DiffersAt(k: string, p: string, i: nat)
    requires i < |p| && i < |k| && k[i] != p[i]
    ensures !StartsWith(k, p)
  {
  }

  /** A prefix keeps the keys of a table distinct. */
  lemma PrefixedUnique(p: string, t: Obj<string>)
    requires UniqueKeys(t)
    ensures UniqueKeys(Prefixed(p, t))
  {
    forall i, j | 0 <= i < j < |t|
      ensures Prefixed(p, t)[i].0 != Prefixed(p, t)[j].0
    {
      if p + t[i].0 == p + t[j].0 {
        PrefixCancel(p, t[i].0, t[j].0);
      }
    }
  }

  /** Distinct integer keys print as distinct strings. */
  lemma PrintedUnique(steps: seq<(nat, string)>)
    requires Ascending(steps)
    ensures UniqueKeys(Printed(steps))
  {
    forall i, j | 0 <= i < j < |steps|
      ensures Printed(steps)[i].0 != Printed(steps)[j].0
    {
      if NatToString(steps[i].0) == NatToString(steps[j].0) {
        NatToStringInjective(steps[i].0, steps[j].0);
      }
    }
  }

  /** Colour keys and spacing keys are told apart by their third character. */
  lemma ColorSpacingApart(colors: Obj<string>, spacing: seq<(nat, string)>, k: string)
    ensures HasKey(ColorVars(colors), k) ==> !HasKey(SpacingVars(spacing), k)
  {
    PrefixedKeys("--color-", colors, k);
    PrefixedKeys("--spacing-", Printed(spacing), k);
    if HasKey(ColorVars(colors), k) {
      DiffersAt(k, "--spacing-", 2);
    }
  }

  /** No fixed property is a colour or spacing property: the third character tells them apart. */
  lemma FixedKeysApart(colors: Obj<string>, spacing: seq<(nat, string)>, k: string)
    requires HasKey(FixedVars, k)
    ensures !HasKey(ColorVars(colors) + SpacingVars(spacing), k)
  {
    var i :| 0 <= i < |FixedVars| && FixedVars[i].0 == k;
    assert |k| > 2 && k[2] in {'f', 'l', 'd', 'e'};
    DiffersAt(k, "--color-", 2);
    DiffersAt(k, "--spacing-", 2);
    PrefixedKeys("--color-", colors, k);
    PrefixedKeys("--spacing-", Printed(spacing), k);
    HasKeyConcat(ColorVars(colors), SpacingVars(spacing), k);
  }

  lemma FixedVarsUnique()
    ensures UniqueKeys(FixedVars)
  {
  }

  /**
   * The three groups share no key, so none overwrites another: every entry
   * of every table is in the map, which has exactly
   * |colors| + |spacing| + 17 entries.
   */
  lemma RootVarsUnique(colors: Obj<string>, spacing: seq<(nat, string)>)
    requires UniqueKeys(colors) && Ascending(spacing)
    ensures UniqueKeys(RootVars(colors, spacing))
    ensures |RootVars(colors, spacing)| == |colors| + |spacing| + 17
  {
    var c, s := ColorVars(colors), SpacingVars(spacing);
    PrefixedUnique("--color-", colors);
    PrintedUnique(spacing);
    PrefixedUnique("--spacing-", Printed(spacing));
    forall k | HasKey(c, k) ensures !HasKey(s, k) {
      ColorSpacingApart(colors, spacing, k);
    }
    UniqueConcat(c, s);
    forall k | HasKey(c + s, k) ensures !HasKey(FixedVars, k) {
      if HasKey(FixedVars, k) {
        FixedKeysApart(colors, spacing, k);
      }
    }
    FixedVarsUnique();
    UniqueConcat(c + s, FixedVars);
  }

  /** Colour `n` of the table is emitted as `--color-n` with its value. */
  lemma RootVarsColor(colors: Obj<string>, spacing: seq<(nat, string)>, i: nat)
    requires UniqueKeys(colors) && Ascending(spacing) && i < |colors|
    ensures Get(RootVars(colors, spacing), "--color-" + colors[i].0) == Some(colors[i].1)
  {
    RootVarsUnique(colors, spacing);
    GetEntry(RootVars(colors, spacing), i);
  }

  /** Spacing step `k` of the table is emitted as `--spacing-k` with its value. */
  lemma RootVarsSpacing(colors: Obj<string>, spacing: seq<(nat, string)>, i: nat)
    requires UniqueKeys(colors) && Ascending(spacing) && i < |spacing|
    ensures Get(RootVars(colors, spacing), "--spacing-" + NatToString(spacing[i].0)) == Some(spacing[i].1)
  {
    RootVarsUnique(colors, spacing);
    var r := RootVars(colors, spacing);
    assert r[|colors| + i] == ("--spacing-" + NatToString(spacing[i].0), spacing[i].1);
    GetEntry(r, |colors| + i);
  }

  /** Each fixed property is emitted with its value. */
  lemma RootVarsFixed(colors: Obj<string>, spacing: seq<(nat, string)>, i: nat)
    requires UniqueKeys(colors) && Ascending(spacing) && i < |FixedVars|
    ensures Get(RootVars(colors, spacing), FixedVars[i].0) == Some(FixedVars[i].1)
  {
    RootVarsUnique(colors, spacing);
    var r := RootVars(colors, spacing);
    assert r[|colors| + |spacing| + i] == FixedVars[i];
    GetEntry(r, |colors| + |spacing| + i);
  }

  /** The colour written in round `i` of the first loop is not yet in the map. */
  lemma ColorKeyFresh(colors: Obj<string>, i: nat)
    requires UniqueKeys(colors) && i < |colors|
    ensures !HasKey(ColorVars(colors[..i]), "--color-" + colors[i].0)
    ensures ColorVars(colors[..i + 1]) == ColorVars(colors[..i]) + [("--color-" + colors[i].0, colors[i].1)]
  {
    var key := "--color-" + colors[i].0;
    forall j | 0 <= j < i ensures ColorVars(colors[..i])[j].0 != key {
      if "--color-" + colors[j].0 == key {
        PrefixCancel("--color-", colors[j].0, colors[i].0);
      }
    }
  }

  /** The step written in round `i` of the second loop is not yet in the map. */
  lemma SpacingKeyFresh(colors: Obj<string>, spacing: seq<(nat, string)>, i: nat)
    requires Ascending(spacing) && i < |spacing|
    ensures !HasKey(ColorVars(colors) + SpacingVars(spacing[..i]), "--spacing-" + NatToString(spacing[i].0))
    ensures SpacingVars(spacing[..i + 1])
      == SpacingVars(spacing[..i]) + [("--spacing-" + NatToString(spacing[i].0), spacing[i].1)]
  {
    var key := "--spacing-" + NatToString(spacing[i].0);
    assert StartsWith(key, "--spacing-");
    PrefixedKeys("--color-", colors, key);
    forall j | 0 <= j < i ensures SpacingVars(spacing[..i])[j].0 != key {
      if "--spacing-" + NatToString(spacing[j].0) == key {
        PrefixCancel("--spacing-", NatToString(spacing[j].0), NatToString(spacing[i].0));
        NatToStringInjective(spacing[j].0, spacing[i].0);
      }
    }
    DiffersAt(key, "--color-", 2);
    HasKeyConcat(ColorVars(colors), SpacingVars(spacing[..i]), key);
  }

  /**
   * `buildRootVars`: a fresh object filled by one loop over the colours,
   * one over the spacing steps, and `Object.assign` of the fixed block.
   * The tables are values and are left as they were; the result is a
   * function of them alone, so two calls give equal maps.
   */
  method BuildRootVars(colors: Obj<string>, spacing: seq<(nat, string)>) returns (vars: Obj<string>)
    requires UniqueKeys(colors) && Ascending(spacing)
    ensures vars == RootVars(colors, spacing)
    ensures UniqueKeys(vars) && |vars| == |colors| + |spacing| + |FixedVars|
  {
    vars := [];
    for i := 0 to |colors|
      invariant vars == ColorVars(colors[..i])
    {
      ColorKeyFresh(colors, i);
      vars := Put(vars, "--color-" + colors[i].0, colors[i].1);
    }
    assert colors[..|colors|] == colors;
    for i := 0 to |spacing|
      invariant vars == ColorVars(colors) + SpacingVars(spacing[..i])
    {
      SpacingKeyFresh(colors, spacing, i);
      vars := Put(vars, "--spacing-" + NatToString(spacing[i].0), spacing[i].1);
    }
    assert spacing[..|spacing|] == spacing;
    RootVarsUnique(colors, spacing);
    forall k | HasKey(FixedVars, k) ensures !HasKey(vars, k) {
      FixedKeysApart(colors, spacing, k);
    }
    FixedVarsUnique();
    AssignFresh(vars, FixedVars);
    vars := Assign(vars, FixedVars);
  }

  /** `key` × 0.25rem written as the table writes it: "0.25rem", "1rem", "3.5rem", "12rem". */
  function QuarterRem(key: nat): string
  {
    NatToString(key / 4) + ["", ".25", ".5", ".75"][key % 4] + "rem"
  }

  /** White, black and the first grays (rows 0 to 3) differ from every later name. */
  lemma ColorsDistinctFrom0()
    ensures forall i, j :: 0 <= i < 4 && i < j < |Colors| ==> Colors[i].0 != Colors[j].0
  {
  }

  /** Rows 4 to 7, all grays, differ from every later name. */
  lemma ColorsDistinctFrom4()
    ensures forall i, j :: 4 <= i < 8 && i < j < |Colors| ==> Colors[i].0 != Colors[j].0
  {
  }

  /** Rows 8 to 15 differ from every later name. */
  lemma ColorsDistinctFrom8()
    ensures forall i, j :: 8 <= i < 16 && i < j < |Colors| ==> Colors[i].0 != Colors[j].0
  {
  }

  /** Rows 16 to 22 differ from every later name. */
  lemma ColorsDistinctFrom16()
    ensures forall i, j :: 16 <= i < 23 && i < j < |Colors| ==> Colors[i].0 != Colors[j].0
  {
  }

  /** The colour names are distinct. */
  lemma ColorsUnique()
    ensures UniqueKeys(Colors)
  {
    ColorsDistinctFrom0();
    ColorsDistinctFrom4();
    ColorsDistinctFrom8();
    ColorsDistinctFrom16();
  }

  /** The spacing table is written in ascending key order, so its written order is its entries order. */
  lemma SpacingAscending()
    ensures Ascending(SpacingScale)
  {
    AscendingFromAdjacent(SpacingScale);
  }

  /** Keys that grow from each entry to the next grow along the whole table. */
  lemma {:induction false} AscendingFromAdjacent(steps: seq<(nat, string)>)
    requires forall i :: 0 <= i < |steps| - 1 ==> steps[i].0 < steps[i + 1].0
    ensures Ascending(steps)
  {
    if |steps| > 1 {
      var tail := steps[1..];
      assert forall i :: 0 <= i < |tail| - 1 ==> tail[i].0 < tail[i + 1].0 by {
        forall i | 0 <= i < |tail| - 1 ensures tail[i].0 < tail[i + 1].0 {
          assert tail[i] == steps[i + 1] && tail[i + 1] == steps[i + 2];
        }
      }
      AscendingFromAdjacent(tail);
      forall i, j | 0 <= i < j < |steps| ensures steps[i].0 < steps[j].0 {
        if i > 0 {
          assert steps[i] == tail[i - 1] && steps[j] == tail[j - 1];
        } else if j > 1 {
          assert steps[1] == tail[0] && steps[j] == tail[j - 1];
        }
      }
    }
  }

  /** Spacing rows 0 to 5 (0.25rem to 1.5rem) hold k × 0.25rem. */
  lemma SpacingRowsFirst(i: nat)
    requires i < 6
    ensures SpacingScale[i].1 == QuarterRem(SpacingScale[i].0)
  {
  }

  /** Spacing rows 6 to 11 (1.75rem to 3rem) hold k × 0.25rem. */
  lemma SpacingRowsMiddle(i: nat)
    requires 6 <= i < 12
    ensures SpacingScale[i].1 == QuarterRem(SpacingScale[i].0)
  {
  }

  /** Spacing rows 12 to 18 (3.5rem to 9rem), whole and half rems, hold k × 0.25rem. */
  lemma SpacingRowsLate(i: nat)
    requires 12 <= i < 19
    ensures SpacingScale[i].1 == QuarterRem(SpacingScale[i].0)
  {
  }

  /** The same for the last three rows, 10rem to 12rem. */
  lemma SpacingRowsFromTen(i: nat)
    requires 19 <= i < 22
    ensures SpacingScale[i].1 == QuarterRem(SpacingScale[i].0)
  {
    assert NatToString(SpacingScale[i].0 / 4) == NatToString(1) + NatToString(SpacingScale[i].0 / 4 - 10);
  }

  /** Every spacing step `k` has the value k × 0.25rem. */
  lemma SpacingIsQuarterRem()
    ensures forall i :: 0 <= i < |SpacingScale| ==> SpacingScale[i].1 == QuarterRem(SpacingScale[i].0)
  {
    forall i | 0 <= i < |SpacingScale| ensures SpacingScale[i].1 == QuarterRem(SpacingScale[i].0) {
      if i < 6 {
        SpacingRowsFirst(i);
      } else if i < 12 {
        SpacingRowsMiddle(i);
      } else if i < 19 {
        SpacingRowsLate(i);
      } else {
        SpacingRowsFromTen(i);
      }
    }
  }

  /** The plugin's own `:root` map has 29 + 22 + 17 = 68 distinct entries. */
  lemma TableRootVars()
    ensures UniqueKeys(RootVars(Colors, SpacingScale))
    ensures |RootVars(Colors, SpacingScale)| == 68
  {
    ColorsUnique();
    SpacingAscending();
    RootVarsUnique(Colors, SpacingScale);
  }
}
