/**
 * A first-match lexer: at each position the rules are tried in order, the
 * first that matches at the start of the remaining text gives the next
 * token, and when none matches a one-character "other" token is emitted.
 */
module Lexer {
  import opened Wrappers
  import opened JsText

  /**
   * What a rule matches at the start of the remaining text.  Whitespace
   * runs, any character but a line terminator, and a set of single
   * characters are given concretely; every other regular expression is
   * handed, by its source text, to a matching engine.
   */
  datatype Pattern =
    | Spaces
    | AnyButNewline
    | OneOf(members: string)
    | Regex(source: string)

  datatype Rule = Rule(kind: string, pattern: Pattern)

  datatype Token = Token(kind: string, value: string)

  /**
   * A regular-expression engine: for a pattern source anchored at the start
   * of the text, the length of its first capture group, or None.
   */
  type Engine = (string, string) -> Option<nat>

  /** Every match the engine reports consumes at least one and at most all characters. */
  ghost predicate WellBehaved(engine: Engine)
  {
    forall source: string, s: string {:trigger engine(source, s)} ::
      engine(source, s).Some? ==> 1 <= engine(source, s).value <= |s|
  }

  /** The length of the prefix of `s` that `p` matches, if it matches. */
  function MatchLength(p: Pattern, s: string, engine: Engine): (r: Option<nat>)
    requires WellBehaved(engine)
    ensures r.Some? ==> 1 <= r.value <= |s|
    ensures p.Spaces? ==> (r.Some? <==> s != [] && IsJsSpace(s[0]))
    ensures p.AnyButNewline? || p.OneOf? ==> (r.Some? ==> r.value == 1)
    ensures p.AnyButNewline? ==> (r.Some? <==> s != [] && !IsLineTerminator(s[0]))
    ensures p.OneOf? ==> (r.Some? <==> s != [] && s[0] in p.members)
  {
    match p
    case Spaces => if SpaceRun(s) > 0 then Some(SpaceRun(s)) else None
    case AnyButNewline => if s != [] && !IsLineTerminator(s[0]) then Some(1) else None
    case OneOf(members) => if s != [] && s[0] in members then Some(1) else None
    case Regex(source) => engine(source, s)
  }

  /** A whitespace rule takes the whole leading run of white space. */
  lemma SpacesTakeWholeRun(s: string, engine: Engine)
    requires WellBehaved(engine) && MatchLength(Spaces, s, engine).Some?
    ensures var n := MatchLength(Spaces, s, engine).value;
      (forall i :: 0 <= i < n ==> IsJsSpace(s[i])) && (n < |s| ==> !IsJsSpace(s[n]))
  {
  }

  /**
   * The earliest rule at or after index `from` that matches at the start
   * of `s`, with the length it matches.
   */
  function FirstMatch(rules: seq<Rule>, s: string, engine: Engine, from: nat := 0): (r: Option<(nat, nat)>)
    requires WellBehaved(engine)
    ensures r.Some? ==>
      from <= r.value.0 < |rules| && MatchLength(rules[r.value.0].pattern, s, engine) == Some(r.value.1)
    ensures r.Some? ==> forall j :: from <= j < r.value.0 ==> MatchLength(rules[j].pattern, s, engine).None?
    ensures r.None? <==> forall j :: from <= j < |rules| ==> MatchLength(rules[j].pattern, s, engine).None?
    decreases |rules| - from
  {
    if from >= |rules| then None
    else match MatchLength(rules[from].pattern, s, engine)
      case Some(n) => Some((from, n))
      case None => FirstMatch(rules, s, engine, from + 1)
  }

  /** One round of the loop: the token taken off the front of the non-empty text `s`. */
  function Step(rules: seq<Rule>, s: string, engine: Engine): (t: Token)
    requires WellBehaved(engine) && s != []
    ensures 1 <= |t.value| <= |s| && t.value == s[..|t.value|]
  {
    match FirstMatch(rules, s, engine)
    case Some((i, n)) => Token(rules[i].kind, s[..n])
    case None => Token("other", s[..1])
  }

  /** The tokens of `s`, front to back. */
  function Lex(rules: seq<Rule>, s: string, engine: Engine): seq<Token>
    requires WellBehaved(engine)
    decreases |s|
  {
    if s == [] then []
    else
      var t := Step(rules, s, engine);
      [t] + Lex(rules, s[|t.value|..], engine)
  }

  /** The values of the tokens, joined in order. */
  function Text(tokens: seq<Token>): string
  {
    if tokens == [] then [] else tokens[0].value + Text(tokens[1..])
  }

  /** Joining the token values gives back the text: nothing is dropped, nothing added. */
  lemma {:induction false} LexRoundTrip(rules: seq<Rule>, s: string, engine: Engine)
    requires WellBehaved(engine)
    ensures Text(Lex(rules, s, engine)) == s
    decreases |s|
  {
    if s != [] {
      var t := Step(rules, s, engine);
      var rest := Lex(rules, s[|t.value|..], engine);
      LexRoundTrip(rules, s[|t.value|..], engine);
      assert Lex(rules, s, engine)[1..] == rest;
      assert s == t.value + s[|t.value|..];
    }
  }

  /** Every token is non-empty, so there are at most as many tokens as characters. */
  lemma {:induction false} LexProgress(rules: seq<Rule>, s: string, engine: Engine)
    requires WellBehaved(engine)
    ensures forall i :: 0 <= i < |Lex(rules, s, engine)| ==> Lex(rules, s, engine)[i].value != []
    ensures |Lex(rules, s, engine)| <= |s|
    ensures Lex(rules, s, engine) == [] <==> s == []
    decreases |s|
  {
    if s != [] {
      var t := Step(rules, s, engine);
      LexProgress(rules, s[|t.value|..], engine);
    }
  }

  /**
   * First match wins: the token comes from rule `i` when rule `i` matches
   * and no earlier rule does, and it holds exactly what rule `i` matched.
   */
  lemma StepTakesEarliestRule(rules: seq<Rule>, s: string, engine: Engine, i: nat)
    requires WellBehaved(engine) && s != [] && i < |rules|
    requires MatchLength(rules[i].pattern, s, engine).Some?
    requires forall j :: 0 <= j < i ==> MatchLength(rules[j].pattern, s, engine).None?
    ensures Step(rules, s, engine) == Token(rules[i].kind, s[..MatchLength(rules[i].pattern, s, engine).value])
  {
    match FirstMatch(rules, s, engine)
    case Some((k, n)) =>
      if k < i {
      } else if k > i {
      }
    case None =>
  }

  /** The text after a token taken by rule `k` is lexed on its own. */
  lemma LexByRule(rules: seq<Rule>, s: string, engine: Engine, k: nat)
    requires WellBehaved(engine) && s != [] && k < |rules|
    requires MatchLength(rules[k].pattern, s, engine).Some?
    requires forall j :: 0 <= j < k ==> MatchLength(rules[j].pattern, s, engine).None?
    ensures var n := MatchLength(rules[k].pattern, s, engine).value;
      Lex(rules, s, engine) == [Token(rules[k].kind, s[..n])] + Lex(rules, s[n..], engine)
  {
    StepTakesEarliestRule(rules, s, engine, k);
  }

  /** The text after a fallback token is lexed on its own. */
  lemma LexByFallback(rules: seq<Rule>, s: string, engine: Engine)
    requires WellBehaved(engine) && s != []
    requires forall j :: 0 <= j < |rules| ==> MatchLength(rules[j].pattern, s, engine).None?
    ensures Lex(rules, s, engine) == [Token("other", [s[0]])] + Lex(rules, s[1..], engine)
  {
    StepFallback(rules, s, engine);
  }

  /**
   * One round of the loop taken by rule `k`: if the tokens so far followed
   * by the tokens of `rest` are the tokens of the whole text, that stays
   * so once rule `k`'s token is pushed and its prefix sliced off.
   */
  lemma AdvanceByRule(rules: seq<Rule>, whole: seq<Token>, tokens: seq<Token>, rest: string, engine: Engine, k: nat, n: nat)
    requires WellBehaved(engine) && rest != []
    requires FirstMatch(rules, rest, engine) == Some((k, n))
    requires tokens + Lex(rules, rest, engine) == whole
    ensures k < |rules| && 1 <= n <= |rest|
    ensures (tokens + [Token(rules[k].kind, rest[..n])]) + Lex(rules, rest[n..], engine) == whole
  {
    var t := Token(rules[k].kind, rest[..n]);
    assert Lex(rules, rest, engine) == [t] + Lex(rules, rest[n..], engine);
    assert (tokens + [t]) + Lex(rules, rest[n..], engine) == tokens + ([t] + Lex(rules, rest[n..], engine));
  }

  /** One round of the loop that falls back: the same, with the first character pushed as "other". */
  lemma AdvanceByFallback(rules: seq<Rule>, whole: seq<Token>, tokens: seq<Token>, rest: string, engine: Engine)
    requires WellBehaved(engine) && rest != []
    requires FirstMatch(rules, rest, engine).None?
    requires tokens + Lex(rules, rest, engine) == whole
    ensures (tokens + [Token("other", [rest[0]])]) + Lex(rules, rest[1..], engine) == whole
  {
    var t := Token("other", [rest[0]]);
    assert rest[..1] == [rest[0]];
    assert Step(rules, rest, engine) == t;
    assert Lex(rules, rest, engine) == [t] + Lex(rules, rest[1..], engine);
    assert (tokens + [t]) + Lex(rules, rest[1..], engine) == tokens + ([t] + Lex(rules, rest[1..], engine));
  }

  /** Rules after the first match are never consulted: appending rules changes nothing. */
  lemma LaterRulesNotTried(rules: seq<Rule>, extra: seq<Rule>, s: string, engine: Engine)
    requires WellBehaved(engine) && s != []
    requires FirstMatch(rules, s, engine).Some?
    ensures Step(rules + extra, s, engine) == Step(rules, s, engine)
  {
    var (i, n) := FirstMatch(rules, s, engine).value;
    assert (rules + extra)[i] == rules[i];
    forall j | 0 <= j < i ensures MatchLength((rules + extra)[j].pattern, s, engine).None? {
      assert (rules + extra)[j] == rules[j];
    }
    StepTakesEarliestRule(rules + extra, s, engine, i);
  }

  /** When no rule matches, the token is the first character, typed "other". */
  lemma StepFallback(rules: seq<Rule>, s: string, engine: Engine)
    requires WellBehaved(engine) && s != []
    requires forall j :: 0 <= j < |rules| ==> MatchLength(rules[j].pattern, s, engine).None?
    ensures Step(rules, s, engine) == Token("other", [s[0]])
  {
  }

  /** The kinds a rule list can produce: its own, and "other" for the fallback. */
  predicate Emittable(rules: seq<Rule>, kind: string)
  {
    kind == "other" || exists i :: 0 <= i < |rules| && rules[i].kind == kind
  }

  /** Every token carries a kind of one of the rules, or "other". */
  lemma {:induction false} LexKinds(rules: seq<Rule>, s: string, engine: Engine)
    requires WellBehaved(engine)
    ensures forall t :: t in Lex(rules, s, engine) ==> Emittable(rules, t.kind)
    decreases |s|
  {
    if s != [] {
      var t := Step(rules, s, engine);
      LexKinds(rules, s[|t.value|..], engine);
      match FirstMatch(rules, s, engine)
      case Some((i, n)) => assert rules[i].kind == t.kind;
      case None =>
    }
  }

  /**
   * A rule list holding a whitespace rule and an any-character rule matches
   * every non-empty text, so it never reaches the fallback.
   */
  lemma NeverFallsBack(rules: seq<Rule>, s: string, engine: Engine, spaces: nat, any: nat)
    requires WellBehaved(engine) && s != []
    requires spaces < |rules| && rules[spaces].pattern == Spaces
    requires any < |rules| && rules[any].pattern == AnyButNewline
    ensures FirstMatch(rules, s, engine).Some?
  {
    if IsLineTerminator(s[0]) {
      assert MatchLength(rules[spaces].pattern, s, engine).Some?;
    } else {
      assert MatchLength(rules[any].pattern, s, engine).Some?;
    }
  }
}
