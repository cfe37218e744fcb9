/**
 * The code-block highlighter of the documentation site: the rulesets per
 * language, the `tokenize` loop, and the colour each token is painted with.
 */
module CodeBlock {
  import opened Wrappers
  import opened JsObject
  import opened JsText
  import opened Lexer

  const ScssRules: seq<Rule> := [
    Rule("comment", Regex(@"^(\/\/[^\n]*|\/\*[\s\S]*?\*\/)")),
    Rule("string", Regex(@"^([""'`][^""'`]*[""'`])")),
    Rule("property", Regex(@"^(--[\w-]+)")),
    Rule("at-rule", Regex(@"^(@[\w-]+)")),
    Rule("variable", Regex(@"^(\$[\w-]+)")),
    Rule("function", Regex(@"^([\w-]+(?=\())")),
    Rule("keyword", Regex(@"^(true|false|null|and|or|not)(?=\W)")),
    Rule("number", Regex(@"^([\d.]+(%|rem|em|px|vh|vw|s|ms)?)(?=\W|$)")),
    Rule("punct", OneOf("{}();:,")),
    Rule("selector", Regex(@"^([.#&>~+*[\]()^$|=@][\w-.*[\]()^$|=@:\s]*)(?={)")),
    Rule("plain", Regex(@"^([\w-]+)")),
    Rule("ws", Spaces),
    Rule("other", AnyButNewline)
  ]

  const BashRules: seq<Rule> := [
    Rule("comment", Regex(@"^(#[^\n]*)")),
    Rule("string", Regex(@"^([""'][^""']*[""'])")),
    Rule("keyword", Regex(@"^(pnpm|npm|yarn|sass|postcss|node)\b")),
    Rule("flag", Regex(@"^(--[\w-]+|-\w)\b")),
    Rule("plain", Regex(@"^([\w./\-@:]+)")),
    Rule("ws", Spaces),
    Rule("other", AnyButNewline)
  ]

  const JsRules: seq<Rule> := [
    Rule("comment", Regex(@"^(\/\/[^\n]*|\/\*[\s\S]*?\*\/)")),
    Rule("string", Regex(@"^([""'`][^""'`\n]*[""'`])")),
    Rule("keyword", Regex(@"^(import|export|from|const|let|var|function|return|require|module|default|true|false|null)\b")),
    Rule("property", Regex(@"^(--[\w-]+)")),
    Rule("function", Regex(@"^([\w$]+(?=\())")),
    Rule("plain", Regex(@"^([\w$]+)")),
    Rule("punct", OneOf("{}();:,./=<>!&|+-*[]")),
    Rule("ws", Spaces),
    Rule("other", AnyButNewline)
  ]

  /** The `patterns` object once `patterns.css = patterns.scss` has run. */
  function Patterns(): Obj<seq<Rule>>
  {
    Put([("scss", ScssRules), ("css", []), ("bash", BashRules), ("js", JsRules)], "css", ScssRules)
  }

  /** The alias overwrites the empty `css` entry in place, keeping the key order. */
  lemma PatternsTable()
    ensures Patterns() == [("scss", ScssRules), ("css", ScssRules), ("bash", BashRules), ("js", JsRules)]
  {
    var o: Obj<seq<Rule>> := [("scss", ScssRules), ("css", []), ("bash", BashRules), ("js", JsRules)];
    KeyIndexAt(o, "css", 1);
  }

  /**
   * `patterns[lang] || patterns.scss`, reading only the object's own
   * properties: a ruleset is an array, so any present entry is taken.
   */
  function Select(lang: string): (r: seq<Rule>)
    ensures r == ScssRules || r == BashRules || r == JsRules
  {
    match Get(Patterns(), lang)
    case Some(rules) => rules
    case None => ScssRules
  }

  /** `css` and every language without a ruleset use the scss rules. */
  lemma SelectRuleset(lang: string)
    ensures Select(lang) == if lang == "bash" then BashRules else if lang == "js" then JsRules else ScssRules
  {
    PatternsTable();
    var o := Patterns();
    if lang == "bash" {
      KeyIndexAt(o, lang, 2);
    } else if lang == "js" {
      KeyIndexAt(o, lang, 3);
    } else if lang == "scss" {
      KeyIndexAt(o, lang, 0);
    } else if lang == "css" {
      KeyIndexAt(o, lang, 1);
    } else {
      KeyIndexNone(o, lang);
    }
  }

  /** Every built-in ruleset, at the positions of its `ws` and `other` rules. */
  lemma RulesetEndsWithFallbacks(lang: string)
    ensures var rules := Select(lang);
      |rules| >= 2 && rules[|rules| - 2] == Rule("ws", Spaces) && rules[|rules| - 1] == Rule("other", AnyButNewline)
  {
    SelectRuleset(lang);
  }

  /**
   * The built-in rulesets match every non-empty text: a line terminator is
   * white space and anything else is matched by `.`, so the loop's own
   * fallback is never reached.
   */
  lemma SelectedNeverFallsBack(lang: string, s: string, engine: Engine)
    requires WellBehaved(engine) && s != []
    ensures FirstMatch(Select(lang), s, engine).Some?
  {
    RulesetEndsWithFallbacks(lang);
    var rules := Select(lang);
    NeverFallsBack(rules, s, engine, |rules| - 2, |rules| - 1);
  }

  /**
   * `tokenize(code, lang)`: repeatedly try the rules in order on what is
   * left, push the first match and slice it off; when no rule matches,
   * push the first character as "other".
   */
  method Tokenize(code: string, lang: string, engine: Engine) returns (tokens: seq<Token>)
    requires WellBehaved(engine)
    ensures tokens == Lex(Select(lang), code, engine)
    ensures Text(tokens) == code
    ensures forall i :: 0 <= i < |tokens| ==> tokens[i].value != []
    ensures |tokens| <= |code| && (tokens == [] <==> code == [])
  {
    var ruleset := Select(lang);
    if code == [] {
      return [];
    }
    tokens := [];
    var rest := code;
    while |rest| > 0
      invariant tokens + Lex(ruleset, rest, engine) == Lex(ruleset, code, engine)
      decreases |rest|
    {
      ghost var before := rest;
      var matched := false;
      for k := 0 to |ruleset|
        invariant !matched && rest == before
        invariant FirstMatch(ruleset, before, engine) == FirstMatch(ruleset, before, engine, k)
      {
        var m := MatchLength(ruleset[k].pattern, rest, engine);
        if m.Some? {
          AdvanceByRule(ruleset, Lex(ruleset, code, engine), tokens, rest, engine, k, m.value);
          tokens := tokens + [Token(ruleset[k].kind, rest[..m.value])];
          rest := rest[m.value..];
          matched := true;
          break;
        }
      }
      if !matched {
        AdvanceByFallback(ruleset, Lex(ruleset, code, engine), tokens, rest, engine);
        tokens := tokens + [Token("other", [rest[0]])];
        rest := rest[1..];
      }
    }
    assert tokens == tokens + Lex(ruleset, rest, engine);
    LexRoundTrip(ruleset, code, engine);
    LexProgress(ruleset, code, engine);
  }

  /**
   * The names a plain object inherits from `Object.prototype`; `patterns[lang]`
   * finds each of them although `patterns` does not define it.
   */
  const PrototypeNames: set<string> := {
    "constructor", "toString", "toLocaleString", "valueOf", "hasOwnProperty",
    "isPrototypeOf", "propertyIsEnumerable", "__proto__", "__defineGetter__",
    "__defineSetter__", "__lookupGetter__", "__lookupSetter__"
  }

  /** What `patterns[lang] || patterns.scss` yields as written. */
  datatype Lookup = Ruleset(rules: seq<Rule>) | Inherited(name: string)

  /**
   * As written, the lookup also walks the prototype chain: an inherited
   * name gives a function (or, for `__proto__`, `Object.prototype`), which
   * is truthy and so is kept instead of the scss rules.
   */
  function SelectAsWritten(lang: string): (r: Lookup)
    ensures r.Inherited? ==> r.name == lang && lang in PrototypeNames
  {
    match Get(Patterns(), lang)
    case Some(rules) => Ruleset(rules)
    case None => if lang in PrototypeNames then Inherited(lang) else Ruleset(ScssRules)
  }

  /**
   * `tokenize` as written: the `for…of` over an inherited value throws a
   * TypeError as soon as there is text to tokenize.
   */
  function TokenizeAsWritten(code: string, lang: string, engine: Engine): (r: Result<seq<Token>>)
    requires WellBehaved(engine)
    ensures r.Failure? ==> code != [] && lang in PrototypeNames
  {
    if code == [] then Success([])
    else match SelectAsWritten(lang)
      case Ruleset(rules) => Success(Lex(rules, code, engine))
      case Inherited(_) => Failure("TypeError: ruleset is not iterable")
  }

  /** No built-in language is an inherited name. */
  lemma LanguagesNotInherited()
    ensures forall lang :: lang in PrototypeNames ==> lang != "scss" && lang != "css" && lang != "bash" && lang != "js"
  {
  }

  /** Off the prototype names, the code as written and the model agree on every input. */
  lemma AsWrittenAgreesOffPrototype(code: string, lang: string, engine: Engine)
    requires WellBehaved(engine) && lang !in PrototypeNames
    ensures TokenizeAsWritten(code, lang, engine) == Success(Lex(Select(lang), code, engine))
  {
  }

  /**
   * A language named `constructor` (or any other inherited name) makes the
   * code as written throw on any non-empty text, where the intended
   * fallback tokenizes it with the scss rules.
   */
  lemma PrototypeNameThrows(code: string, lang: string, engine: Engine)
    requires WellBehaved(engine) && code != [] && lang in PrototypeNames
    ensures TokenizeAsWritten(code, lang, engine).Failure?
    ensures Select(lang) == ScssRules
  {
    LanguagesNotInherited();
    SelectRuleset(lang);
    PatternsTable();
    KeyIndexNone(Patterns(), lang);
  }

  /** The colour of each token type; `ws` is painted with no colour. */
  const ColorMap: Obj<Option<string>> := [
    ("comment", Some("#555")),
    ("string", Some("#c8b97a")),
    ("property", Some("#a0c4ff")),
    ("at-rule", Some("#e8a0a0")),
    ("variable", Some("#d4a8f0")),
    ("function", Some("#8dcfb0")),
    ("keyword", Some("#e8a0a0")),
    ("number", Some("#c8b97a")),
    ("punct", Some("#666")),
    ("selector", Some("#c0c0c0")),
    ("flag", Some("#a0c4ff")),
    ("plain", Some("#ccc")),
    ("ws", None),
    ("other", Some("#888"))
  ]

  /** A piece of the rendered block: bare text, or a span with a colour. */
  datatype Piece = Bare(text: string) | Span(color: string, text: string)

  /** `colorMap[t.type]`: a missing, null or empty colour renders the bare value. */
  function Paint(t: Token): (p: Piece)
    ensures p.text == t.value
  {
    var color := Get(ColorMap, t.kind);
    if color.Some? && color.value.Some? && color.value.value != "" then Span(color.value.value, t.value)
    else Bare(t.value)
  }

  /** Each token painted, in order. */
  function PaintAll(tokens: seq<Token>): seq<Piece>
  {
    if tokens == [] then [] else [Paint(tokens[0])] + PaintAll(tokens[1..])
  }

  /** `Highlighted`: the trimmed code tokenized and painted. */
  function Highlighted(code: string, lang: string, engine: Engine): seq<Piece>
    requires WellBehaved(engine)
  {
    PaintAll(Lex(Select(lang), Trim(code), engine))
  }

  /** The text of the pieces, joined in order. */
  function Rendered(pieces: seq<Piece>): string
  {
    if pieces == [] then [] else pieces[0].text + Rendered(pieces[1..])
  }

  /** Painting keeps the text and the number of tokens. */
  lemma {:induction false} PaintAllKeepsText(tokens: seq<Token>)
    ensures |PaintAll(tokens)| == |tokens|
    ensures forall i :: 0 <= i < |tokens| ==> PaintAll(tokens)[i] == Paint(tokens[i])
    ensures Rendered(PaintAll(tokens)) == Text(tokens)
  {
    if tokens != [] {
      PaintAllKeepsText(tokens[1..]);
      assert PaintAll(tokens)[1..] == PaintAll(tokens[1..]);
    }
  }

  /** The rendered block shows exactly the trimmed code. */
  lemma HighlightedShowsTrimmedCode(code: string, lang: string, engine: Engine)
    requires WellBehaved(engine)
    ensures Rendered(Highlighted(code, lang, engine)) == Trim(code)
  {
    PaintAllKeepsText(Lex(Select(lang), Trim(code), engine));
    LexRoundTrip(Select(lang), Trim(code), engine);
  }

  /** The keys of the colour map are distinct. */
  lemma ColorMapUnique()
    ensures UniqueKeys(ColorMap)
  {
    ColorMapFrontDistinct();
  }

  /** The first seven types differ from every later one. */
  lemma ColorMapFrontDistinct()
    ensures forall i, j :: 0 <= i < 7 && i < j < |ColorMap| ==> ColorMap[i].0 != ColorMap[j].0
  {
  }

  /** Only `ws` has a null colour; every other colour is a non-empty string. */
  lemma OnlyWsUncoloured(kind: string)
    ensures Get(ColorMap, kind) == Some(None) <==> kind == "ws"
    ensures forall c :: Get(ColorMap, kind) == Some(Some(c)) ==> c != ""
  {
    if kind == "ws" {
      ColorMapUnique();
      GetEntry(ColorMap, 12);
    }
  }

  /** Where each rule's type sits in the colour map, ruleset by ruleset. */
  lemma RuleKindsInColorMap()
    ensures forall i :: 0 <= i < |ScssRules| ==> HasKey(ColorMap, ScssRules[i].kind)
    ensures forall i :: 0 <= i < |BashRules| ==> HasKey(ColorMap, BashRules[i].kind)
    ensures forall i :: 0 <= i < |JsRules| ==> HasKey(ColorMap, JsRules[i].kind)
  {
    var scss := [0, 1, 2, 3, 4, 5, 6, 7, 8, 9, 11, 12, 13];
    var bash := [0, 1, 6, 10, 11, 12, 13];
    var js := [0, 1, 6, 2, 5, 11, 8, 12, 13];
    forall i | 0 <= i < |ScssRules| ensures HasKey(ColorMap, ScssRules[i].kind) {
      assert ColorMap[scss[i]].0 == ScssRules[i].kind;
    }
    forall i | 0 <= i < |BashRules| ensures HasKey(ColorMap, BashRules[i].kind) {
      assert ColorMap[bash[i]].0 == BashRules[i].kind;
    }
    forall i | 0 <= i < |JsRules| ensures HasKey(ColorMap, JsRules[i].kind) {
      assert ColorMap[js[i]].0 == JsRules[i].kind;
    }
  }

  /** Every type a ruleset can emit, the fallback's included, has an entry in the colour map. */
  lemma EmittableKindsColoured(lang: string, kind: string)
    requires Emittable(Select(lang), kind)
    ensures HasKey(ColorMap, kind)
  {
    SelectRuleset(lang);
    RuleKindsInColorMap();
    if kind == "other" {
      assert ColorMap[13].0 == kind;
    }
  }

  /** A token of a known type is rendered bare exactly when it is white space. */
  lemma PaintBareIffWs(t: Token)
    requires HasKey(ColorMap, t.kind)
    ensures Paint(t).Bare? <==> t.kind == "ws"
    ensures Paint(t).text == t.value
  {
    OnlyWsUncoloured(t.kind);
  }

  /** In the rendered block the white-space tokens, and only they, are bare text. */
  lemma HighlightedBareIffWs(code: string, lang: string, engine: Engine, i: nat)
    requires WellBehaved(engine)
    requires i < |Lex(Select(lang), Trim(code), engine)|
    ensures |Highlighted(code, lang, engine)| == |Lex(Select(lang), Trim(code), engine)|
    ensures Highlighted(code, lang, engine)[i].Bare? <==> Lex(Select(lang), Trim(code), engine)[i].kind == "ws"
  {
    var tokens := Lex(Select(lang), Trim(code), engine);
    PaintAllKeepsText(tokens);
    LexKinds(Select(lang), Trim(code), engine);
    assert tokens[i] in tokens;
    EmittableKindsColoured(lang, tokens[i].kind);
    PaintBareIffWs(tokens[i]);
  }
}
