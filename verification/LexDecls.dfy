/** Printed declarations and whole programs lex into exactly the tokens of their trees. */
module LexDecls {
  import opened Text
  import opened Tokens
  import opened Ast
  import opened LexSpec
  import opened PrintSpec
  import opened PrintTokens
  import opened ParseSpec
  import opened LexWords
  import opened Keywords
  import opened LexPrinted
  import opened LexLines

  // ---------------------------------------------------------------- declarations that print as they stand

  /** A name the printer leaves bare must be one the lexer reads as an identifier. */
  predicate PrintableName(s: string) { IsBare(s) ==> IsName(s) }

  predicate SurvivesGoQuote(c: char) { IsPrint(c) || c == '\n' || c == '\t' }

  predicate PrintableText(s: string) { forall i :: 0 <= i < |s| ==> SurvivesGoQuote(s[i]) }

  predicate PrintableConfig(typ: ConfigType, options: seq<string>, default: Value) {
    && (typ == Select <==> options != [])
    && (typ == Untyped ==> default != NoValue)
    && !default.FloatValue?
    && (default.IntValue? ==> 0 <= default.n <= MAX_EXACT)
  }

  predicate PrintableEnv(source: EnvSource, value: string, valueExpr: Option<Expr>, guard: Option<Expr>, optional: bool) {
    if source != Fixed then value == "" && valueExpr.None? && guard.None?
    else if valueExpr.None? then guard.None? && !optional
    else
      && value == "" && !optional
      && Printable(valueExpr.value, guard.None?) && PrintableGuard(guard)
      && !(valueExpr.value.StringLit? && guard.None?)
  }

  predicate IsPiece(w: string) { IsWord(w) && IsCapabilityPiece(LookupIdent(w)) }

  predicate PiecesOf(s: string)
    decreases |s|
  {
    var n := WordEnd(s);
    IsPiece(s[..n]) && (n < |s| ==> PiecesOf(s[n + 1..]))
  }

  predicate PrintableCapability(axis: string, value: string) {
    && IsName(axis) && ToLower(axis) == axis && ValidCapability(axis, value)
    && if axis == "control" then PiecesOf(value) else IsPiece(value)
  }

  predicate PrintableDecl(d: Decl) {
    match d
    case AgentDecl(command) => PrintableName(command)
    case ExecutableDecl(name) => PrintableName(name)
    case ConfigDecl(name, typ, options, default) => IsName(name) && PrintableConfig(typ, options, default)
    case EnvDecl(name, source, value, valueExpr, guard, optional) =>
      IsName(name) && PrintableEnv(source, value, valueExpr, guard, optional)
    case RepoDecl(repo) => Printable(repo, true)
    case BranchDecl(branch) => Printable(branch, true)
    case GitCredentialDecl(credential) => IsName(credential)
    case McpDecl(enabled, format) => format == "" || (enabled && IsName(format))
    case SkillsDecl(slugs) => forall x | x in slugs :: IsName(x)
    case SetupDecl(script, timeout) => 0 <= timeout <= MAX_INT64 && !EndsInNewline(script)
    case RemoveDecl(target, _) => target != NoTarget
    case ModeDecl(mode) => mode == "pty" || mode == "acp"
    case ModeArgsDecl(mode, args) => (mode == "pty" || mode == "acp") && args != []
    case UseEnvBundleDecl(name) => PrintableName(name)
    case UseConfigBundleDecl(name) => PrintableName(name)
    case PromptDecl(prompt) => PrintableText(prompt)
    case PromptPositionDecl(position) => IsWord(position) && IsPosition(PositionToken(position))
    case CapabilityDecl(axis, capability) => PrintableCapability(axis, capability)
    case KnowledgeDecl(mounts) => forall m | m in mounts :: IsName(m.slug) && (m.mode == "ro" || m.mode == "rw")
  }

  predicate PrintableProgram(p: Program) {
    (forall d | d in p.declarations :: PrintableDecl(d)) && (forall s | s in p.statements :: PrintableStmt(s))
  }

  // ---------------------------------------------------------------- pieces

  lemma LexDeclaration(w: string, text: string, tokens: seq<Token>, s: string, t: string)
    requires w in DECLARATION_KEYWORDS && Lexes(text, tokens, s, t)
    ensures Lexes(w + " " + text, [Token(DECLARATION_KEYWORDS[w], w)] + tokens, s, t)
  {
    hide Lex, LookupIdent;
    LexDeclarationKeyword(w, " " + (text + s));
    hide DECLARATION_KEYWORDS;
    GlueSpace(w, [Token(DECLARATION_KEYWORDS[w], w)], text + s);
    Glue(w + " ", [Token(DECLARATION_KEYWORDS[w], w)], text, tokens, s, t);
  }

  lemma LexLine(w: string, text: string, token: Token, s: string)
    requires w in DECLARATION_KEYWORDS && Lexes(text, [token], "\n" + s, "\n" + s)
    ensures Lexes(w + " " + text, [Token(DECLARATION_KEYWORDS[w], w), token, NL], "\n" + s, s)
  {
    hide Lex, LookupIdent;
    LexEnd(text, [token], s);
    LexDeclaration(w, text, [token] + [NL], "\n" + s, s);
    hide DECLARATION_KEYWORDS;
    assert [Token(DECLARATION_KEYWORDS[w], w)] + ([token] + [NL]) == [Token(DECLARATION_KEYWORDS[w], w), token, NL];
  }

  lemma LexQuoteIfNeeded(name: string, s: string)
    requires PrintableName(name) && Breaks(s)
    ensures Lexes(QuoteIfNeeded(name), [NameToken(name)], s, s)
  {
    hide Lex, LookupIdent;
    if IsBare(name) { LexName(name, s); } else { LexQuoted(name, s); }
  }

  lemma LexNamedLine(w: string, name: string, s: string)
    requires w in DECLARATION_KEYWORDS && PrintableName(name)
    ensures Lexes(w + " " + QuoteIfNeeded(name), [Token(DECLARATION_KEYWORDS[w], w), NameToken(name), NL], "\n" + s, s)
  {
    hide Lex, LookupIdent, QuoteIfNeeded, NameToken;
    LexQuoteIfNeeded(name, "\n" + s);
    LexLine(w, QuoteIfNeeded(name), NameToken(name), s);
  }

  lemma LexWordLine(w: string, word: string, s: string)
    requires w in DECLARATION_KEYWORDS && IsWord(word)
    ensures Lexes(w + " " + word, [Token(DECLARATION_KEYWORDS[w], w), Token(LookupIdent(word), word), NL], "\n" + s, s)
  {
    hide Lex, LookupIdent;
    LexWord(word, "\n" + s);
    LexLine(w, word, Token(LookupIdent(word), word), s);
  }

  lemma LexExprLine(w: string, e: Expr, s: string)
    requires w in DECLARATION_KEYWORDS && Printable(e, true)
    ensures Lexes(w + " " + ExprText(e), [Token(DECLARATION_KEYWORDS[w], w)] + ExprTokens(e) + LineEnd(e), "\n" + s, s)
  {
    hide Lex, LookupIdent, ExprText, ExprTokens, LineEnd;
    LexLineEnd(e, s);
    LexDeclaration(w, ExprText(e), ExprTokens(e) + LineEnd(e), "\n" + s, s);
    hide DECLARATION_KEYWORDS;
    ConcatAssociates([Token(DECLARATION_KEYWORDS[w], w)], ExprTokens(e), LineEnd(e));
  }

  lemma {:induction false} ReadGoEscaped(v: string, s: string)
    requires PrintableText(v)
    ensures ReadString(GoEscape(v) + ("\"" + s)) == Reading(true, v, s)
  {
    hide Lex;
    var close := "\"" + s;
    if v == "" {
      assert GoEscape(v) + close == close && close[1..] == s;
    } else {
      ReadGoEscaped(v[1..], s);
      GoQuoteCharIsEscape(v[0]);
      ReadEscapedChar(v[0], GoEscape(v[1..]) + close);
      ConcatAssociates(GoQuoteChar(v[0]), GoEscape(v[1..]), close);
      assert [v[0]] + v[1..] == v;
    }
  }

  lemma GoQuoteCharIsEscape(c: char)
    requires SurvivesGoQuote(c)
    ensures GoQuoteChar(c) == EscapeChar(c)
  {}

  lemma LexGoQuoted(v: string, s: string)
    requires PrintableText(v)
    ensures Lexes(GoQuote(v), [StringToken(v)], s, s)
  {
    hide Lex, GoEscape, PrintableText;
    ReadGoEscaped(v, s);
    LexLiteral(GoEscape(v), v, s);
  }

  // ---------------------------------------------------------------- lists

  lemma {:induction false} LexQuotedList(ss: seq<string>, s: string)
    requires Breaks(s)
    ensures Lexes(QuotedList(ss), QuotedTokens(ss), s, s)
  {
    hide Lex, QuoteString;
    if ss == [] {
      assert "" + s == s;
    } else if |ss| == 1 {
      LexQuoted(ss[0], s);
    } else {
      var more := QuotedList(ss[1..]) + s;
      LexQuotedList(ss[1..], s);
      LexCommaSpace(more);
      LexQuoted(ss[0], ", " + more);
      Bracket(QuoteString(ss[0]), [StringToken(ss[0])], ", ", [COMMA_TOKEN], QuotedList(ss[1..]), QuotedTokens(ss[1..]), s);
      assert [StringToken(ss[0])] + [COMMA_TOKEN] == [StringToken(ss[0]), COMMA_TOKEN];
    }
  }

  lemma {:induction false} LexSlugList(ss: seq<string>, s: string)
    requires Breaks(s) && forall x | x in ss :: IsName(x)
    ensures Lexes(SlugList(ss), SlugTokens(ss), s, s)
  {
    hide Lex, LookupIdent;
    if ss == [] {
      assert "" + s == s;
    } else if |ss| == 1 {
      LexName(ss[0], s);
    } else {
      var more := SlugList(ss[1..]) + s;
      LexSlugList(ss[1..], s);
      LexCommaSpace(more);
      LexName(ss[0], ", " + more);
      Bracket(ss[0], [IdentToken(ss[0])], ", ", [COMMA_TOKEN], SlugList(ss[1..]), SlugTokens(ss[1..]), s);
      assert [IdentToken(ss[0])] + [COMMA_TOKEN] == [IdentToken(ss[0]), COMMA_TOKEN];
    }
  }

  lemma {:induction false} LexQuotedArgs(ss: seq<string>, s: string)
    requires Breaks(s)
    ensures Lexes(QuotedArgs(ss), StringTokens(ss), s, s)
  {
    hide Lex, QuoteString;
    if ss == [] {
      assert "" + s == s;
    } else {
      var more := QuotedArgs(ss[1..]) + s;
      LexQuotedArgs(ss[1..], s);
      LexQuoted(ss[0], more);
      LexSpace(QuoteString(ss[0]) + more);
      assert " " + QuoteString(ss[0]) + more == " " + (QuoteString(ss[0]) + more);
      Glue(" " + QuoteString(ss[0]), [StringToken(ss[0])], QuotedArgs(ss[1..]), StringTokens(ss[1..]), s, s);
    }
  }

  lemma RwIsName()
    ensures IsName("rw")
  {
    PlainName("rw");
  }

  lemma LexMount(m: Mount, s: string)
    requires IsName(m.slug) && Breaks(s)
    ensures Lexes(MountText(m), MountTokens(m), s, s)
  {
    RwIsName();
    hide Lex, LookupIdent;
    if m.mode == "rw" {
      var tail := "]" + s;
      LexPunctuation(']', s);
      LexName("rw", tail);
      LexPunctuation('[', "rw" + tail);
      LexSpace("[" + ("rw" + tail));
      assert " [" + ("rw" + tail) == " " + ("[" + ("rw" + tail));
      Bracket(" [", [Token(LBRACKET, "[")], "rw", [IdentToken("rw")], "]", [Token(RBRACKET, "]")], s);
      assert " [" + "rw" + "]" == " [rw]";
      LexName(m.slug, " [rw]" + s);
      var brackets := [Token(LBRACKET, "[")] + [IdentToken("rw")] + [Token(RBRACKET, "]")];
      Glue(m.slug, [IdentToken(m.slug)], " [rw]", brackets, s, s);
      assert brackets == [Token(LBRACKET, "["), IdentToken("rw"), Token(RBRACKET, "]")];
    } else {
      LexName(m.slug, s);
      assert m.slug + "" == m.slug;
      assert [IdentToken(m.slug)] + [] == [IdentToken(m.slug)];
    }
  }

  lemma {:induction false} LexMountList(ms: seq<Mount>, s: string)
    requires Breaks(s) && forall m | m in ms :: IsName(m.slug)
    ensures Lexes(MountList(ms), MountListTokens(ms), s, s)
  {
    hide Lex, LookupIdent, MountText, MountTokens;
    if ms == [] {
      assert "" + s == s;
    } else if |ms| == 1 {
      LexMount(ms[0], s);
    } else {
      var more := MountList(ms[1..]) + s;
      LexMountList(ms[1..], s);
      LexCommaSpace(more);
      LexMount(ms[0], ", " + more);
      Bracket(MountText(ms[0]), MountTokens(ms[0]), ", ", [COMMA_TOKEN], MountList(ms[1..]), MountListTokens(ms[1..]), s);
    }
  }

  lemma {:induction false} WordEndIsFirstComma(s: string)
    ensures WordEnd(s) < |s| ==> s[WordEnd(s)] == ','
  {
    if s != "" && s[0] != ',' { WordEndIsFirstComma(s[1..]); }
  }

  lemma CommaSplit(value: string, n: nat)
    requires n < |value| && value[n] == ','
    ensures value == value[..n] + "," + value[n + 1..]
  {}

  lemma ControlSplit(value: string)
    requires WordEnd(value) < |value|
    ensures var n := WordEnd(value);
      ControlTokens(value) == [Token(LookupIdent(value[..n]), value[..n])] + [COMMA_TOKEN] + ControlTokens(value[n + 1..])
  {
    hide LookupIdent, WordEnd;
    var n := WordEnd(value);
    var word, tail := Token(LookupIdent(value[..n]), value[..n]), value[n + 1..];
    assert ControlTokens(value) == [word, COMMA_TOKEN] + ControlTokens(tail);
    hide ControlTokens;
    TwoWords(word);
  }

  lemma TwoWords(word: Token)
    ensures [word] + [COMMA_TOKEN] == [word, COMMA_TOKEN]
  {}

  lemma {:induction false} LexControl(value: string, s: string)
    requires PiecesOf(value) && Breaks(s)
    ensures Lexes(value, ControlTokens(value), s, s)
    decreases |value|
  {
    hide Lex, LookupIdent, IsWord, IsCapabilityPiece;
    var n := WordEnd(value);
    var word := value[..n];
    WordEndIsFirstComma(value);
    if n == |value| {
      assert word == value;
      LexWord(word, s);
    } else {
      var tail := value[n + 1..];
      LexControl(tail, s);
      LexPunctuation(',', tail + s);
      LexWord(word, "," + (tail + s));
      ControlSplit(value);
      CommaSplit(value, n);
      hide ControlTokens, WordEnd, PiecesOf;
      Bracket(word, [Token(LookupIdent(word), word)], ",", [COMMA_TOKEN], tail, ControlTokens(tail), s);
    }
  }

  // ---------------------------------------------------------------- CONFIG and ENV

  lemma LexDecimal(n: int, s: string)
    requires n >= 0 && Breaks(s) && (s != "" ==> s[0] != '.')
    ensures Lexes(DecimalText(n), [Token(NUMBER, DecimalText(n))], s, s)
  {
    hide Lex;
    LexNumber(DecimalText(n), s);
  }

  lemma LexValue(v: Value, s: string)
    requires v != NoValue && !v.FloatValue? && (v.IntValue? ==> v.n >= 0)
    requires Breaks(s) && (s != "" ==> s[0] != '.')
    ensures Lexes(ValueText(v), [ValueToken(v)], s, s)
  {
    hide Lex, LookupIdent, DecimalText, QuoteString;
    match v
    case StrValue(x) => LexQuoted(x, s);
    case BoolValue(b) => LexBool(b, s);
    case IntValue(n) => LexDecimal(n, s);
  }

  lemma LexDefault(v: Value, s: string)
    requires !v.FloatValue? && (v.IntValue? ==> v.n >= 0)
    ensures Lexes(if v == NoValue then "" else " = " + ValueText(v),
                  if v == NoValue then [] else [Token(ASSIGN, "="), ValueToken(v)], "\n" + s, "\n" + s)
  {
    hide Lex, ValueText, ValueToken;
    if v == NoValue {
      assert "" + ("\n" + s) == "\n" + s;
    } else {
      LexValue(v, "\n" + s);
      LexSpacedEquals(ValueText(v) + ("\n" + s));
      Glue(" = ", [Token(ASSIGN, "=")], ValueText(v), [ValueToken(v)], "\n" + s, "\n" + s);
      assert [Token(ASSIGN, "=")] + [ValueToken(v)] == [Token(ASSIGN, "="), ValueToken(v)];
    }
  }

  lemma LexParens(text: string, tokens: seq<Token>, s: string)
    requires Lexes(text, tokens, ")" + s, ")" + s)
    ensures Lexes("(" + text + ")", [Token(LPAREN, "(")] + tokens + [Token(RPAREN, ")")], s, s)
  {
    hide Lex;
    LexPunctuation(')', s);
    LexPunctuation('(', text + (")" + s));
    Bracket("(", [Token(LPAREN, "(")], text, tokens, ")", [Token(RPAREN, ")")], s);
  }

  lemma LexOptions(typ: ConfigType, options: seq<string>, s: string)
    requires typ == Select <==> options != []
    requires s != "" && (s[0] == ' ' || s[0] == '\n')
    ensures Lexes(if typ == Select && options != [] then "(" + QuotedList(options) + ")" else "",
                  if typ == Select && options != [] then [Token(LPAREN, "(")] + QuotedTokens(options) + [Token(RPAREN, ")")]
                  else [], s, s)
  {
    hide Lex, QuotedList, QuotedTokens;
    if typ == Select {
      LexQuotedList(options, ")" + s);
      LexParens(QuotedList(options), QuotedTokens(options), s);
    } else {
      assert "" + s == s;
    }
  }

  lemma LexType(typ: ConfigType, s: string)
    requires Breaks(s)
    ensures Lexes(if typ == Untyped then "" else " " + TypeText(typ), if typ == Untyped then [] else [TypeToken(typ)], s, s)
  {
    hide Lex, LookupIdent;
    match typ {
      case Untyped => assert "" + s == s;
      case Boolean => LexDeclarationKeyword("BOOL", s);
      case Str => LexDeclarationKeyword("STRING", s);
      case Number => LexDeclarationKeyword("NUMBER", s);
      case Secret => LexDeclarationKeyword("SECRET", s);
      case Select => LexDeclarationKeyword("SELECT", s);
    }
    if typ != Untyped {
      LexSpace(TypeText(typ) + s);
      ConcatAssociates(" ", TypeText(typ), s);
    }
  }

  lemma LexConfig(d: Decl, s: string)
    requires d.ConfigDecl? && PrintableDecl(d)
    ensures Lexes(DeclText(d), DeclTokens(d), "\n" + s, s)
  {
    hide Lex, LookupIdent, TypeText, TypeToken, QuotedList, QuotedTokens, ValueText, ValueToken;
    var ConfigDecl(name, typ, options, default) := d;
    var end := "\n" + s;
    var t3, k3 := if default == NoValue then "" else " = " + ValueText(default),
      if default == NoValue then [] else [Token(ASSIGN, "="), ValueToken(default)];
    var t2, k2 := if typ == Select && options != [] then "(" + QuotedList(options) + ")" else "",
      if typ == Select && options != [] then [Token(LPAREN, "(")] + QuotedTokens(options) + [Token(RPAREN, ")")] else [];
    var t1, k1 := if typ == Untyped then "" else " " + TypeText(typ), if typ == Untyped then [] else [TypeToken(typ)];
    LexDefault(default, s);
    assert (t3 + end)[0] == ' ' || (t3 + end)[0] == '\n';
    LexOptions(typ, options, t3 + end);
    assert (t2 + (t3 + end))[0] in {' ', '\n', '('};
    LexType(typ, t2 + (t3 + end));
    assert (t1 + (t2 + (t3 + end)))[0] in {' ', '\n', '('};
    LexName(name, t1 + (t2 + (t3 + end)));
    ConfigPieces(name, t1, k1, t2, k2, t3, k3, s);
  }

  lemma ConfigPieces(name: string, t1: string, k1: seq<Token>, t2: string, k2: seq<Token>, t3: string, k3: seq<Token>, s: string)
    requires var end := "\n" + s;
      && Lexes(name, [IdentToken(name)], t1 + (t2 + (t3 + end)), t1 + (t2 + (t3 + end)))
      && Lexes(t1, k1, t2 + (t3 + end), t2 + (t3 + end)) && Lexes(t2, k2, t3 + end, t3 + end) && Lexes(t3, k3, end, end)
    ensures Lexes("CONFIG " + name + t1 + t2 + t3, [Token(KW_CONFIG, "CONFIG"), IdentToken(name)] + k1 + k2 + k3 + [NL],
                  "\n" + s, s)
  {
    hide Lex, LookupIdent;
    var end := "\n" + s;
    Glue(name, [IdentToken(name)], t1, k1, t2 + (t3 + end), t2 + (t3 + end));
    Bracket(name + t1, [IdentToken(name)] + k1, t2, k2, t3, k3, end);
    var text, tokens := name + t1 + t2 + t3, [IdentToken(name)] + k1 + k2 + k3;
    LexEnd(text, tokens, s);
    LexDeclaration("CONFIG", text, tokens + [NL], end, s);
    assert "CONFIG" + " " == "CONFIG ";
    assert "CONFIG " + name + t1 + t2 + t3 == "CONFIG " + text;
    assert [Token(KW_CONFIG, "CONFIG"), IdentToken(name)] + k1 + k2 + k3 + [NL] == [Token(KW_CONFIG, "CONFIG")] + (tokens + [NL]);
  }

  lemma LexEnvTail(name: string, tail: string, tokens: seq<Token>, s: string)
    requires IsName(name) && tail != "" && tail[0] == ' ' && Lexes(tail, tokens, "\n" + s, s)
    ensures Lexes("ENV " + name + tail, [Token(KW_ENV, "ENV"), IdentToken(name)] + tokens, "\n" + s, s)
  {
    hide Lex, LookupIdent;
    assert (tail + ("\n" + s))[0] == ' ';
    LexName(name, tail + ("\n" + s));
    Glue(name, [IdentToken(name)], tail, tokens, "\n" + s, s);
    LexDeclaration("ENV", name + tail, [IdentToken(name)] + tokens, "\n" + s, s);
    assert "ENV" + " " == "ENV ";
    ConcatAssociates("ENV ", name, tail);
    assert [Token(KW_ENV, "ENV"), IdentToken(name)] + tokens == [Token(KW_ENV, "ENV")] + ([IdentToken(name)] + tokens);
  }

  lemma LexSpacedDeclarationKeyword(w: string, s: string)
    requires w in DECLARATION_KEYWORDS && Breaks(s)
    ensures Lexes(" " + w, [Token(DECLARATION_KEYWORDS[w], w)], s, s)
  {
    hide Lex, LookupIdent;
    LexDeclarationKeyword(w, s);
    LexSpace(w + s);
    ConcatAssociates(" ", w, s);
  }

  lemma LexEnvSource(secret: bool, optional: bool, s: string)
    ensures Lexes((if secret then " SECRET" else " TEXT") + (if optional then " OPTIONAL" else ""),
                  [if secret then Token(KW_SECRET, "SECRET") else Token(KW_TEXT, "TEXT")] +
                  (if optional then [Token(KW_OPTIONAL, "OPTIONAL")] else []) + [NL], "\n" + s, s)
  {
    hide Lex, LookupIdent;
    var end := "\n" + s;
    var text, token := if secret then " SECRET" else " TEXT", if secret then Token(KW_SECRET, "SECRET") else Token(KW_TEXT, "TEXT");
    var tail := if optional then " OPTIONAL" else "";
    var tailTokens := if optional then [Token(KW_OPTIONAL, "OPTIONAL")] else [];
    if optional {
      LexSpacedDeclarationKeyword("OPTIONAL", end);
      assert " " + "OPTIONAL" == " OPTIONAL";
      assert (tail + end)[0] == ' ';
    } else {
      assert "" + end == end;
    }
    SourceKeyword(secret, tail + end);
    hide DECLARATION_KEYWORDS;
    Glue(text, [token], tail, tailTokens, end, end);
    LexEnd(text + tail, [token] + tailTokens, s);
  }

  lemma SourceKeyword(secret: bool, s: string)
    requires Breaks(s)
    ensures Lexes(if secret then " SECRET" else " TEXT",
                  [if secret then Token(KW_SECRET, "SECRET") else Token(KW_TEXT, "TEXT")], s, s)
  {
    hide Lex, LookupIdent;
    if secret {
      LexSpacedDeclarationKeyword("SECRET", s);
      assert " " + "SECRET" == " SECRET";
    } else {
      LexSpacedDeclarationKeyword("TEXT", s);
      assert " " + "TEXT" == " TEXT";
    }
  }

  lemma LexEnvExpr(e: Expr, guard: Option<Expr>, s: string)
    requires Printable(e, guard.None?) && PrintableGuard(guard)
    ensures Lexes(" = " + ExprText(e) + WhenText(guard),
                  [Token(ASSIGN, "=")] + ExprTokens(e) + GuardTokens(guard) +
                  (if guard.Some? then LineEnd(guard.value) else LineEnd(e)), "\n" + s, s)
  {
    hide Lex, LookupIdent, ExprText, ExprTokens, LineEnd;
    var text, tokens := ExprText(e), ExprTokens(e);
    var assign := [Token(ASSIGN, "=")];
    if guard.None? {
      LexLineEnd(e, s);
      LexSpacedEquals(text + ("\n" + s));
      Glue(" = ", assign, text, tokens + LineEnd(e), "\n" + s, s);
      assert " = " + text + "" == " = " + text;
      assert assign + tokens + [] + LineEnd(e) == assign + (tokens + LineEnd(e));
    } else {
      var tail := WhenText(guard) + ("\n" + s);
      LexGuardEnd(guard, s);
      assert tail[0] == ' ';
      InnerHasNoHeredocEnd(e);
      LexExpr(e, false, tail);
      LexSpacedEquals(text + tail);
      hide WhenText, GuardTokens;
      Glue(" = ", assign, text, tokens, tail, tail);
      Glue(" = " + text, assign + tokens, WhenText(guard), GuardTokens(guard) + LineEnd(guard.value), "\n" + s, s);
      ConcatAssociates(assign + tokens, GuardTokens(guard), LineEnd(guard.value));
    }
  }

  lemma LexEnv(d: Decl, s: string)
    requires d.EnvDecl? && PrintableDecl(d)
    ensures Lexes(DeclText(d), DeclTokens(d), "\n" + s, s)
  {
    hide Lex, LookupIdent, ExprText, ExprTokens, LineEnd, QuoteString, WhenText, GuardTokens;
    var EnvDecl(name, source, value, valueExpr, guard, optional) := d;
    if source != Fixed {
      LexEnvSource(source == SecretSource, optional, s);
      var tail := (if source == SecretSource then " SECRET" else " TEXT") + (if optional then " OPTIONAL" else "");
      assert tail[0] == ' ';
      LexEnvTail(name, tail, [if source == SecretSource then Token(KW_SECRET, "SECRET") else Token(KW_TEXT, "TEXT")] +
        (if optional then [Token(KW_OPTIONAL, "OPTIONAL")] else []) + [NL], s);
    } else if valueExpr.Some? {
      LexEnvExpr(valueExpr.value, guard, s);
      var tail := " = " + ExprText(valueExpr.value) + WhenText(guard);
      assert tail[0] == ' ';
      LexEnvTail(name, tail, [Token(ASSIGN, "=")] + ExprTokens(valueExpr.value) + GuardTokens(guard) +
        (if guard.Some? then LineEnd(guard.value) else LineEnd(valueExpr.value)), s);
    } else {
      LexQuoted(value, "\n" + s);
      LexSpacedEquals(QuoteString(value) + ("\n" + s));
      Glue(" = ", [Token(ASSIGN, "=")], QuoteString(value), [StringToken(value)], "\n" + s, "\n" + s);
      LexEnd(" = " + QuoteString(value), [Token(ASSIGN, "=")] + [StringToken(value)], s);
      LexEnvTail(name, " = " + QuoteString(value), [Token(ASSIGN, "=")] + [StringToken(value)] + [NL], s);
      assert [Token(ASSIGN, "=")] + [StringToken(value)] + [NL] == [Token(ASSIGN, "="), StringToken(value), NL];
    }
  }

  // ---------------------------------------------------------------- MCP, SETUP, REMOVE, MODE, CAPABILITY

  lemma FormatIsName()
    ensures IsName("FORMAT")
  {
    PlainName("FORMAT");
  }

  lemma LexMcp(d: Decl, s: string)
    requires d.McpDecl? && PrintableDecl(d)
    ensures Lexes(DeclText(d), DeclTokens(d), "\n" + s, s)
  {
    hide Lex, LookupIdent;
    var end := "\n" + s;
    if d.enabled && d.format != "" {
      LexFormat(d.format, end);
      LexSwitch(true, " FORMAT " + d.format, [IdentToken("FORMAT"), IdentToken(d.format)], s);
    } else {
      assert "" + end == end;
      LexSwitch(d.enabled, "", [], s);
      assert "MCP OFF" + "" == "MCP OFF";
      assert [Token(KW_MCP, "MCP"), Token(KW_OFF, "OFF")] + [] == [Token(KW_MCP, "MCP"), Token(KW_OFF, "OFF")];
    }
  }

  lemma LexFormat(format: string, s: string)
    requires IsName(format) && Breaks(s)
    ensures Lexes(" FORMAT " + format, [IdentToken("FORMAT"), IdentToken(format)], s, s)
  {
    FormatIsName();
    hide Lex, LookupIdent;
    LexName(format, s);
    LexName("FORMAT", " " + (format + s));
    GlueSpace("FORMAT", [IdentToken("FORMAT")], format + s);
    LexSpace("FORMAT " + (format + s));
    assert "FORMAT" + " " == "FORMAT ";
    assert " FORMAT " + (format + s) == " " + ("FORMAT " + (format + s));
    Glue(" FORMAT ", [IdentToken("FORMAT")], format, [IdentToken(format)], s, s);
    assert [IdentToken("FORMAT")] + [IdentToken(format)] == [IdentToken("FORMAT"), IdentToken(format)];
  }

  lemma LexSwitch(on: bool, tail: string, tokens: seq<Token>, s: string)
    requires (tail == "" || tail[0] == ' ') && Lexes(tail, tokens, "\n" + s, "\n" + s)
    ensures Lexes((if on then "MCP ON" else "MCP OFF") + tail,
                  [Token(KW_MCP, "MCP"), if on then Token(KW_ON, "ON") else Token(KW_OFF, "OFF")] + tokens + [NL], "\n" + s, s)
  {
    hide Lex, LookupIdent;
    var end := "\n" + s;
    var word, token := if on then "ON" else "OFF", if on then Token(KW_ON, "ON") else Token(KW_OFF, "OFF");
    assert Breaks(tail + end);
    SwitchKeyword(on, tail + end);
    Glue(word, [token], tail, tokens, end, end);
    LexEnd(word + tail, [token] + tokens, s);
    LexDeclaration("MCP", word + tail, [token] + tokens + [NL], end, s);
    hide DECLARATION_KEYWORDS;
    assert "MCP" + " " + "ON" == "MCP ON" && "MCP" + " " + "OFF" == "MCP OFF";
    assert "MCP" + " " + (word + tail) == "MCP" + " " + word + tail;
    assert [Token(KW_MCP, "MCP")] + ([token] + tokens + [NL]) == [Token(KW_MCP, "MCP"), token] + tokens + [NL];
  }

  lemma SwitchKeyword(on: bool, s: string)
    requires Breaks(s)
    ensures Lexes(if on then "ON" else "OFF", [if on then Token(KW_ON, "ON") else Token(KW_OFF, "OFF")], s, s)
  {
    hide Lex, LookupIdent;
    if on { LexDeclarationKeyword("ON", s); } else { LexDeclarationKeyword("OFF", s); }
  }

  lemma TimeoutIsName()
    ensures IsName("timeout")
  {
    PlainName("timeout");
  }

  lemma LexTimeout(timeout: int, s: string)
    requires timeout >= 0
    ensures Lexes(if timeout == 300 then "" else "timeout=" + DecimalText(timeout) + " ",
                  if timeout == 300 then []
                  else [IdentToken("timeout"), Token(ASSIGN, "="), Token(NUMBER, DecimalText(timeout))], s, s)
  {
    TimeoutIsName();
    hide Lex, LookupIdent;
    var n := DecimalText(timeout);
    if timeout == 300 {
      assert "" + s == s;
    } else {
      LexDecimal(timeout, " " + s);
      assert (n + (" " + s))[0] != '=';
      LexPunctuation('=', n + (" " + s));
      LexName("timeout", "=" + (n + (" " + s)));
      hide DecimalText;
      Bracket("timeout", [IdentToken("timeout")], "=", [Token(ASSIGN, "=")], n, [Token(NUMBER, n)], " " + s);
      assert "timeout" + "=" == "timeout=";
      var tokens := [IdentToken("timeout")] + [Token(ASSIGN, "=")] + [Token(NUMBER, n)];
      GlueSpace("timeout=" + n, tokens, s);
      assert tokens == [IdentToken("timeout"), Token(ASSIGN, "="), Token(NUMBER, n)];
    }
  }

  lemma LexSetup(d: Decl, s: string)
    requires d.SetupDecl? && PrintableDecl(d)
    ensures Lexes(DeclText(d), DeclTokens(d), "\n" + s, s)
  {
    hide Lex, LookupIdent, DecimalText, ChooseMarker, HeredocText;
    var head := if d.timeout == 300 then "" else "timeout=" + DecimalText(d.timeout) + " ";
    var tokens := if d.timeout == 300 then []
      else [IdentToken("timeout"), Token(ASSIGN, "="), Token(NUMBER, DecimalText(d.timeout))];
    var heredoc := HeredocText(d.script);
    LexHeredoc(d.script, s);
    LexTimeout(d.timeout, heredoc + ("\n" + s));
    hide HeredocTokens;
    HeredocTokensOf(d.script);
    Glue(head, tokens, heredoc, HeredocTokens(d.script), "\n" + s, s);
    LexDeclaration("SETUP", head + heredoc, tokens + HeredocTokens(d.script), "\n" + s, s);
    SetupText(d.timeout, head, heredoc);
    ConcatAssociates([Token(KW_SETUP, "SETUP")], tokens, HeredocTokens(d.script));
  }

  lemma HeredocTokensOf(content: string)
    requires !EndsInNewline(content)
    ensures HeredocTokens(content) ==
      [Token(HEREDOC_START, ChooseMarker(content)), Token(HEREDOC_BODY, TrimNewlines(content))]
  {
    hide ChooseMarker;
  }

  lemma SetupText(timeout: int, head: string, heredoc: string)
    requires head == if timeout == 300 then "" else "timeout=" + DecimalText(timeout) + " "
    ensures "SETUP" + " " + (head + heredoc) ==
      "SETUP" + (if timeout == 300 then "" else " timeout=" + DecimalText(timeout)) + " " + heredoc
  {
    hide DecimalText;
    var n := DecimalText(timeout);
    if timeout == 300 {
      assert "" + heredoc == heredoc;
      assert "SETUP" + "" == "SETUP";
    } else {
      assert " timeout=" + n == " " + ("timeout=" + n);
      assert "SETUP" + " " + ("timeout=" + n + " " + heredoc) == "SETUP" + (" " + ("timeout=" + n)) + " " + heredoc;
    }
  }

  lemma TargetKeywords()
    ensures "ENV" in DECLARATION_KEYWORDS && DECLARATION_KEYWORDS["ENV"] == KW_ENV
    ensures "SKILLS" in DECLARATION_KEYWORDS && DECLARATION_KEYWORDS["SKILLS"] == KW_SKILLS
    ensures "CONFIG" in DECLARATION_KEYWORDS && DECLARATION_KEYWORDS["CONFIG"] == KW_CONFIG
  {}

  lemma BuildTargetKeywords()
    ensures "arg" in BUILD_KEYWORDS && BUILD_KEYWORDS["arg"] == KW_ARG
    ensures "file" in BUILD_KEYWORDS && BUILD_KEYWORDS["file"] == KW_FILE
  {}

  lemma LexTarget(target: RemoveTarget, s: string)
    requires target != NoTarget && Breaks(s)
    ensures Lexes(TargetText(target), [TargetToken(target)], s, s)
  {
    TargetKeywords();
    BuildTargetKeywords();
    hide Lex, LookupIdent, DECLARATION_KEYWORDS, BUILD_KEYWORDS;
    match target
    case RemoveEnv => LexDeclarationKeyword("ENV", s);
    case RemoveSkills => LexDeclarationKeyword("SKILLS", s);
    case RemoveConfig => LexDeclarationKeyword("CONFIG", s);
    case RemoveArg => LexBuildKeyword("arg", s);
    case RemoveFile => LexBuildKeyword("file", s);
  }

  lemma LexRemove(d: Decl, s: string)
    requires d.RemoveDecl? && PrintableDecl(d)
    ensures Lexes(DeclText(d), DeclTokens(d), "\n" + s, s)
  {
    hide Lex, LookupIdent, QuoteString, TargetText, TargetToken;
    var end, name := "\n" + s, QuoteString(d.name);
    LexQuoted(d.name, end);
    LexTarget(d.target, " " + (name + end));
    GlueSpace(TargetText(d.target), [TargetToken(d.target)], name + end);
    Glue(TargetText(d.target) + " ", [TargetToken(d.target)], name, [StringToken(d.name)], end, end);
    var text, tokens := TargetText(d.target) + " " + name, [TargetToken(d.target)] + [StringToken(d.name)];
    LexEnd(text, tokens, s);
    LexDeclaration("REMOVE", text, tokens + [NL], end, s);
    assert "REMOVE" + " " == "REMOVE ";
    assert DeclText(d) == "REMOVE " + text;
    assert DeclTokens(d) == [Token(KW_REMOVE, "REMOVE")] + (tokens + [NL]);
  }

  lemma ModeIsName(mode: string)
    requires mode == "pty" || mode == "acp"
    ensures IsName(mode)
  {
    PlainName(mode);
  }

  lemma LexModeLine(mode: string, s: string)
    requires IsName(mode)
    ensures Lexes("MODE " + mode, [Token(KW_MODE, "MODE"), IdentToken(mode), NL], "\n" + s, s)
  {
    hide Lex, LookupIdent;
    assert "MODE" + " " == "MODE ";
    LexName(mode, "\n" + s);
    LexLine("MODE", mode, IdentToken(mode), s);
  }

  lemma LexModeArgs(mode: string, args: string, tokens: seq<Token>, s: string)
    requires IsName(mode)
    requires Breaks(args + ("\n" + s)) && Lexes(args, tokens, "\n" + s, "\n" + s)
    ensures Lexes("MODE " + mode + args, [Token(KW_MODE, "MODE"), IdentToken(mode)] + tokens + [NL], "\n" + s, s)
  {
    hide Lex, LookupIdent;
    var end := "\n" + s;
    assert "MODE" + " " == "MODE ";
    LexName(mode, args + end);
    Glue(mode, [IdentToken(mode)], args, tokens, end, end);
    LexListLine("MODE", mode + args, [IdentToken(mode)] + tokens, s);
    ConcatAssociates("MODE ", mode, args);
    assert [Token(KW_MODE, "MODE"), IdentToken(mode)] + tokens == [Token(KW_MODE, "MODE")] + ([IdentToken(mode)] + tokens);
  }

  lemma LexMode(d: Decl, s: string)
    requires (d.ModeDecl? || d.ModeArgsDecl?) && PrintableDecl(d)
    ensures Lexes(DeclText(d), DeclTokens(d), "\n" + s, s)
  {
    ModeIsName(d.mode);
    hide Lex, LookupIdent, QuotedArgs, StringTokens, Lexes, IsName;
    if d.ModeDecl? {
      LexModeLine(d.mode, s);
    } else {
      LexQuotedArgs(d.args, "\n" + s);
      ArgsBreak(d.args, "\n" + s);
      LexModeArgs(d.mode, QuotedArgs(d.args), StringTokens(d.args), s);
    }
  }

  lemma ArgsBreak(args: seq<string>, s: string)
    requires Breaks(s)
    ensures Breaks(QuotedArgs(args) + s)
  {
    if args == [] {
      assert "" + s == s;
    } else {
      assert (QuotedArgs(args) + s)[0] == ' ';
    }
  }

  lemma CapabilityParts(d: Decl)
    requires d.CapabilityDecl?
    ensures DeclText(d) == "CAPABILITY" + " " + (d.axis + " " + d.capability)
    ensures DeclTokens(d) == [Token(KW_CAPABILITY, "CAPABILITY")] + ([IdentToken(d.axis)] + CapabilityTokens(d.axis, d.capability) + [NL])
  {
    hide CapabilityTokens;
    assert "CAPABILITY" + " " == "CAPABILITY ";
  }

  lemma LexCapability(d: Decl, s: string)
    requires d.CapabilityDecl? && PrintableDecl(d)
    ensures Lexes(DeclText(d), DeclTokens(d), "\n" + s, s)
  {
    hide Lex, LookupIdent, ValidCapability, ControlTokens, DeclText, DeclTokens;
    var CapabilityDecl(axis, value) := d;
    var end := "\n" + s;
    if axis == "control" { LexControl(value, end); } else { LexWord(value, end); }
    LexName(axis, " " + (value + end));
    GlueSpace(axis, [IdentToken(axis)], value + end);
    hide CapabilityTokens;
    assert Lexes(value, CapabilityTokens(axis, value), end, end) by { CapabilityTokensOf(axis, value); }
    hide Lexes, IsWord, ToLower, PiecesOf;
    Glue(axis + " ", [IdentToken(axis)], value, CapabilityTokens(axis, value), end, end);
    var text, tokens := axis + " " + value, [IdentToken(axis)] + CapabilityTokens(axis, value);
    LexEnd(text, tokens, s);
    LexDeclaration("CAPABILITY", text, tokens + [NL], end, s);
    CapabilityParts(d);
  }

  lemma CapabilityTokensOf(axis: string, value: string)
    ensures CapabilityTokens(axis, value) ==
      if axis == "control" then ControlTokens(value) else [Token(LookupIdent(value), value)]
  {}

  lemma LexListLine(w: string, text: string, tokens: seq<Token>, s: string)
    requires w in DECLARATION_KEYWORDS && Lexes(text, tokens, "\n" + s, "\n" + s)
    ensures Lexes(w + " " + text, [Token(DECLARATION_KEYWORDS[w], w)] + tokens + [NL], "\n" + s, s)
  {
    hide Lex, LookupIdent;
    LexEnd(text, tokens, s);
    LexDeclaration(w, text, tokens + [NL], "\n" + s, s);
    hide DECLARATION_KEYWORDS;
    ConcatAssociates([Token(DECLARATION_KEYWORDS[w], w)], tokens, [NL]);
  }

  // ---------------------------------------------------------------- programs

  lemma NamedDeclParts(d: Decl)
    ensures d.AgentDecl? ==> DeclText(d) == "AGENT" + " " + QuoteIfNeeded(d.command)
    ensures d.AgentDecl? ==> DeclTokens(d) == [Token(KW_AGENT, "AGENT"), NameToken(d.command), NL]
    ensures d.ExecutableDecl? ==> DeclText(d) == "EXECUTABLE" + " " + QuoteIfNeeded(d.name)
    ensures d.ExecutableDecl? ==> DeclTokens(d) == [Token(KW_EXECUTABLE, "EXECUTABLE"), NameToken(d.name), NL]
    ensures d.UseEnvBundleDecl? ==> DeclText(d) == "USE_ENV_BUNDLE" + " " + QuoteIfNeeded(d.name)
    ensures d.UseEnvBundleDecl? ==> DeclTokens(d) == [Token(KW_USE_ENV_BUNDLE, "USE_ENV_BUNDLE"), NameToken(d.name), NL]
    ensures d.UseConfigBundleDecl? ==> DeclText(d) == "USE_CONFIG_BUNDLE" + " " + QuoteIfNeeded(d.name)
    ensures d.UseConfigBundleDecl? ==>
      DeclTokens(d) == [Token(KW_USE_CONFIG_BUNDLE, "USE_CONFIG_BUNDLE"), NameToken(d.name), NL]
  {
    hide QuoteIfNeeded, NameToken;
    assert "AGENT" + " " == "AGENT " && "EXECUTABLE" + " " == "EXECUTABLE ";
    assert "USE_ENV_BUNDLE" + " " == "USE_ENV_BUNDLE " && "USE_CONFIG_BUNDLE" + " " == "USE_CONFIG_BUNDLE ";
  }

  lemma LexNamedDecl(d: Decl, s: string)
    requires d.AgentDecl? || d.ExecutableDecl? || d.UseEnvBundleDecl? || d.UseConfigBundleDecl?
    requires PrintableDecl(d)
    ensures Lexes(DeclText(d), DeclTokens(d), "\n" + s, s)
  {
    NamedDeclParts(d);
    hide Lexes, QuoteIfNeeded, NameToken, DeclText, DeclTokens, IsBare, IsName;
    match d
    case AgentDecl(command) => LexNamedLine("AGENT", command, s);
    case ExecutableDecl(name) => LexNamedLine("EXECUTABLE", name, s);
    case UseEnvBundleDecl(name) => LexNamedLine("USE_ENV_BUNDLE", name, s);
    case UseConfigBundleDecl(name) => LexNamedLine("USE_CONFIG_BUNDLE", name, s);
  }

  /** The text and the tokens of the declarations that are a keyword and one more thing. */
  lemma ExprDeclParts(d: Decl)
    ensures d.RepoDecl? ==> DeclText(d) == "REPO" + " " + ExprText(d.repo)
    ensures d.RepoDecl? ==> DeclTokens(d) == [Token(KW_REPO, "REPO")] + ExprTokens(d.repo) + LineEnd(d.repo)
    ensures d.BranchDecl? ==> DeclText(d) == "BRANCH" + " " + ExprText(d.branch)
    ensures d.BranchDecl? ==> DeclTokens(d) == [Token(KW_BRANCH, "BRANCH")] + ExprTokens(d.branch) + LineEnd(d.branch)
  {
    hide ExprText, ExprTokens, LineEnd;
    assert "REPO" + " " == "REPO " && "BRANCH" + " " == "BRANCH ";
  }

  lemma LexExprDecl(d: Decl, s: string)
    requires d.RepoDecl? || d.BranchDecl?
    requires PrintableDecl(d)
    ensures Lexes(DeclText(d), DeclTokens(d), "\n" + s, s)
  {
    ExprDeclParts(d);
    hide Lexes, ExprText, ExprTokens, LineEnd, DeclText, DeclTokens, Printable;
    match d
    case RepoDecl(repo) => LexExprLine("REPO", repo, s);
    case BranchDecl(branch) => LexExprLine("BRANCH", branch, s);
  }

  lemma OtherDeclParts(d: Decl)
    ensures d.GitCredentialDecl? ==> DeclText(d) == "GIT_CREDENTIAL" + " " + d.credential
    ensures d.GitCredentialDecl? ==> DeclTokens(d) == [Token(KW_GIT_CREDENTIAL, "GIT_CREDENTIAL"), IdentToken(d.credential), NL]
    ensures d.PromptDecl? ==> DeclText(d) == "PROMPT" + " " + GoQuote(d.prompt)
    ensures d.PromptDecl? ==> DeclTokens(d) == [Token(KW_PROMPT, "PROMPT"), StringToken(d.prompt), NL]
    ensures d.PromptPositionDecl? ==> DeclText(d) == "PROMPT_POSITION" + " " + d.position
    ensures d.PromptPositionDecl? ==>
      DeclTokens(d) == [Token(KW_PROMPT_POSITION, "PROMPT_POSITION"), PositionToken(d.position), NL]
  {
    hide GoQuote, PositionToken;
    assert "GIT_CREDENTIAL" + " " == "GIT_CREDENTIAL " && "PROMPT" + " " == "PROMPT ";
    assert "PROMPT_POSITION" + " " == "PROMPT_POSITION ";
  }

  lemma LexOtherDecl(d: Decl, s: string)
    requires d.GitCredentialDecl? || d.PromptDecl? || d.PromptPositionDecl?
    requires PrintableDecl(d)
    ensures Lexes(DeclText(d), DeclTokens(d), "\n" + s, s)
  {
    OtherDeclParts(d);
    hide Lexes, LookupIdent, GoQuote, DeclText, DeclTokens, PrintableText, IsWord;
    match d
    case GitCredentialDecl(credential) => LexWordLine("GIT_CREDENTIAL", credential, s);
    case PromptDecl(prompt) =>
      LexGoQuoted(prompt, "\n" + s);
      LexLine("PROMPT", GoQuote(prompt), StringToken(prompt), s);
    case PromptPositionDecl(position) => LexWordLine("PROMPT_POSITION", position, s);
  }

  lemma LexListDecl(d: Decl, s: string)
    requires d.SkillsDecl? || d.KnowledgeDecl?
    requires PrintableDecl(d)
    ensures Lexes(DeclText(d), DeclTokens(d), "\n" + s, s)
  {
    hide Lex, LookupIdent, SlugList, SlugTokens, MountList, MountListTokens;
    match d
    case SkillsDecl(slugs) =>
      LexSlugList(slugs, "\n" + s);
      LexListLine("SKILLS", SlugList(slugs), SlugTokens(slugs), s);
      assert "SKILLS" + " " == "SKILLS ";
    case KnowledgeDecl(mounts) =>
      LexMountList(mounts, "\n" + s);
      LexListLine("KNOWLEDGE", MountList(mounts), MountListTokens(mounts), s);
      assert "KNOWLEDGE" + " " == "KNOWLEDGE ";
  }

  lemma LexDecl(d: Decl, s: string)
    requires PrintableDecl(d)
    ensures Lexes(DeclText(d), DeclTokens(d), "\n" + s, s)
  {
    hide Lex, LookupIdent, DeclText, DeclTokens, Lexes;
    match d
    case ConfigDecl(_, _, _, _) => LexConfig(d, s);
    case EnvDecl(_, _, _, _, _, _) => LexEnv(d, s);
    case McpDecl(_, _) => LexMcp(d, s);
    case SetupDecl(_, _) => LexSetup(d, s);
    case RemoveDecl(_, _) => LexRemove(d, s);
    case ModeDecl(_) => LexMode(d, s);
    case ModeArgsDecl(_, _) => LexMode(d, s);
    case CapabilityDecl(_, _) => LexCapability(d, s);
    case SkillsDecl(_) => LexListDecl(d, s);
    case KnowledgeDecl(_) => LexListDecl(d, s);
    case AgentDecl(_) => LexNamedDecl(d, s);
    case ExecutableDecl(_) => LexNamedDecl(d, s);
    case UseEnvBundleDecl(_) => LexNamedDecl(d, s);
    case UseConfigBundleDecl(_) => LexNamedDecl(d, s);
    case RepoDecl(_) => LexExprDecl(d, s);
    case BranchDecl(_) => LexExprDecl(d, s);
    case _ => LexOtherDecl(d, s);
  }

  function DeclLinesTokens(ds: seq<Decl>): seq<Token> {
    if ds == [] then [] else DeclTokens(ds[0]) + DeclLinesTokens(ds[1..])
  }

  lemma {:induction false} LexDecls(ds: seq<Decl>, s: string)
    requires forall d | d in ds :: PrintableDecl(d)
    ensures Lexes(DeclLines(ds), DeclLinesTokens(ds), s, s)
  {
    hide Lex, LookupIdent, DeclText, DeclTokens, PrintableDecl;
    if ds == [] {
      assert "" + s == s;
    } else {
      var more := DeclLines(ds[1..]) + s;
      LexDecls(ds[1..], s);
      LexDecl(ds[0], more);
      ConcatAssociates(DeclText(ds[0]), "\n", more);
      Glue(DeclText(ds[0]) + "\n", DeclTokens(ds[0]), DeclLines(ds[1..]), DeclLinesTokens(ds[1..]), s, s);
    }
  }

  function ProgramTokens(p: Program): seq<Token> {
    DeclLinesTokens(p.declarations) + LinesTokens(p.statements)
  }

  /** The text of a printable program lexes into its tokens and one final EOF, with nothing illegal. */
  lemma LexProgram(p: Program)
    requires PrintableProgram(p)
    ensures Lex(ProgramText(p)) == ProgramTokens(p) + [Token(EOF, "")]
  {
    hide Scan, LookupIdent, DeclLines, LinesText, DeclLinesTokens, LinesTokens, PrintableDecl, PrintableStmt;
    var statements := LinesText(p.statements, 0);
    LexStmts(p.statements, 0, "");
    LexDecls(p.declarations, statements + "");
    assert statements + "" == statements;
    assert Lex("") == [Token(EOF, "")];
    hide Lex;
    ConcatAssociates(DeclLinesTokens(p.declarations), LinesTokens(p.statements), Lex(""));
  }
}
