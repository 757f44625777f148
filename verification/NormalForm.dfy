/** Exactly which programs survive serializing and parsing, and when parsing again changes nothing. */
module NormalForm {
  import opened Text
  import opened Tokens
  import opened Ast
  import opened PrintSpec
  import opened PrintTokens
  import opened LexWords
  import opened LexPrinted
  import opened LexLines
  import opened LexDecls
  import opened ParseSpec
  import opened Levels
  import opened Closure
  import opened CloseDecls
  import LexFacts
  import Keywords
  import opened ParseDecls
  import LexSpec
  import RoundTrip

  // ---------------------------------------------------------------- the printer emits no grouping parentheses

  /** Ungrouped wherever it stands. */
  ghost predicate Safe(ts: seq<Token>) {
    && Ungrouped(ts)
    && (ts != [] ==> ts[0].typ != LPAREN && ts[|ts| - 1].typ != DOT)
  }

  lemma SafeConcat(a: seq<Token>, b: seq<Token>)
    requires Safe(a) && Safe(b)
    ensures Safe(a + b)
  {
    var ts := a + b;
    forall i | 0 < i < |ts| && ts[i].typ == LPAREN
      ensures OpensList(ts, i)
    {
      if i < |a| {
        assert OpensList(a, i);
      } else if i > |a| {
        assert OpensList(b, i - |a|);
      }
    }
  }

  lemma SafeOne(t: Token)
    requires t.typ != LPAREN && t.typ != DOT
    ensures Safe([t])
  {}

  lemma SafeOpen(t: Token)
    requires t.typ == IDENT || t.typ == KW_SELECT
    ensures Safe([t, Token(LPAREN, "(")])
  {}

  lemma SafeDot(f: string)
    ensures Safe([Token(DOT, "."), IdentToken(f)])
  {}

  lemma SafeThree(a: seq<Token>, b: seq<Token>, c: seq<Token>)
    requires Safe(a) && Safe(b) && Safe(c)
    ensures Safe(a + b + c)
  {
    hide Safe;
    SafeConcat(a, b);
    SafeConcat(a + b, c);
  }

  lemma {:induction false} ExprIsSafe(e: Expr)
    ensures Safe(ExprTokens(e))
    decreases e, 1
  {
    hide Safe;
    match e
    case Dot(l, f) =>
      ExprIsSafe(l);
      SafeDot(f);
      SafeConcat(ExprTokens(l), [Token(DOT, "."), IdentToken(f)]);
    case Binary(l, op, r) =>
      ExprIsSafe(l);
      ExprIsSafe(r);
      SafeOne(OpToken(op));
      SafeThree(ExprTokens(l), [OpToken(op)], ExprTokens(r));
    case Not(x) =>
      ExprIsSafe(x);
      SafeOne(Token(KW_NOT, "not"));
      SafeConcat([Token(KW_NOT, "not")], ExprTokens(x));
    case Call(f, args) =>
      ListIsSafe(args);
      SafeOpen(IdentToken(f));
      SafeOne(Token(RPAREN, ")"));
      SafeThree([IdentToken(f), Token(LPAREN, "(")], ListTokens(args), [Token(RPAREN, ")")]);
    case ObjectLit(fields) =>
      FieldsAreSafe(fields);
      SafeOne(Token(LBRACE, "{"));
      SafeOne(Token(RBRACE, "}"));
      SafeThree([Token(LBRACE, "{")], FieldTokens(fields), [Token(RBRACE, "}")]);
    case ListLit(elements) =>
      ListIsSafe(elements);
      SafeOne(Token(LBRACKET, "["));
      SafeOne(Token(RBRACKET, "]"));
      SafeThree([Token(LBRACKET, "[")], ListTokens(elements), [Token(RBRACKET, "]")]);
    case Heredoc(content) => HeredocIsSafe(content);
    case StringLit(s) => SafeOne(StringToken(s));
    case NumberLit(n) => SafeOne(Token(NUMBER, n));
    case BoolLit(b) => SafeOne(BoolToken(b));
    case Ident(n) => SafeOne(IdentToken(n));
  }

  lemma HeredocIsSafe(content: string)
    ensures Safe(HeredocTokens(content))
  {
    hide ChooseMarker;
  }

  lemma SafeNone()
    ensures Safe([])
  {}

  lemma {:induction false} ListIsSafe(es: seq<Expr>)
    ensures Safe(ListTokens(es))
    decreases es, 0
  {
    hide Safe;
    SafeNone();
    SafeOne(COMMA_TOKEN);
    if es != [] {
      ExprIsSafe(es[0]);
      ListIsSafe(es[1..]);
      if |es| > 1 { SafeThree(ExprTokens(es[0]), [COMMA_TOKEN], ListTokens(es[1..])); }
    }
  }

  lemma {:induction false} FieldsAreSafe(fs: seq<Field>)
    ensures Safe(FieldTokens(fs))
    decreases fs, 0
  {
    hide Safe;
    SafeNone();
    SafeOne(COMMA_TOKEN);
    if fs != [] {
      var head := [IdentToken(fs[0].key), Token(COLON, ":")];
      assert Safe(head) by { SafeKey(fs[0].key); }
      ExprIsSafe(fs[0].value);
      SafeConcat(head, ExprTokens(fs[0].value));
      FieldsAreSafe(fs[1..]);
      if |fs| > 1 { SafeThree(head + ExprTokens(fs[0].value), [COMMA_TOKEN], FieldTokens(fs[1..])); }
    }
  }

  lemma SafeKey(key: string)
    ensures Safe([IdentToken(key), Token(COLON, ":")])
  {}

  /** A stream with no parenthesis and no dot at its end is safe whatever else it holds. */
  lemma SafePlain(ts: seq<Token>)
    requires forall i :: 0 <= i < |ts| ==> ts[i].typ != LPAREN && ts[i].typ != DOT
    ensures Safe(ts)
  {}

  lemma LineEndIsSafe(e: Expr)
    ensures Safe(LineEnd(e))
  {
    hide EndsInHeredoc;
  }

  lemma GuardIsSafe(guard: Option<Expr>)
    ensures Safe(GuardTokens(guard))
  {
    hide Safe;
    SafeNone();
    SafeOne(Token(KW_WHEN, "when"));
    if guard.Some? {
      ExprIsSafe(guard.value);
      SafeConcat([Token(KW_WHEN, "when")], ExprTokens(guard.value));
    }
  }

  lemma {:induction false} SpacedIsSafe(es: seq<Expr>)
    ensures Safe(SpacedTokens(es))
  {
    hide Safe;
    SafeNone();
    if es != [] {
      ExprIsSafe(es[0]);
      SpacedIsSafe(es[1..]);
      SafeConcat(ExprTokens(es[0]), SpacedTokens(es[1..]));
    }
  }

  lemma ArgIsSafe(s: Stmt)
    requires s.ArgStmt?
    ensures Safe(StmtTokens(s))
  {
    hide Safe, LineEnd, ExprTokens, GuardTokens, SpacedTokens;
    var end := if s.guard.Some? then LineEnd(s.guard.value) else [NL];
    SafeOne(NL);
    SafeOne(Token(KW_ARG, "arg"));
    if s.guard.Some? { LineEndIsSafe(s.guard.value); }
    SpacedIsSafe(s.args);
    GuardIsSafe(s.guard);
    SafeThree([Token(KW_ARG, "arg")], SpacedTokens(s.args), GuardTokens(s.guard));
    SafeConcat([Token(KW_ARG, "arg")] + SpacedTokens(s.args) + GuardTokens(s.guard), end);
  }

  lemma ModeIsSafe(mode: int)
    ensures Safe(ModeTokens(mode))
  {}

  lemma FileIsSafe(s: Stmt)
    requires s.FileStmt?
    ensures Safe(StmtTokens(s))
  {
    hide Safe, LineEnd, ExprTokens, GuardTokens, ModeTokens;
    var end := if s.guard.Some? then LineEnd(s.guard.value) else if s.mode > 0 then [NL] else LineEnd(s.content);
    SafeOne(NL);
    SafeOne(Token(KW_FILE, "file"));
    if s.guard.Some? { LineEndIsSafe(s.guard.value); }
    LineEndIsSafe(s.content);
    ExprIsSafe(s.path);
    ExprIsSafe(s.content);
    ModeIsSafe(s.mode);
    GuardIsSafe(s.guard);
    var head := [Token(KW_FILE, "file")] + ExprTokens(s.path) + ExprTokens(s.content);
    SafeThree([Token(KW_FILE, "file")], ExprTokens(s.path), ExprTokens(s.content));
    SafeThree(head, ModeTokens(s.mode), GuardTokens(s.guard));
    SafeConcat(head + ModeTokens(s.mode) + GuardTokens(s.guard), end);
  }

  lemma {:induction false} BlockIsSafe(ss: seq<Stmt>)
    ensures Safe(BlockTokens(ss))
    decreases ss, 1
  {
    hide Safe, StmtTokens;
    LinesAreSafe(ss);
    SafeBrace();
    SafeOne(Token(RBRACE, "}"));
    SafeThree([Token(LBRACE, "{"), NL], LinesTokens(ss), [Token(RBRACE, "}")]);
  }

  lemma SafeBrace()
    ensures Safe([Token(LBRACE, "{"), NL])
  {}

  lemma {:induction false} LinesAreSafe(ss: seq<Stmt>)
    ensures Safe(LinesTokens(ss))
    decreases ss, 0
  {
    hide Safe, StmtTokens;
    SafeNone();
    if ss != [] {
      StmtIsSafe(ss[0]);
      LinesAreSafe(ss[1..]);
      SafeConcat(StmtTokens(ss[0]), LinesTokens(ss[1..]));
    }
  }

  lemma {:induction false} StmtIsSafe(s: Stmt)
    ensures Safe(StmtTokens(s))
    decreases s, 1
  {
    match s
    case ArgStmt(_, _) => ArgIsSafe(s);
    case FileStmt(_, _, _, _) => FileIsSafe(s);
    case MkdirStmt(path) => hide Safe, LineEnd, ExprTokens;
      SafeOne(Token(KW_MKDIR, "mkdir"));
      ExprIsSafe(path);
      LineEndIsSafe(path);
      SafeThree([Token(KW_MKDIR, "mkdir")], ExprTokens(path), LineEnd(path));
    case AssignStmt(name, value) =>
      SafePlain([IdentToken(name), Token(ASSIGN, "=")]);
      hide Safe, LineEnd, ExprTokens;
      ExprIsSafe(value);
      LineEndIsSafe(value);
      SafeThree([IdentToken(name), Token(ASSIGN, "=")], ExprTokens(value), LineEnd(value));
    case IfStmt(condition, body, otherwise) => hide Safe, ExprTokens, BlockTokens;
      ExprIsSafe(condition);
      BlockIsSafe(body);
      BlockIsSafe(otherwise);
      IfIsSafe(s);
    case ForStmt(key, val, iter, body) => hide Safe, ExprTokens, BlockTokens;
      ExprIsSafe(iter);
      BlockIsSafe(body);
      ForIsSafe(s);
  }

  lemma IfIsSafe(s: Stmt)
    requires s.IfStmt? && Safe(ExprTokens(s.condition)) && Safe(BlockTokens(s.body)) && Safe(BlockTokens(s.otherwise))
    ensures Safe(StmtTokens(s))
  {
    hide Safe, ExprTokens, BlockTokens;
    var head := [Token(KW_IF, "if")] + ExprTokens(s.condition) + BlockTokens(s.body);
    var more := if s.otherwise == [] then [] else [Token(KW_ELSE, "else")] + BlockTokens(s.otherwise);
    SafeOne(Token(KW_IF, "if"));
    SafeOne(Token(KW_ELSE, "else"));
    SafeOne(NL);
    SafeNone();
    SafeThree([Token(KW_IF, "if")], ExprTokens(s.condition), BlockTokens(s.body));
    SafeConcat([Token(KW_ELSE, "else")], BlockTokens(s.otherwise));
    SafeThree(head, more, [NL]);
  }

  lemma ForIsSafe(s: Stmt)
    requires s.ForStmt? && Safe(ExprTokens(s.iter)) && Safe(BlockTokens(s.body))
    ensures Safe(StmtTokens(s))
  {
    hide Safe, ExprTokens, BlockTokens;
    var head, names := [Token(KW_FOR, "for"), IdentToken(s.key)], if s.val == "" then [] else [COMMA_TOKEN, IdentToken(s.val)];
    assert StmtTokens(s) == head + names + [Token(KW_IN, "in")] + ExprTokens(s.iter) + BlockTokens(s.body) + [NL];
    hide StmtTokens;
    SafePlain(head);
    SafePlain(names);
    SafeOne(Token(KW_IN, "in"));
    SafeOne(NL);
    SafeThree(head, names, [Token(KW_IN, "in")]);
    SafeThree(head + names + [Token(KW_IN, "in")], ExprTokens(s.iter), BlockTokens(s.body));
    SafeConcat(head + names + [Token(KW_IN, "in")] + ExprTokens(s.iter) + BlockTokens(s.body), [NL]);
  }

  predicate IsOpener(t: Token) { t.typ == LPAREN || t.typ == DOT }

  predicate NoOpener(ts: seq<Token>) { forall i :: 0 <= i < |ts| ==> !IsOpener(ts[i]) }

  lemma {:induction false} StringsHaveNoOpener(ss: seq<string>)
    ensures NoOpener(StringTokens(ss)) && NoOpener(QuotedTokens(ss)) && NoOpener(SlugTokens(ss))
  {
    if ss != [] { StringsHaveNoOpener(ss[1..]); }
  }

  lemma {:induction false} MountsHaveNoOpener(ms: seq<Mount>)
    ensures NoOpener(MountListTokens(ms))
  {
    if ms != [] { MountsHaveNoOpener(ms[1..]); }
  }

  lemma {:induction false} ControlHasNoOpener(v: string)
    ensures NoOpener(ControlTokens(v))
    decreases |v|
  {
    hide LookupIdent;
    var n := WordEnd(v);
    LexFacts.KeywordKinds(v[..n]);
    if n < |v| { ControlHasNoOpener(v[n + 1..]); }
  }

  lemma OptionListIsSafe(options: seq<string>)
    ensures Safe(QuotedTokens(options) + [Token(RPAREN, ")")])
  {
    StringsHaveNoOpener(options);
    hide QuotedTokens;
    SafePlain(QuotedTokens(options) + [Token(RPAREN, ")")]);
  }

  lemma SelectIsSafe(head: seq<Token>, options: seq<string>, tail: seq<Token>)
    requires Safe(head) && Safe(tail)
    ensures Safe(head + [TypeToken(Select)] + ([Token(LPAREN, "(")] + QuotedTokens(options) + [Token(RPAREN, ")")]) + tail)
  {
    var t, l, q, r := TypeToken(Select), Token(LPAREN, "("), QuotedTokens(options), [Token(RPAREN, ")")];
    OptionListIsSafe(options);
    SafeOpen(t);
    hide Safe, QuotedTokens, TypeToken;
    SafeThree(head, [t, l], q + r);
    SafeConcat(head + [t, l] + (q + r), tail);
    SelectParts(head, t, l, q, r);
  }

  lemma SelectParts(head: seq<Token>, t: Token, l: Token, q: seq<Token>, r: seq<Token>)
    ensures head + [t] + ([l] + q + r) == head + [t, l] + (q + r)
  {
    ConcatAssociates([l], q, r);
    ConcatAssociates(head + [t], [l], q + r);
    ConcatAssociates(head, [t], [l]);
    assert [t] + [l] == [t, l];
  }

  lemma ConfigParts(d: Decl)
    requires d.ConfigDecl?
    ensures var ConfigDecl(name, typ, options, default) := d;
      var listed := if typ == Select && options != []
        then [Token(LPAREN, "(")] + QuotedTokens(options) + [Token(RPAREN, ")")] else [];
      var value := if default == NoValue then [] else [Token(ASSIGN, "="), ValueToken(default)];
      DeclTokens(d) == [Token(KW_CONFIG, "CONFIG"), IdentToken(name)] + (if typ == Untyped then [] else [TypeToken(typ)]) +
        listed + value + [NL]
  {
    hide QuotedTokens, ValueToken, TypeToken;
  }

  lemma ConfigPiecesAreSafe(name: string, typ: ConfigType, default: Value)
    ensures Safe([Token(KW_CONFIG, "CONFIG"), IdentToken(name)])
    ensures Safe(if typ == Untyped then [] else [TypeToken(typ)])
    ensures Safe((if default == NoValue then [] else [Token(ASSIGN, "="), ValueToken(default)]) + [NL])
  {
    hide Safe;
    SafePlain([Token(KW_CONFIG, "CONFIG"), IdentToken(name)]);
    SafePlain(if typ == Untyped then [] else [TypeToken(typ)]);
    DefaultIsSafe(default);
  }

  lemma DefaultIsSafe(default: Value)
    ensures Safe((if default == NoValue then [] else [Token(ASSIGN, "="), ValueToken(default)]) + [NL])
  {
    SafeOne(NL);
    if default == NoValue {
      assert [] + [NL] == [NL];
    } else {
      ValueIsSafe(default);
      hide Safe, ValueToken;
      SafeConcat([Token(ASSIGN, "="), ValueToken(default)], [NL]);
    }
  }

  lemma ValueIsSafe(default: Value)
    requires default != NoValue
    ensures Safe([Token(ASSIGN, "="), ValueToken(default)])
  {
    hide DecimalText;
    SafePlain([Token(ASSIGN, "="), ValueToken(default)]);
  }

  lemma ConfigIsSafe(d: Decl)
    requires d.ConfigDecl?
    ensures Safe(DeclTokens(d))
  {
    hide DeclTokens, Safe, TypeToken, ValueToken, QuotedTokens;
    var ConfigDecl(name, typ, options, default) := d;
    var head := [Token(KW_CONFIG, "CONFIG"), IdentToken(name)];
    var typed := if typ == Untyped then [] else [TypeToken(typ)];
    var value := if default == NoValue then [] else [Token(ASSIGN, "="), ValueToken(default)];
    ConfigParts(d);
    ConfigPiecesAreSafe(name, typ, default);
    if typ == Select && options != [] {
      var listed := [Token(LPAREN, "(")] + QuotedTokens(options) + [Token(RPAREN, ")")];
      SelectIsSafe(head, options, value + [NL]);
      ConcatAssociates(head + typed + listed, value, [NL]);
    } else {
      SafeThree(head, typed, value + [NL]);
      assert head + typed + [] == head + typed;
      ConcatAssociates(head + typed, value, [NL]);
    }
  }

  lemma EnvIsSafe(d: Decl)
    requires d.EnvDecl?
    ensures Safe(DeclTokens(d))
  {
    var head := [Token(KW_ENV, "ENV"), IdentToken(d.name)];
    if d.source != Fixed || d.valueExpr.None? {
      hide ExprTokens, GuardTokens, LineEnd;
      SafePlain(DeclTokens(d));
    } else {
      var e := d.valueExpr.value;
      var end := if d.guard.Some? then LineEnd(d.guard.value) else LineEnd(e);
      SafePlain(head);
      SafeOne(Token(ASSIGN, "="));
      hide Safe, ExprTokens, GuardTokens, LineEnd;
      ExprIsSafe(e);
      GuardIsSafe(d.guard);
      LineEndIsSafe(e);
      if d.guard.Some? { LineEndIsSafe(d.guard.value); }
      SafeThree([Token(ASSIGN, "=")], ExprTokens(e), GuardTokens(d.guard));
      SafeThree(head, [Token(ASSIGN, "=")] + ExprTokens(e) + GuardTokens(d.guard), end);
      assert DeclTokens(d) == head + ([Token(ASSIGN, "=")] + ExprTokens(e) + GuardTokens(d.guard) + end);
      ConcatAssociates(head, [Token(ASSIGN, "=")] + ExprTokens(e) + GuardTokens(d.guard), end);
    }
  }

  lemma ExprDeclIsSafe(d: Decl)
    requires d.RepoDecl? || d.BranchDecl?
    ensures Safe(DeclTokens(d))
  {
    hide Safe, ExprTokens, LineEnd;
    var e := if d.RepoDecl? then d.repo else d.branch;
    var keyword := if d.RepoDecl? then Token(KW_REPO, "REPO") else Token(KW_BRANCH, "BRANCH");
    SafeOne(keyword);
    ExprIsSafe(e);
    LineEndIsSafe(e);
    SafeThree([keyword], ExprTokens(e), LineEnd(e));
  }

  lemma ListDeclIsSafe(d: Decl)
    requires d.SkillsDecl? || d.ModeArgsDecl? || d.KnowledgeDecl? || d.CapabilityDecl?
    ensures Safe(DeclTokens(d))
  {
    hide SlugTokens, StringTokens, MountListTokens, ControlTokens, LookupIdent, DeclTokens, Safe;
    ListDeclTokens(d);
    SafeOne(NL);
    match d
    case SkillsDecl(slugs) => ListLineIsSafe([Token(KW_SKILLS, "SKILLS")], SlugTokens(slugs)); StringsHaveNoOpener(slugs);
    case ModeArgsDecl(mode, args) =>
      ListLineIsSafe([Token(KW_MODE, "MODE"), IdentToken(mode)], StringTokens(args)); StringsHaveNoOpener(args);
    case KnowledgeDecl(mounts) =>
      ListLineIsSafe([Token(KW_KNOWLEDGE, "KNOWLEDGE")], MountListTokens(mounts)); MountsHaveNoOpener(mounts);
    case CapabilityDecl(axis, value) =>
      ControlHasNoOpener(value);
      LexFacts.KeywordKinds(value);
      ListLineIsSafe([Token(KW_CAPABILITY, "CAPABILITY"), IdentToken(axis)], CapabilityTokens(axis, value));
  }

  lemma ListLineIsSafe(head: seq<Token>, list: seq<Token>)
    ensures NoOpener(head) && NoOpener(list) ==> Safe(head + list + [NL])
  {
    if NoOpener(head) && NoOpener(list) {
      SafePlain(head);
      SafePlain(list);
      SafeOne(NL);
      hide Safe, NoOpener;
      SafeThree(head, list, [NL]);
    }
  }

  lemma SetupIsSafe(d: Decl)
    requires d.SetupDecl?
    ensures Safe(DeclTokens(d))
  {
    hide Safe, HeredocTokens, DecimalText;
    var timeout := if d.timeout == 300 then []
      else [IdentToken("timeout"), Token(ASSIGN, "="), Token(NUMBER, DecimalText(d.timeout))];
    assert DeclTokens(d) == [Token(KW_SETUP, "SETUP")] + timeout + HeredocTokens(d.script);
    hide DeclTokens;
    SafeOne(Token(KW_SETUP, "SETUP"));
    SafePlain(timeout);
    HeredocIsSafe(d.script);
    SafeThree([Token(KW_SETUP, "SETUP")], timeout, HeredocTokens(d.script));
  }

  lemma ShortDeclIsSafe(d: Decl)
    requires !(d.ConfigDecl? || d.EnvDecl? || d.RepoDecl? || d.BranchDecl? || d.SkillsDecl? || d.ModeArgsDecl? ||
               d.KnowledgeDecl? || d.CapabilityDecl? || d.SetupDecl?)
    ensures Safe(DeclTokens(d))
  {
    hide LookupIdent, IsBare;
    if d.PromptPositionDecl? { LexFacts.KeywordKinds(d.position); }
    SafePlain(DeclTokens(d));
  }

  lemma DeclIsSafe(d: Decl)
    ensures Safe(DeclTokens(d))
  {
    hide Safe, DeclTokens;
    match d
    case ConfigDecl(_, _, _, _) => ConfigIsSafe(d);
    case EnvDecl(_, _, _, _, _, _) => EnvIsSafe(d);
    case RepoDecl(_) => ExprDeclIsSafe(d);
    case BranchDecl(_) => ExprDeclIsSafe(d);
    case SkillsDecl(_) => ListDeclIsSafe(d);
    case ModeArgsDecl(_, _) => ListDeclIsSafe(d);
    case KnowledgeDecl(_) => ListDeclIsSafe(d);
    case CapabilityDecl(_, _) => ListDeclIsSafe(d);
    case SetupDecl(_, _) => SetupIsSafe(d);
    case _ => ShortDeclIsSafe(d);
  }

  lemma {:induction false} DeclsAreSafe(ds: seq<Decl>)
    ensures Safe(DeclLinesTokens(ds))
  {
    hide Safe, DeclTokens;
    SafeNone();
    if ds != [] {
      DeclIsSafe(ds[0]);
      DeclsAreSafe(ds[1..]);
      SafeConcat(DeclTokens(ds[0]), DeclLinesTokens(ds[1..]));
    }
  }

  /** No printed program has a grouping parenthesis, whatever tree it comes from. */
  lemma PrintedIsUngrouped(p: Program)
    ensures Ungrouped(ProgramTokens(p) + [END])
  {
    var tokens := ProgramTokens(p) + [END];
    DeclsAreSafe(p.declarations);
    LinesAreSafe(p.statements);
    SafeOne(END);
    hide DeclLinesTokens, LinesTokens, Ungrouped;
    assert Safe(tokens) by {
      hide Safe;
      SafeThree(DeclLinesTokens(p.declarations), LinesTokens(p.statements), [END]);
    }
  }

  // ---------------------------------------------------------------- the normal form is exact

  /** A printable program survives serializing and parsing if and only if its expressions respect the levels. */
  lemma SurvivesExactly(p: Program)
    requires PrintableProgram(p)
    ensures Parse(ProgramText(p)) == (p, []) <==> ProgramRespects(p)
  {
    hide LexSpec.Lex, ProgramText, ParseTokens, ProgramRespects, PrintableProgram, ProgramTokens, Ungrouped;
    if ProgramRespects(p) { RoundTrip.ParseOfSerialize(p); }
    if Parse(ProgramText(p)) == (p, []) {
      LexProgram(p);
      PrintedIsUngrouped(p);
      ParseRespects(ProgramTokens(p) + [END]);
    }
  }

  /** Parsing, serializing and parsing again gives the first result, for input without groups and lossy spellings. */
  lemma ParseSerializeParse(input: string)
    requires Ungrouped(LexSpec.Lex(input)) && Plain(LexSpec.Lex(input))
    requires Parse(input).1 == [] && forall d | d in Parse(input).0.declarations :: Restorable(d)
    ensures Parse(ProgramText(Parse(input).0)) == Parse(input)
  {
    hide LexSpec.Lex, ProgramText, ParseTokens, Restorable, ProgramRespects, PrintableProgram, Ungrouped, Plain;
    var tokens := LexSpec.Lex(input);
    assert Lexed(tokens) by { hide Lexed; LexFacts.LexIsLexed(input); }
    hide Lexed;
    ParseRespects(tokens);
    ParsePrintable(tokens);
    RoundTrip.ParseOfSerialize(Parse(input).0);
  }

  /** The parser is total: whatever the tokens, it goes on to the first EOF or past the last token. */
  lemma {:induction false} ParserReachesTheEnd(p: Program, s: State)
    ensures AtEnd(ParseItems(p, s).next)
    decreases |s.rest|
  {
    hide TryDeclaration, TryStatement, SkipNewlines;
    var t := SkipNewlines(s);
    if AtEnd(s) {
      SkipsNothingAtEnd(s);
    } else if !AtEnd(t) {
      var d, st := TryDeclaration(t), TryStatement(t);
      if d.Some? {
        ParserReachesTheEnd(p.(declarations := p.declarations + [d.value.val]), d.value.next);
      } else if st.Some? {
        ParserReachesTheEnd(p.(statements := p.statements + [st.value.val]), st.value.next);
      } else {
        ParserReachesTheEnd(p, Advance(Report(t, UnexpectedAtTop)));
      }
    }
  }

  lemma SkipsNothingAtEnd(s: State)
    requires AtEnd(s)
    ensures SkipNewlines(s) == s
  {}

  // ---------------------------------------------------------------- what gets lost

  function Assign(e: Expr): Program { Program([], [AssignStmt("x", e)]) }

  lemma AssignText(e: Expr)
    ensures ProgramText(Assign(e)) == "x = " + ExprText(e) + "\n"
  {
    hide ExprText;
    var st := AssignStmt("x", e);
    assert LinesText([st], 0) == StmtText(st, 0) + "\n" + LinesText([], 0);
    assert "x" + " = " == "x = ";
    assert "" + ("x" + " = " + ExprText(e)) == "x = " + ExprText(e);
  }

  /** A tree that prints like another one, which respects the levels, comes back as that one. */
  lemma AssignIsInForm(f: Expr)
    requires Printable(f, true) && Respects(f)
    ensures PrintableProgram(Assign(f)) && ProgramRespects(Assign(f))
  {
    AssignStmtIsInForm(f);
    hide Printable, Respects, PrintableDecl, DeclRespects, PrintableStmt, StmtRespects;
  }

  lemma AssignStmtIsInForm(f: Expr)
    requires Printable(f, true) && Respects(f)
    ensures PrintableStmt(AssignStmt("x", f)) && StmtRespects(AssignStmt("x", f))
  {
    hide IsName, Printable, Respects;
    NameX();
  }

  lemma NameX()
    ensures IsName("x")
  {
    hide IsName;
    Keywords.PlainName("x");
  }

  lemma ReadsAsOther(e: Expr, f: Expr)
    requires ExprText(e) == ExprText(f) && Printable(f, true) && Respects(f)
    ensures Parse(ProgramText(Assign(e))) == (Assign(f), [])
  {
    hide Parse, ExprText, ProgramText, Printable, Respects, PrintableProgram, ProgramRespects, Assign;
    AssignIsInForm(f);
    RoundTrip.ParseOfSerialize(Assign(f));
    AssignText(e);
    AssignText(f);
  }

  function Spaced(op: BinOp): string { " " + OpText(op) + " " }

  lemma BinaryText(a: Expr, op: BinOp, b: Expr)
    ensures ExprText(Binary(a, op, b)) == ExprText(a) + Spaced(op) + ExprText(b)
  {
    var x, y, o := ExprText(a), ExprText(b), OpText(op);
    assert ExprText(Binary(a, op, b)) == x + " " + o + " " + y;
    hide ExprText, OpText;
    assert x + " " + o + " " + y == x + (" " + o + " ") + y;
  }

  lemma NotText(a: Expr)
    ensures ExprText(Not(a)) == "not " + ExprText(a)
  {}

  lemma GroupIsNotPrinted(a: Expr, left: BinOp, b: Expr, right: BinOp, c: Expr)
    ensures ExprText(Binary(Binary(a, left, b), right, c)) == ExprText(Binary(a, left, Binary(b, right, c)))
  {
    hide ExprText, Spaced;
    BinaryText(a, left, b);
    BinaryText(Binary(a, left, b), right, c);
    BinaryText(b, right, c);
    BinaryText(a, left, Binary(b, right, c));
    var x, y, z, l, r := ExprText(a), ExprText(b), ExprText(c), Spaced(left), Spaced(right);
    assert (x + l + y) + r + z == x + l + (y + r + z);
  }

  lemma NegationIsNotPrinted(a: Expr, op: BinOp, b: Expr)
    ensures ExprText(Not(Binary(a, op, b))) == ExprText(Binary(Not(a), op, b))
  {
    hide ExprText, Spaced;
    BinaryText(a, op, b);
    NotText(Binary(a, op, b));
    NotText(a);
    BinaryText(Not(a), op, b);
    var x, y, o := ExprText(a), ExprText(b), Spaced(op);
    assert "not " + (x + o + y) == ("not " + x) + o + y;
  }

  /** The group of `(a or b) and c` is not printed: the tree always comes back as `a or (b and c)`. */
  lemma LooseGroupIsLost(a: Expr, left: BinOp, b: Expr, right: BinOp, c: Expr)
    requires LevelOf(left) < LevelOf(right)
    requires var flat := Binary(a, left, Binary(b, right, c)); Printable(flat, true) && Respects(flat)
    ensures Parse(ProgramText(Assign(Binary(Binary(a, left, b), right, c)))) ==
      (Assign(Binary(a, left, Binary(b, right, c))), [])
  {
    hide Parse, ProgramText, ExprText, Printable, Respects;
    GroupIsNotPrinted(a, left, b, right, c);
    ReadsAsOther(Binary(Binary(a, left, b), right, c), Binary(a, left, Binary(b, right, c)));
  }

  /** `not (a == b)` always comes back as `(not a) == b`. */
  lemma NegatedGroupIsLost(a: Expr, op: BinOp, b: Expr)
    requires var flat := Binary(Not(a), op, b); Printable(flat, true) && Respects(flat)
    ensures Parse(ProgramText(Assign(Not(Binary(a, op, b))))) == (Assign(Binary(Not(a), op, b)), [])
  {
    hide Parse, ProgramText, ExprText, Printable, Respects;
    NegationIsNotPrinted(a, op, b);
    ReadsAsOther(Not(Binary(a, op, b)), Binary(Not(a), op, b));
  }
}
