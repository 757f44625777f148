/** Serializing a program and parsing the text gives the program back, without errors. */
module RoundTrip {
  import opened Text
  import opened Tokens
  import opened Ast
  import opened PrintSpec
  import opened PrintTokens
  import opened LexLines
  import opened LexDecls
  import opened ParseSpec
  import opened Levels
  import opened ParseStmts
  import opened ParseDecls
  import LexSpec

  predicate StartsDeclaration(t: TokenType) {
    t in {KW_AGENT, KW_EXECUTABLE, KW_CONFIG, KW_ENV, KW_REPO, KW_BRANCH, KW_GIT_CREDENTIAL, KW_MCP, KW_SKILLS,
          KW_SETUP, KW_REMOVE, KW_MODE, KW_USE_ENV_BUNDLE, KW_USE_CONFIG_BUNDLE, KW_PROMPT, KW_PROMPT_POSITION,
          KW_CAPABILITY, KW_KNOWLEDGE}
  }

  lemma DeclStart(d: Decl)
    ensures DeclTokens(d) != [] && StartsDeclaration(DeclTokens(d)[0].typ)
  {
    hide ExprTokens, LineEnd, GuardTokens, SlugTokens, MountListTokens, CapabilityTokens, HeredocTokens, DecimalText,
         StringTokens, QuotedTokens, NameToken, PositionToken, TargetToken, ValueToken, TypeToken;
  }

  /** Everything that is still to be read. */
  function Remaining(ds: seq<Decl>, ss: seq<Stmt>): seq<Token> {
    if ds == [] then LinesTokens(ss) + [END] else DeclTokens(ds[0]) + Remaining(ds[1..], ss)
  }

  lemma {:induction false} RemainingIs(ds: seq<Decl>, ss: seq<Stmt>)
    ensures Remaining(ds, ss) == DeclLinesTokens(ds) + LinesTokens(ss) + [END]
  {
    hide DeclTokens, LinesTokens;
    if ds == [] {
      assert [] + LinesTokens(ss) == LinesTokens(ss);
    } else {
      RemainingIs(ds[1..], ss);
      ConcatAssociates(DeclTokens(ds[0]), DeclLinesTokens(ds[1..]), LinesTokens(ss));
      ConcatAssociates(DeclTokens(ds[0]), DeclLinesTokens(ds[1..]) + LinesTokens(ss), [END]);
    }
  }

  lemma RemainingStart(ds: seq<Decl>, ss: seq<Stmt>)
    ensures LineStart(Remaining(ds, ss)) && Remaining(ds, ss) != []
    ensures ds != [] ==> StartsDeclaration(Remaining(ds, ss)[0].typ)
    ensures ds == [] && ss != [] ==> StartsStatement(Remaining(ds, ss)[0].typ)
  {
    hide DeclTokens, LinesTokens;
    if ds == [] {
      LinesStart(ss, [END]);
    } else {
      DeclStart(ds[0]);
      assert Remaining(ds, ss)[0] == DeclTokens(ds[0])[0];
    }
  }

  lemma SkipsNothing(s: State)
    requires Kind(s) != NEWLINE && Kind(s) != COMMENT
    ensures SkipNewlines(s) == s
  {}

  lemma DeclStep(p: Program, s: State, d: Decl, next: State)
    requires StartsDeclaration(Kind(s)) && TryDeclaration(s) == Some(Parsed(d, next))
    ensures ParseItems(p, s) == ParseItems(p.(declarations := p.declarations + [d]), next)
  {
    hide TryDeclaration, TryStatement;
    SkipsNothing(s);
  }

  lemma NoDeclaration(s: State)
    requires StartsStatement(Kind(s))
    ensures TryDeclaration(s).None?
  {}

  lemma StmtStep(p: Program, s: State, st: Stmt, next: State)
    requires StartsStatement(Kind(s)) && TryStatement(s) == Some(Parsed(st, next))
    ensures ParseItems(p, s) == ParseItems(p.(statements := p.statements + [st]), next)
  {
    NoDeclaration(s);
    SkipsNothing(s);
    hide TryDeclaration, TryStatement;
  }

  lemma ItemsAfterNewline(p: Program, rest: seq<Token>, errs: seq<ParseError>)
    requires LineStart(rest)
    ensures ParseItems(p, State([NL] + rest, errs)) == ParseItems(p, State(rest, errs))
  {
    hide TryDeclaration, TryStatement;
    NewlineAt(rest, errs);
  }

  lemma ItemsDone(p: Program, errs: seq<ParseError>)
    ensures ParseItems(p, State([END], errs)) == Parsed(p, State([END], errs))
  {}

  lemma {:induction false} StatementItems(p: Program, ss: seq<Stmt>, errs: seq<ParseError>)
    requires forall s | s in ss :: StmtRespects(s) && PrintableStmt(s)
    ensures ParseItems(p, State(Remaining([], ss), errs)) ==
      Parsed(p.(statements := p.statements + ss), State([END], errs))
    decreases ss
  {
    hide TryStatement, ParseItems, StmtTokens, StmtRespects, PrintableStmt;
    if ss == [] {
      assert [] + [END] == [END] && p.statements + [] == p.statements;
      ItemsDone(p, errs);
    } else {
      var rest := Remaining([], ss[1..]);
      var s := State(Remaining([], ss), errs);
      RemainingStart([], ss);
      RemainingStart([], ss[1..]);
      ConcatAssociates(StmtTokens(ss[0]), LinesTokens(ss[1..]), [END]);
      StmtInverts(ss[0], rest, errs);
      StmtStep(p, s, ss[0], TryStatement(s).value.next);
      var q := p.(statements := p.statements + [ss[0]]);
      ItemsAfterNewline(q, rest, errs);
      StatementItems(q, ss[1..], errs);
      assert p.statements + [ss[0]] + ss[1..] == p.statements + ss;
    }
  }

  lemma {:induction false} ItemsInvert(p: Program, ds: seq<Decl>, ss: seq<Stmt>, errs: seq<ParseError>)
    requires forall d | d in ds :: DeclRespects(d) && PrintableDecl(d)
    requires forall s | s in ss :: StmtRespects(s) && PrintableStmt(s)
    ensures ParseItems(p, State(Remaining(ds, ss), errs)) ==
      Parsed(Program(p.declarations + ds, p.statements + ss), State([END], errs))
    decreases ds
  {
    hide TryDeclaration, ParseItems, DeclTokens, DeclRespects, PrintableDecl, StmtRespects, PrintableStmt, LinesTokens;
    if ds == [] {
      StatementItems(p, ss, errs);
      assert p.declarations + [] == p.declarations;
    } else {
      var rest := Remaining(ds[1..], ss);
      RemainingStart(ds, ss);
      RemainingStart(ds[1..], ss);
      DeclInverts(ds[0], rest, errs);
      DeclStep(p, State(Remaining(ds, ss), errs), ds[0], State(rest, errs));
      ItemsInvert(p.(declarations := p.declarations + [ds[0]]), ds[1..], ss, errs);
      assert p.declarations + [ds[0]] + ds[1..] == p.declarations + ds;
    }
  }

  /** The round trip: a printable program whose expressions respect the levels survives serializing and parsing. */
  lemma ParseOfSerialize(p: Program)
    requires PrintableProgram(p) && ProgramRespects(p)
    ensures Parse(ProgramText(p)) == (p, [])
  {
    hide LexSpec.Lex, ProgramText, ParseItems, PrintableDecl, PrintableStmt, DeclRespects, StmtRespects, DeclLinesTokens,
         LinesTokens, Remaining;
    LexProgram(p);
    RemainingIs(p.declarations, p.statements);
    ItemsInvert(Program([], []), p.declarations, p.statements, []);
    assert [] + p.declarations == p.declarations && [] + p.statements == p.statements;
    assert p == Program(p.declarations, p.statements);
  }

  /** Two programs with the same text are the same program, as far as both are within the normal form. */
  lemma SerializeIsInjective(p: Program, q: Program)
    requires PrintableProgram(p) && ProgramRespects(p) && PrintableProgram(q) && ProgramRespects(q)
    requires ProgramText(p) == ProgramText(q)
    ensures p == q
  {
    hide Parse, ProgramText, PrintableProgram, ProgramRespects;
    ParseOfSerialize(p);
    ParseOfSerialize(q);
  }
}
