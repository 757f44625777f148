/** Parsing the tokens of printed statements gives the statements back. */
module ParseStmts {
  import opened Text
  import opened Tokens
  import opened Ast
  import opened PrintTokens
  import opened ParseSpec
  import opened Levels
  import opened ParsePrinted
  import opened LexPrinted
  import opened LexLines

  /** What the next line of a printed program can start with. */
  predicate LineStart(rest: seq<Token>) {
    rest == [] || rest[0].typ !in
      {NEWLINE, COMMENT, KW_ELSE, KW_WHEN, NUMBER, HEREDOC_BODY, DOT, LPAREN, KW_OR, KW_AND, EQ, NEQ, PLUS}
  }

  lemma ExprAt(e: Expr, rest: seq<Token>, errs: seq<ParseError>)
    requires Respects(e) && Stops(0, rest)
    ensures ParseExpr(State(ExprTokens(e) + rest, errs)) == Parsed(e, State(rest, errs))
  {
    hide ParseLevel, ExprTokens;
    LevelInverts(0, e, rest, errs);
  }

  lemma LineEndAt(e: Expr, rest: seq<Token>, errs: seq<ParseError>)
    requires LineStart(rest)
    ensures Stops(0, LineEnd(e) + rest)
    ensures ExpectNewline(State(LineEnd(e) + rest, errs)) == State(rest, errs)
  {
    if EndsInHeredoc(e) {
      assert LineEnd(e) + rest == rest;
    } else {
      assert (LineEnd(e) + rest)[1..] == rest;
    }
  }

  lemma NewlineAt(rest: seq<Token>, errs: seq<ParseError>)
    requires LineStart(rest)
    ensures Stops(0, [NL] + rest)
    ensures ExpectNewline(State([NL] + rest, errs)) == State(rest, errs)
    ensures SkipNewlines(State([NL] + rest, errs)) == State(rest, errs)
    ensures SkipNewlines(State(rest, errs)) == State(rest, errs)
  {
    assert ([NL] + rest)[1..] == rest;
  }

  /** An expression that ends its line. */
  lemma LastExprAt(e: Expr, rest: seq<Token>, errs: seq<ParseError>)
    requires Respects(e) && LineStart(rest)
    ensures var r := ParseExpr(State(ExprTokens(e) + LineEnd(e) + rest, errs));
      r.val == e && r.next == State(LineEnd(e) + rest, errs) && ExpectNewline(r.next) == State(rest, errs)
  {
    hide ParseExpr, ExprTokens, LineEnd, ExpectNewline;
    LineEndAt(e, rest, errs);
    ExprAt(e, LineEnd(e) + rest, errs);
    ConcatAssociates(ExprTokens(e), LineEnd(e), rest);
  }

  function GuardEnd(guard: Option<Expr>, otherwise: seq<Token>): seq<Token> {
    if guard.Some? then LineEnd(guard.value) else otherwise
  }

  /** An optional guard that ends its line; `plain` is the line end when there is none. */
  lemma GuardAt(guard: Option<Expr>, plain: seq<Token>, rest: seq<Token>, errs: seq<ParseError>)
    requires GuardRespects(guard) && LineStart(rest) && (plain == [] || plain == [NL])
    ensures var r := ParseGuard(State(GuardTokens(guard) + (GuardEnd(guard, plain) + rest), errs));
      r.val == guard && ExpectNewline(r.next) == State(rest, errs)
  {
    hide ParseExpr, ExprTokens, LineEnd, ExpectNewline;
    if guard.Some? {
      var e := guard.value;
      LastExprAt(e, rest, errs);
      var all := GuardTokens(guard) + (LineEnd(e) + rest);
      assert all[1..] == ExprTokens(e) + LineEnd(e) + rest;
    } else {
      PlainEndAt(plain, rest, errs);
      assert [] + (plain + rest) == plain + rest;
    }
  }

  lemma PlainEndAt(plain: seq<Token>, rest: seq<Token>, errs: seq<ParseError>)
    requires LineStart(rest) && (plain == [] || plain == [NL])
    ensures ParseGuard(State(plain + rest, errs)) == Parsed(None, State(plain + rest, errs))
    ensures ExpectNewline(State(plain + rest, errs)) == State(rest, errs)
  {
    hide ParseExpr;
    if plain == [] {
      assert [] + rest == rest;
    } else {
      NewlineAt(rest, errs);
    }
  }

  // ---------------------------------------------------------------- arg and file

  lemma ArgListStep(acc: seq<Expr>, s: State, e: Expr, tail: State)
    requires StartsExpr(Kind(s)) && ParseExpr(s) == Parsed(e, tail)
    ensures ParseArgList(acc, s) == ParseArgList(acc + [e], tail)
  {
    hide ParseExpr;
  }

  /** Arguments are only separated by spaces, yet each ends where the next begins. */
  lemma ArgListDone(acc: seq<Expr>, tail: seq<Token>, errs: seq<ParseError>)
    requires tail != [] && tail[0].typ in {NEWLINE, KW_WHEN}
    ensures ParseArgList(acc, State(tail, errs)) == Parsed(acc, State(tail, errs))
  {
    hide ParseExpr;
  }

  lemma {:induction false} ArgListInverts(es: seq<Expr>, acc: seq<Expr>, tail: seq<Token>, errs: seq<ParseError>)
    requires forall a | a in es :: Respects(a)
    requires tail != [] && tail[0].typ in {NEWLINE, KW_WHEN}
    ensures ParseArgList(acc, State(SpacedTokens(es) + tail, errs)) == Parsed(acc + es, State(tail, errs))
  {
    hide ParseExpr, ExprTokens, ParseArgList, Stops;
    if es == [] {
      assert [] + tail == tail && acc + [] == acc;
      ArgListDone(acc, tail, errs);
    } else {
      var more := SpacedTokens(es[1..]) + tail;
      SpacedStart(es[1..], tail);
      ExprAt(es[0], more, errs);
      FirstToken(es[0]);
      ConcatAssociates(ExprTokens(es[0]), SpacedTokens(es[1..]), tail);
      assert (ExprTokens(es[0]) + more)[0] == ExprTokens(es[0])[0];
      ArgListStep(acc, State(ExprTokens(es[0]) + more, errs), es[0], State(more, errs));
      ArgListInverts(es[1..], acc + [es[0]], tail, errs);
      assert acc + [es[0]] + es[1..] == acc + es;
    }
  }

  lemma SpacedStart(es: seq<Expr>, tail: seq<Token>)
    requires tail != [] && tail[0].typ in {NEWLINE, KW_WHEN}
    ensures Stops(0, SpacedTokens(es) + tail)
  {
    hide ExprTokens;
    if es == [] {
      assert [] + tail == tail;
    } else {
      FirstToken(es[0]);
      assert (SpacedTokens(es) + tail)[0] == ExprTokens(es[0])[0];
    }
  }

  lemma ArgInverts(st: Stmt, rest: seq<Token>, errs: seq<ParseError>)
    requires st.ArgStmt? && StmtRespects(st) && LineStart(rest)
    ensures TryStatement(State(StmtTokens(st) + rest, errs)) == Some(Parsed(st, State(rest, errs)))
  {
    hide ParseExpr, ExprTokens, LineEnd, ParseArgList, SpacedTokens, ExpectNewline, ParseGuard;
    var end := GuardEnd(st.guard, [NL]);
    var tail := GuardTokens(st.guard) + (end + rest);
    assert tail[0].typ in {NEWLINE, KW_WHEN};
    hide GuardTokens, GuardEnd;
    ArgListInverts(st.args, [], tail, errs);
    GuardAt(st.guard, [NL], rest, errs);
    assert [] + st.args == st.args;
    var s := State(StmtTokens(st) + rest, errs);
    ArgTokensSplit(st, rest);
    assert s.rest[0].typ == KW_ARG && s.rest[1..] == SpacedTokens(st.args) + tail;
  }

  lemma ArgTokensSplit(st: Stmt, rest: seq<Token>)
    requires st.ArgStmt?
    ensures StmtTokens(st) + rest ==
      [Token(KW_ARG, "arg")] + (SpacedTokens(st.args) + (GuardTokens(st.guard) + (GuardEnd(st.guard, [NL]) + rest)))
  {
    hide ExprTokens, LineEnd, SpacedTokens, GuardTokens;
  }

  /** Octal printing and the leading-zero rule of the parser are inverse. */
  lemma ModeReadsBack(mode: int)
    requires 0 < mode <= MAX_INT64
    ensures IntOf("0" + Numeral(mode, 8)) == Some(mode)
  {
    ValueOfNumeral(mode, 8);
    ValueOfLeadingZero(Numeral(mode, 8), 8);
    assert ("0" + Numeral(mode, 8))[1] == Numeral(mode, 8)[0];
  }

  lemma TimeoutReadsBack(n: int)
    requires 0 <= n <= MAX_INT64
    ensures IntOf(Numeral(n, 10)) == Some(n)
  {
    ValueOfNumeral(n, 10);
    if n == 0 {
      assert |Numeral(0, 10)| == 1;
    }
  }

  /** The mode is there exactly when the next token is a number. */
  lemma ModeAt(mode: int, tail: seq<Token>, errs: seq<ParseError>)
    requires 0 <= mode <= MAX_INT64 && (tail != [] ==> tail[0].typ != NUMBER)
    ensures var s := State(ModeTokens(mode) + tail, errs);
      (if Kind(s) == NUMBER then ExpectInt(s) else Parsed(0, s)) == Parsed(mode, State(tail, errs))
  {
    if mode > 0 {
      ModeReadsBack(mode);
      hide IntOf, Numeral;
      assert (ModeTokens(mode) + tail)[1..] == tail;
    } else {
      assert [] + tail == tail;
    }
  }

  lemma FileStep(s: State, path: Parsed<Expr>, content: Parsed<Expr>, mode: Parsed<int>, guard: Parsed<Option<Expr>>)
    requires Kind(s) == KW_FILE && ParseExpr(Advance(s)) == path && ParseExpr(path.next) == content
    requires (if Kind(content.next) == NUMBER then ExpectInt(content.next) else Parsed(0, content.next)) == mode
    requires ParseGuard(mode.next) == guard
    ensures TryStatement(s) ==
      Some(Parsed(FileStmt(path.val, content.val, mode.val, guard.val), ExpectNewline(guard.next)))
  {
    hide ParseExpr, ExpectInt, ParseGuard, ExpectNewline;
  }

  lemma FileInverts(st: Stmt, rest: seq<Token>, errs: seq<ParseError>)
    requires st.FileStmt? && StmtRespects(st) && PrintableStmt(st) && LineStart(rest)
    ensures TryStatement(State(StmtTokens(st) + rest, errs)) == Some(Parsed(st, State(rest, errs)))
  {
    hide ParseExpr, ExprTokens, LineEnd, ExpectNewline, ParseGuard, ExpectInt, Printable, Respects, PrintableGuard, GuardTokens,
         GuardEnd, TryStatement, StmtTokens, ModeTokens;
    var FileStmt(path, content, mode, guard) := st;
    var plain := if mode > 0 then [NL] else LineEnd(content);
    var tail := GuardTokens(guard) + (GuardEnd(guard, plain) + rest);
    PlainEnd(content, mode);
    TailStart(guard, plain, rest);
    GuardAt(guard, plain, rest, errs);
    ModeAt(mode, tail, errs);
    ModeStart(mode, tail);
    ExprAt(content, ModeTokens(mode) + tail, errs);
    var inner := ExprTokens(content) + (ModeTokens(mode) + tail);
    ExprStart(content, ModeTokens(mode) + tail);
    ExprAt(path, inner, errs);
    hide Stops, LineStart, GuardRespects;
    var s := State(StmtTokens(st) + rest, errs);
    FileTokensSplit(st, rest);
    assert s.rest[0] == Token(KW_FILE, "file") && s.rest[1..] == ExprTokens(path) + inner;
    FileStep(s, Parsed(path, State(inner, errs)), Parsed(content, State(ModeTokens(mode) + tail, errs)),
             Parsed(mode, State(tail, errs)), ParseGuard(State(tail, errs)));
  }

  lemma ExprStart(e: Expr, rest: seq<Token>)
    ensures Stops(0, ExprTokens(e) + rest)
  {
    FirstToken(e);
    assert (ExprTokens(e) + rest)[0] == ExprTokens(e)[0];
    hide ExprTokens;
  }

  lemma PlainEnd(content: Expr, mode: int)
    ensures var plain := if mode > 0 then [NL] else LineEnd(content); plain == [] || plain == [NL]
  {}

  lemma TailStart(guard: Option<Expr>, plain: seq<Token>, rest: seq<Token>)
    requires LineStart(rest) && (plain == [] || plain == [NL])
    ensures var tail := GuardTokens(guard) + (GuardEnd(guard, plain) + rest);
      Stops(0, tail) && (tail != [] ==> tail[0].typ != NUMBER)
  {
    hide ExprTokens, LineEnd;
    if guard.None? {
      assert [] + (plain + rest) == plain + rest;
      if plain == [] {
        assert [] + rest == rest;
      }
    }
  }

  lemma ModeStart(mode: int, tail: seq<Token>)
    requires Stops(0, tail)
    ensures Stops(0, ModeTokens(mode) + tail)
  {
    if mode <= 0 {
      assert [] + tail == tail;
    }
  }

  lemma FileTokensSplit(st: Stmt, rest: seq<Token>)
    requires st.FileStmt?
    ensures var FileStmt(path, content, mode, guard) := st;
      var plain := if mode > 0 then [NL] else LineEnd(content);
      StmtTokens(st) + rest == [Token(KW_FILE, "file")] + (ExprTokens(path) + (ExprTokens(content) +
        (ModeTokens(mode) + (GuardTokens(guard) + (GuardEnd(guard, plain) + rest)))))
  {
    hide ExprTokens, LineEnd, GuardTokens, ModeTokens;
  }

  // ---------------------------------------------------------------- mkdir and assignment

  lemma MkdirInverts(st: Stmt, rest: seq<Token>, errs: seq<ParseError>)
    requires st.MkdirStmt? && StmtRespects(st) && LineStart(rest)
    ensures TryStatement(State(StmtTokens(st) + rest, errs)) == Some(Parsed(st, State(rest, errs)))
  {
    hide ParseExpr, ExprTokens, LineEnd, ExpectNewline;
    LastExprAt(st.path, rest, errs);
    var s := State(StmtTokens(st) + rest, errs);
    assert s.rest[0].typ == KW_MKDIR && s.rest[1..] == ExprTokens(st.path) + LineEnd(st.path) + rest;
  }

  lemma AssignInverts(st: Stmt, rest: seq<Token>, errs: seq<ParseError>)
    requires st.AssignStmt? && StmtRespects(st) && LineStart(rest)
    ensures TryStatement(State(StmtTokens(st) + rest, errs)) == Some(Parsed(st, State(rest, errs)))
  {
    hide ParseExpr, ExprTokens, LineEnd, ExpectNewline;
    LastExprAt(st.value, rest, errs);
    var s := State(StmtTokens(st) + rest, errs);
    assert s.rest[0] == IdentToken(st.name) && s.rest[1] == Token(ASSIGN, "=");
    assert s.rest[1..][1..] == ExprTokens(st.value) + LineEnd(st.value) + rest;
  }

  // ---------------------------------------------------------------- blocks

  predicate StartsStatement(t: TokenType) { t in {KW_ARG, KW_FILE, KW_MKDIR, KW_IF, KW_FOR, IDENT} }

  lemma StatementStart(st: Stmt)
    ensures StartsStatement(StmtTokens(st)[0].typ)
  {
    hide ExprTokens, LineEnd, SpacedTokens, BlockTokens, GuardTokens, ModeTokens;
  }

  lemma LinesStart(ss: seq<Stmt>, rest: seq<Token>)
    requires LineStart(rest)
    ensures LineStart(LinesTokens(ss) + rest)
    ensures ss != [] ==> StartsStatement((LinesTokens(ss) + rest)[0].typ)
  {
    hide StmtTokens;
    if ss == [] {
      assert [] + rest == rest;
    } else {
      StatementStart(ss[0]);
      assert (LinesTokens(ss) + rest)[0] == StmtTokens(ss[0])[0];
    }
  }

  /** A statement is read to the end of its line, give or take the newline itself. */
  ghost predicate ReadsAs(st: Stmt, s: State, rest: seq<Token>) {
    var r := TryStatement(s);
    r.Some? && r.value.val == st && (r.value.next == State(rest, s.errors) || r.value.next == State([NL] + rest, s.errors))
  }

  lemma {:induction false} StmtInverts(st: Stmt, rest: seq<Token>, errs: seq<ParseError>)
    requires StmtRespects(st) && PrintableStmt(st) && LineStart(rest)
    ensures ReadsAs(st, State(StmtTokens(st) + rest, errs), rest)
    decreases st, 1
  {
    hide StmtTokens, TryStatement;
    match st {
      case ArgStmt(_, _) => ArgInverts(st, rest, errs);
      case FileStmt(_, _, _, _) => FileInverts(st, rest, errs);
      case MkdirStmt(_) => MkdirInverts(st, rest, errs);
      case AssignStmt(_, _) => AssignInverts(st, rest, errs);
      case IfStmt(_, _, _) => IfInverts(st, rest, errs);
      case ForStmt(_, _, _, _) => ForInverts(st, rest, errs);
    }
  }

  lemma StatementsStep(acc: seq<Stmt>, s: State, st: Stmt, rest: seq<Token>)
    requires StartsStatement(Kind(s)) && ReadsAs(st, s, rest) && LineStart(rest)
    requires rest != [] && rest[0].typ != EOF
    ensures ParseStatements(acc, s) == ParseStatements(acc + [st], State(rest, s.errors))
  {
    hide TryStatement;
    NewlineAt(rest, s.errors);
    var next := TryStatement(s).value.next;
    assert ParseStatements(acc, s) == ParseStatements(acc + [st], next);
    AfterNewline(acc + [st], rest, s.errors);
  }

  /** A newline before more statements makes no difference. */
  lemma AfterNewline(acc: seq<Stmt>, rest: seq<Token>, errs: seq<ParseError>)
    requires LineStart(rest) && rest != [] && rest[0].typ != EOF
    ensures ParseStatements(acc, State([NL] + rest, errs)) == ParseStatements(acc, State(rest, errs))
  {
    hide TryStatement;
    NewlineAt(rest, errs);
  }

  lemma {:induction false} StatementsInvert(ss: seq<Stmt>, acc: seq<Stmt>, rest: seq<Token>, errs: seq<ParseError>)
    requires forall t | t in ss :: StmtRespects(t) && PrintableStmt(t)
    ensures var close := [Token(RBRACE, "}")] + rest;
      ParseStatements(acc, State(LinesTokens(ss) + close, errs)) == Parsed(acc + ss, State(close, errs))
    decreases ss, 0
  {
    hide TryStatement, StmtTokens, ParseStatements, ReadsAs;
    var close := [Token(RBRACE, "}")] + rest;
    if ss == [] {
      assert [] + close == close && acc + [] == acc;
      StatementsDone(acc, State(close, errs));
    } else {
      var more := LinesTokens(ss[1..]) + close;
      LinesStart(ss[1..], close);
      StmtInverts(ss[0], more, errs);
      StatementStart(ss[0]);
      ConcatAssociates(StmtTokens(ss[0]), LinesTokens(ss[1..]), close);
      var s := State(StmtTokens(ss[0]) + more, errs);
      assert s.rest[0] == StmtTokens(ss[0])[0];
      MoreIsNotEnd(ss[1..], close);
      StatementsStep(acc, s, ss[0], more);
      StatementsInvert(ss[1..], acc + [ss[0]], rest, errs);
      assert acc + [ss[0]] + ss[1..] == acc + ss;
    }
  }

  lemma StatementsDone(acc: seq<Stmt>, s: State)
    requires Kind(s) == RBRACE
    ensures ParseStatements(acc, s) == Parsed(acc, s)
  {
    hide TryStatement;
  }

  lemma MoreIsNotEnd(ss: seq<Stmt>, close: seq<Token>)
    requires close != [] && close[0].typ == RBRACE
    ensures var more := LinesTokens(ss) + close; more != [] && more[0].typ != EOF
  {
    LinesStart(ss, close);
    hide LinesTokens;
    if ss == [] {
      assert LinesTokens(ss) == [] by { NoLines(); }
      assert [] + close == close;
    }
  }

  lemma NoLines()
    ensures LinesTokens([]) == []
  {}

  lemma BlockSplits(ss: seq<Stmt>, rest: seq<Token>)
    ensures BlockTokens(ss) + rest == [Token(LBRACE, "{")] + ([NL] + (LinesTokens(ss) + ([Token(RBRACE, "}")] + rest)))
  {
    var lines, close := LinesTokens(ss), [Token(RBRACE, "}")];
    assert BlockTokens(ss) == [Token(LBRACE, "{"), NL] + lines + close;
    hide BlockTokens, LinesTokens;
    ConcatAssociates([Token(LBRACE, "{"), NL] + lines, close, rest);
    TwoItems(Token(LBRACE, "{"), NL, lines, close + rest);
  }

  lemma BlockStep(s: State, lines: State, body: Parsed<seq<Stmt>>, rest: seq<Token>)
    requires s.rest != [] && Kind(s) == LBRACE && SkipNewlines(Advance(s)) == lines
    requires ParseStatements([], lines) == body && body.next == State([Token(RBRACE, "}")] + rest, s.errors)
    ensures ParseBlock(s) == Parsed(body.val, State(rest, s.errors))
  {
    hide ParseStatements;
    assert SkipNewlines(s) == s;
    hide SkipNewlines;
    assert ([Token(RBRACE, "}")] + rest)[1..] == rest;
  }

  lemma {:induction false} BlockInverts(ss: seq<Stmt>, rest: seq<Token>, errs: seq<ParseError>)
    requires forall t | t in ss :: StmtRespects(t) && PrintableStmt(t)
    ensures ParseBlock(State(BlockTokens(ss) + rest, errs)) == Parsed(ss, State(rest, errs))
    decreases ss, 1
  {
    hide ParseStatements, LinesTokens, ParseBlock, BlockTokens, StmtRespects, PrintableStmt;
    var close := [Token(RBRACE, "}")] + rest;
    var lines := LinesTokens(ss) + close;
    var s := State(BlockTokens(ss) + rest, errs);
    BlockSplits(ss, rest);
    assert s.rest[0] == Token(LBRACE, "{") && s.rest[1..] == [NL] + lines;
    LinesStart(ss, close);
    NewlineAt(lines, errs);
    hide ExpectNewline, SkipNewlines, Stops, LineStart;
    StatementsInvert(ss, [], rest, errs);
    assert [] + ss == ss;
    BlockStep(s, State(lines, errs), Parsed(ss, State(close, errs)), rest);
  }

  lemma DispatchBlocks(s: State)
    ensures Kind(s) == KW_IF && s.rest != [] ==> TryStatement(s) == Some(ParseIfStmt(s))
    ensures Kind(s) == KW_FOR && s.rest != [] ==> TryStatement(s) == Some(ParseForStmt(s))
  {
    hide ParseIfStmt, ParseForStmt;
  }

  lemma IfStep(s: State, condition: Parsed<Expr>, body: Parsed<seq<Stmt>>, next: State, otherwise: Parsed<seq<Stmt>>)
    requires s.rest != [] && Kind(s) == KW_IF && ParseExpr(Advance(s)) == condition && ParseBlock(condition.next) == body
    requires SkipNewlines(body.next) == next
    requires otherwise == if Kind(next) == KW_ELSE then ParseBlock(Advance(next)) else Parsed([], next)
    ensures TryStatement(s) == Some(Parsed(IfStmt(condition.val, body.val, otherwise.val), otherwise.next))
  {
    hide ParseExpr, ParseBlock, SkipNewlines, TryStatement;
    DispatchBlocks(s);
  }

  ghost predicate BlockAt(ss: seq<Stmt>, rest: seq<Token>, errs: seq<ParseError>) {
    ParseBlock(State(BlockTokens(ss) + rest, errs)) == Parsed(ss, State(rest, errs))
  }

  function ElseTokens(otherwise: seq<Stmt>, end: seq<Token>): seq<Token> {
    if otherwise == [] then end else [Token(KW_ELSE, "else")] + (BlockTokens(otherwise) + end)
  }

  lemma {:induction false} IfInverts(st: Stmt, rest: seq<Token>, errs: seq<ParseError>)
    requires st.IfStmt? && StmtRespects(st) && PrintableStmt(st) && LineStart(rest)
    ensures ReadsAs(st, State(StmtTokens(st) + rest, errs), rest)
    decreases st, 0
  {
    hide ParseBlock, BlockTokens, StmtTokens, ElseTokens, ReadsAs, Respects, Printable;
    BlockInverts(st.body, ElseTokens(st.otherwise, [NL] + rest), errs);
    BlockInverts(st.otherwise, [NL] + rest, errs);
    IfAssembles(st, rest, errs);
  }

  function AfterBody(next: State): Parsed<seq<Stmt>> {
    if Kind(next) == KW_ELSE then ParseBlock(Advance(next)) else Parsed([], next)
  }

  lemma ElseAt(otherwise: seq<Stmt>, rest: seq<Token>, errs: seq<ParseError>)
    requires LineStart(rest) && BlockAt(otherwise, [NL] + rest, errs)
    ensures var r := AfterBody(SkipNewlines(State(ElseTokens(otherwise, [NL] + rest), errs)));
      r.val == otherwise && (r.next == State(rest, errs) || r.next == State([NL] + rest, errs))
  {
    hide ParseBlock, BlockTokens;
    NewlineAt(rest, errs);
    if otherwise != [] {
      assert ElseTokens(otherwise, [NL] + rest)[1..] == BlockTokens(otherwise) + ([NL] + rest);
    }
  }

  lemma IfAssembles(st: Stmt, rest: seq<Token>, errs: seq<ParseError>)
    requires st.IfStmt? && Respects(st.condition) && LineStart(rest)
    requires BlockAt(st.body, ElseTokens(st.otherwise, [NL] + rest), errs) && BlockAt(st.otherwise, [NL] + rest, errs)
    ensures ReadsAs(st, State(StmtTokens(st) + rest, errs), rest)
  {
    hide LineStart, Stops, SkipNewlines, ParseExpr, ExprTokens, ParseBlock, TryStatement, StmtTokens, BlockTokens,
         Respects, ElseTokens;
    var tail := ElseTokens(st.otherwise, [NL] + rest);
    var inner := BlockTokens(st.body) + tail;
    var s := State(StmtTokens(st) + rest, errs);
    BlockStart(st.body, tail);
    ExprAt(st.condition, inner, errs);
    IfTokensSplit(st, rest);
    assert s.rest[0].typ == KW_IF && s.rest[1..] == ExprTokens(st.condition) + inner;
    ElseAt(st.otherwise, rest, errs);
    var next := SkipNewlines(State(tail, errs));
    IfStep(s, Parsed(st.condition, State(inner, errs)), Parsed(st.body, State(tail, errs)), next, AfterBody(next));
  }

  lemma IfTokensSplit(st: Stmt, rest: seq<Token>)
    requires st.IfStmt?
    ensures var IfStmt(condition, body, otherwise) := st;
      StmtTokens(st) + rest ==
      [Token(KW_IF, "if")] + (ExprTokens(condition) + (BlockTokens(body) + ElseTokens(otherwise, [NL] + rest)))
  {
    hide ExprTokens, BlockTokens;
  }

  lemma BlockStart(ss: seq<Stmt>, rest: seq<Token>)
    ensures (BlockTokens(ss) + rest)[0] == Token(LBRACE, "{") && Stops(0, BlockTokens(ss) + rest)
  {
    hide LinesTokens;
  }

  lemma ForStep(s: State, key: Parsed<string>, val: Parsed<string>, iter: Parsed<Expr>, body: Parsed<seq<Stmt>>)
    requires s.rest != [] && Kind(s) == KW_FOR && ExpectIdent(Advance(s)) == key
    requires val == if Kind(key.next) == COMMA then ExpectIdent(Advance(key.next)) else Parsed("", key.next)
    requires ParseExpr(Expect(val.next, KW_IN)) == iter && ParseBlock(iter.next) == body
    ensures TryStatement(s) == Some(Parsed(ForStmt(key.val, val.val, iter.val, body.val), body.next))
  {
    hide ParseExpr, ParseBlock, ExpectIdent, Expect, TryStatement;
    DispatchBlocks(s);
  }

  lemma {:induction false} ForInverts(st: Stmt, rest: seq<Token>, errs: seq<ParseError>)
    requires st.ForStmt? && StmtRespects(st) && PrintableStmt(st) && LineStart(rest)
    ensures ReadsAs(st, State(StmtTokens(st) + rest, errs), rest)
    decreases st, 0
  {
    hide ParseBlock, BlockTokens, StmtTokens, ReadsAs, Respects, Printable;
    BlockInverts(st.body, [NL] + rest, errs);
    ForAssembles(st, rest, errs);
  }

  function ForTail(val: string, tail: seq<Token>): seq<Token> {
    if val == "" then tail else [COMMA_TOKEN, IdentToken(val)] + tail
  }

  lemma ValAt(val: string, tail: seq<Token>, errs: seq<ParseError>)
    requires tail != [] && tail[0].typ != COMMA
    ensures var s := State(ForTail(val, tail), errs);
      (if Kind(s) == COMMA then ExpectIdent(Advance(s)) else Parsed("", s)) == Parsed(val, State(tail, errs))
  {
    if val != "" {
      var valTail := ForTail(val, tail);
      assert valTail[1..] == [IdentToken(val)] + tail && valTail[1..][1..] == tail;
    }
  }

  lemma TwoTokens(a: Token, b: Token, tail: seq<Token>)
    ensures ([a, b] + tail)[0] == a && ([a, b] + tail)[1..][0] == b && ([a, b] + tail)[1..][1..] == tail
  {}

  lemma ReadsWithNewline(st: Stmt, s: State, rest: seq<Token>)
    requires TryStatement(s) == Some(Parsed(st, State([NL] + rest, s.errors)))
    ensures ReadsAs(st, s, rest)
  {
    hide TryStatement;
  }

  lemma ForKeyAt(key: string, tail: seq<Token>, errs: seq<ParseError>)
    ensures var s := State([Token(KW_FOR, "for"), IdentToken(key)] + tail, errs);
      s.rest != [] && Kind(s) == KW_FOR && ExpectIdent(Advance(s)) == Parsed(key, State(tail, errs))
  {
    TwoTokens(Token(KW_FOR, "for"), IdentToken(key), tail);
  }

  lemma InAt(more: seq<Token>, errs: seq<ParseError>)
    ensures Expect(State([Token(KW_IN, "in")] + more, errs), KW_IN) == State(more, errs)
  {
    assert ([Token(KW_IN, "in")] + more)[1..] == more;
  }

  lemma ForAssembles(st: Stmt, rest: seq<Token>, errs: seq<ParseError>)
    requires st.ForStmt? && Respects(st.iter) && LineStart(rest) && BlockAt(st.body, [NL] + rest, errs)
    ensures ReadsAs(st, State(StmtTokens(st) + rest, errs), rest)
  {
    hide LineStart, Stops, ParseExpr, ExprTokens, ParseBlock, TryStatement, StmtTokens, BlockTokens, Respects, ForTail, ExpectIdent,
         Expect, ReadsAs;
    var end := [NL] + rest;
    var inner := BlockTokens(st.body) + end;
    var tail := [Token(KW_IN, "in")] + (ExprTokens(st.iter) + inner);
    var valTail := ForTail(st.val, tail);
    BlockStart(st.body, end);
    ExprAt(st.iter, inner, errs);
    ForTokensSplit(st, rest);
    ValAt(st.val, tail, errs);
    ForKeyAt(st.key, valTail, errs);
    InAt(ExprTokens(st.iter) + inner, errs);
    var s := State(StmtTokens(st) + rest, errs);
    ForStep(s, Parsed(st.key, State(valTail, errs)), Parsed(st.val, State(tail, errs)),
            Parsed(st.iter, State(inner, errs)), Parsed(st.body, State(end, errs)));
    ReadsWithNewline(st, s, rest);
  }

  lemma ForTokensSplit(st: Stmt, rest: seq<Token>)
    requires st.ForStmt?
    ensures var ForStmt(key, val, iter, body) := st;
      var tail := [Token(KW_IN, "in")] + (ExprTokens(iter) + (BlockTokens(body) + ([NL] + rest)));
      StmtTokens(st) + rest ==
      [Token(KW_FOR, "for"), IdentToken(key)] + ForTail(val, tail)
  {
    hide ExprTokens, BlockTokens;
    var ForStmt(key, val, iter, body) := st;
    var head, names := [Token(KW_FOR, "for"), IdentToken(key)], if val == "" then [] else [COMMA_TOKEN, IdentToken(val)];
    var inner := ExprTokens(iter) + (BlockTokens(body) + ([NL] + rest));
    assert StmtTokens(st) == head + names + [Token(KW_IN, "in")] + ExprTokens(iter) + BlockTokens(body) + [NL];
    hide StmtTokens;
    FiveParts(head + names, [Token(KW_IN, "in")], ExprTokens(iter), BlockTokens(body), [NL], rest);
    ConcatAssociates(head, names, [Token(KW_IN, "in")] + inner);
    assert [] + ([Token(KW_IN, "in")] + inner) == [Token(KW_IN, "in")] + inner;
  }
}
