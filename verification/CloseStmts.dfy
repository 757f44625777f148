/** Normal-form closure for statements and blocks. */
module CloseStmts {
  import opened Text
  import opened Tokens
  import opened Ast
  import opened ParseSpec
  import opened ParseSteps
  import opened LexWords
  import opened LexPrinted
  import opened LexLines
  import opened Levels
  import opened Closure

  lemma {:induction false} PrintableWeakens(e: Expr)
    requires Printable(e, false)
    ensures Printable(e, true)
  {
    match e
    case Binary(_, _, r) => PrintableWeakens(r);
    case Not(x) => PrintableWeakens(x);
    case _ =>
  }

  /** A good expression may also end its line. */
  lemma GoodAtEnd(plain: bool, e: Expr)
    requires Good(plain, e)
    ensures Respects(e) && (plain ==> Printable(e, true) && Printable(e, false))
  {
    if plain { PrintableWeakens(e); }
  }

  ghost predicate GuardGood(plain: bool, guard: Option<Expr>) { guard.Some? ==> Good(plain, guard.value) }

  lemma GuardGoodAtEnd(plain: bool, guard: Option<Expr>)
    requires GuardGood(plain, guard)
    ensures GuardRespects(guard) && (plain ==> PrintableGuard(guard))
  {
    hide Respects, Printable;
    if guard.Some? { GoodAtEnd(plain, guard.value); }
  }

  ghost predicate StmtGood(plain: bool, st: Stmt) { StmtRespects(st) && (plain ==> PrintableStmt(st)) }

  ghost predicate StmtsGood(plain: bool, ss: seq<Stmt>) { forall st | st in ss :: StmtGood(plain, st) }

  lemma GuardCloses(plain: bool, s: State)
    requires Clean(plain, s) && Quiet(s, ParseGuard(s).next)
    ensures GuardGood(plain, ParseGuard(s).val) && Clean(plain, ParseGuard(s).next)
  {
    hide ParseExpr, Good, Clean;
    CleanAdvance(plain, s);
    if Kind(s) == KW_WHEN { ExprCloses(plain, Advance(s)); }
  }

  lemma {:induction false} ArgListCloses(plain: bool, args: seq<Expr>, s: State)
    requires Fits(plain, s) && Quiet(s, ParseArgList(args, s).next) && AllGood(plain, args)
    ensures var r := ParseArgList(args, s); AllGood(plain, r.val) && Fits(plain, r.next)
    decreases |s.rest|
  {
    hide ParseExpr, Good, Clean;
    if !IsNewlineOrEnd(s) && Kind(s) != KW_WHEN {
      var r := ParseExpr(s);
      ExprCloses(plain, s);
      ArgListCloses(plain, args + [r.val], r.next);
    }
  }

  lemma ArgStmtGood(plain: bool, args: seq<Expr>, guard: Option<Expr>)
    requires AllGood(plain, args) && GuardGood(plain, guard)
    ensures StmtGood(plain, ArgStmt(args, guard))
  {
    hide Respects, Printable;
    GuardGoodAtEnd(plain, guard);
  }

  lemma ArgStmtCloses(plain: bool, s: State)
    requires Clean(plain, s) && Kind(s) == KW_ARG && Quiet(s, ParseArgStmt(s).next)
    ensures var r := ParseArgStmt(s); StmtGood(plain, r.val) && Clean(plain, r.next)
  {
    hide ParseArgList, ParseGuard, ExpectNewline, Clean, Good, StmtGood;
    CleanAdvance(plain, s);
    var args := ParseArgList([], Advance(s));
    ArgListCloses(plain, [], Advance(s));
    var guard := ParseGuard(args.next);
    GuardCloses(plain, args.next);
    ArgStmtGood(plain, args.val, guard.val);
    ExpectNewlineClean(plain, guard.next);
  }

  lemma IntIsMode(s: State)
    requires Quiet(s, ExpectInt(s).next)
    ensures 0 <= ExpectInt(s).val <= MAX_INT64 && ExpectInt(s).next == Advance(s)
  {}

  lemma FileStmtGood(plain: bool, path: Expr, content: Expr, mode: int, guard: Option<Expr>)
    requires Good(plain, path) && Good(plain, content) && GuardGood(plain, guard) && 0 <= mode <= MAX_INT64
    ensures StmtGood(plain, FileStmt(path, content, mode, guard))
  {
    hide Respects, Printable;
    GuardGoodAtEnd(plain, guard);
    GoodAtEnd(plain, path);
    GoodAtEnd(plain, content);
  }

  lemma FileStmtCloses(plain: bool, s: State)
    requires Clean(plain, s) && Kind(s) == KW_FILE && Quiet(s, ParseFileStmt(s).next)
    ensures var r := ParseFileStmt(s); StmtGood(plain, r.val) && Clean(plain, r.next)
  {
    hide ParseExpr, ParseGuard, ExpectInt, ExpectNewline, Clean, Good, StmtGood;
    CleanAdvance(plain, s);
    var path := ParseExpr(Advance(s));
    var content := ParseExpr(path.next);
    ExprCloses(plain, Advance(s));
    ExprCloses(plain, path.next);
    var mode := if Kind(content.next) == NUMBER then ExpectInt(content.next) else Parsed(0, content.next);
    if Kind(content.next) == NUMBER { IntIsMode(content.next); }
    CleanAdvance(plain, content.next);
    GuardCloses(plain, mode.next);
    var guard := ParseGuard(mode.next);
    FileStmtGood(plain, path.val, content.val, mode.val, guard.val);
    ExpectNewlineClean(plain, guard.next);
  }

  lemma MkdirStmtCloses(plain: bool, s: State)
    requires Clean(plain, s) && Kind(s) == KW_MKDIR && Quiet(s, ParseMkdirStmt(s).next)
    ensures var r := ParseMkdirStmt(s); StmtGood(plain, r.val) && Clean(plain, r.next)
  {
    hide ParseExpr, ExpectNewline, Clean, Respects, Printable;
    CleanAdvance(plain, s);
    var path := ParseExpr(Advance(s));
    ExprCloses(plain, Advance(s));
    GoodAtEnd(plain, path.val);
    ExpectNewlineClean(plain, path.next);
  }

  lemma AssignStmtCloses(plain: bool, s: State)
    requires Clean(plain, s) && Kind(s) == IDENT && PeekIs(s, ASSIGN) && Quiet(s, ParseAssignStmt(s).next)
    ensures var r := ParseAssignStmt(s); StmtGood(plain, r.val) && Clean(plain, r.next)
  {
    hide ParseExpr, ExpectNewline, Clean, Respects, Printable, IsName;
    CleanAdvance(plain, s);
    CleanAdvance(plain, Advance(s));
    var t := Advance(Advance(s));
    ExprCloses(plain, t);
    GoodAtEnd(plain, ParseExpr(t).val);
    ExpectNewlineClean(plain, ParseExpr(t).next);
  }

  lemma IfStmtGood(plain: bool, condition: Expr, body: seq<Stmt>, otherwise: seq<Stmt>)
    requires Good(plain, condition) && StmtsGood(plain, body) && StmtsGood(plain, otherwise)
    ensures StmtGood(plain, IfStmt(condition, body, otherwise))
  {
    hide Respects, Printable;
  }

  lemma {:induction false} IfStmtCloses(plain: bool, s: State)
    requires Clean(plain, s) && Kind(s) == KW_IF && s.rest != [] && Quiet(s, ParseIfStmt(s).next)
    ensures var r := ParseIfStmt(s); StmtGood(plain, r.val) && Clean(plain, r.next)
    decreases |s.rest|, 0
  {
    hide ParseExpr, ParseBlock, SkipNewlines, Clean, Good, StmtGood, StmtsGood;
    CleanAdvance(plain, s);
    var condition := ParseExpr(Advance(s));
    ExprCloses(plain, Advance(s));
    var body := ParseBlock(condition.next);
    BlockCloses(plain, condition.next);
    SkipsClean(plain, body.next);
    var t := SkipNewlines(body.next);
    CleanAdvance(plain, t);
    NoStmts(plain);
    if Kind(t) == KW_ELSE { BlockCloses(plain, Advance(t)); }
    IfStmtGood(plain, condition.val, body.val, ParseIfStmt(s).val.otherwise);
  }

  lemma NoStmts(plain: bool)
    ensures StmtsGood(plain, [])
  {}

  lemma ForStmtGood(plain: bool, key: string, val: string, iter: Expr, body: seq<Stmt>)
    requires Good(plain, iter) && StmtsGood(plain, body) && (plain ==> IsName(key) && (val == "" || IsName(val)))
    ensures StmtGood(plain, ForStmt(key, val, iter, body))
  {
    hide Respects, Printable, IsName;
  }

  lemma IdentClean(plain: bool, s: State)
    requires Clean(plain, s) && Quiet(s, ExpectIdent(s).next)
    ensures Clean(plain, ExpectIdent(s).next) && (plain ==> IsName(ExpectIdent(s).val))
  {
    hide Clean, IsName;
    CleanAdvance(plain, s);
  }

  lemma {:induction false} ForStmtCloses(plain: bool, s: State)
    requires Clean(plain, s) && Kind(s) == KW_FOR && s.rest != [] && Quiet(s, ParseForStmt(s).next)
    ensures var r := ParseForStmt(s); StmtGood(plain, r.val) && Clean(plain, r.next)
    decreases |s.rest|, 0
  {
    hide ParseExpr, ParseBlock, ExpectIdent, Expect, Clean, Good, StmtGood, StmtsGood, IsName;
    CleanAdvance(plain, s);
    var key := ExpectIdent(Advance(s));
    IdentClean(plain, Advance(s));
    CleanAdvance(plain, key.next);
    var val := if Kind(key.next) == COMMA then ExpectIdent(Advance(key.next)) else Parsed("", key.next);
    if Kind(key.next) == COMMA { IdentClean(plain, Advance(key.next)); }
    ExpectFits(plain, val.next, KW_IN);
    var iter := ParseExpr(Expect(val.next, KW_IN));
    ExprCloses(plain, Expect(val.next, KW_IN));
    BlockCloses(plain, iter.next);
    ForStmtGood(plain, key.val, val.val, iter.val, ParseBlock(iter.next).val);
  }

  lemma {:induction false} TryStatementCloses(plain: bool, s: State)
    requires Clean(plain, s) && TryStatement(s).Some? && Quiet(s, TryStatement(s).value.next)
    ensures var r := TryStatement(s).value; StmtGood(plain, r.val) && Clean(plain, r.next)
    decreases |s.rest|, 1
  {
    hide ParseArgStmt, ParseFileStmt, ParseMkdirStmt, ParseAssignStmt, ParseIfStmt, ParseForStmt, Clean, StmtGood;
    match Kind(s)
    case KW_ARG => ArgStmtCloses(plain, s);
    case KW_FILE => FileStmtCloses(plain, s);
    case KW_MKDIR => MkdirStmtCloses(plain, s);
    case KW_IF => IfStmtCloses(plain, s);
    case KW_FOR => ForStmtCloses(plain, s);
    case _ => AssignStmtCloses(plain, s);
  }

  lemma {:induction false} BlockCloses(plain: bool, s: State)
    requires Clean(plain, s) && Quiet(s, ParseBlock(s).next)
    ensures var r := ParseBlock(s); StmtsGood(plain, r.val) && Clean(plain, r.next)
    decreases |s.rest|, 3
  {
    hide ParseStatements, SkipNewlines, Expect, Clean, StmtsGood;
    var t := SkipNewlines(s);
    SkipsClean(plain, s);
    ExpectFits(plain, t, LBRACE);
    var u := Expect(t, LBRACE);
    SkipsClean(plain, u);
    NoStmts(plain);
    StatementsClose(plain, [], SkipNewlines(u));
    ExpectFits(plain, ParseStatements([], SkipNewlines(u)).next, RBRACE);
  }

  lemma GoodSnoc(plain: bool, stmts: seq<Stmt>, st: Stmt)
    requires StmtsGood(plain, stmts) && StmtGood(plain, st)
    ensures StmtsGood(plain, stmts + [st])
  {
    hide StmtGood;
  }

  lemma {:induction false} StatementsClose(plain: bool, stmts: seq<Stmt>, s: State)
    requires Clean(plain, s) && Quiet(s, ParseStatements(stmts, s).next) && StmtsGood(plain, stmts)
    ensures var r := ParseStatements(stmts, s); StmtsGood(plain, r.val) && Clean(plain, r.next)
    decreases |s.rest|, 2
  {
    hide TryStatement, SkipNewlines, Clean, StmtGood, StmtsGood, ParseStatements;
    if Kind(s) == RBRACE || AtEnd(s) {
      StatementsEnd(stmts, s);
    } else {
      var t := SkipNewlines(s);
      SkipsClean(plain, s);
      StatementsGoOn(stmts, s);
      if Kind(t) == RBRACE {
        StatementsEnd(stmts, t);
      } else {
        var r := TryStatement(t);
        if r.Some? {
          TryStatementCloses(plain, t);
          GoodSnoc(plain, stmts, r.value.val);
          StatementsClose(plain, stmts + [r.value.val], r.value.next);
        }
      }
    }
  }
}
