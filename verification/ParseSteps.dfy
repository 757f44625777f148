/** What one step of each parser function is, one case at a time. */
module ParseSteps {
  import opened Text
  import opened Tokens
  import opened Ast
  import opened ParseSpec

  /** One case of a primary expression at a time. */
  lemma PrimaryLiteral(s: State)
    ensures var r, lit, next := ParsePrimary(s), Current(s).literal, Advance(s);
      match Kind(s)
      case STRING => r == Parsed(StringLit(lit), next)
      case NUMBER => r == Parsed(NumberLit(lit), next)
      case TRUE => r == Parsed(BoolLit(true), next)
      case FALSE => r == Parsed(BoolLit(false), next)
      case HEREDOC_START =>
        if Kind(next) == HEREDOC_BODY
        then r == Parsed(Heredoc(Current(next).literal), Advance(next))
        else r == Parsed(Heredoc(""), next)
      case LBRACE => true
      case LBRACKET => true
      case LPAREN => true
      case IDENT => true
      case _ => r == Parsed(StringLit(""), Advance(Report(s, UnexpectedInExpression)))
  {
    hide ParseExpr, ParseArgs, ParseFields, ParseElements, ParseDots, SkipNewlines;
  }

  lemma PrimaryNested(s: State)
    ensures Kind(s) == LBRACE ==> var r := ParseFields([], SkipNewlines(Advance(s)));
      ParsePrimary(s) == Parsed(ObjectLit(r.val), Expect(r.next, RBRACE))
    ensures Kind(s) == LBRACKET ==> var r := ParseElements([], SkipNewlines(Advance(s)));
      ParsePrimary(s) == Parsed(ListLit(r.val), Expect(r.next, RBRACKET))
    ensures Kind(s) == LPAREN ==> var r := ParseExpr(Advance(s));
      ParsePrimary(s) == Parsed(r.val, Expect(r.next, RPAREN))
  {
    hide ParseExpr, ParseArgs, ParseFields, ParseElements, ParseDots, SkipNewlines, Expect;
  }

  lemma PrimaryName(s: State)
    ensures Kind(s) == IDENT ==> var name, t := Current(s).literal, Advance(s);
      var r := ParseArgs([], Advance(t));
      ParsePrimary(s) == if Kind(t) == LPAREN then Parsed(Call(name, r.val), Expect(r.next, RPAREN))
        else ParseDots(Ident(name), t)
  {
    hide ParseExpr, ParseArgs, ParseFields, ParseElements, ParseDots, SkipNewlines, Expect;
  }

  function KindOf(op: BinOp): TokenType {
    match op
    case Or => KW_OR
    case And => KW_AND
    case Eq => EQ
    case Neq => NEQ
    case Plus => PLUS
  }

  /** Under a leading `not` the unary level is entered again; otherwise it is a primary expression. */
  lemma UnaryUnfolds(s: State)
    ensures Kind(s) == KW_NOT ==>
      var r := ParseLevel(UNARY, Advance(s)); ParseLevel(UNARY, s) == Parsed(Not(r.val), r.next)
    ensures Kind(s) != KW_NOT ==> ParseLevel(UNARY, s) == ParsePrimary(s)
    ensures ParseLevel(PRIMARY, s) == ParsePrimary(s)
  {
    hide ParsePrimary;
  }

  lemma FoldEnds(k: nat, left: Expr, s: State)
    requires k < UNARY
    requires k == 0 ==> Kind(s) != KW_OR
    requires k == 1 ==> Kind(s) != KW_AND
    requires k == 2 ==> Kind(s) != EQ && Kind(s) != NEQ
    requires k == 3 ==> Kind(s) != PLUS
    ensures Fold(k, left, s) == Parsed(left, s)
  {
    hide ParseLevel;
  }

  lemma FoldGoesOn(k: nat, left: Expr, op: BinOp, s: State)
    requires k == LevelOf(op) && Kind(s) == KindOf(op)
    ensures var r := ParseLevel(k + 1, Advance(s)); Fold(k, left, s) == Fold(k, Binary(left, op, r.val), r.next)
  {
    hide ParseLevel;
  }

  lemma LevelUnfolds(k: nat, s: State)
    requires k < UNARY
    ensures var r := ParseLevel(k + 1, s); ParseLevel(k, s) == Fold(k, r.val, r.next)
  {
    hide ParsePrimary, Fold;
  }

  lemma FieldsDone(fields: seq<Field>, s: State)
    requires Kind(s) == RBRACE
    ensures ParseFields(fields, s) == Parsed(fields, s)
  {
    hide ParseField;
  }

  lemma ElementsDone(elements: seq<Expr>, s: State)
    requires Kind(s) == RBRACKET
    ensures ParseElements(elements, s) == Parsed(elements, s)
  {
    hide ParseExpr;
  }

  lemma ArgsDone(acc: seq<Expr>, s: State)
    requires Kind(s) == RPAREN
    ensures ParseArgs(acc, s) == Parsed(acc, s)
  {
    hide ParseExpr;
  }

  lemma StatementsEnd(stmts: seq<Stmt>, s: State)
    requires Kind(s) == RBRACE || AtEnd(s)
    ensures ParseStatements(stmts, s) == Parsed(stmts, s)
  {
    hide TryStatement;
  }

  lemma StatementsGoOn(stmts: seq<Stmt>, s: State)
    requires Kind(s) != RBRACE && !AtEnd(s)
    ensures var t := SkipNewlines(s);
      var r := TryStatement(t);
      ParseStatements(stmts, s) ==
      if Kind(t) == RBRACE then ParseStatements(stmts, t)
      else if r.Some? then ParseStatements(stmts + [r.value.val], r.value.next)
      else ParseStatements(stmts, Advance(Report(t, UnexpectedInBlock)))
  {
    hide TryStatement, SkipNewlines;
  }

  lemma EnvUnfolds(s: State)
    ensures var name := ExpectIdent(Advance(s));
      var t := name.next;
      var optional, value := SkipOptional(Advance(t)), ParseEnvValue(name.val, Advance(t));
      ParseEnvDecl(s) ==
      if Kind(t) == KW_SECRET then
        Parsed(EnvDecl(name.val, SecretSource, "", None, None, optional.val), ExpectNewline(optional.next))
      else if Kind(t) == KW_TEXT then
        Parsed(EnvDecl(name.val, TextSource, "", None, None, optional.val), ExpectNewline(optional.next))
      else if Kind(t) == ASSIGN then Parsed(value.val, ExpectNewline(value.next))
      else Parsed(EnvDecl(name.val, Fixed, "", None, None, false), ExpectNewline(Report(t, WantedEnvForm)))
  {
    hide ExpectIdent, SkipOptional, ParseEnvValue, ExpectNewline, Advance, Report;
  }

  lemma NoDeclaration(s: State)
    ensures TryDeclaration(s).Some? <==> Kind(s) in {KW_AGENT, KW_EXECUTABLE, KW_GIT_CREDENTIAL,
      KW_USE_ENV_BUNDLE, KW_USE_CONFIG_BUNDLE, KW_REPO, KW_BRANCH, KW_REMOVE, KW_PROMPT, KW_PROMPT_POSITION,
      KW_CAPABILITY, KW_CONFIG, KW_ENV, KW_MCP, KW_SKILLS, KW_KNOWLEDGE, KW_SETUP, KW_MODE}
  {}

  lemma ItemsEnd(p: Program, s: State)
    requires AtEnd(s)
    ensures ParseItems(p, s) == Parsed(p, s)
  {
    hide TryDeclaration, TryStatement;
  }

  lemma ItemsGoOn(p: Program, s: State)
    requires !AtEnd(s)
    ensures var t := SkipNewlines(s);
      var d, st := TryDeclaration(t), TryStatement(t);
      ParseItems(p, s) ==
      if AtEnd(t) then ParseItems(p, t)
      else if d.Some? then ParseItems(p.(declarations := p.declarations + [d.value.val]), d.value.next)
      else if st.Some? then ParseItems(p.(statements := p.statements + [st.value.val]), st.value.next)
      else ParseItems(p, Advance(Report(t, UnexpectedAtTop)))
  {
    hide TryDeclaration, TryStatement, SkipNewlines;
    var t := SkipNewlines(s);
    if AtEnd(t) { ItemsEnd(p, t); }
  }

  /** A for statement from the states between its parts. */
  lemma ForParts(s: State, key: Parsed<string>, val: Parsed<string>, iter: Parsed<Expr>, body: Parsed<seq<Stmt>>)
    requires s.rest != [] && key == ExpectIdent(Advance(s))
    requires Kind(key.next) == COMMA ==> val == ExpectIdent(Advance(key.next))
    requires Kind(key.next) != COMMA ==> val == Parsed("", key.next)
    requires iter == ParseExpr(Expect(val.next, KW_IN)) && body == ParseBlock(iter.next)
    ensures ParseForStmt(s) == Parsed(ForStmt(key.val, val.val, iter.val, body.val), body.next)
  {
    hide ParseExpr, ParseBlock, ExpectIdent, Expect;
  }
}
