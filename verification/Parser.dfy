/** The parser as the program runs it: a cursor over the tokens and a list of errors, each method against its function. */
module Parser {
  import opened Tokens
  import opened Text
  import opened Ast
  import Spec = ParseSpec
  import opened ParseSteps
  import Lexer

  class Parser {
    const tokens: seq<Token>
    var pos: nat
    var errors: seq<Spec.ParseError>

    ghost predicate Valid()
      reads this
    {
      pos <= |tokens|
    }

    /** What is still unread, and the errors so far. */
    ghost function Now(): Spec.State
      requires Valid()
      reads this
    {
      Spec.State(tokens[pos..], errors)
    }

    constructor (ts: seq<Token>)
      ensures Valid() && Now() == Spec.State(ts, [])
    {
      tokens := ts;
      pos := 0;
      errors := [];
    }

    // ---------------------------------------------------------------- token access

    function Current(): (t: Token)
      requires Valid()
      reads this
      ensures t == Spec.Current(Now())
    {
      if pos < |tokens| then tokens[pos] else Spec.END
    }

    predicate CurrentIs(t: TokenType)
      requires Valid()
      reads this
      ensures CurrentIs(t) == (Spec.Kind(Now()) == t)
    {
      Current().typ == t
    }

    predicate AtEnd()
      requires Valid()
      reads this
      ensures AtEnd() == Spec.AtEnd(Now())
    {
      pos >= |tokens| || tokens[pos].typ == EOF
    }

    predicate PeekIs(t: TokenType)
      requires Valid()
      reads this
      ensures PeekIs(t) == Spec.PeekIs(Now(), t)
    {
      pos + 1 < |tokens| && tokens[pos + 1].typ == t
    }

    method Advance()
      requires Valid()
      modifies this`pos
      ensures Valid() && Now() == Spec.Advance(old(Now()))
    {
      if pos < |tokens| {
        assert tokens[pos..][1..] == tokens[pos + 1..];
        pos := pos + 1;
      }
    }

    method Report(c: Spec.Complaint)
      requires Valid()
      modifies this`errors
      ensures Valid() && Now() == Spec.Report(old(Now()), c)
    {
      errors := errors + [Spec.ParseError(c, Current())];
    }

    method Expect(t: TokenType)
      requires Valid()
      modifies this
      ensures Valid() && Now() == Spec.Expect(old(Now()), t)
    {
      if !CurrentIs(t) {
        Report(Spec.Wanted(t));
        return;
      }
      Advance();
    }

    method ExpectIdent() returns (name: string)
      requires Valid()
      modifies this
      ensures Valid() && Spec.Parsed(name, Now()) == Spec.ExpectIdent(old(Now()))
    {
      var tok := Current();
      if tok.typ != IDENT {
        Report(Spec.WantedIdentifier);
        Advance();
        return "";
      }
      Advance();
      return tok.literal;
    }

    method ExpectIdentOrString() returns (name: string)
      requires Valid()
      modifies this
      ensures Valid() && Spec.Parsed(name, Now()) == Spec.ExpectIdentOrString(old(Now()))
    {
      var tok := Current();
      if tok.typ == IDENT || tok.typ == STRING {
        Advance();
        return tok.literal;
      }
      Report(Spec.WantedName);
      Advance();
      return "";
    }

    method ExpectString() returns (text: string)
      requires Valid()
      modifies this
      ensures Valid() && Spec.Parsed(text, Now()) == Spec.ExpectString(old(Now()))
    {
      var tok := Current();
      if tok.typ != STRING {
        Report(Spec.WantedString);
        Advance();
        return "";
      }
      Advance();
      return tok.literal;
    }

    method ExpectInt() returns (n: int)
      requires Valid()
      modifies this
      ensures Valid() && Spec.Parsed(n, Now()) == Spec.ExpectInt(old(Now()))
    {
      hide ParseInt;
      var tok := Current();
      if tok.typ != NUMBER {
        Report(Spec.WantedNumber);
        Advance();
        return 0;
      }
      var lit := tok.literal;
      if Spec.LooksOctal(lit) {
        var octal := ParseInt(lit, 8);
        if octal.Some? {
          Advance();
          return octal.value;
        }
      }
      var decimal := ParseInt(lit, 10);
      if decimal.None? {
        Report(Spec.BadInteger);
        Advance();
        return 0;
      }
      Advance();
      return decimal.value;
    }

    method ParseLiteralValue() returns (v: Value)
      requires Valid()
      modifies this
      ensures Valid() && Spec.Parsed(v, Now()) == Spec.ParseLiteralValue(old(Now()))
    {
      hide Spec.FloatOf;
      var tok := Current();
      match tok.typ {
        case STRING => v := StrValue(tok.literal);
        case NUMBER => v := Spec.FloatOf(tok.literal);
        case TRUE => v := BoolValue(true);
        case FALSE => v := BoolValue(false);
        case _ =>
          Report(Spec.WantedLiteral);
          v := NoValue;
      }
      Advance();
    }

    predicate IsNewlineOrEnd()
      requires Valid()
      reads this
      ensures IsNewlineOrEnd() == Spec.IsNewlineOrEnd(Now())
    {
      AtEnd() || CurrentIs(NEWLINE) || CurrentIs(COMMENT)
    }

    method ExpectNewline()
      requires Valid()
      modifies this`pos
      ensures Valid() && Now() == Spec.ExpectNewline(old(Now()))
    {
      while !AtEnd() && CurrentIs(COMMENT)
        invariant Valid() && Spec.SkipComments(Now()) == Spec.SkipComments(old(Now()))
        decreases |tokens| - pos
      {
        Advance();
      }
      if CurrentIs(NEWLINE) { Advance(); }
    }

    method SkipNewlines()
      requires Valid()
      modifies this`pos
      ensures Valid() && Now() == Spec.SkipNewlines(old(Now()))
    {
      while CurrentIs(NEWLINE) || CurrentIs(COMMENT)
        invariant Valid() && Spec.SkipNewlines(Now()) == Spec.SkipNewlines(old(Now()))
        decreases |tokens| - pos
      {
        Advance();
      }
    }

    method SkipComma()
      requires Valid()
      modifies this`pos
      ensures Valid() && Now() == Spec.SkipComma(old(Now()))
    {
      if CurrentIs(COMMA) { Advance(); }
    }

    // ---------------------------------------------------------------- expressions

    method ParseExpr() returns (e: Expr)
      requires Valid()
      modifies this
      ensures Valid() && Spec.Parsed(e, Now()) == Spec.ParseExpr(old(Now()))
      decreases |tokens| - pos, 11
    {
      hide Spec.ParseLevel;
      e := ParseOr();
    }

    method ParseOr() returns (left: Expr)
      requires Valid()
      modifies this
      ensures Valid() && Spec.Parsed(left, Now()) == Spec.ParseLevel(0, old(Now()))
      decreases |tokens| - pos, 10
    {
      hide Spec.ParseLevel, Spec.Fold, Spec.Advance;
      LevelUnfolds(0, Now());
      left := ParseAnd();
      while CurrentIs(KW_OR)
        invariant Valid() && Spec.Fold(0, left, Now()) == Spec.ParseLevel(0, old(Now()))
        decreases |tokens| - pos
      {
        FoldGoesOn(0, left, Or, Now());
        Advance();
        var right := ParseAnd();
        left := Binary(left, Or, right);
      }
      FoldEnds(0, left, Now());
    }

    method ParseAnd() returns (left: Expr)
      requires Valid()
      modifies this
      ensures Valid() && Spec.Parsed(left, Now()) == Spec.ParseLevel(1, old(Now()))
      decreases |tokens| - pos, 9
    {
      hide Spec.ParseLevel, Spec.Fold, Spec.Advance;
      LevelUnfolds(1, Now());
      left := ParseEquality();
      while CurrentIs(KW_AND)
        invariant Valid() && Spec.Fold(1, left, Now()) == Spec.ParseLevel(1, old(Now()))
        decreases |tokens| - pos
      {
        FoldGoesOn(1, left, And, Now());
        Advance();
        var right := ParseEquality();
        left := Binary(left, And, right);
      }
      FoldEnds(1, left, Now());
    }

    method ParseEquality() returns (left: Expr)
      requires Valid()
      modifies this
      ensures Valid() && Spec.Parsed(left, Now()) == Spec.ParseLevel(2, old(Now()))
      decreases |tokens| - pos, 8
    {
      hide Spec.ParseLevel, Spec.Fold, Spec.Advance;
      LevelUnfolds(2, Now());
      left := ParseAddition();
      while CurrentIs(EQ) || CurrentIs(NEQ)
        invariant Valid() && Spec.Fold(2, left, Now()) == Spec.ParseLevel(2, old(Now()))
        decreases |tokens| - pos
      {
        var op := if CurrentIs(EQ) then Eq else Neq;
        FoldGoesOn(2, left, op, Now());
        Advance();
        var right := ParseAddition();
        left := Binary(left, op, right);
      }
      FoldEnds(2, left, Now());
    }

    method ParseAddition() returns (left: Expr)
      requires Valid()
      modifies this
      ensures Valid() && Spec.Parsed(left, Now()) == Spec.ParseLevel(3, old(Now()))
      decreases |tokens| - pos, 7
    {
      hide Spec.ParseLevel, Spec.Fold, Spec.Advance;
      LevelUnfolds(3, Now());
      left := ParseUnary();
      while CurrentIs(PLUS)
        invariant Valid() && Spec.Fold(3, left, Now()) == Spec.ParseLevel(3, old(Now()))
        decreases |tokens| - pos
      {
        FoldGoesOn(3, left, Plus, Now());
        Advance();
        var right := ParseUnary();
        left := Binary(left, Plus, right);
      }
      FoldEnds(3, left, Now());
    }

    method ParseUnary() returns (e: Expr)
      requires Valid()
      modifies this
      ensures Valid() && Spec.Parsed(e, Now()) == Spec.ParseLevel(Spec.UNARY, old(Now()))
      decreases |tokens| - pos, 6
    {
      hide Spec.ParsePrimary;
      if CurrentIs(KW_NOT) {
        Advance();
        var operand := ParseUnary();
        return Not(operand);
      }
      e := ParsePrimary();
    }

    method ParsePrimary() returns (e: Expr)
      requires Valid()
      modifies this
      ensures Valid() && Spec.Parsed(e, Now()) == Spec.ParsePrimary(old(Now()))
      decreases |tokens| - pos, 5
    {
      hide Spec.ParsePrimary, Spec.ParseExpr, Spec.ParseArgs, Spec.ParseFields, Spec.ParseElements, Spec.ParseDots,
           Spec.Expect, Spec.SkipNewlines;
      PrimaryLiteral(Now());
      PrimaryNested(Now());
      PrimaryName(Now());
      var tok := Current();
      match tok.typ {
        case STRING =>
          Advance();
          return StringLit(tok.literal);
        case NUMBER =>
          Advance();
          return NumberLit(tok.literal);
        case TRUE =>
          Advance();
          return BoolLit(true);
        case FALSE =>
          Advance();
          return BoolLit(false);
        case HEREDOC_START =>
          Advance();
          var content := "";
          if CurrentIs(HEREDOC_BODY) {
            content := Current().literal;
            Advance();
          }
          return Heredoc(content);
        case LBRACE =>
          e := ParseObjectLit();
        case LBRACKET =>
          e := ParseListLit();
        case LPAREN =>
          Advance();
          e := ParseExpr();
          Expect(RPAREN);
        case IDENT =>
          Advance();
          if CurrentIs(LPAREN) {
            e := ParseCallExpr(tok.literal);
          } else {
            e := ParseDots(Ident(tok.literal));
          }
        case _ =>
          Report(Spec.UnexpectedInExpression);
          Advance();
          return StringLit("");
      }
    }

    method ParseDots(name: Expr) returns (e: Expr)
      requires Valid()
      modifies this
      ensures Valid() && Spec.Parsed(e, Now()) == Spec.ParseDots(name, old(Now()))
      decreases |tokens| - pos, 0
    {
      e := name;
      while CurrentIs(DOT)
        invariant Valid() && Spec.ParseDots(e, Now()) == Spec.ParseDots(name, old(Now()))
        decreases |tokens| - pos
      {
        Advance();
        var field := ExpectIdent();
        e := Dot(e, field);
      }
    }

    method ParseCallExpr(name: string) returns (e: Expr)
      requires Valid() && CurrentIs(LPAREN)
      modifies this
      ensures Valid()
      ensures var r := Spec.ParseArgs([], Spec.Advance(old(Now())));
        e == Call(name, r.val) && Now() == Spec.Expect(r.next, RPAREN)
      decreases |tokens| - pos, 4
    {
      hide Spec.ParseExpr;
      Advance();
      var args := [];
      while !CurrentIs(RPAREN) && !AtEnd()
        invariant Valid() && |Now().rest| < |old(Now()).rest|
        invariant Spec.ParseArgs(args, Now()) == Spec.ParseArgs([], Spec.Advance(old(Now())))
        decreases |tokens| - pos
      {
        var arg := ParseExpr();
        args := args + [arg];
        SkipComma();
      }
      Expect(RPAREN);
      e := Call(name, args);
    }

    method ParseObjectLit() returns (e: Expr)
      requires Valid() && CurrentIs(LBRACE)
      modifies this
      ensures Valid()
      ensures var r := Spec.ParseFields([], Spec.SkipNewlines(Spec.Advance(old(Now()))));
        e == ObjectLit(r.val) && Now() == Spec.Expect(r.next, RBRACE)
      decreases |tokens| - pos, 4
    {
      hide Spec.ParseExpr, Spec.SkipNewlines, Spec.SkipComma, Spec.Expect, Spec.ExpectIdentOrString;
      Advance();
      SkipNewlines();
      var fields := [];
      while !CurrentIs(RBRACE) && !AtEnd()
        invariant Valid() && |Now().rest| < |old(Now()).rest|
        invariant Spec.ParseFields(fields, Now()) == Spec.ParseFields([], Spec.SkipNewlines(Spec.Advance(old(Now()))))
        decreases |tokens| - pos
      {
        SkipNewlines();
        if CurrentIs(RBRACE) {
          FieldsDone(fields, Now());
          break;
        }
        var key := ExpectIdentOrString();
        Expect(COLON);
        var value := ParseExpr();
        fields := fields + [Field(key, value)];
        SkipComma();
        SkipNewlines();
      }
      Expect(RBRACE);
      e := ObjectLit(fields);
    }

    method ParseListLit() returns (e: Expr)
      requires Valid() && CurrentIs(LBRACKET)
      modifies this
      ensures Valid()
      ensures var r := Spec.ParseElements([], Spec.SkipNewlines(Spec.Advance(old(Now()))));
        e == ListLit(r.val) && Now() == Spec.Expect(r.next, RBRACKET)
      decreases |tokens| - pos, 4
    {
      hide Spec.ParseExpr, Spec.SkipNewlines, Spec.SkipComma, Spec.Expect;
      Advance();
      SkipNewlines();
      var elements := [];
      while !CurrentIs(RBRACKET) && !AtEnd()
        invariant Valid() && |Now().rest| < |old(Now()).rest|
        invariant Spec.ParseElements(elements, Now()) == Spec.ParseElements([], Spec.SkipNewlines(Spec.Advance(old(Now()))))
        decreases |tokens| - pos
      {
        SkipNewlines();
        if CurrentIs(RBRACKET) {
          ElementsDone(elements, Now());
          break;
        }
        var element := ParseExpr();
        elements := elements + [element];
        SkipComma();
        SkipNewlines();
      }
      Expect(RBRACKET);
      e := ListLit(elements);
    }

    // ---------------------------------------------------------------- statements

    method ParseGuard() returns (guard: Option<Expr>)
      requires Valid()
      modifies this
      ensures Valid() && Spec.Parsed(guard, Now()) == Spec.ParseGuard(old(Now()))
    {
      hide Spec.ParseExpr;
      guard := None;
      if CurrentIs(KW_WHEN) {
        Advance();
        var condition := ParseExpr();
        guard := Some(condition);
      }
    }

    method TryParseStatement() returns (st: Option<Stmt>)
      requires Valid()
      modifies this
      ensures Valid()
      ensures var r := Spec.TryStatement(old(Now()));
        if r.Some? then st == Some(r.value.val) && Now() == r.value.next else st == None && Now() == old(Now())
      decreases |tokens| - pos, 1
    {
      hide Spec.ParseArgStmt, Spec.ParseFileStmt, Spec.ParseMkdirStmt, Spec.ParseIfStmt, Spec.ParseForStmt, Spec.ParseAssignStmt;
      var r;
      match Current().typ {
        case KW_ARG => r := ParseArgStmt();
        case KW_FILE => r := ParseFileStmt();
        case KW_MKDIR => r := ParseMkdirStmt();
        case KW_IF => r := ParseIfStmt();
        case KW_FOR => r := ParseForStmt();
        case IDENT =>
          if !PeekIs(ASSIGN) { return None; }
          r := ParseAssignStmt();
        case _ => return None;
      }
      st := Some(r);
    }

    method ParseArgStmt() returns (st: Stmt)
      requires Valid()
      modifies this
      ensures Valid() && Spec.Parsed(st, Now()) == Spec.ParseArgStmt(old(Now()))
    {
      hide Spec.ParseExpr, Spec.ParseGuard, Spec.ExpectNewline;
      Advance();
      var args := [];
      while !IsNewlineOrEnd() && !CurrentIs(KW_WHEN)
        invariant Valid() && Spec.ParseArgList(args, Now()) == Spec.ParseArgList([], Spec.Advance(old(Now())))
        decreases |tokens| - pos
      {
        var arg := ParseExpr();
        args := args + [arg];
      }
      var guard := ParseGuard();
      ExpectNewline();
      st := ArgStmt(args, guard);
    }

    method ParseFileStmt() returns (st: Stmt)
      requires Valid()
      modifies this
      ensures Valid() && Spec.Parsed(st, Now()) == Spec.ParseFileStmt(old(Now()))
    {
      hide Spec.ParseExpr, Spec.ParseGuard, Spec.ExpectNewline, Spec.ExpectInt;
      Advance();
      var path := ParseExpr();
      var content := ParseExpr();
      var mode := 0;
      if CurrentIs(NUMBER) && !IsNewlineOrEnd() {
        mode := ExpectInt();
      }
      var guard := ParseGuard();
      ExpectNewline();
      st := FileStmt(path, content, mode, guard);
    }

    method ParseMkdirStmt() returns (st: Stmt)
      requires Valid()
      modifies this
      ensures Valid() && Spec.Parsed(st, Now()) == Spec.ParseMkdirStmt(old(Now()))
    {
      hide Spec.ParseExpr, Spec.ExpectNewline;
      Advance();
      var path := ParseExpr();
      ExpectNewline();
      st := MkdirStmt(path);
    }

    method ParseAssignStmt() returns (st: Stmt)
      requires Valid()
      modifies this
      ensures Valid() && Spec.Parsed(st, Now()) == Spec.ParseAssignStmt(old(Now()))
    {
      hide Spec.ParseExpr, Spec.ExpectNewline;
      var name := Current().literal;
      Advance();
      Advance();
      var value := ParseExpr();
      ExpectNewline();
      st := AssignStmt(name, value);
    }

    method ParseIfStmt() returns (st: Stmt)
      requires Valid() && CurrentIs(KW_IF)
      modifies this
      ensures Valid() && Spec.Parsed(st, Now()) == Spec.ParseIfStmt(old(Now()))
      decreases |tokens| - pos, 0
    {
      hide Spec.ParseExpr, Spec.ParseBlock, Spec.SkipNewlines;
      Advance();
      var condition := ParseExpr();
      var body := ParseBlock();
      SkipNewlines();
      var otherwise := [];
      if CurrentIs(KW_ELSE) {
        Advance();
        otherwise := ParseBlock();
      }
      st := IfStmt(condition, body, otherwise);
    }

    /** The second loop variable, if there is a comma. */
    method ParseForValue() returns (val: string)
      requires Valid()
      modifies this
      ensures Valid()
      ensures Spec.Parsed(val, Now()) ==
        if Spec.Kind(old(Now())) == COMMA then Spec.ExpectIdent(Spec.Advance(old(Now()))) else Spec.Parsed("", old(Now()))
    {
      hide Spec.ExpectIdent;
      val := "";
      if CurrentIs(COMMA) {
        Advance();
        val := ExpectIdent();
      }
    }

    /** From the keyword to the `in`. */
    method ParseForHead() returns (key: string, val: string, ghost v: Spec.Parsed<string>)
      requires Valid() && CurrentIs(KW_FOR)
      modifies this
      ensures Valid() && val == v.val && Now() == Spec.Expect(v.next, KW_IN) && pos > old(pos)
      ensures old(Now()).rest != []
      ensures var k := Spec.ExpectIdent(Spec.Advance(old(Now())));
        key == k.val && v == if Spec.Kind(k.next) == COMMA then Spec.ExpectIdent(Spec.Advance(k.next)) else Spec.Parsed("", k.next)
    {
      hide Spec.ExpectIdent, Spec.Expect;
      Advance();
      hide Spec.Advance;
      key := ExpectIdent();
      val := ParseForValue();
      v := Spec.Parsed(val, Now());
      Expect(KW_IN);
    }

    method ParseForStmt() returns (st: Stmt)
      requires Valid() && CurrentIs(KW_FOR)
      modifies this
      ensures Valid() && Spec.Parsed(st, Now()) == Spec.ParseForStmt(old(Now()))
      decreases |tokens| - pos, 0
    {
      hide Spec.ParseExpr, Spec.ParseBlock, Spec.ExpectIdent, Spec.Expect, Spec.ParseForStmt, Spec.Advance, Spec.Kind;
      var key, val, v := ParseForHead();
      var iter := ParseExpr();
      ghost var i := Spec.Parsed(iter, Now());
      var body := ParseBlock();
      ForParts(old(Now()), Spec.ExpectIdent(Spec.Advance(old(Now()))), v, i, Spec.Parsed(body, Now()));
      st := ForStmt(key, val, iter, body);
    }

    method ParseBlock() returns (stmts: seq<Stmt>)
      requires Valid()
      modifies this
      ensures Valid() && Spec.Parsed(stmts, Now()) == Spec.ParseBlock(old(Now()))
      decreases |tokens| - pos, 3
    {
      hide Spec.ParseStatements, Spec.TryStatement, Spec.SkipNewlines, Spec.Expect;
      SkipNewlines();
      Expect(LBRACE);
      SkipNewlines();
      ghost var start := Now();
      stmts := [];
      while !CurrentIs(RBRACE) && !AtEnd()
        invariant Valid() && |Now().rest| <= |old(Now()).rest|
        invariant Spec.ParseStatements(stmts, Now()) == Spec.ParseStatements([], start)
        decreases |tokens| - pos
      {
        StatementsGoOn(stmts, Now());
        SkipNewlines();
        if CurrentIs(RBRACE) {
          break;
        }
        var st := TryParseStatement();
        if st.Some? {
          stmts := stmts + [st.value];
        } else {
          Report(Spec.UnexpectedInBlock);
          Advance();
        }
      }
      StatementsEnd(stmts, Now());
      Expect(RBRACE);
    }

    // ---------------------------------------------------------------- declarations

    method ParseNamed() returns (name: string)
      requires Valid()
      modifies this
      ensures Valid() && Spec.Parsed(name, Now()) == Spec.ParseNamed(old(Now()))
    {
      hide Spec.ExpectNewline, Spec.ExpectIdentOrString;
      Advance();
      name := ExpectIdentOrString();
      ExpectNewline();
    }

    method ParseExprLine() returns (e: Expr)
      requires Valid()
      modifies this
      ensures Valid() && Spec.Parsed(e, Now()) == Spec.ParseExprLine(old(Now()))
    {
      hide Spec.ExpectNewline, Spec.ParseExpr;
      Advance();
      e := ParseExpr();
      ExpectNewline();
    }

    method ParseConfigDecl() returns (d: Decl)
      requires Valid()
      modifies this
      ensures Valid() && Spec.Parsed(d, Now()) == Spec.ParseConfigDecl(old(Now()))
    {
      hide Spec.ExpectIdent, Spec.ParseConfigType, Spec.ParseLiteralValue, Spec.ExpectNewline;
      Advance();
      var name := ExpectIdent();
      var typ, options := ParseConfigType();
      var default := NoValue;
      if CurrentIs(ASSIGN) {
        Advance();
        default := ParseLiteralValue();
      }
      ExpectNewline();
      d := ConfigDecl(name, typ, options, default);
    }

    method ParseConfigType() returns (typ: ConfigType, options: seq<string>)
      requires Valid()
      modifies this
      ensures Valid() && Spec.Parsed((typ, options), Now()) == Spec.ParseConfigType(old(Now()))
    {
      hide Spec.ParseSelectOptions;
      typ, options := Untyped, [];
      match Current().typ {
        case KW_BOOL =>
          typ := Boolean;
          Advance();
        case KW_STRING =>
          typ := Str;
          Advance();
        case KW_NUMBER =>
          typ := ConfigType.Number;
          Advance();
        case KW_SECRET =>
          typ := Secret;
          Advance();
        case KW_SELECT =>
          typ := Select;
          Advance();
          options := ParseSelectOptions();
        case ASSIGN =>
        case _ => Report(Spec.WantedConfigType);
      }
    }

    method ParseSelectOptions() returns (options: seq<string>)
      requires Valid()
      modifies this
      ensures Valid() && Spec.Parsed(options, Now()) == Spec.ParseSelectOptions(old(Now()))
    {
      hide Spec.Expect, Spec.SkipComma;
      Expect(LPAREN);
      ghost var start := Now();
      options := [];
      while !CurrentIs(RPAREN) && !AtEnd()
        invariant Valid() && Spec.ParseOptions(options, Now()) == Spec.ParseOptions([], start)
        decreases |tokens| - pos
      {
        var option := ExpectString();
        options := options + [option];
        SkipComma();
      }
      Expect(RPAREN);
    }

    method SkipOptional() returns (optional: bool)
      requires Valid()
      modifies this
      ensures Valid() && Spec.Parsed(optional, Now()) == Spec.SkipOptional(old(Now()))
    {
      optional := CurrentIs(KW_OPTIONAL);
      if optional { Advance(); }
    }

    method ParseEnvDecl() returns (d: Decl)
      requires Valid()
      modifies this
      ensures Valid() && Spec.Parsed(d, Now()) == Spec.ParseEnvDecl(old(Now()))
    {
      hide Spec.ParseEnvDecl, Spec.ExpectIdent, Spec.SkipOptional, Spec.ParseEnvValue, Spec.ExpectNewline;
      EnvUnfolds(Now());
      Advance();
      hide Spec.Advance;
      var name := ExpectIdent();
      match Current().typ {
        case KW_SECRET =>
          Advance();
          var optional := SkipOptional();
          d := EnvDecl(name, SecretSource, "", None, None, optional);
        case KW_TEXT =>
          Advance();
          var optional := SkipOptional();
          d := EnvDecl(name, TextSource, "", None, None, optional);
        case ASSIGN =>
          Advance();
          d := ParseEnvValue(name);
        case _ =>
          Report(Spec.WantedEnvForm);
          d := EnvDecl(name, Fixed, "", None, None, false);
      }
      ExpectNewline();
    }

    method ParseEnvValue(name: string) returns (d: Decl)
      requires Valid()
      modifies this
      ensures Valid() && Spec.Parsed(d, Now()) == Spec.ParseEnvValue(name, old(Now()))
    {
      hide Spec.ParseExpr;
      var e := ParseExpr();
      var value, valueExpr := "", Some(e);
      if e.StringLit? && !CurrentIs(KW_WHEN) {
        value, valueExpr := e.str, None;
      }
      var guard := ParseGuard();
      d := EnvDecl(name, Fixed, value, valueExpr, guard, false);
    }

    method ParseMcpDecl() returns (d: Decl)
      requires Valid()
      modifies this
      ensures Valid() && Spec.Parsed(d, Now()) == Spec.ParseMcpDecl(old(Now()))
    {
      hide Spec.ExpectIdentOrString, Spec.ExpectNewline;
      Advance();
      var enabled := true;
      if CurrentIs(KW_ON) {
        Advance();
      } else if CurrentIs(KW_OFF) {
        enabled := false;
        Advance();
      } else {
        Report(Spec.WantedOnOff);
      }
      var format := "";
      if enabled && CurrentIs(IDENT) && Current().literal == "FORMAT" {
        Advance();
        format := ExpectIdentOrString();
      }
      ExpectNewline();
      d := McpDecl(enabled, format);
    }

    method ParseSkillsDecl() returns (d: Decl)
      requires Valid()
      modifies this
      ensures Valid()
      ensures var r := Spec.ParseSlugs([], Spec.Advance(old(Now())));
        d == SkillsDecl(r.val) && Now() == Spec.ExpectNewline(r.next)
    {
      hide Spec.ExpectIdentOrString, Spec.ExpectNewline, Spec.SkipComma;
      Advance();
      var slugs := [];
      while !IsNewlineOrEnd()
        invariant Valid() && Spec.ParseSlugs(slugs, Now()) == Spec.ParseSlugs([], Spec.Advance(old(Now())))
        decreases |tokens| - pos
      {
        var slug := ExpectIdentOrString();
        slugs := slugs + [slug];
        SkipComma();
      }
      ExpectNewline();
      d := SkillsDecl(slugs);
    }

    method ParseMountMode() returns (mode: string)
      requires Valid()
      modifies this
      ensures Valid() && Spec.Parsed(mode, Now()) == Spec.ParseMountMode(old(Now()))
    {
      hide Spec.ExpectIdentOrString, Spec.Expect;
      mode := "ro";
      if CurrentIs(LBRACKET) {
        Advance();
        mode := ExpectIdentOrString();
        if mode != "ro" && mode != "rw" { Report(Spec.BadMountMode); }
        Expect(RBRACKET);
      }
    }

    method ParseKnowledgeDecl() returns (d: Decl)
      requires Valid()
      modifies this
      ensures Valid()
      ensures var r := Spec.ParseMounts([], Spec.Advance(old(Now())));
        d == KnowledgeDecl(r.val) && Now() == Spec.ExpectNewline(r.next)
    {
      hide Spec.ExpectIdentOrString, Spec.ExpectNewline, Spec.SkipComma, Spec.ParseMountMode;
      Advance();
      var mounts := [];
      while !IsNewlineOrEnd()
        invariant Valid() && Spec.ParseMounts(mounts, Now()) == Spec.ParseMounts([], Spec.Advance(old(Now())))
        decreases |tokens| - pos
      {
        var slug := ExpectIdentOrString();
        var mode := ParseMountMode();
        mounts := mounts + [Mount(slug, mode)];
        SkipComma();
      }
      ExpectNewline();
      d := KnowledgeDecl(mounts);
    }

    method ParseSetupDecl() returns (d: Decl)
      requires Valid()
      modifies this
      ensures Valid() && Spec.Parsed(d, Now()) == Spec.ParseSetupDecl(old(Now()))
    {
      hide Spec.Expect, Spec.ExpectInt, Spec.SkipNewlines;
      Advance();
      var timeout := 300;
      if CurrentIs(IDENT) && Current().literal == "timeout" {
        Advance();
        Expect(ASSIGN);
        timeout := ExpectInt();
      }
      var script := "";
      if CurrentIs(HEREDOC_START) {
        Advance();
        if CurrentIs(HEREDOC_BODY) {
          script := Current().literal;
          Advance();
        }
      }
      SkipNewlines();
      d := SetupDecl(script, timeout);
    }

    method ParseRemoveDecl() returns (d: Decl)
      requires Valid()
      modifies this
      ensures Valid() && Spec.Parsed(d, Now()) == Spec.ParseRemoveDecl(old(Now()))
    {
      hide Spec.ExpectIdentOrString, Spec.ExpectNewline;
      Advance();
      var target := Spec.TargetOf(Current().typ);
      if target == NoTarget {
        Report(Spec.BadRemoveTarget);
        Advance();
        return RemoveDecl(NoTarget, "");
      }
      Advance();
      var name := ExpectIdentOrString();
      ExpectNewline();
      d := RemoveDecl(target, name);
    }

    method ParseModeDecl() returns (d: Decl)
      requires Valid()
      modifies this
      ensures Valid() && Spec.Parsed(d, Now()) == Spec.ParseModeDecl(old(Now()))
    {
      hide Spec.ExpectIdentOrString, Spec.ExpectNewline;
      Advance();
      var mode := ExpectIdentOrString();
      if mode != "pty" && mode != "acp" { Report(Spec.BadMode); }
      if !IsNewlineOrEnd() && CurrentIs(STRING) {
        ghost var start := Now();
        var args := [];
        while CurrentIs(STRING)
          invariant Valid() && Spec.ParseStrings(args, Now()) == Spec.ParseStrings([], start)
          decreases |tokens| - pos
        {
          var arg := ExpectString();
          args := args + [arg];
        }
        ExpectNewline();
        return ModeArgsDecl(mode, args);
      }
      ExpectNewline();
      d := ModeDecl(mode);
    }

    method ParsePromptDecl() returns (d: Decl)
      requires Valid()
      modifies this
      ensures Valid() && Spec.Parsed(d, Now()) == Spec.ParsePromptDecl(old(Now()))
    {
      hide Spec.ExpectString, Spec.ExpectNewline;
      Advance();
      var content := ExpectString();
      ExpectNewline();
      d := PromptDecl(content);
    }

    method ParsePositionDecl() returns (d: Decl)
      requires Valid()
      modifies this
      ensures Valid() && Spec.Parsed(d, Now()) == Spec.ParsePositionDecl(old(Now()))
    {
      hide Spec.ExpectNewline;
      Advance();
      var position := Current().literal;
      if !CurrentIs(KW_PREPEND) && !CurrentIs(KW_APPEND) && !CurrentIs(KW_NONE) && (!CurrentIs(IDENT) || position != "after_first") {
        Report(Spec.BadPosition);
      }
      Advance();
      ExpectNewline();
      d := PromptPositionDecl(position);
    }

    method ParseCapabilityDecl() returns (d: Decl)
      requires Valid()
      modifies this
      ensures Valid() && Spec.Parsed(d, Now()) == Spec.ParseCapabilityDecl(old(Now()))
    {
      hide Spec.ExpectIdent, Spec.ExpectNewline, Spec.ToLower, Join, Spec.ValidCapability;
      Advance();
      var name := ExpectIdent();
      var axis := Spec.ToLower(name);
      ghost var start := Now();
      var pieces := [];
      while !IsNewlineOrEnd()
        invariant Valid() && Spec.ParsePieces(pieces, Now()) == Spec.ParsePieces([], start)
        decreases |tokens| - pos
      {
        if Spec.IsCapabilityPiece(Current().typ) {
          pieces := pieces + [Current().literal];
        } else if CurrentIs(COMMA) {
          pieces := pieces + [","];
        } else {
          Report(Spec.UnexpectedInCapability);
        }
        Advance();
      }
      var value := Join(pieces, if axis == "control" then "" else " ");
      if !Spec.ValidCapability(axis, value) { Report(Spec.BadCapability); }
      ExpectNewline();
      d := CapabilityDecl(axis, value);
    }

    method ParseNamedDecl() returns (d: Decl)
      requires Valid() && Current().typ in {KW_AGENT, KW_EXECUTABLE, KW_GIT_CREDENTIAL, KW_USE_ENV_BUNDLE, KW_USE_CONFIG_BUNDLE}
      modifies this
      ensures Valid() && Some(Spec.Parsed(d, Now())) == Spec.TryDeclaration(old(Now()))
    {
      hide Spec.ParseNamed;
      var typ := Current().typ;
      var name := ParseNamed();
      match typ {
        case KW_AGENT => d := AgentDecl(name);
        case KW_EXECUTABLE => d := ExecutableDecl(name);
        case KW_GIT_CREDENTIAL => d := GitCredentialDecl(name);
        case KW_USE_ENV_BUNDLE => d := UseEnvBundleDecl(name);
        case _ => d := UseConfigBundleDecl(name);
      }
    }

    method ParseShortDecl() returns (d: Decl)
      requires Valid() && Current().typ in {KW_REPO, KW_BRANCH, KW_REMOVE, KW_PROMPT, KW_PROMPT_POSITION, KW_CAPABILITY}
      modifies this
      ensures Valid() && Some(Spec.Parsed(d, Now())) == Spec.TryDeclaration(old(Now()))
    {
      hide Spec.ParseExprLine, Spec.ParseRemoveDecl, Spec.ParsePromptDecl, Spec.ParsePositionDecl, Spec.ParseCapabilityDecl;
      match Current().typ {
        case KW_REPO =>
          var e := ParseExprLine();
          d := RepoDecl(e);
        case KW_BRANCH =>
          var e := ParseExprLine();
          d := BranchDecl(e);
        case KW_REMOVE => d := ParseRemoveDecl();
        case KW_PROMPT => d := ParsePromptDecl();
        case KW_PROMPT_POSITION => d := ParsePositionDecl();
        case KW_CAPABILITY => d := ParseCapabilityDecl();
      }
    }

    method ParseLongDecl() returns (d: Decl)
      requires Valid() && Current().typ in {KW_CONFIG, KW_ENV, KW_MCP, KW_SKILLS, KW_KNOWLEDGE, KW_SETUP, KW_MODE}
      modifies this
      ensures Valid() && Some(Spec.Parsed(d, Now())) == Spec.TryDeclaration(old(Now()))
    {
      hide Spec.ParseConfigDecl, Spec.ParseEnvDecl, Spec.ParseMcpDecl, Spec.ParseSlugs, Spec.ParseMounts, Spec.ParseSetupDecl,
           Spec.ParseModeDecl, Spec.ExpectNewline;
      match Current().typ {
        case KW_CONFIG => d := ParseConfigDecl();
        case KW_ENV => d := ParseEnvDecl();
        case KW_MCP => d := ParseMcpDecl();
        case KW_SKILLS => d := ParseSkillsDecl();
        case KW_KNOWLEDGE => d := ParseKnowledgeDecl();
        case KW_SETUP => d := ParseSetupDecl();
        case KW_MODE => d := ParseModeDecl();
      }
    }

    method TryParseDeclaration() returns (d: Option<Decl>)
      requires Valid()
      modifies this
      ensures Valid()
      ensures var r := Spec.TryDeclaration(old(Now()));
        if r.Some? then d == Some(r.value.val) && Now() == r.value.next else d == None && Now() == old(Now())
    {
      NoDeclaration(Now());
      hide Spec.TryDeclaration;
      var r;
      match Current().typ {
        case KW_AGENT | KW_EXECUTABLE | KW_GIT_CREDENTIAL | KW_USE_ENV_BUNDLE | KW_USE_CONFIG_BUNDLE => r := ParseNamedDecl();
        case KW_REPO | KW_BRANCH | KW_REMOVE | KW_PROMPT | KW_PROMPT_POSITION | KW_CAPABILITY => r := ParseShortDecl();
        case KW_CONFIG | KW_ENV | KW_MCP | KW_SKILLS | KW_KNOWLEDGE | KW_SETUP | KW_MODE => r := ParseLongDecl();
        case _ => return None;
      }
      d := Some(r);
    }

    // ---------------------------------------------------------------- programs

    method ParseProgram() returns (prog: Program)
      requires Valid()
      modifies this
      ensures Valid() && Spec.Parsed(prog, Now()) == Spec.ParseItems(Program([], []), old(Now()))
    {
      hide Spec.ParseItems, Spec.TryDeclaration, Spec.TryStatement, Spec.SkipNewlines;
      prog := Program([], []);
      while !AtEnd()
        invariant Valid() && Spec.ParseItems(prog, Now()) == Spec.ParseItems(Program([], []), old(Now()))
        decreases |tokens| - pos
      {
        ItemsGoOn(prog, Now());
        SkipNewlines();
        if AtEnd() { break; }
        var d := TryParseDeclaration();
        if d.Some? {
          prog := prog.(declarations := prog.declarations + [d.value]);
          continue;
        }
        var st := TryParseStatement();
        if st.Some? {
          prog := prog.(statements := prog.statements + [st.value]);
          continue;
        }
        Report(Spec.UnexpectedAtTop);
        Advance();
      }
      ItemsEnd(prog, Now());
    }
  }

  /** The whole front end, run: what it returns is the parse of the input, so every theorem about `Parse` holds of it. */
  method ParseInput(input: string) returns (prog: Program, errors: seq<Spec.ParseError>)
    ensures (prog, errors) == Spec.Parse(input)
  {
    hide Spec.ParseItems;
    var tokens := Lexer.Tokenize(input);
    var p := new Parser(tokens);
    prog := p.ParseProgram();
    errors := p.errors;
  }
}
