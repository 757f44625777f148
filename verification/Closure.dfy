/** What the parser builds from tokens without grouping parentheses respects the levels. */
module Closure {
  import opened Text
  import opened Tokens
  import opened Ast
  import opened ParseSpec
  import opened ParseSteps
  import opened LexWords
  import opened LexPrinted
  import opened Levels

  // ---------------------------------------------------------------- token streams

  /** A parenthesis that opens an argument list or the options of a SELECT, and groups nothing. */
  predicate OpensList(ts: seq<Token>, i: nat)
    requires 0 < i < |ts|
  {
    ts[i - 1].typ == KW_SELECT || (ts[i - 1].typ == IDENT && (i > 1 ==> ts[i - 2].typ != DOT))
  }

  predicate Ungrouped(ts: seq<Token>) {
    forall i :: 0 < i < |ts| && ts[i].typ == LPAREN ==> OpensList(ts, i)
  }

  /** What the lexer makes of words, numbers and heredocs. */
  predicate LexedToken(t: Token) {
    && (t.typ in {IDENT, KW_PREPEND, KW_APPEND, KW_NONE} ==> IsWord(t.literal) && LookupIdent(t.literal) == t.typ)
    && (t.typ == NUMBER ==> IsNumberText(t.literal))
    && (t.typ == HEREDOC_BODY ==> !EndsInNewline(t.literal))
  }

  predicate Lexed(ts: seq<Token>) { forall i :: 0 <= i < |ts| ==> LexedToken(ts[i]) }

  /** What follows the timeout and the script of a SETUP declaration. */
  function AfterScript(ts: seq<Token>): (r: seq<Token>)
    ensures |r| <= |ts|
  {
    var u := if |ts| > 2 && ts[0] == Token(IDENT, "timeout") then ts[3..] else ts;
    if |u| > 1 && u[0].typ == HEREDOC_START && u[1].typ == HEREDOC_BODY then u[2..] else u
  }

  /** No heredoc but the scripts of SETUP declarations, and no quoted object key. */
  predicate Plain(ts: seq<Token>)
    decreases |ts|
  {
    ts == [] ||
    (&& ts[0].typ != HEREDOC_START
     && (ts[0].typ == STRING && |ts| > 1 ==> ts[1].typ != COLON)
     && Plain(if ts[0].typ == KW_SETUP then AfterScript(ts[1..]) else ts[1..]))
  }

  ghost predicate Clean(plain: bool, s: State) { Ungrouped(s.rest) && (plain ==> Lexed(s.rest) && Plain(s.rest)) }

  /** Clean, and not at a parenthesis. */
  ghost predicate Fits(plain: bool, s: State) { Clean(plain, s) && Kind(s) != LPAREN }

  ghost predicate Quiet(s: State, r: State) { |r.errors| == |s.errors| }

  ghost predicate Good(plain: bool, e: Expr) { Respects(e) && (plain ==> Printable(e, false)) }

  ghost predicate AllGood(plain: bool, es: seq<Expr>) { forall e | e in es :: Good(plain, e) }

  ghost predicate FieldsGood(plain: bool, fs: seq<Field>) {
    forall f | f in fs :: Good(plain, f.value) && (plain ==> IsName(f.key))
  }

  lemma UngroupedTail(ts: seq<Token>)
    requires ts != [] && Ungrouped(ts)
    ensures Ungrouped(ts[1..])
    ensures ts[0].typ != IDENT && ts[0].typ != KW_SELECT && |ts| > 1 ==> ts[1].typ != LPAREN
    ensures ts[0].typ == DOT && |ts| > 2 ==> ts[2].typ != LPAREN || ts[1].typ != IDENT
  {
    var tail := ts[1..];
    forall i | 0 < i < |tail| && tail[i].typ == LPAREN
      ensures OpensList(tail, i)
    {
      assert OpensList(ts, i + 1);
    }
    if |ts| > 1 && ts[1].typ == LPAREN {
      assert OpensList(ts, 1);
    }
    if |ts| > 2 && ts[2].typ == LPAREN {
      assert OpensList(ts, 2);
    }
  }

  lemma LexedTail(ts: seq<Token>)
    requires ts != [] && Lexed(ts)
    ensures Lexed(ts[1..]) && LexedToken(ts[0])
  {
    hide LexedToken;
  }

  lemma TokenFacts(t: Token)
    requires LexedToken(t)
    ensures t.typ == IDENT ==> IsName(t.literal)
    ensures t.typ == NUMBER ==> IsNumberText(t.literal)
  {
    hide IsWord, LookupIdent, IsNumberText;
  }

  lemma CleanAdvance(plain: bool, s: State)
    requires Clean(plain, s)
    ensures Kind(s) != KW_SETUP ==> Clean(plain, Advance(s))
    ensures Kind(s) != IDENT && Kind(s) != KW_SELECT ==> Kind(Advance(s)) != LPAREN
    ensures Kind(s) == DOT && Kind(Advance(s)) == IDENT ==> Kind(Advance(Advance(s))) != LPAREN
    ensures plain && Kind(s) == IDENT ==> IsName(Current(s).literal)
    ensures plain && Kind(s) == NUMBER ==> IsNumberText(Current(s).literal)
    ensures plain ==> Kind(s) != HEREDOC_START
    ensures plain && Kind(Advance(s)) == COLON ==> Kind(s) != STRING
  {
    if s.rest != [] {
      UngroupedTail(s.rest);
      if plain {
        LexedTail(s.rest);
        TokenFacts(s.rest[0]);
      }
      hide Ungrouped, Lexed, LexedToken, AfterScript, IsName, IsNumberText;
    }
  }

  lemma {:induction false} SkipsClean(plain: bool, s: State)
    requires Clean(plain, s)
    ensures Clean(plain, SkipNewlines(s)) && (Kind(s) != LPAREN ==> Kind(SkipNewlines(s)) != LPAREN)
    ensures Clean(plain, SkipComments(s)) && Clean(plain, ExpectNewline(s))
    decreases |s.rest|
  {
    hide Clean;
    CleanAdvance(plain, s);
    if s.rest != [] && (Kind(s) == NEWLINE || Kind(s) == COMMENT) { SkipsClean(plain, Advance(s)); }
    ExpectNewlineClean(plain, s);
  }

  lemma {:induction false} ExpectNewlineClean(plain: bool, s: State)
    requires Clean(plain, s)
    ensures Clean(plain, SkipComments(s)) && Clean(plain, ExpectNewline(s))
    decreases |s.rest|
  {
    hide Clean;
    CleanAdvance(plain, s);
    if !AtEnd(s) && Kind(s) == COMMENT { ExpectNewlineClean(plain, Advance(s)); }
    CleanAdvance(plain, SkipComments(s));
  }

  lemma ExpectFits(plain: bool, s: State, t: TokenType)
    requires Clean(plain, s) && t !in {IDENT, KW_SELECT, KW_SETUP} && Quiet(s, Expect(s, t))
    ensures Kind(s) == t && Fits(plain, Expect(s, t))
  {
    CleanAdvance(plain, s);
    hide Clean;
  }

  lemma CommaFits(plain: bool, s: State)
    requires Fits(plain, s)
    ensures Fits(plain, SkipComma(s)) && Fits(plain, SkipNewlines(SkipComma(s)))
  {
    CleanAdvance(plain, s);
    SkipsClean(plain, SkipComma(s));
    hide Clean, SkipNewlines;
  }

  // ---------------------------------------------------------------- expressions

  lemma {:induction false} LevelCloses(plain: bool, k: nat, s: State)
    requires k <= PRIMARY && Fits(plain, s) && Quiet(s, ParseLevel(k, s).next)
    ensures var r := ParseLevel(k, s); Good(plain, r.val) && Level(r.val) >= k && Fits(plain, r.next)
    decreases |s.rest|, 10 - k
  {
    hide ParseLevel, ParsePrimary, Fold, Clean, Good, Level;
    UnaryUnfolds(s);
    if k == PRIMARY || (k == UNARY && Kind(s) != KW_NOT) {
      PrimaryCloses(plain, s);
    } else if k == UNARY {
      CleanAdvance(plain, s);
      LevelCloses(plain, UNARY, Advance(s));
      GoodNot(plain, ParseLevel(UNARY, Advance(s)).val);
    } else {
      LevelUnfolds(k, s);
      var r := ParseLevel(k + 1, s);
      LevelCloses(plain, k + 1, s);
      FoldCloses(plain, k, r.val, r.next);
    }
  }

  lemma GoodNot(plain: bool, x: Expr)
    requires Good(plain, x) && Level(x) >= UNARY
    ensures Good(plain, Not(x)) && Level(Not(x)) == UNARY
  {}

  lemma {:induction false} FoldCloses(plain: bool, k: nat, left: Expr, s: State)
    requires k < UNARY && Fits(plain, s) && Quiet(s, Fold(k, left, s).next) && Good(plain, left) && Level(left) >= k
    ensures var r := Fold(k, left, s); Good(plain, r.val) && Level(r.val) >= k && Fits(plain, r.next)
    decreases |s.rest|, 0
  {
    hide ParseLevel, Fold, Clean, Good, Level;
    FoldCases(k, left, s);
    if OperatorAt(s, k) {
      var op, r := OperatorOf(Current(s)).value, ParseLevel(k + 1, Advance(s));
      assert s.rest != [] && Kind(s) !in {IDENT, KW_SELECT, KW_SETUP};
      hide OperatorOf;
      CleanAdvance(plain, s);
      LevelCloses(plain, k + 1, Advance(s));
      GoodBinary(plain, left, op, r.val);
      FoldCloses(plain, k, Binary(left, op, r.val), r.next);
    }
  }

  lemma FoldCases(k: nat, left: Expr, s: State)
    requires k < UNARY
    ensures OperatorAt(s, k) ==>
      var r := ParseLevel(k + 1, Advance(s)); Fold(k, left, s) == Fold(k, Binary(left, OperatorOf(Current(s)).value, r.val), r.next)
    ensures !OperatorAt(s, k) ==> Fold(k, left, s) == Parsed(left, s)
  {
    hide ParseLevel;
  }

  lemma GoodBinary(plain: bool, left: Expr, op: BinOp, right: Expr)
    requires Good(plain, left) && Good(plain, right) && Level(left) >= LevelOf(op) && Level(right) > LevelOf(op)
    ensures Good(plain, Binary(left, op, right)) && Level(Binary(left, op, right)) == LevelOf(op)
  {}

  lemma {:induction false} ExprCloses(plain: bool, s: State)
    requires Fits(plain, s) && Quiet(s, ParseExpr(s).next)
    ensures var r := ParseExpr(s); Good(plain, r.val) && Fits(plain, r.next)
    decreases |s.rest|, 11
  {
    hide ParseLevel, Fits;
    LevelCloses(plain, 0, s);
  }

  ghost predicate Closes(plain: bool, r: Parsed<Expr>) {
    Good(plain, r.val) && Level(r.val) == PRIMARY && Fits(plain, r.next)
  }

  lemma {:induction false} PrimaryCloses(plain: bool, s: State)
    requires Fits(plain, s) && Quiet(s, ParsePrimary(s).next)
    ensures Closes(plain, ParsePrimary(s))
    decreases |s.rest|, 1
  {
    hide ParsePrimary, Fits, Good;
    match Kind(s)
    case LBRACE => ObjectCloses(plain, s);
    case LBRACKET => ListCloses(plain, s);
    case IDENT => NameCloses(plain, s);
    case HEREDOC_START => HeredocCloses(plain, s);
    case _ => LiteralCloses(plain, s);
  }

  lemma GoodHeredoc(content: string)
    ensures Good(false, Heredoc(content)) && Level(Heredoc(content)) == PRIMARY
  {}

  lemma HeredocCloses(plain: bool, s: State)
    requires Fits(plain, s) && Kind(s) == HEREDOC_START
    ensures Closes(plain, ParsePrimary(s))
  {
    hide Clean, ParsePrimary, IsName, IsNumberText, Good, Level;
    var t := Advance(s);
    PrimaryLiteral(s);
    CleanAdvance(plain, s);
    CleanAdvance(plain, t);
    GoodHeredoc(if Kind(t) == HEREDOC_BODY then Current(t).literal else "");
  }

  lemma GoodLiterals(plain: bool, lit: string)
    ensures Good(plain, StringLit(lit)) && Good(plain, BoolLit(true)) && Good(plain, BoolLit(false))
    ensures (plain ==> IsNumberText(lit)) ==> Good(plain, NumberLit(lit))
    ensures Level(StringLit(lit)) == Level(BoolLit(true)) == Level(BoolLit(false)) == Level(NumberLit(lit)) == PRIMARY
  {
    hide IsNumberText;
  }

  lemma LiteralCloses(plain: bool, s: State)
    requires Fits(plain, s) && Kind(s) !in {LBRACE, LBRACKET, IDENT, HEREDOC_START}
    requires Quiet(s, ParsePrimary(s).next)
    ensures Closes(plain, ParsePrimary(s))
  {
    hide ParsePrimary, Clean, IsName, IsNumberText, Good, Level;
    PrimaryLiteral(s);
    CleanAdvance(plain, s);
    GoodLiterals(plain, Current(s).literal);
    GoodLiterals(plain, "");
  }

  lemma GoodNested(plain: bool, fields: seq<Field>, elements: seq<Expr>)
    ensures FieldsGood(plain, fields) ==> Good(plain, ObjectLit(fields)) && Level(ObjectLit(fields)) == PRIMARY
    ensures AllGood(plain, elements) ==> Good(plain, ListLit(elements)) && Level(ListLit(elements)) == PRIMARY
  {
    hide IsName;
  }

  lemma {:induction false} ObjectCloses(plain: bool, s: State)
    requires Fits(plain, s) && Kind(s) == LBRACE && Quiet(s, ParsePrimary(s).next)
    ensures Closes(plain, ParsePrimary(s))
    decreases |s.rest|, 0
  {
    hide ParsePrimary, ParseFields, ParseElements, Clean, ParseExpr, SkipNewlines, IsName, IsNumberText, Good, Level, Expect,
         FieldsGood, AllGood;
    PrimaryNested(s);
    CleanAdvance(plain, s);
    var t := SkipNewlines(Advance(s));
    SkipsClean(plain, Advance(s));
    NothingIsGood(plain);
    FieldsClose(plain, [], t);
    ExpectFits(plain, ParseFields([], t).next, RBRACE);
    GoodNested(plain, ParseFields([], t).val, []);
  }

  lemma NothingIsGood(plain: bool)
    ensures FieldsGood(plain, []) && AllGood(plain, [])
  {}

  lemma {:induction false} ListCloses(plain: bool, s: State)
    requires Fits(plain, s) && Kind(s) == LBRACKET && Quiet(s, ParsePrimary(s).next)
    ensures Closes(plain, ParsePrimary(s))
    decreases |s.rest|, 0
  {
    hide ParsePrimary, ParseFields, ParseElements, Clean, ParseExpr, SkipNewlines, IsName, IsNumberText, Good, Level, Expect,
         FieldsGood, AllGood;
    PrimaryNested(s);
    CleanAdvance(plain, s);
    var t := SkipNewlines(Advance(s));
    SkipsClean(plain, Advance(s));
    NothingIsGood(plain);
    ElementsClose(plain, [], t);
    ExpectFits(plain, ParseElements([], t).next, RBRACKET);
    GoodNested(plain, [], ParseElements([], t).val);
  }

  lemma GoodNames(plain: bool, name: string, args: seq<Expr>)
    requires plain ==> IsName(name)
    ensures Good(plain, Ident(name))
    ensures AllGood(plain, args) ==> Good(plain, Call(name, args)) && Level(Call(name, args)) == PRIMARY
  {
    hide IsName;
  }

  lemma {:induction false} NameCloses(plain: bool, s: State)
    requires Fits(plain, s) && Kind(s) == IDENT && Quiet(s, ParsePrimary(s).next)
    ensures Closes(plain, ParsePrimary(s))
    decreases |s.rest|, 0
  {
    hide ParsePrimary, ParseArgs, ParseDots, Clean, IsName, IsNumberText, Good, Level, Expect, AllGood;
    PrimaryName(s);
    CleanAdvance(plain, s);
    var t, name := Advance(s), Current(s).literal;
    if Kind(t) == LPAREN {
      CleanAdvance(plain, t);
      NothingIsGood(plain);
      ArgsClose(plain, [], Advance(t));
      ExpectFits(plain, ParseArgs([], Advance(t)).next, RPAREN);
      GoodNames(plain, name, ParseArgs([], Advance(t)).val);
    } else {
      GoodNames(plain, name, []);
      DotsClose(plain, Ident(name), t);
    }
  }

  lemma {:induction false} DotsClose(plain: bool, left: Expr, s: State)
    requires Fits(plain, s) && Quiet(s, ParseDots(left, s).next) && (left.Ident? || left.Dot?) && Good(plain, left)
    ensures var r := ParseDots(left, s); Good(plain, r.val) && Level(r.val) == PRIMARY && Fits(plain, r.next)
    decreases |s.rest|, 0
  {
    hide Clean, IsName;
    if Kind(s) == DOT {
      var r := ExpectIdent(Advance(s));
      CleanAdvance(plain, s);
      CleanAdvance(plain, Advance(s));
      DotsClose(plain, Dot(left, r.val), r.next);
    }
  }

  lemma {:induction false} ArgsClose(plain: bool, args: seq<Expr>, s: State)
    requires Fits(plain, s) && Quiet(s, ParseArgs(args, s).next) && AllGood(plain, args)
    ensures var r := ParseArgs(args, s); AllGood(plain, r.val) && Fits(plain, r.next)
    decreases |s.rest|, 12
  {
    hide Clean, ParseExpr, Good;
    if Kind(s) != RPAREN && !AtEnd(s) {
      var r := ParseExpr(s);
      ExprCloses(plain, s);
      CommaFits(plain, r.next);
      ArgsClose(plain, args + [r.val], SkipComma(r.next));
    }
  }

  lemma {:induction false} FieldCloses(plain: bool, s: State)
    requires Clean(plain, s) && Quiet(s, ParseField(s).next)
    ensures var r := ParseField(s); Good(plain, r.val.value) && (plain ==> IsName(r.val.key)) && Fits(plain, r.next)
    decreases |s.rest|, 12
  {
    hide Clean, ParseExpr, Good, IsName;
    CleanAdvance(plain, s);
    var key := ExpectIdentOrString(s);
    ExpectFits(plain, key.next, COLON);
    ExprCloses(plain, Expect(key.next, COLON));
  }

  lemma {:induction false} FieldsClose(plain: bool, fields: seq<Field>, s: State)
    requires Clean(plain, s) && Quiet(s, ParseFields(fields, s).next) && FieldsGood(plain, fields)
    ensures var r := ParseFields(fields, s); FieldsGood(plain, r.val) && Clean(plain, r.next)
    decreases |s.rest|, 13
  {
    hide Clean, ParseField, Good, IsName, SkipNewlines;
    if Kind(s) != RBRACE && !AtEnd(s) {
      var t := SkipNewlines(s);
      SkipsClean(plain, s);
      if Kind(t) != RBRACE {
        var r := ParseField(t);
        FieldCloses(plain, t);
        CommaFits(plain, r.next);
        FieldsClose(plain, fields + [r.val], SkipNewlines(SkipComma(r.next)));
      }
    }
  }

  lemma {:induction false} ElementsClose(plain: bool, elements: seq<Expr>, s: State)
    requires Fits(plain, s) && Quiet(s, ParseElements(elements, s).next) && AllGood(plain, elements)
    ensures var r := ParseElements(elements, s); AllGood(plain, r.val) && Clean(plain, r.next)
    decreases |s.rest|, 13
  {
    hide Clean, ParseExpr, Good, SkipNewlines;
    if Kind(s) != RBRACKET && !AtEnd(s) {
      var t := SkipNewlines(s);
      SkipsClean(plain, s);
      if Kind(t) != RBRACKET {
        var r := ParseExpr(t);
        ExprCloses(plain, t);
        CommaFits(plain, r.next);
        ElementsClose(plain, elements + [r.val], SkipNewlines(SkipComma(r.next)));
      }
    }
  }
}
