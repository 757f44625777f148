/**
 * An error-free parse of an expression or a statement neither loses nor invents anything: what it takes from the input
 * are the words of the tree it returns, in their order, and parentheses and braces that balance.
 */
module Conservation {
  import opened Text
  import opened Tokens
  import opened Ast
  import opened ParseSpec
  import opened ParseSteps

  // ---------------------------------------------------------------- words

  function Word(s: string): seq<Token> { if s == "" then [] else [Token(IDENT, s)] }

  function Sign(t: TokenType): seq<Token> { [Token(t, "")] }

  /** What a token contributes: names, texts and numbers themselves, operators and keywords their kind, separators nothing. */
  function Content(t: Token): seq<Token> {
    if t.typ in {IDENT, STRING} then Word(t.literal)
    else if t.typ == NUMBER then [t]
    else if t.typ in {NEWLINE, COMMENT, COMMA, LPAREN, RPAREN, LBRACE, RBRACE, HEREDOC_START, HEREDOC_BODY, KW_ELSE, EOF} then []
    else Sign(t.typ)
  }

  function Contents(ts: seq<Token>): seq<Token> { if ts == [] then [] else Content(ts[0]) + Contents(ts[1..]) }

  /** How many more parentheses, or braces, are opened than closed. */
  function Depth(ts: seq<Token>, open: TokenType, close: TokenType): int {
    if ts == [] then 0
    else (if ts[0].typ == open then 1 else if ts[0].typ == close then -1 else 0) + Depth(ts[1..], open, close)
  }

  function ExprWords(e: Expr): seq<Token>
    decreases e, 1
  {
    match e
    case StringLit(s) => Word(s)
    case NumberLit(n) => [Token(NUMBER, n)]
    case BoolLit(b) => Sign(if b then TRUE else FALSE)
    case Ident(n) => Word(n)
    case Dot(l, f) => ExprWords(l) + Sign(DOT) + Word(f)
    case Binary(l, op, r) => ExprWords(l) + Sign(KindOf(op)) + ExprWords(r)
    case Not(x) => Sign(KW_NOT) + ExprWords(x)
    case Call(f, args) => Word(f) + ListWords(args)
    case ObjectLit(fields) => FieldWords(fields)
    case Heredoc(_) => []
    case ListLit(elements) => Sign(LBRACKET) + ListWords(elements) + Sign(RBRACKET)
  }

  /** From the last to the first, the way the parser's lists grow. */
  function ListWords(es: seq<Expr>): seq<Token>
    decreases es, 0
  {
    if es == [] then [] else ListWords(es[..|es| - 1]) + ExprWords(es[|es| - 1])
  }

  function FieldWords(fs: seq<Field>): seq<Token>
    decreases fs, 0
  {
    if fs == [] then []
    else FieldWords(fs[..|fs| - 1]) + (Word(fs[|fs| - 1].key) + Sign(COLON) + ExprWords(fs[|fs| - 1].value))
  }

  // ---------------------------------------------------------------- reading

  /** Between s and r the words ws are read, and p parentheses and b braces stay open. */
  ghost predicate Reads(s: State, ws: seq<Token>, p: int, b: int, r: State) {
    && Contents(s.rest) == ws + Contents(r.rest)
    && Depth(s.rest, LPAREN, RPAREN) == p + Depth(r.rest, LPAREN, RPAREN)
    && Depth(s.rest, LBRACE, RBRACE) == b + Depth(r.rest, LBRACE, RBRACE)
  }

  ghost predicate Quiet(s: State, r: State) { |r.errors| == |s.errors| }

  lemma Then(s: State, a: seq<Token>, p: int, b: int, t: State, c: seq<Token>, q: int, d: int, r: State)
    requires Reads(s, a, p, b, t) && Reads(t, c, q, d, r)
    ensures Reads(s, a + c, p + q, b + d, r)
  {
    ConcatAssociates(a, c, Contents(r.rest));
    hide Contents, Depth;
  }

  lemma ThenNothing(s: State, a: seq<Token>, p: int, b: int, t: State, q: int, d: int, r: State)
    requires Reads(s, a, p, b, t) && Reads(t, [], q, d, r)
    ensures Reads(s, a, p + q, b + d, r)
  {
    Then(s, a, p, b, t, [], q, d, r);
    assert a + [] == a;
    hide Reads;
  }

  lemma Stays(s: State)
    ensures Reads(s, [], 0, 0, s)
  {
    hide Contents, Depth;
  }

  function Opens(t: TokenType, open: TokenType, close: TokenType): int { if t == open then 1 else if t == close then -1 else 0 }

  lemma Steps(s: State)
    requires s.rest != []
    ensures Reads(s, Content(Current(s)), Opens(Kind(s), LPAREN, RPAREN), Opens(Kind(s), LBRACE, RBRACE), Advance(s))
  {
    hide Content;
  }

  lemma {:induction false} SkipsRead(s: State)
    ensures Reads(s, [], 0, 0, SkipNewlines(s))
    decreases |s.rest|
  {
    hide Reads, Advance;
    Stays(s);
    if s.rest != [] && (Kind(s) == NEWLINE || Kind(s) == COMMENT) {
      Steps(s);
      SkipsRead(Advance(s));
      ThenNothing(s, [], 0, 0, Advance(s), 0, 0, SkipNewlines(Advance(s)));
    }
  }

  lemma CommaReads(s: State)
    ensures Reads(s, [], 0, 0, SkipComma(s))
  {
    hide Reads;
    Stays(s);
    if s.rest != [] { Steps(s); }
  }

  lemma CommaAndLinesRead(s: State)
    ensures Reads(s, [], 0, 0, SkipNewlines(SkipComma(s)))
  {
    hide Reads, SkipNewlines, SkipComma;
    CommaReads(s);
    SkipsRead(SkipComma(s));
    ThenNothing(s, [], 0, 0, SkipComma(s), 0, 0, SkipNewlines(SkipComma(s)));
  }

  lemma ExpectReads(s: State, t: TokenType)
    requires Quiet(s, Expect(s, t)) && t != EOF
    ensures Kind(s) == t && s.rest != []
    ensures Reads(s, Content(Current(s)), Opens(t, LPAREN, RPAREN), Opens(t, LBRACE, RBRACE), Expect(s, t))
  {
    hide Reads;
    if s.rest != [] { Steps(s); }
  }

  lemma IdentReads(s: State)
    requires Quiet(s, ExpectIdent(s).next)
    ensures Reads(s, Word(ExpectIdent(s).val), 0, 0, ExpectIdent(s).next)
  {
    hide Reads;
    if s.rest != [] { Steps(s); }
  }

  lemma NameReads(s: State)
    requires Quiet(s, ExpectIdentOrString(s).next)
    ensures Reads(s, Word(ExpectIdentOrString(s).val), 0, 0, ExpectIdentOrString(s).next)
  {
    hide Reads;
    if s.rest != [] { Steps(s); }
  }

  // ---------------------------------------------------------------- expressions

  lemma {:induction false} LevelKeeps(k: nat, s: State)
    requires k <= PRIMARY && Quiet(s, ParseLevel(k, s).next)
    ensures var r := ParseLevel(k, s); Reads(s, ExprWords(r.val), 0, 0, r.next)
    decreases |s.rest|, 10 - k
  {
    hide ParseLevel, ParsePrimary, Fold, Reads, ExprWords, Advance;
    UnaryUnfolds(s);
    if k == PRIMARY || (k == UNARY && Kind(s) != KW_NOT) {
      PrimaryKeeps(s);
    } else if k == UNARY {
      LevelKeeps(UNARY, Advance(s));
      NotReads(s, ParseLevel(UNARY, Advance(s)));
    } else {
      LevelUnfolds(k, s);
      var r := ParseLevel(k + 1, s);
      LevelKeeps(k + 1, s);
      FoldKeeps(k, s, r.val, r.next);
    }
  }

  lemma NotReads(s: State, r: Parsed<Expr>)
    requires Kind(s) == KW_NOT && Reads(Advance(s), ExprWords(r.val), 0, 0, r.next)
    ensures Reads(s, ExprWords(Not(r.val)), 0, 0, r.next)
  {
    hide Reads, ExprWords, Advance;
    Steps(s);
    Then(s, Sign(KW_NOT), 0, 0, Advance(s), ExprWords(r.val), 0, 0, r.next);
    NotWords(r.val);
  }

  lemma NotWords(x: Expr)
    ensures ExprWords(Not(x)) == Sign(KW_NOT) + ExprWords(x)
  {}

  lemma BinaryWords(l: Expr, op: BinOp, r: Expr)
    ensures ExprWords(Binary(l, op, r)) == ExprWords(l) + Sign(KindOf(op)) + ExprWords(r)
  {}

  /** The fold reads on from the words of its left operand, which began at s. */
  lemma {:induction false} FoldKeeps(k: nat, s: State, left: Expr, t: State)
    requires k < UNARY && Quiet(t, Fold(k, left, t).next) && Reads(s, ExprWords(left), 0, 0, t)
    ensures var r := Fold(k, left, t); Reads(s, ExprWords(r.val), 0, 0, r.next)
    decreases |t.rest|, 0
  {
    hide ParseLevel, Fold, Reads, ExprWords, Advance;
    FoldCases(k, left, t);
    if OperatorAt(t, k) {
      var op, r := OperatorOf(Current(t)).value, ParseLevel(k + 1, Advance(t));
      LevelKeeps(k + 1, Advance(t));
      OperatorReads(s, left, t, op, r);
      FoldKeeps(k, s, Binary(left, op, r.val), r.next);
    }
  }

  lemma OperatorReads(s: State, left: Expr, t: State, op: BinOp, r: Parsed<Expr>)
    requires Reads(s, ExprWords(left), 0, 0, t) && OperatorOf(Current(t)) == Some(op)
    requires Reads(Advance(t), ExprWords(r.val), 0, 0, r.next)
    ensures t.rest != [] && Reads(s, ExprWords(Binary(left, op, r.val)), 0, 0, r.next)
  {
    hide Reads, ExprWords, Advance;
    assert Kind(t) == KindOf(op) && t.rest != [] && Content(Current(t)) == Sign(KindOf(op));
    hide OperatorOf, Content;
    Steps(t);
    Then(s, ExprWords(left), 0, 0, t, Sign(KindOf(op)), 0, 0, Advance(t));
    Then(s, ExprWords(left) + Sign(KindOf(op)), 0, 0, Advance(t), ExprWords(r.val), 0, 0, r.next);
    BinaryWords(left, op, r.val);
  }

  lemma FoldCases(k: nat, left: Expr, s: State)
    requires k < UNARY
    ensures OperatorAt(s, k) ==>
      var r := ParseLevel(k + 1, Advance(s)); Fold(k, left, s) == Fold(k, Binary(left, OperatorOf(Current(s)).value, r.val), r.next)
    ensures !OperatorAt(s, k) ==> Fold(k, left, s) == Parsed(left, s)
  {
    hide ParseLevel;
  }

  lemma {:induction false} ExprKeeps(s: State)
    requires Quiet(s, ParseExpr(s).next)
    ensures Reads(s, ExprWords(ParseExpr(s).val), 0, 0, ParseExpr(s).next)
    decreases |s.rest|, 11
  {
    hide ParseLevel, Reads, ExprWords;
    LevelKeeps(0, s);
  }

  lemma {:induction false} PrimaryKeeps(s: State)
    requires Quiet(s, ParsePrimary(s).next)
    ensures Reads(s, ExprWords(ParsePrimary(s).val), 0, 0, ParsePrimary(s).next)
    decreases |s.rest|, 1
  {
    hide ParsePrimary, Reads, ExprWords;
    match Kind(s)
    case LBRACE => ObjectKeeps(s);
    case LBRACKET => ListKeeps(s);
    case LPAREN => GroupKeeps(s);
    case IDENT => NameKeeps(s);
    case _ => LiteralKeeps(s);
  }

  lemma LiteralWords(s: string, n: string, b: bool, c: string)
    ensures ExprWords(StringLit(s)) == Word(s) && ExprWords(NumberLit(n)) == [Token(NUMBER, n)]
    ensures ExprWords(BoolLit(b)) == Sign(if b then TRUE else FALSE) && ExprWords(Heredoc(c)) == []
  {}

  lemma LiteralKeeps(s: State)
    requires Kind(s) !in {LBRACE, LBRACKET, LPAREN, IDENT} && Quiet(s, ParsePrimary(s).next)
    ensures Reads(s, ExprWords(ParsePrimary(s).val), 0, 0, ParsePrimary(s).next)
  {
    hide ParsePrimary, Reads, ExprWords, Advance;
    PrimaryLiteral(s);
    var lit := Current(s).literal;
    LiteralWords(lit, lit, true, "");
    LiteralWords(lit, lit, false, "");
    LiteralIsRead(s);
    hide Content, Word;
    if Kind(s) == HEREDOC_START {
      LiteralWords(lit, lit, true, Current(Advance(s)).literal);
      if Kind(Advance(s)) == HEREDOC_BODY { BodyReads(s, Advance(s)); }
    }
  }

  lemma LiteralIsRead(s: State)
    requires Kind(s) in {STRING, NUMBER, TRUE, FALSE, HEREDOC_START}
    ensures var lit, t := Current(s).literal, Advance(s);
      match Kind(s)
      case STRING => Reads(s, Word(lit), 0, 0, t)
      case NUMBER => Reads(s, [Token(NUMBER, lit)], 0, 0, t)
      case TRUE => Reads(s, Sign(TRUE), 0, 0, t)
      case FALSE => Reads(s, Sign(FALSE), 0, 0, t)
      case _ => Reads(s, [], 0, 0, t)
  {
    hide Reads;
    Steps(s);
  }

  lemma BodyReads(s: State, t: State)
    requires Reads(s, [], 0, 0, t) && Kind(t) == HEREDOC_BODY
    ensures Reads(s, [], 0, 0, Advance(t))
  {
    hide Reads;
    Steps(t);
    ThenNothing(s, [], 0, 0, t, 0, 0, Advance(t));
  }

  lemma {:induction false} GroupKeeps(s: State)
    requires Kind(s) == LPAREN && Quiet(s, ParsePrimary(s).next)
    ensures Reads(s, ExprWords(ParsePrimary(s).val), 0, 0, ParsePrimary(s).next)
    decreases |s.rest|, 0
  {
    hide ParsePrimary, ParseExpr, Reads, ExprWords, Expect;
    PrimaryNested(s);
    Steps(s);
    var r := ParseExpr(Advance(s));
    ExprKeeps(Advance(s));
    ExpectReads(r.next, RPAREN);
    Then(s, [], 1, 0, Advance(s), ExprWords(r.val), 0, 0, r.next);
    assert [] + ExprWords(r.val) == ExprWords(r.val);
    ThenNothing(s, ExprWords(r.val), 1, 0, r.next, -1, 0, Expect(r.next, RPAREN));
  }

  lemma NestedWords(fields: seq<Field>, elements: seq<Expr>, f: string)
    ensures ExprWords(ObjectLit(fields)) == FieldWords(fields)
    ensures ExprWords(ListLit(elements)) == Sign(LBRACKET) + ListWords(elements) + Sign(RBRACKET)
    ensures ExprWords(Call(f, elements)) == Word(f) + ListWords(elements)
    ensures ListWords([]) == [] && FieldWords([]) == []
  {}

  lemma {:induction false} ObjectKeeps(s: State)
    requires Kind(s) == LBRACE && Quiet(s, ParsePrimary(s).next)
    ensures Reads(s, ExprWords(ParsePrimary(s).val), 0, 0, ParsePrimary(s).next)
    decreases |s.rest|, 0
  {
    hide ParsePrimary, ParseFields, SkipNewlines, Reads, ExprWords, FieldWords, Expect;
    PrimaryNested(s);
    var t := SkipNewlines(Advance(s));
    var r := ParseFields([], t);
    Steps(s);
    SkipsRead(Advance(s));
    ThenNothing(s, [], 0, 1, Advance(s), 0, 0, t);
    NestedWords(r.val, [], "");
    FieldsKeep(s, [], t);
    ExpectReads(r.next, RBRACE);
    ThenNothing(s, FieldWords(r.val), 0, 1, r.next, 0, -1, Expect(r.next, RBRACE));
  }

  lemma {:induction false} ListKeeps(s: State)
    requires Kind(s) == LBRACKET && Quiet(s, ParsePrimary(s).next)
    ensures Reads(s, ExprWords(ParsePrimary(s).val), 0, 0, ParsePrimary(s).next)
    decreases |s.rest|, 0
  {
    hide ParsePrimary, ParseElements, SkipNewlines, Reads, ExprWords, ListWords, Expect;
    PrimaryNested(s);
    var t := SkipNewlines(Advance(s));
    var r := ParseElements([], t);
    NestedWords([], r.val, "");
    Stays(t);
    ElementsKeep(t, [], t);
    BracketsRead(s, r);
  }

  lemma BracketsRead(s: State, r: Parsed<seq<Expr>>)
    requires Kind(s) == LBRACKET && s.rest != [] && Quiet(r.next, Expect(r.next, RBRACKET))
    requires Reads(SkipNewlines(Advance(s)), ListWords(r.val), 0, 0, r.next)
    ensures Reads(s, Sign(LBRACKET) + ListWords(r.val) + Sign(RBRACKET), 0, 0, Expect(r.next, RBRACKET))
  {
    hide SkipNewlines, Reads, ListWords, Expect;
    var t := SkipNewlines(Advance(s));
    Steps(s);
    SkipsRead(Advance(s));
    hide Advance;
    ThenNothing(s, Sign(LBRACKET), 0, 0, Advance(s), 0, 0, t);
    Then(s, Sign(LBRACKET), 0, 0, t, ListWords(r.val), 0, 0, r.next);
    ExpectReads(r.next, RBRACKET);
    Then(s, Sign(LBRACKET) + ListWords(r.val), 0, 0, r.next, Sign(RBRACKET), 0, 0, Expect(r.next, RBRACKET));
  }

  lemma {:induction false} NameKeeps(s: State)
    requires Kind(s) == IDENT && Quiet(s, ParsePrimary(s).next)
    ensures Reads(s, ExprWords(ParsePrimary(s).val), 0, 0, ParsePrimary(s).next)
    decreases |s.rest|, 0
  {
    hide ParsePrimary, ParseArgs, ParseDots, Reads, ExprWords, ListWords, Expect;
    PrimaryName(s);
    Steps(s);
    var name, t := Current(s).literal, Advance(s);
    if Kind(t) == LPAREN {
      var r := ParseArgs([], Advance(t));
      NestedWords([], r.val, name);
      Stays(Advance(t));
      ArgsKeep(Advance(t), [], Advance(t));
      CallReads(s, name, t, r);
    } else {
      NameWords(name, Ident(name), "");
      DotsKeep(s, Ident(name), t);
    }
  }

  lemma CallReads(s: State, name: string, t: State, r: Parsed<seq<Expr>>)
    requires Reads(s, Word(name), 0, 0, t) && Kind(t) == LPAREN && t.rest != []
    requires Reads(Advance(t), ListWords(r.val), 0, 0, r.next) && Quiet(r.next, Expect(r.next, RPAREN))
    ensures Reads(s, Word(name) + ListWords(r.val), 0, 0, Expect(r.next, RPAREN))
  {
    hide Reads, ListWords, Expect;
    var u := Advance(t);
    Steps(t);
    hide Advance;
    ThenNothing(s, Word(name), 0, 0, t, 1, 0, u);
    Then(s, Word(name), 1, 0, u, ListWords(r.val), 0, 0, r.next);
    ExpectReads(r.next, RPAREN);
    ThenNothing(s, Word(name) + ListWords(r.val), 1, 0, r.next, -1, 0, Expect(r.next, RPAREN));
  }

  lemma NameWords(name: string, l: Expr, f: string)
    ensures ExprWords(Ident(name)) == Word(name) && ExprWords(Dot(l, f)) == ExprWords(l) + Sign(DOT) + Word(f)
  {}

  lemma {:induction false} DotsKeep(s: State, left: Expr, t: State)
    requires Quiet(t, ParseDots(left, t).next) && Reads(s, ExprWords(left), 0, 0, t)
    ensures var r := ParseDots(left, t); Reads(s, ExprWords(r.val), 0, 0, r.next)
    decreases |t.rest|, 0
  {
    hide Reads, ExprWords, ExpectIdent;
    if Kind(t) == DOT {
      var u := Advance(t);
      var f := ExpectIdent(u);
      Steps(t);
      assert Quiet(u, f.next);
      IdentReads(u);
      Then(s, ExprWords(left), 0, 0, t, Sign(DOT), 0, 0, u);
      Then(s, ExprWords(left) + Sign(DOT), 0, 0, u, Word(f.val), 0, 0, f.next);
      NameWords("", left, f.val);
      DotsKeep(s, Dot(left, f.val), f.next);
    }
  }

  lemma OneMoreItem(es: seq<Expr>, e: Expr)
    ensures ListWords(es + [e]) == ListWords(es) + ExprWords(e)
  {
    assert (es + [e])[..|es|] == es;
  }

  lemma {:induction false} ArgsKeep(s: State, args: seq<Expr>, t: State)
    requires Quiet(t, ParseArgs(args, t).next) && Reads(s, ListWords(args), 0, 0, t)
    ensures var r := ParseArgs(args, t); Reads(s, ListWords(r.val), 0, 0, r.next)
    decreases |t.rest|, 12
  {
    hide Reads, ExprWords, ListWords, ParseExpr, SkipComma;
    if Kind(t) != RPAREN && !AtEnd(t) {
      var r := ParseExpr(t);
      ExprKeeps(t);
      CommaReads(r.next);
      ItemReads(s, args, t, r, SkipComma(r.next));
      ArgsKeep(s, args + [r.val], SkipComma(r.next));
    }
  }

  lemma ItemReads(s: State, es: seq<Expr>, t: State, r: Parsed<Expr>, u: State)
    requires Reads(s, ListWords(es), 0, 0, t) && Reads(t, ExprWords(r.val), 0, 0, r.next) && Reads(r.next, [], 0, 0, u)
    ensures Reads(s, ListWords(es + [r.val]), 0, 0, u)
  {
    hide Reads, ExprWords, ListWords;
    Then(s, ListWords(es), 0, 0, t, ExprWords(r.val), 0, 0, r.next);
    ThenNothing(s, ListWords(es) + ExprWords(r.val), 0, 0, r.next, 0, 0, u);
    OneMoreItem(es, r.val);
  }

  lemma {:induction false} ElementsKeep(s: State, elements: seq<Expr>, t: State)
    requires Quiet(t, ParseElements(elements, t).next) && Reads(s, ListWords(elements), 0, 0, t)
    ensures var r := ParseElements(elements, t); Reads(s, ListWords(r.val), 0, 0, r.next)
    decreases |t.rest|, 13
  {
    hide Reads, ExprWords, ListWords, ParseExpr, SkipComma, SkipNewlines;
    if Kind(t) != RBRACKET && !AtEnd(t) {
      var u := SkipNewlines(t);
      SkipsRead(t);
      ThenNothing(s, ListWords(elements), 0, 0, t, 0, 0, u);
      if Kind(u) != RBRACKET {
        var r := ParseExpr(u);
        ExprKeeps(u);
        CommaAndLinesRead(r.next);
        ItemReads(s, elements, u, r, SkipNewlines(SkipComma(r.next)));
        ElementsKeep(s, elements + [r.val], SkipNewlines(SkipComma(r.next)));
      }
    }
  }

  lemma {:induction false} FieldKeeps(s: State)
    requires Quiet(s, ParseField(s).next)
    ensures var r := ParseField(s); Reads(s, Word(r.val.key) + Sign(COLON) + ExprWords(r.val.value), 0, 0, r.next)
    decreases |s.rest|, 12
  {
    hide Reads, ExprWords, ParseExpr, ExpectIdentOrString, Expect;
    var key := ExpectIdentOrString(s);
    var t := Expect(key.next, COLON);
    var r := ParseExpr(t);
    NameReads(s);
    ExpectReads(key.next, COLON);
    ExprKeeps(t);
    Then(s, Word(key.val), 0, 0, key.next, Sign(COLON), 0, 0, t);
    Then(s, Word(key.val) + Sign(COLON), 0, 0, t, ExprWords(r.val), 0, 0, r.next);
  }

  lemma OneMoreField(fs: seq<Field>, f: Field)
    ensures FieldWords(fs + [f]) == FieldWords(fs) + (Word(f.key) + Sign(COLON) + ExprWords(f.value))
  {
    assert (fs + [f])[..|fs|] == fs;
  }

  lemma {:induction false} FieldsKeep(s: State, fields: seq<Field>, t: State)
    requires Quiet(t, ParseFields(fields, t).next) && Reads(s, FieldWords(fields), 0, 1, t)
    ensures var r := ParseFields(fields, t); Reads(s, FieldWords(r.val), 0, 1, r.next)
    decreases |t.rest|, 13
  {
    hide Reads, ExprWords, FieldWords, ParseField, SkipComma, SkipNewlines;
    if Kind(t) != RBRACE && !AtEnd(t) {
      var u := SkipNewlines(t);
      SkipsRead(t);
      ThenNothing(s, FieldWords(fields), 0, 1, t, 0, 0, u);
      if Kind(u) != RBRACE {
        var r := ParseField(u);
        var ws, v := Word(r.val.key) + Sign(COLON) + ExprWords(r.val.value), SkipNewlines(SkipComma(r.next));
        FieldKeeps(u);
        CommaAndLinesRead(r.next);
        Then(s, FieldWords(fields), 0, 1, u, ws, 0, 0, r.next);
        ThenNothing(s, FieldWords(fields) + ws, 0, 1, r.next, 0, 0, v);
        OneMoreField(fields, r.val);
        FieldsKeep(s, fields + [r.val], v);
      }
    }
  }

  // ---------------------------------------------------------------- statements

  /** The words but for numbers: a file mode is kept as its value, and the parser leaves out a mode of zero. */
  function Texts(ws: seq<Token>): seq<Token> {
    if ws == [] then [] else (if ws[0].typ == NUMBER then [] else [ws[0]]) + Texts(ws[1..])
  }

  function GuardWords(guard: Option<Expr>): seq<Token> {
    if guard.Some? then Sign(KW_WHEN) + ExprWords(guard.value) else []
  }

  function StmtWords(st: Stmt): seq<Token>
    decreases st, 1
  {
    match st
    case ArgStmt(args, guard) => Sign(KW_ARG) + ListWords(args) + GuardWords(guard)
    case FileStmt(path, content, _, guard) => Sign(KW_FILE) + ExprWords(path) + ExprWords(content) + GuardWords(guard)
    case MkdirStmt(path) => Sign(KW_MKDIR) + ExprWords(path)
    case AssignStmt(name, value) => Word(name) + Sign(ASSIGN) + ExprWords(value)
    case IfStmt(condition, body, otherwise) => Sign(KW_IF) + ExprWords(condition) + BlockWords(body) + BlockWords(otherwise)
    case ForStmt(key, val, iter, body) => Sign(KW_FOR) + Word(key) + Word(val) + Sign(KW_IN) + ExprWords(iter) + BlockWords(body)
  }

  function BlockWords(ss: seq<Stmt>): seq<Token>
    decreases ss, 0
  {
    if ss == [] then [] else BlockWords(ss[..|ss| - 1]) + StmtWords(ss[|ss| - 1])
  }

  /** Between s and r the texts of ws are read, all parentheses close, and b braces stay open. */
  ghost predicate Takes(s: State, ws: seq<Token>, b: int, r: State) {
    && Texts(Contents(s.rest)) == Texts(ws) + Texts(Contents(r.rest))
    && Depth(s.rest, LPAREN, RPAREN) == Depth(r.rest, LPAREN, RPAREN)
    && Depth(s.rest, LBRACE, RBRACE) == b + Depth(r.rest, LBRACE, RBRACE)
  }

  lemma {:induction false} TextsConcat(a: seq<Token>, c: seq<Token>)
    ensures Texts(a + c) == Texts(a) + Texts(c)
  {
    if a == [] {
      assert a + c == c;
    } else {
      assert (a + c)[1..] == a[1..] + c;
      TextsConcat(a[1..], c);
    }
  }

  lemma ReadsTake(s: State, ws: seq<Token>, b: int, r: State)
    requires Reads(s, ws, 0, b, r)
    ensures Takes(s, ws, b, r)
  {
    TextsConcat(ws, Contents(r.rest));
    hide Contents, Depth, Texts;
  }

  lemma TakesThen(s: State, a: seq<Token>, b: int, t: State, c: seq<Token>, d: int, r: State)
    requires Takes(s, a, b, t) && Takes(t, c, d, r)
    ensures Takes(s, a + c, b + d, r)
  {
    TextsConcat(a, c);
    ConcatAssociates(Texts(a), Texts(c), Texts(Contents(r.rest)));
    hide Contents, Depth, Texts;
  }

  lemma TakesNothing(s: State, a: seq<Token>, b: int, t: State, d: int, r: State)
    requires Takes(s, a, b, t) && Takes(t, [], d, r)
    ensures Takes(s, a, b + d, r)
  {
    TakesThen(s, a, b, t, [], d, r);
    assert a + [] == a;
    hide Takes;
  }

  lemma TakesFrom(s: State)
    ensures Takes(s, [], 0, s)
  {
    hide Contents, Depth;
  }

  lemma TakesOne(s: State)
    requires s.rest != [] && Kind(s) !in {LPAREN, RPAREN}
    ensures Takes(s, Content(Current(s)), Opens(Kind(s), LBRACE, RBRACE), Advance(s))
  {
    Steps(s);
    ReadsTake(s, Content(Current(s)), Opens(Kind(s), LBRACE, RBRACE), Advance(s));
    hide Reads, Takes, Content;
  }

  lemma TakesExpr(s: State)
    requires Quiet(s, ParseExpr(s).next)
    ensures Takes(s, ExprWords(ParseExpr(s).val), 0, ParseExpr(s).next)
  {
    hide Reads, Takes, ParseExpr, ExprWords;
    ExprKeeps(s);
    ReadsTake(s, ExprWords(ParseExpr(s).val), 0, ParseExpr(s).next);
  }

  lemma TakesExpected(s: State, t: TokenType)
    requires Quiet(s, Expect(s, t)) && t !in {EOF, LPAREN, RPAREN}
    ensures Kind(s) == t && Takes(s, Content(Current(s)), Opens(t, LBRACE, RBRACE), Expect(s, t))
  {
    hide Takes, Content;
    ExpectReads(s, t);
    TakesOne(s);
  }

  lemma TakesIdent(s: State)
    requires Quiet(s, ExpectIdent(s).next)
    ensures Takes(s, Word(ExpectIdent(s).val), 0, ExpectIdent(s).next)
  {
    hide Reads, Takes, ExpectIdent;
    IdentReads(s);
    ReadsTake(s, Word(ExpectIdent(s).val), 0, ExpectIdent(s).next);
  }

  lemma TakesLines(s: State)
    ensures Takes(s, [], 0, SkipNewlines(s))
  {
    hide Reads, Takes, SkipNewlines;
    SkipsRead(s);
    ReadsTake(s, [], 0, SkipNewlines(s));
  }

  lemma {:induction false} TakesComments(s: State)
    ensures Takes(s, [], 0, SkipComments(s))
    decreases |s.rest|
  {
    hide Takes, Advance;
    TakesFrom(s);
    if !AtEnd(s) && Kind(s) == COMMENT {
      TakesOne(s);
      TakesComments(Advance(s));
      TakesNothing(s, [], 0, Advance(s), 0, SkipComments(Advance(s)));
    }
  }

  lemma TakesLineEnd(s: State)
    ensures Takes(s, [], 0, ExpectNewline(s))
  {
    hide Takes, SkipComments, Advance;
    TakesComments(s);
    var t := SkipComments(s);
    if Kind(t) == NEWLINE {
      TakesOne(t);
      TakesNothing(s, [], 0, t, 0, Advance(t));
    }
  }

  lemma TakesGuard(s: State)
    requires Quiet(s, ParseGuard(s).next)
    ensures Takes(s, GuardWords(ParseGuard(s).val), 0, ParseGuard(s).next)
  {
    hide Takes, ParseExpr, ExprWords, Advance;
    TakesFrom(s);
    if Kind(s) == KW_WHEN {
      TakesOne(s);
      TakesExpr(Advance(s));
      TakesThen(s, Sign(KW_WHEN), 0, Advance(s), ExprWords(ParseExpr(Advance(s)).val), 0, ParseExpr(Advance(s)).next);
    }
  }

  lemma {:induction false} TakesArgs(s: State, ws: seq<Token>, args: seq<Expr>, t: State)
    requires Quiet(t, ParseArgList(args, t).next) && Takes(s, ws + ListWords(args), 0, t)
    ensures var r := ParseArgList(args, t); Takes(s, ws + ListWords(r.val), 0, r.next)
    decreases |t.rest|
  {
    hide Takes, ParseExpr, ExprWords, ListWords;
    if !IsNewlineOrEnd(t) && Kind(t) != KW_WHEN {
      var r := ParseExpr(t);
      TakesExpr(t);
      TakesThen(s, ws + ListWords(args), 0, t, ExprWords(r.val), 0, r.next);
      ConcatAssociates(ws, ListWords(args), ExprWords(r.val));
      OneMoreItem(args, r.val);
      TakesArgs(s, ws, args + [r.val], r.next);
    }
  }

  /** From a statement's words to the end of its line. */
  lemma TakesRestOfLine(s: State, ws: seq<Token>, t: State, guard: Parsed<Option<Expr>>)
    requires Takes(s, ws, 0, t) && guard == ParseGuard(t) && Quiet(t, guard.next)
    ensures Takes(s, ws + GuardWords(guard.val), 0, ExpectNewline(guard.next))
  {
    hide Takes, ParseGuard, GuardWords, ExpectNewline;
    TakesGuard(t);
    TakesThen(s, ws, 0, t, GuardWords(guard.val), 0, guard.next);
    TakesLineEnd(guard.next);
    TakesNothing(s, ws + GuardWords(guard.val), 0, guard.next, 0, ExpectNewline(guard.next));
  }

  ghost predicate StmtKept(s: State, r: Parsed<Stmt>) { Takes(s, StmtWords(r.val), 0, r.next) }

  lemma ArgStmtKept(s: State)
    requires Kind(s) == KW_ARG && Quiet(s, ParseArgStmt(s).next)
    ensures StmtKept(s, ParseArgStmt(s))
  {
    hide Takes, ParseArgList, ParseGuard, GuardWords, ListWords, ExpectNewline, Advance;
    var t := Advance(s);
    var args := ParseArgList([], t);
    TakesOne(s);
    assert Sign(KW_ARG) + ListWords([]) == Sign(KW_ARG) by { NestedWords([], [], ""); }
    TakesArgs(s, Sign(KW_ARG), [], t);
    TakesRestOfLine(s, Sign(KW_ARG) + ListWords(args.val), args.next, ParseGuard(args.next));
  }

  lemma MkdirStmtKept(s: State)
    requires Kind(s) == KW_MKDIR && Quiet(s, ParseMkdirStmt(s).next)
    ensures StmtKept(s, ParseMkdirStmt(s))
  {
    hide Takes, ParseExpr, ExprWords, ExpectNewline, Advance;
    var t := Advance(s);
    var path := ParseExpr(t);
    TakesOne(s);
    TakesExpr(t);
    TakesThen(s, Sign(KW_MKDIR), 0, t, ExprWords(path.val), 0, path.next);
    TakesLineEnd(path.next);
    TakesNothing(s, Sign(KW_MKDIR) + ExprWords(path.val), 0, path.next, 0, ExpectNewline(path.next));
  }

  lemma AssignStmtKept(s: State)
    requires Kind(s) == IDENT && PeekIs(s, ASSIGN) && Quiet(s, ParseAssignStmt(s).next)
    ensures StmtKept(s, ParseAssignStmt(s))
  {
    hide Takes, ParseExpr, ExprWords, ExpectNewline;
    var name, t := Current(s).literal, Advance(s);
    var u := Advance(t);
    var value := ParseExpr(u);
    TakesOne(s);
    TakesOne(t);
    TakesExpr(u);
    TakesThen(s, Word(name), 0, t, Sign(ASSIGN), 0, u);
    TakesThen(s, Word(name) + Sign(ASSIGN), 0, u, ExprWords(value.val), 0, value.next);
    TakesLineEnd(value.next);
    TakesNothing(s, Word(name) + Sign(ASSIGN) + ExprWords(value.val), 0, value.next, 0, ExpectNewline(value.next));
  }

  /** The number of a file mode is read, and kept as the value it stands for. */
  lemma TakesMode(s: State)
    requires Kind(s) == NUMBER && Quiet(s, ExpectInt(s).next)
    ensures Takes(s, [], 0, ExpectInt(s).next)
  {
    TakesOne(s);
    NumberIsNoText(s, Current(s));
    hide Takes;
  }

  lemma NumberIsNoText(s: State, n: Token)
    requires n.typ == NUMBER && Takes(s, [n], 0, Advance(s))
    ensures Takes(s, [], 0, Advance(s))
  {
    assert [n][1..] == [] && Texts([n]) == Texts([]);
    hide Contents, Depth;
  }

  lemma FileStmtKept(s: State)
    requires Kind(s) == KW_FILE && Quiet(s, ParseFileStmt(s).next)
    ensures StmtKept(s, ParseFileStmt(s))
  {
    hide Takes, ParseExpr, ExprWords, ParseGuard, GuardWords, ExpectNewline, Advance, ExpectInt;
    var t := Advance(s);
    var path := ParseExpr(t);
    var content := ParseExpr(path.next);
    var mode := if Kind(content.next) == NUMBER then ExpectInt(content.next) else Parsed(0, content.next);
    TakesOne(s);
    TakesExpr(t);
    TakesThen(s, Sign(KW_FILE), 0, t, ExprWords(path.val), 0, path.next);
    TakesExpr(path.next);
    TakesThen(s, Sign(KW_FILE) + ExprWords(path.val), 0, path.next, ExprWords(content.val), 0, content.next);
    var ws := Sign(KW_FILE) + ExprWords(path.val) + ExprWords(content.val);
    if Kind(content.next) == NUMBER {
      TakesMode(content.next);
      TakesNothing(s, ws, 0, content.next, 0, mode.next);
    }
    TakesRestOfLine(s, ws, mode.next, ParseGuard(mode.next));
  }

  lemma OneMoreStmt(ss: seq<Stmt>, st: Stmt)
    ensures BlockWords(ss + [st]) == BlockWords(ss) + StmtWords(st) && BlockWords([]) == []
  {
    assert (ss + [st])[..|ss|] == ss;
  }

  lemma {:induction false} StatementsKept(s: State, ss: seq<Stmt>, t: State)
    requires Quiet(t, ParseStatements(ss, t).next) && Takes(s, BlockWords(ss), 1, t)
    ensures var r := ParseStatements(ss, t); Takes(s, BlockWords(r.val), 1, r.next)
    decreases |t.rest|, 2
  {
    hide Takes, BlockWords, TryStatement, SkipNewlines, ParseStatements, StmtWords;
    if Kind(t) == RBRACE || AtEnd(t) {
      StatementsEnd(ss, t);
    } else {
      StatementsGoOn(ss, t);
      var u := SkipNewlines(t);
      TakesLines(t);
      TakesNothing(s, BlockWords(ss), 1, t, 0, u);
      if Kind(u) == RBRACE {
        StatementsEnd(ss, u);
      } else {
        var r := TryStatement(u);
        assert r.Some?;
        StatementKept(u);
        TakesThen(s, BlockWords(ss), 1, u, StmtWords(r.value.val), 0, r.value.next);
        OneMoreStmt(ss, r.value.val);
        StatementsKept(s, ss + [r.value.val], r.value.next);
      }
    }
  }

  lemma {:induction false} BlockKept(s: State)
    requires Quiet(s, ParseBlock(s).next)
    ensures Takes(s, BlockWords(ParseBlock(s).val), 0, ParseBlock(s).next)
    decreases |s.rest|, 3
  {
    hide Takes, BlockWords, ParseStatements, SkipNewlines, Expect;
    var t := SkipNewlines(s);
    var u := Expect(t, LBRACE);
    var v := SkipNewlines(u);
    var r := ParseStatements([], v);
    TakesLines(s);
    TakesExpected(t, LBRACE);
    TakesNothing(s, [], 0, t, 1, u);
    TakesLines(u);
    TakesNothing(s, [], 1, u, 0, v);
    OneMoreStmt([], MkdirStmt(Ident("")));
    StatementsKept(s, [], v);
    TakesExpected(r.next, RBRACE);
    TakesNothing(s, BlockWords(r.val), 1, r.next, -1, Expect(r.next, RBRACE));
  }

  lemma {:induction false} IfStmtKept(s: State)
    requires Kind(s) == KW_IF && s.rest != [] && Quiet(s, ParseIfStmt(s).next)
    ensures StmtKept(s, ParseIfStmt(s))
    decreases |s.rest|, 0
  {
    hide Takes, ParseExpr, ExprWords, ParseBlock, BlockWords, SkipNewlines;
    var t := Advance(s);
    var condition := ParseExpr(t);
    var body := ParseBlock(condition.next);
    var u := SkipNewlines(body.next);
    TakesOne(s);
    TakesExpr(t);
    TakesThen(s, Sign(KW_IF), 0, t, ExprWords(condition.val), 0, condition.next);
    BlockKept(condition.next);
    TakesThen(s, Sign(KW_IF) + ExprWords(condition.val), 0, condition.next, BlockWords(body.val), 0, body.next);
    var ws := Sign(KW_IF) + ExprWords(condition.val) + BlockWords(body.val);
    TakesLines(body.next);
    TakesNothing(s, ws, 0, body.next, 0, u);
    if Kind(u) == KW_ELSE {
      var v := Advance(u);
      TakesOne(u);
      TakesNothing(s, ws, 0, u, 0, v);
      BlockKept(v);
      TakesThen(s, ws, 0, v, BlockWords(ParseBlock(v).val), 0, ParseBlock(v).next);
    } else {
      OneMoreStmt([], MkdirStmt(Ident("")));
      assert ws + [] == ws;
    }
    hide Advance;
  }

  lemma {:induction false} ForStmtKept(s: State)
    requires Kind(s) == KW_FOR && s.rest != [] && Quiet(s, ParseForStmt(s).next)
    ensures StmtKept(s, ParseForStmt(s))
    decreases |s.rest|, 0
  {
    hide Takes, ParseExpr, ExprWords, ParseBlock, BlockWords, ExpectIdent, Expect;
    var t := Advance(s);
    var key := ExpectIdent(t);
    var val := if Kind(key.next) == COMMA then ExpectIdent(Advance(key.next)) else Parsed("", key.next);
    var u := Expect(val.next, KW_IN);
    var iter := ParseExpr(u);
    var body := ParseBlock(iter.next);
    TakesOne(s);
    TakesIdent(t);
    TakesThen(s, Sign(KW_FOR), 0, t, Word(key.val), 0, key.next);
    var head := Sign(KW_FOR) + Word(key.val);
    TakesValue(s, head, key.next, val);
    TakesExpected(val.next, KW_IN);
    TakesThen(s, head + Word(val.val), 0, val.next, Sign(KW_IN), 0, u);
    TakesExpr(u);
    TakesThen(s, head + Word(val.val) + Sign(KW_IN), 0, u, ExprWords(iter.val), 0, iter.next);
    BlockKept(iter.next);
    TakesThen(s, head + Word(val.val) + Sign(KW_IN) + ExprWords(iter.val), 0, iter.next, BlockWords(body.val), 0, body.next);
    hide Advance;
  }

  lemma TakesValue(s: State, ws: seq<Token>, t: State, val: Parsed<string>)
    requires Takes(s, ws, 0, t) && val == (if Kind(t) == COMMA then ExpectIdent(Advance(t)) else Parsed("", t)) && Quiet(t, val.next)
    ensures Takes(s, ws + Word(val.val), 0, val.next)
  {
    hide Takes, ExpectIdent;
    if Kind(t) == COMMA {
      TakesOne(t);
      TakesNothing(s, ws, 0, t, 0, Advance(t));
      TakesIdent(Advance(t));
      TakesThen(s, ws, 0, Advance(t), Word(val.val), 0, val.next);
    } else {
      assert ws + [] == ws;
    }
  }

  /**
   * A statement that is read without error has exactly the words it was read from: none is lost, none made up, and
   * every parenthesis and brace is closed.
   */
  lemma {:induction false} StatementKept(s: State)
    requires TryStatement(s).Some? && Quiet(s, TryStatement(s).value.next)
    ensures StmtKept(s, TryStatement(s).value)
    decreases |s.rest|, 1
  {
    hide StmtKept, ParseArgStmt, ParseFileStmt, ParseMkdirStmt, ParseAssignStmt, ParseIfStmt, ParseForStmt;
    match Kind(s)
    case KW_ARG => ArgStmtKept(s);
    case KW_FILE => FileStmtKept(s);
    case KW_MKDIR => MkdirStmtKept(s);
    case KW_IF => IfStmtKept(s);
    case KW_FOR => ForStmtKept(s);
    case _ => AssignStmtKept(s);
  }

  /** The mode of a file is the number behind its content, and none is zero. */
  lemma ModeIsKept(s: State)
    ensures var content := ParseExpr(ParseExpr(Advance(s)).next);
      Quiet(s, ParseFileStmt(s).next) ==>
        if Kind(content.next) == NUMBER then IntOf(Current(content.next).literal) == Some(ParseFileStmt(s).val.mode)
        else ParseFileStmt(s).val.mode == 0
  {
    hide ParseExpr, ParseGuard, ExpectNewline, IntOf;
  }

  /** A number is octal when it has a leading zero and octal digits only, and decimal otherwise; it must fit 64 bits. */
  lemma IntExactly(lit: string, n: int)
    ensures IntOf(lit) == Some(n) <==>
      if |lit| > 1 && lit[0] == '0' && IsNumeral(lit, 8) && NumeralValue(lit, 8) <= MAX_INT64 then n == NumeralValue(lit, 8)
      else lit != "" && IsNumeral(lit, 10) && NumeralValue(lit, 10) <= MAX_INT64 && n == NumeralValue(lit, 10)
  {
    hide NumeralValue;
    if |lit| > 1 && lit[0] == '0' && IsNumeral(lit, 8) { assert lit[1] != '.'; }
  }
}
