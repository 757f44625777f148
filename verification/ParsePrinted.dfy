/** Parsing the tokens of a printed expression gives the expression back and leaves what follows. */
module ParsePrinted {
  import opened Text
  import opened Tokens
  import opened Ast
  import opened ParseSpec
  import opened ParseSteps
  import opened PrintTokens
  import opened Levels

  /** No token that would continue an expression of level k. */
  predicate Stops(k: nat, rest: seq<Token>) {
    rest != [] ==>
      && (OperatorOf(rest[0]).Some? ==> LevelOf(OperatorOf(rest[0]).value) < k)
      && rest[0].typ != DOT && rest[0].typ != LPAREN
  }

  predicate StartsExpr(t: TokenType) {
    t in {STRING, NUMBER, TRUE, FALSE, IDENT, KW_NOT, LBRACE, LBRACKET, HEREDOC_START}
  }

  lemma {:induction false} FirstToken(e: Expr)
    ensures StartsExpr(ExprTokens(e)[0].typ)
  {
    match e
    case Dot(l, _) => FirstToken(l);
    case Binary(l, _, _) => FirstToken(l);
    case _ =>
  }

  lemma FoldStep(k: nat, l: Expr, op: BinOp, r: Expr, more: seq<Token>, s: State)
    requires k == LevelOf(op) && ParseLevel(k + 1, State(more, s.errors)) == Parsed(r, s)
    ensures Fold(k, l, State([OpToken(op)] + more, s.errors)) == Fold(k, Binary(l, op, r), s)
  {
    hide ParseLevel, Fold;
    var t := State([OpToken(op)] + more, s.errors);
    assert t.rest[1..] == more && Kind(t) == KindOf(op);
    hide OpToken;
    FoldGoesOn(k, l, op, t);
  }

  /** At level k or above, an expression before `rest` leaves the fold of level k to go on from it. */
  lemma {:induction false} ExprInverts(k: nat, e: Expr, rest: seq<Token>, errs: seq<ParseError>)
    requires k < UNARY && Respects(e) && Level(e) >= k && Stops(k + 1, rest)
    ensures ParseLevel(k, State(ExprTokens(e) + rest, errs)) == Fold(k, e, State(rest, errs))
    decreases e, 2 * (10 - k)
  {
    hide ParseLevel, Fold, ExprTokens, Stops;
    if Level(e) == k {
      var Binary(l, op, r) := e;
      var more := ExprTokens(r) + rest;
      BinarySplits(e, rest);
      OperatorStops(op, more);
      ExprInverts(k, l, [OpToken(op)] + more, errs);
      LevelInverts(k + 1, r, rest, errs);
      FoldStep(k, l, op, r, more, State(rest, errs));
    } else {
      LevelInverts(k + 1, e, rest, errs);
      LevelUnfolds(k, State(ExprTokens(e) + rest, errs));
    }
  }

  lemma BinarySplits(e: Expr, rest: seq<Token>)
    requires e.Binary?
    ensures ExprTokens(e) + rest == ExprTokens(e.lhs) + ([OpToken(e.op)] + (ExprTokens(e.rhs) + rest))
  {
    var l, o, r := ExprTokens(e.lhs), [OpToken(e.op)], ExprTokens(e.rhs);
    assert ExprTokens(e) == l + o + r;
    hide ExprTokens, OpToken;
    ConcatAssociates(l + o, r, rest);
    ConcatAssociates(l, o, r + rest);
  }

  lemma OperatorStops(op: BinOp, more: seq<Token>)
    ensures Stops(LevelOf(op) + 1, [OpToken(op)] + more)
  {}

  /** Parsing at level k an expression of that level gives exactly it, and leaves exactly the rest. */
  lemma {:induction false} LevelInverts(k: nat, e: Expr, rest: seq<Token>, errs: seq<ParseError>)
    requires k <= PRIMARY && Respects(e) && Level(e) >= k && Stops(k, rest)
    ensures ParseLevel(k, State(ExprTokens(e) + rest, errs)) == Parsed(e, State(rest, errs))
    decreases e, 2 * (10 - k) + 1
  {
    hide ParseLevel, ParsePrimary, ExprTokens, Fold;
    var s := State(ExprTokens(e) + rest, errs);
    if k < UNARY {
      ExprInverts(k, e, rest, errs);
      StopsEndsFold(k, e, rest, errs);
    } else {
      UnaryUnfolds(s);
      if k == UNARY && e.Not? {
        NotSplits(e, rest);
        LevelInverts(UNARY, e.operand, rest, errs);
      } else {
        assert Stops(PRIMARY, rest);
        PrimaryInverts(e, rest, errs);
        PrimaryStart(e);
        assert s.rest[0] == ExprTokens(e)[0];
      }
    }
  }

  lemma StopsEndsFold(k: nat, e: Expr, rest: seq<Token>, errs: seq<ParseError>)
    requires k < UNARY && Stops(k, rest)
    ensures Fold(k, e, State(rest, errs)) == Parsed(e, State(rest, errs))
  {
    hide ParseLevel;
  }

  lemma NotSplits(e: Expr, rest: seq<Token>)
    requires e.Not?
    ensures ExprTokens(e) + rest == [Token(KW_NOT, "not")] + (ExprTokens(e.operand) + rest)
    ensures (ExprTokens(e) + rest)[1..] == ExprTokens(e.operand) + rest
  {
    assert ExprTokens(e) == [Token(KW_NOT, "not")] + ExprTokens(e.operand);
    hide ExprTokens;
    ConcatAssociates([Token(KW_NOT, "not")], ExprTokens(e.operand), rest);
  }

  lemma {:induction false} PrimaryStart(e: Expr)
    requires Respects(e) && Level(e) == PRIMARY
    ensures ExprTokens(e)[0].typ != KW_NOT
  {
    if e.Dot? { PrimaryStart(e.left); }
  }

  lemma {:induction false} PrimaryInverts(e: Expr, rest: seq<Token>, errs: seq<ParseError>)
    requires Respects(e) && Level(e) == PRIMARY && Stops(PRIMARY, rest)
    ensures ParsePrimary(State(ExprTokens(e) + rest, errs)) == Parsed(e, State(rest, errs))
    decreases e, 0
  {
    hide ParseArgs, ParseFields, ParseElements, ParseDots;
    var s := State(ExprTokens(e) + rest, errs);
    match e
    case Ident(_) => DotsStop(e, rest, errs); DotsInvert(e, rest, errs);
    case Dot(_, _) => DotsStop(e, rest, errs); DotsInvert(e, rest, errs);
    case Call(_, args) =>
      ArgsInvert(args, [], rest, errs);
      CallStep(e, rest, errs);
    case ObjectLit(fields) =>
      FieldsInvert(fields, [], rest, errs);
      ObjectStep(e, rest, errs);
    case ListLit(elements) =>
      ElementsInvert(elements, [], rest, errs);
      ListStep(e, rest, errs);
    case Heredoc(content) =>
      assert s.rest[1..][1..] == rest && s.rest[2..] == rest;
    case StringLit(_) => assert s.rest[1..] == rest;
    case NumberLit(_) => assert s.rest[1..] == rest;
    case BoolLit(_) => assert s.rest[1..] == rest;
  }

  lemma DotsStop(e: Expr, rest: seq<Token>, errs: seq<ParseError>)
    requires Stops(PRIMARY, rest)
    ensures ParseDots(e, State(rest, errs)) == Parsed(e, State(rest, errs))
  {}

  lemma CallStep(e: Expr, rest: seq<Token>, errs: seq<ParseError>)
    requires e.Call?
    requires var close := [Token(RPAREN, ")")] + rest;
      ParseArgs([], State(ListTokens(e.args) + close, errs)) == Parsed([] + e.args, State(close, errs))
    ensures ParsePrimary(State(ExprTokens(e) + rest, errs)) == Parsed(e, State(rest, errs))
  {
    hide ParseArgs, ListTokens;
    var s, close := State(ExprTokens(e) + rest, errs), [Token(RPAREN, ")")] + rest;
    assert s.rest[1..][1..] == ListTokens(e.args) + close;
    assert [] + e.args == e.args && close[1..] == rest;
  }

  lemma ObjectTail(e: Expr, rest: seq<Token>)
    requires e.ObjectLit?
    ensures ExprTokens(e) + rest == [Token(LBRACE, "{")] + (FieldTokens(e.fields) + ([Token(RBRACE, "}")] + rest))
  {
    assert ExprTokens(e) == [Token(LBRACE, "{")] + FieldTokens(e.fields) + [Token(RBRACE, "}")];
    hide ExprTokens, FieldTokens;
    ConcatAssociates([Token(LBRACE, "{")] + FieldTokens(e.fields), [Token(RBRACE, "}")], rest);
    ConcatAssociates([Token(LBRACE, "{")], FieldTokens(e.fields), [Token(RBRACE, "}")] + rest);
  }

  lemma PrimaryObject(s: State, fields: Parsed<seq<Field>>)
    requires Kind(s) == LBRACE && SkipNewlines(Advance(s)) == Advance(s) && ParseFields([], Advance(s)) == fields
    ensures ParsePrimary(s) == Parsed(ObjectLit(fields.val), Expect(fields.next, RBRACE))
  {
    hide ParseFields, SkipNewlines, ParseElements, ParseExpr, Expect, ParsePrimary;
    PrimaryNested(s);
  }

  lemma ObjectStep(e: Expr, rest: seq<Token>, errs: seq<ParseError>)
    requires e.ObjectLit?
    requires var close := [Token(RBRACE, "}")] + rest;
      ParseFields([], State(FieldTokens(e.fields) + close, errs)) == Parsed([] + e.fields, State(close, errs))
    ensures ParsePrimary(State(ExprTokens(e) + rest, errs)) == Parsed(e, State(rest, errs))
  {
    hide ParseFields, ExprTokens, ParsePrimary;
    var s, close := State(ExprTokens(e) + rest, errs), [Token(RBRACE, "}")] + rest;
    ObjectTail(e, rest);
    assert s.rest[0] == Token(LBRACE, "{") && s.rest[1..] == FieldTokens(e.fields) + close;
    FieldsStart(e.fields);
    assert [] + close == close;
    assert Kind(Advance(s)) != NEWLINE && Kind(Advance(s)) != COMMENT;
    hide FieldTokens;
    PrimaryObject(s, Parsed([] + e.fields, State(close, errs)));
    assert [] + e.fields == e.fields && close[1..] == rest;
  }

  lemma BracketTail(e: Expr, rest: seq<Token>)
    requires e.ListLit?
    ensures ExprTokens(e) + rest == [Token(LBRACKET, "[")] + (ListTokens(e.elements) + ([Token(RBRACKET, "]")] + rest))
  {
    assert ExprTokens(e) == [Token(LBRACKET, "[")] + ListTokens(e.elements) + [Token(RBRACKET, "]")];
    hide ExprTokens, ListTokens;
    ConcatAssociates([Token(LBRACKET, "[")] + ListTokens(e.elements), [Token(RBRACKET, "]")], rest);
    ConcatAssociates([Token(LBRACKET, "[")], ListTokens(e.elements), [Token(RBRACKET, "]")] + rest);
  }

  lemma ListStep(e: Expr, rest: seq<Token>, errs: seq<ParseError>)
    requires e.ListLit?
    requires var close := [Token(RBRACKET, "]")] + rest;
      ParseElements([], State(ListTokens(e.elements) + close, errs)) == Parsed([] + e.elements, State(close, errs))
    ensures ParsePrimary(State(ExprTokens(e) + rest, errs)) == Parsed(e, State(rest, errs))
  {
    hide ParseElements, ParseFields, ParseExpr, ExprTokens, ParsePrimary;
    var s, close := State(ExprTokens(e) + rest, errs), [Token(RBRACKET, "]")] + rest;
    BracketTail(e, rest);
    assert s.rest[0] == Token(LBRACKET, "[") && s.rest[1..] == ListTokens(e.elements) + close;
    ListStart(e.elements);
    assert [] + close == close;
    assert Kind(Advance(s)) != NEWLINE && Kind(Advance(s)) != COMMENT;
    hide ListTokens;
    PrimaryNested(s);
    assert [] + e.elements == e.elements && close[1..] == rest;
  }

  /** A dotted name is read from its first identifier by the loop over the dots. */
  lemma {:induction false} DotsInvert(e: Expr, rest: seq<Token>, errs: seq<ParseError>)
    requires Respects(e) && (e.Ident? || e.Dot?)
    requires rest != [] ==> rest[0].typ != LPAREN
    ensures ParsePrimary(State(ExprTokens(e) + rest, errs)) == ParseDots(e, State(rest, errs))
    decreases e, 0
  {
    if e.Ident? {
      assert (ExprTokens(e) + rest)[1..] == rest;
    } else {
      var more := [Token(DOT, "."), IdentToken(e.field)] + rest;
      assert ExprTokens(e) + rest == ExprTokens(e.left) + more;
      DotsInvert(e.left, more, errs);
      assert more[1..][0] == IdentToken(e.field) && more[1..][1..] == rest;
    }
  }

  /** What follows the first item of a comma-separated list. */
  function ListTail(es: seq<Expr>, close: seq<Token>): seq<Token>
    requires es != []
  {
    if |es| == 1 then close else [COMMA_TOKEN] + (ListTokens(es[1..]) + close)
  }

  lemma ListSplits(es: seq<Expr>, close: seq<Token>)
    requires es != []
    ensures ListTokens(es) + close == ExprTokens(es[0]) + ListTail(es, close)
  {
    hide ExprTokens;
    var first, more := ExprTokens(es[0]), ListTokens(es[1..]);
    if |es| > 1 {
      assert ListTokens(es) == first + [COMMA_TOKEN] + more;
      hide ListTokens;
      ConcatAssociates(first + [COMMA_TOKEN], more, close);
      ConcatAssociates(first, [COMMA_TOKEN], more + close);
    }
  }

  /** After an item, skipping the comma and any newlines leads to the remaining items. */
  lemma ListTailSkips(es: seq<Expr>, close: seq<Token>, errs: seq<ParseError>)
    requires es != [] && close != [] && close[0].typ !in {COMMA, NEWLINE, COMMENT}
    ensures var next := SkipComma(State(ListTail(es, close), errs));
      next == SkipNewlines(next) == State(ListTokens(es[1..]) + close, errs)
  {
    ListStart(es[1..]);
    if |es| == 1 {
      assert ListTokens(es[1..]) + close == close;
    }
  }

  lemma ListStart(es: seq<Expr>)
    ensures es != [] ==> ListTokens(es) != [] && StartsExpr(ListTokens(es)[0].typ)
  {
    if es != [] { FirstToken(es[0]); }
  }

  lemma {:induction false} ArgsInvert(es: seq<Expr>, acc: seq<Expr>, rest: seq<Token>, errs: seq<ParseError>)
    requires forall a | a in es :: Respects(a)
    ensures ParseArgs(acc, State(ListTokens(es) + ([Token(RPAREN, ")")] + rest), errs)) ==
      Parsed(acc + es, State([Token(RPAREN, ")")] + rest, errs))
    decreases es, 1
  {
    hide ParseArgs, ListTokens, Respects;
    ArgsInvertTo(es, acc, [Token(RPAREN, ")")] + rest, errs);
  }

  lemma {:induction false} ArgsInvertTo(es: seq<Expr>, acc: seq<Expr>, close: seq<Token>, errs: seq<ParseError>)
    requires close != [] && close[0].typ == RPAREN && forall a | a in es :: Respects(a)
    ensures ParseArgs(acc, State(ListTokens(es) + close, errs)) == Parsed(acc + es, State(close, errs))
    decreases es, 0
  {
    hide ParseArgs, ParseLevel, ExprTokens;
    if es == [] {
      assert ListTokens(es) + close == close && acc + es == acc;
      ArgsDone(acc, State(close, errs));
    } else {
      hide ListTokens, ListTail, SkipComma, SkipNewlines, Stops;
      var tail := ListTail(es, close);
      ListSplits(es, close);
      ListTailStops(es, close);
      ListTailSkips(es, close, errs);
      LevelInverts(0, es[0], tail, errs);
      FirstToken(es[0]);
      assert (ExprTokens(es[0]) + tail)[0] == ExprTokens(es[0])[0];
      ArgStep(acc, State(ExprTokens(es[0]) + tail, errs), es[0], State(tail, errs));
      ArgsInvertTo(es[1..], acc + [es[0]], close, errs);
      assert acc + [es[0]] + es[1..] == acc + es;
    }
  }

  lemma ArgStep(acc: seq<Expr>, s: State, e: Expr, tail: State)
    requires StartsExpr(Kind(s)) && ParseExpr(s) == Parsed(e, tail)
    ensures ParseArgs(acc, s) == ParseArgs(acc + [e], SkipComma(tail))
  {
    hide ParseExpr;
  }

  lemma ElementStep(acc: seq<Expr>, s: State, e: Expr, tail: State)
    requires StartsExpr(Kind(s)) && ParseExpr(s) == Parsed(e, tail)
    ensures ParseElements(acc, s) == ParseElements(acc + [e], SkipNewlines(SkipComma(tail)))
  {
    hide ParseExpr;
  }

  lemma {:induction false} ElementsInvert(es: seq<Expr>, acc: seq<Expr>, rest: seq<Token>, errs: seq<ParseError>)
    requires forall a | a in es :: Respects(a)
    ensures ParseElements(acc, State(ListTokens(es) + ([Token(RBRACKET, "]")] + rest), errs)) ==
      Parsed(acc + es, State([Token(RBRACKET, "]")] + rest, errs))
    decreases es, 1
  {
    hide ParseElements, ListTokens, Respects;
    ElementsInvertTo(es, acc, [Token(RBRACKET, "]")] + rest, errs);
  }

  lemma {:induction false} ElementsInvertTo(es: seq<Expr>, acc: seq<Expr>, close: seq<Token>, errs: seq<ParseError>)
    requires close != [] && close[0].typ == RBRACKET && forall a | a in es :: Respects(a)
    ensures ParseElements(acc, State(ListTokens(es) + close, errs)) == Parsed(acc + es, State(close, errs))
    decreases es, 0
  {
    hide ParseElements, ParseLevel, ExprTokens;
    if es == [] {
      assert ListTokens(es) + close == close && acc + es == acc;
      ElementsDone(acc, State(close, errs));
    } else {
      hide ListTokens, ListTail, SkipComma, SkipNewlines, Stops;
      var tail := ListTail(es, close);
      ListSplits(es, close);
      ListTailStops(es, close);
      ListTailSkips(es, close, errs);
      LevelInverts(0, es[0], tail, errs);
      FirstToken(es[0]);
      assert (ExprTokens(es[0]) + tail)[0] == ExprTokens(es[0])[0];
      ElementStep(acc, State(ExprTokens(es[0]) + tail, errs), es[0], State(tail, errs));
      ElementsInvertTo(es[1..], acc + [es[0]], close, errs);
      assert acc + [es[0]] + es[1..] == acc + es;
    }
  }

  lemma ListTailStops(es: seq<Expr>, close: seq<Token>)
    requires es != [] && close != [] && close[0].typ in {RBRACKET, RPAREN}
    ensures Stops(0, ListTail(es, close))
  {
    hide ListTokens;
  }

  function FieldsTail(fs: seq<Field>, close: seq<Token>): seq<Token>
    requires fs != []
  {
    if |fs| == 1 then close else [COMMA_TOKEN] + (FieldTokens(fs[1..]) + close)
  }

  lemma FieldsSplit(fs: seq<Field>, close: seq<Token>)
    requires fs != []
    ensures FieldTokens(fs) + close ==
      [IdentToken(fs[0].key), Token(COLON, ":")] + (ExprTokens(fs[0].value) + FieldsTail(fs, close))
  {
    hide ExprTokens;
    var head, value, more := [IdentToken(fs[0].key), Token(COLON, ":")], ExprTokens(fs[0].value), FieldTokens(fs[1..]);
    if |fs| == 1 {
      assert FieldTokens(fs) == head + value;
      hide FieldTokens;
      ConcatAssociates(head, value, close);
    } else {
      assert FieldTokens(fs) == head + value + [COMMA_TOKEN] + more;
      hide FieldTokens;
      ConcatAssociates(head + value + [COMMA_TOKEN], more, close);
      ConcatAssociates(head + value, [COMMA_TOKEN], more + close);
      ConcatAssociates(head, value, [COMMA_TOKEN] + (more + close));
    }
  }

  lemma FieldsStart(fs: seq<Field>)
    ensures fs != [] ==> FieldTokens(fs) != [] && FieldTokens(fs)[0].typ == IDENT
  {}

  lemma FieldReads(f: Field, more: seq<Token>, tail: State)
    requires ParseExpr(State(more, tail.errors)) == Parsed(f.value, tail)
    ensures ParseField(State([IdentToken(f.key), Token(COLON, ":")] + more, tail.errors)) == Parsed(f, tail)
  {
    hide ParseExpr;
    var all := [IdentToken(f.key), Token(COLON, ":")] + more;
    assert all[1..][0] == Token(COLON, ":") && all[1..][1..] == more;
  }

  lemma FieldGoesOn(acc: seq<Field>, s: State)
    requires Kind(s) == IDENT
    ensures var r := ParseField(s); ParseFields(acc, s) == ParseFields(acc + [r.val], SkipNewlines(SkipComma(r.next)))
  {
    hide ParseField, SkipComma;
  }

  lemma FieldStep(acc: seq<Field>, f: Field, more: seq<Token>, tail: State)
    requires ParseExpr(State(more, tail.errors)) == Parsed(f.value, tail)
    ensures ParseFields(acc, State([IdentToken(f.key), Token(COLON, ":")] + more, tail.errors)) ==
      ParseFields(acc + [f], SkipNewlines(SkipComma(tail)))
  {
    hide ParseExpr, ParseField, ParseFields, SkipComma, SkipNewlines;
    FieldReads(f, more, tail);
    FieldGoesOn(acc, State([IdentToken(f.key), Token(COLON, ":")] + more, tail.errors));
  }

  lemma FieldsTailSkips(fs: seq<Field>, close: seq<Token>, errs: seq<ParseError>)
    requires fs != [] && close != [] && close[0].typ !in {COMMA, NEWLINE, COMMENT}
    ensures var next := SkipComma(State(FieldsTail(fs, close), errs));
      next == SkipNewlines(next) == State(FieldTokens(fs[1..]) + close, errs)
  {
    FieldsStart(fs[1..]);
    if |fs| == 1 {
      assert FieldTokens(fs[1..]) + close == close;
    }
  }

  lemma FieldsTailStops(fs: seq<Field>, close: seq<Token>)
    requires fs != [] && close != [] && close[0].typ == RBRACE
    ensures Stops(0, FieldsTail(fs, close))
  {
    hide FieldTokens;
  }

  lemma {:induction false} FieldsInvert(fs: seq<Field>, acc: seq<Field>, rest: seq<Token>, errs: seq<ParseError>)
    requires forall f | f in fs :: Respects(f.value)
    ensures ParseFields(acc, State(FieldTokens(fs) + ([Token(RBRACE, "}")] + rest), errs)) ==
      Parsed(acc + fs, State([Token(RBRACE, "}")] + rest, errs))
    decreases fs, 1
  {
    hide ParseFields, FieldTokens, Respects;
    FieldsInvertTo(fs, acc, [Token(RBRACE, "}")] + rest, errs);
  }

  lemma {:induction false} FieldsInvertTo(fs: seq<Field>, acc: seq<Field>, close: seq<Token>, errs: seq<ParseError>)
    requires close != [] && close[0].typ == RBRACE && forall f | f in fs :: Respects(f.value)
    ensures ParseFields(acc, State(FieldTokens(fs) + close, errs)) == Parsed(acc + fs, State(close, errs))
    decreases fs, 0
  {
    hide ParseFields, ParseLevel, ExprTokens;
    if fs == [] {
      assert FieldTokens(fs) + close == close && acc + fs == acc;
      FieldsDone(acc, State(close, errs));
    } else {
      hide FieldTokens, FieldsTail, SkipComma, SkipNewlines, Stops;
      var tail := FieldsTail(fs, close);
      FieldsSplit(fs, close);
      FieldsTailStops(fs, close);
      FieldsTailSkips(fs, close, errs);
      LevelInverts(0, fs[0].value, tail, errs);
      FieldStep(acc, fs[0], ExprTokens(fs[0].value) + tail, State(tail, errs));
      FieldsInvertTo(fs[1..], acc + [fs[0]], close, errs);
      assert acc + [fs[0]] + fs[1..] == acc + fs;
    }
  }
}
