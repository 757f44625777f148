/**
 * Parentheses make every tree expressible: spelled out with a group around every operand, quoted keys, and trailing commas
 * and newlines in objects and lists, every expression is read back, whatever its levels.
 */
module Grouping {
  import opened Tokens
  import opened Ast
  import opened ParseSpec
  import opened ParseSteps
  import opened PrintTokens

  const OPEN := Token(LPAREN, "(")
  const CLOSE := Token(RPAREN, ")")

  /** Fields are taken of names only; the grammar has nothing else before a dot. */
  predicate DotsOnNames(e: Expr) {
    match e
    case Dot(l, _) => (l.Ident? || l.Dot?) && DotsOnNames(l)
    case Binary(l, _, r) => DotsOnNames(l) && DotsOnNames(r)
    case Not(x) => DotsOnNames(x)
    case Call(_, args) => forall i :: 0 <= i < |args| ==> DotsOnNames(args[i])
    case ObjectLit(fields) => forall i :: 0 <= i < |fields| ==> DotsOnNames(fields[i].value)
    case ListLit(elements) => forall i :: 0 <= i < |elements| ==> DotsOnNames(elements[i])
    case _ => true
  }

  /** The expression in parentheses, then the rest. */
  function Grouped(e: Expr, rest: seq<Token>): seq<Token>
    decreases e, 2
  {
    [OPEN] + Spelled(e, [CLOSE] + rest)
  }

  function Spelled(e: Expr, rest: seq<Token>): seq<Token>
    decreases e, 1
  {
    match e
    case StringLit(s) => [StringToken(s)] + rest
    case NumberLit(n) => [Token(NUMBER, n)] + rest
    case BoolLit(b) => [BoolToken(b)] + rest
    case Ident(n) => [IdentToken(n)] + rest
    case Dot(l, f) => Spelled(l, [Token(DOT, ".")] + ([IdentToken(f)] + rest))
    case Binary(l, op, r) => Grouped(l, [OpToken(op)] + Grouped(r, rest))
    case Not(x) => [Token(KW_NOT, "not")] + Grouped(x, rest)
    case Call(f, args) => [IdentToken(f)] + ([OPEN] + SpelledArgs(args, [CLOSE] + rest))
    case ObjectLit(fields) => [Token(LBRACE, "{")] + ([NL] + SpelledFields(fields, [Token(RBRACE, "}")] + rest))
    case Heredoc(content) => [Token(HEREDOC_START, "EOF")] + ([Token(HEREDOC_BODY, content)] + rest)
    case ListLit(elements) => [Token(LBRACKET, "[")] + ([NL] + SpelledElements(elements, [Token(RBRACKET, "]")] + rest))
  }

  function SpelledArgs(es: seq<Expr>, rest: seq<Token>): seq<Token>
    decreases es, 0
  {
    if es == [] then rest else Grouped(es[0], [COMMA_TOKEN] + SpelledArgs(es[1..], rest))
  }

  function SpelledElements(es: seq<Expr>, rest: seq<Token>): seq<Token>
    decreases es, 0
  {
    if es == [] then rest else Grouped(es[0], [COMMA_TOKEN] + ([NL] + SpelledElements(es[1..], rest)))
  }

  function SpelledFields(fs: seq<Field>, rest: seq<Token>): seq<Token>
    decreases fs, 0
  {
    if fs == [] then rest
    else
      [StringToken(fs[0].key)] + ([Token(COLON, ":")] + Grouped(fs[0].value, [COMMA_TOKEN] + ([NL] + SpelledFields(fs[1..], rest))))
  }

  lemma Front(t: Token, rest: seq<Token>, errs: seq<ParseError>)
    ensures Current(State([t] + rest, errs)) == t && Advance(State([t] + rest, errs)) == State(rest, errs)
  {
    assert ([t] + rest)[1..] == rest;
  }

  lemma GroupedFront(e: Expr, rest: seq<Token>, errs: seq<ParseError>)
    ensures var s := State(Grouped(e, rest), errs); Current(s) == OPEN && Advance(s) == State(Spelled(e, [CLOSE] + rest), errs)
  {
    hide Spelled;
    Front(OPEN, Spelled(e, [CLOSE] + rest), errs);
  }

  // ---------------------------------------------------------------- levels

  predicate NoOperator(t: State) { OperatorOf(Current(t)).None? }

  /** What one level reads, the levels below read too, when no operator follows. */
  lemma {:induction false} Descends(k: nat, j: nat, s: State, e: Expr, t: State)
    requires k <= j <= UNARY && ParseLevel(j, s) == Parsed(e, t) && NoOperator(t)
    ensures ParseLevel(k, s) == Parsed(e, t)
    decreases j - k
  {
    hide ParseLevel;
    if k < j {
      Descends(k + 1, j, s, e, t);
      LevelUnfolds(k, s);
      FoldEnds(k, e, t);
    }
  }

  lemma PrimaryDescends(k: nat, s: State, e: Expr, t: State)
    requires k <= PRIMARY && Kind(s) != KW_NOT && ParsePrimary(s) == Parsed(e, t) && NoOperator(t)
    ensures ParseLevel(k, s) == Parsed(e, t)
  {
    hide ParseLevel, ParsePrimary, NoOperator;
    UnaryUnfolds(s);
    if k < PRIMARY { Descends(k, UNARY, s, e, t); }
  }

  /** An operand is read at every level above the operator that follows it. */
  lemma {:induction false} OperandDescends(k: nat, s: State, e: Expr, op: BinOp, t: State)
    requires LevelOf(op) < k <= UNARY && Kind(s) != KW_NOT && ParsePrimary(s) == Parsed(e, t) && Kind(t) == KindOf(op)
    ensures ParseLevel(k, s) == Parsed(e, t)
    decreases UNARY - k
  {
    hide ParseLevel, ParsePrimary;
    UnaryUnfolds(s);
    if k < UNARY {
      OperandDescends(k + 1, s, e, op, t);
      LevelUnfolds(k, s);
      FoldEnds(k, e, t);
    }
  }

  /** Two operands with an operator between, and none after. */
  lemma BinaryReads(s: State, l: Expr, op: BinOp, t: State, r: Expr, u: State)
    requires Kind(s) != KW_NOT && ParsePrimary(s) == Parsed(l, t) && Kind(t) == KindOf(op)
    requires Kind(Advance(t)) != KW_NOT && ParsePrimary(Advance(t)) == Parsed(r, u) && NoOperator(u)
    ensures ParseExpr(s) == Parsed(Binary(l, op, r), u)
  {
    var k := LevelOf(op);
    hide ParseLevel, ParsePrimary, Fold;
    OperandDescends(k + 1, s, l, op, t);
    LevelUnfolds(k, s);
    FoldGoesOn(k, l, op, t);
    PrimaryDescends(k + 1, Advance(t), r, u);
    FoldEnds(k, Binary(l, op, r), u);
    assert ParseLevel(k, s) == Parsed(Binary(l, op, r), u);
    Descends(0, k, s, Binary(l, op, r), u);
  }

  // ---------------------------------------------------------------- reading back

  /** A grouped expression is a primary expression, whatever follows. */
  lemma {:induction false} GroupedInverts(e: Expr, rest: seq<Token>, errs: seq<ParseError>)
    requires DotsOnNames(e)
    ensures ParsePrimary(State(Grouped(e, rest), errs)) == Parsed(e, State(rest, errs))
    decreases e, 3
  {
    var s, t := State(Grouped(e, rest), errs), State([CLOSE] + rest, errs);
    GroupedFront(e, rest, errs);
    SpelledInverts(e, rest, errs);
    PrimaryNested(s);
    Front(CLOSE, rest, errs);
    hide Grouped, Spelled, ParsePrimary, ParseExpr;
  }

  /** What stands between parentheses is read up to the closing one. */
  lemma {:induction false} SpelledInverts(e: Expr, rest: seq<Token>, errs: seq<ParseError>)
    requires DotsOnNames(e)
    ensures ParseExpr(State(Spelled(e, [CLOSE] + rest), errs)) == Parsed(e, State([CLOSE] + rest, errs))
    decreases e, 2
  {
    hide Grouped, Spelled, ParsePrimary, ParseLevel, DotsOnNames, ParseExpr;
    match e
    case Binary(_, _, _) => BinarySpelled(e, rest, errs);
    case Not(_) => NotSpelled(e, rest, errs);
    case _ =>
      Front(CLOSE, rest, errs);
      PrimarySpelled(e, [CLOSE] + rest, errs);
      AsExpr(State(Spelled(e, [CLOSE] + rest), errs), e, State([CLOSE] + rest, errs));
  }

  lemma AsExpr(s: State, e: Expr, t: State)
    requires Kind(s) != KW_NOT && ParsePrimary(s) == Parsed(e, t) && NoOperator(t)
    ensures ParseExpr(s) == Parsed(e, t)
  {
    hide ParsePrimary, ParseLevel, NoOperator;
    PrimaryDescends(0, s, e, t);
  }

  lemma {:induction false} BinarySpelled(e: Expr, rest: seq<Token>, errs: seq<ParseError>)
    requires e.Binary? && DotsOnNames(e)
    ensures ParseExpr(State(Spelled(e, [CLOSE] + rest), errs)) == Parsed(e, State([CLOSE] + rest, errs))
    decreases e, 1
  {
    hide Grouped, ParsePrimary, ParseExpr, Spelled, DotsOnNames;
    var more := [CLOSE] + rest;
    var after := [OpToken(e.op)] + Grouped(e.rhs, more);
    BinaryParts(e, more);
    Front(CLOSE, rest, errs);
    GroupedInverts(e.lhs, after, errs);
    GroupedInverts(e.rhs, more, errs);
    GroupedFront(e.lhs, after, errs);
    GroupedFront(e.rhs, more, errs);
    Front(OpToken(e.op), Grouped(e.rhs, more), errs);
    assert NoOperator(State(more, errs));
    hide Advance;
    OperatorKind(e.op);
    hide NoOperator, OperatorOf, KindOf, OpToken;
    BinaryReads(State(Grouped(e.lhs, after), errs), e.lhs, e.op, State(after, errs), e.rhs, State(more, errs));
  }

  lemma OperatorKind(op: BinOp)
    ensures OpToken(op).typ == KindOf(op)
  {}

  lemma BinaryParts(e: Expr, more: seq<Token>)
    requires e.Binary? && DotsOnNames(e)
    ensures DotsOnNames(e.lhs) && DotsOnNames(e.rhs) && Spelled(e, more) == Grouped(e.lhs, [OpToken(e.op)] + Grouped(e.rhs, more))
  {
    hide Grouped;
  }

  lemma {:induction false} NotSpelled(e: Expr, rest: seq<Token>, errs: seq<ParseError>)
    requires e.Not? && DotsOnNames(e)
    ensures ParseExpr(State(Spelled(e, [CLOSE] + rest), errs)) == Parsed(e, State([CLOSE] + rest, errs))
    decreases e, 1
  {
    hide Grouped, ParsePrimary, ParseLevel;
    var more, x := [CLOSE] + rest, e.operand;
    var s, end := State(Spelled(e, more), errs), State(more, errs);
    assert Spelled(e, more) == [Token(KW_NOT, "not")] + Grouped(x, more) && DotsOnNames(x);
    hide Spelled, DotsOnNames;
    Front(CLOSE, rest, errs);
    Front(Token(KW_NOT, "not"), Grouped(x, more), errs);
    GroupedInverts(x, more, errs);
    GroupedFront(x, more, errs);
    hide Advance;
    PrimaryDescends(UNARY, State(Grouped(x, more), errs), x, end);
    UnaryUnfolds(s);
    Descends(0, UNARY, s, e, end);
  }

  /** Neither a dot nor a parenthesis follows. */
  predicate EndsName(rest: seq<Token>) { rest != [] ==> rest[0].typ != DOT && rest[0].typ != LPAREN }

  lemma {:induction false} PrimarySpelled(e: Expr, rest: seq<Token>, errs: seq<ParseError>)
    requires DotsOnNames(e) && !e.Binary? && !e.Not? && EndsName(rest)
    ensures var s := State(Spelled(e, rest), errs); Kind(s) != KW_NOT && ParsePrimary(s) == Parsed(e, State(rest, errs))
    decreases e, 1
  {
    hide ParsePrimary, Spelled;
    match e
    case StringLit(_) => LiteralSpelled(e, rest, errs);
    case NumberLit(_) => LiteralSpelled(e, rest, errs);
    case BoolLit(_) => LiteralSpelled(e, rest, errs);
    case Heredoc(_) => LiteralSpelled(e, rest, errs);
    case Ident(_) => NamesInvert(e, rest, errs); DotsEnd(e, rest, errs);
    case Dot(_, _) => NamesInvert(e, rest, errs); DotsEnd(e, rest, errs);
    case Call(_, _) => CallSpelled(e, rest, errs);
    case ObjectLit(_) => ObjectSpelled(e, rest, errs);
    case ListLit(_) => ListSpelled(e, rest, errs);
  }

  lemma LiteralSpelled(e: Expr, rest: seq<Token>, errs: seq<ParseError>)
    requires e.StringLit? || e.NumberLit? || e.BoolLit? || e.Heredoc?
    ensures var s := State(Spelled(e, rest), errs); Kind(s) != KW_NOT && ParsePrimary(s) == Parsed(e, State(rest, errs))
  {
    hide ParsePrimary;
    PrimaryLiteral(State(Spelled(e, rest), errs));
    match e
    case StringLit(v) => Front(StringToken(v), rest, errs);
    case NumberLit(n) => Front(Token(NUMBER, n), rest, errs);
    case BoolLit(b) => Front(BoolToken(b), rest, errs);
    case Heredoc(content) =>
      Front(Token(HEREDOC_START, "EOF"), [Token(HEREDOC_BODY, content)] + rest, errs);
      Front(Token(HEREDOC_BODY, content), rest, errs);
  }

  lemma {:induction false} CallSpelled(e: Expr, rest: seq<Token>, errs: seq<ParseError>)
    requires e.Call? && DotsOnNames(e)
    ensures var s := State(Spelled(e, rest), errs); Kind(s) != KW_NOT && ParsePrimary(s) == Parsed(e, State(rest, errs))
    decreases e, 0
  {
    hide ParsePrimary, ParseArgs, SpelledArgs;
    var s, close := State(Spelled(e, rest), errs), [CLOSE] + rest;
    Front(IdentToken(e.func), [OPEN] + SpelledArgs(e.args, close), errs);
    Front(OPEN, SpelledArgs(e.args, close), errs);
    Front(CLOSE, rest, errs);
    ArgsSpelled(e.args, [], rest, errs);
    assert [] + e.args == e.args;
    PrimaryName(s);
  }

  lemma {:induction false} ObjectSpelled(e: Expr, rest: seq<Token>, errs: seq<ParseError>)
    requires e.ObjectLit? && DotsOnNames(e)
    ensures var s := State(Spelled(e, rest), errs); Kind(s) != KW_NOT && ParsePrimary(s) == Parsed(e, State(rest, errs))
    decreases e, 0
  {
    hide ParsePrimary, ParseFields, SpelledFields, SkipNewlines;
    var s, close := State(Spelled(e, rest), errs), [Token(RBRACE, "}")] + rest;
    Front(Token(LBRACE, "{"), [NL] + SpelledFields(e.fields, close), errs);
    Front(Token(RBRACE, "}"), rest, errs);
    FieldsSpelled(e.fields, [], rest, errs);
    FieldsBegin(e.fields, close, errs);
    assert [] + e.fields == e.fields;
    PrimaryNested(s);
  }

  lemma {:induction false} ListSpelled(e: Expr, rest: seq<Token>, errs: seq<ParseError>)
    requires e.ListLit? && DotsOnNames(e)
    ensures var s := State(Spelled(e, rest), errs); Kind(s) != KW_NOT && ParsePrimary(s) == Parsed(e, State(rest, errs))
    decreases e, 0
  {
    hide ParsePrimary, ParseElements, SpelledElements, SkipNewlines;
    var s, close := State(Spelled(e, rest), errs), [Token(RBRACKET, "]")] + rest;
    Front(Token(LBRACKET, "["), [NL] + SpelledElements(e.elements, close), errs);
    Front(Token(RBRACKET, "]"), rest, errs);
    ElementsSpelled(e.elements, [], rest, errs);
    ElementsBegin(e.elements, close, errs);
    assert [] + e.elements == e.elements;
    PrimaryNested(s);
  }

  lemma {:induction false} NamesInvert(e: Expr, rest: seq<Token>, errs: seq<ParseError>)
    requires DotsOnNames(e) && (e.Ident? || e.Dot?) && (rest != [] ==> rest[0].typ != LPAREN)
    ensures var s := State(Spelled(e, rest), errs); Kind(s) == IDENT && ParsePrimary(s) == ParseDots(e, State(rest, errs))
    decreases e, 0
  {
    if e.Ident? {
      Front(IdentToken(e.name), rest, errs);
      PrimaryName(State(Spelled(e, rest), errs));
      hide ParsePrimary, ParseDots;
    } else {
      var more := [Token(DOT, ".")] + ([IdentToken(e.field)] + rest);
      NamesInvert(e.left, more, errs);
      Front(Token(DOT, "."), [IdentToken(e.field)] + rest, errs);
      Front(IdentToken(e.field), rest, errs);
      hide ParsePrimary;
    }
  }

  lemma DotsEnd(e: Expr, rest: seq<Token>, errs: seq<ParseError>)
    requires EndsName(rest)
    ensures ParseDots(e, State(rest, errs)) == Parsed(e, State(rest, errs))
  {}

  lemma {:induction false} ArgsSpelled(es: seq<Expr>, acc: seq<Expr>, rest: seq<Token>, errs: seq<ParseError>)
    requires forall i :: 0 <= i < |es| ==> DotsOnNames(es[i])
    ensures var close := [CLOSE] + rest;
      ParseArgs(acc, State(SpelledArgs(es, close), errs)) == Parsed(acc + es, State(close, errs))
    decreases es, 1
  {
    hide DotsOnNames, ParseArgs, SpelledArgs;
    if es == [] {
      NoneSpelled(rest, errs);
      assert acc + [] == acc;
      ArgsDone(acc, State([CLOSE] + rest, errs));
    } else {
      SpelledArgStep(es, acc, [CLOSE] + rest, errs);
      ArgsSpelled(es[1..], acc + [es[0]], rest, errs);
      OneByOne(acc, es);
    }
  }

  lemma NoneSpelled(rest: seq<Token>, errs: seq<ParseError>)
    ensures SpelledArgs([], rest) == SpelledElements([], rest) == SpelledFields([], rest) == rest
    ensures SpelledArgs([], [CLOSE] + rest) == [CLOSE] + rest && Kind(State([CLOSE] + rest, errs)) == RPAREN
    ensures SpelledElements([], [Token(RBRACKET, "]")] + rest) == [Token(RBRACKET, "]")] + rest
    ensures SpelledFields([], [Token(RBRACE, "}")] + rest) == [Token(RBRACE, "}")] + rest
    ensures Kind(State([Token(RBRACKET, "]")] + rest, errs)) == RBRACKET && Kind(State([Token(RBRACE, "}")] + rest, errs)) == RBRACE
  {}

  lemma {:induction false} SpelledArgStep(es: seq<Expr>, acc: seq<Expr>, close: seq<Token>, errs: seq<ParseError>)
    requires es != [] && DotsOnNames(es[0])
    ensures ParseArgs(acc, State(SpelledArgs(es, close), errs)) == ParseArgs(acc + [es[0]], State(SpelledArgs(es[1..], close), errs))
    decreases es, 0
  {
    hide Grouped, ParseExpr, ParseArgs, SkipComma, DotsOnNames;
    var more := SpelledArgs(es[1..], close);
    var s := State(Grouped(es[0], [COMMA_TOKEN] + more), errs);
    assert SpelledArgs(es, close) == s.rest;
    OneReads(es[0], more, errs);
    hide SpelledArgs;
    ArgGoesOn(acc, s);
  }

  lemma ArgGoesOn(acc: seq<Expr>, s: State)
    requires Kind(s) == LPAREN && !AtEnd(s)
    ensures var r := ParseExpr(s); ParseArgs(acc, s) == ParseArgs(acc + [r.val], SkipComma(r.next))
  {
    hide ParseExpr;
  }

  /** A grouped item and the comma behind it. */
  lemma {:induction false} OneReads(e: Expr, more: seq<Token>, errs: seq<ParseError>)
    requires DotsOnNames(e)
    ensures var s, t := State(Grouped(e, [COMMA_TOKEN] + more), errs), State([COMMA_TOKEN] + more, errs);
      && Kind(s) == LPAREN && !AtEnd(s) && ParseExpr(s) == Parsed(e, t) && SkipComma(t) == State(more, errs)
    decreases e, 4
  {
    var s, t := State(Grouped(e, [COMMA_TOKEN] + more), errs), State([COMMA_TOKEN] + more, errs);
    GroupedFront(e, [COMMA_TOKEN] + more, errs);
    Front(COMMA_TOKEN, more, errs);
    GroupedInverts(e, [COMMA_TOKEN] + more, errs);
    hide Grouped, ParsePrimary, DotsOnNames;
    PrimaryDescends(0, s, e, t);
  }

  lemma OneByOne<T>(acc: seq<T>, ts: seq<T>)
    requires ts != []
    ensures acc + [ts[0]] + ts[1..] == acc + ts
  {}

  lemma {:induction false} ElementsSpelled(es: seq<Expr>, acc: seq<Expr>, rest: seq<Token>, errs: seq<ParseError>)
    requires forall i :: 0 <= i < |es| ==> DotsOnNames(es[i])
    ensures var close := [Token(RBRACKET, "]")] + rest;
      ParseElements(acc, State(SpelledElements(es, close), errs)) == Parsed(acc + es, State(close, errs))
    decreases es, 1
  {
    hide DotsOnNames, SpelledElements, ParseElements;
    var close := [Token(RBRACKET, "]")] + rest;
    if es == [] {
      NoneSpelled(rest, errs);
      assert acc + [] == acc;
      ElementsDone(acc, State(close, errs));
    } else {
      ElementStep(es, acc, close, errs);
      ElementsSpelled(es[1..], acc + [es[0]], rest, errs);
      OneByOne(acc, es);
    }
  }

  lemma {:induction false} ElementStep(es: seq<Expr>, acc: seq<Expr>, close: seq<Token>, errs: seq<ParseError>)
    requires es != [] && DotsOnNames(es[0]) && close != [] && close[0].typ !in {NEWLINE, COMMENT}
    ensures ParseElements(acc, State(SpelledElements(es, close), errs)) ==
      ParseElements(acc + [es[0]], State(SpelledElements(es[1..], close), errs))
    decreases es, 0
  {
    hide Grouped, ParseExpr, ParseElements, SkipNewlines, SkipComma, DotsOnNames;
    var more := SpelledElements(es[1..], close);
    var s := State(Grouped(es[0], [COMMA_TOKEN] + ([NL] + more)), errs);
    assert SpelledElements(es, close) == s.rest;
    OneReads(es[0], [NL] + more, errs);
    ElementsBegin(es[1..], close, errs);
    hide SpelledElements;
    ElementGoesOn(acc, s);
  }

  lemma ElementGoesOn(acc: seq<Expr>, s: State)
    requires Kind(s) == LPAREN && !AtEnd(s)
    ensures var r := ParseExpr(s); ParseElements(acc, s) == ParseElements(acc + [r.val], SkipNewlines(SkipComma(r.next)))
  {
    hide ParseExpr;
  }

  lemma ElementsBegin(es: seq<Expr>, close: seq<Token>, errs: seq<ParseError>)
    requires close != [] && close[0].typ !in {NEWLINE, COMMENT}
    ensures SkipNewlines(State([NL] + SpelledElements(es, close), errs)) == State(SpelledElements(es, close), errs)
  {
    Front(NL, SpelledElements(es, close), errs);
    if es != [] { GroupedFront(es[0], [COMMA_TOKEN] + ([NL] + SpelledElements(es[1..], close)), errs); }
    hide Grouped;
  }

  lemma {:induction false} FieldsSpelled(fs: seq<Field>, acc: seq<Field>, rest: seq<Token>, errs: seq<ParseError>)
    requires forall i :: 0 <= i < |fs| ==> DotsOnNames(fs[i].value)
    ensures var close := [Token(RBRACE, "}")] + rest;
      ParseFields(acc, State(SpelledFields(fs, close), errs)) == Parsed(acc + fs, State(close, errs))
    decreases fs, 1
  {
    hide DotsOnNames, SpelledFields, ParseFields;
    var close := [Token(RBRACE, "}")] + rest;
    if fs == [] {
      NoneSpelled(rest, errs);
      assert acc + [] == acc;
      FieldsDone(acc, State(close, errs));
    } else {
      SpelledFieldStep(fs, acc, close, errs);
      FieldsSpelled(fs[1..], acc + [fs[0]], rest, errs);
      OneByOne(acc, fs);
    }
  }

  lemma {:induction false} SpelledFieldStep(fs: seq<Field>, acc: seq<Field>, close: seq<Token>, errs: seq<ParseError>)
    requires fs != [] && DotsOnNames(fs[0].value) && close != [] && close[0].typ !in {NEWLINE, COMMENT}
    ensures ParseFields(acc, State(SpelledFields(fs, close), errs)) ==
      ParseFields(acc + [fs[0]], State(SpelledFields(fs[1..], close), errs))
    decreases fs, 0
  {
    hide Grouped, ParseField, ParseFields, SkipNewlines, SkipComma, DotsOnNames;
    var more := SpelledFields(fs[1..], close);
    var s := State([StringToken(fs[0].key)] + ([Token(COLON, ":")] + Grouped(fs[0].value, [COMMA_TOKEN] + ([NL] + more))), errs);
    assert SpelledFields(fs, close) == s.rest;
    FieldSpelled(fs[0], [NL] + more, errs);
    FieldsBegin(fs[1..], close, errs);
    hide SpelledFields;
    FieldGoesOn(acc, s);
  }

  lemma {:induction false} FieldSpelled(f: Field, more: seq<Token>, errs: seq<ParseError>)
    requires DotsOnNames(f.value)
    ensures var s := State([StringToken(f.key)] + ([Token(COLON, ":")] + Grouped(f.value, [COMMA_TOKEN] + more)), errs);
      && Kind(s) == STRING && ParseField(s) == Parsed(f, State([COMMA_TOKEN] + more, errs))
      && SkipComma(State([COMMA_TOKEN] + more, errs)) == State(more, errs)
    decreases f.value, 5
  {
    hide Grouped, ParseExpr, SkipComma, DotsOnNames;
    var value := Grouped(f.value, [COMMA_TOKEN] + more);
    Front(StringToken(f.key), [Token(COLON, ":")] + value, errs);
    Front(Token(COLON, ":"), value, errs);
    OneReads(f.value, more, errs);
  }

  lemma FieldGoesOn(acc: seq<Field>, s: State)
    requires Kind(s) == STRING
    ensures var r := ParseField(s); ParseFields(acc, s) == ParseFields(acc + [r.val], SkipNewlines(SkipComma(r.next)))
  {
    hide ParseField;
  }

  lemma FieldsBegin(fs: seq<Field>, close: seq<Token>, errs: seq<ParseError>)
    requires close != [] && close[0].typ !in {NEWLINE, COMMENT}
    ensures SkipNewlines(State([NL] + SpelledFields(fs, close), errs)) == State(SpelledFields(fs, close), errs)
  {
    Front(NL, SpelledFields(fs, close), errs);
    hide Grouped;
  }
}
